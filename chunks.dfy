/** The retrieval records that the stores, the BM25 front end, the
    retriever and the pipeline pass between each other. */
module Chunks {
  import opened Wrappers
  import opened PyValues

  /** A retrieved passage: `{"text", "score", "meta", ...}`. `extra` holds
      any further fields (the BM25 front end adds `"length"`); every
      dictionary splice `{**d, "score": s}` keeps them. */
  datatype Chunk = Chunk(text: string, score: real, meta: Record, extra: Record)

  /** A stored document as `get_all_documents` returns it: its text and,
      when present, its metadata. */
  datatype CorpusDoc = CorpusDoc(text: string, meta: Option<Record>)

  function Score(c: Chunk): real { c.score }

  /** The chunk as the dictionary it is in the source. */
  function AsRecord(c: Chunk): (r: Record)
    ensures "score" in r && r["score"] == Num(c.score)
    ensures "text" in r && r["text"] == Str(c.text)
    ensures "meta" in r && r["meta"] == Dict(c.meta)
  {
    c.extra["text" := Str(c.text)]["score" := Num(c.score)]["meta" := Dict(c.meta)]
  }

  function AsRecords(cs: seq<Chunk>): (r: seq<Record>)
    ensures |r| == |cs|
    ensures forall i :: 0 <= i < |cs| ==> r[i] == AsRecord(cs[i])
  {
    seq(|cs|, i requires 0 <= i < |cs| => AsRecord(cs[i]))
  }
}
