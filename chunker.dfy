/** Post-processing of a document's splitter output: each piece is
    stripped, empty pieces are dropped, and each kept piece carries the
    document's metadata plus its position in the splitter output. */
module Chunker {
  import opened Wrappers
  import opened PyStrings
  import opened PyValues

  /** `splitter.split_text`, left abstract (the text splitter library). */
  type Splitter = string -> seq<string>

  /** A yielded `{"text": ..., "meta": ...}`. */
  datatype Piece = Piece(text: string, meta: Record)

  /** `doc.get("meta", {}) or {}`. */
  function DocMeta(doc: Record): Value {
    Or(Get(doc, "meta", Dict(map[])), Dict(map[]))
  }

  /** `doc.get("content", "")`. */
  function DocContent(doc: Record): Value {
    Get(doc, "content", Str(""))
  }

  /** Content that yields nothing: not a string, or only whitespace. */
  predicate Blank(content: Value) {
    !content.Str? || Strip(content.s) == ""
  }

  /** The kept pieces of a splitter output, with `chunk_index` set to each
      piece's position in it. */
  function Kept(parts: seq<string>, meta: Record): seq<Piece> {
    if parts == [] then []
    else
      var n := |parts| - 1;
      var clean := Strip(parts[n]);
      Kept(parts[..n], meta) + (if clean == "" then [] else [Piece(clean, meta["chunk_index" := Int(n)])])
  }

  /** The positions of the kept pieces in the splitter output. */
  function KeptPositions(parts: seq<string>): (r: seq<nat>)
    ensures forall j :: 0 <= j < |r| ==> r[j] < |parts|
  {
    if parts == [] then []
    else
      var n := |parts| - 1;
      KeptPositions(parts[..n]) + (if Strip(parts[n]) == "" then [] else [n])
  }

  /** What `chunk_text_doc(doc, splitter)` yields, or the error it raises:
      with a metadata value that is not a dict, `meta.get` in the log line
      raises on the first kept piece, before anything is yielded. */
  function TextChunks(doc: Record, splitter: Splitter): Result<seq<Piece>> {
    var content := DocContent(doc);
    if Blank(content) then Ok([])
    else
      var meta := DocMeta(doc);
      if meta.Dict? then Ok(Kept(splitter(content.s), meta.entries))
      else if Kept(splitter(content.s), map[]) == [] then Ok([])
      else Err(AttributeError)
  }

  /** `chunk_text_doc(doc, splitter)`, its yields collected in order. */
  method ChunkTextDoc(doc: Record, splitter: Splitter) returns (res: Result<seq<Piece>>)
    ensures res == TextChunks(doc, splitter)
  {
    var meta := DocMeta(doc);
    var content := DocContent(doc);
    if !content.Str? || Strip(content.s) == "" {
      return Ok([]);
    }
    var chunks := splitter(content.s);
    var out: seq<Piece> := [];
    var i := 0;
    while i < |chunks|
      invariant Yielded(chunks, i, meta, out)
    {
      KeptSnoc(chunks, i, if meta.Dict? then meta.entries else map[]);
      var chunkClean := Strip(chunks[i]);
      if chunkClean == "" {
        i := i + 1;
        continue;
      }
      if !meta.Dict? {
        KeptAtPositions(chunks, map[]);
        KeptPositionsComplete(chunks);
        return Err(AttributeError);
      }
      out := out + [Piece(chunkClean, meta.entries["chunk_index" := Int(i)])];
      i := i + 1;
    }
    assert chunks[..i] == chunks;
    return Ok(out);
  }

  /** The loop of `chunk_text_doc` has yielded the kept pieces of the first
      `i` parts; with metadata that is not a dictionary, none was kept. */
  ghost predicate Yielded(chunks: seq<string>, i: int, meta: Value, out: seq<Piece>) {
    && 0 <= i <= |chunks|
    && (meta.Dict? ==> out == Kept(chunks[..i], meta.entries))
    && (!meta.Dict? ==> out == [] && Kept(chunks[..i], map[]) == [])
  }

  lemma KeptSnoc(parts: seq<string>, i: nat, meta: Record)
    requires i < |parts|
    ensures Kept(parts[..i + 1], meta) ==
      Kept(parts[..i], meta) + (if Strip(parts[i]) == "" then [] else [Piece(Strip(parts[i]), meta["chunk_index" := Int(i)])])
  {
    assert parts[..i + 1][..i] == parts[..i];
  }

  // ---------------------------------------------------------------- lemmas

  /** The j-th kept piece is the stripped part at the j-th kept position,
      and its meta is the document's meta with `chunk_index` set to that
      position. */
  lemma {:induction false} KeptAtPositions(parts: seq<string>, meta: Record)
    ensures |Kept(parts, meta)| == |KeptPositions(parts)|
    ensures forall j :: 0 <= j < |KeptPositions(parts)| ==>
      var p := KeptPositions(parts)[j];
      Kept(parts, meta)[j] == Piece(Strip(parts[p]), meta["chunk_index" := Int(p)])
  {
    if parts != [] {
      var n := |parts| - 1;
      var init := parts[..n];
      KeptAtPositions(init, meta);
      var o := KeptPositions(parts);
      var oi := KeptPositions(init);
      var k := Kept(parts, meta);
      var ki := Kept(init, meta);
      assert forall j :: 0 <= j < |oi| ==> o[j] == oi[j];
      assert forall j :: 0 <= j < |ki| ==> k[j] == ki[j];
      forall j | 0 <= j < |o|
        ensures k[j] == Piece(Strip(parts[o[j]]), meta["chunk_index" := Int(o[j])])
      {
        if j < |oi| {
          assert init[oi[j]] == parts[o[j]];
        }
      }
    }
  }

  /** The kept positions strictly increase: the pieces keep the splitter's
      order, and a dropped piece leaves a gap in the indices. */
  lemma {:induction false} KeptPositionsIncrease(parts: seq<string>)
    ensures forall j, k :: 0 <= j < k < |KeptPositions(parts)| ==> KeptPositions(parts)[j] < KeptPositions(parts)[k]
  {
    if parts != [] {
      var n := |parts| - 1;
      KeptPositionsIncrease(parts[..n]);
      var o := KeptPositions(parts);
      var oi := KeptPositions(parts[..n]);
      assert forall j :: 0 <= j < |oi| ==> o[j] == oi[j] && oi[j] < n;
    }
  }

  /** Every part that is not blank is kept. */
  lemma {:induction false} KeptPositionsComplete(parts: seq<string>)
    ensures forall i :: 0 <= i < |parts| && Strip(parts[i]) != "" ==> i in KeptPositions(parts)
  {
    if parts != [] {
      var n := |parts| - 1;
      var init := parts[..n];
      KeptPositionsComplete(init);
      var o := KeptPositions(parts);
      assert o == KeptPositions(init) + (if Strip(parts[n]) == "" then [] else [n]);
      forall i | 0 <= i < |parts| && Strip(parts[i]) != ""
        ensures i in o
      {
        if i < n {
          assert init[i] == parts[i];
        }
      }
    }
  }

  /** Every yielded text is stripped and non-empty. */
  lemma {:induction false} KeptStripped(parts: seq<string>, meta: Record)
    ensures forall p :: p in Kept(parts, meta) ==> p.text != "" && Strip(p.text) == p.text
  {
    if parts != [] {
      var n := |parts| - 1;
      KeptStripped(parts[..n], meta);
      StripIdempotent(parts[n]);
    }
  }

  /** Every yielded meta is the document's meta with `chunk_index` added
      or overridden; no other key changes. */
  lemma {:induction false} KeptMeta(parts: seq<string>, meta: Record)
    ensures forall p :: p in Kept(parts, meta) ==>
      && "chunk_index" in p.meta && p.meta["chunk_index"].Int?
      && 0 <= p.meta["chunk_index"].i < |parts|
      && (forall k :: k in meta && k != "chunk_index" ==> k in p.meta && p.meta[k] == meta[k])
      && p.meta.Keys == meta.Keys + {"chunk_index"}
  {
    if parts != [] {
      KeptMeta(parts[..|parts| - 1], meta);
    }
  }

  /** Every text `chunk_text_doc` yields is stripped and non-empty. */
  lemma TextChunksClean(doc: Record, splitter: Splitter)
    requires TextChunks(doc, splitter).Ok?
    ensures forall p :: p in TextChunks(doc, splitter).value ==> p.text != "" && Strip(p.text) == p.text
  {
    var content := DocContent(doc);
    if !Blank(content) && DocMeta(doc).Dict? {
      KeptStripped(splitter(content.s), DocMeta(doc).entries);
    }
  }

  /** Content that is not a string or is only whitespace yields nothing,
      whatever the splitter would do. */
  lemma BlankYieldsNothing(doc: Record, splitter: Splitter)
    requires Blank(DocContent(doc))
    ensures TextChunks(doc, splitter) == Ok([])
  {
  }

  /** With dict metadata the call never raises. */
  lemma DictMetaNeverRaises(doc: Record, splitter: Splitter)
    requires DocMeta(doc).Dict?
    ensures TextChunks(doc, splitter).Ok?
  {
  }

  /** Pieces that are only whitespace carry no weight: dropping them from
      the splitter output leaves the yielded texts unchanged. */
  lemma {:induction false} KeptSkipsBlank(parts: seq<string>, blank: string, meta: Record)
    requires Strip(blank) == ""
    ensures |Kept(parts + [blank], meta)| == |Kept(parts, meta)|
    ensures Kept(parts + [blank], meta) == Kept(parts, meta)
  {
    assert (parts + [blank])[..|parts|] == parts;
  }
}
