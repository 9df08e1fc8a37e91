/** The question-answering pipeline: defensive retrieval, the prompt, one
    generation call, the citation tag, the confidence score and the
    hallucination flag, with a fixed answer when generation fails. */
module Pipeline {
  import opened Wrappers
  import opened PyStrings
  import opened PyValues
  import opened Chunks
  import opened Citations
  import opened Guardrails

  /** What `self.retriever.retrieve(question)` did: it raised, or it
      returned a list of arbitrary records. */
  datatype Retrieval = RetrieveRaised | Returned(records: seq<Value>)

  /** What `await self.llm.generate(prompt)` did: it raised, or it returned
      a value (normally a string). */
  datatype Generation = GenerateRaised | Generated(output: Value)

  /** The dictionary `run` returns. */
  datatype Answer = Answer(answer: string, confidence: real, hallucinationFlag: bool, retrieved: seq<Chunk>)

  const FailureMessage := "LLM failed to generate response."

  // ------------------------------------------------------- record coercion

  /** `float(r.get("score", 0.0))`, or 0.0 when the conversion raises. */
  function ScoreField(e: Record, parseFloat: string -> Option<real>): real {
    match ToFloat(Get(e, "score", Num(0.0)), parseFloat)
    case Ok(x) => x
    case Err(_) => 0.0
  }

  /** `r.get("meta") if isinstance(r.get("meta"), dict) else {}`. */
  function MetaField(e: Record): Record {
    var m := Get(e, "meta", Null);
    if m.Dict? then m.entries else map[]
  }

  /** One record as the loop of `_safe_retrieve` sees it: kept, as a
      normalized chunk, only when it is a dict whose `text` is a string. */
  function Coerce(r: Value, parseFloat: string -> Option<real>): Option<Chunk> {
    if !r.Dict? then None
    else
      var text := Get(r.entries, "text", Null);
      if !text.Str? then None
      else Some(Chunk(text.s, ScoreField(r.entries, parseFloat), MetaField(r.entries), map[]))
  }

  /** The normalized list for a list of records, in input order. */
  function Normalized(rs: seq<Value>, parseFloat: string -> Option<real>): (r: seq<Chunk>)
    ensures |r| <= |rs|
  {
    if rs == [] then []
    else
      var last := match Coerce(rs[|rs| - 1], parseFloat) case Some(c) => [c] case None => [];
      Normalized(rs[..|rs| - 1], parseFloat) + last
  }

  /** What `_safe_retrieve` returns for a given retriever outcome. */
  function Retrieved(outcome: Retrieval, parseFloat: string -> Option<real>): seq<Chunk> {
    match outcome
    case RetrieveRaised => []
    case Returned(rs) => Normalized(rs, parseFloat)
  }

  /** The positions of the records that survive coercion. */
  function Origins(rs: seq<Value>, parseFloat: string -> Option<real>): (r: seq<nat>)
    ensures forall j :: 0 <= j < |r| ==> r[j] < |rs|
  {
    if rs == [] then []
    else
      var n := |rs| - 1;
      Origins(rs[..n], parseFloat) + (if Coerce(rs[n], parseFloat).Some? then [n] else [])
  }

  predicate Increasing(s: seq<nat>) {
    forall i, j :: 0 <= i < j < |s| ==> s[i] < s[j]
  }

  /** The returned answer when generation goes wrong. */
  function Fallback(retrieved: seq<Chunk>): Answer {
    Answer(FailureMessage, 0.0, true, retrieved)
  }

  /** `"[doc:" in (answer_cited or "")` for a string answer. */
  predicate HasCitation(answer: string) {
    Contains(answer, "[doc:")
  }

  class RAGPipeline {
    /** `self.retriever.retrieve`, as a function of the question. */
    const retriever: string -> Retrieval
    /** `self.llm.generate`, as a function of the prompt. */
    const generator: string -> Generation
    /** `RAG_PROMPT.format(question=..., context=...)`. */
    const promptFormat: (string, string) -> string
    /** Python's `float()` on a string. */
    const parseFloat: string -> Option<real>
    /** `math.exp`. */
    const exp: Exp

    constructor (retriever: string -> Retrieval, generator: string -> Generation,
                 promptFormat: (string, string) -> string, parseFloat: string -> Option<real>, exp: Exp)
      ensures this.retriever == retriever && this.generator == generator
      ensures this.promptFormat == promptFormat
      ensures this.parseFloat == parseFloat && this.exp == exp
    {
      this.retriever := retriever;
      this.generator := generator;
      this.promptFormat := promptFormat;
      this.parseFloat := parseFloat;
      this.exp := exp;
    }

    /** `_safe_retrieve(question)`: the records that carry a string text,
        normalized to `{text, score, meta}`; nothing when the retriever
        raises. */
    method SafeRetrieve(question: string) returns (normalized: seq<Chunk>)
      ensures normalized == Retrieved(retriever(question), parseFloat)
    {
      var outcome := retriever(question);
      if outcome.RetrieveRaised? {
        return [];
      }
      var results := outcome.records;
      normalized := [];
      var i := 0;
      while i < |results|
        invariant 0 <= i <= |results|
        invariant normalized == Normalized(results[..i], parseFloat)
      {
        var r := results[i];
        assert results[..i + 1][..i] == results[..i];
        i := i + 1;
        if !r.Dict? {
          continue;
        }
        var text := Get(r.entries, "text", Null);
        if !text.Str? {
          continue;
        }
        var score: real;
        var converted := ToFloat(Get(r.entries, "score", Num(0.0)), parseFloat);
        if converted.Ok? {
          score := converted.value;
        } else {
          score := 0.0;
        }
        var meta := if Get(r.entries, "meta", Null).Dict? then Get(r.entries, "meta", Null).entries else map[];
        normalized := normalized + [Chunk(text.s, score, meta, map[])];
      }
      assert results[..i] == results;
    }

    /** `run(question)`: the answer for the first three normalized chunks
        and the generator's outcome on the prompt built from them. */
    method Run(question: string) returns (res: Answer)
      ensures
        var retrieved := Prefix(Retrieved(retriever(question), parseFloat), 3);
        res == Respond(retrieved, generator(promptFormat(question, Join(Lines(retrieved), "\n"))), exp)
      ensures |res.retrieved| <= 3 && 0.0 <= res.confidence <= 1.0
    {
      var all := SafeRetrieve(question);
      var retrieved := Prefix(all, 3);
      var context := FormatContext(retrieved);
      var prompt := promptFormat(question, context);
      var generation := generator(prompt);
      // `answer_raw[:300]` is evaluated inside the `try`: of the values
      // modelled only a string can be sliced, so any other makes it raise
      // and the fallback is returned (lists are not modelled).
      if generation.GenerateRaised? || !generation.output.Str? {
        return Fallback(retrieved);
      }
      var answerRaw := generation.output;
      var answerCited: Value;
      var cited := AttachCitations(Or(answerRaw, Str("")), retrieved);
      if cited.Ok? {
        answerCited := cited.value;
      } else {
        answerCited := answerRaw;
      }
      CitedIsString(answerRaw.s, retrieved);
      var answer := answerCited.s;
      var conf := ConfidenceScore(AsRecords(retrieved), |answer|, exp);
      var flagged := HallucinationFlag(HasCitation(answer), conf);
      assert answer == CitedAnswer(retrieved, answerRaw.s);
      PrefixOfPrefix(all, 3, 5);
      assert Prefix(retrieved, 5) == retrieved;
      res := Answer(answer, conf, flagged, Prefix(retrieved, 5));
      assert res == Respond(retrieved, generation, exp);
    }
  }

  /** The answer text for a generated string: the text itself when nothing
      was retrieved, else the stripped text tagged with the first chunk's
      source id. */
  function CitedAnswer(retrieved: seq<Chunk>, raw: string): string {
    if retrieved == [] then raw
    else Strip(raw) + " [doc:" + SourceId(retrieved[0].meta) + "]"
  }

  /** The dictionary `run` returns for the retrieved chunks and the
      generator's outcome. */
  function Respond(retrieved: seq<Chunk>, generation: Generation, exp: Exp): Answer {
    if generation.GenerateRaised? || !generation.output.Str? then Fallback(retrieved)
    else
      var answer := CitedAnswer(retrieved, generation.output.s);
      var conf := ConfidenceScore(AsRecords(retrieved), |answer|, exp);
      Answer(answer, conf, HallucinationFlag(HasCitation(answer), conf), retrieved)
  }

  /** Citing a string never raises, so the `except` branch around
      `attach_citations` is never taken for a generated string. */
  lemma CitedIsString(raw: string, retrieved: seq<Chunk>)
    ensures AttachCitations(Or(Str(raw), Str("")), retrieved) == Ok(Str(CitedAnswer(retrieved, raw)))
  {
  }

  // ---------------------------------------------------------------- lemmas

  lemma NormalizedSnoc(rs: seq<Value>, r: Value, parseFloat: string -> Option<real>)
    ensures Normalized(rs + [r], parseFloat) ==
      Normalized(rs, parseFloat) + (match Coerce(r, parseFloat) case Some(c) => [c] case None => [])
  {
    assert (rs + [r])[..|rs|] == rs;
  }

  /** `_safe_retrieve` keeps exactly the records that are dicts with a
      string text, in their input order: `Origins` lists their positions,
      and the i-th normalized chunk is the coercion of the i-th of them. */
  lemma {:induction false} NormalizedOrigins(rs: seq<Value>, parseFloat: string -> Option<real>)
    ensures |Origins(rs, parseFloat)| == |Normalized(rs, parseFloat)|
    ensures Increasing(Origins(rs, parseFloat))
    ensures forall j :: 0 <= j < |Origins(rs, parseFloat)| ==>
      Coerce(rs[Origins(rs, parseFloat)[j]], parseFloat) == Some(Normalized(rs, parseFloat)[j])
    ensures forall i :: 0 <= i < |rs| && Coerce(rs[i], parseFloat).Some? ==> i in Origins(rs, parseFloat)
  {
    if rs != [] {
      var n := |rs| - 1;
      var init := rs[..n];
      NormalizedOrigins(init, parseFloat);
      assert forall i :: 0 <= i < n ==> init[i] == rs[i];
      var o := Origins(rs, parseFloat);
      var oi := Origins(init, parseFloat);
      assert forall j :: 0 <= j < |oi| ==> oi[j] < n;
      assert forall j :: 0 <= j < |oi| ==> o[j] == oi[j];
    }
  }

  /** A record that is not a dict, or whose `text` is missing or not a
      string, is dropped; a kept record's score falls back to 0.0 when
      `float()` raises, and its meta to `{}` when it is not a dict. */
  lemma CoerceRules(r: Value, parseFloat: string -> Option<real>)
    ensures !r.Dict? ==> Coerce(r, parseFloat) == None
    ensures r.Dict? && !Get(r.entries, "text", Null).Str? ==> Coerce(r, parseFloat) == None
    ensures r.Dict? && Get(r.entries, "text", Null).Str? ==>
      && Coerce(r, parseFloat).Some?
      && Coerce(r, parseFloat).value.text == r.entries["text"].s
      && (ToFloat(Get(r.entries, "score", Num(0.0)), parseFloat).Err? ==> Coerce(r, parseFloat).value.score == 0.0)
      && ("score" !in r.entries ==> Coerce(r, parseFloat).value.score == 0.0)
      && (ToFloat(Get(r.entries, "score", Num(0.0)), parseFloat).Ok? ==>
            Coerce(r, parseFloat).value.score == ToFloat(Get(r.entries, "score", Num(0.0)), parseFloat).value)
      && ("meta" in r.entries && r.entries["meta"].Dict? ==> Coerce(r, parseFloat).value.meta == r.entries["meta"].entries)
      && (("meta" !in r.entries || !r.entries["meta"].Dict?) ==> Coerce(r, parseFloat).value.meta == map[])
  {
  }

  /** Every answer keeps the retrieved list and has a confidence in [0, 1];
      a failed or non-string generation gives exactly the fixed fallback. */
  lemma RespondShape(retrieved: seq<Chunk>, generation: Generation, exp: Exp)
    ensures Respond(retrieved, generation, exp).retrieved == retrieved
    ensures 0.0 <= Respond(retrieved, generation, exp).confidence <= 1.0
    ensures generation.GenerateRaised? || !generation.output.Str? ==>
      Respond(retrieved, generation, exp) == Answer("LLM failed to generate response.", 0.0, true, retrieved)
  {
  }

  /** With at least one retrieved chunk and a string from the generator the
      answer carries the first chunk's citation, so the flag is raised
      exactly when the confidence is below 0.4. */
  lemma FlagFollowsConfidence(retrieved: seq<Chunk>, raw: string, exp: Exp)
    requires retrieved != []
    ensures HasCitation(Respond(retrieved, Generated(Str(raw)), exp).answer)
    ensures Respond(retrieved, Generated(Str(raw)), exp).hallucinationFlag <==>
      Respond(retrieved, Generated(Str(raw)), exp).confidence < 0.4
  {
    TaggedShape(Strip(raw), SourceId(retrieved[0].meta));
  }

  /** With nothing retrieved the answer is the generated text as it is,
      its confidence is 0, and it is always flagged. */
  lemma EmptyRetrievalScoresZero(raw: string, exp: Exp)
    ensures Respond([], Generated(Str(raw)), exp) == Answer(raw, 0.0, true, [])
  {
  }
}
