/** Rendering retrieved chunks as numbered context lines for the prompt, and
    appending a `[doc:<source id>]` tag for the top chunk to an answer. */
module Citations {
  import opened Wrappers
  import opened PyStrings
  import opened PyValues
  import opened Chunks

  /** `meta.get("file", meta.get("id", "unknown"))`. */
  function Source(meta: Record): Value {
    Get(meta, "file", Get(meta, "id", Str("unknown")))
  }

  /** `meta.get("page", "")`. */
  function Page(meta: Record): Value {
    Get(meta, "page", Str(""))
  }

  /** `f"{src}#p{page}" if page else src`. */
  function SourceId(meta: Record): string {
    if Truthy(Page(meta)) then Display(Source(meta)) + "#p" + Display(Page(meta))
    else Display(Source(meta))
  }

  /** `f"[{i}] {ch['text']} (source_id={sid})"`. */
  function Line(i: nat, c: Chunk): string {
    "[" + NatToString(i) + "] " + c.text + " (source_id=" + SourceId(c.meta) + ")"
  }

  /** The numbered lines of the context, one per chunk, in order. */
  function Lines(chunks: seq<Chunk>): (r: seq<string>)
    ensures |r| == |chunks|
  {
    seq(|chunks|, i requires 0 <= i < |chunks| => Line(i, chunks[i]))
  }

  /** `format_context(chunks)`. */
  method FormatContext(chunks: seq<Chunk>) returns (context: string)
    ensures context == Join(Lines(chunks), "\n")
    ensures chunks == [] ==> context == ""
  {
    var lines: seq<string> := [];
    var i := 0;
    while i < |chunks|
      invariant 0 <= i <= |chunks| && lines == Lines(chunks)[..i]
    {
      assert Lines(chunks)[..i + 1] == Lines(chunks)[..i] + [Lines(chunks)[i]];
      lines := lines + [Line(i, chunks[i])];
      i := i + 1;
    }
    assert lines == Lines(chunks);
    context := Join(lines, "\n");
  }

  /** `attach_citations(answer, chunks)`: with no chunks the answer comes
      back unchanged; otherwise it is stripped and tagged with the first
      chunk's source id. Stripping anything but a string raises. */
  function AttachCitations(answer: Value, chunks: seq<Chunk>): (r: Result<Value>)
    ensures chunks == [] ==> r == Ok(answer)
    ensures chunks != [] && !answer.Str? ==> r == Err(AttributeError)
  {
    if chunks == [] then Ok(answer)
    else if !answer.Str? then Err(AttributeError)
    else Ok(Str(Strip(answer.s) + " [doc:" + SourceId(chunks[0].meta) + "]"))
  }

  // ---------------------------------------------------------------- lemmas

  lemma ContainsExtend(s: string, sub: string, post: string)
    requires Contains(s, sub)
    ensures Contains(s + post, sub)
  {
    var i :| 0 <= i <= |s| && SubstringAt(s, sub, i);
    assert (s + post)[i..i + |sub|] == s[i..i + |sub|];
    assert SubstringAt(s + post, sub, i);
  }

  /** Every element of a joined list occurs in the joined string. */
  lemma {:induction false} JoinContains(xs: seq<string>, sep: string, i: nat)
    requires i < |xs|
    ensures Contains(Join(xs, sep), xs[i])
  {
    var n := |xs|;
    if n == 1 {
      ContainsAt("", xs[0], "");
      assert "" + xs[0] + "" == xs[0];
    } else if i == n - 1 {
      ContainsAt(Join(xs[..n - 1], sep) + sep, xs[i], "");
      assert Join(xs[..n - 1], sep) + sep + xs[i] + "" == Join(xs, sep);
    } else {
      JoinContains(xs[..n - 1], sep, i);
      ContainsExtend(Join(xs[..n - 1], sep), xs[i], sep + xs[n - 1]);
      assert Join(xs[..n - 1], sep) + (sep + xs[n - 1]) == Join(xs, sep);
    }
  }

  /** The context holds the line of every chunk, numbered by its position. */
  lemma ContextHasEveryChunk(chunks: seq<Chunk>, i: nat)
    requires i < |chunks|
    ensures Contains(Join(Lines(chunks), "\n"), Line(i, chunks[i]))
  {
    JoinContains(Lines(chunks), "\n", i);
  }

  /** Each context line is `[i] text (source_id=sid)`: it holds the chunk's
      text and its source id, between brackets and parentheses. */
  lemma LineParts(i: nat, c: Chunk)
    ensures Contains(Line(i, c), c.text)
    ensures Contains(Line(i, c), "(source_id=" + SourceId(c.meta) + ")")
    ensures Line(i, c)[0] == '[' && Line(i, c)[|Line(i, c)| - 1] == ')'
  {
    var pre := "[" + NatToString(i) + "] ";
    var tail := "(source_id=" + SourceId(c.meta) + ")";
    var post := " " + tail;
    assert Line(i, c) == pre + c.text + post;
    ContainsAt(pre, c.text, post);
    assert Line(i, c) == (pre + c.text + " ") + tail + "";
    ContainsAt(pre + c.text + " ", tail, "");
  }

  /** The source-id rule: the `file` entry, else the `id` entry, else
      `unknown`; a `#p<page>` suffix only when the page is truthy. */
  lemma SourceIdRule(meta: Record)
    ensures "file" in meta ==> Source(meta) == meta["file"]
    ensures "file" !in meta && "id" in meta ==> Source(meta) == meta["id"]
    ensures "file" !in meta && "id" !in meta ==> Source(meta) == Str("unknown")
    ensures "page" !in meta ==> SourceId(meta) == Display(Source(meta))
    ensures "page" in meta && Truthy(meta["page"]) ==>
      SourceId(meta) == Display(Source(meta)) + "#p" + Display(meta["page"])
    ensures "page" in meta && !Truthy(meta["page"]) ==> SourceId(meta) == Display(Source(meta))
  {
  }

  /** With chunks and a string answer, the result is the stripped answer
      followed by a `[doc:...]` tag naming the first chunk's source. */
  lemma AttachedCitationShape(answer: string, chunks: seq<Chunk>)
    requires chunks != []
    ensures AttachCitations(Str(answer), chunks).Ok?
    ensures AttachCitations(Str(answer), chunks).value.Str?
    ensures
      var r := AttachCitations(Str(answer), chunks).value.s;
      var tag := "[doc:" + SourceId(chunks[0].meta) + "]";
      && r == Strip(answer) + " " + tag
      && Contains(r, tag)
      && Contains(r, "[doc:")
      && r[..|Strip(answer)|] == Strip(answer)
      && |r| >= |tag| && r[|r| - |tag|..] == tag
      && r[|r| - 1] == ']'
  {
    TaggedShape(Strip(answer), SourceId(chunks[0].meta));
  }

  lemma TaggedShape(body: string, sid: string)
    ensures
      var r := body + " [doc:" + sid + "]";
      var tag := "[doc:" + sid + "]";
      && r == body + " " + tag
      && Contains(r, tag)
      && Contains(r, "[doc:")
      && r[..|body|] == body
      && r[|r| - |tag|..] == tag
      && r[|r| - 1] == ']'
  {
    var pre := body + " ";
    var tag := "[doc:" + sid + "]";
    var r := body + " [doc:" + sid + "]";
    assert r == pre + tag + "";
    ContainsAt(pre, tag, "");
    assert r[|pre|..|pre| + 5] == "[doc:";
    assert SubstringAt(r, "[doc:", |pre|);
    assert r[..|body|] == body;
    assert r[|r| - |tag|..] == tag;
  }

  /** Only the first chunk decides the tag. */
  lemma CitationUsesFirstChunk(answer: Value, first: Chunk, rest: seq<Chunk>)
    ensures AttachCitations(answer, [first] + rest) == AttachCitations(answer, [first])
  {
  }
}
