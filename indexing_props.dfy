/** What the indexing script promises about its chunk ids, the shared
    metadata dictionaries, the handling of failed documents and the
    batches it upserts, proved on the value-level collection. */
module IndexingProps {
  import opened Wrappers
  import opened PyStrings
  import opened PyValues
  import opened Chunker
  import opened Indexing

  // ------------------------------------------------------------ chunk ids

  /** The id of a chunk with neither a `file` nor a `page` entry: the
      path `unknown`, resolved when it resolves (as `Path.resolve` always
      does, to an absolute path), then an empty page and the digest. */
  lemma IdDefaults(text: string, meta: Record, idx: nat, resolve: Resolve, sha1: Sha1)
    requires "file" !in meta && "page" !in meta
    ensures
      var src := if resolve("unknown").Some? then resolve("unknown").value else "unknown";
      MakeChunkId(text, meta, idx, resolve, sha1) ==
        Ok(src + "##" + Prefix(sha1(text + "|" + src + "||" + IntToString(idx)), 24))
  {
    var src := if resolve("unknown").Some? then resolve("unknown").value else "unknown";
    assert text + "|" + src + "|" + "" + "|" + IntToString(idx) == text + "|" + src + "||" + IntToString(idx);
    var p := Prefix(sha1(text + "|" + src + "||" + IntToString(idx)), 24);
    assert src + "#" + "" + "#" + p == src + "##" + p;
  }

  /** Building an id raises exactly when the `file` entry is present and
      not a string. */
  lemma IdRaises(text: string, meta: Record, idx: nat, resolve: Resolve, sha1: Sha1)
    ensures MakeChunkId(text, meta, idx, resolve, sha1).Err? <==> ("file" in meta && !meta["file"].Str?)
  {
  }

  /** The string that is hashed for the id of chunk `idx`. */
  function DigestInput(text: string, meta: Record, idx: nat, resolve: Resolve): string {
    var src := Get(meta, "file", Str("unknown"));
    var srcAbs := if src.Str? then (match resolve(src.s) case Some(a) => a case None => src.s) else "";
    text + "|" + srcAbs + "|" + Display(Get(meta, "page", Str(""))) + "|" + IntToString(idx)
  }

  /** An id ends with the first 24 characters of the digest of its input. */
  lemma IdEndsWithDigest(text: string, meta: Record, idx: nat, resolve: Resolve, sha1: Sha1)
    requires MakeChunkId(text, meta, idx, resolve, sha1).Ok?
    requires |sha1(DigestInput(text, meta, idx, resolve))| >= 24
    ensures
      var id := MakeChunkId(text, meta, idx, resolve, sha1).value;
      |id| >= 26 && id[|id| - 24..] == sha1(DigestInput(text, meta, idx, resolve))[..24]
  {
  }

  /** In `a|m` with `m` a run of digits, the bar sits at `|a|` and
      digits follow it. */
  lemma BarThenDigits(a: string, m: string)
    requires forall i :: 0 <= i < |m| ==> '0' <= m[i] <= '9'
    ensures (a + "|" + m)[|a|] == '|'
    ensures forall i :: |a| < i < |a| + 1 + |m| ==> '0' <= (a + "|" + m)[i] <= '9'
    ensures (a + "|" + m)[|a| + 1..] == m
  {
    var s := a + "|" + m;
    forall i | |a| < i < |a| + 1 + |m|
      ensures s[i] == m[i - |a| - 1]
    {
    }
  }

  /** `a|m` with `m` a run of digits: the digits after the last bar. */
  lemma LastField(a: string, m: string, b: string, n: string)
    requires forall i :: 0 <= i < |m| ==> '0' <= m[i] <= '9'
    requires forall i :: 0 <= i < |n| ==> '0' <= n[i] <= '9'
    requires a + "|" + m == b + "|" + n
    ensures m == n
  {
    BarThenDigits(a, m);
    BarThenDigits(b, n);
    assert |a| == |b|;
  }

  /** Different counters hash different strings, whatever the text, source
      and page. */
  lemma DigestInputsDiffer(t1: string, m1: Record, i1: nat, t2: string, m2: Record, i2: nat, resolve: Resolve)
    requires i1 != i2
    ensures DigestInput(t1, m1, i1, resolve) != DigestInput(t2, m2, i2, resolve)
  {
    if DigestInput(t1, m1, i1, resolve) == DigestInput(t2, m2, i2, resolve) {
      var s1 := Get(m1, "file", Str("unknown"));
      var s2 := Get(m2, "file", Str("unknown"));
      var a1 := if s1.Str? then (match resolve(s1.s) case Some(a) => a case None => s1.s) else "";
      var a2 := if s2.Str? then (match resolve(s2.s) case Some(a) => a case None => s2.s) else "";
      LastField(t1 + "|" + a1 + "|" + Display(Get(m1, "page", Str(""))), IntToString(i1),
                t2 + "|" + a2 + "|" + Display(Get(m2, "page", Str(""))), IntToString(i2));
      NatToStringInjective(i1, i2);
    }
  }

  // --------------------------------------------- ids over the collection

  /** Each chunk's id is `_make_chunk_id` of its text and metadata with the
      counter `start + j`. */
  predicate IdsFrom(xs: seq<Stored>, start: nat, resolve: Resolve, sha1: Sha1) {
    forall j :: 0 <= j < |xs| ==> MakeChunkId(xs[j].text, xs[j].meta, start + j, resolve, sha1) == Ok(xs[j].id)
  }

  /** The pairs are numbered from `start`, and no text is empty. */
  predicate PairsNumbered(ps: seq<(string, string)>, meta: Record, start: nat, resolve: Resolve, sha1: Sha1) {
    forall j :: 0 <= j < |ps| ==> ps[j].0 != "" && MakeChunkId(ps[j].0, meta, start + j, resolve, sha1) == Ok(ps[j].1)
  }

  /** Numbering one more non-empty text with the next index keeps the
      pairs numbered. */
  lemma PairsNumberedSnoc(ps: seq<(string, string)>, text: string, id: string, meta: Record, start: nat,
                          resolve: Resolve, sha1: Sha1)
    requires PairsNumbered(ps, meta, start, resolve, sha1)
    requires text != "" && MakeChunkId(text, meta, start + |ps|, resolve, sha1) == Ok(id)
    ensures PairsNumbered(ps + [(text, id)], meta, start, resolve, sha1)
  {
    var qs := ps + [(text, id)];
    forall j | 0 <= j < |qs|
      ensures qs[j].0 != "" && MakeChunkId(qs[j].0, meta, start + j, resolve, sha1) == Ok(qs[j].1)
    {
      if j < |ps| {
        assert qs[j] == ps[j];
      } else {
        assert qs[j] == (text, id);
      }
    }
  }

  /** One step keeps the pairs numbered. */
  lemma StepNumbered(prev: DocRun, text: string, meta: Record, start: nat, resolve: Resolve, sha1: Sha1)
    requires PairsNumbered(prev.pairs, meta, start, resolve, sha1)
    ensures PairsNumbered(Step(prev, text, meta, start, resolve, sha1).pairs, meta, start, resolve, sha1)
  {
    if !prev.stopped && text != "" {
      var r := MakeChunkId(text, meta, start + |prev.pairs|, resolve, sha1);
      if r.Ok? {
        PairsNumberedSnoc(prev.pairs, text, r.value, meta, start, resolve, sha1);
      }
    }
  }

  /** The kept chunks of a document are numbered consecutively from
      `start`: a skipped empty chunk uses no number. */
  lemma {:induction false} RunIds(clean: seq<string>, i: nat, meta: Record, start: nat, resolve: Resolve, sha1: Sha1)
    requires i <= |clean|
    ensures PairsNumbered(RunUpTo(clean, i, meta, start, resolve, sha1).pairs, meta, start, resolve, sha1)
    decreases i
  {
    if i > 0 {
      RunIds(clean, i - 1, meta, start, resolve, sha1);
      StepNumbered(RunUpTo(clean, i - 1, meta, start, resolve, sha1), clean[i - 1], meta, start, resolve, sha1);
    }
  }

  /** Writing the id into the metadata does not change the id it gives. */
  lemma StoredIds(pairs: seq<(string, string)>, meta: Record, start: nat, resolve: Resolve, sha1: Sha1)
    requires forall j :: 0 <= j < |pairs| ==> MakeChunkId(pairs[j].0, meta, start + j, resolve, sha1) == Ok(pairs[j].1)
    ensures IdsFrom(StoredOf(pairs, meta), start, resolve, sha1)
  {
    var r := StoredOf(pairs, meta);
    forall k | 0 <= k < |r|
      ensures MakeChunkId(r[k].text, r[k].meta, start + k, resolve, sha1) == Ok(r[k].id)
    {
      var v := if |meta| == 0 then Str(pairs[k].1) else Str(pairs[|pairs| - 1].1);
      if |meta| == 0 {
        assert meta == map[];
      }
      assert r[k].meta == meta["id" := v];
      MakeChunkIdIgnoresId(pairs[k].0, meta, v, start + k, resolve, sha1);
    }
  }

  lemma DocOutcomeIds(doc: Record, chunked: Result<DocChunks>, start: nat, resolve: Resolve, sha1: Sha1)
    requires DocOutcome(doc, chunked, start, resolve, sha1).Ok?
    ensures IdsFrom(DocOutcome(doc, chunked, start, resolve, sha1).value, start, resolve, sha1)
  {
    if chunked.Ok? {
      var dc := chunked.value;
      var clean := Stripped(dc.texts);
      var ps := RunDoc(dc.texts, dc.meta, start, resolve, sha1).pairs;
      assert ps == RunUpTo(clean, |clean|, dc.meta, start, resolve, sha1).pairs;
      RunIds(clean, |clean|, dc.meta, start, resolve, sha1);
      StoredIds(ps, dc.meta, start, resolve, sha1);
    }
  }

  /** `good` holds of each chunk of `xs` with the number `start + j`. */
  ghost predicate Numbered(xs: seq<Stored>, start: nat, good: (Stored, nat) -> bool) {
    forall j :: 0 <= j < |xs| ==> good(xs[j], start + j)
  }

  /** Every document's chunks are numbered from the count it is given. */
  ghost predicate OutcomeNumbered(outcome: Outcome, good: (Stored, nat) -> bool) {
    forall doc: Record, start: nat :: outcome(doc, start).Ok? ==> Numbered(outcome(doc, start).value, start, good)
  }

  function IdGood(resolve: Resolve, sha1: Sha1): (Stored, nat) -> bool {
    (c: Stored, k: nat) => MakeChunkId(c.text, c.meta, k, resolve, sha1) == Ok(c.id)
  }

  lemma DocOutcomesIds(splitter: Splitter, caption: Captioner, resolve: Resolve, sha1: Sha1)
    ensures OutcomeNumbered(DocOutcomes(splitter, caption, resolve, sha1), IdGood(resolve, sha1))
  {
    var outcome := DocOutcomes(splitter, caption, resolve, sha1);
    forall doc: Record, start: nat | outcome(doc, start).Ok?
      ensures Numbered(outcome(doc, start).value, start, IdGood(resolve, sha1))
    {
      DocOutcomeIds(doc, ToChunksFromDoc(doc, splitter, caption), start, resolve, sha1);
    }
  }

  /** Numbering per document from the running count numbers the whole
      collection from 0. */
  lemma {:induction false} CollectUpToNumbered(docs: seq<Record>, i: nat, outcome: Outcome, good: (Stored, nat) -> bool)
    requires i <= |docs| && CollectUpTo(docs, i, outcome).Ok? && OutcomeNumbered(outcome, good)
    ensures Numbered(CollectUpTo(docs, i, outcome).value, 0, good)
    decreases i
  {
    if i > 0 {
      CollectUpToNumbered(docs, i - 1, outcome, good);
      var prev := CollectUpTo(docs, i - 1, outcome).value;
      CollectStep(docs, i - 1, outcome);
      var more := outcome(docs[i - 1], |prev|).value;
      var all := prev + more;
      forall k | 0 <= k < |all|
        ensures good(all[k], k)
      {
        if k >= |prev| {
          assert all[k] == more[k - |prev|];
        }
      }
    }
  }

  /** The counter runs on across documents: the k-th collected chunk has
      the id `_make_chunk_id(text, meta, k)` of its own text and metadata. */
  lemma CollectIds(docs: seq<Record>, splitter: Splitter, caption: Captioner, resolve: Resolve, sha1: Sha1)
    requires Collect(docs, splitter, caption, resolve, sha1).Ok?
    ensures IdsFrom(Collect(docs, splitter, caption, resolve, sha1).value, 0, resolve, sha1)
  {
    DocOutcomesIds(splitter, caption, resolve, sha1);
    CollectUpToNumbered(docs, |docs|, DocOutcomes(splitter, caption, resolve, sha1), IdGood(resolve, sha1));
  }

  /** Two collected chunks get the same id only through a collision of the
      truncated digest on two different inputs. */
  lemma IdsDistinct(docs: seq<Record>, splitter: Splitter, caption: Captioner, resolve: Resolve, sha1: Sha1,
                    k1: nat, k2: nat)
    requires forall x :: |sha1(x)| >= 24
    requires Collect(docs, splitter, caption, resolve, sha1).Ok?
    requires k1 < k2 < |Collect(docs, splitter, caption, resolve, sha1).value|
    ensures
      var all := Collect(docs, splitter, caption, resolve, sha1).value;
      var x1 := DigestInput(all[k1].text, all[k1].meta, k1, resolve);
      var x2 := DigestInput(all[k2].text, all[k2].meta, k2, resolve);
      all[k1].id != all[k2].id || (x1 != x2 && sha1(x1)[..24] == sha1(x2)[..24])
  {
    var all := Collect(docs, splitter, caption, resolve, sha1).value;
    CollectIds(docs, splitter, caption, resolve, sha1);
    assert MakeChunkId(all[k1].text, all[k1].meta, k1, resolve, sha1) == Ok(all[k1].id);
    assert MakeChunkId(all[k2].text, all[k2].meta, k2, resolve, sha1) == Ok(all[k2].id);
    IdEndsWithDigest(all[k1].text, all[k1].meta, k1, resolve, sha1);
    IdEndsWithDigest(all[k2].text, all[k2].meta, k2, resolve, sha1);
    DigestInputsDiffer(all[k1].text, all[k1].meta, k1, all[k2].text, all[k2].meta, k2, resolve);
  }

  // ------------------------------------------------------------- dispatch

  /** A text document yields its chunker texts with the document's own
      metadata, without the `chunk_index` the chunker adds. */
  lemma TextDispatch(doc: Record, splitter: Splitter, caption: Captioner)
    requires Get(doc, "type", Null) == Str("text") && DocMeta(doc).Dict?
    ensures ToChunksFromDoc(doc, splitter, caption).Ok?
    ensures ToChunksFromDoc(doc, splitter, caption).value.meta == DocMeta(doc).entries
  {
    DictMetaNeverRaises(doc, splitter);
  }

  /** A captioned image yields the chunker texts of its caption, with a
      copy of the metadata marked `modality: "image"`. */
  lemma ImageDispatch(doc: Record, splitter: Splitter, caption: Captioner)
    requires Get(doc, "type", Null) == Str("image") && DocMeta(doc).Dict?
    requires var c := caption(Get(doc, "content", Null)); c.Some? && c.value != ""
    ensures ToChunksFromDoc(doc, splitter, caption).Ok?
    ensures
      var m := ToChunksFromDoc(doc, splitter, caption).value.meta;
      && "modality" in m && m["modality"] == Str("image")
      && m.Keys == DocMeta(doc).entries.Keys + {"modality"}
      && forall k :: k in DocMeta(doc).entries && k != "modality" ==> m[k] == DocMeta(doc).entries[k]
  {
    var c := caption(Get(doc, "content", Null)).value;
    var mm := DocMeta(doc).entries["modality" := Str("image")];
    DictMetaNeverRaises(map["content" := Str(c), "meta" := Dict(mm)], splitter);
  }

  /** An image without a caption yields nothing; the log line raises when
      the metadata is not a dictionary. */
  lemma UncaptionedImage(doc: Record, splitter: Splitter, caption: Captioner)
    requires Get(doc, "type", Null) == Str("image")
    requires var c := caption(Get(doc, "content", Null)); c.None? || c.value == ""
    ensures DocMeta(doc).Dict? ==> ToChunksFromDoc(doc, splitter, caption) == Ok(DocChunks([], map[]))
    ensures !DocMeta(doc).Dict? ==> ToChunksFromDoc(doc, splitter, caption).Err?
  {
  }

  /** Any other type yields nothing and never raises. */
  lemma OtherTypeYieldsNothing(doc: Record, splitter: Splitter, caption: Captioner)
    requires Get(doc, "type", Null) != Str("text") && Get(doc, "type", Null) != Str("image")
    ensures ToChunksFromDoc(doc, splitter, caption) == Ok(DocChunks([], map[]))
  {
  }

  /** The texts handed to the collection loop are already stripped and
      non-empty, so its own strip and skip change nothing. */
  lemma DispatchedTextsClean(doc: Record, splitter: Splitter, caption: Captioner)
    requires ToChunksFromDoc(doc, splitter, caption).Ok?
    ensures
      var texts := ToChunksFromDoc(doc, splitter, caption).value.texts;
      && (forall i :: 0 <= i < |texts| ==> texts[i] != "" && Strip(texts[i]) == texts[i])
      && Stripped(texts) == texts
  {
    var dc := ToChunksFromDoc(doc, splitter, caption).value;
    var dtype := Get(doc, "type", Null);
    if dtype == Str("text") {
      TextChunksClean(doc, splitter);
      TextsClean(TextChunks(doc, splitter).value);
    } else if dtype == Str("image") && dc.texts != [] {
      var c := caption(Get(doc, "content", Null)).value;
      var mm := DocMeta(doc).entries["modality" := Str("image")];
      var cdoc := map["content" := Str(c), "meta" := Dict(mm)];
      TextChunksClean(cdoc, splitter);
      TextsClean(TextChunks(cdoc, splitter).value);
    }
  }

  lemma TextsClean(ps: seq<Piece>)
    requires forall p :: p in ps ==> p.text != "" && Strip(p.text) == p.text
    ensures forall i :: 0 <= i < |Texts(ps)| ==> Texts(ps)[i] != "" && Strip(Texts(ps)[i]) == Texts(ps)[i]
    ensures Stripped(Texts(ps)) == Texts(ps)
  {
    assert forall i :: 0 <= i < |ps| ==> ps[i] in ps;
  }

  // ------------------------------------------------------ shared metadata

  /** After collection, a document with non-empty metadata shows the last
      id in every one of its chunks, because they all share one dictionary;
      chunks of a document with empty metadata each show their own id. */
  lemma SharedMetaShowsLastId(texts: seq<string>, meta: Record, start: nat, resolve: Resolve, sha1: Sha1)
    ensures
      var r := DocStored(texts, meta, start, resolve, sha1);
      forall k :: 0 <= k < |r| ==>
        && (|meta| == 0 ==> r[k].meta == map["id" := Str(r[k].id)])
        && (|meta| > 0 ==> r[k].meta == meta["id" := Str(r[|r| - 1].id)])
  {
  }

  // ----------------------------------------------------- failed documents

  /** When building an id raises, the chunks kept before it stay and the
      rest of the document is skipped. */
  lemma FailureKeepsEarlierChunks(clean: seq<string>, i: nat, meta: Record, start: nat, resolve: Resolve, sha1: Sha1)
    requires i < |clean| && clean[i] != ""
    requires !RunUpTo(clean, i, meta, start, resolve, sha1).stopped
    requires MakeChunkId(clean[i], meta, start + |RunUpTo(clean, i, meta, start, resolve, sha1).pairs|, resolve, sha1).Err?
    ensures RunUpTo(clean, |clean|, meta, start, resolve, sha1) == DocRun(RunUpTo(clean, i, meta, start, resolve, sha1).pairs, true)
  {
    RunDocStops(clean, meta, start, resolve, sha1, i + 1, |clean|);
  }

  /** The handler swallows the exception of a document whose `meta` entry
      is a dictionary or absent: the document adds the chunks it kept. */
  lemma FailureSwallowed(doc: Record, chunked: Result<DocChunks>, start: nat, resolve: Resolve, sha1: Sha1)
    requires !HandlerRaises(doc)
    ensures DocOutcome(doc, chunked, start, resolve, sha1).Ok?
    ensures chunked.Err? ==> DocOutcome(doc, chunked, start, resolve, sha1) == Ok([])
    ensures chunked.Ok? ==>
      DocOutcome(doc, chunked, start, resolve, sha1) ==
      Ok(StoredOf(RunDoc(chunked.value.texts, chunked.value.meta, start, resolve, sha1).pairs, chunked.value.meta))
  {
  }

  /** Only the handler of a failed document can raise. */
  ghost predicate RaisesOnlyThroughHandler(outcome: Outcome) {
    forall doc: Record, start: nat :: outcome(doc, start).Err? ==> HandlerRaises(doc)
  }

  lemma {:induction false} CollectUpToRaises(docs: seq<Record>, i: nat, outcome: Outcome)
    requires i <= |docs| && RaisesOnlyThroughHandler(outcome)
    ensures CollectUpTo(docs, i, outcome).Err? ==> exists k :: 0 <= k < i && HandlerRaises(docs[k])
    decreases i
  {
    if i > 0 {
      CollectUpToRaises(docs, i - 1, outcome);
      if CollectUpTo(docs, i - 1, outcome).Ok? {
        CollectStep(docs, i - 1, outcome);
      }
    }
  }

  /** Indexing raises only when a failed document's raw `meta` entry is not
      a dictionary; otherwise every failure is swallowed and the later
      documents are still processed. */
  lemma CollectRaises(docs: seq<Record>, splitter: Splitter, caption: Captioner, resolve: Resolve, sha1: Sha1)
    ensures Collect(docs, splitter, caption, resolve, sha1).Err? ==>
      exists k :: 0 <= k < |docs| && HandlerRaises(docs[k])
  {
    var outcome := DocOutcomes(splitter, caption, resolve, sha1);
    forall doc: Record, start: nat | outcome(doc, start).Err?
      ensures HandlerRaises(doc)
    {
      assert outcome(doc, start) == DocOutcome(doc, ToChunksFromDoc(doc, splitter, caption), start, resolve, sha1);
    }
    CollectUpToRaises(docs, |docs|, outcome);
  }

  // -------------------------------------------------------------- batches

  /** Every batch holds between 1 and 50 chunks. */
  lemma BatchSizes<T>(xs: seq<T>)
    ensures forall j :: 0 <= j < |Batches(xs)| ==> 1 <= |Batches(xs)[j]| <= BatchSize
  {
  }

  /** The first batch, then the batches of the rest. */
  lemma BatchesCons<T>(xs: seq<T>)
    requires xs != []
    ensures Batches(xs) == [xs[..Min(BatchSize, |xs|)]] + Batches(xs[Min(BatchSize, |xs|)..])
  {
    var n := Min(BatchSize, |xs|);
    var rest := xs[n..];
    if |xs| <= BatchSize {
      assert NumBatches(|xs|) == 1;
      assert NumBatches(|rest|) == 0;
    } else {
      assert NumBatches(|xs|) == 1 + NumBatches(|rest|);
      forall j | 0 <= j < NumBatches(|rest|)
        ensures BatchAt(xs, j + 1) == BatchAt(rest, j)
      {
      }
    }
  }

  /** The batches together are the chunks, once each and in order. */
  lemma {:induction false} FlattenBatches<T>(xs: seq<T>)
    ensures Flatten(Batches(xs)) == xs
    decreases |xs|
  {
    if xs != [] {
      BatchesCons(xs);
      var n := Min(BatchSize, |xs|);
      FlattenBatches(xs[n..]);
      assert Batches(xs)[1..] == Batches(xs[n..]);
      assert xs[..n] + xs[n..] == xs;
    } else {
      assert NumBatches(0) == 0;
    }
  }

  /** When no upsert raises, the store has received every chunk once, in
      order; otherwise it stopped at the first batch it rejected. */
  lemma UpsertedChunks(all: seq<Stored>, accepts: seq<Stored> -> bool)
    ensures
      var bs := Batches(all);
      var n := Accepted(accepts, bs);
      && (n == |bs| ==> Flatten(bs[..Min(n + 1, |bs|)]) == all)
      && (n < |bs| ==> |bs[..Min(n + 1, |bs|)]| == n + 1 && !accepts(bs[n]))
  {
    var bs := Batches(all);
    if Accepted(accepts, bs) == |bs| {
      assert bs[..Min(|bs| + 1, |bs|)] == bs;
      FlattenBatches(all);
    }
  }
}
