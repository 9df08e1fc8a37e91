/** The indexing script: documents are dispatched by type to the chunker,
    each kept chunk gets an id built from its source, page, a truncated
    digest and a running counter, the id is written into the chunk's
    metadata dictionary in place, and the chunks are upserted in batches
    of 50. */
module Indexing {
  import opened Wrappers
  import opened PyStrings
  import opened PyValues
  import opened Chunker

  /** `hashlib.sha1(s.encode("utf-8")).hexdigest()`, left abstract. */
  type Sha1 = string -> string
  /** `str(Path(src).resolve())` for a string path; None when it raises. */
  type Resolve = string -> Option<string>
  /** `_fastvlm_caption(content)`: a caption, or None. */
  type Captioner = Value -> Option<string>

  const BatchSize: nat := 50

  // ------------------------------------------------------------ dispatch

  /** What `_to_chunks_from_doc` yields for one document: the texts of its
      chunks, and the one metadata dictionary they all share. */
  datatype DocChunks = DocChunks(texts: seq<string>, meta: Record)

  function Texts(ps: seq<Piece>): (r: seq<string>)
    ensures |r| == |ps| && forall i :: 0 <= i < |ps| ==> r[i] == ps[i].text
  {
    seq(|ps|, i requires 0 <= i < |ps| => ps[i].text)
  }

  /** `_to_chunks_from_doc(doc, splitter)`: a text document yields its
      chunker texts with the document's own metadata; an image yields the
      chunker texts of its caption with `modality: "image"` added to a copy
      of the metadata, or nothing when there is no caption; any other type
      yields nothing. Each raise happens before anything is yielded. */
  function ToChunksFromDoc(doc: Record, splitter: Splitter, caption: Captioner): Result<DocChunks> {
    var dtype := Get(doc, "type", Null);
    var meta := DocMeta(doc);
    if dtype == Str("text") then
      match TextChunks(doc, splitter)
      case Err(e) => Err(e)
      case Ok(ps) => Ok(DocChunks(Texts(ps), if meta.Dict? then meta.entries else map[]))
    else if dtype == Str("image") then
      var cap := caption(Get(doc, "content", Null));
      if cap.None? || cap.value == "" then
        // the log line calls `meta.get`
        if meta.Dict? then Ok(DocChunks([], map[])) else Err(AttributeError)
      else if !meta.Dict? then Err(TypeError)
      else
        var mm := meta.entries["modality" := Str("image")];
        match TextChunks(map["content" := Str(cap.value), "meta" := Dict(mm)], splitter)
        case Err(e) => Err(e)
        case Ok(ps) => Ok(DocChunks(Texts(ps), mm))
    else Ok(DocChunks([], map[]))
  }

  // ------------------------------------------------------------ chunk ids

  /** `_make_chunk_id(text, meta, idx)`. A `file` entry that is not a string
      makes `Path()` raise, which is caught, and then the concatenation
      with the text raises. */
  function MakeChunkId(text: string, meta: Record, idx: nat, resolve: Resolve, sha1: Sha1): Result<string> {
    var src := Get(meta, "file", Str("unknown"));
    var srcAbs := if src.Str? then (match resolve(src.s) case Some(a) => Str(a) case None => src) else src;
    var page := Display(Get(meta, "page", Str("")));
    if !srcAbs.Str? then Err(TypeError)
    else
      var digest := sha1(text + "|" + srcAbs.s + "|" + page + "|" + IntToString(idx));
      Ok(srcAbs.s + "#" + page + "#" + Prefix(digest, 24))
  }

  // ------------------------------------------------ collection, on values

  /** A chunk as the store receives it. */
  datatype Stored = Stored(id: string, text: string, meta: Record)

  /** The (text, id) pairs one document contributes, numbered from
      `start`; `stopped` records that building an id raised, which ends the
      document. */
  datatype DocRun = DocRun(pairs: seq<(string, string)>, stopped: bool)

  /** One chunk `ch.get("text", "").strip()` of the document: skipped
      when empty, otherwise numbered with the next index; nothing more once
      stopped. */
  function Step(prev: DocRun, text: string, meta: Record, start: nat, resolve: Resolve, sha1: Sha1): DocRun {
    if prev.stopped || text == "" then prev
    else
      match MakeChunkId(text, meta, start + |prev.pairs|, resolve, sha1)
      case Err(_) => DocRun(prev.pairs, true)
      case Ok(id) => DocRun(prev.pairs + [(text, id)], false)
  }

  function Stripped(texts: seq<string>): (r: seq<string>)
    ensures |r| == |texts|
  {
    seq(|texts|, i requires 0 <= i < |texts| => Strip(texts[i]))
  }

  /** The run after the first `i` of the stripped texts `clean`. */
  function RunUpTo(clean: seq<string>, i: nat, meta: Record, start: nat, resolve: Resolve, sha1: Sha1): DocRun
    requires i <= |clean|
  {
    if i == 0 then DocRun([], false)
    else Step(RunUpTo(clean, i - 1, meta, start, resolve, sha1), clean[i - 1], meta, start, resolve, sha1)
  }

  function RunDoc(texts: seq<string>, meta: Record, start: nat, resolve: Resolve, sha1: Sha1): DocRun {
    RunUpTo(Stripped(texts), |texts|, meta, start, resolve, sha1)
  }

  /** The metadata a collected chunk shows once collection is over. A
      non-empty dictionary is shared by all chunks of its document and
      holds the last id written into it; an empty one is falsy, so each
      chunk got a fresh dictionary of its own. */
  function FinalMeta(meta: Record, pairs: seq<(string, string)>, k: nat): Record
    requires k < |pairs|
  {
    if |meta| == 0 then map["id" := Str(pairs[k].1)]
    else meta["id" := Str(pairs[|pairs| - 1].1)]
  }

  /** The chunks of a run as the store sees them. */
  function StoredOf(pairs: seq<(string, string)>, meta: Record): (r: seq<Stored>)
    ensures |r| == |pairs|
  {
    seq(|pairs|, k requires 0 <= k < |pairs| => Stored(pairs[k].1, pairs[k].0, FinalMeta(meta, pairs, k)))
  }

  /** What one document contributes, numbered from `start`. */
  function DocStored(texts: seq<string>, meta: Record, start: nat, resolve: Resolve, sha1: Sha1): seq<Stored> {
    StoredOf(RunDoc(texts, meta, start, resolve, sha1).pairs, meta)
  }

  /** The shared dictionary after the chunks of `pairs`: it holds the last
      id written, unless it is empty and so was never written. */
  function SharedNow(meta: Record, pairs: seq<(string, string)>): Record {
    if |meta| == 0 || pairs == [] then meta else meta["id" := Str(pairs[|pairs| - 1].1)]
  }

  /** The handler of a failed document calls `d.get("meta", {}).get(...)`
      without `or {}`, so it raises again unless that entry is a dict. */
  predicate HandlerRaises(doc: Record) {
    !Get(doc, "meta", Dict(map[])).Dict?
  }

  /** What one document adds to the collected chunks, numbered from
      `start`, given what `_to_chunks_from_doc` gives for it. When chunking
      it raises, the chunks kept before are kept and
      the exception is swallowed, unless the handler raises in turn. */
  function DocOutcome(doc: Record, chunked: Result<DocChunks>, start: nat, resolve: Resolve, sha1: Sha1)
    : Result<seq<Stored>>
  {
    match chunked
    case Err(_) => if HandlerRaises(doc) then Err(AttributeError) else Ok([])
    case Ok(dc) =>
      var run := RunDoc(dc.texts, dc.meta, start, resolve, sha1);
      if run.stopped && HandlerRaises(doc) then Err(AttributeError)
      else Ok(StoredOf(run.pairs, dc.meta))
  }

  /** What one document contributes, given the number of chunks kept
      before it. */
  type Outcome = (Record, nat) -> Result<seq<Stored>>

  function DocOutcomes(splitter: Splitter, caption: Captioner, resolve: Resolve, sha1: Sha1): Outcome {
    (doc: Record, start: nat) => DocOutcome(doc, ToChunksFromDoc(doc, splitter, caption), start, resolve, sha1)
  }

  /** The chunks collected from the first `i` documents, or the exception
      that escapes the loop and ends it. */
  function CollectUpTo(docs: seq<Record>, i: nat, outcome: Outcome): Result<seq<Stored>>
    requires i <= |docs|
  {
    if i == 0 then Ok([])
    else
      match CollectUpTo(docs, i - 1, outcome)
      case Err(e) => Err(e)
      case Ok(prev) =>
        match outcome(docs[i - 1], |prev|)
        case Err(e) => Err(e)
        case Ok(more) => Ok(prev + more)
  }

  /** The chunks `index_directory` collects from `docs`, as the store sees
      them. */
  function Collect(docs: seq<Record>, splitter: Splitter, caption: Captioner, resolve: Resolve, sha1: Sha1)
    : Result<seq<Stored>>
  {
    CollectUpTo(docs, |docs|, DocOutcomes(splitter, caption, resolve, sha1))
  }

  // ------------------------------------------------------------- batching

  function Min(a: int, b: int): int { if a < b then a else b }

  function NumBatches(n: nat): nat { (n + BatchSize - 1) / BatchSize }

  /** `chunks[start : start + 50]` for the j-th `start` of the range. */
  function BatchAt<T>(xs: seq<T>, j: nat): seq<T>
    requires j < NumBatches(|xs|)
  {
    xs[BatchSize * j .. Min(BatchSize * j + BatchSize, |xs|)]
  }

  function Batches<T>(xs: seq<T>): (r: seq<seq<T>>)
    ensures |r| == NumBatches(|xs|)
  {
    seq(NumBatches(|xs|), j requires 0 <= j < NumBatches(|xs|) => BatchAt(xs, j))
  }

  function Flatten<T>(bs: seq<seq<T>>): seq<T> {
    if bs == [] then [] else bs[0] + Flatten(bs[1..])
  }

  /** The number of batches upserted before the first one the store
      rejects, or all of them. */
  function Accepted(accepts: seq<Stored> -> bool, bs: seq<seq<Stored>>): (r: nat)
    ensures r <= |bs|
    ensures forall j :: 0 <= j < r ==> accepts(bs[j])
    ensures r < |bs| ==> !accepts(bs[r])
  {
    if bs == [] || !accepts(bs[0]) then 0 else 1 + Accepted(accepts, bs[1..])
  }

  // ----------------------------------------------------- the mutable state

  /** A metadata dictionary object; chunks of one document share one. */
  class MetaDict {
    var entries: Record

    constructor (entries: Record)
      ensures this.entries == entries
    {
      this.entries := entries;
    }
  }

  /** A collected `{"id", "text", "meta"}` whose meta is a live dictionary. */
  datatype Collected = Collected(id: string, text: string, meta: MetaDict)

  function MetasOf(chunks: seq<Collected>): set<MetaDict> {
    set k | 0 <= k < |chunks| :: chunks[k].meta
  }

  /** The chunks as their dictionaries read now. */
  function Observe(chunks: seq<Collected>): (r: seq<Stored>)
    reads MetasOf(chunks)
    ensures |r| == |chunks|
    ensures forall k :: 0 <= k < |chunks| ==> r[k] == Stored(chunks[k].id, chunks[k].text, chunks[k].meta.entries)
  {
    seq(|chunks|, k requires 0 <= k < |chunks| reads MetasOf(chunks) => Stored(chunks[k].id, chunks[k].text, chunks[k].meta.entries))
  }

  /** The FAISS store, reduced to the log of its `upsert` calls; `accepts`
      says which batches it takes without raising. */
  class Store {
    var batches: seq<seq<Stored>>
    const accepts: seq<Stored> -> bool

    constructor (accepts: seq<Stored> -> bool)
      ensures batches == [] && this.accepts == accepts
    {
      batches := [];
      this.accepts := accepts;
    }

    /** `store.upsert(batch)`; false when it raises. */
    method Upsert(batch: seq<Stored>) returns (ok: bool)
      modifies this
      ensures batches == old(batches) + [batch]
      ensures ok == accepts(batch)
    {
      batches := batches + [batch];
      ok := accepts(batch);
    }
  }

  // ------------------------------------------------------------ the loops

  /** `index_directory(data_dir)`: 0 when the directory is missing or
      nothing was collected, 0 when an upsert raises, and otherwise the
      number of chunks, upserted in order in batches of 50. The loader is
      reduced to `dirExists` and the documents it would load. */
  method IndexDirectory(dirExists: bool, docs: seq<Record>, splitter: Splitter, caption: Captioner,
                        resolve: Resolve, sha1: Sha1, store: Store)
    returns (count: Result<nat>)
    modifies store
    ensures !dirExists ==> count == Ok(0) && store.batches == old(store.batches)
    ensures dirExists && Collect(docs, splitter, caption, resolve, sha1).Err? ==>
      count == Err(AttributeError) && store.batches == old(store.batches)
    ensures dirExists && Collect(docs, splitter, caption, resolve, sha1) == Ok([]) ==>
      count == Ok(0) && store.batches == old(store.batches)
    ensures dirExists && Collect(docs, splitter, caption, resolve, sha1).Ok? ==>
      var all := Collect(docs, splitter, caption, resolve, sha1).value;
      var bs := Batches(all);
      var n := Accepted(store.accepts, bs);
      && store.batches == old(store.batches) + bs[..Min(n + 1, |bs|)]
      && count == Ok(if all != [] && n == |bs| then |all| else 0)
  {
    if !dirExists {
      return Ok(0);
    }
    var chunks, raised := CollectChunks(docs, splitter, caption, resolve, sha1);
    if raised {
      return Err(AttributeError);
    }
    if |chunks| == 0 {
      return Ok(0);
    }
    var all := Observe(chunks);
    var ok := UpsertBatches(all, store);
    return Ok(if ok then |all| else 0);
  }

  /** The upsert loop of `index_directory`: the chunks go to the store in
      order, 50 at a time, until one call raises; `ok` says that none did. */
  method UpsertBatches(all: seq<Stored>, store: Store) returns (ok: bool)
    modifies store
    ensures
      var bs := Batches(all);
      var n := Accepted(store.accepts, bs);
      && store.batches == old(store.batches) + bs[..Min(n + 1, |bs|)]
      && ok == (n == |bs|)
  {
    var total := |all|;
    var start := 0;
    ghost var j := 0;
    while start < total
      invariant Sent(all, start, j, store.accepts)
      invariant store.batches == old(store.batches) + Batches(all)[..j]
    {
      NextBatch(all, start, j, store.accepts);
      var batch := all[start..Min(start + BatchSize, total)];
      ok := store.Upsert(batch);
      if !ok {
        return false;
      }
      start := start + BatchSize;
      j := j + 1;
    }
    NextBatch(all, start, j, store.accepts);
    return true;
  }

  /** The batch the upsert loop sends next, and what it has sent once the
      chunks run out. */
  lemma NextBatch(all: seq<Stored>, start: int, j: nat, accepts: seq<Stored> -> bool)
    requires Sent(all, start, j, accepts)
    ensures start < |all| ==>
      && j < |Batches(all)| && 0 <= start
      && all[start..Min(start + BatchSize, |all|)] == Batches(all)[j]
      && Batches(all)[..j + 1] == Batches(all)[..j] + [Batches(all)[j]]
      && (accepts(Batches(all)[j]) ==> Sent(all, start + BatchSize, j + 1, accepts))
      && (!accepts(Batches(all)[j]) ==> Min(Accepted(accepts, Batches(all)) + 1, |Batches(all)|) == j + 1)
    ensures start >= |all| ==> j == |Batches(all)| && Accepted(accepts, Batches(all)) == j && Batches(all)[..j] == Batches(all)
  {
  }

  /** The upsert loop has sent the first `j` batches, all accepted, and
      the next starts at `start`. */
  ghost predicate Sent(all: seq<Stored>, start: int, j: nat, accepts: seq<Stored> -> bool) {
    start == BatchSize * j && j <= NumBatches(|all|) && j <= Accepted(accepts, Batches(all))
  }

  /** The collection loop of `index_directory` over all documents, with
      `idx` counting the chunks kept so far; `raised` says that an
      exception escaped it. */
  method CollectChunks(docs: seq<Record>, splitter: Splitter, caption: Captioner, resolve: Resolve, sha1: Sha1)
    returns (chunks: seq<Collected>, raised: bool)
    ensures raised == Collect(docs, splitter, caption, resolve, sha1).Err?
    ensures !raised ==> Observe(chunks) == Collect(docs, splitter, caption, resolve, sha1).value
  {
    ghost var outcome := DocOutcomes(splitter, caption, resolve, sha1);
    chunks := [];
    var idx := 0;
    raised := false;
    var i := 0;
    while i < |docs| && !raised
      invariant 0 <= i <= |docs| && idx == |chunks|
      invariant raised == CollectUpTo(docs, i, outcome).Err?
      invariant !raised ==> Observe(chunks) == CollectUpTo(docs, i, outcome).value
    {
      ghost var prev := CollectUpTo(docs, i, outcome).value;
      assert |prev| == idx;
      var next, idx', raised' := CollectDocument(docs[i], chunks, idx, splitter, caption, resolve, sha1, outcome);
      assert Observe(chunks) == prev;
      CollectStep(docs, i, outcome);
      chunks, idx, raised := next, idx', raised';
      i := i + 1;
    }
    if raised {
      CollectErrSticks(docs, i, |docs|, outcome);
    }
  }

  /** One document of the collection loop: its chunks are appended after
      those kept so far. */
  method CollectDocument(doc: Record, chunks: seq<Collected>, idx: nat, splitter: Splitter,
                         caption: Captioner, resolve: Resolve, sha1: Sha1, ghost outcome: Outcome)
    returns (chunks': seq<Collected>, idx': nat, raised: bool)
    requires idx == |chunks| && outcome == DocOutcomes(splitter, caption, resolve, sha1)
    ensures idx' == |chunks'|
    ensures raised == outcome(doc, idx).Err?
    ensures !raised ==> Observe(chunks') == Observe(chunks) + outcome(doc, idx).value
  {
    var r := ToChunksFromDoc(doc, splitter, caption);
    assert outcome(doc, idx) == DocOutcome(doc, r, idx, resolve, sha1);
    if r.Err? {
      return chunks, idx, HandlerRaises(doc);
    }
    var shared := new MetaDict(r.value.meta);
    ghost var before := Observe(chunks);
    var entries, stopped := CollectDoc(r.value.texts, shared, idx, resolve, sha1);
    assert Observe(chunks) == before;
    ObserveAppend(chunks, entries);
    chunks' := chunks + entries;
    idx' := idx + |entries|;
    raised := stopped && HandlerRaises(doc);
  }

  /** The inner loop of `index_directory` over one document's chunks, which
      all carry the dictionary `shared`. */
  method CollectDoc(texts: seq<string>, shared: MetaDict, start: nat, resolve: Resolve, sha1: Sha1)
    returns (entries: seq<Collected>, stopped: bool)
    modifies shared
    ensures Observe(entries) == DocStored(texts, old(shared.entries), start, resolve, sha1)
    ensures stopped == RunDoc(texts, old(shared.entries), start, resolve, sha1).stopped
    ensures Aliasing(entries, old(shared.entries), shared)
  {
    ghost var meta0 := shared.entries;
    ghost var run := DocRun([], false);
    entries := [];
    var idx := start;
    var i := 0;
    stopped := false;
    while i < |texts| && !stopped
      invariant Progress(texts, i, run, stopped, meta0, start, resolve, sha1)
      invariant DocState(entries, idx, run, meta0, start, shared)
    {
      entries, idx, stopped, run := ProcessChunk(entries, texts, i, shared, idx, run, meta0, start, resolve, sha1);
      i := i + 1;
    }
    RunDone(texts, i, run, meta0, start, resolve, sha1);
  }

  /** How far the inner loop has got: `i` texts, reaching `run`. */
  ghost predicate Progress(texts: seq<string>, i: int, run: DocRun, stopped: bool, meta: Record, start: nat, resolve: Resolve, sha1: Sha1) {
    0 <= i <= |texts| && run == RunUpTo(Stripped(texts), i, meta, start, resolve, sha1) && stopped == run.stopped
  }

  lemma NextRun(texts: seq<string>, i: nat, run: DocRun, meta: Record, start: nat, resolve: Resolve, sha1: Sha1)
    requires i < |texts| && Progress(texts, i, run, false, meta, start, resolve, sha1)
    ensures var next := Step(run, Strip(texts[i]), meta, start, resolve, sha1);
      Progress(texts, i + 1, next, next.stopped, meta, start, resolve, sha1)
  {
    assert Stripped(texts)[i] == Strip(texts[i]);
  }

  /** The run a loop that ended after `i` texts has reached is the run of
      the whole document. */
  lemma RunDone(texts: seq<string>, i: nat, run: DocRun, meta: Record, start: nat, resolve: Resolve, sha1: Sha1)
    requires i <= |texts| && run == RunUpTo(Stripped(texts), i, meta, start, resolve, sha1)
    requires i == |texts| || run.stopped
    ensures RunDoc(texts, meta, start, resolve, sha1) == run
  {
    if run.stopped {
      RunDocStops(Stripped(texts), meta, start, resolve, sha1, i, |texts|);
    }
  }

  /** One iteration of the inner loop: the chunk's text is stripped, an
      empty one is skipped, and a kept one is stamped and appended; `stop`
      says that building its id raised, which ends the document. */
  method ProcessChunk(entries: seq<Collected>, texts: seq<string>, i: nat, shared: MetaDict, idx: nat,
                      ghost run: DocRun, ghost meta0: Record, ghost start: nat, resolve: Resolve, sha1: Sha1)
    returns (entries': seq<Collected>, idx': nat, stop: bool, ghost run': DocRun)
    requires i < |texts| && Progress(texts, i, run, false, meta0, start, resolve, sha1)
    requires DocState(entries, idx, run, meta0, start, shared)
    modifies shared
    ensures Progress(texts, i + 1, run', stop, meta0, start, resolve, sha1)
    ensures DocState(entries', idx', run', meta0, start, shared)
  {
    var raw := texts[i];
    var text := Strip(raw);
    run' := Step(run, text, meta0, start, resolve, sha1);
    NextRun(texts, i, run, meta0, start, resolve, sha1);
    if text == "" {
      return entries, idx, false, run';
    }
    var cid;
    cid, entries' := AppendChunk(entries, text, shared, idx, run.pairs, meta0, resolve, sha1);
    if cid.Err? {
      return entries', idx, true, run';
    }
    assert run' == DocRun(run.pairs + [(text, cid.value)], false);
    idx' := idx + 1;
    stop := false;
  }

  /** One kept chunk of the loop: its dictionary stamped with its id and the
      chunk appended; `shared` reads as the chunks so far have left it. */
  method AppendChunk(entries: seq<Collected>, text: string, shared: MetaDict, idx: nat,
                     ghost pairs: seq<(string, string)>, ghost meta0: Record, resolve: Resolve, sha1: Sha1)
    returns (cid: Result<string>, entries': seq<Collected>)
    requires Observe(entries) == StoredOf(pairs, meta0)
    requires shared.entries == SharedNow(meta0, pairs)
    requires Aliasing(entries, meta0, shared)
    modifies shared
    ensures cid == MakeChunkId(text, meta0, idx, resolve, sha1)
    ensures cid.Err? ==> entries' == entries && Observe(entries) == StoredOf(pairs, meta0) && shared.entries == old(shared.entries)
    ensures cid.Ok? ==>
      && Observe(entries') == StoredOf(pairs + [(text, cid.value)], meta0)
      && shared.entries == SharedNow(meta0, pairs + [(text, cid.value)])
      && Aliasing(entries', meta0, shared)
      && |entries'| == |entries| + 1 && entries'[..|entries|] == entries
  {
    IgnoresId(text, meta0, pairs, idx, resolve, sha1);
    ObservedIds(entries, pairs, meta0);
    ghost var before := Observe(entries);
    var meta;
    cid, meta := StampChunk(text, shared, idx, resolve, sha1);
    if cid.Err? {
      assert Observe(entries) == before;
      return cid, entries;
    }
    ghost var pair := (text, cid.value);
    var c := Collected(cid.value, text, meta);
    SharedNowSnoc(meta0, pairs, pair);
    if |meta0| == 0 {
      assert Observe(entries) == before;
      FreshStep(entries, c, pairs, meta0, pair);
    } else {
      SharedStep(entries, c, pairs, meta0, pair, shared);
    }
    AliasingSnoc(entries, c, meta0, shared);
    entries' := entries + [c];
    assert entries'[..|entries|] == entries;
  }

  /** One chunk of the loop: `meta = ch.get("meta", {}) or {}` (a fresh
      dictionary when the shared one is empty), the id built from it, and
      the id written into it; nothing is written when building it raises. */
  method StampChunk(text: string, shared: MetaDict, idx: nat, resolve: Resolve, sha1: Sha1)
    returns (cid: Result<string>, meta: MetaDict)
    modifies shared
    ensures |old(shared.entries)| > 0 ==> meta == shared
    ensures |old(shared.entries)| == 0 ==> fresh(meta) && shared.entries == old(shared.entries)
    ensures
      var m := if |old(shared.entries)| == 0 then map[] else old(shared.entries);
      && cid == MakeChunkId(text, m, idx, resolve, sha1)
      && meta.entries == if cid.Ok? then m["id" := Str(cid.value)] else m
  {
    meta := shared;
    if |shared.entries| == 0 {
      meta := new MetaDict(map[]);
    }
    cid := MakeChunkId(text, meta.entries, idx, resolve, sha1);
    if cid.Ok? {
      meta.entries := meta.entries["id" := Str(cid.value)];
    }
  }

  /** The state of the inner loop: the chunks collected so far read as the
      run says, and the shared dictionary holds the last id written. */
  ghost predicate DocState(entries: seq<Collected>, idx: int, run: DocRun, meta0: Record, start: nat, shared: MetaDict)
    reads shared, MetasOf(entries)
  {
    && |entries| == |run.pairs| && idx == start + |entries|
    && Observe(entries) == StoredOf(run.pairs, meta0)
    && shared.entries == SharedNow(meta0, run.pairs)
    && Aliasing(entries, meta0, shared)
  }

  /** Which dictionary each chunk of a document carries: the shared one
      when it is non-empty, and never the shared one when it is empty. */
  ghost predicate Aliasing(entries: seq<Collected>, meta0: Record, shared: MetaDict) {
    && (|meta0| > 0 ==> forall k :: 0 <= k < |entries| ==> entries[k].meta == shared)
    && (|meta0| == 0 ==> forall k :: 0 <= k < |entries| ==> entries[k].meta != shared)
  }

  // Writing the next id into the shared dictionary overwrites the last one.
  lemma SharedNowSnoc(meta: Record, pairs: seq<(string, string)>, pair: (string, string))
    ensures |meta| > 0 ==> SharedNow(meta, pairs)["id" := Str(pair.1)] == meta["id" := Str(pair.1)]
    ensures SharedNow(meta, pairs + [pair]) == if |meta| == 0 then meta else meta["id" := Str(pair.1)]
  {
    if |meta| > 0 && pairs != [] {
      var a, b := SharedNow(meta, pairs)["id" := Str(pair.1)], meta["id" := Str(pair.1)];
      assert a.Keys == b.Keys;
      assert forall k :: k in a ==> a[k] == b[k];
    }
  }

  lemma AliasingSnoc(es: seq<Collected>, c: Collected, meta: Record, shared: MetaDict)
    requires Aliasing(es, meta, shared)
    requires |meta| > 0 ==> c.meta == shared
    requires |meta| == 0 ==> c.meta != shared
    ensures Aliasing(es + [c], meta, shared)
  {
    assert forall k :: 0 <= k < |es| ==> (es + [c])[k] == es[k];
  }

  // The ids and texts of the collected chunks do not live in the heap.
  lemma ObservedIds(es: seq<Collected>, pairs: seq<(string, string)>, meta: Record)
    requires Observe(es) == StoredOf(pairs, meta)
    ensures |es| == |pairs|
    ensures forall k :: 0 <= k < |es| ==> es[k].id == pairs[k].1 && es[k].text == pairs[k].0
  {
    assert forall k :: 0 <= k < |es| ==> Observe(es)[k] == StoredOf(pairs, meta)[k];
  }

  // With an empty shared dictionary, a new chunk leaves the others alone.
  lemma FreshStep(es: seq<Collected>, c: Collected, pairs: seq<(string, string)>, meta: Record, pair: (string, string))
    requires |meta| == 0
    requires Observe(es) == StoredOf(pairs, meta)
    requires c.id == pair.1 && c.text == pair.0 && c.meta.entries == map["id" := Str(pair.1)]
    ensures Observe(es + [c]) == StoredOf(pairs + [pair], meta)
  {
    var l, r := Observe(es + [c]), StoredOf(pairs + [pair], meta);
    forall k | 0 <= k < |l|
      ensures l[k] == r[k]
    {
      if k < |es| {
        assert l[k] == Observe(es)[k];
        assert r[k] == StoredOf(pairs, meta)[k];
      }
    }
  }

  // With a non-empty one, every chunk of the document now shows the new id.
  lemma SharedStep(es: seq<Collected>, c: Collected, pairs: seq<(string, string)>, meta: Record,
                   pair: (string, string), shared: MetaDict)
    requires |meta| > 0
    requires |es| == |pairs|
    requires forall k :: 0 <= k < |es| ==> es[k].id == pairs[k].1 && es[k].text == pairs[k].0 && es[k].meta == shared
    requires c.id == pair.1 && c.text == pair.0 && c.meta == shared
    requires shared.entries == meta["id" := Str(pair.1)]
    ensures Observe(es + [c]) == StoredOf(pairs + [pair], meta)
  {
    var l, r := Observe(es + [c]), StoredOf(pairs + [pair], meta);
    forall k | 0 <= k < |l|
      ensures l[k] == r[k]
    {
      if k < |es| {
        assert (es + [c])[k] == es[k];
      }
    }
  }

  /** The `or {}` and the id written by earlier chunks do not change the id:
      `_make_chunk_id` reads only `file` and `page`. */
  lemma IgnoresId(text: string, meta: Record, pairs: seq<(string, string)>, idx: nat, resolve: Resolve, sha1: Sha1)
    ensures var m := SharedNow(meta, pairs);
      && (|m| == 0 <==> |meta| == 0)
      && MakeChunkId(text, if |m| == 0 then map[] else m, idx, resolve, sha1) == MakeChunkId(text, meta, idx, resolve, sha1)
  {
    var m := SharedNow(meta, pairs);
    if |meta| > 0 && pairs != [] {
      assert "id" in m;
      MakeChunkIdIgnoresId(text, meta, Str(pairs[|pairs| - 1].1), idx, resolve, sha1);
    }
    if |meta| == 0 {
      assert meta == map[];
    }
  }

  /** Once an id could not be built, the rest of the document is skipped. */
  lemma {:induction false} RunDocStops(clean: seq<string>, meta: Record, start: nat, resolve: Resolve, sha1: Sha1, i: nat, j: nat)
    requires i <= j <= |clean| && RunUpTo(clean, i, meta, start, resolve, sha1).stopped
    ensures RunUpTo(clean, j, meta, start, resolve, sha1) == RunUpTo(clean, i, meta, start, resolve, sha1)
    decreases j
  {
    if i < j {
      RunDocStops(clean, meta, start, resolve, sha1, i, j - 1);
    }
  }

  lemma MakeChunkIdIgnoresId(text: string, meta: Record, v: Value, idx: nat, resolve: Resolve, sha1: Sha1)
    ensures MakeChunkId(text, meta["id" := v], idx, resolve, sha1) == MakeChunkId(text, meta, idx, resolve, sha1)
  {
    var m := meta["id" := v];
    assert Get(m, "file", Str("unknown")) == Get(meta, "file", Str("unknown"));
    assert Get(m, "page", Str("")) == Get(meta, "page", Str(""));
  }

  lemma ObserveAppend(a: seq<Collected>, b: seq<Collected>)
    ensures Observe(a + b) == Observe(a) + Observe(b)
  {
    var l, r := Observe(a + b), Observe(a) + Observe(b);
    forall k | 0 <= k < |l|
      ensures l[k] == r[k]
    {
      if k < |a| {
        assert (a + b)[k] == a[k];
      } else {
        assert (a + b)[k] == b[k - |a|];
      }
    }
  }

  /** An exception that escapes the collection loop ends it. */
  lemma CollectStep(docs: seq<Record>, i: nat, outcome: Outcome)
    requires i < |docs| && CollectUpTo(docs, i, outcome).Ok?
    ensures
      var prev := CollectUpTo(docs, i, outcome).value;
      var more := outcome(docs[i], |prev|);
      && (more.Err? <==> CollectUpTo(docs, i + 1, outcome).Err?)
      && (more.Ok? ==> CollectUpTo(docs, i + 1, outcome).value == prev + more.value)
  {
  }

  lemma {:induction false} CollectErrSticks(docs: seq<Record>, i: nat, j: nat, outcome: Outcome)
    requires i <= j <= |docs| && CollectUpTo(docs, i, outcome).Err?
    ensures CollectUpTo(docs, j, outcome).Err?
    decreases j
  {
    if i < j {
      CollectErrSticks(docs, i, j - 1, outcome);
    }
  }
}
