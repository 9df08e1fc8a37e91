/** The hybrid retriever: max-score normalisation, reciprocal-rank fusion
    and `HybridRetriever`, whose `retrieve` as written returns the
    normalised vector results only. */
module Hybrid {
  import opened Wrappers
  import opened PyStrings
  import opened PyValues
  import opened Chunks
  import opened Sorting
  import Bm25

  // ---------------------------------------------------------------- normalize

  /** `max(d["score"] for d in s)`. */
  function MaxScore(s: seq<Chunk>): (m: real)
    requires s != []
    ensures exists i :: 0 <= i < |s| && s[i].score == m
    ensures forall i :: 0 <= i < |s| ==> s[i].score <= m
  {
    if |s| == 1 then s[0].score
    else
      var rest := MaxScore(s[1..]);
      assert forall i :: 1 <= i < |s| ==> s[i] == s[1..][i - 1];
      if s[0].score >= rest then s[0].score else rest
  }

  /** One item of `normalize`: `{**d, "score": d["score"] / m}`. Only the
      score changes, to the number that gives back the old score when
      multiplied by `m`; for a positive `m` no smaller than the old score it
      is at most 1, and exactly 1 for the old score `m`; a positive `m`
      keeps a non-negative score non-negative. */
  function Rescaled(d: Chunk, m: real): (r: Chunk)
    requires m != 0.0
    ensures r.text == d.text && r.meta == d.meta && r.extra == d.extra
    ensures r.score * m == d.score
    ensures 0.0 < m && d.score <= m ==> r.score <= 1.0 && (d.score == m ==> r.score == 1.0)
    ensures 0.0 < m && 0.0 <= d.score ==> 0.0 <= r.score
  {
    if 0.0 < m && d.score <= m then QuotientBounds(d.score, m); d.(score := d.score / m)
    else d.(score := d.score / m)
  }

  /** `normalize(s)`: every score divided by the maximum score. The maximum
      of an empty list defaults to 1; a maximum of 0 raises
      ZeroDivisionError, and a negative maximum is divided by as it is. */
  function Normalize(s: seq<Chunk>): (r: Result<seq<Chunk>>)
    ensures s == [] ==> r == Ok([])
    ensures r.Err? <==> s != [] && MaxScore(s) == 0.0
    ensures r.Err? ==> r.error == ZeroDivisionError
    ensures r.Ok? && s != [] ==> |r.value| == |s| && forall i :: 0 <= i < |s| ==>
      r.value[i] == Rescaled(s[i], MaxScore(s))
  {
    if s == [] then Ok([])
    else
      var m := MaxScore(s);
      if m == 0.0 then Err(ZeroDivisionError)
      else Ok(seq(|s|, i requires 0 <= i < |s| => Rescaled(s[i], m)))
  }

  /** With a positive maximum, every normalised score is at most 1 and the
      maximal element maps to exactly 1; non-negative scores stay
      non-negative. */
  lemma NormalizeMaxIsOne(s: seq<Chunk>)
    requires s != [] && MaxScore(s) > 0.0
    ensures Normalize(s).Ok?
    ensures forall i :: 0 <= i < |s| ==> Normalize(s).value[i].score <= 1.0
    ensures forall i :: 0 <= i < |s| && s[i].score >= 0.0 ==> Normalize(s).value[i].score >= 0.0
    ensures exists i :: 0 <= i < |s| && Normalize(s).value[i].score == 1.0
  {
    forall i | 0 <= i < |s|
      ensures Normalize(s).value[i].score <= 1.0
      ensures s[i].score >= 0.0 ==> Normalize(s).value[i].score >= 0.0
    {
      NormalizedAt(s, i);
    }
    var w :| 0 <= w < |s| && s[w].score == MaxScore(s);
    NormalizedAt(s, w);
  }

  lemma NormalizedAt(s: seq<Chunk>, i: int)
    requires s != [] && MaxScore(s) > 0.0 && 0 <= i < |s|
    ensures Normalize(s).Ok?
    ensures Normalize(s).value[i].score <= 1.0
    ensures s[i].score >= 0.0 ==> Normalize(s).value[i].score >= 0.0
    ensures s[i].score == MaxScore(s) ==> Normalize(s).value[i].score == 1.0
  {
    var m := MaxScore(s);
    var q := Normalize(s).value[i];
    assert q == Rescaled(s[i], m);
    QuotientBounds(s[i].score, m);
  }

  /** For a positive `m` and `a <= m`: `a / m` is at most 1, exactly 1
      when `a == m`, and non-negative when `a` is. */
  lemma QuotientBounds(a: real, m: real)
    requires m > 0.0 && a <= m
    ensures a / m <= 1.0
    ensures a >= 0.0 ==> a / m >= 0.0
    ensures a == m ==> a / m == 1.0
  {
    assert (a / m) * m == a;
  }

  // ---------------------------------------------------------------- fusion

  /** `key(d)`: `meta["id"] or meta["file"] or d["text"][:64]`, as the dict
      key it becomes: numbers that compare equal are one key. A truthy
      value, or the text prefix. */
  function FusionKey(c: Chunk): Value {
    HashKey(Or(Or(Get(c.meta, "id", Null), Get(c.meta, "file", Null)), Str(Prefix(c.text, 64))))
  }

  /** The resolution order of the fusion key: a truthy id, else a truthy
      file, else the first 64 characters of the text. An empty id falls
      through to the next option. */
  lemma FusionKeyResolution(c: Chunk)
    ensures "id" in c.meta && Truthy(c.meta["id"]) ==> FusionKey(c) == HashKey(c.meta["id"])
    ensures !("id" in c.meta && Truthy(c.meta["id"])) && "file" in c.meta && Truthy(c.meta["file"])
      ==> FusionKey(c) == HashKey(c.meta["file"])
    ensures !("id" in c.meta && Truthy(c.meta["id"])) && !("file" in c.meta && Truthy(c.meta["file"]))
      ==> FusionKey(c) == Str(if |c.text| <= 64 then c.text else c.text[..64])
  {
  }

  /** The fusion key is truthy, or else it is the text prefix (the empty
      string when the text is empty). */
  lemma FusionKeyTruthyOrText(c: Chunk)
    ensures Truthy(FusionKey(c)) || FusionKey(c) == Str(Prefix(c.text, 64))
  {
  }

  /** Two chunks whose ids are truthy and equal in Python's sense are the
      same evidence, whatever their file paths say: an id `1` and an id
      `1.0` give one key. */
  lemma FusionKeyUnifiesIds(a: Chunk, b: Chunk)
    requires "id" in a.meta && "id" in b.meta && Truthy(a.meta["id"])
    requires Hashable(a.meta["id"]) && Hashable(b.meta["id"]) && PyEquals(a.meta["id"], b.meta["id"])
    ensures FusionKey(a) == FusionKey(b)
  {
    HashKeyEquality(a.meta["id"], b.meta["id"]);
    assert Truthy(b.meta["id"]) by {
      assert Truthy(HashKey(b.meta["id"]));
    }
  }

  /** `{key(d): r for r, d in enumerate(l, start=1)}`: later items overwrite
      earlier ones, so a repeated key keeps its last rank. */
  function RankMap(l: seq<Chunk>): (m: map<Value, nat>)
    ensures forall k :: k in m ==> 1 <= m[k] <= |l|
  {
    if l == [] then map[] else RankMap(l[..|l| - 1])[FusionKey(l[|l| - 1]) := |l|]
  }

  /** A key is ranked exactly when it occurs, and its rank is the 1-based
      position of its last occurrence. */
  lemma RankMapLastOccurrence(l: seq<Chunk>, k: Value)
    ensures k in RankMap(l) <==> exists i :: 0 <= i < |l| && FusionKey(l[i]) == k
    ensures k in RankMap(l) ==>
      FusionKey(l[RankMap(l)[k] - 1]) == k &&
      forall j :: RankMap(l)[k] <= j < |l| ==> FusionKey(l[j]) != k
  {
    RankMapOccurs(l, k);
    if k in RankMap(l) {
      RankMapLast(l, k);
    }
  }

  lemma {:induction false} RankMapOccurs(l: seq<Chunk>, k: Value)
    ensures k in RankMap(l) <==> exists i :: 0 <= i < |l| && FusionKey(l[i]) == k
  {
    if l != [] {
      var init := l[..|l| - 1];
      RankMapOccurs(init, k);
      assert forall i :: 0 <= i < |init| ==> init[i] == l[i];
    }
  }

  lemma {:induction false} RankMapLast(l: seq<Chunk>, k: Value)
    requires k in RankMap(l)
    ensures FusionKey(l[RankMap(l)[k] - 1]) == k
    ensures forall j :: RankMap(l)[k] <= j < |l| ==> FusionKey(l[j]) != k
  {
    var init := l[..|l| - 1];
    if FusionKey(l[|l| - 1]) != k {
      assert k in RankMap(init);
      RankMapLast(init, k);
      assert forall i :: 0 <= i < |init| ==> init[i] == l[i];
    }
  }

  /** The rank used for fusion: 10**6 for a list that lacks the key. */
  const Sentinel: nat := 1000000

  function Rank(m: map<Value, nat>, k: Value): (r: nat)
    ensures k in m ==> r == m[k]
    ensures k !in m ==> r == Sentinel
  {
    if k in m then m[k] else Sentinel
  }

  /** A list shorter than 10**6 ranks a key it lacks below every key it
      holds, so for a positive constant, of two keys with the same rank in
      the other list, the one this list lacks has the smaller fused score. */
  lemma AbsentRanksLast(l: seq<Chunk>, kConst: int, present: Value, absent: Value, other: int)
    requires kConst > 0 && |l| < Sentinel && kConst + other != 0
    requires present in RankMap(l) && absent !in RankMap(l)
    ensures Rank(RankMap(l), present) < Rank(RankMap(l), absent)
    ensures FusedScore(kConst, Rank(RankMap(l), absent), other) < FusedScore(kConst, Rank(RankMap(l), present), other)
  {
    var m := RankMap(l);
    var rp := Rank(m, present);
    var ra := Rank(m, absent);
    assert 1 <= rp == m[present] <= |l| && ra == Sentinel;
    FusedScoreDecreasing(kConst, rp, ra, other);
  }

  /** A worse (larger) rank in the first list gives a smaller fused score. */
  lemma FusedScoreDecreasing(kConst: int, better: int, worse: int, other: int)
    requires 0 < kConst + better < kConst + worse && kConst + other != 0
    ensures FusedScore(kConst, worse, other) < FusedScore(kConst, better, other)
  {
    var a := (kConst + better) as real;
    var b := (kConst + worse) as real;
    ReciprocalDecreasing(a, b);
    var t := 1.0 / (kConst + other) as real;
    assert FusedScore(kConst, worse, other) == 1.0 / b + t;
    assert FusedScore(kConst, better, other) == 1.0 / a + t;
  }

  lemma ReciprocalDecreasing(a: real, b: real)
    requires 0.0 < a < b
    ensures 1.0 / b < 1.0 / a
  {
    assert (1.0 / b) * b == 1.0;
    assert (1.0 / a) * a == 1.0;
    assert (1.0 / b) * a < (1.0 / b) * b;
  }

  /** `1/(k_const + r1) + 1/(k_const + r2)` in exact arithmetic. */
  function FusedScore(kConst: int, r1: int, r2: int): real
    requires kConst + r1 != 0 && kConst + r2 != 0
  {
    1.0 / (kConst + r1) as real + 1.0 / (kConst + r2) as real
  }

  /** For a positive constant, each fused score lies in (0, 2/(k_const+1)]. */
  lemma FusedScoreBounds(kConst: int, r1: int, r2: int)
    requires kConst > 0 && r1 >= 1 && r2 >= 1
    ensures 0.0 < FusedScore(kConst, r1, r2) <= 2.0 / (kConst + 1) as real
  {
    var d := (kConst + 1) as real;
    assert 1.0 / (kConst + r1) as real <= 1.0 / d by {
      ReciprocalAntitone(d, (kConst + r1) as real);
    }
    assert 1.0 / (kConst + r2) as real <= 1.0 / d by {
      ReciprocalAntitone(d, (kConst + r2) as real);
    }
  }

  lemma ReciprocalAntitone(a: real, b: real)
    requires 0.0 < a <= b
    ensures 0.0 < 1.0 / b <= 1.0 / a
  {
    assert (1.0 / b) * b == 1.0;
    assert (1.0 / a) * a == 1.0;
    assert (1.0 / b) * a <= (1.0 / b) * b;
  }

  /** A key ranked first in both lists scores `2/(k_const+1)`, which is at
      least the score of every other key. */
  lemma TopInBothDominates(kConst: int, r1: int, r2: int)
    requires kConst > 0 && r1 >= 1 && r2 >= 1
    ensures FusedScore(kConst, 1, 1) == 2.0 / (kConst + 1) as real
    ensures FusedScore(kConst, r1, r2) <= FusedScore(kConst, 1, 1)
  {
    FusedScoreBounds(kConst, r1, r2);
  }

  /** Position `i` of `l` holds the first item with key `k`. */
  predicate FirstAt(l: seq<Chunk>, k: Value, i: int) {
    0 <= i < |l| && FusionKey(l[i]) == k && forall j :: 0 <= j < i ==> FusionKey(l[j]) != k
  }

  /** `next((d for d in l if key(d) == k), None)`: the first item with the
      key, or None when no item has it. */
  function FirstWithKey(l: seq<Chunk>, k: Value): (r: Option<Chunk>)
    ensures r.Some? ==> exists i :: FirstAt(l, k, i) && l[i] == r.value
    ensures r.None? <==> forall i :: 0 <= i < |l| ==> FusionKey(l[i]) != k
  {
    if l == [] then None
    else if FusionKey(l[0]) == k then
      assert FirstAt(l, k, 0);
      Some(l[0])
    else
      var r := FirstWithKey(l[1..], k);
      assert forall i :: 1 <= i < |l| ==> l[i] == l[1..][i - 1];
      assert r.Some? ==> exists i :: FirstAt(l, k, i) && l[i] == r.value by {
        if r.Some? {
          var i :| FirstAt(l[1..], k, i) && l[1..][i] == r.value;
          assert FirstAt(l, k, i + 1);
        }
      }
      r
  }

  /** `next(... list1 ...) or next(... list2 ...)`: the representative of a
      key is the first matching item of the first list, else of the
      second. (A chunk is a dict with a "text" key, hence truthy.) */
  function Representative(l1: seq<Chunk>, l2: seq<Chunk>, k: Value): (r: Option<Chunk>)
    ensures r.Some? ==> FusionKey(r.value) == k
  {
    match FirstWithKey(l1, k)
    case Some(d) => Some(d)
    case None => FirstWithKey(l2, k)
  }

  /** The first list is searched first: when it holds the key, the
      representative is its first item with the key; only otherwise is it
      the second list's first such item. */
  lemma RepresentativeFirst(l1: seq<Chunk>, l2: seq<Chunk>, k: Value, i: int)
    requires 0 <= i < |l1| && FusionKey(l1[i]) == k
    ensures Representative(l1, l2, k).Some?
    ensures exists p :: FirstAt(l1, k, p) && p <= i && l1[p] == Representative(l1, l2, k).value
  {
    var d := FirstWithKey(l1, k).value;
    var p :| FirstAt(l1, k, p) && l1[p] == d;
    assert p <= i;
  }

  lemma RepresentativeSecond(l1: seq<Chunk>, l2: seq<Chunk>, k: Value)
    requires forall i :: 0 <= i < |l1| ==> FusionKey(l1[i]) != k
    ensures Representative(l1, l2, k) == FirstWithKey(l2, k)
  {
  }

  /** The inputs of one fusion: the two lists, their rank maps and the
      constant. */
  datatype Fusion = Fusion(l1: seq<Chunk>, l2: seq<Chunk>, ranks1: map<Value, nat>, ranks2: map<Value, nat>,
                           kConst: int)

  /** The fusion that `reciprocal_rank_fusion(list1, list2, k_const)` sets up. */
  function Inputs(list1: seq<Chunk>, list2: seq<Chunk>, kConst: int): Fusion {
    Fusion(list1, list2, RankMap(list1), RankMap(list2), kConst)
  }

  /** `set(r1) | set(r2)`. */
  function Keys(f: Fusion): set<Value> {
    f.ranks1.Keys + f.ranks2.Keys
  }

  /** Every key has a representative item in one of the two lists. */
  predicate Represented(f: Fusion) {
    forall k :: k in Keys(f) ==> Representative(f.l1, f.l2, k).Some?
  }

  lemma InputsRepresented(list1: seq<Chunk>, list2: seq<Chunk>, kConst: int)
    ensures Represented(Inputs(list1, list2, kConst))
  {
    forall k | k in Keys(Inputs(list1, list2, kConst))
      ensures Representative(list1, list2, k).Some?
    {
      RankMapLastOccurrence(list1, k);
      RankMapLastOccurrence(list2, k);
    }
  }

  /** The fusion divides by `k_const + rank`; it raises when that is 0. */
  predicate DividesByZero(f: Fusion, k: Value) {
    f.kConst + Rank(f.ranks1, k) == 0 || f.kConst + Rank(f.ranks2, k) == 0
  }

  /** With a positive constant no denominator is 0, so the fusion of two
      lists never raises. */
  lemma PositiveConstantNeverRaises(list1: seq<Chunk>, list2: seq<Chunk>, kConst: int, k: Value)
    requires kConst > 0
    ensures !DividesByZero(Inputs(list1, list2, kConst), k)
  {
  }

  /** The fused score of key `k`. */
  function KeyScore(f: Fusion, k: Value): real
    requires !DividesByZero(f, k)
  {
    FusedScore(f.kConst, Rank(f.ranks1, k), Rank(f.ranks2, k))
  }

  /** The fused item for key `k`: its representative with only the score
      replaced by the fused score. */
  function Entry(f: Fusion, k: Value): (c: Chunk)
    requires Representative(f.l1, f.l2, k).Some? && !DividesByZero(f, k)
    ensures FusionKey(c) == k
  {
    var base := Representative(f.l1, f.l2, k).value;
    base.(score := KeyScore(f, k))
  }

  predicate DistinctKeys(s: seq<Chunk>) {
    forall i, j :: 0 <= i < j < |s| ==> FusionKey(s[i]) != FusionKey(s[j])
  }

  /** Every item of `s` is the fused entry of its own key, and that key is
      one of `keys`. */
  predicate EntriesOf(f: Fusion, s: seq<Chunk>, keys: set<Value>) {
    forall i :: 0 <= i < |s| ==>
      && FusionKey(s[i]) in keys
      && Representative(f.l1, f.l2, FusionKey(s[i])).Some?
      && !DividesByZero(f, FusionKey(s[i]))
      && s[i] == Entry(f, FusionKey(s[i]))
  }

  /** Every key of `keys` has an item in `s`. */
  predicate Covers(s: seq<Chunk>, keys: set<Value>) {
    forall k :: k in keys ==> exists i :: 0 <= i < |s| && FusionKey(s[i]) == k
  }

  /** Some item of `l` has a dictionary as its key, which the rank map
      `{key(d): r ...}` cannot hash: building it raises TypeError. */
  predicate UnhashableKey(l: seq<Chunk>) {
    exists i :: 0 <= i < |l| && !Hashable(FusionKey(l[i]))
  }

  /** `reciprocal_rank_fusion`. The keys are visited in an unspecified
      order (Python set iteration), so the order of equal fused scores is
      not determined; everything else is: one entry per key, sorted by
      fused score, the best `limit` of them. */
  method ReciprocalRankFusion(list1: seq<Chunk>, list2: seq<Chunk>, kConst: int, limit: int)
    returns (res: Result<seq<Chunk>>)
    ensures var f := Inputs(list1, list2, kConst);
      res.Err? <==> UnhashableKey(list1) || UnhashableKey(list2) || exists k :: k in Keys(f) && DividesByZero(f, k)
    ensures res.Err? ==>
      res.error == if UnhashableKey(list1) || UnhashableKey(list2) then TypeError else ZeroDivisionError
    ensures var f := Inputs(list1, list2, kConst);
      res.Ok? ==> var out := res.value;
      && |out| == SliceEnd(|Keys(f)|, limit)
      && EntriesOf(f, out, Keys(f))
      && DistinctKeys(out)
      && SortedDesc(out, Score)
      && forall k :: k in Keys(f) && !DividesByZero(f, k) && (forall i :: 0 <= i < |out| ==> FusionKey(out[i]) != k) ==>
           forall i :: 0 <= i < |out| ==> KeyScore(f, k) <= out[i].score
  {
    if UnhashableKey(list1) || UnhashableKey(list2) {
      return Err(TypeError);
    }
    var f := Fusion(list1, list2, RankMap(list1), RankMap(list2), kConst);
    InputsRepresented(list1, list2, kConst);
    var scored := FuseScores(f);
    if scored.Err? {
      return Err(scored.error);
    }
    var fused := scored.value;
    var sorted := SortDesc(fused, Score);
    SortedFusion(f, fused, sorted);
    res := Ok(Prefix(sorted, limit));
    PrefixFusion(f, sorted, limit);
    TruncatedFusion(f, sorted, limit);
  }

  /** The scoring loop of `reciprocal_rank_fusion`, over rank maps already
      built: one fused entry per key, or ZeroDivisionError as soon as a
      key's denominator is 0. */
  method FuseScores(f: Fusion) returns (res: Result<seq<Chunk>>)
    requires Represented(f)
    ensures res.Err? <==> exists k :: k in Keys(f) && DividesByZero(f, k)
    ensures res.Err? ==> res.error == ZeroDivisionError
    ensures res.Ok? ==>
      && |res.value| == |Keys(f)|
      && EntriesOf(f, res.value, Keys(f))
      && DistinctKeys(res.value)
      && Covers(res.value, Keys(f))
  {
    var allKeys := f.ranks1.Keys + f.ranks2.Keys;
    var fused: seq<Chunk> := [];
    var remaining := allKeys;
    ghost var order: seq<Value> := [];
    ProgressStart(f);
    while remaining != {}
      invariant Progress(f, remaining, order, fused)
      decreases |remaining|
    {
      var k :| k in remaining;
      var r1 := if k in f.ranks1 then f.ranks1[k] else Sentinel;
      var r2 := if k in f.ranks2 then f.ranks2[k] else Sentinel;
      if f.kConst + r1 == 0 || f.kConst + r2 == 0 {
        assert k in Keys(f) && DividesByZero(f, k);
        return Err(ZeroDivisionError);
      }
      var score := FusedScore(f.kConst, r1, r2);
      var base := Representative(f.l1, f.l2, k).value;
      ProgressStep(f, remaining, order, fused, k);
      fused := fused + [base.(score := score)];
      order := order + [k];
      remaining := remaining - {k};
    }
    ProgressDone(f, order, fused);
    res := Ok(fused);
  }

  /** The state of the scoring loop: `order` lists, without repetition, the
      keys already fused, `remaining` the others, and `fused` holds their
      entries in that order. */
  predicate Progress(f: Fusion, remaining: set<Value>, order: seq<Value>, fused: seq<Chunk>) {
    && Represented(f)
    && remaining <= Keys(f)
    && (forall i :: 0 <= i < |order| ==> order[i] in Keys(f) && order[i] !in remaining)
    && (forall k :: k in Keys(f) && k !in remaining ==> k in order)
    && |order| + |remaining| == |Keys(f)| && NoDuplicates(order)
    && Fusible(f, order)
    && fused == Entries(f, order)
  }

  lemma ProgressStart(f: Fusion)
    requires Represented(f)
    ensures Progress(f, Keys(f), [], [])
  {
    assert Entries(f, []) == [];
  }

  lemma ProgressStep(f: Fusion, remaining: set<Value>, order: seq<Value>, fused: seq<Chunk>, k: Value)
    requires Progress(f, remaining, order, fused) && k in remaining && !DividesByZero(f, k)
    ensures Representative(f.l1, f.l2, k).Some?
    ensures Progress(f, remaining - {k}, order + [k], fused + [Entry(f, k)])
  {
    var next := order + [k];
    var rest := remaining - {k};
    assert k in Keys(f);
    EntriesSnoc(f, order, k);
    NoDuplicatesSnoc(order, k);
    assert |rest| == |remaining| - 1;
    assert forall i :: 0 <= i < |next| ==> next[i] in Keys(f) && next[i] !in rest by {
      forall i | 0 <= i < |next| ensures next[i] in Keys(f) && next[i] !in rest {
        if i < |order| {
          assert next[i] == order[i];
        }
      }
    }
  }

  lemma ProgressDone(f: Fusion, order: seq<Value>, fused: seq<Chunk>)
    requires Progress(f, {}, order, fused)
    ensures |fused| == |Keys(f)|
    ensures EntriesOf(f, fused, Keys(f)) && DistinctKeys(fused) && Covers(fused, Keys(f))
    ensures forall k :: k in Keys(f) ==> !DividesByZero(f, k)
  {
    EntriesShape(f, order, Keys(f));
  }

  /** Every key of `order` has a representative and fuses without dividing
      by zero. */
  predicate Fusible(f: Fusion, order: seq<Value>) {
    forall i :: 0 <= i < |order| ==> Representative(f.l1, f.l2, order[i]).Some? && !DividesByZero(f, order[i])
  }

  /** The fused entries of `order`'s keys, in that order. */
  function Entries(f: Fusion, order: seq<Value>): (r: seq<Chunk>)
    requires Fusible(f, order)
    ensures |r| == |order|
    ensures forall i :: 0 <= i < |order| ==> r[i] == Entry(f, order[i])
  {
    seq(|order|, i requires 0 <= i < |order| => Entry(f, order[i]))
  }

  lemma EntriesSnoc(f: Fusion, order: seq<Value>, k: Value)
    requires Fusible(f, order)
    requires Representative(f.l1, f.l2, k).Some? && !DividesByZero(f, k)
    ensures Fusible(f, order + [k])
    ensures Entries(f, order + [k]) == Entries(f, order) + [Entry(f, k)]
  {
    var next := order + [k];
    assert forall i :: 0 <= i < |order| ==> next[i] == order[i];
  }

  lemma NoDuplicatesSnoc<T>(s: seq<T>, x: T)
    requires NoDuplicates(s) && forall i :: 0 <= i < |s| ==> s[i] != x
    ensures NoDuplicates(s + [x])
  {
  }

  /** The entries of a repetition-free list of exactly the keys `keys` are
      entries of distinct keys covering `keys`, none dividing by zero. */
  lemma EntriesShape(f: Fusion, order: seq<Value>, keys: set<Value>)
    requires Fusible(f, order) && NoDuplicates(order)
    requires forall i :: 0 <= i < |order| ==> order[i] in keys
    requires forall k :: k in keys ==> k in order
    ensures var s := Entries(f, order);
      EntriesOf(f, s, keys) && DistinctKeys(s) && Covers(s, keys)
    ensures forall k :: k in keys ==> !DividesByZero(f, k)
  {
    var s := Entries(f, order);
    assert forall i :: 0 <= i < |s| ==> FusionKey(s[i]) == order[i];
    forall k | k in keys
      ensures exists i :: 0 <= i < |s| && FusionKey(s[i]) == k
      ensures !DividesByZero(f, k)
    {
      var i :| 0 <= i < |order| && order[i] == k;
      assert FusionKey(s[i]) == k;
    }
  }

  /** Sorting the fused entries keeps them entries of distinct keys, covering
      every key. */
  lemma SortedFusion(f: Fusion, fused: seq<Chunk>, sorted: seq<Chunk>)
    requires |fused| == |Keys(f)|
    requires EntriesOf(f, fused, Keys(f)) && DistinctKeys(fused) && Covers(fused, Keys(f))
    requires sorted == SortDesc(fused, Score)
    ensures |sorted| == |Keys(f)|
    ensures EntriesOf(f, sorted, Keys(f)) && DistinctKeys(sorted) && SortedDesc(sorted, Score)
    ensures Covers(sorted, Keys(f))
  {
    SortDescSorted(fused, Score);
    SortedEntries(f, fused, sorted);
    SortedCovers(fused, sorted, Keys(f));
  }

  lemma SortedEntries(f: Fusion, fused: seq<Chunk>, sorted: seq<Chunk>)
    requires EntriesOf(f, fused, Keys(f)) && DistinctKeys(fused)
    requires sorted == SortDesc(fused, Score)
    ensures EntriesOf(f, sorted, Keys(f)) && DistinctKeys(sorted)
  {
    assert NoDuplicates(fused);
    SortDescNoDuplicates(fused, Score);
    forall i | 0 <= i < |sorted|
      ensures FusionKey(sorted[i]) in Keys(f) && Representative(f.l1, f.l2, FusionKey(sorted[i])).Some?
      ensures !DividesByZero(f, FusionKey(sorted[i]))
      ensures sorted[i] == Entry(f, FusionKey(sorted[i]))
    {
      SortDescMembers(fused, Score, sorted[i]);
    }
  }

  lemma SortedCovers(fused: seq<Chunk>, sorted: seq<Chunk>, keys: set<Value>)
    requires Covers(fused, keys)
    requires sorted == SortDesc(fused, Score)
    ensures Covers(sorted, keys)
  {
    forall k | k in keys
      ensures exists i :: 0 <= i < |sorted| && FusionKey(sorted[i]) == k
    {
      var i :| 0 <= i < |fused| && FusionKey(fused[i]) == k;
      SortDescMembers(fused, Score, fused[i]);
    }
  }

  /** Truncating the sorted entries keeps them sorted entries of distinct
      keys, as many as the limit allows. */
  lemma PrefixFusion(f: Fusion, sorted: seq<Chunk>, limit: int)
    requires EntriesOf(f, sorted, Keys(f)) && DistinctKeys(sorted) && SortedDesc(sorted, Score)
    requires |sorted| == |Keys(f)|
    ensures var out := Prefix(sorted, limit);
      && |out| == SliceEnd(|Keys(f)|, limit)
      && EntriesOf(f, out, Keys(f))
      && DistinctKeys(out)
      && SortedDesc(out, Score)
  {
    var out := Prefix(sorted, limit);
    assert forall j :: 0 <= j < |out| ==> out[j] == sorted[j];
  }

  /** Truncating the sorted entries keeps the best ones: a key left out
      scores no more than any item kept. */
  lemma TruncatedFusion(f: Fusion, sorted: seq<Chunk>, limit: int)
    requires EntriesOf(f, sorted, Keys(f)) && SortedDesc(sorted, Score)
    requires Covers(sorted, Keys(f))
    ensures var out := Prefix(sorted, limit);
      forall k :: k in Keys(f) && !DividesByZero(f, k) && (forall i :: 0 <= i < |out| ==> FusionKey(out[i]) != k) ==>
        forall i :: 0 <= i < |out| ==> KeyScore(f, k) <= out[i].score
  {
    var out := Prefix(sorted, limit);
    forall k | k in Keys(f) && !DividesByZero(f, k) && (forall j :: 0 <= j < |out| ==> FusionKey(out[j]) != k)
      ensures forall i :: 0 <= i < |out| ==> KeyScore(f, k) <= out[i].score
    {
      OmittedScoresBelow(f, sorted, out, k);
    }
  }

  lemma OmittedScoresBelow(f: Fusion, sorted: seq<Chunk>, out: seq<Chunk>, k: Value)
    requires EntriesOf(f, sorted, Keys(f)) && SortedDesc(sorted, Score)
    requires Covers(sorted, Keys(f))
    requires |out| <= |sorted| && out == sorted[..|out|]
    requires k in Keys(f) && !DividesByZero(f, k) && forall j :: 0 <= j < |out| ==> FusionKey(out[j]) != k
    ensures forall i :: 0 <= i < |out| ==> KeyScore(f, k) <= out[i].score
  {
    var p :| 0 <= p < |sorted| && FusionKey(sorted[p]) == k;
    EntryScoreAt(f, sorted, Keys(f), p);
    assert forall j :: 0 <= j < |out| ==> FusionKey(sorted[j]) != k by {
      forall j | 0 <= j < |out| ensures FusionKey(sorted[j]) != k {
        assert out[j] == sorted[j];
      }
    }
    assert p >= |out|;
    forall i | 0 <= i < |out| ensures KeyScore(f, k) <= out[i].score {
      assert out[i] == sorted[i] && sorted[i].score >= sorted[p].score;
    }
  }

  lemma EntryScoreAt(f: Fusion, s: seq<Chunk>, keys: set<Value>, p: int)
    requires EntriesOf(f, s, keys) && 0 <= p < |s|
    ensures !DividesByZero(f, FusionKey(s[p])) && s[p].score == KeyScore(f, FusionKey(s[p]))
  {
  }

  // ---------------------------------------------------------------- retriever

  /** `HybridRetriever`. The vector store enters as its two queries; the
      lexical index is built lazily, once, from at most 1000 documents. */
  class HybridRetriever {
    /** `store.similarity_search(query, k)`. */
    const similaritySearch: (string, int) -> seq<Chunk>
    /** `store.get_all_documents()`. */
    const allDocuments: seq<CorpusDoc>
    /** The BM25Okapi scoring the lexical index is built with. */
    const okapi: Bm25.OkapiScore
    /** `settings.top_k`. */
    const topK: int
    var bm25: Bm25.BM25Retriever?
    /** How many times the lexical index has been built. */
    ghost var builds: nat

    /** The documents the lexical index is built from. */
    function IndexedCorpus(): seq<CorpusDoc> {
      Prefix(allDocuments, 1000)
    }

    /** Once built, the lexical index is the non-normalising BM25 retriever
      of the first 1000 documents, with their tokens, fitted with `okapi`;
      it is built only when the fit does not raise. */
    ghost predicate Valid()
      reads this, bm25
    {
      && (bm25 == null <==> builds == 0)
      && builds <= 1
      && (bm25 != null ==>
            && bm25.Valid() && !bm25.normalize && bm25.okapi == okapi
            && bm25.corpus == IndexedCorpus() && bm25.tokens == Bm25.TokenizeCorpus(IndexedCorpus())
            && !Bm25.FitRaises(bm25.tokens))
    }

    constructor (similaritySearch: (string, int) -> seq<Chunk>, allDocuments: seq<CorpusDoc>,
                 okapi: Bm25.OkapiScore, topK: int)
      ensures Valid() && bm25 == null
      ensures this.similaritySearch == similaritySearch && this.allDocuments == allDocuments
      ensures this.okapi == okapi && this.topK == topK
    {
      this.similaritySearch := similaritySearch;
      this.allDocuments := allDocuments;
      this.okapi := okapi;
      this.topK := topK;
      bm25 := null;
      builds := 0;
    }

    /** `_ensure_bm25`: builds the lexical index on first use only. When
      the BM25Okapi fit raises, `_bm25` stays None and the exception
      propagates, so every later call tries again and fails the same way. */
    method EnsureBm25() returns (failure: Option<Error>)
      requires Valid()
      modifies this
      ensures Valid()
      ensures failure.Some? <==> Bm25.FitRaises(Bm25.TokenizeCorpus(IndexedCorpus()))
      ensures failure.Some? ==> failure.value == ZeroDivisionError && bm25 == null && builds == 0
      ensures failure.None? ==> bm25 != null
      ensures old(bm25) != null ==> bm25 == old(bm25) && builds == old(builds)
      ensures old(bm25) == null && failure.None? ==> fresh(bm25) && builds == 1
    {
      if bm25 == null {
        var corpus := allDocuments;
        var built := Bm25.Build(Prefix(corpus, 1000), 1000, false, okapi);
        if built.Err? {
          return Some(built.error);
        }
        bm25 := built.value;
        builds := builds + 1;
      }
      return None;
    }

    /** `retrieve`: both engines are queried and both result lists are
      normalised, but the fusion is commented out and the normalised vector
      results are returned. */
    method Retrieve(query: string) returns (res: Result<seq<Chunk>>)
      requires Valid()
      modifies this
      ensures Valid()
      ensures old(bm25) != null ==> bm25 == old(bm25)
      ensures var corpus := IndexedCorpus(); var tokens := Bm25.TokenizeCorpus(corpus);
        res == if Bm25.FitRaises(tokens) then Err(ZeroDivisionError)
               else RetrieveOutcome(similaritySearch(query, topK),
                                    Bm25.SearchOutcome(corpus, tokens, okapi, false, query, topK))
    {
      var failure := EnsureBm25();
      if failure.Some? {
        return Err(failure.value);
      }
      var k := topK;
      var vec := Normalize(similaritySearch(query, k));
      if vec.Err? {
        return Err(vec.error);
      }
      var lexical := bm25.Search(query, k);
      if lexical.Err? {
        return Err(lexical.error);
      }
      var lexicalNormalized := Normalize(lexical.value);
      if lexicalNormalized.Err? {
        return Err(lexicalNormalized.error);
      }
      var fused := vec.value;
      return Ok(fused);
    }
  }

  /** What `retrieve` returns once the lexical index exists, given the raw
      vector results and the outcome of the lexical search: the first
      exception raised by normalising the vector results, by the lexical
      search or by normalising its results, else the normalised vector
      results. */
  function RetrieveOutcome(vecRaw: seq<Chunk>, lexical: Result<seq<Chunk>>): Result<seq<Chunk>> {
    var vec := Normalize(vecRaw);
    if vec.Err? then Err(vec.error)
    else if lexical.Err? then Err(lexical.error)
    else if Normalize(lexical.value).Err? then Err(Normalize(lexical.value).error)
    else vec
  }

  /** The lexical results only decide whether `retrieve` raises: for any two
      lexical outcomes that normalise, the result is the same, namely the
      vector results with every score divided by their maximum. It raises
      ZeroDivisionError exactly when a non-empty vector or lexical list has
      a maximum score of 0. */
  lemma RetrieveIgnoresLexical(vecRaw: seq<Chunk>, lexical: seq<Chunk>, other: seq<Chunk>)
    requires Normalize(lexical).Ok? && Normalize(other).Ok?
    ensures RetrieveOutcome(vecRaw, Ok(lexical)) == RetrieveOutcome(vecRaw, Ok(other))
    ensures RetrieveOutcome(vecRaw, Ok(lexical)).Ok? <==> vecRaw == [] || MaxScore(vecRaw) != 0.0
    ensures RetrieveOutcome(vecRaw, Ok(lexical)).Ok? ==>
      var out := RetrieveOutcome(vecRaw, Ok(lexical)).value;
      |out| == |vecRaw| && forall i :: 0 <= i < |vecRaw| ==> out[i] == vecRaw[i].(score := vecRaw[i].score / MaxScore(vecRaw))
  {
  }

  /** `retrieve` raises ZeroDivisionError exactly when one of the two
      normalisations meets a non-empty list whose maximum score is 0. */
  lemma RetrieveRaises(vecRaw: seq<Chunk>, lexical: seq<Chunk>)
    ensures RetrieveOutcome(vecRaw, Ok(lexical)).Err? <==>
      (vecRaw != [] && MaxScore(vecRaw) == 0.0) || (lexical != [] && MaxScore(lexical) == 0.0)
    ensures RetrieveOutcome(vecRaw, Ok(lexical)).Err? ==> RetrieveOutcome(vecRaw, Ok(lexical)).error == ZeroDivisionError
  {
  }
}
