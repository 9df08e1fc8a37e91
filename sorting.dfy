/** Python's `sorted(xs, key=f, reverse=True)` and `xs.sort(key=f,
    reverse=True)`: a stable sort by descending key. Elements with equal
    keys keep their input order. */
module Sorting {

  predicate SortedDesc<T>(s: seq<T>, f: T -> real) {
    forall i, j :: 0 <= i < j < |s| ==> f(s[i]) >= f(s[j])
  }

  predicate NoDuplicates<T(==)>(s: seq<T>) {
    forall i, j :: 0 <= i < j < |s| ==> s[i] != s[j]
  }

  /** Puts `x` ahead of the first element whose key is not larger than its
      own, so that `x` stays in front of the elements it ties with. */
  function Insert<T>(x: T, s: seq<T>, f: T -> real): (r: seq<T>)
    ensures |r| == |s| + 1
    ensures multiset(r) == multiset(s) + multiset{x}
  {
    if s == [] || f(s[0]) <= f(x) then [x] + s
    else
      assert s == [s[0]] + s[1..];
      [s[0]] + Insert(x, s[1..], f)
  }

  /** The stable descending sort. */
  function SortDesc<T>(s: seq<T>, f: T -> real): (r: seq<T>)
    ensures |r| == |s|
    ensures multiset(r) == multiset(s)
  {
    if s == [] then []
    else
      assert s == [s[0]] + s[1..];
      Insert(s[0], SortDesc(s[1..], f), f)
  }

  /** The elements of `Insert(x, s, f)` are `x` and those of `s`. */
  lemma InsertMembers<T>(x: T, s: seq<T>, f: T -> real, e: T)
    ensures e in Insert(x, s, f) <==> e == x || e in s
  {
    assert e in Insert(x, s, f) <==> e in multiset(Insert(x, s, f));
    assert e in s <==> e in multiset(s);
  }

  lemma {:induction false} InsertSorted<T>(x: T, s: seq<T>, f: T -> real)
    requires SortedDesc(s, f)
    ensures SortedDesc(Insert(x, s, f), f)
  {
    if s != [] && f(s[0]) > f(x) {
      var t := s[1..];
      InsertSorted(x, t, f);
      var r := Insert(x, t, f);
      forall j | 0 <= j < |r| ensures f(s[0]) >= f(r[j]) {
        InsertMembers(x, t, f, r[j]);
        if r[j] != x {
          var k :| 0 <= k < |t| && t[k] == r[j];
          assert s[k + 1] == r[j];
        }
      }
      assert Insert(x, s, f) == [s[0]] + r;
    }
  }

  /** The output of the sort is ordered by non-increasing key. */
  lemma {:induction false} SortDescSorted<T>(s: seq<T>, f: T -> real)
    ensures SortedDesc(SortDesc(s, f), f)
  {
    if s != [] {
      SortDescSorted(s[1..], f);
      InsertSorted(s[0], SortDesc(s[1..], f), f);
    }
  }

  /** A sort permutes its input: it keeps exactly the same elements. */
  lemma SortDescMembers<T>(s: seq<T>, f: T -> real, x: T)
    ensures x in SortDesc(s, f) <==> x in s
  {
    assert x in multiset(SortDesc(s, f)) <==> x in multiset(s);
  }

  lemma {:induction false} InsertNoDuplicates<T>(x: T, s: seq<T>, f: T -> real)
    requires NoDuplicates(s) && x !in s
    ensures NoDuplicates(Insert(x, s, f))
  {
    if s != [] && f(s[0]) > f(x) {
      InsertNoDuplicates(x, s[1..], f);
      var r := Insert(x, s[1..], f);
      assert s[0] !in s[1..];
      assert s[0] !in multiset(r) by {
        assert multiset(r) == multiset(s[1..]) + multiset{x};
      }
    }
  }

  /** Sorting a list without repeated elements gives one without repeats. */
  lemma {:induction false} SortDescNoDuplicates<T>(s: seq<T>, f: T -> real)
    requires NoDuplicates(s)
    ensures NoDuplicates(SortDesc(s, f))
  {
    if s != [] {
      SortDescNoDuplicates(s[1..], f);
      SortDescMembers(s[1..], f, s[0]);
      InsertNoDuplicates(s[0], SortDesc(s[1..], f), f);
    }
  }

  /** Stability, stated for a list of (index, key) pairs whose indices
      increase: after sorting, equal keys still appear in index order, so
      the result is ordered by key descending, then index ascending. */
  predicate RankedOrder(s: seq<(nat, real)>) {
    forall i, j :: 0 <= i < j < |s| ==>
      s[i].1 > s[j].1 || (s[i].1 == s[j].1 && s[i].0 < s[j].0)
  }

  predicate IndicesIncrease(s: seq<(nat, real)>) {
    forall i, j :: 0 <= i < j < |s| ==> s[i].0 < s[j].0
  }

  function PairKey(p: (nat, real)): real { p.1 }

  lemma {:induction false} InsertRanked(x: (nat, real), s: seq<(nat, real)>)
    requires RankedOrder(s)
    requires forall e | e in s :: x.0 < e.0
    ensures RankedOrder(Insert(x, s, PairKey))
  {
    if s != [] && s[0].1 > x.1 {
      var t := s[1..];
      assert forall i :: 0 <= i < |t| ==> t[i] == s[i + 1];
      assert forall e | e in t :: e in s;
      InsertRanked(x, t);
      var r := Insert(x, t, PairKey);
      forall j | 0 <= j < |r| ensures s[0].1 > r[j].1 || (s[0].1 == r[j].1 && s[0].0 < r[j].0) {
        InsertMembers(x, t, PairKey, r[j]);
        if r[j] != x {
          var k :| 0 <= k < |t| && t[k] == r[j];
          assert s[k + 1] == r[j];
        }
      }
      assert Insert(x, s, PairKey) == [s[0]] + r;
      RankedCons(s[0], r);
    }
  }

  lemma RankedCons(h: (nat, real), r: seq<(nat, real)>)
    requires RankedOrder(r)
    requires forall j :: 0 <= j < |r| ==> h.1 > r[j].1 || (h.1 == r[j].1 && h.0 < r[j].0)
    ensures RankedOrder([h] + r)
  {
    var c := [h] + r;
    assert forall i :: 1 <= i < |c| ==> c[i] == r[i - 1];
  }

  /** Sorting pairs given in index order yields key-descending,
      index-ascending order: the stable sort breaks ties by input position. */
  lemma {:induction false} SortDescStable(s: seq<(nat, real)>)
    requires IndicesIncrease(s)
    ensures RankedOrder(SortDesc(s, PairKey))
  {
    if s != [] {
      SortDescStable(s[1..]);
      var r := SortDesc(s[1..], PairKey);
      forall e | e in r ensures s[0].0 < e.0 {
        SortDescMembers(s[1..], PairKey, e);
        var k :| 0 <= k < |s[1..]| && s[1..][k] == e;
        assert s[k + 1] == e;
      }
      InsertRanked(s[0], r);
    }
  }
}
