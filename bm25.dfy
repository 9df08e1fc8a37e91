/** The lexical retriever's front end: the tokenizer, the corpus cap of
    the constructor and the top-k selection and result shaping of `search`.
    The BM25Okapi scoring itself is a parameter. */
module Bm25 {
  import opened Wrappers
  import opened PyStrings
  import opened PyValues
  import opened Chunks
  import opened Sorting

  // ---------------------------------------------------------------- tokenize

  /** No ASCII capital letter. */
  predicate NoCapitals(s: string) {
    forall i :: 0 <= i < |s| ==> !('A' <= s[i] <= 'Z')
  }

  /** `c.lower()` as far as `[a-z0-9]` can tell: an ASCII capital becomes
      its small letter, the Kelvin sign U+212A becomes "k" and the capital I
      with dot above U+0130 becomes "i" followed by the combining dot U+0307.
      No other character lower-cases to anything holding an ASCII letter or
      digit, so every other character is kept as it is. */
  function Lower(c: char): (r: string)
    ensures |r| >= 1 && NoCapitals(r)
  {
    if 'A' <= c <= 'Z' then [(c as int + 32) as char]
    else if c == '\U{212A}' then "k"
    else if c == '\U{0130}' then "i\U{0307}"
    else [c]
  }

  /** `s.lower()`, character by character. */
  function LowerAll(s: string): (r: string)
    ensures |r| >= |s| && NoCapitals(r)
  {
    if s == [] then [] else
      var r := Lower(s[0]) + LowerAll(s[1..]);
      assert forall i :: |Lower(s[0])| <= i < |r| ==> r[i] == LowerAll(s[1..])[i - |Lower(s[0])|];
      r
  }

  /** The character class `[a-z0-9]`. */
  predicate IsTokenChar(c: char) {
    'a' <= c <= 'z' || '0' <= c <= '9'
  }

  predicate WellFormedToken(t: string) {
    |t| > 0 && forall i :: 0 <= i < |t| ==> IsTokenChar(t[i])
  }

  /** The length of the longest prefix of `s` made of token characters. */
  function WordPrefixLen(s: string): (n: nat)
    ensures n <= |s|
    ensures forall i :: 0 <= i < n ==> IsTokenChar(s[i])
    ensures n == |s| || !IsTokenChar(s[n])
  {
    if s == [] || !IsTokenChar(s[0]) then 0 else 1 + WordPrefixLen(s[1..])
  }

  /** `re.findall(r"[a-z0-9]+", s)`: the maximal runs of token characters,
      left to right. */
  function Runs(s: string): (r: seq<string>)
    ensures forall t :: t in r ==> WellFormedToken(t)
    decreases |s|
  {
    if s == [] then []
    else if !IsTokenChar(s[0]) then Runs(s[1..])
    else
      var n := WordPrefixLen(s);
      [s[..n]] + Runs(s[n..])
  }

  /** `tokenize(text)`: the runs of `[a-z0-9]` in the lower-cased text;
      every token is non-empty and made of `[a-z0-9]` only. */
  function Tokenize(text: string): (r: seq<string>)
    ensures forall t :: t in r ==> WellFormedToken(t)
  {
    Runs(LowerAll(text))
  }

  lemma {:induction false} WordPrefixLenSplit(a: string, c: char, b: string)
    requires !IsTokenChar(c)
    ensures WordPrefixLen(a + [c] + b) == WordPrefixLen(a)
  {
    if a != [] && IsTokenChar(a[0]) {
      assert (a + [c] + b)[1..] == a[1..] + [c] + b;
      WordPrefixLenSplit(a[1..], c, b);
    }
  }

  /** A character outside the class separates tokens: the runs of the two
      sides are the runs of the whole. */
  lemma {:induction false} RunsSplit(a: string, c: char, b: string)
    requires !IsTokenChar(c)
    ensures Runs(a + [c] + b) == Runs(a) + Runs(b)
    decreases |a|
  {
    var s := a + [c] + b;
    if a == [] {
      assert s[1..] == b;
    } else if !IsTokenChar(a[0]) {
      assert s[1..] == a[1..] + [c] + b;
      RunsSplit(a[1..], c, b);
    } else {
      var n := WordPrefixLen(a);
      WordPrefixLenSplit(a, c, b);
      assert s[..n] == a[..n];
      assert s[n..] == a[n..] + [c] + b;
      RunsSplit(a[n..], c, b);
      assert a == a[..n] + a[n..];
    }
  }

  /** A string made only of token characters is one token. */
  lemma RunsWord(w: string)
    requires WellFormedToken(w)
    ensures Runs(w) == [w]
  {
    assert WordPrefixLen(w) == |w|;
    assert w[..|w|] == w;
    assert w[|w|..] == [];
    assert Runs(w) == [w[..|w|]] + Runs(w[|w|..]);
  }

  lemma {:induction false} LowerAllAppend(x: string, y: string)
    ensures LowerAll(x + y) == LowerAll(x) + LowerAll(y)
  {
    if x == [] {
      assert x + y == y;
    } else {
      var xy := x + y;
      assert xy[0] == x[0] && xy[1..] == x[1..] + y;
      LowerAllAppend(x[1..], y);
      var h, t := Lower(x[0]), LowerAll(x[1..]);
      assert LowerAll(xy) == h + LowerAll(xy[1..]);
      assert LowerAll(x) == h + t;
      assert h + (t + LowerAll(y)) == (h + t) + LowerAll(y);
    }
  }

  /** Lower-casing works character by character. */
  lemma LowerAllSplit(a: string, c: char, b: string)
    ensures LowerAll(a + [c] + b) == LowerAll(a) + Lower(c) + LowerAll(b)
  {
    var ac := a + [c];
    assert ac + b == a + [c] + b;
    LowerAllAppend(ac, b);
    LowerAllAppend(a, [c]);
    assert [c][1..] == [];
    assert LowerAll([c]) == Lower(c);
  }

  /** Characters outside the class in front of a text add no token. */
  lemma {:induction false} RunsSkip(sep: string, b: string)
    requires forall i :: 0 <= i < |sep| ==> !IsTokenChar(sep[i])
    ensures Runs(sep + b) == Runs(b)
    decreases |sep|
  {
    if sep == [] {
      assert sep + b == b;
    } else {
      assert (sep + b)[0] == sep[0] && (sep + b)[1..] == sep[1..] + b;
      assert Runs(sep + b) == Runs(sep[1..] + b);
      RunsSkip(sep[1..], b);
    }
  }

  /** A character whose lower-case form holds no token character splits
      the text. With TokenizeWord this settles most texts, but not all: a
      character such as U+0130 lower-cases to a token character and a
      separator, and joins its left neighbour's token (TokenizeDottedCapitalIJoins).
      The general rule is LowerAllSplit and LowerAllAppend for the
      lower-casing, then RunsSplit, RunsSkip and RunsWord for the runs. */
  lemma TokenizeSplit(a: string, c: char, b: string)
    requires forall i :: 0 <= i < |Lower(c)| ==> !IsTokenChar(Lower(c)[i])
    ensures Tokenize(a + [c] + b) == Tokenize(a) + Tokenize(b)
  {
    LowerAllSplit(a, c, b);
    RunsAcross(LowerAll(a), Lower(c), LowerAll(b));
  }

  /** A non-empty run of separators splits the runs of the whole. */
  lemma RunsAcross(x: string, sep: string, y: string)
    requires sep != [] && forall i :: 0 <= i < |sep| ==> !IsTokenChar(sep[i])
    ensures Runs(x + sep + y) == Runs(x) + Runs(y)
  {
    assert x + sep + y == x + [sep[0]] + (sep[1..] + y);
    RunsSplit(x, sep[0], sep[1..] + y);
    RunsSkip(sep[1..], y);
  }

  lemma TokenizeWord(w: string)
    requires WellFormedToken(LowerAll(w))
    ensures Tokenize(w) == [LowerAll(w)]
  {
    RunsWord(LowerAll(w));
  }

  /** The Kelvin sign lower-cases to "k", which is a token. */
  lemma TokenizeKelvinSign()
    ensures Tokenize("\U{212A}") == ["k"]
  {
    assert LowerAll("\U{212A}") == "k" + LowerAll([]);
    RunsWord("k");
  }

  /** The capital I with dot above lower-cases to "i" and a combining dot;
      the "i" is a token, the dot a separator. */
  lemma TokenizeDottedCapitalI()
    ensures Tokenize("\U{0130}") == ["i"]
  {
    var l := "i\U{0307}";
    assert LowerAll("\U{0130}") == l + LowerAll([]);
    assert l == "i" + ['\U{0307}'] + [];
    RunsSplit("i", '\U{0307}', []);
    RunsWord("i");
    assert l + LowerAll([]) == l;
    assert Runs(l) == Runs("i") + Runs([]);
  }

  /** Inside a word, U+0130 joins the token on its left and ends it:
      `"a\u0130b".lower()` is `"ai\u0307b"`, whose tokens are "ai" and "b". */
  lemma TokenizeDottedCapitalIJoins()
    ensures Tokenize("a\U{0130}b") == ["ai", "b"]
  {
    LowerAllSplit("a", '\U{0130}', "b");
    assert "a\U{0130}b" == "a" + ['\U{0130}'] + "b";
    assert LowerAll("a") == "a" + LowerAll([]);
    assert LowerAll("b") == "b" + LowerAll([]);
    var l := "ai" + ['\U{0307}'] + "b";
    assert LowerAll("a\U{0130}b") == l;
    RunsSplit("ai", '\U{0307}', "b");
    RunsWord("ai");
    RunsWord("b");
  }

  // ---------------------------------------------------------------- search

  /** BM25Okapi's `get_scores`: the score of document `i` of the tokenized
      corpus for the query tokens. */
  type OkapiScore = (seq<seq<string>>, nat, seq<string>) -> real

  /** `enumerate(scores)`. */
  function Enumerate(scores: seq<real>): (r: seq<(nat, real)>)
    ensures |r| == |scores|
    ensures IndicesIncrease(r)
  {
    seq(|scores|, i requires 0 <= i < |scores| => (i, scores[i]))
  }

  /** `sorted(enumerate(scores), key=lambda x: x[1], reverse=True)[:k]`. */
  function Ranked(scores: seq<real>, k: int): seq<(nat, real)> {
    Prefix(SortDesc(Enumerate(scores), PairKey), k)
  }

  /** No position left out of the ranked list beats a kept one: it scores
      less, or the same from a later position. */
  predicate TopRanked(scores: seq<real>, r: seq<(nat, real)>) {
    forall i :: 0 <= i < |scores| && (forall j :: 0 <= j < |r| ==> r[j].0 != i) ==>
      forall j :: 0 <= j < |r| ==> scores[i] < r[j].1 || (scores[i] == r[j].1 && r[j].0 < i)
  }

  /** The ranked list holds distinct positions of the score vector, each with
      its own score, ordered by score and, on ties, by position; they are
      the best `k` positions. */
  lemma RankedProperties(scores: seq<real>, k: int)
    ensures |Ranked(scores, k)| == SliceEnd(|scores|, k)
    ensures RankedOrder(Ranked(scores, k))
    ensures forall j :: 0 <= j < |Ranked(scores, k)| ==>
      Ranked(scores, k)[j].0 < |scores| && Ranked(scores, k)[j].1 == scores[Ranked(scores, k)[j].0]
    ensures forall a, b :: 0 <= a < b < |Ranked(scores, k)| ==> Ranked(scores, k)[a].0 != Ranked(scores, k)[b].0
    ensures TopRanked(scores, Ranked(scores, k))
  {
    var e := Enumerate(scores);
    var sorted := SortDesc(e, PairKey);
    SortDescStable(e);
    var r := Ranked(scores, k);
    assert r == sorted[..|r|];
    forall j | 0 <= j < |r|
      ensures r[j].0 < |scores| && r[j].1 == scores[r[j].0]
    {
      assert r[j] == sorted[j];
      SortDescMembers(e, PairKey, sorted[j]);
    }
    RankedTop(scores, k);
  }

  /** A position that is not ranked is outranked by every ranked one. */
  lemma RankedTop(scores: seq<real>, k: int)
    ensures TopRanked(scores, Ranked(scores, k))
  {
    var r := Ranked(scores, k);
    forall i | 0 <= i < |scores| && (forall j :: 0 <= j < |r| ==> r[j].0 != i)
      ensures forall j :: 0 <= j < |r| ==> scores[i] < r[j].1 || (scores[i] == r[j].1 && r[j].0 < i)
    {
      RankedTopAt(scores, k, i);
    }
  }

  lemma RankedTopAt(scores: seq<real>, k: int, i: int)
    requires 0 <= i < |scores| && forall j :: 0 <= j < |Ranked(scores, k)| ==> Ranked(scores, k)[j].0 != i
    ensures forall j :: 0 <= j < |Ranked(scores, k)| ==>
      scores[i] < Ranked(scores, k)[j].1 || (scores[i] == Ranked(scores, k)[j].1 && Ranked(scores, k)[j].0 < i)
  {
    var e := Enumerate(scores);
    var sorted := SortDesc(e, PairKey);
    SortDescStable(e);
    var r := Ranked(scores, k);
    assert r == sorted[..|r|];
    assert e[i] == (i, scores[i]);
    SortDescMembers(e, PairKey, e[i]);
    var p :| 0 <= p < |sorted| && sorted[p] == (i, scores[i]);
    assert forall j :: 0 <= j < |r| ==> sorted[j].0 != i by {
      forall j | 0 <= j < |r| ensures sorted[j].0 != i {
        assert r[j] == sorted[j];
      }
    }
    OutrankedBeyond(sorted, |r|, p);
    forall j | 0 <= j < |r| ensures scores[i] < r[j].1 || (scores[i] == r[j].1 && r[j].0 < i) {
      assert r[j] == sorted[j];
    }
  }

  /** In a ranked list an entry at or after position `n` is outranked by
      every entry before `n`. */
  lemma OutrankedBeyond(sorted: seq<(nat, real)>, n: nat, p: int)
    requires RankedOrder(sorted) && n <= p < |sorted|
    ensures forall j :: 0 <= j < n ==>
      sorted[p].1 < sorted[j].1 || (sorted[p].1 == sorted[j].1 && sorted[j].0 < sorted[p].0)
  {
  }

  /** One result record: `{"text", "score", "meta" (default {}), "length"}`. */
  function ResultOf(doc: CorpusDoc, score: real): (c: Chunk)
    ensures c.text == doc.text && c.score == score
    ensures c.meta == (if doc.meta.Some? then doc.meta.value else map[])
    ensures c.extra == map["length" := Int(|doc.text|)]
  {
    Chunk(doc.text, score, if doc.meta.Some? then doc.meta.value else map[],
          map["length" := Int(|doc.text|)])
  }

  predicate InCorpus(corpus: seq<CorpusDoc>, ranked: seq<(nat, real)>) {
    forall j :: 0 <= j < |ranked| ==> ranked[j].0 < |corpus|
  }

  function Results(corpus: seq<CorpusDoc>, ranked: seq<(nat, real)>): (r: seq<Chunk>)
    requires InCorpus(corpus, ranked)
    ensures |r| == |ranked|
  {
    seq(|ranked|, j requires 0 <= j < |ranked| => ResultOf(corpus[ranked[j].0], ranked[j].1))
  }

  lemma ResultsSnoc(corpus: seq<CorpusDoc>, ranked: seq<(nat, real)>, j: int)
    requires InCorpus(corpus, ranked) && 0 <= j < |ranked|
    ensures InCorpus(corpus, ranked[..j]) && InCorpus(corpus, ranked[..j + 1])
    ensures Results(corpus, ranked[..j + 1]) ==
      Results(corpus, ranked[..j]) + [ResultOf(corpus[ranked[j].0], ranked[j].1)]
  {
    assert forall i :: 0 <= i < j + 1 ==> ranked[..j + 1][i] == ranked[i];
  }

  /** The score vector BM25Okapi gives for a query: one score per document. */
  function ScoreVector(tokens: seq<seq<string>>, okapi: OkapiScore, query: string): (r: seq<real>)
    ensures |r| == |tokens|
  {
    seq(|tokens|, i requires 0 <= i < |tokens| => okapi(tokens, i, Tokenize(query)))
  }

  /** What `search` returns. The score vector is a numpy array, so with
      `normalize` set the test `self.normalize and scores` raises ValueError
      as soon as the array has more than one element; otherwise the rescaled
      vector is computed after `ranked` and never used. */
  function SearchOutcome(corpus: seq<CorpusDoc>, tokens: seq<seq<string>>, okapi: OkapiScore,
                         normalize: bool, query: string, k: int): Result<seq<Chunk>>
    requires |tokens| == |corpus|
  {
    var scores := ScoreVector(tokens, okapi, query);
    RankedProperties(scores, k);
    if normalize && |scores| > 1 then Err(ValueError)
    else Ok(Results(corpus, Ranked(scores, k)))
  }

  /** `[tokenize(d["text"]) for d in corpus]`. */
  function TokenizeCorpus(corpus: seq<CorpusDoc>): (r: seq<seq<string>>)
    ensures |r| == |corpus|
    ensures forall i :: 0 <= i < |corpus| ==> r[i] == Tokenize(corpus[i].text)
  {
    seq(|corpus|, i requires 0 <= i < |corpus| => Tokenize(corpus[i].text))
  }

  /** Fitting BM25Okapi divides by the number of documents and by the size
      of the vocabulary, so it raises ZeroDivisionError exactly when no
      document has a token (an empty corpus included). */
  predicate FitRaises(tokens: seq<seq<string>>) {
    forall i :: 0 <= i < |tokens| ==> tokens[i] == []
  }

  class BM25Retriever {
    const corpus: seq<CorpusDoc>
    const normalize: bool
    const tokens: seq<seq<string>>
    /** The fitted BM25Okapi index. */
    const okapi: OkapiScore

    ghost predicate Valid() {
      |tokens| == |corpus|
    }

    /** Keeps the first `maxDocs` documents and tokenizes each one. */
    constructor (docs: seq<CorpusDoc>, maxDocs: int, normalize: bool, okapi: OkapiScore)
      ensures Valid()
      ensures corpus == Prefix(docs, maxDocs)
      ensures tokens == TokenizeCorpus(corpus)
      ensures this.normalize == normalize && this.okapi == okapi
    {
      var kept := Prefix(docs, maxDocs);
      corpus := kept;
      this.normalize := normalize;
      tokens := TokenizeCorpus(kept);
      this.okapi := okapi;
    }

    method Search(query: string, k: int) returns (res: Result<seq<Chunk>>)
      requires Valid()
      ensures res == SearchOutcome(corpus, tokens, okapi, normalize, query, k)
    {
      var qTokens := Tokenize(query);
      var scores := seq(|tokens|, i requires 0 <= i < |tokens| => okapi(tokens, i, qTokens));
      var ranked := Prefix(SortDesc(Enumerate(scores), PairKey), k);
      RankedProperties(scores, k);
      if normalize {
        if |scores| > 1 {
          return Err(ValueError);
        }
        if |scores| == 1 && scores[0] != 0.0 {
          var maxScore := scores[0];
          scores := [if maxScore > 0.0 then scores[0] / maxScore else 0.0];
        }
      }
      var out: seq<Chunk> := [];
      for j := 0 to |ranked|
        invariant out == Results(corpus, ranked[..j])
      {
        var (idx, score) := ranked[j];
        var doc := corpus[idx];
        ResultsSnoc(corpus, ranked, j);
        out := out + [ResultOf(doc, score)];
      }
      assert ranked[..|ranked|] == ranked;
      return Ok(out);
    }
  }

  /** `BM25Retriever(docs, max_docs, normalize)`: the object, or the
      ZeroDivisionError the BM25Okapi fit raises when the kept documents
      hold no token at all. */
  method Build(docs: seq<CorpusDoc>, maxDocs: int, normalize: bool, okapi: OkapiScore)
    returns (res: Result<BM25Retriever>)
    ensures res.Err? <==> FitRaises(TokenizeCorpus(Prefix(docs, maxDocs)))
    ensures res.Err? ==> res.error == ZeroDivisionError
    ensures res.Ok? ==> var b := res.value;
      && fresh(b) && b.Valid() && b.corpus == Prefix(docs, maxDocs) && b.tokens == TokenizeCorpus(b.corpus)
      && b.normalize == normalize && b.okapi == okapi
  {
    var b := new BM25Retriever(docs, maxDocs, normalize, okapi);
    if FitRaises(b.tokens) {
      return Err(ZeroDivisionError);
    }
    return Ok(b);
  }

  /** A corpus with at least one token in some document can be fitted;
      an empty one cannot. */
  lemma FitRaisesExactly(corpus: seq<CorpusDoc>, i: int)
    requires 0 <= i < |corpus| && Tokenize(corpus[i].text) != []
    ensures !FitRaises(TokenizeCorpus(corpus))
    ensures FitRaises(TokenizeCorpus([]))
  {
  }

  /** `search` returns `min(k, len(corpus))` results for `k >= 0`, sorted by
      non-increasing raw score, from distinct documents, each carrying its
      document's text, metadata and length; no document left out scores
      more than a returned one, and on equal scores the earlier document
      is returned first. */
  lemma SearchResultsShape(corpus: seq<CorpusDoc>, tokens: seq<seq<string>>, okapi: OkapiScore,
                           query: string, k: int)
    requires |tokens| == |corpus|
    ensures var res := SearchOutcome(corpus, tokens, okapi, false, query, k);
      var scores := ScoreVector(tokens, okapi, query);
      var r := Ranked(scores, k);
      && res.Ok?
      && (k >= 0 ==> |res.value| == if k < |corpus| then k else |corpus|)
      && SortedDesc(res.value, Score)
      && |res.value| == |r|
      && (forall j :: 0 <= j < |r| ==> r[j].0 < |corpus| && res.value[j] == ResultOf(corpus[r[j].0], scores[r[j].0]))
      && (forall a, b :: 0 <= a < b < |r| ==> r[a].0 != r[b].0)
      && TopRanked(scores, r)
  {
    var scores := ScoreVector(tokens, okapi, query);
    var ranked := Ranked(scores, k);
    RankedProperties(scores, k);
    var out := Results(corpus, ranked);
    forall a, b | 0 <= a < b < |out| ensures out[a].score >= out[b].score {
      assert out[a].score == ranked[a].1 && out[b].score == ranked[b].1;
    }
  }

  /** Ties between equal scores keep corpus order: of two results with the
      same score, the earlier one comes from the earlier document. */
  lemma SearchTiesInCorpusOrder(scores: seq<real>, k: int, a: nat, b: nat)
    requires a < b < |Ranked(scores, k)|
    requires Ranked(scores, k)[a].1 == Ranked(scores, k)[b].1
    ensures Ranked(scores, k)[a].0 < Ranked(scores, k)[b].0
  {
    RankedProperties(scores, k);
  }

  /** The `normalize` flag never changes what `search` returns; it can only
      make it raise. */
  lemma NormalizeFlagIrrelevant(corpus: seq<CorpusDoc>, tokens: seq<seq<string>>, okapi: OkapiScore,
                                query: string, k: int)
    requires |tokens| == |corpus|
    ensures SearchOutcome(corpus, tokens, okapi, true, query, k).Ok? ==>
      SearchOutcome(corpus, tokens, okapi, true, query, k) == SearchOutcome(corpus, tokens, okapi, false, query, k)
    ensures SearchOutcome(corpus, tokens, okapi, true, query, k).Ok? <==> |corpus| <= 1
  {
  }
}
