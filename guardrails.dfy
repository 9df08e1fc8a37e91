/** The answer guardrails: a confidence heuristic from the top retrieval
    scores and the answer length, and the hallucination rule. */
module Guardrails {
  import opened PyValues
  import opened PyStrings

  /** `math.exp`, left abstract. */
  type Exp = real -> real

  /** What the model needs of `math.exp`: 1 at 0, a value in (0, 1] for
      every non-positive argument, and monotone. */
  ghost predicate IsExp(exp: Exp) {
    && exp(0.0) == 1.0
    && (forall x :: x <= 0.0 ==> 0.0 < exp(x) <= 1.0)
    && (forall x, y :: x <= y ==> exp(x) <= exp(y))
  }

  /** `d.get("score", 0.0)`. */
  function ScoreOf(d: Record): Value {
    Get(d, "score", Num(0.0))
  }

  /** `float(v)` for an int, float or bool `v`. */
  function AsReal(v: Value): real
    requires IsNumber(v)
  {
    match v
    case Int(i) => i as real
    case Num(r) => r
    case Bool(b) => if b then 1.0 else 0.0
  }

  /** `[float(d.get("score", 0.0)) for d in ds if isinstance(d.get("score", 0.0), (int, float))]`. */
  function ValidScores(ds: seq<Record>): (r: seq<real>)
    ensures |r| <= |ds|
  {
    if ds == [] then []
    else
      var head := if IsNumber(ScoreOf(ds[0])) then [AsReal(ScoreOf(ds[0]))] else [];
      head + ValidScores(ds[1..])
  }

  function Sum(xs: seq<real>): real {
    if xs == [] then 0.0 else xs[0] + Sum(xs[1..])
  }

  /** The mean of the valid scores, 0.0 when there are none. */
  function Mean(xs: seq<real>): real {
    if xs == [] then 0.0 else Sum(xs) / |xs| as real
  }

  /** The sum of values in `[lo, hi]` lies between `|xs|` times each bound. */
  lemma {:induction false} SumBetween(xs: seq<real>, lo: real, hi: real)
    requires forall i :: 0 <= i < |xs| ==> lo <= xs[i] <= hi
    ensures |xs| as real * lo <= Sum(xs) <= |xs| as real * hi
  {
    if xs != [] {
      SumBetween(xs[1..], lo, hi);
      assert |xs| as real * lo == lo + |xs[1..]| as real * lo;
      assert |xs| as real * hi == hi + |xs[1..]| as real * hi;
    }
  }

  /** The mean of values in `[lo, hi]` lies in `[lo, hi]`; in particular
      the mean of scores in [0, 1] is a score in [0, 1]. */
  lemma MeanBetween(xs: seq<real>, lo: real, hi: real)
    requires xs != []
    requires forall i :: 0 <= i < |xs| ==> lo <= xs[i] <= hi
    ensures lo <= Mean(xs) <= hi
  {
    SumBetween(xs, lo, hi);
    var n := |xs| as real;
    var m := Mean(xs);
    assert m * n == Sum(xs);
    assert (m - lo) * n >= 0.0 && (hi - m) * n >= 0.0;
    assert n > 0.0;
  }

  /** `1 - math.exp(-max(0, int(answer_len)) / 400.0)`. */
  function LengthFactor(answerLen: int, exp: Exp): real {
    var n := if answerLen > 0 then answerLen else 0;
    1.0 - exp((-n) as real / 400.0)
  }

  /** `max(0.0, min(1.0, x))`. */
  function Clamp(x: real): (r: real)
    ensures 0.0 <= r <= 1.0
    ensures 0.0 <= x <= 1.0 ==> r == x
  {
    if x < 0.0 then 0.0 else if x > 1.0 then 1.0 else x
  }

  /** `confidence_score(retrieval, answer_len)`. */
  function ConfidenceScore(retrieval: seq<Record>, answerLen: int, exp: Exp): (r: real)
    ensures 0.0 <= r <= 1.0
    ensures retrieval == [] ==> r == 0.0
  {
    if retrieval == [] then 0.0
    else
      var avgTop := Mean(ValidScores(Prefix(retrieval, 3)));
      Clamp(0.6 * avgTop + 0.4 * LengthFactor(answerLen, exp))
  }

  /** `hallucination_flag(has_citation, confidence)`. */
  function HallucinationFlag(hasCitation: bool, confidence: real): bool {
    !hasCitation || confidence < 0.4
  }

  // ---------------------------------------------------------------- lemmas

  /** The length factor lies in [0, 1), is 0 for a length of 0 or less, and
      grows with the length. */
  lemma LengthFactorBounds(answerLen: int, exp: Exp)
    requires IsExp(exp)
    ensures 0.0 <= LengthFactor(answerLen, exp) < 1.0
    ensures answerLen <= 0 ==> LengthFactor(answerLen, exp) == 0.0
  {
    var n := if answerLen > 0 then answerLen else 0;
    assert (-n) as real / 400.0 <= 0.0;
  }

  lemma LengthFactorMonotone(a: int, b: int, exp: Exp)
    requires IsExp(exp) && a <= b
    ensures LengthFactor(a, exp) <= LengthFactor(b, exp)
  {
    var na := if a > 0 then a else 0;
    var nb := if b > 0 then b else 0;
    assert (-nb) as real / 400.0 <= (-na) as real / 400.0;
  }

  /** For a fixed retrieval list, confidence never decreases as the answer
      gets longer. */
  lemma ConfidenceMonotoneInLength(retrieval: seq<Record>, a: int, b: int, exp: Exp)
    requires IsExp(exp) && a <= b
    ensures ConfidenceScore(retrieval, a, exp) <= ConfidenceScore(retrieval, b, exp)
  {
    LengthFactorMonotone(a, b, exp);
  }

  /** Only the first three entries count: appending to a list that already
      has three leaves the confidence as it is. */
  lemma ConfidenceFirstThreeOnly(retrieval: seq<Record>, more: seq<Record>, answerLen: int, exp: Exp)
    requires |retrieval| >= 3
    ensures ConfidenceScore(retrieval + more, answerLen, exp) == ConfidenceScore(retrieval, answerLen, exp)
  {
    assert Prefix(retrieval + more, 3) == Prefix(retrieval, 3);
  }

  /** A score that is not an int or float is skipped, and a missing score
      counts as 0.0. */
  lemma ValidScoresEntry(d: Record)
    ensures "score" !in d ==> ValidScores([d]) == [0.0]
    ensures !IsNumber(ScoreOf(d)) ==> ValidScores([d]) == []
    ensures IsNumber(ScoreOf(d)) ==> ValidScores([d]) == [AsReal(ScoreOf(d))]
  {
    assert [d][1..] == [];
  }

  lemma {:induction false} ValidScoresAppend(a: seq<Record>, b: seq<Record>)
    ensures ValidScores(a + b) == ValidScores(a) + ValidScores(b)
  {
    if a != [] {
      assert (a + b)[0] == a[0];
      assert (a + b)[1..] == a[1..] + b;
      ValidScoresAppend(a[1..], b);
    } else {
      assert a + b == b;
    }
  }

  /** With no valid score among the first three entries the mean term is 0,
      and the confidence comes from the length factor alone. */
  lemma ConfidenceWithoutScores(retrieval: seq<Record>, answerLen: int, exp: Exp)
    requires IsExp(exp) && retrieval != []
    requires forall i :: 0 <= i < |retrieval| && i < 3 ==> !IsNumber(ScoreOf(retrieval[i]))
    ensures ConfidenceScore(retrieval, answerLen, exp) == 0.4 * LengthFactor(answerLen, exp)
  {
    NoValidScores(Prefix(retrieval, 3));
    LengthFactorBounds(answerLen, exp);
  }

  lemma {:induction false} NoValidScores(ds: seq<Record>)
    requires forall i :: 0 <= i < |ds| ==> !IsNumber(ScoreOf(ds[i]))
    ensures ValidScores(ds) == []
  {
    if ds != [] {
      NoValidScores(ds[1..]);
    }
  }

  /** Three scores of 1.0 and an empty answer give exactly 0.6. */
  lemma ThreePerfectScores(retrieval: seq<Record>, exp: Exp)
    requires IsExp(exp) && |retrieval| >= 3
    requires forall i :: 0 <= i < 3 ==> ScoreOf(retrieval[i]) == Num(1.0)
    ensures ConfidenceScore(retrieval, 0, exp) == 0.6
  {
    var top := Prefix(retrieval, 3);
    assert top == [top[0]] + [top[1]] + [top[2]];
    ValidScoresAppend([top[0]] + [top[1]], [top[2]]);
    ValidScoresAppend([top[0]], [top[1]]);
    ValidScoresEntry(top[0]);
    ValidScoresEntry(top[1]);
    ValidScoresEntry(top[2]);
    assert ValidScores(top) == [1.0, 1.0, 1.0];
    assert Sum([1.0, 1.0, 1.0]) == 3.0 by {
      assert [1.0, 1.0, 1.0][1..] == [1.0, 1.0];
      assert [1.0, 1.0][1..] == [1.0];
      assert [1.0][1..] == [];
    }
    LengthFactorBounds(0, exp);
  }

  /** The flag is raised exactly when the citation is missing or the
      confidence is below 0.4; 0.4 itself with a citation is not flagged. */
  lemma HallucinationThreshold(confidence: real)
    ensures HallucinationFlag(false, confidence)
    ensures HallucinationFlag(true, confidence) <==> confidence < 0.4
    ensures !HallucinationFlag(true, 0.4)
  {
  }
}
