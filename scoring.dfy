/** The scoring rule of `validate_user_input`: the canonical pre-octave
    degrees are compared with the guesses position by position, and the
    fraction of correct positions becomes a points delta. */
module Scoring {
  import opened Wrappers

  /** What `validate_user_input` raises before it can return. */
  datatype ValidateError =
    | IndexError         // fewer guesses than canonical degrees
    | ZeroDivisionError  // no canonical degrees: `len(pre_octave_key_list) == 0`

  /** The `(overall_match, detailed_match, local_gamepoints)` triple. */
  datatype Validation = Validation(overallMatch: int, detailedMatch: seq<int>, points: real)

  /** `1 if pre == guesses else 0`. */
  function OverallMatch(pre: seq<int>, guesses: seq<int>): (r: int)
    ensures r == 0 || r == 1
    ensures r == 1 ==> |guesses| == |pre|
  {
    if pre == guesses then 1 else 0
  }

  /** One 1-or-0 flag per canonical position. */
  function DetailedMatch(pre: seq<int>, guesses: seq<int>): (m: seq<int>)
    requires |pre| <= |guesses|
    ensures |m| == |pre|
  {
    seq(|pre|, i requires 0 <= i < |pre| => if pre[i] == guesses[i] then 1 else 0)
  }

  /** `sum(xs)`. */
  function Sum(xs: seq<int>): (s: int)
    ensures (forall i :: 0 <= i < |xs| ==> 0 <= xs[i] <= 1) ==> 0 <= s <= |xs|
  {
    if xs == [] then 0 else Sum(xs[..|xs| - 1]) + xs[|xs| - 1]
  }

  /** The points a round earns from `correct` hits out of `total` positions. */
  function Delta(correct: int, total: int): (d: real)
    requires total > 0
    ensures d == 0.0 || d >= 0.7
    ensures correct == total ==> d == 1.3
  {
    var fraction := correct as real / total as real;
    if fraction < 0.7 then 0.0
    else if fraction == 1.0 then 1.3
    else fraction
  }

  /** The outcome of validation, starting from `gamepoints`; the points
      returned are those before any level-up. */
  function Validate(pre: seq<int>, guesses: seq<int>, gamepoints: real): (r: Result<Validation, ValidateError>)
    ensures r.Failure? <==> |guesses| < |pre| || |pre| == 0
    ensures r.Success? ==> |r.value.detailedMatch| == |pre|
  {
    if |pre| == 0 then Failure(ZeroDivisionError)
    else if |guesses| < |pre| then Failure(IndexError)
    else
      var m := DetailedMatch(pre, guesses);
      Success(Validation(OverallMatch(pre, guesses), m, gamepoints + Delta(Sum(m), |pre|)))
  }

  /** Every flag is 1 exactly where the guess agrees with the canonical degree. */
  lemma DetailedMatchFlags(pre: seq<int>, guesses: seq<int>, i: int)
    requires |pre| <= |guesses| && 0 <= i < |pre|
    ensures DetailedMatch(pre, guesses)[i] == 1 <==> pre[i] == guesses[i]
    ensures DetailedMatch(pre, guesses)[i] == 0 <==> pre[i] != guesses[i]
  {
  }

  /** The number of hits lies between 0 and the length, and reaches the
      length exactly when the guesses start with the canonical degrees. */
  lemma {:induction false} SumOfDetailedMatch(pre: seq<int>, guesses: seq<int>)
    requires |pre| <= |guesses|
    ensures 0 <= Sum(DetailedMatch(pre, guesses)) <= |pre|
    ensures Sum(DetailedMatch(pre, guesses)) == |pre| <==> guesses[..|pre|] == pre
    decreases |pre|
  {
    if pre != [] {
      var n := |pre|;
      var m := DetailedMatch(pre, guesses);
      SumOfDetailedMatch(pre[..n - 1], guesses);
      assert m[..n - 1] == DetailedMatch(pre[..n - 1], guesses);
      if guesses[..n] == pre {
        assert guesses[..n - 1] == pre[..n - 1];
      } else if guesses[..n - 1] == pre[..n - 1] {
        assert pre[n - 1] != guesses[n - 1];
      }
    }
  }

  /** Comparing a quotient with a positive divisor is comparing the dividend
      with the scaled bound. */
  lemma QuotientLess(c: real, t: real, k: real)
    requires t > 0.0
    ensures c / t < k <==> c < k * t
  {
    var f := c / t;
    assert f * t == c;
    if f < k {
      assert (k - f) * t > 0.0;
    } else {
      assert (f - k) * t >= 0.0;
    }
  }

  lemma QuotientEq(c: real, t: real, k: real)
    requires t > 0.0
    ensures c / t == k <==> c == k * t
  {
  }

  /** A hit count at least 70% of the length but not all of it scores the
      fraction itself. */
  lemma DeltaIsFraction(correct: int, total: int)
    requires 0 <= correct < total && 7 * total <= 10 * correct
    ensures Delta(correct, total) == correct as real / total as real
  {
    QuotientLess(correct as real, total as real, 0.7);
    QuotientEq(correct as real, total as real, 1.0);
  }

  /** A hit count under 70% of the length scores nothing. */
  lemma DeltaBelowThreshold(correct: int, total: int)
    requires 0 <= correct && total > 0 && 10 * correct < 7 * total
    ensures Delta(correct, total) == 0.0
  {
    QuotientLess(correct as real, total as real, 0.7);
  }

  /** All positions right scores the 1.3 bonus. */
  lemma DeltaPerfect(total: int)
    requires total > 0
    ensures Delta(total, total) == 1.3
  {
  }

  /** The boundary: exactly 70% scores 0.7, not 0. */
  lemma DeltaAtThreshold()
    ensures Delta(7, 10) == 0.7
    ensures Delta(14, 20) == 0.7
  {
  }

  /** The delta is 0 or lies in [0.7, 1.3], never negative and never above the bonus. */
  lemma DeltaRange(correct: int, total: int)
    requires 0 <= correct <= total && total > 0
    ensures Delta(correct, total) == 0.0 || 0.7 <= Delta(correct, total) <= 1.3
  {
    QuotientLess(correct as real, total as real, 1.0);
  }

  /** More hits never score fewer points. */
  lemma DeltaMonotone(c1: int, c2: int, total: int)
    requires 0 <= c1 <= c2 <= total && total > 0
    ensures Delta(c1, total) <= Delta(c2, total)
  {
    var t := total as real;
    var f1, f2 := c1 as real / t, c2 as real / t;
    assert f1 * t == c1 as real && f2 * t == c2 as real;
    QuotientLess(c2 as real, t, f1);
    QuotientLess(c2 as real, t, 1.0);
  }

  /** With as many guesses as degrees, the overall flag is 1 exactly when
      every per-position flag is 1. */
  lemma OverallIffAllDetailed(pre: seq<int>, guesses: seq<int>)
    requires |pre| == |guesses|
    ensures OverallMatch(pre, guesses) == 1 <==>
      forall i :: 0 <= i < |pre| ==> DetailedMatch(pre, guesses)[i] == 1
  {
    if forall i :: 0 <= i < |pre| ==> DetailedMatch(pre, guesses)[i] == 1 {
      forall i | 0 <= i < |pre| ensures pre[i] == guesses[i] {
        DetailedMatchFlags(pre, guesses, i);
      }
      assert pre == guesses;
    }
  }

  /** Guessing the canonical degrees themselves is a full match worth 1.3. */
  lemma PerfectGuess(pre: seq<int>, gamepoints: real)
    requires |pre| > 0
    ensures Validate(pre, pre, gamepoints) == Success(Validation(1, seq(|pre|, i => 1), gamepoints + 1.3))
  {
    SumOfDetailedMatch(pre, pre);
    assert pre[..|pre|] == pre;
    assert DetailedMatch(pre, pre) == seq(|pre|, i => 1);
  }

  /** Extra guesses beyond the canonical length are not rejected: the
      overall flag drops to 0 while the delta still pays the full bonus. */
  lemma LongerGuessesScoreBonus(pre: seq<int>, extra: seq<int>, gamepoints: real)
    requires |pre| > 0 && |extra| > 0
    ensures Validate(pre, pre + extra, gamepoints).Success?
    ensures Validate(pre, pre + extra, gamepoints).value.overallMatch == 0
    ensures Validate(pre, pre + extra, gamepoints).value.points == gamepoints + 1.3
  {
    assert |pre + extra| != |pre|;
    SumOfDetailedMatch(pre, pre + extra);
    assert (pre + extra)[..|pre|] == pre;
  }

  /** The returned points never fall below the starting points and rise by at most 1.3. */
  lemma ValidatePointsBounded(pre: seq<int>, guesses: seq<int>, gamepoints: real)
    requires Validate(pre, guesses, gamepoints).Success?
    ensures gamepoints <= Validate(pre, guesses, gamepoints).value.points <= gamepoints + 1.3
  {
    SumOfDetailedMatch(pre, guesses);
    DeltaRange(Sum(DetailedMatch(pre, guesses)), |pre|);
  }
}
