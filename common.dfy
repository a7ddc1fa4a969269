/** Small numeric helpers shared by the hooks: optional values, the sums, means and maxima
    the hooks compute with `reduce` and `Math.max`, and JavaScript's `Math.round`. */
module Common {

  datatype Option<+T> = None | Some(value: T)

  function Max(a: real, b: real): real { if a >= b then a else b }

  function Min(a: real, b: real): real { if a <= b then a else b }

  /** `s.reduce((a, b) => a + b, 0)`, folding from the left. */
  function Sum(s: seq<real>): real
  {
    if s == [] then 0.0 else Sum(s[..|s| - 1]) + s[|s| - 1]
  }

  /** The mean of `s`, or 0 for the empty sequence (the hooks' `length > 0 ? … : 0`). */
  function Mean(s: seq<real>): real
  {
    if |s| == 0 then 0.0 else Sum(s) / (|s| as real)
  }

  /** Every element of `s` is at least `lo`. */
  predicate AllAtLeast(s: seq<real>, lo: real)
  {
    forall i :: 0 <= i < |s| ==> s[i] >= lo
  }

  lemma AllAtLeastAppend(s: seq<real>, lo: real, x: real)
    requires AllAtLeast(s, lo) && x >= lo
    ensures AllAtLeast(s + [x], lo)
  {
  }

  /** `Math.max(...s, 0)`: the largest element, never below zero. */
  function MaxOrZero(s: seq<real>): real
  {
    if s == [] then 0.0 else Max(MaxOrZero(s[..|s| - 1]), s[|s| - 1])
  }

  /** `MaxOrZero(s)` is an upper bound of `s`, not negative, and either 0 or an element of `s`. */
  lemma {:induction false} MaxOrZeroBounds(s: seq<real>)
    ensures MaxOrZero(s) >= 0.0
    ensures forall i :: 0 <= i < |s| ==> s[i] <= MaxOrZero(s)
    ensures MaxOrZero(s) == 0.0 || MaxOrZero(s) in s
  {
    if s != [] {
      var init := s[..|s| - 1];
      MaxOrZeroBounds(init);
      assert forall i :: 0 <= i < |init| ==> s[i] == init[i];
      assert MaxOrZero(init) in init ==> MaxOrZero(init) in s;
    }
  }

  /** The strictly positive elements of `s`, in order. */
  function Positives(s: seq<real>): seq<real>
  {
    if s == [] then []
    else Positives(s[..|s| - 1]) + (if s[|s| - 1] > 0.0 then [s[|s| - 1]] else [])
  }

  /** The positive elements are all positive, and no more than the elements. */
  lemma {:induction false} PositivesBounds(s: seq<real>)
    ensures forall i :: 0 <= i < |Positives(s)| ==> Positives(s)[i] > 0.0
    ensures |Positives(s)| <= |s|
  {
    if s != [] {
      PositivesBounds(s[..|s| - 1]);
    }
  }

  lemma PositivesAppend(s: seq<real>, x: real)
    ensures Positives(s + [x]) == Positives(s) + (if x > 0.0 then [x] else [])
  {
    assert (s + [x])[..|s + [x]| - 1] == s;
  }

  lemma MaxOrZeroAppend(s: seq<real>, x: real)
    ensures MaxOrZero(s + [x]) == Max(MaxOrZero(s), x)
  {
    assert (s + [x])[..|s + [x]| - 1] == s;
  }

  /** Every element of `p` is an element of `s`. */
  lemma {:induction false} PositivesSubset(s: seq<real>)
    ensures forall x :: x in Positives(s) ==> x in s
  {
    if s != [] {
      PositivesSubset(s[..|s| - 1]);
      assert forall x :: x in s[..|s| - 1] ==> x in s;
    }
  }

  /** The positive elements of a sequence have the same maximum as the sequence itself. */
  lemma {:induction false} MaxOrZeroOfPositives(s: seq<real>)
    ensures MaxOrZero(Positives(s)) == MaxOrZero(s)
  {
    if s != [] {
      var init, x := s[..|s| - 1], s[|s| - 1];
      MaxOrZeroOfPositives(init);
      assert MaxOrZero(s) == Max(MaxOrZero(init), x);
      if x > 0.0 {
        assert Positives(s) == Positives(init) + [x];
        MaxOrZeroAppend(Positives(init), x);
      } else {
        MaxOrZeroBounds(init);
        assert Positives(s) == Positives(init) + [];
        assert Positives(init) + [] == Positives(init);
      }
    }
  }

  lemma {:induction false} SumAtMost(s: seq<real>, m: real)
    requires forall i :: 0 <= i < |s| ==> s[i] <= m
    ensures Sum(s) <= (|s| as real) * m
  {
    if s != [] {
      SumAtMost(s[..|s| - 1], m);
      assert ((|s| - 1) as real) * m + m == (|s| as real) * m;
    }
  }

  lemma {:induction false} SumAtLeast(s: seq<real>, m: real)
    requires forall i :: 0 <= i < |s| ==> s[i] >= m
    ensures Sum(s) >= (|s| as real) * m
  {
    if s != [] {
      SumAtLeast(s[..|s| - 1], m);
      assert ((|s| - 1) as real) * m + m == (|s| as real) * m;
    }
  }

  /** A mean lies between the bounds of the elements it averages. */
  lemma MeanBetween(s: seq<real>, lo: real, hi: real)
    requires |s| > 0
    requires forall i :: 0 <= i < |s| ==> lo <= s[i] <= hi
    ensures lo <= Mean(s) <= hi
  {
    SumAtMost(s, hi);
    SumAtLeast(s, lo);
    var n := |s| as real;
    assert Sum(s) / n <= hi by {
      assert Sum(s) <= n * hi;
    }
    assert Sum(s) / n >= lo by {
      assert Sum(s) >= n * lo;
    }
  }

  /** The mean of non-negative values lies between zero and their maximum. */
  lemma MeanAtMostMax(s: seq<real>)
    requires forall i :: 0 <= i < |s| ==> s[i] >= 0.0
    ensures 0.0 <= Mean(s) <= MaxOrZero(s)
  {
    MaxOrZeroBounds(s);
    if |s| > 0 {
      MeanBetween(s, 0.0, MaxOrZero(s));
    }
  }

  /** JavaScript's `Math.round`: the nearest integer, halves rounded up. */
  function Round(x: real): int
  {
    (x + 0.5).Floor
  }

  lemma RoundMonotone(x: real, y: real)
    requires x <= y
    ensures Round(x) <= Round(y)
  {
  }

  lemma RoundOfInt(n: int)
    ensures Round(n as real) == n
  {
  }

  /** Rounding commutes with adding a whole number. */
  lemma RoundShift(x: real, n: int)
    ensures Round(x + n as real) == Round(x) + n
  {
  }

  /** `Math.max(lo, Math.min(hi, x))`. */
  function Clamp(x: real, lo: real, hi: real): real
  {
    Max(lo, Min(hi, x))
  }

  /** `Math.round(Math.max(0, Math.min(100, x)))`, the way every score is finished. */
  function Score(x: real): (r: int)
    ensures 0 <= r <= 100
    ensures 0.0 <= x <= 100.0 ==> r == Round(x)
    ensures x <= 0.0 ==> r == 0
    ensures x >= 100.0 ==> r == 100
  {
    Round(Clamp(x, 0.0, 100.0))
  }

  /** Scores are monotone: a larger raw value never gives a smaller score. */
  lemma ScoreMonotone(x: real, y: real)
    requires x <= y
    ensures Score(x) <= Score(y)
  {
    RoundMonotone(Clamp(x, 0.0, 100.0), Clamp(y, 0.0, 100.0));
  }
}
