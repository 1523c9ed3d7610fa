/**
 * Exact arithmetic on price series: sums, means, extremes and the sample
 * variance that pandas' rolling `mean()` and `std()` evaluate on each
 * window. Series are sequences of `real`, so no rounding takes place.
 */
module Series {

  /** Sum of a series, accumulated from the left. */
  function Sum(xs: seq<real>): (total: real)
    ensures xs == [] ==> total == 0.0
    ensures |xs| == 1 ==> total == xs[0]
    decreases |xs|
  {
    if xs == [] then 0.0 else Sum(xs[..|xs| - 1]) + xs[|xs| - 1]
  }

  /** Arithmetic mean of a non-empty series. */
  function Mean(xs: seq<real>): (m: real)
    requires |xs| > 0
    ensures m * (|xs| as real) == Sum(xs)
  {
    Sum(xs) / (|xs| as real)
  }

  /** Largest element of a non-empty series (pandas `Series.max()`). */
  function MaxOf(xs: seq<real>): (m: real)
    requires |xs| > 0
    ensures m in xs
    ensures forall k :: 0 <= k < |xs| ==> xs[k] <= m
    decreases |xs|
  {
    if |xs| == 1 then xs[0]
    else
      var rest := MaxOf(xs[1..]);
      assert forall k :: 1 <= k < |xs| ==> xs[k] == xs[1..][k - 1];
      if xs[0] >= rest then xs[0] else rest
  }

  /** Smallest element of a non-empty series (pandas `Series.min()`). */
  function MinOf(xs: seq<real>): (m: real)
    requires |xs| > 0
    ensures m in xs
    ensures forall k :: 0 <= k < |xs| ==> m <= xs[k]
    decreases |xs|
  {
    if |xs| == 1 then xs[0]
    else
      var rest := MinOf(xs[1..]);
      assert forall k :: 1 <= k < |xs| ==> xs[k] == xs[1..][k - 1];
      if xs[0] <= rest then xs[0] else rest
  }

  /** Sum of squared deviations of the elements from `m`. */
  function SumSquaredDeviations(xs: seq<real>, m: real): real
    decreases |xs|
  {
    if xs == [] then 0.0
    else SumSquaredDeviations(xs[..|xs| - 1], m) + (xs[|xs| - 1] - m) * (xs[|xs| - 1] - m)
  }

  /**
   * Sample variance with one delta degree of freedom, the pandas default:
   * it needs at least two observations (with one, pandas yields NaN).
   */
  function SampleVariance(xs: seq<real>): (v: real)
    requires |xs| >= 2
    ensures 0.0 <= v
  {
    SumSquaredDeviationsNonNegative(xs, Mean(xs));
    SumSquaredDeviations(xs, Mean(xs)) / ((|xs| - 1) as real)
  }

  /**
   * `sqrt` is the non-negative square root on the non-negative reals, and
   * so maps 0 to 0. The model takes it as a parameter because Dafny has no
   * real square root; the zero case is stated outright because the solver
   * does not derive it from the product.
   */
  ghost predicate IsSqrt(sqrt: real -> real)
  {
    && sqrt(0.0) == 0.0
    && forall v: real :: 0.0 <= v ==> 0.0 <= sqrt(v) && sqrt(v) * sqrt(v) == v
  }

  /** Every element of `xs` equals `c`. */
  predicate IsConstant(xs: seq<real>, c: real)
  {
    forall k :: 0 <= k < |xs| ==> xs[k] == c
  }

  lemma {:induction false} SumBounds(xs: seq<real>, lo: real, hi: real)
    requires forall k :: 0 <= k < |xs| ==> lo <= xs[k] <= hi
    ensures (|xs| as real) * lo <= Sum(xs) <= (|xs| as real) * hi
    decreases |xs|
  {
    if xs != [] {
      SumBounds(xs[..|xs| - 1], lo, hi);
    }
  }

  /** A sum of non-negative terms is zero exactly when every term is. */
  lemma {:induction false} SumZeroIffAllZero(xs: seq<real>)
    requires forall k :: 0 <= k < |xs| ==> 0.0 <= xs[k]
    ensures 0.0 <= Sum(xs)
    ensures Sum(xs) == 0.0 <==> forall k :: 0 <= k < |xs| ==> xs[k] == 0.0
    decreases |xs|
  {
    if xs != [] {
      var init := xs[..|xs| - 1];
      SumZeroIffAllZero(init);
      if Sum(xs) == 0.0 {
        forall k | 0 <= k < |xs| ensures xs[k] == 0.0 {
          if k < |xs| - 1 { assert xs[k] == init[k]; }
        }
      }
    }
  }

  lemma MeanBounds(xs: seq<real>, lo: real, hi: real)
    requires |xs| > 0
    requires forall k :: 0 <= k < |xs| ==> lo <= xs[k] <= hi
    ensures lo <= Mean(xs) <= hi
  {
    SumBounds(xs, lo, hi);
    var n := |xs| as real;
    assert n * lo <= Sum(xs) <= n * hi;
    assert Mean(xs) * n == Sum(xs);
  }

  lemma MeanConstant(xs: seq<real>, c: real)
    requires |xs| > 0 && IsConstant(xs, c)
    ensures Mean(xs) == c
  {
    MeanBounds(xs, c, c);
  }

  /** The mean of non-negative terms is non-negative, and zero exactly when every term is. */
  lemma MeanZeroIffAllZero(xs: seq<real>)
    requires |xs| > 0
    requires forall k :: 0 <= k < |xs| ==> 0.0 <= xs[k]
    ensures 0.0 <= Mean(xs)
    ensures Mean(xs) == 0.0 <==> forall k :: 0 <= k < |xs| ==> xs[k] == 0.0
  {
    SumZeroIffAllZero(xs);
    var n := |xs| as real;
    assert Mean(xs) * n == Sum(xs);
  }

  lemma {:induction false} SumSquaredDeviationsNonNegative(xs: seq<real>, m: real)
    ensures 0.0 <= SumSquaredDeviations(xs, m)
    decreases |xs|
  {
    if xs != [] {
      SumSquaredDeviationsNonNegative(xs[..|xs| - 1], m);
      var d := xs[|xs| - 1] - m;
      assert 0.0 <= d * d;
    }
  }

  lemma {:induction false} SumSquaredDeviationsConstant(xs: seq<real>, c: real)
    requires IsConstant(xs, c)
    ensures SumSquaredDeviations(xs, c) == 0.0
    decreases |xs|
  {
    if xs != [] {
      SumSquaredDeviationsConstant(xs[..|xs| - 1], c);
    }
  }

  /** The sample variance is never negative, and it is zero on a constant window. */
  lemma SampleVarianceProperties(xs: seq<real>)
    requires |xs| >= 2
    ensures 0.0 <= SampleVariance(xs)
    ensures (exists c :: IsConstant(xs, c)) ==> SampleVariance(xs) == 0.0
  {
    SumSquaredDeviationsNonNegative(xs, Mean(xs));
    if c :| IsConstant(xs, c) {
      MeanConstant(xs, c);
      SumSquaredDeviationsConstant(xs, c);
    }
  }

  lemma MulStrict(a: real, b: real, s: real)
    requires 0.0 < s && a < b
    ensures a * s < b * s
  {
  }

  /** Multiplication by a positive factor can be cancelled. */
  lemma MulCancel(a: real, b: real, s: real)
    requires 0.0 < s && a * s == b * s
    ensures a == b
  {
    if a != b {
      if a < b { MulStrict(a, b, s); } else { MulStrict(b, a, s); }
    }
  }

  /** Scaling by a factor in [0, 1] moves a number towards zero without crossing it. */
  lemma ScaleBetween(k: real, d: real)
    requires 0.0 <= k <= 1.0
    ensures 0.0 <= d ==> 0.0 <= k * d <= d
    ensures d <= 0.0 ==> d <= k * d <= 0.0
  {
  }

  /** A sequence that never rises from one position to the next never rises at all. */
  lemma {:induction false} NonIncreasingFromSteps(v: seq<real>)
    requires forall k :: 0 <= k < |v| - 1 ==> v[k + 1] <= v[k]
    ensures forall a, b :: 0 <= a <= b < |v| ==> v[b] <= v[a]
    decreases |v|
  {
    if |v| > 1 {
      var init := v[..|v| - 1];
      NonIncreasingFromSteps(init);
      forall a | 0 <= a < |v| ensures v[|v| - 1] <= v[a] {
        if a < |v| - 1 {
          assert v[|v| - 1] <= v[|v| - 2] == init[|v| - 2] <= init[a];
        }
      }
    }
  }
}
