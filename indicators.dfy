/**
 * The indicator engine of the chart generator: Bollinger Bands, simple
 * moving averages, MACD, RSI and Fibonacci retracement levels computed
 * from the Close/High/Low columns of a bar series.
 *
 * A column of input prices is a `seq<real>`; a derived column is a
 * `seq<Option<real>>` of the same length, where `None` is pandas' NaN.
 */
module Indicators {
  import opened Wrappers
  import opened Series

  // ---------------------------------------------------------------------
  // Rolling windows (pandas `rolling(window)` with min_periods == window)
  // ---------------------------------------------------------------------

  /** The `w` observations ending at index `i`, both ends included. */
  function Window(xs: seq<real>, i: nat, w: nat): (win: seq<real>)
    requires 1 <= w <= i + 1 <= |xs|
    ensures |win| == w && win[w - 1] == xs[i]
    ensures forall k :: 0 <= k < w ==> win[k] == xs[i + 1 - w + k]
  {
    xs[i + 1 - w..i + 1]
  }

  /** `xs.rolling(window).mean()`: NaN until a full window is available. */
  function RollingMean(xs: seq<real>, window: nat): (r: seq<Option<real>>)
    requires window >= 1
    ensures |r| == |xs|
  {
    seq(|xs|, i requires 0 <= i < |xs| =>
      if i + 1 < window then None else Some(Mean(Window(xs, i, window))))
  }

  /**
   * `xs.rolling(window).std()`: the sample standard deviation (one delta
   * degree of freedom) of each full window; NaN during the warm-up and,
   * because the divisor is `window - 1`, everywhere when the window is 1.
   */
  function RollingStd(xs: seq<real>, window: nat, sqrt: real -> real): (r: seq<Option<real>>)
    requires window >= 1
    ensures |r| == |xs|
  {
    seq(|xs|, i requires 0 <= i < |xs| =>
      if window < 2 || i + 1 < window then None
      else Some(sqrt(SampleVariance(Window(xs, i, window)))))
  }

  lemma RollingMeanAt(xs: seq<real>, window: nat, i: nat)
    requires window >= 1 && i < |xs|
    ensures RollingMean(xs, window)[i].Some? <==> window - 1 <= i
    ensures window - 1 <= i ==>
      RollingMean(xs, window)[i].value * (window as real) == Sum(xs[i + 1 - window..i + 1])
  {
    if window - 1 <= i {
      var win := Window(xs, i, window);
      assert Mean(win) * (window as real) == Sum(win);
    }
  }

  /** With fewer bars than the window every position is undefined, and nothing fails. */
  lemma RollingMeanShortSeries(xs: seq<real>, window: nat)
    requires window >= 1 && |xs| < window
    ensures forall i :: 0 <= i < |xs| ==> RollingMean(xs, window)[i] == None
  {
  }

  /** Each defined rolling mean lies within the bounds of its window. */
  lemma RollingMeanWithin(xs: seq<real>, window: nat, i: nat, lo: real, hi: real)
    requires window >= 1 && window - 1 <= i < |xs|
    requires forall k :: i + 1 - window <= k <= i ==> lo <= xs[k] <= hi
    ensures RollingMean(xs, window)[i].Some?
    ensures lo <= RollingMean(xs, window)[i].value <= hi
  {
    var win := Window(xs, i, window);
    forall k | 0 <= k < |win| ensures lo <= win[k] <= hi {
      assert win[k] == xs[i + 1 - window + k];
    }
    MeanBounds(win, lo, hi);
  }

  /** Rolling means of a column with no negative entry are never negative. */
  lemma RollingMeanNonNegative(xs: seq<real>, window: nat)
    requires window >= 1
    requires forall k :: 0 <= k < |xs| ==> 0.0 <= xs[k]
    ensures forall i :: 0 <= i < |xs| && RollingMean(xs, window)[i].Some? ==>
      0.0 <= RollingMean(xs, window)[i].value
  {
    forall i | 0 <= i < |xs| && RollingMean(xs, window)[i].Some?
      ensures 0.0 <= RollingMean(xs, window)[i].value
    {
      var win := Window(xs, i, window);
      forall k | 0 <= k < |win| ensures 0.0 <= win[k] {
        assert win[k] == xs[i + 1 - window + k];
      }
      MeanZeroIffAllZero(win);
    }
  }

  // ---------------------------------------------------------------------
  // Element-wise arithmetic on derived columns (NaN propagates)
  // ---------------------------------------------------------------------

  /** Every position of a column of plain prices is defined. */
  function Defined(xs: seq<real>): (r: seq<Option<real>>)
    ensures |r| == |xs|
    ensures forall i :: 0 <= i < |xs| ==> r[i] == Some(xs[i])
  {
    seq(|xs|, i requires 0 <= i < |xs| => Some(xs[i]))
  }

  function Plus(a: seq<Option<real>>, b: seq<Option<real>>): (r: seq<Option<real>>)
    requires |a| == |b|
    ensures |r| == |a|
    ensures forall i :: 0 <= i < |a| ==> (r[i].Some? <==> a[i].Some? && b[i].Some?)
    ensures forall i :: 0 <= i < |a| && r[i].Some? ==> r[i].value == a[i].value + b[i].value
  {
    seq(|a|, i requires 0 <= i < |a| =>
      if a[i].Some? && b[i].Some? then Some(a[i].value + b[i].value) else None)
  }

  function Minus(a: seq<Option<real>>, b: seq<Option<real>>): (r: seq<Option<real>>)
    requires |a| == |b|
    ensures |r| == |a|
    ensures forall i :: 0 <= i < |a| ==> (r[i].Some? <==> a[i].Some? && b[i].Some?)
    ensures forall i :: 0 <= i < |a| && r[i].Some? ==> r[i].value == a[i].value - b[i].value
  {
    seq(|a|, i requires 0 <= i < |a| =>
      if a[i].Some? && b[i].Some? then Some(a[i].value - b[i].value) else None)
  }

  function Scale(a: seq<Option<real>>, k: real): (r: seq<Option<real>>)
    ensures |r| == |a|
    ensures forall i :: 0 <= i < |a| ==> (r[i].Some? <==> a[i].Some?)
    ensures forall i :: 0 <= i < |a| && r[i].Some? ==> r[i].value == a[i].value * k
  {
    seq(|a|, i requires 0 <= i < |a| => if a[i].Some? then Some(a[i].value * k) else None)
  }

  // ---------------------------------------------------------------------
  // Bollinger Bands and SMA
  // ---------------------------------------------------------------------

  /** `BB_Upper = BB_Middle + BB_Std * num_std`. */
  function BollingerUpper(close: seq<real>, window: nat, numStd: real, sqrt: real -> real): (r: seq<Option<real>>)
    requires window >= 1
    ensures |r| == |close|
  {
    Plus(RollingMean(close, window), Scale(RollingStd(close, window, sqrt), numStd))
  }

  /** `BB_Lower = BB_Middle - BB_Std * num_std`. */
  function BollingerLower(close: seq<real>, window: nat, numStd: real, sqrt: real -> real): (r: seq<Option<real>>)
    requires window >= 1
    ensures |r| == |close|
  {
    Minus(RollingMean(close, window), Scale(RollingStd(close, window, sqrt), numStd))
  }

  /**
   * The bands are defined exactly where the standard deviation is (a full
   * window of at least two bars); there they sit symmetrically at distance
   * `numStd * std` around the middle band, and with `numStd >= 0` they are
   * ordered Lower <= Middle <= Upper.
   */
  lemma BollingerBandsAt(close: seq<real>, window: nat, numStd: real, sqrt: real -> real, i: nat)
    requires window >= 1 && i < |close| && IsSqrt(sqrt)
    ensures var std := RollingStd(close, window, sqrt)[i];
      && (std.Some? <==> 2 <= window <= i + 1)
      && (BollingerUpper(close, window, numStd, sqrt)[i].Some? <==> std.Some?)
      && (BollingerLower(close, window, numStd, sqrt)[i].Some? <==> std.Some?)
    ensures RollingStd(close, window, sqrt)[i].Some? ==>
      var mid := RollingMean(close, window)[i].value;
      var std := RollingStd(close, window, sqrt)[i].value;
      var upper := BollingerUpper(close, window, numStd, sqrt)[i].value;
      var lower := BollingerLower(close, window, numStd, sqrt)[i].value;
      && 0.0 <= std
      && upper - mid == std * numStd
      && mid - lower == std * numStd
      && (0.0 <= numStd ==> lower <= mid <= upper)
  {
    var std := RollingStd(close, window, sqrt)[i];
    if std.Some? {
      SampleVarianceProperties(Window(close, i, window));
      assert 0.0 <= std.value;
      assert 0.0 <= numStd ==> 0.0 <= std.value * numStd;
    }
  }

  /** On a window where Close is constant, all three bands equal that price. */
  lemma BollingerConstantWindow(close: seq<real>, window: nat, numStd: real, sqrt: real -> real, i: nat, c: real)
    requires 2 <= window <= i + 1 <= |close| && IsSqrt(sqrt)
    requires forall k :: i + 1 - window <= k <= i ==> close[k] == c
    ensures RollingMean(close, window)[i] == Some(c)
    ensures RollingStd(close, window, sqrt)[i] == Some(0.0)
    ensures BollingerUpper(close, window, numStd, sqrt)[i] == Some(c)
    ensures BollingerLower(close, window, numStd, sqrt)[i] == Some(c)
  {
    var win := Window(close, i, window);
    assert IsConstant(win, c) by {
      forall k | 0 <= k < |win| ensures win[k] == c {
        assert win[k] == close[i + 1 - window + k];
      }
    }
    MeanConstant(win, c);
    SampleVarianceProperties(win);
  }

  /** `calculate_sma`: the rolling mean of Close over `period` bars. */
  function Sma(close: seq<real>, period: nat): (r: seq<Option<real>>)
    requires period >= 1
    ensures |r| == |close|
  {
    RollingMean(close, period)
  }

  /**
   * The SMA is undefined before index `period - 1` and from there on is
   * the mean of the last `period` closes; shorter series are all undefined.
   */
  lemma SmaAt(close: seq<real>, period: nat, i: nat)
    requires period >= 1 && i < |close|
    ensures Sma(close, period)[i].Some? <==> period - 1 <= i
    ensures period - 1 <= i ==>
      Sma(close, period)[i].value * (period as real) == Sum(close[i + 1 - period..i + 1])
    ensures |close| < period ==> Sma(close, period)[i] == None
  {
    RollingMeanAt(close, period, i);
  }

  // ---------------------------------------------------------------------
  // Exponential moving average (pandas `ewm(span=..., adjust=False)`)
  // ---------------------------------------------------------------------

  /** Smoothing factor of a span: alpha = 2 / (span + 1). */
  function Alpha(span: nat): (alpha: real)
    requires span >= 1
    ensures 0.0 < alpha <= 1.0
  {
    2.0 / (span as real + 1.0)
  }

  /** One step of the `adjust=False` recurrence: y = (1 - alpha) * previous y + alpha * x. */
  function EmaStep(alpha: real, prev: real, x: real): (y: real)
    ensures y - prev == alpha * (x - prev)
    ensures prev == x ==> y == x
    ensures alpha == 1.0 ==> y == x
  {
    (1.0 - alpha) * prev + alpha * x
  }

  /** The same step written as a move from the previous value towards the new observation. */
  lemma EmaStepIncremental(alpha: real, prev: real, x: real)
    ensures EmaStep(alpha, prev, x) == prev + alpha * (x - prev)
  {
  }

  /** With 0 < alpha <= 1 a step stays within any bounds of its two inputs. */
  lemma EmaStepWithin(alpha: real, prev: real, x: real, lo: real, hi: real)
    requires 0.0 < alpha <= 1.0
    requires lo <= prev <= hi && lo <= x <= hi
    ensures lo <= EmaStep(alpha, prev, x) <= hi
  {
    EmaStepIncremental(alpha, prev, x);
    var d := x - prev;
    ScaleBetween(alpha, d);
    var moved := alpha * d;
    if 0.0 <= d {
      assert 0.0 <= moved <= d;
    } else {
      assert d <= moved <= 0.0;
    }
  }

  /**
   * Reference definition of the recursive EMA without bias adjustment:
   * seeded with the first observation and defined at every index.
   */
  function Ema(xs: seq<real>, alpha: real): (r: seq<real>)
    ensures |r| == |xs|
    decreases |xs|
  {
    if |xs| == 0 then []
    else if |xs| == 1 then [xs[0]]
    else
      var prev := Ema(xs[..|xs| - 1], alpha);
      prev + [EmaStep(alpha, prev[|xs| - 2], xs[|xs| - 1])]
  }

  lemma {:induction false} EmaPrefix(xs: seq<real>, alpha: real, k: nat)
    requires k <= |xs|
    ensures Ema(xs[..k], alpha) == Ema(xs, alpha)[..k]
    decreases |xs|
  {
    if k < |xs| {
      var init := xs[..|xs| - 1];
      assert init[..k] == xs[..k];
      EmaPrefix(init, alpha, k);
      if |xs| > 1 {
        assert Ema(xs, alpha)[..k] == Ema(init, alpha)[..k];
      }
    } else {
      assert xs[..k] == xs;
    }
  }

  /** The EMA of a prefix agrees with the EMA of the whole series at the prefix's last index. */
  lemma EmaPrefixAt(xs: seq<real>, alpha: real, i: nat)
    requires i < |xs|
    ensures Ema(xs[..i + 1], alpha)[i] == Ema(xs, alpha)[i]
  {
    EmaPrefix(xs, alpha, i + 1);
  }

  /** The EMA recurrence at every index: ema[0] = x[0], ema[i] = (1 - a) ema[i-1] + a x[i]. */
  lemma EmaRecurrence(xs: seq<real>, alpha: real, i: nat)
    requires i < |xs|
    ensures i == 0 ==> Ema(xs, alpha)[0] == xs[0]
    ensures 0 < i ==> Ema(xs, alpha)[i] == EmaStep(alpha, Ema(xs, alpha)[i - 1], xs[i])
  {
    var pre := xs[..i + 1];
    EmaPrefix(xs, alpha, i + 1);
    assert Ema(pre, alpha)[i] == Ema(xs, alpha)[i];
    if 0 < i {
      assert pre[..i] == xs[..i];
      EmaPrefix(xs, alpha, i);
      assert Ema(pre, alpha)[i - 1] == Ema(xs, alpha)[i - 1];
    }
  }

  /** With 0 < alpha <= 1 every EMA value is a convex combination of the inputs so far. */
  lemma {:induction false} EmaWithin(xs: seq<real>, alpha: real, lo: real, hi: real)
    requires 0.0 < alpha <= 1.0
    requires forall k :: 0 <= k < |xs| ==> lo <= xs[k] <= hi
    ensures forall k :: 0 <= k < |xs| ==> lo <= Ema(xs, alpha)[k] <= hi
    decreases |xs|
  {
    if |xs| > 1 {
      var init := xs[..|xs| - 1];
      EmaWithin(init, alpha, lo, hi);
      var prev := Ema(init, alpha);
      EmaStepWithin(alpha, prev[|xs| - 2], xs[|xs| - 1], lo, hi);
    }
  }

  /** Each EMA value lies between the minimum and the maximum of the inputs up to its index. */
  lemma EmaBetweenPrefixExtremes(xs: seq<real>, span: nat, i: nat)
    requires span >= 1 && i < |xs|
    ensures MinOf(xs[..i + 1]) <= Ema(xs, Alpha(span))[i] <= MaxOf(xs[..i + 1])
  {
    var pre := xs[..i + 1];
    var alpha := Alpha(span);
    var lo, hi := MinOf(pre), MaxOf(pre);
    assert forall k :: 0 <= k < |pre| ==> lo <= pre[k] <= hi;
    EmaPrefixAt(xs, alpha, i);
    EmaWithin(pre, alpha, lo, hi);
  }

  /** A constant series is its own EMA. */
  lemma EmaConstant(xs: seq<real>, alpha: real, c: real)
    requires 0.0 < alpha <= 1.0 && IsConstant(xs, c)
    ensures IsConstant(Ema(xs, alpha), c)
  {
    EmaWithin(xs, alpha, c, c);
  }

  /** `xs.ewm(span=span, adjust=False).mean()`, carrying the previous value through a loop. */
  method ExponentialMovingAverage(xs: seq<real>, span: nat) returns (ema: seq<real>)
    requires span >= 1
    ensures ema == Ema(xs, Alpha(span))
    ensures |ema| == |xs|
    ensures |xs| > 0 ==> ema[0] == xs[0]
    ensures forall i :: 0 < i < |xs| ==> ema[i] == EmaStep(Alpha(span), ema[i - 1], xs[i])
  {
    var alpha := Alpha(span);
    var out := new real[|xs|];
    if |xs| > 0 {
      var prev := xs[0];
      out[0] := prev;
      assert xs[..1] == [xs[0]];
      var i := 1;
      while i < |xs|
        invariant 1 <= i <= |xs|
        invariant out[..i] == Ema(xs[..i], alpha)
        invariant prev == out[i - 1]
      {
        prev := EmaStep(alpha, prev, xs[i]);
        out[i] := prev;
        assert xs[..i + 1][..i] == xs[..i];
        assert Ema(xs[..i + 1], alpha) == Ema(xs[..i], alpha) + [prev];
        assert out[..i + 1] == out[..i] + [prev];
        i := i + 1;
      }
      assert xs[..i] == xs;
    }
    ema := out[..];
    if |xs| > 0 {
      EmaRecurrence(xs, alpha, 0);
    }
    forall i | 0 < i < |xs| ensures ema[i] == EmaStep(alpha, ema[i - 1], xs[i]) {
      EmaRecurrence(xs, alpha, i);
    }
  }

  // ---------------------------------------------------------------------
  // MACD
  // ---------------------------------------------------------------------

  /** Element-wise difference of two equally long price columns. */
  function Difference(a: seq<real>, b: seq<real>): (r: seq<real>)
    requires |a| == |b|
    ensures |r| == |a|
    ensures forall i :: 0 <= i < |a| ==> r[i] == a[i] - b[i]
  {
    seq(|a|, i requires 0 <= i < |a| => a[i] - b[i])
  }

  /** `MACD = ema_fast - ema_slow`. */
  function MacdLine(close: seq<real>, fast: nat, slow: nat): (r: seq<real>)
    requires fast >= 1 && slow >= 1
    ensures |r| == |close|
  {
    Difference(Ema(close, Alpha(fast)), Ema(close, Alpha(slow)))
  }

  /** `MACD_Signal`: the EMA of the MACD line. */
  function SignalLine(close: seq<real>, fast: nat, slow: nat, signal: nat): (r: seq<real>)
    requires fast >= 1 && slow >= 1 && signal >= 1
    ensures |r| == |close|
  {
    Ema(MacdLine(close, fast, slow), Alpha(signal))
  }

  /** `MACD_Histogram = MACD - MACD_Signal`, as a derived column. */
  function Histogram(close: seq<real>, fast: nat, slow: nat, signal: nat): (r: seq<Option<real>>)
    requires fast >= 1 && slow >= 1 && signal >= 1
    ensures |r| == |close|
  {
    Minus(Defined(MacdLine(close, fast, slow)), Defined(SignalLine(close, fast, slow, signal)))
  }

  /** All three MACD columns are defined from index 0 and the histogram is their difference. */
  lemma HistogramIsMacdMinusSignal(close: seq<real>, fast: nat, slow: nat, signal: nat, i: nat)
    requires fast >= 1 && slow >= 1 && signal >= 1 && i < |close|
    ensures Histogram(close, fast, slow, signal)[i]
         == Some(MacdLine(close, fast, slow)[i] - SignalLine(close, fast, slow, signal)[i])
  {
  }

  /** For a constant Close the MACD line, its signal and the histogram are all zero. */
  lemma MacdConstant(close: seq<real>, fast: nat, slow: nat, signal: nat, c: real)
    requires fast >= 1 && slow >= 1 && signal >= 1 && IsConstant(close, c)
    ensures IsConstant(MacdLine(close, fast, slow), 0.0)
    ensures IsConstant(SignalLine(close, fast, slow, signal), 0.0)
    ensures forall i :: 0 <= i < |close| ==> Histogram(close, fast, slow, signal)[i] == Some(0.0)
  {
    EmaConstant(close, Alpha(fast), c);
    EmaConstant(close, Alpha(slow), c);
    EmaConstant(MacdLine(close, fast, slow), Alpha(signal), 0.0);
  }

  // ---------------------------------------------------------------------
  // RSI
  // ---------------------------------------------------------------------

  /** `close.diff()`: NaN at index 0, then the change from the previous bar. */
  function Delta(close: seq<real>): (d: seq<Option<real>>)
    ensures |d| == |close|
  {
    seq(|close|, i requires 0 <= i < |close| =>
      if i == 0 then None else Some(close[i] - close[i - 1]))
  }

  /** `delta.where(delta > 0, 0)`: NaN > 0 is false, so the leading NaN becomes 0. */
  function Gains(delta: seq<Option<real>>): (g: seq<real>)
    ensures |g| == |delta|
  {
    seq(|delta|, i requires 0 <= i < |delta| =>
      if delta[i].Some? && delta[i].value > 0.0 then delta[i].value else 0.0)
  }

  /** `-delta.where(delta < 0, 0)`: the negated falls, 0 elsewhere and at the leading NaN. */
  function Losses(delta: seq<Option<real>>): (l: seq<real>)
    ensures |l| == |delta|
  {
    seq(|delta|, i requires 0 <= i < |delta| =>
      -(if delta[i].Some? && delta[i].value < 0.0 then delta[i].value else 0.0))
  }

  /**
   * `100 - 100 / (1 + gain / loss)` under IEEE division: a positive gain over
   * a zero loss is +inf, which gives 100; zero over zero is NaN.
   */
  function RsiOf(gain: real, loss: real): (r: Option<real>)
    requires 0.0 <= gain && 0.0 <= loss
    ensures r.None? <==> gain == 0.0 && loss == 0.0
    ensures r.Some? ==> 0.0 <= r.value <= 100.0
  {
    if loss == 0.0 then
      if gain == 0.0 then None else Some(100.0)
    else
      var rs := gain / loss;
      assert 0.0 <= rs;
      assert 0.0 < 100.0 / (1.0 + rs) <= 100.0;
      Some(100.0 - 100.0 / (1.0 + rs))
  }

  /** No gains over a positive loss gives RSI 0. */
  lemma RsiOfNoGain(loss: real)
    requires 0.0 < loss
    ensures RsiOf(0.0, loss) == Some(0.0)
  {
    assert 0.0 / loss == 0.0;
  }

  /** `calculate_rsi`: the RSI column over `period` bars. */
  function Rsi(close: seq<real>, period: nat): (r: seq<Option<real>>)
    requires period >= 1
    ensures |r| == |close|
  {
    var gains := Gains(Delta(close));
    var losses := Losses(Delta(close));
    var gain := RollingMean(gains, period);
    var loss := RollingMean(losses, period);
    GainsLossesNonNegative(close);
    RollingMeanNonNegative(gains, period);
    RollingMeanNonNegative(losses, period);
    seq(|close|, i requires 0 <= i < |close| =>
      if gain[i].Some? && loss[i].Some? then RsiOf(gain[i].value, loss[i].value) else None)
  }

  /**
   * Gains and losses are never negative, both are 0 at the first bar, and
   * at a later bar exactly one of them carries the size of the change: at
   * most one is non-zero, and their difference is the change.
   */
  lemma GainsLossesNonNegative(close: seq<real>)
    ensures forall i :: 0 <= i < |close| ==>
      0.0 <= Gains(Delta(close))[i] && 0.0 <= Losses(Delta(close))[i]
    ensures |close| > 0 ==> Gains(Delta(close))[0] == 0.0 && Losses(Delta(close))[0] == 0.0
    ensures forall i :: 0 < i < |close| ==>
      Gains(Delta(close))[i] - Losses(Delta(close))[i] == close[i] - close[i - 1]
    ensures forall i :: 0 <= i < |close| ==>
      Gains(Delta(close))[i] == 0.0 || Losses(Delta(close))[i] == 0.0
  {
  }

  /** The RSI of a window is 100 gain / (gain + loss), undefined when both are zero. */
  lemma RsiOfClosedForm(gain: real, loss: real)
    requires 0.0 <= gain && 0.0 <= loss
    ensures RsiOf(gain, loss).None? <==> gain + loss == 0.0
    ensures RsiOf(gain, loss).Some? ==>
      RsiOf(gain, loss).value == 100.0 * gain / (gain + loss)
      && 0.0 <= RsiOf(gain, loss).value <= 100.0
  {
    if loss != 0.0 {
      var rs := gain / loss;
      var s := gain + loss;
      assert rs * loss == gain;
      assert (1.0 + rs) * loss == s;
      var q := 100.0 / (1.0 + rs);
      assert q * (1.0 + rs) == 100.0;
      assert q * s == 100.0 * loss by {
        calc {
          q * s;
          q * ((1.0 + rs) * loss);
          (q * (1.0 + rs)) * loss;
          100.0 * loss;
        }
      }
      var t := 100.0 * gain / s;
      assert t * s == 100.0 * gain;
      assert (100.0 - q) * s == 100.0 * gain;
      MulCancel(100.0 - q, t, s);
      assert 100.0 * gain <= 100.0 * s;
    }
  }

  /** The gains of the `period` bars ending at index `i`. */
  function GainWindow(close: seq<real>, period: nat, i: nat): seq<real>
    requires 1 <= period <= i + 1 <= |close|
  {
    Window(Gains(Delta(close)), i, period)
  }

  /** The losses of the `period` bars ending at index `i`. */
  function LossWindow(close: seq<real>, period: nat, i: nat): seq<real>
    requires 1 <= period <= i + 1 <= |close|
  {
    Window(Losses(Delta(close)), i, period)
  }

  /** Every gain and loss of a window is non-negative. */
  lemma WindowsNonNegative(close: seq<real>, period: nat, i: nat)
    requires period >= 1 && period - 1 <= i < |close|
    ensures forall k :: 0 <= k < period ==>
      0.0 <= GainWindow(close, period, i)[k] && 0.0 <= LossWindow(close, period, i)[k]
  {
    GainsLossesNonNegative(close);
    var gainWin, lossWin := GainWindow(close, period, i), LossWindow(close, period, i);
    forall k | 0 <= k < period ensures 0.0 <= gainWin[k] && 0.0 <= lossWin[k] {
      assert gainWin[k] == Gains(Delta(close))[i + 1 - period + k];
      assert lossWin[k] == Losses(Delta(close))[i + 1 - period + k];
    }
  }

  /** Past the warm-up, RSI is computed from the window means of gains and losses. */
  lemma RsiAt(close: seq<real>, period: nat, i: nat)
    requires period >= 1 && period - 1 <= i < |close|
    ensures forall k :: 0 <= k < period ==>
      0.0 <= GainWindow(close, period, i)[k] && 0.0 <= LossWindow(close, period, i)[k]
    ensures 0.0 <= Mean(GainWindow(close, period, i)) && 0.0 <= Mean(LossWindow(close, period, i))
    ensures Rsi(close, period)[i] == RsiOf(Mean(GainWindow(close, period, i)), Mean(LossWindow(close, period, i)))
  {
    WindowsNonNegative(close, period, i);
    var gainWin, lossWin := GainWindow(close, period, i), LossWindow(close, period, i);
    MeanZeroIffAllZero(gainWin);
    MeanZeroIffAllZero(lossWin);
  }

  /** RSI is undefined before index `period - 1`, and every defined value lies in [0, 100]. */
  lemma RsiBounded(close: seq<real>, period: nat, i: nat)
    requires period >= 1 && i < |close|
    ensures i < period - 1 ==> Rsi(close, period)[i] == None
    ensures Rsi(close, period)[i].Some? ==> 0.0 <= Rsi(close, period)[i].value <= 100.0
  {
    if period - 1 <= i {
      RsiAt(close, period, i);
      GainsLossesNonNegative(close);
      var gainWin := Window(Gains(Delta(close)), i, period);
      var lossWin := Window(Losses(Delta(close)), i, period);
      MeanZeroIffAllZero(gainWin);
      MeanZeroIffAllZero(lossWin);
      RsiOfClosedForm(Mean(gainWin), Mean(lossWin));
    }
  }

  /** Close moves at some bar j with `lo <= j <= hi` (j >= 1, since bar 0 has no change). */
  ghost predicate MovesIn(close: seq<real>, lo: int, hi: int)
    requires hi < |close|
  {
    exists j :: lo <= j <= hi && 1 <= j && close[j] != close[j - 1]
  }

  /** A bar of the window where Close moves has a non-zero gain or loss. */
  lemma MovingWindowNotFlat(close: seq<real>, period: nat, i: nat, j: nat)
    requires period >= 1 && period - 1 <= i < |close|
    requires i + 1 - period <= j <= i && 1 <= j && close[j] != close[j - 1]
    ensures GainWindow(close, period, i)[j - (i + 1 - period)] != 0.0
         || LossWindow(close, period, i)[j - (i + 1 - period)] != 0.0
  {
    GainOrLossAt(close, j);
  }

  /** A bar where Close changes has a non-zero gain or a non-zero loss. */
  lemma GainOrLossAt(close: seq<real>, j: nat)
    requires 1 <= j < |close| && close[j] != close[j - 1]
    ensures Gains(Delta(close))[j] != 0.0 || Losses(Delta(close))[j] != 0.0
  {
    assert Delta(close)[j] == Some(close[j] - close[j - 1]);
  }

  /** Where Close does not move, every gain and loss of the window is zero. */
  lemma StillWindowFlat(close: seq<real>, period: nat, i: nat)
    requires period >= 1 && period - 1 <= i < |close|
    requires !MovesIn(close, i + 1 - period, i)
    ensures forall k :: 0 <= k < period ==>
                          GainWindow(close, period, i)[k] == 0.0 && LossWindow(close, period, i)[k] == 0.0
  {
    var first := i + 1 - period;
    var gains, losses := Gains(Delta(close)), Losses(Delta(close));
    forall k | 0 <= k < period
      ensures GainWindow(close, period, i)[k] == 0.0 && LossWindow(close, period, i)[k] == 0.0
    {
      assert GainWindow(close, period, i)[k] == gains[first + k];
      assert LossWindow(close, period, i)[k] == losses[first + k];
      assert !(1 <= first + k && close[first + k] != close[first + k - 1]);
    }
  }

  /** Both window means are zero exactly when Close does not move in the window. */
  lemma FlatWindowMeans(close: seq<real>, period: nat, i: nat)
    requires period >= 1 && period - 1 <= i < |close|
    ensures Mean(GainWindow(close, period, i)) == 0.0 && Mean(LossWindow(close, period, i)) == 0.0
        <==> !MovesIn(close, i + 1 - period, i)
  {
    if MovesIn(close, i + 1 - period, i) {
      var j :| i + 1 - period <= j <= i && 1 <= j && close[j] != close[j - 1];
      MovingWindowMeans(close, period, i, j);
    } else {
      StillWindowMeans(close, period, i);
    }
  }

  /** A move inside the window makes one of the two means positive. */
  lemma MovingWindowMeans(close: seq<real>, period: nat, i: nat, j: nat)
    requires period >= 1 && period - 1 <= i < |close|
    requires i + 1 - period <= j <= i && 1 <= j && close[j] != close[j - 1]
    ensures Mean(GainWindow(close, period, i)) != 0.0 || Mean(LossWindow(close, period, i)) != 0.0
  {
    MovingWindowNotFlat(close, period, i, j);
    WindowsNonNegative(close, period, i);
    MeanZeroIffAllZero(GainWindow(close, period, i));
    MeanZeroIffAllZero(LossWindow(close, period, i));
  }

  /** Without a move inside the window both means are zero. */
  lemma StillWindowMeans(close: seq<real>, period: nat, i: nat)
    requires period >= 1 && period - 1 <= i < |close|
    requires !MovesIn(close, i + 1 - period, i)
    ensures Mean(GainWindow(close, period, i)) == 0.0 && Mean(LossWindow(close, period, i)) == 0.0
  {
    StillWindowFlat(close, period, i);
    WindowsNonNegative(close, period, i);
    MeanZeroIffAllZero(GainWindow(close, period, i));
    MeanZeroIffAllZero(LossWindow(close, period, i));
  }

  /**
   * From index `period - 1` on, RSI is defined exactly when Close changes
   * somewhere in the window; on a flat window it is undefined (0 / 0).
   */
  lemma RsiDefinedIff(close: seq<real>, period: nat, i: nat)
    requires period >= 1 && i < |close|
    ensures Rsi(close, period)[i].Some? <==> period - 1 <= i && MovesIn(close, i + 1 - period, i)
  {
    if period - 1 <= i {
      FlatWindowMeans(close, period, i);
      RsiAt(close, period, i);
    }
  }

  /** A window of rises only (at least one, no falls) gives RSI 100. */
  lemma RsiRisingWindow(close: seq<real>, period: nat, i: nat)
    requires period >= 1 && period - 1 <= i < |close| && 1 <= i
    requires forall j :: i + 1 - period <= j <= i && 1 <= j ==> close[j - 1] < close[j]
    ensures Rsi(close, period)[i] == Some(100.0)
  {
    RsiAt(close, period, i);
    GainsLossesNonNegative(close);
    var gains, losses := Gains(Delta(close)), Losses(Delta(close));
    var gainWin := Window(gains, i, period);
    var lossWin := Window(losses, i, period);
    var first := i + 1 - period;
    forall k | 0 <= k < period ensures lossWin[k] == 0.0 {
      assert lossWin[k] == losses[first + k];
    }
    MeanZeroIffAllZero(lossWin);
    MeanZeroIffAllZero(gainWin);
    assert gainWin[period - 1] == gains[i] > 0.0;
  }

  /** A window of falls only (at least one, no rises) gives RSI 0. */
  lemma RsiFallingWindow(close: seq<real>, period: nat, i: nat)
    requires period >= 1 && period - 1 <= i < |close| && 1 <= i
    requires forall j :: i + 1 - period <= j <= i && 1 <= j ==> close[j - 1] > close[j]
    ensures Rsi(close, period)[i] == Some(0.0)
  {
    RsiAt(close, period, i);
    GainsLossesNonNegative(close);
    var gains, losses := Gains(Delta(close)), Losses(Delta(close));
    var gainWin := Window(gains, i, period);
    var lossWin := Window(losses, i, period);
    var first := i + 1 - period;
    forall k | 0 <= k < period ensures gainWin[k] == 0.0 {
      assert gainWin[k] == gains[first + k];
    }
    MeanZeroIffAllZero(lossWin);
    MeanZeroIffAllZero(gainWin);
    assert lossWin[period - 1] == losses[i] > 0.0;
    RsiOfNoGain(Mean(lossWin));
  }

  /** Strictly increasing Close: RSI is 100 at every index from max(period - 1, 1) on. */
  lemma RsiStrictlyIncreasing(close: seq<real>, period: nat)
    requires period >= 1
    requires forall j :: 1 <= j < |close| ==> close[j - 1] < close[j]
    ensures forall i :: period - 1 <= i < |close| && 1 <= i ==> Rsi(close, period)[i] == Some(100.0)
  {
    forall i | period - 1 <= i < |close| && 1 <= i ensures Rsi(close, period)[i] == Some(100.0) {
      RsiRisingWindow(close, period, i);
    }
  }

  /** Strictly decreasing Close: RSI is 0 at every index from max(period - 1, 1) on. */
  lemma RsiStrictlyDecreasing(close: seq<real>, period: nat)
    requires period >= 1
    requires forall j :: 1 <= j < |close| ==> close[j - 1] > close[j]
    ensures forall i :: period - 1 <= i < |close| && 1 <= i ==> Rsi(close, period)[i] == Some(0.0)
  {
    forall i | period - 1 <= i < |close| && 1 <= i ensures Rsi(close, period)[i] == Some(0.0) {
      RsiFallingWindow(close, period, i);
    }
  }

  /** Constant Close: every RSI position is undefined (each window is 0 / 0). */
  lemma RsiConstant(close: seq<real>, period: nat, c: real)
    requires period >= 1 && IsConstant(close, c)
    ensures forall i :: 0 <= i < |close| ==> Rsi(close, period)[i] == None
  {
    forall i | 0 <= i < |close| ensures Rsi(close, period)[i] == None {
      RsiDefinedIff(close, period, i);
    }
  }

  // ---------------------------------------------------------------------
  // Fibonacci retracements
  // ---------------------------------------------------------------------

  /** The seven level names, from the top of the range to the bottom. */
  const FibonacciNames: seq<string> :=
    ["Fib_0", "Fib_236", "Fib_382", "Fib_500", "Fib_618", "Fib_786", "Fib_100"]

  /** The seven level values in the order of `FibonacciNames`. */
  function FibonacciValues(maxPrice: real, minPrice: real): (values: seq<real>)
    ensures |values| == |FibonacciNames|
  {
    var diff := maxPrice - minPrice;
    [maxPrice, maxPrice - 0.236 * diff, maxPrice - 0.382 * diff, maxPrice - 0.500 * diff,
     maxPrice - 0.618 * diff, maxPrice - 0.786 * diff, minPrice]
  }

  /**
   * `calculate_fibonacci_retracements`: levels spread from the highest High
   * down to the lowest Low of the whole series.
   */
  function FibonacciLevels(high: seq<real>, low: seq<real>): (levels: map<string, real>)
    requires |high| > 0 && |low| > 0
    ensures forall name :: name in levels <==> name in FibonacciNames
    ensures levels["Fib_0"] in high && forall k :: 0 <= k < |high| ==> high[k] <= levels["Fib_0"]
    ensures levels["Fib_100"] in low && forall k :: 0 <= k < |low| ==> levels["Fib_100"] <= low[k]
  {
    var values := FibonacciValues(MaxOf(high), MinOf(low));
    map[
      "Fib_0" := values[0],
      "Fib_236" := values[1],
      "Fib_382" := values[2],
      "Fib_500" := values[3],
      "Fib_618" := values[4],
      "Fib_786" := values[5],
      "Fib_100" := values[6]
    ]
  }

  /** `get_fibonacci_colors`: the colour of each level's line. */
  function FibonacciColors(): (colors: map<string, string>)
    ensures forall name :: name in colors <==> name in FibonacciNames
    ensures forall a, b :: a in colors && b in colors && a != b ==> colors[a] != colors[b]
    ensures forall name :: name in colors ==> |colors[name]| == 7 && colors[name][0] == '#'
  {
    map[
      "Fib_0" := "#1a1a2e",
      "Fib_236" := "#e94560",
      "Fib_382" := "#f39c12",
      "Fib_500" := "#9b59b6",
      "Fib_618" := "#3498db",
      "Fib_786" := "#2ecc71",
      "Fib_100" := "#e74c3c"
    ]
  }

  /** Level 0 is the highest High, level 100 the lowest Low and level 500 their midpoint. */
  lemma FibonacciExtremes(high: seq<real>, low: seq<real>)
    requires |high| > 0 && |low| > 0
    ensures var levels := FibonacciLevels(high, low);
      && levels["Fib_0"] in high && (forall k :: 0 <= k < |high| ==> high[k] <= levels["Fib_0"])
      && levels["Fib_100"] in low && (forall k :: 0 <= k < |low| ==> levels["Fib_100"] <= low[k])
      && levels["Fib_500"] == (levels["Fib_0"] + levels["Fib_100"]) / 2.0
  {
  }

  /** Looking a level up by name gives the value at that name's position. */
  lemma FibonacciLevelsByPosition(high: seq<real>, low: seq<real>, k: nat)
    requires |high| > 0 && |low| > 0 && k < |FibonacciNames|
    ensures FibonacciNames[k] in FibonacciLevels(high, low)
    ensures FibonacciLevels(high, low)[FibonacciNames[k]] == FibonacciValues(MaxOf(high), MinOf(low))[k]
  {
  }

  /** When every bar has High >= Low the levels do not increase from Fib_0 down to Fib_100. */
  lemma FibonacciOrdered(high: seq<real>, low: seq<real>)
    requires |high| > 0 && |high| == |low|
    requires forall k :: 0 <= k < |high| ==> low[k] <= high[k]
    ensures var levels := FibonacciLevels(high, low);
      forall a, b :: 0 <= a <= b < |FibonacciNames| ==>
        levels[FibonacciNames[b]] <= levels[FibonacciNames[a]]
  {
    assert low[0] <= high[0];
    var values := FibonacciValues(MaxOf(high), MinOf(low));
    assert forall k :: 0 <= k < |values| - 1 ==> values[k + 1] <= values[k];
    NonIncreasingFromSteps(values);
    forall k | 0 <= k < |FibonacciNames| {
      FibonacciLevelsByPosition(high, low, k);
    }
  }

  /** The level map has exactly the seven level names as keys. */
  lemma FibonacciLevelNames(high: seq<real>, low: seq<real>)
    requires |high| > 0 && |low| > 0
    ensures forall name :: name in FibonacciLevels(high, low) <==> name in FibonacciNames
  {
  }

  /** The colour map has exactly the seven level names as keys. */
  lemma FibonacciColorNames()
    ensures forall name :: name in FibonacciColors() <==> name in FibonacciNames
    ensures |FibonacciColors()| == 7
  {
  }

  /** The levels and the colours have the same keys, so every colour lookup succeeds. */
  lemma FibonacciColorsCoverLevels(high: seq<real>, low: seq<real>)
    requires |high| > 0 && |low| > 0
    ensures FibonacciLevels(high, low).Keys == FibonacciColors().Keys
  {
    FibonacciLevelNames(high, low);
    FibonacciColorNames();
  }

  // ---------------------------------------------------------------------
  // The bar table and the methods that add columns to it
  // ---------------------------------------------------------------------

  const BbMiddle: string := "BB_Middle"
  const BbStd: string := "BB_Std"
  const BbUpper: string := "BB_Upper"
  const BbLower: string := "BB_Lower"
  const Sma90: string := "SMA90"
  const Sma200: string := "SMA200"
  const MacdColumn: string := "MACD"
  const MacdSignal: string := "MACD_Signal"
  const MacdHistogram: string := "MACD_Histogram"
  const RsiColumn: string := "RSI"

  /** The names of the columns the chart adds to the table. */
  const IndicatorColumns: set<string> :=
    {BbMiddle, BbStd, BbUpper, BbLower, Sma90, Sma200, MacdColumn, MacdSignal, MacdHistogram, RsiColumn}

  /**
   * A table of bars: the price columns it was built from, which nothing
   * changes, and the derived columns added by name.
   */
  class Frame {
    const close: seq<real>
    const high: seq<real>
    const low: seq<real>
    var columns: map<string, seq<Option<real>>>

    /** All columns have one entry per bar. */
    ghost predicate Valid()
      reads this
    {
      && |high| == |close|
      && |low| == |close|
      && forall name :: name in columns ==> |columns[name]| == |close|
    }

    constructor (close: seq<real>, high: seq<real>, low: seq<real>)
      requires |high| == |close| && |low| == |close|
      ensures Valid()
      ensures this.close == close && this.high == high && this.low == low
      ensures columns == map[]
    {
      this.close := close;
      this.high := high;
      this.low := low;
      columns := map[];
    }

    /** `df[name] = column`. */
    method SetColumn(name: string, column: seq<Option<real>>)
      requires Valid() && |column| == |close|
      modifies this
      ensures Valid()
      ensures columns == old(columns)[name := column]
    {
      columns := columns[name := column];
    }

    /** `calculate_bollinger_bands`: adds BB_Middle, BB_Std, BB_Upper and BB_Lower. */
    method CalculateBollingerBands(window: nat, numStd: real, sqrt: real -> real)
      requires Valid() && window >= 1
      modifies this
      ensures Valid()
      ensures columns == old(columns)
        [BbMiddle := RollingMean(close, window)]
        [BbStd := RollingStd(close, window, sqrt)]
        [BbUpper := BollingerUpper(close, window, numStd, sqrt)]
        [BbLower := BollingerLower(close, window, numStd, sqrt)]
    {
      var middle := RollingMean(close, window);
      var std := RollingStd(close, window, sqrt);
      columns := columns[BbMiddle := middle][BbStd := std];
      columns := columns[BbUpper := Plus(middle, Scale(std, numStd))];
      columns := columns[BbLower := Minus(middle, Scale(std, numStd))];
    }

    /** `calculate_macd`: adds MACD, MACD_Signal and MACD_Histogram. */
    method CalculateMacd(fast: nat, slow: nat, signal: nat)
      requires Valid() && fast >= 1 && slow >= 1 && signal >= 1
      modifies this
      ensures Valid()
      ensures columns == old(columns)
        [MacdColumn := Defined(MacdLine(close, fast, slow))]
        [MacdSignal := Defined(SignalLine(close, fast, slow, signal))]
        [MacdHistogram := Histogram(close, fast, slow, signal)]
    {
      var emaFast := ExponentialMovingAverage(close, fast);
      var emaSlow := ExponentialMovingAverage(close, slow);
      var macd := Difference(emaFast, emaSlow);
      columns := columns[MacdColumn := Defined(macd)];
      var signalLine := ExponentialMovingAverage(macd, signal);
      columns := columns[MacdSignal := Defined(signalLine)];
      columns := columns[MacdHistogram := Minus(Defined(macd), Defined(signalLine))];
    }

    /** `calculate_rsi`: adds RSI. */
    method CalculateRsi(period: nat)
      requires Valid() && period >= 1
      modifies this
      ensures Valid()
      ensures columns == old(columns)[RsiColumn := Rsi(close, period)]
    {
      columns := columns[RsiColumn := Rsi(close, period)];
    }
  }

  /**
   * The indicator part of `create_chart`: an empty table is refused before
   * anything is computed; otherwise every indicator is added with its
   * default configuration and the Fibonacci levels are returned.
   */
  method ComputeIndicators(df: Frame, sqrt: real -> real) returns (fib: Option<map<string, real>>)
    requires df.Valid()
    modifies df
    ensures df.Valid()
    ensures |df.close| == 0 ==> fib == None && df.columns == old(df.columns)
    ensures |df.close| > 0 ==>
      && fib == Some(FibonacciLevels(df.high, df.low))
      && fib.value.Keys == FibonacciColors().Keys
      && df.columns == old(df.columns)
        [BbMiddle := RollingMean(df.close, 20)]
        [BbStd := RollingStd(df.close, 20, sqrt)]
        [BbUpper := BollingerUpper(df.close, 20, 2.0, sqrt)]
        [BbLower := BollingerLower(df.close, 20, 2.0, sqrt)]
        [Sma90 := Sma(df.close, 90)]
        [Sma200 := Sma(df.close, 200)]
        [MacdColumn := Defined(MacdLine(df.close, 12, 26))]
        [MacdSignal := Defined(SignalLine(df.close, 12, 26, 9))]
        [MacdHistogram := Histogram(df.close, 12, 26, 9)]
        [RsiColumn := Rsi(df.close, 14)]
    ensures |df.close| > 0 ==> IndicatorColumns <= df.columns.Keys
  {
    if |df.close| == 0 {
      return None;
    }
    df.CalculateBollingerBands(20, 2.0, sqrt);
    df.SetColumn(Sma90, Sma(df.close, 90));
    df.SetColumn(Sma200, Sma(df.close, 200));
    df.CalculateMacd(12, 26, 9);
    df.CalculateRsi(14);
    FibonacciColorsCoverLevels(df.high, df.low);
    fib := Some(FibonacciLevels(df.high, df.low));
  }
}
