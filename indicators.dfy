/**
 * The three indicator calculators of the configurable engine: RSI with a
 * rolling window, MACD from adjust=False exponential moving averages, and
 * On-Balance Volume. Each `calculate` copies the table and adds its own
 * columns; the column recurrences are recursive functions over the Close and
 * Volume series.
 */
module Indicators {
  import opened Base
  import opened Frames

  // ----- Sums -----------------------------------------------------------------

  function Sum(s: seq<real>): real {
    if s == [] then 0.0 else Sum(s[..|s| - 1]) + s[|s| - 1]
  }

  lemma {:induction false} SumNonnegative(s: seq<real>)
    requires forall k :: 0 <= k < |s| ==> s[k] >= 0.0
    ensures Sum(s) >= 0.0
  {
    if s != [] {
      SumNonnegative(s[..|s| - 1]);
    }
  }

  lemma {:induction false} SumZeroIff(s: seq<real>)
    requires forall k :: 0 <= k < |s| ==> s[k] >= 0.0
    ensures Sum(s) == 0.0 <==> forall k :: 0 <= k < |s| ==> s[k] == 0.0
  {
    if s != [] {
      var p := s[..|s| - 1];
      SumZeroIff(p);
      SumNonnegative(p);
      if forall k :: 0 <= k < |s| ==> s[k] == 0.0 {
        forall k | 0 <= k < |p| ensures p[k] == 0.0 { assert p[k] == s[k]; }
      }
      if Sum(s) == 0.0 {
        forall k | 0 <= k < |s| ensures s[k] == 0.0 {
          if k < |s| - 1 { assert s[k] == p[k]; }
        }
      }
    }
  }

  // ----- First difference, gains and losses -------------------------------------

  /** `close.diff()`: row 0 has no predecessor and is NaN. */
  function Diff(xs: seq<real>): Column {
    seq(|xs|, i requires 0 <= i < |xs| => if i == 0 then None else Some(xs[i] - xs[i - 1]))
  }

  /** `delta.where(delta > 0, 0)` at one row: NaN fails the test and becomes 0. */
  function GainOf(d: Option<real>): real {
    if d.Some? && d.value > 0.0 then d.value else 0.0
  }

  /** `-delta.where(delta < 0, 0)` at one row. */
  function LossOf(d: Option<real>): real {
    if d.Some? && d.value < 0.0 then -d.value else 0.0
  }

  function Gains(xs: seq<real>): seq<real> {
    var d := Diff(xs);
    seq(|xs|, i requires 0 <= i < |xs| => GainOf(d[i]))
  }

  function Losses(xs: seq<real>): seq<real> {
    var d := Diff(xs);
    seq(|xs|, i requires 0 <= i < |xs| => LossOf(d[i]))
  }

  /**
   * Gains and losses are never negative and are 0 on row 0; from row 1 on
   * their difference is the price change, and at most one of them is non-zero.
   */
  lemma GainsAndLosses(xs: seq<real>, i: nat)
    requires i < |xs|
    ensures |Gains(xs)| == |Losses(xs)| == |xs|
    ensures Gains(xs)[i] >= 0.0 && Losses(xs)[i] >= 0.0
    ensures Gains(xs)[i] == 0.0 || Losses(xs)[i] == 0.0
    ensures i == 0 ==> Gains(xs)[i] == 0.0 && Losses(xs)[i] == 0.0
    ensures i > 0 ==> Gains(xs)[i] - Losses(xs)[i] == xs[i] - xs[i - 1]
  {
  }

  // ----- Rolling mean -------------------------------------------------------------

  /** The `w` values ending at row `i`. */
  function Window(s: seq<real>, i: nat, w: nat): seq<real>
    requires w >= 1 && w - 1 <= i < |s|
  {
    s[i + 1 - w..i + 1]
  }

  /** `s.rolling(window=w).mean()`: NaN until a full window is available. */
  function RollingMean(s: seq<real>, w: nat): (r: Column)
    requires w >= 1
    ensures |r| == |s|
    ensures forall i :: 0 <= i < |s| ==> (r[i].Some? <==> w - 1 <= i)
  {
    seq(|s|, i requires 0 <= i < |s| =>
          if i + 1 < w then None else Some(Sum(Window(s, i, w)) / w as real))
  }

  /** The rolling mean of a non-negative series is non-negative wherever it is defined. */
  lemma RollingMeanNonnegative(s: seq<real>, w: nat)
    requires w >= 1
    requires forall k :: 0 <= k < |s| ==> s[k] >= 0.0
    ensures forall i :: 0 <= i < |s| && RollingMean(s, w)[i].Some? ==> RollingMean(s, w)[i].value >= 0.0
  {
    forall i | 0 <= i < |s| && RollingMean(s, w)[i].Some?
      ensures RollingMean(s, w)[i].value >= 0.0
    {
      SumNonnegative(Window(s, i, w));
    }
  }

  // ----- RSI ------------------------------------------------------------------------

  /**
   * `100 - 100 / (1 + avg_gain / avg_loss)` under IEEE rules: a zero average
   * loss makes the ratio infinite and the RSI exactly 100, unless the average
   * gain is zero too, when the ratio 0/0 is NaN.
   */
  function RsiOf(avgGain: real, avgLoss: real): Option<real>
    requires avgGain >= 0.0 && avgLoss >= 0.0
  {
    if avgLoss == 0.0 then (if avgGain == 0.0 then None else Some(100.0))
    else Some(100.0 - 100.0 / (1.0 + avgGain / avgLoss))
  }

  /** The RSI column over a Close series with a `period`-row window. */
  function RsiColumn(close: seq<real>, period: nat): (r: Column)
    requires period >= 1
    ensures |r| == |close|
  {
    var g := RollingMean(Gains(close), period);
    var l := RollingMean(Losses(close), period);
    GainsNonnegative(close);
    LossesNonnegative(close);
    RollingMeanNonnegative(Gains(close), period);
    RollingMeanNonnegative(Losses(close), period);
    seq(|close|, i requires 0 <= i < |close| =>
          if g[i].None? || l[i].None? then None else RsiOf(g[i].value, l[i].value))
  }

  function AvgGain(close: seq<real>, period: nat, i: nat): real
    requires period >= 1 && period - 1 <= i < |close|
  {
    Sum(Window(Gains(close), i, period)) / period as real
  }

  function AvgLoss(close: seq<real>, period: nat, i: nat): real
    requires period >= 1 && period - 1 <= i < |close|
  {
    Sum(Window(Losses(close), i, period)) / period as real
  }

  /** The first `period - 1` rows have no full window and no RSI. */
  lemma RsiWarmup(close: seq<real>, period: nat, i: nat)
    requires period >= 1 && i < |close| && i < period - 1
    ensures RsiColumn(close, period)[i] == None
  {
  }

  /**
   * From row `period - 1` on, RSI is NaN exactly when the window has neither
   * gains nor losses, exactly 100 when it has gains but no losses, exactly 0
   * when it has losses but no gains, and otherwise strictly between 0 and 100.
   */
  lemma RsiCases(close: seq<real>, period: nat, i: nat)
    requires period >= 1 && period - 1 <= i < |close|
    ensures AvgGain(close, period, i) >= 0.0 && AvgLoss(close, period, i) >= 0.0
    ensures var r := RsiColumn(close, period)[i];
            var g, l := AvgGain(close, period, i), AvgLoss(close, period, i);
            && (r == None <==> g == 0.0 && l == 0.0)
            && (r == Some(100.0) <==> l == 0.0 && g > 0.0)
            && (r == Some(0.0) <==> g == 0.0 && l > 0.0)
            && (r.Some? ==> 0.0 <= r.value <= 100.0)
  {
    RsiColumnAt(close, period, i);
    RsiOfCases(AvgGain(close, period, i), AvgLoss(close, period, i));
  }

  /** A full-window row of the RSI column is `RsiOf` the window's average gain and loss. */
  lemma RsiColumnAt(close: seq<real>, period: nat, i: nat)
    requires period >= 1 && period - 1 <= i < |close|
    ensures AvgGain(close, period, i) >= 0.0 && AvgLoss(close, period, i) >= 0.0
    ensures RsiColumn(close, period)[i] == RsiOf(AvgGain(close, period, i), AvgLoss(close, period, i))
  {
    GainsNonnegative(close);
    LossesNonnegative(close);
    SumNonnegative(Window(Gains(close), i, period));
    SumNonnegative(Window(Losses(close), i, period));
  }

  /** The four outcomes of `RsiOf`, by the signs of the two averages. */
  lemma RsiOfCases(g: real, l: real)
    requires g >= 0.0 && l >= 0.0
    ensures var r := RsiOf(g, l);
            && (r == None <==> g == 0.0 && l == 0.0)
            && (r == Some(100.0) <==> l == 0.0 && g > 0.0)
            && (r == Some(0.0) <==> g == 0.0 && l > 0.0)
            && (r.Some? ==> 0.0 <= r.value <= 100.0)
  {
    if l > 0.0 {
      var rs := g / l;
      assert rs >= 0.0;
      assert 0.0 < 100.0 / (1.0 + rs) <= 100.0 by {
        DivisionBounds(100.0, 1.0 + rs);
      }
      if g > 0.0 {
        assert rs > 0.0;
        assert 100.0 / (1.0 + rs) < 100.0 by {
          DivisionShrinks(100.0, 1.0 + rs);
        }
      }
    }
  }

  lemma GainsNonnegative(close: seq<real>)
    ensures forall k :: 0 <= k < |close| ==> Gains(close)[k] >= 0.0
  {
  }

  lemma LossesNonnegative(close: seq<real>)
    ensures forall k :: 0 <= k < |close| ==> Losses(close)[k] >= 0.0
  {
  }

  lemma DivisionBounds(a: real, b: real)
    requires a > 0.0 && b >= 1.0
    ensures 0.0 < a / b <= a
  {
    assert a / b * b == a;
  }

  lemma DivisionShrinks(a: real, b: real)
    requires a > 0.0 && b > 1.0
    ensures a / b < a
  {
    var q := a / b;
    assert q * b == a;
    assert q > 0.0;
    assert q * b > q * 1.0;
  }

  /** Every defined RSI value lies in [0, 100]. */
  lemma RsiRange(close: seq<real>, period: nat, i: nat)
    requires period >= 1 && i < |close|
    ensures RsiColumn(close, period)[i].Some? ==> 0.0 <= RsiColumn(close, period)[i].value <= 100.0
  {
    if period - 1 <= i {
      RsiCases(close, period, i);
    }
  }

  /**
   * A flat Close series has neither gains nor losses, so its RSI is NaN on
   * every row: the 0/0 ratio, not the saturated 100.
   */
  lemma {:induction false} FlatCloseHasNoRsi(close: seq<real>, period: nat)
    requires period >= 1
    requires forall k :: 0 <= k < |close| ==> close[k] == close[0]
    ensures forall i :: 0 <= i < |close| ==> RsiColumn(close, period)[i] == None
  {
    forall i | 0 <= i < |close| ensures RsiColumn(close, period)[i] == None {
      if period - 1 <= i {
        GainsNonnegative(close);
        LossesNonnegative(close);
        var wg, wl := Window(Gains(close), i, period), Window(Losses(close), i, period);
        assert forall k :: 0 <= k < |wg| ==> wg[k] == 0.0 by {
          forall k | 0 <= k < |wg| ensures wg[k] == 0.0 {
            assert wg[k] == Gains(close)[i + 1 - period + k];
          }
        }
        assert forall k :: 0 <= k < |wl| ==> wl[k] == 0.0 by {
          forall k | 0 <= k < |wl| ensures wl[k] == 0.0 {
            assert wl[k] == Losses(close)[i + 1 - period + k];
          }
        }
        SumZeroIff(wg);
        SumZeroIff(wl);
        RsiCases(close, period, i);
      }
    }
  }

  // ----- Exponential moving average and MACD ----------------------------------------

  /** The smoothing factor of `ewm(span=span)`. */
  function Alpha(span: nat): (a: real)
    requires span >= 1
    ensures 0.0 < a <= 1.0
  {
    2.0 / (span as real + 1.0)
  }

  /**
   * `xs.ewm(alpha=alpha, adjust=False).mean()`: seeded with the first value,
   * then each row blends the previous average with the new value.
   */
  function Ema(xs: seq<real>, alpha: real): (r: seq<real>)
    ensures |r| == |xs|
    decreases |xs|
  {
    if xs == [] then []
    else
      var p := Ema(xs[..|xs| - 1], alpha);
      p + [if p == [] then xs[0] else (1.0 - alpha) * p[|p| - 1] + alpha * xs[|xs| - 1]]
  }

  /** Averaging a prefix gives the prefix of the average. */
  lemma {:induction false} EmaPrefix(xs: seq<real>, alpha: real, k: nat)
    requires k <= |xs|
    ensures Ema(xs[..k], alpha) == Ema(xs, alpha)[..k]
    decreases |xs|
  {
    if k < |xs| {
      assert xs[..k] == xs[..|xs| - 1][..k];
      EmaPrefix(xs[..|xs| - 1], alpha, k);
    } else {
      assert xs[..k] == xs;
    }
  }

  /** The recurrence: seed = first value, then y[i] = (1 - alpha) y[i-1] + alpha x[i]. */
  lemma EmaRecurrence(xs: seq<real>, alpha: real, i: nat)
    requires i < |xs|
    ensures i == 0 ==> Ema(xs, alpha)[0] == xs[0]
    ensures i > 0 ==> Ema(xs, alpha)[i] == (1.0 - alpha) * Ema(xs, alpha)[i - 1] + alpha * xs[i]
  {
    EmaPrefix(xs, alpha, i + 1);
    var q := xs[..i + 1];
    assert q[..|q| - 1] == xs[..i];
    EmaPrefix(xs, alpha, i);
    assert Ema(xs, alpha)[i] == Ema(q, alpha)[i];
  }

  /** A weighted average of values in [lo, hi] stays in [lo, hi]. */
  lemma {:induction false} EmaBounded(xs: seq<real>, alpha: real, lo: real, hi: real)
    requires 0.0 <= alpha <= 1.0
    requires forall k :: 0 <= k < |xs| ==> lo <= xs[k] <= hi
    ensures forall k :: 0 <= k < |xs| ==> lo <= Ema(xs, alpha)[k] <= hi
    decreases |xs|
  {
    if xs != [] {
      var p := Ema(xs[..|xs| - 1], alpha);
      EmaBounded(xs[..|xs| - 1], alpha, lo, hi);
      if p != [] {
        var y, x := p[|p| - 1], xs[|xs| - 1];
        assert lo <= y <= hi;
        assert lo <= x <= hi;
        ConvexStep(alpha, y, x, lo, hi);
        assert Ema(xs, alpha)[|xs| - 1] == (1.0 - alpha) * y + alpha * x;
      }
      assert Ema(xs, alpha)[..|xs| - 1] == p;
    }
  }

  /** One smoothing step stays between any bounds of its two inputs. */
  lemma ConvexStep(alpha: real, y: real, x: real, lo: real, hi: real)
    requires 0.0 <= alpha <= 1.0 && lo <= y <= hi && lo <= x <= hi
    ensures lo <= (1.0 - alpha) * y + alpha * x <= hi
  {
    var v := (1.0 - alpha) * y + alpha * x;
    MulNonnegative(1.0 - alpha, y - lo);
    MulNonnegative(alpha, x - lo);
    assert v - lo == (1.0 - alpha) * (y - lo) + alpha * (x - lo);
    MulNonnegative(1.0 - alpha, hi - y);
    MulNonnegative(alpha, hi - x);
    assert hi - v == (1.0 - alpha) * (hi - y) + alpha * (hi - x);
  }

  lemma MulNonnegative(a: real, b: real)
    requires a >= 0.0 && b >= 0.0
    ensures a * b >= 0.0
  {
  }

  lemma MulMonotone(c: real, a: real, b: real)
    requires c >= 0.0 && a <= b
    ensures c * a <= c * b
  {
    assert c * b - c * a == c * (b - a);
  }

  /** A constant series is its own moving average. */
  lemma EmaOfConstant(xs: seq<real>, alpha: real, c: real)
    requires 0.0 <= alpha <= 1.0
    requires forall k :: 0 <= k < |xs| ==> xs[k] == c
    ensures forall k :: 0 <= k < |xs| ==> Ema(xs, alpha)[k] == c
  {
    EmaBounded(xs, alpha, c, c);
  }

  /** `ema_fast - ema_slow` over the Close series. */
  function MacdLine(close: seq<real>, fast: nat, slow: nat): (r: seq<real>)
    requires fast >= 1 && slow >= 1
    ensures |r| == |close|
  {
    var ef, es := Ema(close, Alpha(fast)), Ema(close, Alpha(slow));
    seq(|close|, i requires 0 <= i < |close| => ef[i] - es[i])
  }

  /** The signal line: the EMA of the MACD line. */
  function MacdSignalLine(close: seq<real>, fast: nat, slow: nat, signal: nat): (r: seq<real>)
    requires fast >= 1 && slow >= 1 && signal >= 1
    ensures |r| == |close|
  {
    Ema(MacdLine(close, fast, slow), Alpha(signal))
  }

  /** A flat Close series has MACD and signal line 0 on every row. */
  lemma FlatCloseHasZeroMacd(close: seq<real>, fast: nat, slow: nat, signal: nat)
    requires fast >= 1 && slow >= 1 && signal >= 1
    requires forall k :: 0 <= k < |close| ==> close[k] == close[0]
    ensures forall i :: 0 <= i < |close| ==>
              MacdLine(close, fast, slow)[i] == 0.0 && MacdSignalLine(close, fast, slow, signal)[i] == 0.0
  {
    if close != [] {
      EmaOfConstant(close, Alpha(fast), close[0]);
      EmaOfConstant(close, Alpha(slow), close[0]);
      EmaOfConstant(MacdLine(close, fast, slow), Alpha(signal), 0.0);
    }
  }

  // ----- On-Balance Volume ------------------------------------------------------------

  /** `np.sign`. */
  function Sign(x: real): real {
    if x > 0.0 then 1.0 else if x < 0.0 then -1.0 else 0.0
  }

  /** `volume * np.sign(close.diff())`: NaN on row 0. */
  function ObvTerms(close: seq<real>, volume: seq<real>): (r: Column)
    requires |volume| == |close|
    ensures |r| == |close|
  {
    var d := Diff(close);
    seq(|close|, i requires 0 <= i < |close| =>
          match d[i]
          case None => None
          case Some(x) => Some(volume[i] * Sign(x)))
  }

  /**
   * `cumsum()` with pandas' default skipna: NaN rows stay NaN and do not
   * interrupt the running total, which `acc` carries.
   */
  function CumSumFrom(ts: Column, acc: real): (r: Column)
    ensures |r| == |ts|
    decreases |ts|
  {
    if ts == [] then []
    else match ts[0]
      case None => [None] + CumSumFrom(ts[1..], acc)
      case Some(v) => [Some(acc + v)] + CumSumFrom(ts[1..], acc + v)
  }

  function ObvColumn(close: seq<real>, volume: seq<real>): (r: Column)
    requires |volume| == |close|
    ensures |r| == |close|
  {
    CumSumFrom(ObvTerms(close, volume), 0.0)
  }

  /** The sum of the defined entries of a column. */
  function DefinedSum(ts: Column): real {
    if ts == [] then 0.0 else (if ts[0].Some? then ts[0].value else 0.0) + DefinedSum(ts[1..])
  }

  /** Independent statement of OBV: the signed volumes of rows 1..i added up. */
  function SignedVolumeSum(close: seq<real>, volume: seq<real>, i: nat): real
    requires |volume| == |close| && i < |close|
  {
    if i == 0 then 0.0
    else SignedVolumeSum(close, volume, i - 1) + Sign(close[i] - close[i - 1]) * volume[i]
  }

  lemma {:induction false} CumSumAt(ts: Column, acc: real, i: nat)
    requires i < |ts|
    ensures CumSumFrom(ts, acc)[i] == if ts[i].None? then None else Some(acc + DefinedSum(ts[..i + 1]))
    decreases |ts|
  {
    if i > 0 {
      var acc' := if ts[0].Some? then acc + ts[0].value else acc;
      CumSumAt(ts[1..], acc', i - 1);
      assert ts[1..][..i] == ts[..i + 1][1..];
    }
  }

  lemma {:induction false} DefinedSumSnoc(ts: Column, t: Option<real>)
    ensures DefinedSum(ts + [t]) == DefinedSum(ts) + (if t.Some? then t.value else 0.0)
    decreases |ts|
  {
    if ts != [] {
      assert (ts + [t])[1..] == ts[1..] + [t];
      DefinedSumSnoc(ts[1..], t);
    }
  }

  lemma {:induction false} ObvTermsSum(close: seq<real>, volume: seq<real>, i: nat)
    requires |volume| == |close| && i < |close|
    ensures DefinedSum(ObvTerms(close, volume)[..i + 1]) == SignedVolumeSum(close, volume, i)
  {
    var ts := ObvTerms(close, volume);
    if i == 0 {
      assert ts[..1] == [None];
    } else {
      ObvTermsSum(close, volume, i - 1);
      assert ts[..i + 1] == ts[..i] + [ts[i]];
      DefinedSumSnoc(ts[..i], ts[i]);
      assert ts[i] == Some(volume[i] * Sign(close[i] - close[i - 1]));
    }
  }

  /** OBV is NaN on row 0 and the running signed-volume total from row 1 on. */
  lemma ObvClosedForm(close: seq<real>, volume: seq<real>, i: nat)
    requires |volume| == |close| && i < |close|
    ensures i == 0 ==> ObvColumn(close, volume)[i] == None
    ensures i > 0 ==> ObvColumn(close, volume)[i] == Some(SignedVolumeSum(close, volume, i))
  {
    CumSumAt(ObvTerms(close, volume), 0.0, i);
    ObvTermsSum(close, volume, i);
  }

  lemma {:induction false} SignedVolumeSumMonotone(close: seq<real>, volume: seq<real>, i: nat, j: nat, rising: bool)
    requires |volume| == |close| && i <= j < |close|
    requires forall k :: 0 <= k < |volume| ==> volume[k] >= 0.0
    requires forall k :: 1 <= k < |close| ==> if rising then close[k - 1] <= close[k] else close[k - 1] >= close[k]
    ensures rising ==> SignedVolumeSum(close, volume, i) <= SignedVolumeSum(close, volume, j)
    ensures !rising ==> SignedVolumeSum(close, volume, i) >= SignedVolumeSum(close, volume, j)
    decreases j - i
  {
    if i < j {
      SignedVolumeSumMonotone(close, volume, i, j - 1, rising);
      var s := Sign(close[j] - close[j - 1]);
      if rising {
        assert s >= 0.0;
        MulMonotone(volume[j], 0.0, s);
      } else {
        assert s <= 0.0;
        MulMonotone(volume[j], s, 0.0);
      }
    }
  }

  /**
   * With non-negative volume, a non-decreasing Close gives a non-decreasing
   * OBV from row 1 on, and a non-increasing Close a non-increasing OBV.
   */
  lemma ObvFollowsTrend(close: seq<real>, volume: seq<real>, i: nat, j: nat, rising: bool)
    requires |volume| == |close| && 1 <= i <= j < |close|
    requires forall k :: 0 <= k < |volume| ==> volume[k] >= 0.0
    requires forall k :: 1 <= k < |close| ==> if rising then close[k - 1] <= close[k] else close[k - 1] >= close[k]
    ensures ObvColumn(close, volume)[i].Some? && ObvColumn(close, volume)[j].Some?
    ensures rising ==> ObvColumn(close, volume)[i].value <= ObvColumn(close, volume)[j].value
    ensures !rising ==> ObvColumn(close, volume)[i].value >= ObvColumn(close, volume)[j].value
  {
    ObvClosedForm(close, volume, i);
    ObvClosedForm(close, volume, j);
    SignedVolumeSumMonotone(close, volume, i, j, rising);
  }

  // ----- The calculators ------------------------------------------------------------

  /** The indicators of the configurable engine, with their parameters. */
  datatype Indicator =
    | Rsi(period: nat, buyThreshold: real, sellThreshold: real)
    | Macd(fast: nat, slow: nat, signal: nat)
    | Obv

  /** Parameters pandas accepts: a positive window and spans of at least 1. */
  predicate ValidIndicator(ind: Indicator) {
    match ind
    case Rsi(period, _, _) => period >= 1
    case Macd(fast, slow, signal) => fast >= 1 && slow >= 1 && signal >= 1
    case Obv => true
  }

  /** The columns an indicator adds (or overwrites). */
  function OwnColumns(ind: Indicator): set<string> {
    match ind
    case Rsi(_, _, _) => {"RSI"}
    case Macd(_, _, _) => {"MACD", "MACD_Signal"}
    case Obv => {"OBV"}
  }

  function Lift(xs: seq<real>): (r: Column)
    ensures |r| == |xs| && Defined(r)
  {
    seq(|xs|, i requires 0 <= i < |xs| => Some(xs[i]))
  }

  /** `RSIIndicator.calculate`: a copy of the table with an `RSI` column. */
  function RsiCalculate(period: nat, f: Frame): (r: Frame)
    requires period >= 1 && Priced(f)
    ensures Priced(r) && r.len == f.len
    ensures r.cols.Keys == f.cols.Keys + {"RSI"}
    ensures forall c :: c in f.cols && c != "RSI" ==> r.cols[c] == f.cols[c]
    ensures r.cols["RSI"] == RsiColumn(Closes(f), period)
  {
    f.(cols := f.cols["RSI" := RsiColumn(Closes(f), period)])
  }

  /** `MACDIndicator.calculate`: adds `MACD` and `MACD_Signal`. */
  function MacdCalculate(fast: nat, slow: nat, signal: nat, f: Frame): (r: Frame)
    requires fast >= 1 && slow >= 1 && signal >= 1 && Priced(f)
    ensures Priced(r) && r.len == f.len
    ensures r.cols.Keys == f.cols.Keys + {"MACD", "MACD_Signal"}
    ensures forall c :: c in f.cols && c != "MACD" && c != "MACD_Signal" ==> r.cols[c] == f.cols[c]
    ensures r.cols["MACD"] == Lift(MacdLine(Closes(f), fast, slow))
    ensures r.cols["MACD_Signal"] == Lift(MacdSignalLine(Closes(f), fast, slow, signal))
  {
    var close := Closes(f);
    f.(cols := f.cols["MACD" := Lift(MacdLine(close, fast, slow))]
                     ["MACD_Signal" := Lift(MacdSignalLine(close, fast, slow, signal))])
  }

  /** `OBVIndicator.calculate`: adds `OBV`. */
  function ObvCalculate(f: Frame): (r: Frame)
    requires Priced(f)
    ensures Priced(r) && r.len == f.len
    ensures r.cols.Keys == f.cols.Keys + {"OBV"}
    ensures forall c :: c in f.cols && c != "OBV" ==> r.cols[c] == f.cols[c]
    ensures r.cols["OBV"] == ObvColumn(Closes(f), Volumes(f))
  {
    f.(cols := f.cols["OBV" := ObvColumn(Closes(f), Volumes(f))])
  }

  function Calculate(ind: Indicator, f: Frame): (r: Frame)
    requires ValidIndicator(ind) && Priced(f)
    ensures Priced(r) && r.len == f.len
    ensures r.cols.Keys == f.cols.Keys + OwnColumns(ind)
    ensures forall c :: c in f.cols && c !in OwnColumns(ind) ==> r.cols[c] == f.cols[c]
  {
    match ind
    case Rsi(period, _, _) => RsiCalculate(period, f)
    case Macd(fast, slow, signal) => MacdCalculate(fast, slow, signal, f)
    case Obv => ObvCalculate(f)
  }

  predicate AllValid(inds: seq<Indicator>) {
    forall k :: 0 <= k < |inds| ==> ValidIndicator(inds[k])
  }

  /** The union of the columns a list of indicators adds. */
  function AddedColumns(inds: seq<Indicator>): set<string> {
    if inds == [] then {} else AddedColumns(inds[..|inds| - 1]) + OwnColumns(inds[|inds| - 1])
  }

  /**
   * The generators' loop: each indicator in list order, applied to the
   * previous one's output. The rows stay as they are; the columns are those
   * of the input plus every indicator's own, and a column no indicator owns
   * is passed through unchanged.
   */
  function ApplyAll(inds: seq<Indicator>, f: Frame): (r: Frame)
    requires AllValid(inds) && Priced(f)
    ensures Priced(r) && r.len == f.len
    ensures r.cols.Keys == f.cols.Keys + AddedColumns(inds)
    ensures forall c :: c in f.cols && c !in AddedColumns(inds) ==> r.cols[c] == f.cols[c]
    decreases |inds|
  {
    if inds == [] then f
    else Calculate(inds[|inds| - 1], ApplyAll(inds[..|inds| - 1], f))
  }
}
