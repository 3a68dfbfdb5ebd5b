/**
 * The indicator engine of indicators.py: EMA, Wilder-style RSI, ATR, the
 * (reset-aware) VWAP, VWAP deviation bands and liquidity-sweep detection.
 *
 * Prices and volumes are exact reals. A pandas NaN is `None`. The `1e-9`
 * guard of the source is the parameter `eps`, required to be positive.
 */
module Indicators {
  import opened Wrappers

  /** One OHLCV bar; `ts` is the open time in milliseconds since the epoch. */
  datatype Candle = Candle(ts: int, open: real, high: real, low: real, close: real, volume: real)

  function Closes(bars: seq<Candle>): (r: seq<real>)
    ensures |r| == |bars|
    ensures forall i :: 0 <= i < |bars| ==> r[i] == bars[i].close
  {
    seq(|bars|, i requires 0 <= i < |bars| => bars[i].close)
  }

  function Abs(x: real): real { if x < 0.0 then -x else x }

  function Max(x: real, y: real): real { if x < y then y else x }

  function Min(x: real, y: real): real { if x < y then x else y }

  // ---------------------------------------------------------------------
  // Exponentially weighted mean (pandas `ewm(..., adjust=False).mean()`)
  // ---------------------------------------------------------------------

  /** Entry `i` of the smoothed series: seeded by the first value, then `y[i] = alpha * x[i] + (1 - alpha) * y[i-1]`. */
  function EwmAt(xs: seq<real>, alpha: real, i: nat): real
    requires i < |xs|
  {
    if i == 0 then xs[0] else alpha * xs[i] + (1.0 - alpha) * EwmAt(xs, alpha, i - 1)
  }

  /** The smoothed series. */
  function Ewm(xs: seq<real>, alpha: real): (r: seq<real>)
    ensures |r| == |xs|
    ensures |xs| > 0 ==> r[0] == xs[0]
    ensures forall i :: 0 < i < |xs| ==> r[i] == alpha * xs[i] + (1.0 - alpha) * r[i - 1]
  {
    seq(|xs|, i requires 0 <= i < |xs| => EwmAt(xs, alpha, i))
  }

  /** A convex combination of two values at least `lo` is at least `lo`. */
  lemma ConvexAtLeast(a: real, x: real, y: real, lo: real)
    requires 0.0 <= a <= 1.0 && x >= lo && y >= lo
    ensures a * x + (1.0 - a) * y >= lo
  {
    assert a * (x - lo) >= 0.0;
    assert (1.0 - a) * (y - lo) >= 0.0;
  }

  /** A convex combination of two values at most `hi` is at most `hi`. */
  lemma ConvexAtMost(a: real, x: real, y: real, hi: real)
    requires 0.0 <= a <= 1.0 && x <= hi && y <= hi
    ensures a * x + (1.0 - a) * y <= hi
  {
    assert a * (hi - x) >= 0.0;
    assert (1.0 - a) * (hi - y) >= 0.0;
  }

  /** Every smoothed value is at least any lower bound of the input. */
  lemma {:induction false} EwmAtLeast(xs: seq<real>, alpha: real, lo: real, i: nat)
    requires 0.0 <= alpha <= 1.0
    requires i < |xs|
    requires forall k :: 0 <= k < |xs| ==> xs[k] >= lo
    ensures Ewm(xs, alpha)[i] >= lo
  {
    if i > 0 {
      EwmAtLeast(xs, alpha, lo, i - 1);
      ConvexAtLeast(alpha, xs[i], Ewm(xs, alpha)[i - 1], lo);
    }
  }

  /** Every smoothed value is at most any upper bound of the input. */
  lemma {:induction false} EwmAtMost(xs: seq<real>, alpha: real, hi: real, i: nat)
    requires 0.0 <= alpha <= 1.0
    requires i < |xs|
    requires forall k :: 0 <= k < |xs| ==> xs[k] <= hi
    ensures Ewm(xs, alpha)[i] <= hi
  {
    if i > 0 {
      EwmAtMost(xs, alpha, hi, i - 1);
      ConvexAtMost(alpha, xs[i], Ewm(xs, alpha)[i - 1], hi);
    }
  }

  // ---------------------------------------------------------------------
  // EMA (indicators.py:11-12)
  // ---------------------------------------------------------------------

  /** pandas' smoothing factor for a span: `2 / (span + 1)`. */
  function SpanAlpha(span: int): (a: real)
    requires span >= 1
    ensures 0.0 < a <= 1.0
    ensures a * (span as real + 1.0) == 2.0
  {
    2.0 / (span as real + 1.0)
  }

  /** `series.ewm(span=span, adjust=False).mean()`. */
  function Ema(xs: seq<real>, span: int): (r: seq<real>)
    requires span >= 1
    ensures |r| == |xs|
    ensures |xs| > 0 ==> r[0] == xs[0]
    ensures forall i :: 0 < i < |xs| ==>
      r[i] == SpanAlpha(span) * xs[i] + (1.0 - SpanAlpha(span)) * r[i - 1]
  {
    Ewm(xs, SpanAlpha(span))
  }

  /** The EMA stays within the range of the input series. */
  lemma EmaWithinRange(xs: seq<real>, span: int, lo: real, hi: real)
    requires span >= 1
    requires forall k :: 0 <= k < |xs| ==> lo <= xs[k] <= hi
    ensures forall i :: 0 <= i < |xs| ==> lo <= Ema(xs, span)[i] <= hi
  {
    forall i | 0 <= i < |xs|
      ensures lo <= Ema(xs, span)[i] <= hi
    {
      EwmAtLeast(xs, SpanAlpha(span), lo, i);
      EwmAtMost(xs, SpanAlpha(span), hi, i);
    }
  }

  /** On a constant series every EMA value equals that constant. */
  lemma {:induction false} EmaOfConstant(xs: seq<real>, span: int, c: real, i: nat)
    requires span >= 1
    requires forall k :: 0 <= k < |xs| ==> xs[k] == c
    requires i < |xs|
    ensures Ema(xs, span)[i] == c
  {
    if i > 0 {
      EmaOfConstant(xs, span, c, i - 1);
      var a := SpanAlpha(span);
      assert Ema(xs, span)[i] == a * c + (1.0 - a) * c;
    }
  }

  // ---------------------------------------------------------------------
  // RSI (indicators.py:4-9)
  // ---------------------------------------------------------------------

  /** `series.diff()` without its leading NaN: entry j is `x[j+1] - x[j]`. */
  function Deltas(xs: seq<real>): (d: seq<real>)
    ensures |d| == if |xs| == 0 then 0 else |xs| - 1
    ensures forall j :: 0 <= j < |d| ==> d[j] == xs[j + 1] - xs[j]
  {
    if |xs| == 0 then [] else seq(|xs| - 1, j requires 0 <= j < |xs| - 1 => xs[j + 1] - xs[j])
  }

  /** `delta.clip(lower=0)`. */
  function Gains(d: seq<real>): (g: seq<real>)
    ensures |g| == |d|
    ensures forall j :: 0 <= j < |d| ==> g[j] == Max(d[j], 0.0)
  {
    seq(|d|, j requires 0 <= j < |d| => Max(d[j], 0.0))
  }

  /** `-delta.clip(upper=0)`. */
  function Losses(d: seq<real>): (l: seq<real>)
    ensures |l| == |d|
    ensures forall j :: 0 <= j < |d| ==> l[j] == -Min(d[j], 0.0)
  {
    seq(|d|, j requires 0 <= j < |d| => -Min(d[j], 0.0))
  }

  /** Sum of a series. */
  function Sum(xs: seq<real>): real
  {
    if |xs| == 0 then 0.0 else Sum(xs[..|xs| - 1]) + xs[|xs| - 1]
  }

  /** The deltas telescope: the first value plus the first `k` deltas is value `k`. */
  lemma {:induction false} DeltasTelescope(xs: seq<real>, k: nat)
    requires k < |xs|
    ensures xs[0] + Sum(Deltas(xs)[..k]) == xs[k]
  {
    if k > 0 {
      DeltasTelescope(xs, k - 1);
      var d := Deltas(xs);
      assert d[..k][..k - 1] == d[..k - 1];
    }
  }

  /**
   * Clipping splits each delta into a gain and a loss: both non-negative,
   * at most one of them non-zero, and their difference is the delta.
   */
  lemma GainsLossesSplit(d: seq<real>)
    ensures forall j :: 0 <= j < |d| ==>
      && Gains(d)[j] >= 0.0 && Losses(d)[j] >= 0.0
      && Gains(d)[j] - Losses(d)[j] == d[j]
      && Gains(d)[j] * Losses(d)[j] == 0.0
  {
  }

  /** `100 - 100 / (1 + gain / (loss + eps))` for non-negative averages. */
  function RsiValue(avgGain: real, avgLoss: real, eps: real): (v: real)
    requires avgGain >= 0.0 && avgLoss >= 0.0 && eps > 0.0
    ensures 0.0 <= v < 100.0
    ensures v == 0.0 <==> avgGain == 0.0
  {
    var rs := avgGain / (avgLoss + eps);
    assert rs >= 0.0;
    assert rs == 0.0 <==> avgGain == 0.0;
    var q := 100.0 / (1.0 + rs);
    assert q * (1.0 + rs) == 100.0;
    assert q > 0.0;
    assert q <= 100.0 by {
      assert q * rs >= 0.0;
    }
    100.0 - q
  }

  /** Wilder's smoothing factor `1/period` is a valid EWM factor. */
  lemma WilderAlpha(period: int)
    requires period >= 1
    ensures 0.0 < 1.0 / period as real <= 1.0
  {
  }

  /** Smoothing a non-negative series keeps it non-negative. */
  lemma EwmNonNeg(xs: seq<real>, alpha: real)
    requires 0.0 <= alpha <= 1.0
    requires forall k :: 0 <= k < |xs| ==> xs[k] >= 0.0
    ensures forall j :: 0 <= j < |xs| ==> Ewm(xs, alpha)[j] >= 0.0
  {
    forall j | 0 <= j < |xs| ensures Ewm(xs, alpha)[j] >= 0.0 {
      EwmAtLeast(xs, alpha, 0.0, j);
    }
  }

  /** Wilder average of the gains: smoothing factor `1/period`, seeded by the delta of bar 1. */
  function AvgGains(xs: seq<real>, period: int): (g: seq<real>)
    requires period >= 1
    ensures |g| == |Deltas(xs)|
    ensures forall j :: 0 <= j < |g| ==> g[j] >= 0.0
  {
    WilderAlpha(period);
    EwmNonNeg(Gains(Deltas(xs)), 1.0 / period as real);
    Ewm(Gains(Deltas(xs)), 1.0 / period as real)
  }

  /** Wilder average of the losses (as positive numbers). */
  function AvgLosses(xs: seq<real>, period: int): (l: seq<real>)
    requires period >= 1
    ensures |l| == |Deltas(xs)|
    ensures forall j :: 0 <= j < |l| ==> l[j] >= 0.0
  {
    WilderAlpha(period);
    EwmNonNeg(Losses(Deltas(xs)), 1.0 / period as real);
    Ewm(Losses(Deltas(xs)), 1.0 / period as real)
  }

  /**
   * Wilder RSI with smoothing factor `1/period`. Entry 0 is NaN (`None`):
   * the first bar has no delta, so the averages are seeded by the delta
   * of bar 1.
   */
  function Rsi(xs: seq<real>, period: int, eps: real): (r: seq<Option<real>>)
    requires period >= 1 && eps > 0.0
    ensures |r| == |xs|
    ensures |xs| > 0 ==> r[0] == None
    ensures forall i :: 1 <= i < |xs| ==> r[i].Some? && 0.0 <= r[i].value < 100.0
  {
    var g := AvgGains(xs, period);
    var l := AvgLosses(xs, period);
    seq(|xs|, i requires 0 <= i < |xs| =>
      if i == 0 then None else Some(RsiValue(g[i - 1], l[i - 1], eps)))
  }

  /** One defined entry of the RSI series. */
  lemma RsiAt(xs: seq<real>, period: int, eps: real, i: nat)
    requires period >= 1 && eps > 0.0
    requires 1 <= i < |xs|
    ensures Rsi(xs, period, eps)[i] ==
      Some(RsiValue(AvgGains(xs, period)[i - 1], AvgLosses(xs, period)[i - 1], eps))
  {
  }

  /** The first defined RSI value (bar 1) depends on the first delta alone. */
  lemma RsiSeed(xs: seq<real>, period: int, eps: real)
    requires period >= 1 && eps > 0.0
    requires |xs| >= 2
    ensures Rsi(xs, period, eps)[1] ==
      Some(RsiValue(Max(xs[1] - xs[0], 0.0), -Min(xs[1] - xs[0], 0.0), eps))
  {
    RsiAt(xs, period, eps, 1);
    var d := Deltas(xs);
    assert d[0] == xs[1] - xs[0];
    assert AvgGains(xs, period)[0] == Gains(d)[0] == Max(d[0], 0.0);
    assert AvgLosses(xs, period)[0] == Losses(d)[0] == -Min(d[0], 0.0);
  }

  /** A series that never rises has RSI 0 at every bar after the first. */
  lemma RsiOfNonRising(xs: seq<real>, period: int, eps: real)
    requires period >= 1 && eps > 0.0
    requires forall i :: 1 <= i < |xs| ==> xs[i] <= xs[i - 1]
    ensures forall i :: 1 <= i < |xs| ==> Rsi(xs, period, eps)[i] == Some(0.0)
  {
    var gains := Gains(Deltas(xs));
    assert forall j :: 0 <= j < |gains| ==> gains[j] <= 0.0;
    WilderAlpha(period);
    forall i | 1 <= i < |xs|
      ensures Rsi(xs, period, eps)[i] == Some(0.0)
    {
      EwmAtMost(gains, 1.0 / period as real, 0.0, i - 1);
      RsiAt(xs, period, eps, i);
    }
  }

  // ---------------------------------------------------------------------
  // ATR (indicators.py:14-19)
  // ---------------------------------------------------------------------

  /** True range; at bar 0 the shifted close is NaN and the row max skips it. */
  function TrueRange(bars: seq<Candle>, i: nat): (tr: real)
    requires i < |bars|
    ensures tr >= Abs(bars[i].high - bars[i].low) && tr >= 0.0
    ensures i == 0 ==> tr == Abs(bars[i].high - bars[i].low)
    ensures i > 0 ==> tr >= Abs(bars[i].high - bars[i - 1].close) && tr >= Abs(bars[i].low - bars[i - 1].close)
    ensures i > 0 ==> tr == Abs(bars[i].high - bars[i].low) || tr == Abs(bars[i].high - bars[i - 1].close)
                      || tr == Abs(bars[i].low - bars[i - 1].close)
  {
    var hl := Abs(bars[i].high - bars[i].low);
    if i == 0 then hl
    else Max(hl, Max(Abs(bars[i].high - bars[i - 1].close), Abs(bars[i].low - bars[i - 1].close)))
  }

  function SumTrueRange(bars: seq<Candle>, from: nat, to: nat): (s: real)
    requires from <= to <= |bars|
    ensures s >= 0.0
  {
    if from == to then 0.0 else SumTrueRange(bars, from, to - 1) + TrueRange(bars, to - 1)
  }

  lemma DivNonNeg(a: real, b: real)
    requires a >= 0.0 && b > 0.0
    ensures a / b >= 0.0
  {
  }

  /** Mean true range over bars `from .. to - 1`. */
  function MeanTrueRange(bars: seq<Candle>, from: nat, to: nat): (m: real)
    requires from < to <= |bars|
    ensures m >= 0.0
  {
    var total := SumTrueRange(bars, from, to);
    DivNonNeg(total, (to - from) as real);
    total / (to - from) as real
  }

  /** `n` copies of `x` added up. */
  function Repeat(n: nat, x: real): real
  {
    if n == 0 then 0.0 else Repeat(n - 1, x) + x
  }

  lemma {:induction false} RepeatIsProduct(n: nat, x: real)
    ensures Repeat(n, x) == n as real * x
  {
    if n > 0 {
      RepeatIsProduct(n - 1, x);
      assert (n - 1) as real * x + x == n as real * x;
    }
  }

  /** A sum of true ranges that each lie in `[lo, hi]` lies between `n` times `lo` and `n` times `hi`. */
  lemma {:induction false} SumTrueRangeBounds(bars: seq<Candle>, from: nat, to: nat, lo: real, hi: real)
    requires from <= to <= |bars|
    requires forall k :: from <= k < to ==> lo <= TrueRange(bars, k) <= hi
    ensures Repeat(to - from, lo) <= SumTrueRange(bars, from, to) <= Repeat(to - from, hi)
  {
    if from < to {
      SumTrueRangeBounds(bars, from, to - 1, lo, hi);
      assert lo <= TrueRange(bars, to - 1) <= hi;
    }
  }

  /** A total between `count` copies of `lo` and of `hi`, divided by `count`, lies in `[lo, hi]`. */
  lemma DivBounds(total: real, count: nat, lo: real, hi: real)
    requires count > 0 && Repeat(count, lo) <= total <= Repeat(count, hi)
    ensures lo <= total / count as real <= hi
  {
    RepeatIsProduct(count, lo);
    RepeatIsProduct(count, hi);
    var n := count as real;
    var q := total / n;
    assert q * n == total;
    if q < lo {
      MulPos(lo - q, n);
    }
    if q > hi {
      MulPos(q - hi, n);
    }
  }

  /** Each defined ATR value lies within the range of the true ranges of its window. */
  lemma AtrWithinRange(bars: seq<Candle>, period: nat, i: nat, lo: real, hi: real)
    requires i < |bars| && 1 <= period <= i + 1
    requires forall k :: i + 1 - period <= k <= i ==> lo <= TrueRange(bars, k) <= hi
    ensures Atr(bars, period)[i].Some?
    ensures lo <= Atr(bars, period)[i].value <= hi
  {
    var from := i + 1 - period;
    assert Atr(bars, period)[i] == AtrAt(bars, period, i) == Some(MeanTrueRange(bars, from, i + 1));
    SumTrueRangeBounds(bars, from, i + 1, lo, hi);
    DivBounds(SumTrueRange(bars, from, i + 1), period, lo, hi);
  }

  /** `tr.rolling(window=period).mean()`: NaN until `period` true ranges exist. */
  function Atr(bars: seq<Candle>, period: nat): (r: seq<Option<real>>)
    ensures |r| == |bars|
    ensures forall i :: 0 <= i < |bars| ==> (r[i].Some? <==> 1 <= period <= i + 1)
    ensures forall i :: 0 <= i < |bars| && r[i].Some? ==> r[i].value >= 0.0
  {
    seq(|bars|, i requires 0 <= i < |bars| => AtrAt(bars, period, i))
  }

  function AtrAt(bars: seq<Candle>, period: nat, i: nat): (a: Option<real>)
    requires i < |bars|
    ensures a.Some? <==> 1 <= period <= i + 1
    ensures a.Some? ==> a.value >= 0.0
  {
    if 1 <= period <= i + 1 then Some(MeanTrueRange(bars, i + 1 - period, i + 1)) else None
  }

  // ---------------------------------------------------------------------
  // VWAP (the effective definition, indicators.py:43-63)
  // ---------------------------------------------------------------------

  /** `(high + low + close) / 3`. */
  function Typical(c: Candle): real { (c.high + c.low + c.close) / 3.0 }

  /** Sum of typical price times volume over a window. */
  function SumPV(w: seq<Candle>): real
  {
    if |w| == 0 then 0.0 else SumPV(w[..|w| - 1]) + Typical(w[|w| - 1]) * w[|w| - 1].volume
  }

  /** Sum of volume over a window. */
  function SumVol(w: seq<Candle>): real
  {
    if |w| == 0 then 0.0 else SumVol(w[..|w| - 1]) + w[|w| - 1].volume
  }

  ghost predicate NonNegVolumes(bars: seq<Candle>)
  {
    forall i :: 0 <= i < |bars| ==> bars[i].volume >= 0.0
  }

  lemma {:induction false} SumVolNonNeg(w: seq<Candle>)
    requires NonNegVolumes(w)
    ensures SumVol(w) >= 0.0
  {
    if |w| > 0 {
      SumVolNonNeg(w[..|w| - 1]);
    }
  }

  /** The VWAP of one window: `Σ tp·vol / (Σ vol + eps)`. */
  function WindowVwap(w: seq<Candle>, eps: real): (r: real)
    requires eps > 0.0 && NonNegVolumes(w)
    ensures SumVol(w) + eps > 0.0 && r * (SumVol(w) + eps) == SumPV(w)
  {
    SumVolNonNeg(w);
    SumPV(w) / (SumVol(w) + eps)
  }

  /** The branch without reset flags: cumulative sums from the first bar. */
  function VwapCumulative(bars: seq<Candle>, eps: real): (r: seq<real>)
    requires eps > 0.0 && NonNegVolumes(bars)
    ensures |r| == |bars|
    ensures forall i :: 0 <= i < |bars| ==> r[i] * (SumVol(bars[..i + 1]) + eps) == SumPV(bars[..i + 1])
  {
    seq(|bars|, i requires 0 <= i < |bars| => WindowVwap(bars[..i + 1], eps))
  }

  /**
   * The first bar of the session that bar `i` belongs to: the most recent
   * bar at or before `i` whose reset flag is set, or bar 0 when there is none.
   */
  function SessionStart(reset: seq<bool>, i: nat): (s: nat)
    requires i < |reset|
    ensures s <= i
    ensures s == 0 || reset[s]
    ensures forall k :: s < k <= i ==> !reset[k]
  {
    if reset[i] || i == 0 then i else SessionStart(reset, i - 1)
  }

  /** The three properties of `SessionStart` determine it. */
  lemma {:induction false} SessionStartUnique(reset: seq<bool>, i: nat, s: nat)
    requires i < |reset|
    requires s <= i && (s == 0 || reset[s])
    requires forall k :: s < k <= i ==> !reset[k]
    ensures SessionStart(reset, i) == s
  {
    if s < i {
      SessionStartUnique(reset, i - 1, s);
    }
  }

  /** Σ tp·vol over the session of bar `k`, through bar `k`. */
  function SessionPV(bars: seq<Candle>, reset: seq<bool>, k: nat): real
    requires |reset| == |bars| && k < |bars|
  {
    SumPV(bars[SessionStart(reset, k)..k + 1])
  }

  /** Σ vol over the session of bar `k`, through bar `k`. */
  function SessionVol(bars: seq<Candle>, reset: seq<bool>, k: nat): real
    requires |reset| == |bars| && k < |bars|
  {
    SumVol(bars[SessionStart(reset, k)..k + 1])
  }

  lemma SumsStep(bars: seq<Candle>, s: nat, i: nat)
    requires s <= i < |bars|
    ensures SumPV(bars[s..i + 1]) == SumPV(bars[s..i]) + Typical(bars[i]) * bars[i].volume
    ensures SumVol(bars[s..i + 1]) == SumVol(bars[s..i]) + bars[i].volume
  {
    assert bars[s..i + 1][..i - s] == bars[s..i];
  }

  /** Adding bar `i` to the running sums of its session so far gives the session sums at `i`. */
  lemma SessionSumsAt(bars: seq<Candle>, reset: seq<bool>, i: nat, start: nat, pv: real, v: real)
    requires |reset| == |bars| && i < |bars|
    requires start <= i && (i > 0 && !reset[i] ==> start == SessionStart(reset, i - 1))
    requires reset[i] || i == 0 ==> start == i
    requires pv == SumPV(bars[start..i]) && v == SumVol(bars[start..i])
    ensures start == SessionStart(reset, i)
    ensures pv + Typical(bars[i]) * bars[i].volume == SessionPV(bars, reset, i)
    ensures v + bars[i].volume == SessionVol(bars, reset, i)
  {
    SumsStep(bars, start, i);
  }

  /** The reset-aware branch: sums restart at each flagged bar. */
  function VwapSession(bars: seq<Candle>, reset: seq<bool>, eps: real): (r: seq<real>)
    requires |reset| == |bars| && eps > 0.0 && NonNegVolumes(bars)
    ensures |r| == |bars|
    ensures forall i :: 0 <= i < |bars| ==>
      r[i] * (SessionVol(bars, reset, i) + eps) == SessionPV(bars, reset, i)
  {
    seq(|bars|, i requires 0 <= i < |bars| => WindowVwap(bars[SessionStart(reset, i)..i + 1], eps))
  }

  /**
   * The loop of indicators.py:54-62: `pv` and `v` accumulate and are
   * cleared at each reset; the running sums are written into `cumPv` and
   * `cumV` one element at a time.
   */
  method VwapResetAware(bars: seq<Candle>, reset: seq<bool>, eps: real) returns (r: seq<real>)
    requires |reset| == |bars| && eps > 0.0 && NonNegVolumes(bars)
    ensures r == VwapSession(bars, reset, eps)
  {
    var n := |bars|;
    var cumPv := new real[n];
    var cumV := new real[n];
    var pv, v := 0.0, 0.0;
    ghost var start := 0;
    var i := 0;
    while i < n
      invariant 0 <= start <= i <= n
      invariant i > 0 ==> start == SessionStart(reset, i - 1)
      invariant pv == SumPV(bars[start..i]) && v == SumVol(bars[start..i])
      invariant forall k :: 0 <= k < i ==>
        cumPv[k] == SessionPV(bars, reset, k) && cumV[k] == SessionVol(bars, reset, k) + eps
    {
      if reset[i] {
        pv, v := 0.0, 0.0;
        start := i;
      }
      SessionSumsAt(bars, reset, i, start, pv, v);
      pv := pv + Typical(bars[i]) * bars[i].volume;
      v := v + bars[i].volume;
      cumPv[i] := pv;
      cumV[i] := v + eps;
      i := i + 1;
    }
    SessionRatios(bars, reset, eps, cumPv[..], cumV[..]);
    r := Ratios(cumPv[..], cumV[..]);
  }

  /** Element-wise `num / den`, as pandas divides two series. */
  function Ratios(num: seq<real>, den: seq<real>): (r: seq<real>)
    requires |num| == |den| && forall k :: 0 <= k < |den| ==> den[k] != 0.0
    ensures |r| == |num| && forall k :: 0 <= k < |r| ==> r[k] * den[k] == num[k]
  {
    seq(|num|, k requires 0 <= k < |num| => num[k] / den[k])
  }

  /** Dividing the running session sums gives the session VWAP. */
  lemma SessionRatios(bars: seq<Candle>, reset: seq<bool>, eps: real, pvs: seq<real>, vs: seq<real>)
    requires |reset| == |bars| && eps > 0.0 && NonNegVolumes(bars)
    requires |pvs| == |bars| && |vs| == |bars|
    requires forall k :: 0 <= k < |bars| ==> pvs[k] == SessionPV(bars, reset, k)
    requires forall k :: 0 <= k < |bars| ==> vs[k] == SessionVol(bars, reset, k) + eps
    ensures forall k :: 0 <= k < |vs| ==> vs[k] > 0.0
    ensures Ratios(pvs, vs) == VwapSession(bars, reset, eps)
  {
    forall k | 0 <= k < |bars|
      ensures vs[k] > 0.0
    {
      SumVolNonNeg(bars[SessionStart(reset, k)..k + 1]);
    }
    var r := Ratios(pvs, vs);
    forall k | 0 <= k < |bars|
      ensures r[k] == VwapSession(bars, reset, eps)[k]
    {
    }
  }

  /** `vwap(high, low, close, volume, reset_index)`: both branches. */
  method Vwap(bars: seq<Candle>, reset: Option<seq<bool>>, eps: real) returns (r: seq<real>)
    requires reset.Some? ==> |reset.value| == |bars|
    requires eps > 0.0 && NonNegVolumes(bars)
    ensures reset.None? ==> r == VwapCumulative(bars, eps)
    ensures reset.Some? ==> r == VwapSession(bars, reset.value, eps)
  {
    if reset.None? {
      r := VwapCumulative(bars, eps);
    } else {
      r := VwapResetAware(bars, reset.value, eps);
    }
  }

  /** With no reset flag set, the reset-aware branch equals the cumulative one. */
  lemma VwapWithoutResets(bars: seq<Candle>, reset: seq<bool>, eps: real)
    requires |reset| == |bars| && eps > 0.0 && NonNegVolumes(bars)
    requires forall k :: 0 <= k < |reset| ==> !reset[k]
    ensures VwapSession(bars, reset, eps) == VwapCumulative(bars, eps)
  {
    forall i | 0 <= i < |bars|
      ensures VwapSession(bars, reset, eps)[i] == VwapCumulative(bars, eps)[i]
    {
      assert SessionStart(reset, i) == 0;
      assert bars[0..i + 1] == bars[..i + 1];
    }
  }

  /** A bar whose reset flag is set is its own session's only bar so far. */
  lemma VwapAtReset(bars: seq<Candle>, reset: seq<bool>, eps: real, i: nat)
    requires |reset| == |bars| && eps > 0.0 && NonNegVolumes(bars)
    requires i < |bars| && reset[i]
    ensures VwapSession(bars, reset, eps)[i] ==
      Typical(bars[i]) * bars[i].volume / (bars[i].volume + eps)
  {
    SessionStartUnique(reset, i, i);
    var w := bars[i..i + 1];
    assert w[..0] == [] && w[0] == bars[i];
    assert SumPV(w) == Typical(bars[i]) * bars[i].volume;
    assert SumVol(w) == bars[i].volume;
  }

  /**
   * The session VWAP at bar `i` depends only on the bars and reset flags
   * from the session start through `i`.
   */
  lemma VwapSessionLocal(bars: seq<Candle>, reset: seq<bool>, bars': seq<Candle>, reset': seq<bool>,
                         eps: real, i: nat)
    requires |reset| == |bars| && eps > 0.0 && NonNegVolumes(bars)
    requires |reset'| == |bars'| && NonNegVolumes(bars')
    requires i < |bars| && i < |bars'|
    requires reset'[SessionStart(reset, i)..i + 1] == reset[SessionStart(reset, i)..i + 1]
    requires bars'[SessionStart(reset, i)..i + 1] == bars[SessionStart(reset, i)..i + 1]
    ensures VwapSession(bars', reset', eps)[i] == VwapSession(bars, reset, eps)[i]
  {
    SessionStartLocal(reset, reset', i);
    VwapSessionAt(bars, reset, eps, i);
    VwapSessionAt(bars', reset', eps, i);
  }

  /** One entry of the session VWAP. */
  lemma VwapSessionAt(bars: seq<Candle>, reset: seq<bool>, eps: real, i: nat)
    requires |reset| == |bars| && eps > 0.0 && NonNegVolumes(bars)
    requires i < |bars|
    ensures VwapSession(bars, reset, eps)[i] == WindowVwap(bars[SessionStart(reset, i)..i + 1], eps)
  {
  }

  /** The session start of bar `i` depends only on the flags from that start through `i`. */
  lemma SessionStartLocal(reset: seq<bool>, reset': seq<bool>, i: nat)
    requires i < |reset| && i < |reset'|
    requires reset'[SessionStart(reset, i)..i + 1] == reset[SessionStart(reset, i)..i + 1]
    ensures SessionStart(reset', i) == SessionStart(reset, i)
  {
    var s := SessionStart(reset, i);
    forall k | s <= k <= i
      ensures reset'[k] == reset[k]
    {
      assert reset'[k] == reset'[s..i + 1][k - s];
    }
    SessionStartUnique(reset', i, s);
  }

  lemma MulNonNeg(a: real, b: real)
    requires a >= 0.0 && b >= 0.0
    ensures a * b >= 0.0
  {
  }

  lemma MulPos(a: real, b: real)
    requires a > 0.0 && b > 0.0
    ensures a * b > 0.0
  {
  }

  lemma {:induction false} SumPVBounds(w: seq<Candle>, hi: real)
    requires NonNegVolumes(w)
    requires forall k :: 0 <= k < |w| ==> 0.0 <= Typical(w[k]) <= hi
    ensures 0.0 <= SumPV(w) <= hi * SumVol(w)
  {
    if |w| > 0 {
      var c := w[|w| - 1];
      SumPVBounds(w[..|w| - 1], hi);
      assert 0.0 <= Typical(c) * c.volume <= hi * c.volume;
    }
  }

  /**
   * With non-negative typical prices bounded by `hi`, every session VWAP
   * lies in `[0, hi]`.
   */
  lemma VwapSessionBounded(bars: seq<Candle>, reset: seq<bool>, eps: real, hi: real, i: nat)
    requires |reset| == |bars| && eps > 0.0 && NonNegVolumes(bars)
    requires forall k :: 0 <= k < |bars| ==> 0.0 <= Typical(bars[k]) <= hi
    requires i < |bars|
    ensures 0.0 <= VwapSession(bars, reset, eps)[i] <= hi
  {
    var w := bars[SessionStart(reset, i)..i + 1];
    VwapSessionAt(bars, reset, eps, i);
    SumPVBounds(w, hi);
    SumVolNonNeg(w);
    assert 0.0 <= Typical(bars[i]) <= hi;
    RatioBounded(SumPV(w), SumVol(w), eps, hi);
  }

  /** `pv / (vol + eps)` stays in `[0, hi]` when `0 <= pv <= hi * vol`. */
  lemma RatioBounded(pv: real, vol: real, eps: real, hi: real)
    requires vol >= 0.0 && eps > 0.0 && hi >= 0.0
    requires 0.0 <= pv <= hi * vol
    ensures 0.0 <= pv / (vol + eps) <= hi
  {
    var d := vol + eps;
    var q := pv / d;
    assert q * d == pv;
    MulNonNeg(hi, eps);
    assert hi * vol <= hi * d;
    assert q <= hi by {
      if q > hi {
        MulPos(q - hi, d);
      }
    }
  }

  // ---------------------------------------------------------------------
  // VWAP deviation bands (indicators.py:77-85), sigma given
  // ---------------------------------------------------------------------

  datatype Bands = Bands(plus1: real, minus1: real, plus2: real, minus2: real)

  /** Bands at one bar: `vwap ± sigma` and `vwap ± 2·sigma`. */
  function DeviationBands(vwap: real, sigma: real): (b: Bands)
    ensures b.plus1 - vwap == sigma && vwap - b.minus1 == sigma
    ensures b.plus1 + b.minus1 == 2.0 * vwap && b.plus2 + b.minus2 == 2.0 * vwap
    ensures b.plus2 - b.plus1 == b.plus1 - vwap
    ensures (b.minus2 <= b.minus1 <= vwap <= b.plus1 <= b.plus2) <==> sigma >= 0.0
  {
    Bands(vwap + sigma, vwap - sigma, vwap + 2.0 * sigma, vwap - 2.0 * sigma)
  }

  // ---------------------------------------------------------------------
  // Liquidity sweeps (indicators.py:30-40 and 65-74)
  // ---------------------------------------------------------------------

  /** Default lookback of `liquidity_sweep`. */
  const LiquiditySweepLookback: nat := 3
  /** Default lookback of `detect_sweep`. */
  const DetectSweepLookback: nat := 20

  function SeqMax(s: seq<real>): (m: real)
    requires |s| > 0
    ensures forall k :: 0 <= k < |s| ==> s[k] <= m
    ensures exists k :: 0 <= k < |s| && s[k] == m
  {
    if |s| == 1 then s[0] else Max(SeqMax(s[..|s| - 1]), s[|s| - 1])
  }

  function SeqMin(s: seq<real>): (m: real)
    requires |s| > 0
    ensures forall k :: 0 <= k < |s| ==> m <= s[k]
    ensures exists k :: 0 <= k < |s| && s[k] == m
  {
    if |s| == 1 then s[0] else Min(SeqMin(s[..|s| - 1]), s[|s| - 1])
  }

  function Highs(bars: seq<Candle>): (r: seq<real>)
    ensures |r| == |bars| && forall i :: 0 <= i < |bars| ==> r[i] == bars[i].high
  {
    seq(|bars|, i requires 0 <= i < |bars| => bars[i].high)
  }

  function Lows(bars: seq<Candle>): (r: seq<real>)
    ensures |r| == |bars| && forall i :: 0 <= i < |bars| ==> r[i] == bars[i].low
  {
    seq(|bars|, i requires 0 <= i < |bars| => bars[i].low)
  }

  /** `high.shift(1).rolling(lookback).max()` at bar `i`; NaN until the window is full. */
  function PriorHigh(bars: seq<Candle>, lookback: nat, i: nat): Option<real>
    requires i < |bars|
  {
    if 1 <= lookback <= i then Some(SeqMax(Highs(bars[i - lookback..i]))) else None
  }

  /** `low.shift(1).rolling(lookback).min()` at bar `i`. */
  function PriorLow(bars: seq<Candle>, lookback: nat, i: nat): Option<real>
    requires i < |bars|
  {
    if 1 <= lookback <= i then Some(SeqMin(Lows(bars[i - lookback..i]))) else None
  }

  /** `(high > prior_high) & (close < prior_high)`, NaN read as false. */
  function HighSweepAt(bars: seq<Candle>, lookback: nat, i: nat): bool
    requires i < |bars|
  {
    var m := PriorHigh(bars, lookback, i);
    m.Some? && bars[i].high > m.value && bars[i].close < m.value
  }

  /** `(low < prior_low) & (close > prior_low)`, NaN read as false. */
  function LowSweepAt(bars: seq<Candle>, lookback: nat, i: nat): bool
    requires i < |bars|
  {
    var m := PriorLow(bars, lookback, i);
    m.Some? && bars[i].low < m.value && bars[i].close > m.value
  }

  /** `liquidity_sweep` / `detect_sweep`: the high-sweep and low-sweep series. */
  function Sweeps(bars: seq<Candle>, lookback: nat): (r: (seq<bool>, seq<bool>))
    ensures |r.0| == |bars| && |r.1| == |bars|
    ensures forall i :: 0 <= i < |bars| && i < lookback ==> !r.0[i] && !r.1[i]
    ensures forall i :: 0 <= i < |bars| ==> r.0[i] ==> bars[i].close < bars[i].high
    ensures forall i :: 0 <= i < |bars| ==> r.1[i] ==> bars[i].close > bars[i].low
  {
    (seq(|bars|, i requires 0 <= i < |bars| => HighSweepAt(bars, lookback, i)),
     seq(|bars|, i requires 0 <= i < |bars| => LowSweepAt(bars, lookback, i)))
  }

  /** What comparing a value with the maximum of a window says about the window. */
  lemma SeqMaxCompare(w: seq<real>, x: real, c: real)
    requires |w| > 0
    ensures SeqMax(w) < x <==> forall t :: 0 <= t < |w| ==> w[t] < x
    ensures c < SeqMax(w) <==> exists t :: 0 <= t < |w| && c < w[t]
  {
    var j :| 0 <= j < |w| && w[j] == SeqMax(w);
  }

  /** What comparing a value with the minimum of a window says about the window. */
  lemma SeqMinCompare(w: seq<real>, x: real, c: real)
    requires |w| > 0
    ensures x < SeqMin(w) <==> forall t :: 0 <= t < |w| ==> x < w[t]
    ensures SeqMin(w) < c <==> exists t :: 0 <= t < |w| && w[t] < c
  {
    var j :| 0 <= j < |w| && w[j] == SeqMin(w);
  }

  /** The maximum high of bars `lo .. hi`, compared with two values. */
  lemma WindowHighs(bars: seq<Candle>, lo: nat, hi: nat, x: real, c: real)
    requires lo < hi <= |bars|
    ensures SeqMax(Highs(bars[lo..hi])) < x <==> forall k :: lo <= k < hi ==> bars[k].high < x
    ensures c < SeqMax(Highs(bars[lo..hi])) <==> exists k :: lo <= k < hi && c < bars[k].high
  {
    var w := Highs(bars[lo..hi]);
    SeqMaxCompare(w, x, c);
    assert forall t :: 0 <= t < |w| ==> w[t] == bars[t + lo].high;
    if forall t :: 0 <= t < |w| ==> w[t] < x {
      forall k | lo <= k < hi ensures bars[k].high < x {
        assert w[k - lo] < x;
      }
    }
    if exists k :: lo <= k < hi && c < bars[k].high {
      var k :| lo <= k < hi && c < bars[k].high;
      assert c < w[k - lo];
    }
  }

  /** The minimum low of bars `lo .. hi`, compared with two values. */
  lemma WindowLows(bars: seq<Candle>, lo: nat, hi: nat, x: real, c: real)
    requires lo < hi <= |bars|
    ensures x < SeqMin(Lows(bars[lo..hi])) <==> forall k :: lo <= k < hi ==> x < bars[k].low
    ensures SeqMin(Lows(bars[lo..hi])) < c <==> exists k :: lo <= k < hi && bars[k].low < c
  {
    var w := Lows(bars[lo..hi]);
    SeqMinCompare(w, x, c);
    assert forall t :: 0 <= t < |w| ==> w[t] == bars[t + lo].low;
    if forall t :: 0 <= t < |w| ==> x < w[t] {
      forall k | lo <= k < hi ensures x < bars[k].low {
        assert x < w[k - lo];
      }
    }
    if exists k :: lo <= k < hi && bars[k].low < c {
      var k :| lo <= k < hi && bars[k].low < c;
      assert w[k - lo] < c;
    }
  }

  /**
   * A high sweep at `i`: the window of the `lookback` previous bars is full,
   * every high in it is below the current high, and some high in it is
   * above the current close.
   */
  lemma HighSweepIff(bars: seq<Candle>, lookback: nat, i: nat)
    requires i < |bars|
    ensures HighSweepAt(bars, lookback, i) <==>
      1 <= lookback <= i &&
      (forall k :: i - lookback <= k < i ==> bars[k].high < bars[i].high) &&
      (exists k :: i - lookback <= k < i && bars[i].close < bars[k].high)
  {
    if 1 <= lookback <= i {
      WindowHighs(bars, i - lookback, i, bars[i].high, bars[i].close);
    }
  }

  /** The mirror image of `HighSweepIff` for lows. */
  lemma LowSweepIff(bars: seq<Candle>, lookback: nat, i: nat)
    requires i < |bars|
    ensures LowSweepAt(bars, lookback, i) <==>
      1 <= lookback <= i &&
      (forall k :: i - lookback <= k < i ==> bars[k].low > bars[i].low) &&
      (exists k :: i - lookback <= k < i && bars[i].close > bars[k].low)
  {
    if 1 <= lookback <= i {
      WindowLows(bars, i - lookback, i, bars[i].low, bars[i].close);
    }
  }

  /**
   * The sweep flags at `i` depend only on bars `i - lookback .. i`: the
   * current bar is not part of its own prior window.
   */
  lemma SweepsLocal(bars: seq<Candle>, bars': seq<Candle>, lookback: nat, i: nat)
    requires i < |bars| && i < |bars'| && lookback <= i
    requires bars'[i - lookback..i + 1] == bars[i - lookback..i + 1]
    ensures HighSweepAt(bars', lookback, i) == HighSweepAt(bars, lookback, i)
    ensures LowSweepAt(bars', lookback, i) == LowSweepAt(bars, lookback, i)
  {
    assert bars'[i - lookback..i] == bars[i - lookback..i + 1][..lookback];
    assert bars[i - lookback..i] == bars[i - lookback..i + 1][..lookback];
    assert bars'[i] == bars[i - lookback..i + 1][lookback];
  }

  /** An outside bar can sweep both sides at once: the flags are not exclusive. */
  lemma BothSweepsCanFire()
    ensures var bars := [Candle(0, 10.0, 11.0, 9.0, 10.0, 1.0), Candle(60000, 10.0, 12.0, 8.0, 10.0, 1.0)];
      HighSweepAt(bars, 1, 1) && LowSweepAt(bars, 1, 1)
  {
    var bars := [Candle(0, 10.0, 11.0, 9.0, 10.0, 1.0), Candle(60000, 10.0, 12.0, 8.0, 10.0, 1.0)];
    assert Highs(bars[0..1]) == [11.0];
    assert Lows(bars[0..1]) == [9.0];
  }
}
