/**
 * The indicator calculator: the columns that `calculate_technical_indicators`
 * adds to a daily price history (simple and exponential moving averages,
 * RSI, MACD and its signal line, the volume average).
 *
 * A pandas NaN is `None`.  Each column is given twice: as a specification
 * function over the whole series (the value at every row), and as a method
 * that fills the column in one pass the way the rolling and exponential
 * kernels do, proved equal to the specification.
 */
module Indicators {
  import opened Wrappers

  /** A quote.  The model takes every quote the provider returns to be positive. */
  type Price = r: real | r > 0.0 witness 1.0

  /** One daily bar, reduced to the two columns the core reads. */
  datatype Bar = Bar(close: Price, volume: real)

  /** Histories shorter than this get no indicators at all. */
  const MinRows: nat := 50

  /** Window of the RSI's rolling means of gains and losses. */
  const RsiWindow: nat := 14

  function Closes(bars: seq<Bar>): seq<Price>
  {
    seq(|bars|, i requires 0 <= i < |bars| => bars[i].close)
  }

  function Volumes(bars: seq<Bar>): seq<real>
  {
    seq(|bars|, i requires 0 <= i < |bars| => bars[i].volume)
  }

  function Sum(xs: seq<real>): real
  {
    if xs == [] then 0.0 else Sum(xs[..|xs| - 1]) + xs[|xs| - 1]
  }

  function Mean(xs: seq<real>): real
    requires xs != []
  {
    Sum(xs) / |xs| as real
  }

  // ---------------------------------------------------------------------
  // Specification of the columns
  // ---------------------------------------------------------------------

  /**
   * Row `i` of `rolling(window=n).mean()`: the mean of the `n` values ending
   * at row `i`, undefined (NaN) for the first `n - 1` rows.
   */
  function RollingMeanAt(xs: seq<real>, n: nat, i: nat): Option<real>
    requires 0 < n && i < |xs|
  {
    if i + 1 < n then None else Some(Mean(xs[i + 1 - n..i + 1]))
  }

  function RollingMean(xs: seq<real>, n: nat): seq<Option<real>>
    requires 0 < n
  {
    seq(|xs|, i requires 0 <= i < |xs| => RollingMeanAt(xs, n, i))
  }

  /** Smoothing factor of `ewm(span=span)`. */
  function Alpha(span: nat): real
  {
    2.0 / (span as real + 1.0)
  }

  /**
   * Row `i` of `ewm(span, adjust=False).mean()`: seeded with the first value,
   * then `y[i] = alpha * x[i] + (1 - alpha) * y[i - 1]`.
   */
  function EwmAt(xs: seq<real>, alpha: real, i: nat): real
    requires i < |xs|
  {
    if i == 0 then xs[0] else alpha * xs[i] + (1.0 - alpha) * EwmAt(xs, alpha, i - 1)
  }

  function Ewm(xs: seq<real>, span: nat): seq<real>
  {
    seq(|xs|, i requires 0 <= i < |xs| => EwmAt(xs, Alpha(span), i))
  }

  /**
   * `delta.where(delta > 0, 0)` at row `i`.  The first delta is NaN, which
   * fails the test and so becomes 0 as well.
   */
  function Gain(closes: seq<real>, i: nat): real
    requires i < |closes|
  {
    if 0 < i && closes[i] - closes[i - 1] > 0.0 then closes[i] - closes[i - 1] else 0.0
  }

  /** `-delta.where(delta < 0, 0)` at row `i`. */
  function Loss(closes: seq<real>, i: nat): real
    requires i < |closes|
  {
    if 0 < i && closes[i] - closes[i - 1] < 0.0 then closes[i - 1] - closes[i] else 0.0
  }

  function Gains(closes: seq<real>): seq<real>
  {
    seq(|closes|, i requires 0 <= i < |closes| => Gain(closes, i))
  }

  function Losses(closes: seq<real>): seq<real>
  {
    seq(|closes|, i requires 0 <= i < |closes| => Loss(closes, i))
  }

  /**
   * `100 - 100 / (1 + gain / loss)` in floating point: a zero average loss
   * makes RS infinite and the RSI 100, unless the average gain is zero too,
   * which makes RS (and the RSI) NaN.  Both averages are never negative.
   */
  function RsiFrom(avgGain: Option<real>, avgLoss: Option<real>): (r: Option<real>)
    requires avgGain.Some? ==> avgGain.value >= 0.0
    requires avgLoss.Some? ==> avgLoss.value >= 0.0
    ensures r.Some? <==> avgGain.Some? && avgLoss.Some? && (avgGain.value != 0.0 || avgLoss.value != 0.0)
    ensures r.Some? ==> 0.0 <= r.value <= 100.0
    ensures avgLoss == Some(0.0) && avgGain.Some? && avgGain.value > 0.0 ==> r == Some(100.0)
  {
    match (avgGain, avgLoss)
    case (Some(g), Some(l)) =>
      if l == 0.0 then
        (if g == 0.0 then None else Some(100.0))
      else
        var rs := g / l;
        RatioBounds(g, l);
        Some(100.0 - 100.0 / (1.0 + rs))
    case _ => None
  }

  /** Row `i` of the RSI column: simple 14-row rolling means of gains and losses. */
  function RsiAt(closes: seq<real>, i: nat): Option<real>
    requires i < |closes|
  {
    AveragesNonNegative(closes, i);
    RsiFrom(RollingMeanAt(Gains(closes), RsiWindow, i), RollingMeanAt(Losses(closes), RsiWindow, i))
  }

  function RsiColumn(closes: seq<real>): seq<Option<real>>
  {
    seq(|closes|, i requires 0 <= i < |closes| => RsiAt(closes, i))
  }

  function Difference(xs: seq<real>, ys: seq<real>): seq<real>
    requires |xs| == |ys|
  {
    seq(|xs|, i requires 0 <= i < |xs| => xs[i] - ys[i])
  }

  /** The data frame once the indicator columns have been added. */
  datatype Frame = Frame(
    closes: seq<Price>, volumes: seq<real>,
    sma20: seq<Option<real>>, sma50: seq<Option<real>>, sma200: seq<Option<real>>,
    ema12: seq<real>, ema26: seq<real>, rsi: seq<Option<real>>,
    macd: seq<real>, signal: seq<real>, volumeSma: seq<Option<real>>)
  {
    /** Every column has one entry per row. */
    predicate Aligned()
    {
      var n := |closes|;
      |volumes| == n && |sma20| == n && |sma50| == n && |sma200| == n &&
      |ema12| == n && |ema26| == n && |rsi| == n && |macd| == n && |signal| == n &&
      |volumeSma| == n
    }
  }

  /** The frame `calculate_technical_indicators` returns for a long enough history. */
  function IndicatorFrame(bars: seq<Bar>): (f: Frame)
    ensures f.Aligned() && |f.closes| == |bars|
  {
    var c := Closes(bars);
    var v := Volumes(bars);
    var e12 := Ewm(c, 12);
    var e26 := Ewm(c, 26);
    var macd := Difference(e12, e26);
    Frame(c, v, RollingMean(c, 20), RollingMean(c, 50), RollingMean(c, 200),
          e12, e26, RsiColumn(c), macd, Ewm(macd, 9), RollingMean(v, 20))
  }

  // ---------------------------------------------------------------------
  // Computing the columns
  // ---------------------------------------------------------------------

  /** First row of the values a running window sum holds after `i` rows. */
  function WindowStart(i: nat, n: nat): nat
  {
    if i < n then 0 else i - n
  }

  /** `rolling(window=n).mean()`, keeping a running window sum. */
  method ComputeRollingMean(xs: seq<real>, n: nat) returns (r: seq<Option<real>>)
    requires 0 < n
    ensures r == RollingMean(xs, n)
  {
    r := [];
    var sum := 0.0;
    for i := 0 to |xs|
      invariant |r| == i
      invariant forall k :: 0 <= k < i ==> r[k] == RollingMeanAt(xs, n, k)
      invariant sum == Sum(xs[WindowStart(i, n)..i])
    {
      WindowStep(xs, n, i);
      sum := sum + xs[i] - (if i >= n then xs[i - n] else 0.0);
      var mean := if i + 1 < n then None else Some(sum / n as real);
      assert mean == RollingMeanAt(xs, n, i);
      r := r + [mean];
    }
  }

  /** `ewm(span=span, adjust=False).mean()`. */
  method ComputeEwm(xs: seq<real>, span: nat) returns (r: seq<real>)
    ensures r == Ewm(xs, span)
  {
    var alpha := Alpha(span);
    r := [];
    for i := 0 to |xs|
      invariant |r| == i
      invariant forall k :: 0 <= k < i ==> r[k] == EwmAt(xs, alpha, k)
    {
      var y := if i == 0 then xs[0] else alpha * xs[i] + (1.0 - alpha) * r[i - 1];
      r := r + [y];
    }
  }

  method ComputeRsi(closes: seq<real>) returns (r: seq<Option<real>>)
    ensures r == RsiColumn(closes)
  {
    var avgGain := ComputeRollingMean(Gains(closes), RsiWindow);
    var avgLoss := ComputeRollingMean(Losses(closes), RsiWindow);
    r := [];
    for i := 0 to |closes|
      invariant |r| == i
      invariant forall k :: 0 <= k < i ==> r[k] == RsiAt(closes, k)
    {
      AveragesNonNegative(closes, i);
      r := r + [RsiFrom(avgGain[i], avgLoss[i])];
    }
  }

  /**
   * `calculate_technical_indicators`: no frame for a missing history or one of
   * fewer than 50 rows, otherwise the history with every indicator column.
   */
  method CalculateTechnicalIndicators(hist: Option<seq<Bar>>) returns (df: Option<Frame>)
    ensures df.None? <==> hist.None? || |hist.value| < MinRows
    ensures df.Some? ==> df.value == IndicatorFrame(hist.value)
  {
    if hist.None? || |hist.value| < MinRows {
      return None;
    }
    var bars := hist.value;
    var close := Closes(bars);
    var volume := Volumes(bars);
    var sma20 := ComputeRollingMean(close, 20);
    var sma50 := ComputeRollingMean(close, 50);
    var sma200 := ComputeRollingMean(close, 200);
    var ema12 := ComputeEwm(close, 12);
    var ema26 := ComputeEwm(close, 26);
    var rsi := ComputeRsi(close);
    var macd := Difference(ema12, ema26);
    var signal := ComputeEwm(macd, 9);
    var volumeSma := ComputeRollingMean(volume, 20);
    df := Some(Frame(close, volume, sma20, sma50, sma200, ema12, ema26, rsi, macd, signal, volumeSma));
  }

  // ---------------------------------------------------------------------
  // Lemmas
  // ---------------------------------------------------------------------

  lemma RatioBounds(g: real, l: real)
    requires g >= 0.0 && l > 0.0
    ensures 1.0 + g / l >= 1.0
    ensures 0.0 <= 100.0 - 100.0 / (1.0 + g / l) <= 100.0
  {
    var d := 1.0 + g / l;
    assert 100.0 / d <= 100.0 by {
      assert 100.0 / d * d == 100.0;
    }
  }

  /** The rolling means of gains and losses are never negative. */
  lemma AveragesNonNegative(closes: seq<real>, i: nat)
    requires i < |closes|
    ensures RollingMeanAt(Gains(closes), RsiWindow, i).Some? ==> RollingMeanAt(Gains(closes), RsiWindow, i).value >= 0.0
    ensures RollingMeanAt(Losses(closes), RsiWindow, i).Some? ==> RollingMeanAt(Losses(closes), RsiWindow, i).value >= 0.0
  {
    if i + 1 >= RsiWindow {
      var lo := i + 1 - RsiWindow;
      SumNonNegative(Gains(closes)[lo..i + 1]);
      SumNonNegative(Losses(closes)[lo..i + 1]);
    }
  }

  /** One step of the running window sum, and the mean it yields. */
  lemma WindowStep(xs: seq<real>, n: nat, i: nat)
    requires 0 < n && i < |xs|
    ensures Sum(xs[WindowStart(i + 1, n)..i + 1])
            == Sum(xs[WindowStart(i, n)..i]) + xs[i] - (if i >= n then xs[i - n] else 0.0)
    ensures i + 1 >= n ==> WindowStart(i + 1, n) == i + 1 - n
  {
    SumExtend(xs, WindowStart(i, n), i);
    if i >= n {
      SumFirst(xs[i - n..i + 1]);
      assert xs[i - n..i + 1][1..] == xs[i + 1 - n..i + 1];
    }
  }

  lemma SumExtend(xs: seq<real>, a: nat, b: nat)
    requires a <= b < |xs|
    ensures Sum(xs[a..b + 1]) == Sum(xs[a..b]) + xs[b]
  {
    assert xs[a..b + 1][..b - a] == xs[a..b];
  }

  lemma {:induction false} SumFirst(s: seq<real>)
    requires s != []
    ensures Sum(s) == s[0] + Sum(s[1..])
  {
    if |s| > 1 {
      SumFirst(s[..|s| - 1]);
      assert s[..|s| - 1][1..] == s[1..][..|s| - 2];
    }
  }

  lemma {:induction false} SumNonNegative(xs: seq<real>)
    requires forall k :: 0 <= k < |xs| ==> xs[k] >= 0.0
    ensures Sum(xs) >= 0.0
    ensures Sum(xs) == 0.0 <==> forall k :: 0 <= k < |xs| ==> xs[k] == 0.0
  {
    if xs != [] {
      SumNonNegative(xs[..|xs| - 1]);
    }
  }

  lemma {:induction false} SumConstant(xs: seq<real>, c: real)
    requires forall k :: 0 <= k < |xs| ==> xs[k] == c
    ensures Sum(xs) == |xs| as real * c
  {
    if xs != [] {
      SumConstant(xs[..|xs| - 1], c);
    }
  }

  /** A rolling mean over a series that is constant on its window is that constant. */
  lemma RollingMeanOfConstant(xs: seq<real>, n: nat, i: nat, c: real)
    requires 0 < n <= i + 1 <= |xs|
    requires forall k :: i + 1 - n <= k <= i ==> xs[k] == c
    ensures RollingMeanAt(xs, n, i) == Some(c)
  {
    var w := xs[i + 1 - n..i + 1];
    SumConstant(w, c);
    assert Sum(w) / n as real == c;
  }

  /**
   * The exponential average is a convex combination of the values so far:
   * it stays within any bounds that hold for them.
   */
  lemma {:induction false} EwmBounded(xs: seq<real>, alpha: real, i: nat, lo: real, hi: real)
    requires i < |xs| && 0.0 <= alpha <= 1.0
    requires forall k :: 0 <= k <= i ==> lo <= xs[k] <= hi
    ensures lo <= EwmAt(xs, alpha, i) <= hi
  {
    if i > 0 {
      EwmBounded(xs, alpha, i - 1, lo, hi);
      ConvexCombination(alpha, xs[i], EwmAt(xs, alpha, i - 1), lo, hi);
    }
  }

  lemma ConvexCombination(a: real, x: real, y: real, lo: real, hi: real)
    requires 0.0 <= a <= 1.0 && lo <= x <= hi && lo <= y <= hi
    ensures lo <= a * x + (1.0 - a) * y <= hi
  {
    assert a * x + (1.0 - a) * y - lo == a * (x - lo) + (1.0 - a) * (y - lo);
    assert hi - (a * x + (1.0 - a) * y) == a * (hi - x) + (1.0 - a) * (hi - y);
    ProductNonNegative(a, x - lo);
    ProductNonNegative(1.0 - a, y - lo);
    ProductNonNegative(a, hi - x);
    ProductNonNegative(1.0 - a, hi - y);
  }

  lemma ProductNonNegative(a: real, b: real)
    requires a >= 0.0 && b >= 0.0
    ensures a * b >= 0.0
  {
  }

  lemma AlphaInUnitInterval(span: nat)
    requires span >= 1
    ensures 0.0 < Alpha(span) <= 1.0
  {
  }

  /**
   * Whenever the RSI is defined it lies in [0, 100]: the rolling means of
   * gains and of losses are never negative.
   */
  lemma RsiBounded(closes: seq<real>, i: nat)
    requires i < |closes| && RsiColumn(closes)[i].Some?
    ensures 0.0 <= RsiColumn(closes)[i].value <= 100.0
  {
    AveragesNonNegative(closes, i);
  }

  /** No close moves between consecutive rows of the RSI window ending at row `i`. */
  ghost predicate FlatWindow(closes: seq<real>, i: nat)
    requires RsiWindow <= i + 1 <= |closes|
  {
    forall j :: i + 1 - RsiWindow <= j <= i && 0 < j ==> closes[j] == closes[j - 1]
  }

  /**
   * The RSI is undefined exactly for the first 13 rows and for rows whose
   * 14-row window holds neither a gain nor a loss.
   */
  lemma RsiUndefinedIff(closes: seq<real>, i: nat)
    requires i < |closes|
    ensures RsiColumn(closes)[i].None? <==> i + 1 < RsiWindow || FlatWindow(closes, i)
  {
    if i + 1 >= RsiWindow {
      var lo := i + 1 - RsiWindow;
      var gs := Gains(closes)[lo..i + 1];
      var ls := Losses(closes)[lo..i + 1];
      SumNonNegative(gs);
      SumNonNegative(ls);
      assert Mean(gs) == 0.0 <==> Sum(gs) == 0.0;
      assert Mean(ls) == 0.0 <==> Sum(ls) == 0.0;
      FlatWindowIff(closes, i);
    }
  }

  /** A window is flat exactly when every gain and every loss in it is zero. */
  lemma FlatWindowIff(closes: seq<real>, i: nat)
    requires RsiWindow <= i + 1 <= |closes|
    ensures var lo := i + 1 - RsiWindow;
      var gs, ls := Gains(closes)[lo..i + 1], Losses(closes)[lo..i + 1];
      FlatWindow(closes, i) <==>
        (forall k :: 0 <= k < |gs| ==> gs[k] == 0.0) && (forall k :: 0 <= k < |ls| ==> ls[k] == 0.0)
  {
    var lo := i + 1 - RsiWindow;
    var gs, ls := Gains(closes)[lo..i + 1], Losses(closes)[lo..i + 1];
    if FlatWindow(closes, i) {
      forall k | 0 <= k < |gs|
        ensures gs[k] == 0.0 && ls[k] == 0.0
      {
        StillAt(closes, lo + k);
      }
    } else {
      var j :| lo <= j <= i && 0 < j && closes[j] != closes[j - 1];
      StillAt(closes, j);
      assert gs[j - lo] == Gain(closes, j);
      assert ls[j - lo] == Loss(closes, j);
    }
  }

  /** Row `j` shows neither a gain nor a loss exactly when it is the first row or the close did not move. */
  lemma StillAt(closes: seq<real>, j: nat)
    requires j < |closes|
    ensures Gain(closes, j) == 0.0 && Loss(closes, j) == 0.0 <==> j == 0 || closes[j] == closes[j - 1]
  {
  }

  /** Where the indicators are defined on the last row of a computed frame. */
  lemma LastRowDefinedness(bars: seq<Bar>)
    requires |bars| >= MinRows
    ensures var f := IndicatorFrame(bars); var last := |bars| - 1;
      f.sma20[last].Some? && f.sma50[last].Some? && f.volumeSma[last].Some? &&
      (f.sma200[last].Some? <==> |bars| >= 200)
  {
  }

  /**
   * A flat history of 50 to 199 rows leaves, on its last row: SMA 50 equal to
   * the close, SMA 200 and RSI undefined, MACD and its signal at 0, and the
   * volume average equal to the volume.
   */
  lemma FlatHistoryLastRow(bars: seq<Bar>, c: Price, v: real)
    requires MinRows <= |bars| < 200
    requires forall k :: 0 <= k < |bars| ==> bars[k] == Bar(c, v)
    ensures var f := IndicatorFrame(bars); var last := |bars| - 1;
      f.sma50[last] == Some(c as real) && f.sma200[last].None? && f.rsi[last].None? &&
      f.macd[last] == 0.0 && f.signal[last] == 0.0 && f.volumeSma[last] == Some(v)
  {
    var f := IndicatorFrame(bars);
    var last := |bars| - 1;
    var cs: seq<real> := Closes(bars);
    RollingMeanOfConstant(cs, 50, last, c as real);
    RollingMeanOfConstant(Volumes(bars), 20, last, v);
    RsiUndefinedIff(cs, last);
    AlphaInUnitInterval(12);
    AlphaInUnitInterval(26);
    AlphaInUnitInterval(9);
    forall k | 0 <= k < |bars| ensures f.macd[k] == 0.0 {
      EwmBounded(cs, Alpha(12), k, c as real, c as real);
      EwmBounded(cs, Alpha(26), k, c as real, c as real);
    }
    EwmBounded(f.macd, Alpha(9), last, 0.0, 0.0);
  }
}
