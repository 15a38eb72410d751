/**
 * `predict_price`: one heuristic projection of the last close per horizon.
 */
module Projection {
  import opened Wrappers
  import opened Indicators

  datatype Horizon = Short | Mid | Long

  /**
   * What `predict_price` gives back: nothing for a short frame, a price, NaN
   * (an undefined SMA 20 carried through the arithmetic), or the `IndexError`
   * that `iloc[-60]` raises on fewer than 60 rows.
   */
  datatype Prediction = NoPrediction | Predicted(price: real) | NotANumber | IndexError

  /** What a call that did not raise returns: a price, `None`, or NaN. */
  type Returned = p: Prediction | !p.IndexError? witness NoPrediction

  const MinPredictionRows: nat := 20
  const MidLookback: nat := 60

  /** `(later - earlier) / earlier`. */
  function Growth(earlier: Price, later: Price): real
  {
    (later - earlier) / earlier
  }

  /** The short-horizon branch on RSI: NaN fails both comparisons. */
  function ShortTerm(current: Price, sma20: Option<real>, rsi: Option<real>): Prediction
  {
    if rsi.Some? && rsi.value > 60.0 then Predicted(current * 1.05)
    else if rsi.Some? && rsi.value < 40.0 then Predicted(current * 1.08)
    else if sma20.None? then NotANumber
    else Predicted((current + sma20.value) / 2.0)
  }

  function PredictPrice(df: Option<Frame>, h: Horizon): (p: Prediction)
    requires df.Some? ==> df.value.Aligned()
    ensures p.NoPrediction? <==> df.None? || |df.value.closes| < MinPredictionRows
    ensures p.IndexError? <==> h == Mid && df.Some? && MinPredictionRows <= |df.value.closes| < MidLookback
    ensures p.NotANumber? ==> h == Short
  {
    if df.None? || |df.value.closes| < MinPredictionRows then NoPrediction
    else
      var f := df.value;
      var n := |f.closes|;
      var current := f.closes[n - 1];
      match h
      case Short => ShortTerm(current, f.sma20[n - 1], f.rsi[n - 1])
      case Mid =>
        if n < MidLookback then IndexError
        else Predicted(current * (1.0 + Growth(f.closes[n - MidLookback], current) * 1.5))
      case Long => Predicted(current * (1.0 + Growth(f.closes[0], current) * 2.0))
  }

  // ---------------------------------------------------------------------
  // Lemmas
  // ---------------------------------------------------------------------

  /**
   * The short horizon: +5% above RSI 60, +8% below RSI 40, otherwise halfway
   * to SMA 20, and NaN when that SMA is undefined.
   */
  lemma ShortTermBranches(current: Price, sma20: Option<real>, rsi: Option<real>)
    ensures rsi.Some? && rsi.value > 60.0 ==> ShortTerm(current, sma20, rsi) == Predicted(current * 1.05)
    ensures rsi.Some? && rsi.value < 40.0 ==> ShortTerm(current, sma20, rsi) == Predicted(current * 1.08)
    ensures (rsi.None? || 40.0 <= rsi.value <= 60.0) && sma20.Some? ==>
      ShortTerm(current, sma20, rsi) == Predicted((current + sma20.value) / 2.0)
    ensures ShortTerm(current, sma20, rsi).NotANumber? <==> (rsi.None? || 40.0 <= rsi.value <= 60.0) && sma20.None?
  {
  }

  /**
   * The short projection rises above the close exactly when RSI is outside
   * [40, 60] or the SMA 20 lies above the close.
   */
  lemma ShortTermDirection(current: Price, sma20: real, rsi: Option<real>)
    ensures var p := ShortTerm(current, Some(sma20), rsi);
      p.Predicted? && (p.price > current <==> (rsi.Some? && (rsi.value > 60.0 || rsi.value < 40.0)) || sma20 > current)
  {
  }

  /** `current * (1 + g * k)` lies above (at) `current` exactly when `g` is positive (zero). */
  lemma ScaledGrowth(current: Price, earlier: Price, k: real)
    requires k > 0.0
    ensures var p := current * (1.0 + Growth(earlier, current) * k);
      (p > current <==> current > earlier) && (p == current <==> current == earlier)
  {
    var g := Growth(earlier, current);
    assert g > 0.0 <==> current > earlier;
    assert g == 0.0 <==> current == earlier;
    assert current * (1.0 + g * k) - current == current * g * k;
    if g > 0.0 {
      assert g * k > 0.0;
    } else if g < 0.0 {
      assert g * k < 0.0;
    }
  }

  /**
   * On a frame of at least 60 rows the mid projection is a price, above the
   * last close exactly when that close is above the one 60 rows from the
   * end, and equal to it exactly when the two are equal.
   */
  lemma MidTermDirection(f: Frame)
    requires f.Aligned() && |f.closes| >= MidLookback
    ensures var n := |f.closes|; var p := PredictPrice(Some(f), Mid);
      p.Predicted? &&
      (p.price > f.closes[n - 1] as real <==> f.closes[n - 1] > f.closes[n - MidLookback]) &&
      (p.price == f.closes[n - 1] as real <==> f.closes[n - 1] == f.closes[n - MidLookback])
  {
    var n := |f.closes|;
    ScaledGrowth(f.closes[n - 1], f.closes[n - MidLookback], 1.5);
  }

  /**
   * On a frame of at least 20 rows the long projection is a price, above the
   * last close exactly when that close is above the first one, and equal to it
   * exactly when the two are equal.
   */
  lemma LongTermDirection(f: Frame)
    requires f.Aligned() && |f.closes| >= MinPredictionRows
    ensures var n := |f.closes|; var p := PredictPrice(Some(f), Long);
      p.Predicted? &&
      (p.price > f.closes[n - 1] as real <==> f.closes[n - 1] > f.closes[0]) &&
      (p.price == f.closes[n - 1] as real <==> f.closes[n - 1] == f.closes[0])
  {
    var n := |f.closes|;
    ScaledGrowth(f.closes[n - 1], f.closes[0], 2.0);
  }

  /**
   * No floor on the long projection: it is negative exactly when the last
   * close fell below half the first one, and zero exactly at half.
   */
  lemma LongTermCanBeNegative(f: Frame)
    requires f.Aligned() && |f.closes| >= MinPredictionRows
    ensures var n := |f.closes|; var p := PredictPrice(Some(f), Long);
      p.Predicted? &&
      (p.price < 0.0 <==> 2.0 * f.closes[n - 1] < f.closes[0]) &&
      (p.price == 0.0 <==> 2.0 * f.closes[n - 1] == f.closes[0])
  {
    var n := |f.closes|;
    var c, c0 := f.closes[n - 1], f.closes[0];
    var q := 1.0 + Growth(c0, c) * 2.0;
    assert q * c0 == 2.0 * c - c0;
    assert q < 0.0 <==> 2.0 * c < c0;
    assert q == 0.0 <==> 2.0 * c == c0;
    if q < 0.0 {
      assert c * q < 0.0;
    } else if q > 0.0 {
      assert c * q > 0.0;
    }
  }

  /**
   * On a frame computed from a history of at least 50 rows the short and
   * long projections are prices, and the mid one raises exactly below 60 rows.
   */
  lemma ComputedFrameProjections(bars: seq<Bar>)
    requires |bars| >= MinRows
    ensures PredictPrice(Some(IndicatorFrame(bars)), Short).Predicted?
    ensures PredictPrice(Some(IndicatorFrame(bars)), Long).Predicted?
    ensures PredictPrice(Some(IndicatorFrame(bars)), Mid).IndexError? <==> |bars| < MidLookback
    ensures |bars| >= MidLookback ==> PredictPrice(Some(IndicatorFrame(bars)), Mid).Predicted?
  {
    LastRowDefinedness(bars);
  }
}
