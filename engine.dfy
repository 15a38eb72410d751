/**
 * `analyze_single_stock` (one stock's record) and the ranking part of
 * `get_top_20_stocks` (three stable sorts of the collected records, each cut
 * to twenty).
 */
module Engine {
  import opened Wrappers
  import opened Indicators
  import opened Scoring
  import opened Projection
  import opened Sorting

  /**
   * The record `analyze_single_stock` builds.  The score is repeated in each
   * horizon there; here it is stored once.
   */
  datatype StockData = StockData(
    ticker: string, companyName: Value, sector: Value, industry: Value,
    currentPrice: Price, shortTerm: Returned, midTerm: Returned, longTerm: Returned,
    score: int, reasons: Reasons)

  /** The outcome of `analyze_single_stock`: `None`, the record, or the exception the mid projection raises. */
  datatype Analysis = NoResult | Threw | Analysed(data: StockData)

  /** `info.get(key, default)`. */
  function Get(info: Info, key: string, default: Value): Value
  {
    if key in info then info[key] else default
  }

  /**
   * `analyze_single_stock` on what `get_stock_data` fetched (`None` when the
   * fetch raised): no result without a history of at least 50 rows, the
   * `IndexError` of `predict_price` from 50 to 59 rows, otherwise the record.
   */
  function AnalyzeSingleStock(ticker: string, fetched: Option<(seq<Bar>, Info)>): (a: Analysis)
    ensures a.NoResult? <==> fetched.None? || |fetched.value.0| < MinRows
    ensures a.Threw? <==> fetched.Some? && MinRows <= |fetched.value.0| < MidLookback
  {
    if fetched.None? || |fetched.value.0| < MinRows then NoResult
    else
      var (hist, info) := fetched.value;
      var df := IndicatorFrame(hist);
      var result := PredictionScore(Some(df), info);
      var shortTerm := PredictPrice(Some(df), Short);
      var midTerm := PredictPrice(Some(df), Mid);
      if midTerm.IndexError? then Threw
      else
        var longTerm := PredictPrice(Some(df), Long);
        Analysed(StockData(ticker, Get(info, "longName", Str(ticker)), Get(info, "sector", Str("N/A")),
          Get(info, "industry", Str("N/A")), df.closes[|hist| - 1], shortTerm, midTerm, longTerm,
          result.score, result.reasons))
  }

  /** A record whose mid and long projections are prices, as every analysed record's are. */
  type RankedStock = s: StockData | s.midTerm.Predicted? && s.longTerm.Predicted?
    witness StockData("", Null, Null, Null, 1.0, NoPrediction, Predicted(0.0), Predicted(0.0), 0, InsufficientData)

  function ScoreKey(s: RankedStock): real
  {
    s.score as real
  }

  /** `mid_term.predicted_price - current_price`. */
  function MidGain(s: RankedStock): real
  {
    s.midTerm.price - s.currentPrice
  }

  /** `long_term.predicted_price - current_price`. */
  function LongGain(s: RankedStock): real
  {
    s.longTerm.price - s.currentPrice
  }

  const TopCount: nat := 20

  datatype TopLists = TopLists(shortTerm: seq<RankedStock>, midTerm: seq<RankedStock>, longTerm: seq<RankedStock>)

  /**
   * The three lists of `get_top_20_stocks` from the records in the order they
   * were collected: `all_stocks` sorted by score in place and cut to twenty,
   * then the score-sorted `all_stocks` sorted by mid and by long gain, each cut
   * to twenty.
   */
  function TopTwenty(stocks: seq<RankedStock>): (t: TopLists)
    ensures |t.shortTerm| == Min(TopCount, |stocks|)
    ensures |t.midTerm| == Min(TopCount, |stocks|)
    ensures |t.longTerm| == Min(TopCount, |stocks|)
  {
    var byScore := SortDesc(stocks, ScoreKey);
    TopLists(Take(byScore, TopCount), Take(SortDesc(byScore, MidGain), TopCount),
      Take(SortDesc(byScore, LongGain), TopCount))
  }

  // ---------------------------------------------------------------------
  // Lemmas
  // ---------------------------------------------------------------------

  /**
   * An analysed record has all three projections as prices, a score in
   * [47, 100] and at most five reasons, and it names the given ticker.
   */
  lemma AnalysedRecord(ticker: string, fetched: Option<(seq<Bar>, Info)>)
    requires AnalyzeSingleStock(ticker, fetched).Analysed?
    ensures var d := AnalyzeSingleStock(ticker, fetched).data;
      d.ticker == ticker && d.shortTerm.Predicted? && d.midTerm.Predicted? && d.longTerm.Predicted? &&
      47 <= d.score <= 100 && d.reasons.Listed? && |d.reasons.list| <= 5
  {
    var (hist, info) := fetched.value;
    ComputedFrameProjections(hist);
    var f := IndicatorFrame(hist);
    RawScoreBounds(LastRow(f), info);
  }

  /** The company name is `longName` when the data has one, and the ticker otherwise; sector and industry default to "N/A". */
  lemma AnalysedNames(ticker: string, hist: seq<Bar>, info: Info)
    requires |hist| >= MidLookback
    ensures var a := AnalyzeSingleStock(ticker, Some((hist, info)));
      a.Analysed? &&
      a.data.companyName == (if "longName" in info then info["longName"] else Str(ticker)) &&
      ("sector" !in info ==> a.data.sector == Str("N/A")) &&
      ("industry" !in info ==> a.data.industry == Str("N/A"))
  {
  }

  /** Each list is sorted on its own key, non-increasing. */
  lemma TopListsSorted(stocks: seq<RankedStock>)
    ensures SortedDesc(TopTwenty(stocks).shortTerm, ScoreKey)
    ensures SortedDesc(TopTwenty(stocks).midTerm, MidGain)
    ensures SortedDesc(TopTwenty(stocks).longTerm, LongGain)
  {
    var byScore := SortDesc(stocks, ScoreKey);
    SortDescSorted(stocks, ScoreKey);
    SortDescSorted(byScore, MidGain);
    SortDescSorted(byScore, LongGain);
    TakeKeepsOrder(byScore, TopCount, ScoreKey, ScoreKey);
    TakeKeepsOrder(SortDesc(byScore, MidGain), TopCount, MidGain, ScoreKey);
    TakeKeepsOrder(SortDesc(byScore, LongGain), TopCount, LongGain, ScoreKey);
  }

  /** Every listed record is one of the collected records, listed no more often than collected. */
  lemma TopListsDrawnFrom(stocks: seq<RankedStock>)
    ensures multiset(TopTwenty(stocks).shortTerm) <= multiset(stocks)
    ensures multiset(TopTwenty(stocks).midTerm) <= multiset(stocks)
    ensures multiset(TopTwenty(stocks).longTerm) <= multiset(stocks)
  {
    var byScore := SortDesc(stocks, ScoreKey);
    SortDescPermutes(stocks, ScoreKey);
    SortDescPermutes(byScore, MidGain);
    SortDescPermutes(byScore, LongGain);
    TakeIsDrawnFrom(byScore, TopCount);
    TakeIsDrawnFrom(SortDesc(byScore, MidGain), TopCount);
    TakeIsDrawnFrom(SortDesc(byScore, LongGain), TopCount);
  }

  /**
   * Since `all_stocks` was sorted by score first and the sort is stable,
   * records with equal mid (or long) gain stay in score order.
   */
  lemma GainTiesKeepScoreOrder(stocks: seq<RankedStock>)
    ensures TiesOrdered(TopTwenty(stocks).midTerm, MidGain, ScoreKey)
    ensures TiesOrdered(TopTwenty(stocks).longTerm, LongGain, ScoreKey)
  {
    var byScore := SortDesc(stocks, ScoreKey);
    SortDescSorted(stocks, ScoreKey);
    SortDescKeepsTieOrder(byScore, MidGain, ScoreKey);
    SortDescKeepsTieOrder(byScore, LongGain, ScoreKey);
    TakeKeepsOrder(SortDesc(byScore, MidGain), TopCount, MidGain, ScoreKey);
    TakeKeepsOrder(SortDesc(byScore, LongGain), TopCount, LongGain, ScoreKey);
  }

  /** No record that beats the last listed one on a list's key is left off that list. */
  lemma TopListsMissNoBetterStock(stocks: seq<RankedStock>, x: RankedStock)
    requires x in stocks
    ensures var t := TopTwenty(stocks);
      (t.shortTerm != [] && ScoreKey(x) > ScoreKey(t.shortTerm[|t.shortTerm| - 1]) ==> x in t.shortTerm) &&
      (t.midTerm != [] && MidGain(x) > MidGain(t.midTerm[|t.midTerm| - 1]) ==> x in t.midTerm) &&
      (t.longTerm != [] && LongGain(x) > LongGain(t.longTerm[|t.longTerm| - 1]) ==> x in t.longTerm)
  {
    var byScore := SortDesc(stocks, ScoreKey);
    SortDescPermutes(stocks, ScoreKey);
    assert x in multiset(stocks);
    assert x in byScore;
    TakeSelectsHighest(stocks, TopCount, ScoreKey, x);
    TakeSelectsHighest(byScore, TopCount, MidGain, x);
    TakeSelectsHighest(byScore, TopCount, LongGain, x);
  }
}
