/**
 * The decision ladders of the analysis engine: the buy/sell recommendation
 * per horizon, the outlook and confidence of the generated analysis, the
 * market-sentiment, sector-trend and interest-rate classifiers, and the
 * composition of `analyze_stock`.
 *
 * The quote histories the classifiers fetch are a parameter `quotes`: the
 * closes the provider returns for a symbol, or `None` when the fetch raises.
 */
module Analysis {
  import opened Wrappers
  import opened Indicators
  import opened Scoring
  import opened Projection
  import opened Engine

  /** `((later - earlier) / earlier) * 100`. */
  function PercentChange(earlier: Price, later: real): real
  {
    (later - earlier) / earlier * 100.0
  }

  // ---------------------------------------------------------------------
  // Recommendation per horizon
  // ---------------------------------------------------------------------

  datatype Rec = StrongSell | Sell | Hold | Buy | StrongBuy
  {
    /** Position on the scale from "Strong Sell" up to "Strong Buy". */
    function Rank(): nat
    {
      match this
      case StrongSell => 0
      case Sell => 1
      case Hold => 2
      case Buy => 3
      case StrongBuy => 4
    }

    function Label(): string
    {
      match this
      case StrongSell => "Strong Sell"
      case Sell => "Sell"
      case Hold => "Hold"
      case Buy => "Buy"
      case StrongBuy => "Strong Buy"
    }
  }

  /** The `if`/`elif` ladder on the percentage change. */
  function RecommendationOf(change: real): Rec
  {
    if change > 15.0 then StrongBuy
    else if change > 5.0 then Buy
    else if change > -5.0 then Hold
    else if change > -15.0 then Sell
    else StrongSell
  }

  /**
   * `_get_recommendation`: `Hold` for a missing prediction.  A NaN prediction
   * fails every comparison of the ladder and falls through to `Strong Sell`.
   */
  function Recommendation(predicted: Returned, current: Price): (r: Rec)
    ensures predicted.NoPrediction? ==> r == Hold
    ensures predicted.NotANumber? ==> r == StrongSell
    ensures predicted.Predicted? ==> r == RecommendationOf(PercentChange(current, predicted.price))
  {
    if predicted.NoPrediction? then Hold
    else if predicted.NotANumber? then StrongSell
    else RecommendationOf(PercentChange(current, predicted.price))
  }

  // ---------------------------------------------------------------------
  // Outlook and confidence of the generated analysis
  // ---------------------------------------------------------------------

  datatype Outlook = AvoidOutlook | CautiousOutlook | HoldOutlook | BuyOutlook | StrongBuyOutlook
  {
    function Rank(): nat
    {
      match this
      case AvoidOutlook => 0
      case CautiousOutlook => 1
      case HoldOutlook => 2
      case BuyOutlook => 3
      case StrongBuyOutlook => 4
    }

    function Label(): string
    {
      match this
      case AvoidOutlook => "Avoid"
      case CautiousOutlook => "Cautious"
      case HoldOutlook => "Hold"
      case BuyOutlook => "Buy"
      case StrongBuyOutlook => "Strong Buy"
    }
  }

  /**
   * The returned strings tell the labels apart: two recommendations (or two
   * outlooks) print the same exactly when they are the same label.
   */
  lemma LabelsDistinct(r: Rec, r': Rec, o: Outlook, o': Outlook)
    ensures r.Label() == r'.Label() <==> r == r'
    ensures o.Label() == o'.Label() <==> o == o'
  {
  }

  datatype Confidence = High | Moderate

  /** `data.get('prediction_score', 50)`. */
  const DefaultScore: int := 50

  function ScoreOrDefault(score: Option<int>): int
  {
    if score.Some? then score.value else DefaultScore
  }

  function OutlookOf(score: int): Outlook
  {
    if score >= 70 then StrongBuyOutlook
    else if score >= 60 then BuyOutlook
    else if score >= 50 then HoldOutlook
    else if score >= 40 then CautiousOutlook
    else AvoidOutlook
  }

  function ConfidenceOf(score: int): Confidence
  {
    if score > 70 || score < 30 then High else Moderate
  }

  /** A sector classification, as the generated summary reports it. */
  datatype Trend = Outperforming | Underperforming | InLine | Unknown

  /** The labels of `generate_llm_analysis`; its summary text is not modelled. */
  datatype LlmAnalysis = LlmAnalysis(outlook: Outlook, confidence: Confidence, sectorTrend: Trend)

  // ---------------------------------------------------------------------
  // Market, sector and interest-rate context
  // ---------------------------------------------------------------------

  /** Closes by symbol; `None` when the fetch raises. */
  type Quotes = string -> Option<seq<Price>>

  datatype Sentiment = Bullish | Bearish | Neutral

  /** `get_market_sentiment`; `dataAvailable` tells the two descriptions apart. */
  datatype MarketReport = MarketReport(sentiment: Sentiment, spyChange: real, dataAvailable: bool)

  const MarketSymbol: string := "SPY"

  function SentimentOf(change: real): Sentiment
  {
    if change > 3.0 then Bullish else if change < -3.0 then Bearish else Neutral
  }

  /** A failed or empty fetch yields the neutral fallback with a zero change. */
  function MarketSentiment(quotes: Quotes): (m: MarketReport)
    ensures !m.dataAvailable <==> quotes(MarketSymbol).None? || quotes(MarketSymbol).value == []
    ensures !m.dataAvailable ==> m == MarketReport(Neutral, 0.0, false)
  {
    var h := quotes(MarketSymbol);
    if h.None? || h.value == [] then MarketReport(Neutral, 0.0, false)
    else
      var change := PercentChange(h.value[0], h.value[|h.value| - 1]);
      MarketReport(SentimentOf(change), change, true)
  }

  /** The sector ETF table of `analyze_sector_performance`. */
  const SectorEtfs: map<string, string> := map[
    "Technology" := "XLK",
    "Healthcare" := "XLV",
    "Financials" := "XLF",
    "Energy" := "XLE",
    "Consumer Discretionary" := "XLY",
    "Consumer Staples" := "XLP",
    "Industrials" := "XLI",
    "Materials" := "XLB",
    "Real Estate" := "XLRE",
    "Utilities" := "XLU",
    "Communication Services" := "XLC"
  ]

  /** `sector_etfs.get(sector, 'SPY')`. */
  function SectorEtf(sector: Value): string
  {
    if sector.Str? && sector.s in SectorEtfs then SectorEtfs[sector.s] else MarketSymbol
  }

  datatype SectorReport = SectorReport(sector: Value, performance: real, trend: Trend)

  function TrendOf(change: real): Trend
  {
    if change > 5.0 then Outperforming else if change < -5.0 then Underperforming else InLine
  }

  /** `analyze_sector_performance`: the change of the sector's ETF; `Unknown` with 0 when the fetch fails. */
  function SectorPerformance(sector: Value, quotes: Quotes): (r: SectorReport)
    ensures r.sector == sector
    ensures r.trend == Unknown <==> quotes(SectorEtf(sector)).None? || quotes(SectorEtf(sector)).value == []
    ensures r.trend == Unknown ==> r.performance == 0.0
  {
    var h := quotes(SectorEtf(sector));
    if h.None? || h.value == [] then SectorReport(sector, 0.0, Unknown)
    else
      var change := PercentChange(h.value[0], h.value[|h.value| - 1]);
      SectorReport(sector, change, TrendOf(change))
  }

  datatype Impact = NegativeForGrowth | PositiveForGrowth | NeutralForEquities | ImpactUnavailable

  datatype RateReport = RateReport(currentYield: real, change3m: real, impact: Impact)

  const YieldSymbol: string := "^TNX"

  function ImpactOf(currentYield: real): Impact
  {
    if currentYield > 4.5 then NegativeForGrowth
    else if currentYield < 3.5 then PositiveForGrowth
    else NeutralForEquities
  }

  /** `analyze_interest_rate_impact`: the latest ten-year yield and its change; fixed fallback values on failure. */
  function InterestRateImpact(quotes: Quotes): (r: RateReport)
    ensures r.impact == ImpactUnavailable <==> quotes(YieldSymbol).None? || quotes(YieldSymbol).value == []
    ensures r.impact == ImpactUnavailable ==> r.currentYield == 4.0 && r.change3m == 0.0
  {
    var h := quotes(YieldSymbol);
    if h.None? || h.value == [] then RateReport(4.0, 0.0, ImpactUnavailable)
    else
      var y := h.value;
      RateReport(y[|y| - 1], y[|y| - 1] as real - y[0] as real, ImpactOf(y[|y| - 1]))
  }

  // ---------------------------------------------------------------------
  // analyze_stock
  // ---------------------------------------------------------------------

  datatype Recommendations = Recommendations(shortTerm: Rec, midTerm: Rec, longTerm: Rec)

  /**
   * What `analyze_stock` returns: the error map, the exception of
   * `analyze_single_stock` passing through, or the combined analysis.  The
   * economic and geopolitical dictionaries are constants and left out.
   */
  datatype StockAnalysis =
    | AnalysisError(error: string)
    | AnalysisRaised
    | Comprehensive(stock: StockData, market: MarketReport, sectorAnalysis: SectorReport,
                    rates: RateReport, ai: LlmAnalysis, recommendations: Recommendations)

  function ErrorMessage(ticker: string): string
  {
    "Could not analyze " + ticker + ". Please check the ticker symbol."
  }

  /** `generate_llm_analysis` on a record: the labels for its score and the trend of its sector. */
  function GenerateLlmAnalysis(score: Option<int>, sector: Value, quotes: Quotes): LlmAnalysis
  {
    var s := ScoreOrDefault(score);
    LlmAnalysis(OutlookOf(s), ConfidenceOf(s), SectorPerformance(sector, quotes).trend)
  }

  /** The combined analysis of an analysed record. */
  function CombinedAnalysis(d: StockData, quotes: Quotes): (r: StockAnalysis)
    ensures r.Comprehensive? && r.stock == d
  {
    Comprehensive(d, MarketSentiment(quotes), SectorPerformance(d.sector, quotes), InterestRateImpact(quotes),
      GenerateLlmAnalysis(Some(d.score), d.sector, quotes),
      Recommendations(Recommendation(d.shortTerm, d.currentPrice), Recommendation(d.midTerm, d.currentPrice),
        Recommendation(d.longTerm, d.currentPrice)))
  }

  /**
   * `analyze_stock`: the error map exactly when `analyze_single_stock` gives
   * nothing, its exception when it raises, otherwise the combined analysis.
   */
  function AnalyzeStock(ticker: string, fetched: Option<(seq<Bar>, Info)>, quotes: Quotes): (r: StockAnalysis)
    ensures r.AnalysisError? <==> fetched.None? || |fetched.value.0| < MinRows
    ensures r.AnalysisError? ==> r.error == ErrorMessage(ticker)
    ensures r.AnalysisRaised? <==> fetched.Some? && MinRows <= |fetched.value.0| < MidLookback
    ensures r.Comprehensive? ==> r == CombinedAnalysis(AnalyzeSingleStock(ticker, fetched).data, quotes)
  {
    match AnalyzeSingleStock(ticker, fetched)
    case NoResult => AnalysisError(ErrorMessage(ticker))
    case Threw => AnalysisRaised
    case Analysed(d) => CombinedAnalysis(d, quotes)
  }

  // ---------------------------------------------------------------------
  // Lemmas
  // ---------------------------------------------------------------------

  /** The percentage change passes a threshold exactly when the price passes the matching multiple of the current price. */
  lemma ChangeAbove(current: Price, p: real, t: real)
    ensures PercentChange(current, p) > t <==> p > current * (1.0 + t / 100.0)
  {
    var c := PercentChange(current, p);
    assert c * current == (p - current) * 100.0;
    assert current * (1.0 + t / 100.0) == current + current * t / 100.0;
    if c > t {
      assert c * current > t * current;
    }
    if p > current * (1.0 + t / 100.0) {
      assert (p - current) * 100.0 > current * t;
      assert c * current > t * current;
    }
  }

  /** The five labels as bands of the predicted price around the current one. */
  lemma RecommendationBands(current: Price, p: real)
    ensures Recommendation(Predicted(p), current) == StrongBuy <==> p > current * 1.15
    ensures Recommendation(Predicted(p), current) == Buy <==> current * 1.05 < p <= current * 1.15
    ensures Recommendation(Predicted(p), current) == Hold <==> current * 0.95 < p <= current * 1.05
    ensures Recommendation(Predicted(p), current) == Sell <==> current * 0.85 < p <= current * 0.95
    ensures Recommendation(Predicted(p), current) == StrongSell <==> p <= current * 0.85
  {
    ChangeAbove(current, p, 15.0);
    ChangeAbove(current, p, 5.0);
    ChangeAbove(current, p, -5.0);
    ChangeAbove(current, p, -15.0);
  }

  /**
   * `_get_recommendation` on any value `predict_price` returns: a hold is no
   * prediction or a price within 5% of the current one, a strong sell is NaN or
   * a price at least 15% below it, and the other three labels are price bands.
   */
  lemma RecommendationOfAnyPrediction(predicted: Returned, current: Price)
    ensures var r := Recommendation(predicted, current);
      (r == Hold <==>
        (predicted.NoPrediction? || (predicted.Predicted? && current * 0.95 < predicted.price <= current * 1.05))) &&
      (r == StrongSell <==>
        (predicted.NotANumber? || (predicted.Predicted? && predicted.price <= current * 0.85))) &&
      (r == StrongBuy <==> predicted.Predicted? && predicted.price > current * 1.15) &&
      (r == Buy <==> predicted.Predicted? && current * 1.05 < predicted.price <= current * 1.15) &&
      (r == Sell <==> predicted.Predicted? && current * 0.85 < predicted.price <= current * 0.95)
  {
    if predicted.Predicted? {
      RecommendationBands(current, predicted.price);
    }
  }

  /** A higher predicted price never gives a lower label. */
  lemma RecommendationMonotone(current: Price, p: real, q: real)
    requires p <= q
    ensures Recommendation(Predicted(p), current).Rank() <= Recommendation(Predicted(q), current).Rank()
  {
    RecommendationBands(current, p);
    RecommendationBands(current, q);
  }

  /** A prediction equal to the current price is a hold. */
  lemma UnchangedPriceHolds(current: Price)
    ensures Recommendation(Predicted(current), current) == Hold
  {
    RecommendationBands(current, current);
  }

  /** The outlook ladder as bands of the score. */
  lemma OutlookBands(score: int)
    ensures OutlookOf(score) == StrongBuyOutlook <==> score >= 70
    ensures OutlookOf(score) == BuyOutlook <==> 60 <= score < 70
    ensures OutlookOf(score) == HoldOutlook <==> 50 <= score < 60
    ensures OutlookOf(score) == CautiousOutlook <==> 40 <= score < 50
    ensures OutlookOf(score) == AvoidOutlook <==> score < 40
  {
  }

  /** A higher score never gives a lower outlook. */
  lemma OutlookMonotone(s: int, t: int)
    requires s <= t
    ensures OutlookOf(s).Rank() <= OutlookOf(t).Rank()
  {
  }

  /**
   * High confidence only at the two ends of the outlook scale; 70 itself is
   * a strong buy held with moderate confidence, and a missing score is a
   * moderate hold.
   */
  lemma ConfidenceAtTheEnds(score: int)
    ensures ConfidenceOf(score) == High ==> OutlookOf(score) in {StrongBuyOutlook, AvoidOutlook}
    ensures OutlookOf(70) == StrongBuyOutlook && ConfidenceOf(70) == Moderate
    ensures OutlookOf(ScoreOrDefault(None)) == HoldOutlook && ConfidenceOf(ScoreOrDefault(None)) == Moderate
  {
  }

  /**
   * For a score the engine can produce ([47, 100]) the outlook is never
   * `Avoid`, and confidence is high exactly above 70.
   */
  lemma EngineScoreOutlook(score: int)
    requires 47 <= score <= 100
    ensures OutlookOf(score) != AvoidOutlook
    ensures ConfidenceOf(score) == High <==> score > 70
  {
  }

  /**
   * The labels of the generated analysis: the outlook ladder and the
   * confidence test on the score (50 when missing), and the trend of the
   * sector, `Unknown` exactly when its ETF fetch fails.
   */
  lemma LlmAnalysisLabels(score: Option<int>, sector: Value, quotes: Quotes)
    ensures var a := GenerateLlmAnalysis(score, sector, quotes); var s := ScoreOrDefault(score);
      (score.Some? ==> s == score.value) &&
      (a.outlook == StrongBuyOutlook <==> s >= 70) &&
      (a.outlook == BuyOutlook <==> 60 <= s < 70) &&
      (a.outlook == HoldOutlook <==> 50 <= s < 60) &&
      (a.outlook == CautiousOutlook <==> 40 <= s < 50) &&
      (a.outlook == AvoidOutlook <==> s < 40) &&
      (a.confidence == High <==> s > 70 || s < 30) &&
      (score.None? ==> a.outlook == HoldOutlook && a.confidence == Moderate) &&
      (a.sectorTrend == Unknown <==> quotes(SectorEtf(sector)).None? || quotes(SectorEtf(sector)).value == [])
  {
    OutlookBands(ScoreOrDefault(score));
  }

  /**
   * With SPY data, the change is the percentage change from the first close
   * to the last, and the sentiment follows it: above 3% bullish, below -3%
   * bearish, neutral otherwise.
   */
  lemma MarketSentimentWithData(quotes: Quotes)
    requires quotes(MarketSymbol).Some? && quotes(MarketSymbol).value != []
    ensures var h := quotes(MarketSymbol).value; var m := MarketSentiment(quotes);
      m.dataAvailable && m.spyChange == PercentChange(h[0], h[|h| - 1]) &&
      (m.sentiment == Bullish <==> m.spyChange > 3.0) &&
      (m.sentiment == Bearish <==> m.spyChange < -3.0) &&
      (m.sentiment == Neutral <==> -3.0 <= m.spyChange <= 3.0)
  {
  }

  /** The market label as bands of the month's change. */
  lemma SentimentBands(change: real)
    ensures SentimentOf(change) == Bullish <==> change > 3.0
    ensures SentimentOf(change) == Bearish <==> change < -3.0
    ensures SentimentOf(change) == Neutral <==> -3.0 <= change <= 3.0
  {
  }

  /** A sector outside the table is measured against SPY. */
  lemma UnmappedSectorUsesMarket(sector: Value, quotes: Quotes)
    requires !(sector.Str? && sector.s in SectorEtfs)
    ensures SectorEtf(sector) == MarketSymbol
    ensures SectorPerformance(sector, quotes).performance == SectorPerformance(Str("N/A"), quotes).performance
  {
    assert "N/A" !in SectorEtfs;
  }

  /** The sector trend as bands of the change; `Unknown` only on failure. */
  lemma TrendBands(change: real)
    ensures TrendOf(change) == Outperforming <==> change > 5.0
    ensures TrendOf(change) == Underperforming <==> change < -5.0
    ensures TrendOf(change) == InLine <==> -5.0 <= change <= 5.0
    ensures TrendOf(change) != Unknown
  {
  }

  /**
   * With ETF data, the performance is the percentage change from the first
   * close to the last, and the trend follows it: above 5 outperforming, below
   * -5 underperforming, in line otherwise.
   */
  lemma SectorWithData(sector: Value, quotes: Quotes)
    requires quotes(SectorEtf(sector)).Some? && quotes(SectorEtf(sector)).value != []
    ensures var h := quotes(SectorEtf(sector)).value; var r := SectorPerformance(sector, quotes);
      r.sector == sector && r.performance == PercentChange(h[0], h[|h| - 1]) &&
      (r.trend == Outperforming <==> r.performance > 5.0) &&
      (r.trend == Underperforming <==> r.performance < -5.0) &&
      (r.trend == InLine <==> -5.0 <= r.performance <= 5.0)
  {
  }

  /** With data, the change is the latest yield minus the earliest, and the impact follows the latest. */
  lemma RateImpactWithData(quotes: Quotes)
    requires quotes(YieldSymbol).Some? && quotes(YieldSymbol).value != []
    ensures var y := quotes(YieldSymbol).value; var r := InterestRateImpact(quotes);
      r.change3m == y[|y| - 1] as real - y[0] as real && r.currentYield == y[|y| - 1] &&
      (r.impact == NegativeForGrowth <==> y[|y| - 1] > 4.5) &&
      (r.impact == PositiveForGrowth <==> y[|y| - 1] < 3.5) &&
      (r.impact == NeutralForEquities <==> 3.5 <= y[|y| - 1] <= 4.5)
  {
  }

  /**
   * For a record the engine produced, every horizon's recommendation comes
   * from that horizon's predicted price, and the outlook is not `Avoid`.
   */
  lemma CombinedRecommendations(d: StockData, quotes: Quotes)
    requires d.shortTerm.Predicted? && d.midTerm.Predicted? && d.longTerm.Predicted? && 47 <= d.score <= 100
    ensures var r := CombinedAnalysis(d, quotes);
      r.recommendations.shortTerm == RecommendationOf(PercentChange(d.currentPrice, d.shortTerm.price)) &&
      r.recommendations.midTerm == RecommendationOf(PercentChange(d.currentPrice, d.midTerm.price)) &&
      r.recommendations.longTerm == RecommendationOf(PercentChange(d.currentPrice, d.longTerm.price)) &&
      r.ai.outlook != AvoidOutlook && (r.ai.confidence == High <==> d.score > 70)
  {
    EngineScoreOutlook(d.score);
  }

  /** Every combined analysis is of a record the engine produced, so the lemma above applies to it. */
  lemma ComprehensiveRecommendations(ticker: string, fetched: Option<(seq<Bar>, Info)>, quotes: Quotes)
    requires AnalyzeStock(ticker, fetched, quotes).Comprehensive?
    ensures var d := AnalyzeStock(ticker, fetched, quotes).stock;
      d.shortTerm.Predicted? && d.midTerm.Predicted? && d.longTerm.Predicted? && 47 <= d.score <= 100
  {
    AnalysedRecord(ticker, fetched);
  }
}
