# StockScore core, modelled in Dafny

StockScore ranks a universe of stocks by a rule-based "prediction score" and
projects each stock's price over three horizons. A second engine wraps one
stock's result in market context and gives a buy/sell label per horizon. The
browser front end turns the analysis summary text into HTML. This project
models the deterministic core of all three and proves properties of it.

- `wrappers.dfy` (`Wrappers`): `Option`, which also stands for a pandas NaN, plus `Min` and `Max`.
- `text.dfy` (`Text`): the string built-ins the core relies on.
  - `indexOf`/`includes`, `split` and `join` on a separator.
  - `trim` with the JavaScript white-space set.
  - `replace` of one character by nothing.
  - Their laws: split then join gives the input back, no piece holds the separator, and splitting happens at the first occurrence.
- `indicators.dfy` (`Indicators`): `calculate_technical_indicators`.
  - Each column has a specification function: SMA 20/50/200, EMA 12/26 with the `adjust=False` recurrence, the 14-row simple-mean RSI, MACD and its signal line, and the volume SMA 20.
  - Each column also has a one-pass method proved equal to that specification.
  - RSI bounds and the exact condition under which RSI is undefined are proved.
- `scoring.dfy` (`Scoring`): `calculate_prediction_score`.
  - The method updates `score` and `reasons` rule by rule, as the source does.
  - It is proved equal to a specification function built from the ordered list of fired rules.
  - The text fundamental field that aborts the `try` block is modelled.
  - Proved about it:
    - the raw score lies in [47, 100];
    - the clamp is the identity;
    - at most one RSI rule and one P/E rule fire;
    - an undefined indicator, or an absent, `None` or NaN field, fires nothing.
- `projection.dfy` (`Projection`): `predict_price` for the three horizons.
  - It includes the `IndexError` that `iloc[-60]` raises on fewer than 60 rows, and the NaN the short branch yields when SMA 20 is undefined.
- `sorting.dfy` (`Sorting`): Python's stable descending sort, and slicing to a prefix.
  - The sort is proved sorted, a permutation of its input, and stable: ties keep the order of an earlier sort.
  - It is also proved that the prefix drops no better element.
- `engine.dfy` (`Engine`): `analyze_single_stock` and the three top-20 lists of `get_top_20_stocks`.
- `analysis.dfy` (`Analysis`): the decision ladders of the analysis engine and the composition of `analyze_stock`.
  - `_get_recommendation` and the outlook and confidence of `generate_llm_analysis`.
  - The market-sentiment, sector-trend and interest-rate classifiers.
- `summary.dfy` (`Summary`): `formatSummaryWithHighlights` and `formatMainSummary`.
  - The HTML is built as a sequence of chunks: fixed markup tags and copied text. `Render` concatenates them into the string.
  - The two loops of `formatMainSummary` are methods with invariants, proved equal to the specification `MainSummaryHtml`.

Data fetching is a parameter and is not modelled.
- Each stock's fetch (`get_stock_data`) is `fetched`: the history and `info`, or `None` when the fetch raised.
- The index, ETF and yield histories are `quotes`: a function from a symbol to its closes, or to `None` when the fetch raised.
- Numeric formatting of reason texts (`:.1f`) is a parameter `fmt`.

`predict_price` has no fallback value.
- The short horizon gives NaN when it reaches an undefined SMA 20.
- The mid horizon reads `iloc[-60]`, the 60th row from the end, and raises `IndexError` below 60 rows.

## Model

| member | source | states |
|---|---|---|
| Text.Split | static/js/stockscore.js:87-89 | at least one piece; two or more exactly when the separator occurs; a single piece is the whole string |
| Text.SplitJoin | static/js/stockscore.js:87-89 | joining the pieces of a split with the separator gives back the string |
| Text.SplitPiecesLackSeparator | static/js/stockscore.js:87-89 | no piece of a split contains the separator |
| Text.SplitAtFirst | static/js/stockscore.js:10-13 | a string is split at the first occurrence of a non-self-overlapping separator |
| Text.Trim | static/js/stockscore.js:84 | the result is the slice between blank ends, starts and ends with non-space, and is empty exactly when the input is blank |
| Text.RemoveFirst | static/js/stockscore.js:104 | removes exactly the first occurrence of the character, and leaves a string without it unchanged |
| Indicators.RsiFrom | prediction_engine.py:51-52 | RSI is defined exactly when both averages are and not both are zero; it lies in [0, 100]; zero loss with positive gain gives 100 |
| Indicators.IndicatorFrame | prediction_engine.py:38-65 | the computed frame has one entry per row in every column |
| Indicators.ComputeRollingMean | prediction_engine.py:39-41 | the running window sum produces, at each row, the mean of the last n values, or nothing for the first n-1 rows |
| Indicators.ComputeEwm | prediction_engine.py:44-45 | the column is seeded with the first value and follows y[i] = a*x[i] + (1-a)*y[i-1] with a = 2/(span+1) |
| Indicators.ComputeRsi | prediction_engine.py:48-52 | each row's RSI is computed from 14-row simple means of gains and losses |
| Indicators.CalculateTechnicalIndicators | prediction_engine.py:33-67 | no frame exactly for a missing history or one of fewer than 50 rows; otherwise SMA, EMA, RSI, MACD = EMA12 - EMA26, signal = EMA9 of MACD, volume SMA |
| Indicators.RsiBounded | prediction_engine.py:48-52 | a defined RSI value lies in [0, 100] |
| Indicators.RsiUndefinedIff | prediction_engine.py:48-52 | RSI is undefined exactly for the first 13 rows and for windows in which no close moves |
| Indicators.EwmBounded | prediction_engine.py:44-45 | an exponential average stays within any bounds its inputs keep |
| Indicators.RollingMeanOfConstant | prediction_engine.py:39-41 | a rolling mean over a constant window is that constant |
| Indicators.LastRowDefinedness | prediction_engine.py:39-65 | on a frame of 50 or more rows, SMA 20, SMA 50 and volume SMA are defined on the last row, and SMA 200 is defined exactly from 200 rows |
| Indicators.FlatHistoryLastRow | prediction_engine.py:39-65 | a flat history of 50-199 rows leaves SMA 50 at the close, SMA 200 and RSI undefined, MACD and signal at 0, and volume SMA at the volume |
| Scoring.Lookup | prediction_engine.py:114-131 | a field is compared exactly when present and numeric, and raises exactly when it is text |
| Scoring.Clamp | prediction_engine.py:135 | the result lies in [0, 100] and equals a score already in range |
| Scoring.PredictionScore | prediction_engine.py:69-135 | "insufficient data" with score 0 exactly for a missing or short frame; otherwise at most five reasons |
| Scoring.ReasonText | prediction_engine.py:81-131 | every reason text is non-empty |
| Scoring.Fire | prediction_engine.py:82-83 | a fired rule adds its points and appends its reason |
| Scoring.ApplyTrendRules | prediction_engine.py:80-89 | appends exactly the trend reasons that fire, in order, with their points |
| Scoring.ApplyRsiRule | prediction_engine.py:91-100 | appends the one RSI reason for a defined RSI, and none for NaN |
| Scoring.ApplySignalRules | prediction_engine.py:91-110 | appends the RSI, MACD and volume reasons that fire, in order |
| Scoring.ApplyTechnicalRules | prediction_engine.py:79-110 | appends all technical reasons in evaluation order, with score - points unchanged |
| Scoring.ApplyPeRule | prediction_engine.py:114-121 | raises exactly for a text P/E; otherwise appends the P/E reason that fires |
| Scoring.ApplyMarginRule | prediction_engine.py:123-126 | raises exactly for a text margin; otherwise appends the margin reason if the margin is above 15% |
| Scoring.ApplyRoeRule | prediction_engine.py:128-131 | raises exactly for a text ROE; otherwise appends the ROE reason if the ROE is above 15% |
| Scoring.ApplyFundamentalRules | prediction_engine.py:112-133 | the groups run in order until one raises; reasons added before the exception stay |
| Scoring.CalculatePredictionScore | prediction_engine.py:69-135 | the step-by-step score equals the specification; it is 0 for insufficient data and in [47, 100] otherwise |
| Scoring.ScoreOfFiredRules | prediction_engine.py:74-135 | 50 plus the fired rules' points lies in [47, 100], and clamping it gives the specified result |
| Scoring.RsiTotal | prediction_engine.py:91-100 | the RSI group adds +5, +3 or -3, or nothing when RSI is undefined |
| Scoring.TrendTotal | prediction_engine.py:80-89 | the trend rules add between 0 and +15 |
| Scoring.SignalTotal | prediction_engine.py:91-110 | the momentum, MACD and volume rules add between -3 and +15 |
| Scoring.TechnicalTotal | prediction_engine.py:79-110 | the technical rules add between -3 and +30 |
| Scoring.StepShapes | prediction_engine.py:114-131 | each fundamental group adds at most one reason, worth 0/5/10 for P/E and 0/5 otherwise |
| Scoring.FundamentalShape | prediction_engine.py:112-133 | the fundamental reasons are the P/E, margin and ROE reasons, cut at the first group that raises |
| Scoring.FundamentalTotal | prediction_engine.py:112-133 | the fundamental rules add between 0 and +20 |
| Scoring.RawScoreBounds | prediction_engine.py:74-131 | before the clamp the score lies in [47, 100] |
| Scoring.ClampIsIdentity | prediction_engine.py:135 | the clamp never changes the score |
| Scoring.InsufficientDataResult | prediction_engine.py:71-72 | a missing or short frame gives (0, "Insufficient data") |
| Scoring.ReasonsAreFirstFive | prediction_engine.py:135 | the reasons are the first min(5, n) fired rules in evaluation order |
| Scoring.TrendCount | prediction_engine.py:80-89 | no trend rule is an RSI or P/E rule |
| Scoring.SignalCount | prediction_engine.py:91-110 | at most one RSI rule and no P/E rule among the momentum, MACD and volume rules |
| Scoring.TechnicalCount | prediction_engine.py:79-110 | the technical rules hold at most one RSI reason and no P/E reason |
| Scoring.FundamentalCount | prediction_engine.py:112-133 | the fundamental rules hold at most one P/E reason and no RSI reason |
| Scoring.AtMostOneRuleOfEachGroup | prediction_engine.py:91-121 | the RSI branches are exclusive, and so are the P/E branches |
| Scoring.UndefinedIndicatorsFireNoRule | prediction_engine.py:81-110 | an undefined SMA 50, SMA 200, RSI or volume SMA fires none of the rules that read it |
| Scoring.AbsentSameAsNone | prediction_engine.py:114-131 | a field set to None or NaN gives the same fundamental reasons as an absent field |
| Scoring.HighPeAddsNothing | prediction_engine.py:114-121 | a forward P/E above 25 contributes nothing |
| Scoring.LowPeAddsFive | prediction_engine.py:119-121 | any forward P/E below 10, negative included, adds 5 points |
| Scoring.TextPeAbortsFundamentals | prediction_engine.py:113-133 | a text forward P/E raises at once, so no fundamental rule fires |
| Scoring.TextMarginKeepsPe | prediction_engine.py:113-133 | a text margin keeps the P/E reason already added and skips the ROE rule |
| Scoring.FlatHistoryScoresBaseline | prediction_engine.py:74-135 | a flat history with no fundamentals scores exactly 50 with no reasons |
| Scoring.StrongFundamentals | prediction_engine.py:114-131 | P/E 18, margin 20% and ROE 18% fire all three fundamental rules, for +20 |
| Scoring.FlatHistoryWithFundamentals | prediction_engine.py:74-135 | with those fundamentals, a flat history scores 70 and lists the three reasons in order |
| Scoring.ReasonsTextEmptyIff | prediction_engine.py:135 | the joined reasons are empty exactly when no rule fired |
| Projection.PredictPrice | prediction_engine.py:137-167 | no prediction exactly for a missing frame or one of fewer than 20 rows; mid raises exactly from 20 to 59 rows; only the short horizon can give NaN |
| Projection.ShortTermBranches | prediction_engine.py:145-155 | the short branch (`ShortTerm`): RSI > 60 gives x1.05; else RSI < 40 gives x1.08; else the mean of the close and SMA 20, which is NaN exactly when SMA 20 is undefined |
| Projection.ShortTermDirection | prediction_engine.py:145-155 | the short projection is above the close exactly when RSI is outside [40, 60] or SMA 20 is above the close |
| Projection.MidTermDirection | prediction_engine.py:157-160 | on every frame of 60 or more rows `PredictPrice(.., Mid)` is a price, above (or equal to) the last close exactly when that close is above (or equal to) the close 60 rows from the end |
| Projection.LongTermDirection | prediction_engine.py:162-165 | on every frame of 20 or more rows `PredictPrice(.., Long)` is a price, above (or equal to) the last close exactly when that close is above (or equal to) the first close |
| Projection.LongTermCanBeNegative | prediction_engine.py:162-165 | no floor: on every frame of 20 or more rows the long projection is negative exactly when the last close is below half the first, and zero exactly at half |
| Projection.ComputedFrameProjections | prediction_engine.py:137-167 | on a computed frame the short and long projections are prices, and mid raises exactly below 60 rows |
| Sorting.SortDescPermutes | prediction_engine.py:226 | the sort is a permutation of its input |
| Sorting.SortDescSorted | prediction_engine.py:226 | the sort puts keys in non-increasing order |
| Sorting.SortDescKeepsTieOrder | prediction_engine.py:231-232 | stability: sorting a score-sorted list keeps equal keys in score order |
| Sorting.Take | prediction_engine.py:227 | `xs[:n]` has min(n, len) elements, the first ones |
| Sorting.TakeKeepsOrder | prediction_engine.py:227 | a prefix keeps both orders |
| Sorting.TakeIsDrawnFrom | prediction_engine.py:227 | a prefix holds nothing the whole list does not |
| Sorting.TakeSelectsHighest | prediction_engine.py:226-227 | no element whose key beats the prefix's last key is cut off |
| Engine.AnalyzeSingleStock | prediction_engine.py:169-209 | no result exactly for a failed fetch or fewer than 50 rows; the mid projection's IndexError exactly from 50 to 59 rows |
| Engine.AnalysedRecord | prediction_engine.py:179-209 | a record names its ticker, has all three projections as prices, a score in [47, 100] and at most five reasons |
| Engine.AnalysedNames | prediction_engine.py:185-187 | company name is `longName` or the ticker; sector and industry default to "N/A" |
| Engine.TopTwenty | prediction_engine.py:225-232 | each list has min(20, n) entries |
| Engine.TopListsSorted | prediction_engine.py:226-232 | each list is non-increasing in its own key: score, mid gain, long gain |
| Engine.TopListsDrawnFrom | prediction_engine.py:226-232 | every list is drawn from the collected records, none listed more often than collected |
| Engine.GainTiesKeepScoreOrder | prediction_engine.py:226-232 | equal mid or long gains stay in score order |
| Engine.TopListsMissNoBetterStock | prediction_engine.py:226-232 | no collected record that beats the last listed one on a list's key is left off that list |
| Analysis.ChangeAbove | analysis_engine.py:248 | the percentage change passes t exactly when the prediction passes current*(1 + t/100) |
| Analysis.RecommendationOfAnyPrediction | analysis_engine.py:243-259 | for every value `predict_price` returns: Hold exactly for no prediction or a price within (0.95, 1.05] of the current one; Strong Sell exactly for NaN or a price at most 0.85 of it; Strong Buy, Buy and Sell exactly on their price bands |
| Analysis.RecommendationBands | analysis_engine.py:248-259 | the five labels as price bands: >1.15, (1.05, 1.15], (0.95, 1.05], (0.85, 0.95], <=0.85 times the current price |
| Analysis.RecommendationMonotone | analysis_engine.py:248-259 | a higher predicted price never gives a lower label |
| Analysis.UnchangedPriceHolds | analysis_engine.py:248-259 | a prediction equal to the current price is a hold |
| Analysis.LabelsDistinct | analysis_engine.py:173-187 | the five recommendation strings (lines 246-259) are pairwise distinct, and so are the five outlook strings |
| Analysis.OutlookBands | analysis_engine.py:173-187 | the outlook ladder (`OutlookOf`): Strong Buy >= 70, Buy [60, 70), Hold [50, 60), Cautious [40, 50), Avoid < 40 |
| Analysis.OutlookMonotone | analysis_engine.py:173-187 | a higher score never gives a lower outlook |
| Analysis.ConfidenceAtTheEnds | analysis_engine.py:170-200 | the confidence test (`ConfidenceOf`): high only with Strong Buy or Avoid; 70 is Strong Buy with moderate confidence; a missing score is a moderate hold |
| Analysis.EngineScoreOutlook | analysis_engine.py:170-200 | for scores in [47, 100] the outlook is never Avoid, and confidence is high exactly above 70 |
| Analysis.LlmAnalysisLabels | analysis_engine.py:165-201 | `GenerateLlmAnalysis`: the outlook bands and the confidence test (high exactly above 70 or below 30) on the score, 50 when missing; the sector trend is Unknown exactly when the sector ETF fetch failed or came back empty |
| Analysis.MarketSentiment | analysis_engine.py:14-48 | the neutral fallback with change 0 exactly when the SPY fetch failed or came back empty |
| Analysis.MarketSentimentWithData | analysis_engine.py:24-41 | with SPY data the change is the percentage change from the first close to the last, and the sentiment is Bullish above 3, Bearish below -3, Neutral otherwise |
| Analysis.SentimentBands | analysis_engine.py:30-35 | Bullish > 3%, Bearish < -3%, Neutral otherwise |
| Analysis.SectorPerformance | analysis_engine.py:50-92 | reports its sector; trend "Unknown" with performance 0 exactly when the ETF fetch failed or came back empty |
| Analysis.SectorWithData | analysis_engine.py:66-84 | with ETF data the performance is the percentage change from the first close to the last, and the trend is Outperforming above 5, Underperforming below -5, In-line otherwise |
| Analysis.UnmappedSectorUsesMarket | analysis_engine.py:67 | a sector outside the table is measured against SPY |
| Analysis.TrendBands | analysis_engine.py:82 | Outperforming > 5, Underperforming < -5, In-line otherwise, never Unknown |
| Analysis.InterestRateImpact | analysis_engine.py:94-129 | fallback yield 4.0 and change 0 exactly when the ^TNX fetch failed or came back empty |
| Analysis.RateImpactWithData | analysis_engine.py:105-114 | the change is latest minus earliest yield; impact by yield > 4.5, < 3.5, otherwise |
| Analysis.AnalyzeStock | analysis_engine.py:203-241 | the error map, with its message, exactly when there is no base analysis; the exception exactly when it raises; otherwise the analysis combining the record, the three context reports, the generated labels and one recommendation per horizon |
| Analysis.CombinedRecommendations | analysis_engine.py:234-238 | each horizon's label comes from that horizon's predicted price, and the outlook of an engine score is never Avoid |
| Analysis.ComprehensiveRecommendations | analysis_engine.py:203-241 | every combined analysis has all three projections as prices and a score in [47, 100] |
| Summary.FormatHeaderSection | static/js/stockscore.js:89-113 | the loop builds the section div around each part's HTML in order |
| Summary.FormatSection | static/js/stockscore.js:84-118 | one section becomes a header block or a paragraph |
| Summary.FormatMainSummary | static/js/stockscore.js:77-123 | the loop's output is the opening div, one block per kept section in order, then `</div>` |
| Summary.HighlightsFrame | static/js/stockscore.js:4-74 | `SummaryWithHighlights` on any summary: empty exactly for a missing or empty one; otherwise it opens with the main div and ends with the alternatives card exactly when the marker occurs, with `</div>` otherwise |
| Summary.EmptySummary | static/js/stockscore.js:5 | `SummaryWithHighlights` of a missing or empty summary renders to the empty string |
| Summary.WithoutMarker | static/js/stockscore.js:73 | without the marker the output is that of `formatMainSummary` |
| Summary.WithMarker | static/js/stockscore.js:10-69 | with the marker: the formatted text before it, then the card holding the trimmed text after it |
| Summary.SecondMarkerDropsTail | static/js/stockscore.js:11-13 | text after a second marker is dropped |
| Summary.MainSummaryFrame | static/js/stockscore.js:81-122 | output starts with the line-height div and ends with `</div>` |
| Summary.KeepNonBlankIff | static/js/stockscore.js:79 | a section is kept exactly when it is a non-blank piece |
| Summary.KeepNonBlankKeepsOrder | static/js/stockscore.js:79 | the filter keeps the pieces in input order |
| Summary.BlankSummary | static/js/stockscore.js:79-122 | a blank summary gives only the opening and closing div |
| Summary.ParagraphIff | static/js/stockscore.js:87-118 | a section is one paragraph holding the trimmed text verbatim exactly when its split on `**` has at most two pieces |
| Summary.PlainAndLoneMarkers | static/js/stockscore.js:87-118 | a section without `**`, and the lone `**`, become paragraphs |
| Summary.HeaderSectionShape | static/js/stockscore.js:89-113 | even parts are copied verbatim, an odd part with `:` becomes an h4 without its first colon, other odd parts become strong, in order |

## Left out

- Bollinger bands (prediction_engine.py:59-62) need a standard deviation and a square root. The columns nothing downstream reads are left out.
- Floating point is not modelled. Arithmetic is on exact reals.
  - `round(·, 2)` of the projected and current prices is not modelled.
  - `round(·, 2)` of the market, sector and yield figures is not modelled.
  - The `:.1f` and `:.2f` renderings are not modelled; reason texts take the rendering as a parameter `fmt`.
- Projection.PredictPrice: returns the unrounded value, not `round(predicted, 2)`.
- Engine.AnalyzeSingleStock: `current_price` is the unrounded last close, so the ranking gains use unrounded prices too.
- Quotes are taken to be positive reals (`Price`). A zero or negative close, and the division by zero it would cause, are not modelled.
- Volumes are taken as given reals.
- `get_stock_data`, every `yf.Ticker(...).history` call and `stock.info` are I/O.
  - They are the parameters `fetched` and `quotes`.
  - Their `print` diagnostics and the `time.sleep` rate limiting are left out.
- The sector history is fetched twice, once in `analyze_stock` and once in `generate_llm_analysis`. Both calls read the same `quotes` function, so two fetches that disagree are not modelled.
- The thread pool and `as_completed` collection in `get_top_20_stocks` (prediction_engine.py:213-223) are left out: concurrency.
  - The ranking starts from the collected records in whatever order they arrived.
  - No claim is made about the order of equal scores.
  - An `IndexError` re-raised by `future.result()` is not modelled.
- The in-place `all_stocks.sort` is the library's sort. It is modelled by its result, a stable descending sort function, not as an in-place algorithm.
- `last_updated`, `generated_at` and the `timeframe` labels are not modelled. The score repeated in each horizon is stored once.
- The `summary` and `description` texts are not modelled.
  - This covers the running `summary +=` text of `generate_llm_analysis`.
  - It also covers the description strings of the sentiment, sector and rate reports.
  - The market report keeps only a flag telling them apart.
- `get_economic_indicators` and `get_geopolitical_context` return constant dictionaries and are left out.
- Summary.Markup.Text: the `h4` header and the alternatives card templates are abbreviated.
  - The layout white space and decorative markup are not reproduced.
  - Only the position of the inserted text is kept.
  - The output is a sequence of markup and text chunks; `Summary.Render` concatenates them.
- A `summary` that is neither a string, `null` nor `undefined` is not modelled.
- The DOM and fetch code of the front end is not part of this model.
