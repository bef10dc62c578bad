# Adaptive multi-factor stock scoring, modelled in Dafny

This project models the scoring core of the `stock-analysis` tool. The tool
scores a stock on four categories: fundamental, technical, risk and
sentiment. Each category weight starts from a configured base map and is
adjusted to the market state read from the price history. The adjustment
has three multiplicative passes: regime, volatility and volume. Each pass
renormalises the map so that it sums to 1.

The per-category scores come from:

- the financial ratios;
- the moving averages and OBV (on-balance volume);
- value-at-risk, the Sharpe ratio and the maximum drawdown;
- the StockTwits message labels, blended with the recent volume change.

The final score is the weighted sum of the four scores, with NaN replaced by
0, together with a verbal interpretation. Around that core sit the input
validators and the command-line driver. The driver validates symbols, keeps
one result per symbol and tallies the successes.

Numbers are exact `real`s. A pandas or NumPy float that can be NaN is
`Floats.Float = Real(v) | NaN`, whose comparisons are false on NaN as in
Python. Python exceptions that the source catches become `Option` or a
status constructor. Modules follow the source files:

| module | source |
|---|---|
| `Wrappers`, `Floats`, `Stats` | shared helpers: Option, NaN-aware floats, sums, extrema, sorting |
| `Config` | `stock_analyzer/config.py` |
| `Weights`, `WeightAdjuster` | `stock_analyzer/weight_adjuster.py` |
| `Normalizer`, `Scorers`, `Aggregator` | `stock_analyzer/models.py` |
| `Indicators` | `stock_analyzer/indicators.py` |
| `RiskMetrics` | `stock_analyzer/risk_metrics.py` |
| `Sentiment` | `stock_analyzer/sentiment_analyzer.py` |
| `Validators` | `stock_analyzer/validators.py` |
| `Run` | `run.py` |

Where the code and its documentation differ, the model follows the code:

- The Sharpe score is computed as written, `min(max(s, -2), 2) / 2 + 0.5`,
  although its comment promises a mapping onto [0, 1]. The risk score adds
  that value after clamping it to [0, 1], as the code does. The intended
  mapping is modelled alongside it (see "## Findings").

- The drawdown start is the *first* running peak reached, as `idxmax` returns
  it.
- A zero total equity makes `calculate_financial_ratios` return no ratios.
  The final score then counts the fundamental category as 0.
- `validate_financial_data` divides by the total equity outside any `try`.
  With a zero equity it raises, which is modelled as `None`.
- The regime threshold 0.3 for "volatile" is a literal in `_classify_market`,
  not a configuration entry.

## Model

| member | source | states |
|---|---|---|
| Config.BaseWeightsNormalized | stock_analyzer/config.py:56-91 | The base category weights 0.4/0.3/0.2/0.1 are positive and sum to 1. |
| Config.FactorWeightsSumToOne | stock_analyzer/config.py:56-91 | Within each category, the factor weights sum to 1. |
| Config.ThresholdsOrdered | stock_analyzer/config.py:47-53 | The bearish threshold is below the bullish one; the volume factor lies in [0,1]; at least 10 messages are required. |
| Weights.Scale | stock_analyzer/weight_adjuster.py:99-101 | Only the named category is multiplied by the factor; every other weight is unchanged. |
| Weights.Mul | stock_analyzer/weight_adjuster.py:65-97 | A multiplier table acts category by category. |
| Weights.Normalize | stock_analyzer/weight_adjuster.py:103-107 | Fails exactly when the total is 0 (ZeroDivisionError). Otherwise the result sums to 1, keeps positive weights positive, and leaves an already normalised map unchanged. |
| Weights.NormalizeShare | stock_analyzer/weight_adjuster.py:103-107 | Each renormalised weight times the old total is the old weight. |
| Weights.NormalizeKeepsRatios | stock_analyzer/weight_adjuster.py:103-107 | Renormalising keeps the ratio of every pair of categories. |
| Weights.NormalizeScaleInvariant | stock_analyzer/weight_adjuster.py:103-107 | Scaling every weight by the same non-zero factor before renormalising changes nothing. |
| Weights.RenormalizeThenScale | stock_analyzer/weight_adjuster.py:65-131 | Renormalising before a multiplicative pass gives the same renormalised result as skipping that renormalisation. |
| Weights.MulPositive | stock_analyzer/weight_adjuster.py:65-131 | Positive weights times positive multipliers stay positive. |
| WeightAdjuster.ClassifyMarket | stock_analyzer/weight_adjuster.py:48-63 | Bull iff trend > 0.2; bear iff trend < -0.2; volatile iff volatility > 0.3. NaN is neither. |
| WeightAdjuster.ClassifyExamples | stock_analyzer/weight_adjuster.py:48-63 | Sample classifications, including NaN inputs giving steady sideways. |
| WeightAdjuster.AnalyzeMarketState | stock_analyzer/weight_adjuster.py:11-46 | None iff the history is empty. With fewer than 20 rows, trend and volume trend are NaN and the market is steady sideways. Otherwise the trend is MA5/MA20 - 1. Volatility is a number iff more than 20 closes exist. |
| WeightAdjuster.RegimeMultipliers | stock_analyzer/weight_adjuster.py:72-93 | Every regime multiplier is positive. |
| WeightAdjuster.ApplyRegime | stock_analyzer/weight_adjuster.py:65-97 | The regime pass multiplies the weights by the regime's table. |
| WeightAdjuster.MarketPass | stock_analyzer/weight_adjuster.py:65-97 | Positive weights give a positive map summing to 1. A sideways market only renormalises. |
| WeightAdjuster.VolatileBullKeepsRatio | stock_analyzer/weight_adjuster.py:78-81 | In a volatile bull market, fundamental and sentiment (both ×1.0 before renormalising) keep their ratio. |
| WeightAdjuster.SteadyBullKeepsRatio | stock_analyzer/weight_adjuster.py:72-76 | In a steady bull market, technical and sentiment (both ×1.2) keep their ratio. |
| WeightAdjuster.VolatilityMultipliers | stock_analyzer/weight_adjuster.py:109-119 | The volatility multipliers are positive. |
| WeightAdjuster.ApplyVolatility | stock_analyzer/weight_adjuster.py:109-119 | The volatility pass multiplies by its table. |
| WeightAdjuster.VolatilityPass | stock_analyzer/weight_adjuster.py:109-119 | Positive weights give a positive normalised map. A volatility in [0.1, 0.4], or NaN, only renormalises, so a normalised map is returned unchanged. |
| WeightAdjuster.VolatilityPassKeepsRatio | stock_analyzer/weight_adjuster.py:109-119 | The pass never touches fundamental or sentiment, so their ratio is kept. |
| WeightAdjuster.HighVolatilityKeepsRatio | stock_analyzer/weight_adjuster.py:111-113 | Above 0.4 volatility, fundamental and sentiment keep their ratio. |
| WeightAdjuster.LowVolatilityKeepsRatio | stock_analyzer/weight_adjuster.py:114-116 | Below 0.1 volatility, fundamental and sentiment keep their ratio. |
| WeightAdjuster.VolumeMultipliers | stock_analyzer/weight_adjuster.py:121-131 | The volume multipliers are positive. |
| WeightAdjuster.ApplyVolume | stock_analyzer/weight_adjuster.py:121-131 | The volume pass multiplies by its table. |
| WeightAdjuster.VolumePass | stock_analyzer/weight_adjuster.py:121-131 | Positive weights give a positive normalised map. A volume trend in [-0.5, 0.5], or NaN, only renormalises. |
| WeightAdjuster.VolumeSurgeKeepsRatio | stock_analyzer/weight_adjuster.py:123-125 | On a volume surge, fundamental and risk (untouched) keep their ratio. |
| WeightAdjuster.VolumeDropKeepsRatio | stock_analyzer/weight_adjuster.py:126-128 | On a volume drop, risk and sentiment (untouched) keep their ratio. |
| WeightAdjuster.AdjustWeights | stock_analyzer/weight_adjuster.py:133-162 | No market state returns the base unchanged. Positive base weights stay positive, and with a market state the result sums to 1. |
| WeightAdjuster.CombinedMultipliers | stock_analyzer/weight_adjuster.py:133-162 | The product of the three passes' multipliers is positive. |
| WeightAdjuster.AdjustWeightsClosedForm | stock_analyzer/weight_adjuster.py:133-162 | The three passes equal one renormalisation of the base times the product of the three tables. |
| WeightAdjuster.VolatilityAndVolumePassesCommute | stock_analyzer/weight_adjuster.py:109-131 | Applying the volatility and volume passes in either order gives the same map. |
| WeightAdjuster.ShortHistoryOnlyRenormalises | stock_analyzer/weight_adjuster.py:11-46 | With fewer than 20 rows the adjustment only renormalises, so the configured base comes back unchanged. |
| WeightAdjuster.DriftedBaseStaysNormalized | stock_analyzer/weight_adjuster.py:133-162 | Adjusting an already adjusted map, as happens when the shared config dict is mutated, still gives a positive map summing to 1. |
| Normalizer.NormalizeFactor | stock_analyzer/models.py:15-72 | Empty input gives [0]. One value is clipped to [0,1]. Otherwise the length is kept, and an unknown method returns the data unchanged. |
| Normalizer.NormalizeSingle | stock_analyzer/models.py:24-43 | A single value is clipped to [0,1] whatever the method; NaN stays NaN. |
| Normalizer.NormalizeSingleMonotone | stock_analyzer/models.py:24-43 | Single-value normalisation is monotone. |
| Normalizer.MinMaxScale | stock_analyzer/models.py:58-63 | Min-max scaling keeps the length; its properties are in MinMaxProperties and MinMaxKeepsOrder. |
| Normalizer.RankScale | stock_analyzer/models.py:65-66 | Percentile ranking keeps the length; its properties are in RankInUnitInterval and RankKeepsOrder. |
| Normalizer.MinMaxProperties | stock_analyzer/models.py:58-63 | A constant series maps to all zeros. Otherwise every value lies in [0,1], 0 exactly at the minimum and 1 exactly at the maximum. |
| Normalizer.MinMaxKeepsOrder | stock_analyzer/models.py:58-63 | Min-max scaling preserves order. |
| Normalizer.RankInUnitInterval | stock_analyzer/models.py:65-66 | Percentile ranks lie in (0,1]. |
| Normalizer.RankKeepsOrder | stock_analyzer/models.py:65-66 | A smaller value gets a strictly smaller rank; equal values share their average rank. |
| Scorers.Factor | stock_analyzer/models.py:88-94 | A factor score is its input clipped to [0,1]. |
| Scorers.FactorMonotone | stock_analyzer/models.py:88-94 | Clipping is monotone. |
| Scorers.FundamentalScore | stock_analyzer/models.py:74-111 | Only ROE and debt ratio have scorers, so the score lies in [0, 0.7]. The top is reached iff ROE ≥ 1 and debt ≤ 0; zero iff ROE ≤ 0 and debt ≥ 1. |
| Scorers.FundamentalMonotone | stock_analyzer/models.py:74-111 | A higher ROE and a lower debt ratio never lower the score. |
| Scorers.FundamentalIgnoresOtherRatios | stock_analyzer/models.py:74-111 | FCF, EV/EBITDA and dividend coverage do not affect the score. |
| Scorers.MaTrend | stock_analyzer/models.py:136-138 | A zero long MA gives 0. Otherwise the result is NaN iff either MA is NaN, and (trend + 1) × long MA = short MA. |
| Scorers.TechnicalScore | stock_analyzer/models.py:113-175 | NaN iff the MA trend, ATR or ADX is NaN; otherwise within [0,1]. |
| Scorers.TechnicalScoreMonotone | stock_analyzer/models.py:136-168 | With a positive long MA, a higher short MA (a stronger trend) never lowers the technical score. |
| Scorers.TechnicalInputsOf | stock_analyzer/models.py:119-138 | The short MA is NaN iff there are fewer than 5 closes, and otherwise the mean of the last 5. The long MA is NaN iff there are fewer than 20, and otherwise the mean of the last 20. OBV is the last value of the OBV series; ATR and ADX are passed through. |
| Scorers.ShortHistoryTechnicalIsNaN | stock_analyzer/models.py:113-175 | With fewer than 20 rows the technical score is NaN. |
| Scorers.TechnicalScoreTop | stock_analyzer/models.py:147-168 | A short MA at least twice the long one, with ATR, OBV and ADX at least 1, scores exactly 1. |
| Floats.Scrub | stock_analyzer/models.py:399 | NaN becomes 0 and any other value is kept. |
| Scorers.PyMin | stock_analyzer/models.py:183 | Python `min` with a NaN first argument returns NaN; otherwise the smaller value. |
| Scorers.PyMax | stock_analyzer/models.py:185-187 | Python `max` with a NaN first argument returns NaN; otherwise the larger value. |
| Scorers.VarScore | stock_analyzer/models.py:183 | The VaR score lies in [0,1] and is 0 once \|VaR\| ≥ 0.1. |
| Scorers.SharpeScoreAsWritten | stock_analyzer/models.py:185 | The expression as written ranges over [-0.5, 1.5], not [0,1]: -0.5 from Sharpe -2 down, 1.5 from Sharpe 2 up, and (Sharpe + 1) / 2 in between. |
| Scorers.SharpeTerm | stock_analyzer/models.py:185-204 | The Sharpe term the risk score adds: 0 for Sharpe ≤ -1, 1 for Sharpe ≥ 1, and (Sharpe + 1) / 2 in between; NaN iff the Sharpe ratio is NaN. |
| Scorers.SharpeScoreAsWrittenSaturates | stock_analyzer/models.py:185 | After clipping, the written form scores Sharpe -1.5 and -1.0 both as 0. The corrected form tells them apart. |
| Scorers.SharpeScore | stock_analyzer/models.py:185 | Corrected: Sharpe in [-2,2] maps linearly onto [0,1]. |
| Scorers.SharpeScoreStrictlyIncreasing | stock_analyzer/models.py:185 | The corrected Sharpe score is strictly increasing on [-2,2]. |
| Scorers.DrawdownScore | stock_analyzer/models.py:187 | The drawdown score lies in [0,1] and is 0 once \|drawdown\| ≥ 0.5. |
| Scorers.VarScoreMonotone | stock_analyzer/models.py:183 | A larger \|VaR\| never raises the score. |
| Scorers.SharpeScoreMonotone | stock_analyzer/models.py:185-204 | A larger Sharpe never lowers the as-written score, the clamped term the risk score adds, or the intended score. |
| Scorers.DrawdownScoreMonotone | stock_analyzer/models.py:187 | A deeper drawdown never raises the score. |
| Scorers.RiskScore | stock_analyzer/models.py:177-220 | NaN iff any input is NaN. Otherwise it is 0.3 × the VaR score + 0.3 × the clamped as-written Sharpe term + 0.4 × the drawdown score, within [0,1]. |
| Scorers.RiskScoreMonotone | stock_analyzer/models.py:177-220 | Lower \|VaR\|, higher Sharpe and shallower drawdown never lower the risk score. |
| Scorers.RiskScoreExtremes | stock_analyzer/models.py:177-220 | All-zero inputs score 0.85. \|VaR\| ≥ 0.1, Sharpe ≤ -1 and \|drawdown\| ≥ 0.5 score 0. |
| Scorers.RiskScoreExamples | stock_analyzer/models.py:177-220 | VaR 0, Sharpe 0.5 and drawdown 0 score 0.925; with Sharpe 1.5 the score is already 1. |
| Scorers.SentimentScore | stock_analyzer/models.py:222-251 | No success scores 0. NaN iff the volume-adjusted sentiment is NaN. Otherwise within [0,1]. |
| Scorers.BearishMoodScoresLikeNeutral | stock_analyzer/models.py:230-233 | Non-positive sentiment and volume sentiment are clipped to a score of 0. |
| Scorers.SentimentMonotone | stock_analyzer/models.py:222-251 | A higher average sentiment never lowers the score. |
| Indicators.RollingMean | stock_analyzer/indicators.py:7-15 | The p-period mean at row i is NaN iff fewer than p rows end there. |
| Indicators.MovingAverage | stock_analyzer/indicators.py:7-15 | The loop computes the rolling mean at every row. |
| Indicators.CalculateMa | stock_analyzer/indicators.py:7-15 | One column per configured period (5, 10, 20, 60), each the rolling mean. |
| Indicators.RollingMeanOfConstant | stock_analyzer/indicators.py:7-15 | The rolling mean of a constant series is that constant. |
| Indicators.RollingMeanBounds | stock_analyzer/indicators.py:7-15 | The rolling mean lies between bounds on its window. |
| Indicators.CalculateObv | stock_analyzer/indicators.py:60-71 | The loop yields a series satisfying the OBV recurrence; an empty frame raises (None). |
| Indicators.Obv | stock_analyzer/indicators.py:60-71 | OBV has one entry per row. |
| Indicators.ObvSatisfiesRecurrence | stock_analyzer/indicators.py:60-71 | The recursive definition satisfies the loop's recurrence. |
| Indicators.CalculateObvIsObv | stock_analyzer/indicators.py:60-71 | Any series satisfying the recurrence is the recursive OBV. |
| Indicators.ObvUnique | stock_analyzer/indicators.py:60-71 | The recurrence determines OBV uniquely. |
| Indicators.ObvFlatCloses | stock_analyzer/indicators.py:64-69 | With flat closes, OBV stays at the first volume. |
| Indicators.ObvRisingMarket | stock_analyzer/indicators.py:64-69 | Non-falling closes and non-negative volumes make OBV non-decreasing. |
| Indicators.ObvOverRally | stock_analyzer/indicators.py:64-69 | Over a strict rally, OBV grows by exactly the sum of the volumes. |
| Indicators.Lookup | stock_analyzer/indicators.py:121-136 | `dict.get` with a default. |
| Indicators.CalculateFinancialRatios | stock_analyzer/indicators.py:115-149 | None iff one of the divisors (equity, EBITDA, dividends, assets, each defaulting to 1) is 0. Otherwise each ratio times its divisor is its numerator, and FCF = operating cash flow − capex. |
| Indicators.EmptyStatementRatios | stock_analyzer/indicators.py:115-149 | An empty statement gives all-zero ratios. |
| Sentiment.LabelScore | stock_analyzer/config.py:15-19 | Bullish is 1, Bearish is −1, anything else is 0. |
| Sentiment.ScoreSumCounts | stock_analyzer/sentiment_analyzer.py:42-47 | The score sum is bulls minus bears, and bulls plus bears never exceed the labelled count. |
| Sentiment.SignalOf | stock_analyzer/sentiment_analyzer.py:78-89 | BULLISH iff average > 0.6; BEARISH iff average < −0.3. |
| Sentiment.AggregateSentiment | stock_analyzer/sentiment_analyzer.py:35-76 | Insufficient data iff fewer than 10 messages; error iff a message is malformed; no sentiment iff none is labelled. On success the counts and signal agree with the messages. |
| Sentiment.SuccessRatios | stock_analyzer/sentiment_analyzer.py:56-65 | average = bullish ratio − bearish ratio; the ratios are non-negative and sum to at most 1. |
| Sentiment.AllBullish | stock_analyzer/sentiment_analyzer.py:35-70 | Ten or more bullish messages give average 1 and a BULLISH signal. |
| Sentiment.AnalyzeVolumeSentiment | stock_analyzer/sentiment_analyzer.py:91-117 | A non-success result passes through unchanged. A success keeps every field and adds the volume change and adjusted sentiment, NaN iff the change is NaN. |
| Sentiment.VolumeAdjustmentBlend | stock_analyzer/sentiment_analyzer.py:104-108 | A zero change gives 0.7 × average. A non-negative change pushes away from neutral in the average's direction. A neutral average stays 0. |
| RiskMetrics.TailPosition | stock_analyzer/risk_metrics.py:6-17 | The interpolation position for quantile 1 − confidence lies within the sample: 0 at confidence 1, the last index at confidence 0. |
| RiskMetrics.TailQuantile | stock_analyzer/risk_metrics.py:17 | The linearly interpolated quantile at 1 − confidence of the sorted returns; its properties are in TailQuantileWithinRange. |
| RiskMetrics.TailQuantileWithinRange | stock_analyzer/risk_metrics.py:6-17 | The quantile lies between the sample's minimum and maximum. |
| RiskMetrics.ValueAtRisk | stock_analyzer/risk_metrics.py:6-17 | None iff the confidence is outside [0,1] (pandas raises). NaN iff there are no returns. Otherwise non-negative. |
| RiskMetrics.ValueAtRiskBounds | stock_analyzer/risk_metrics.py:6-17 | VaR is bounded by the extreme returns, and equals −quantile when all returns are losses. |
| RiskMetrics.ValueAtRiskOfOneReturn | stock_analyzer/risk_metrics.py:6-17 | One return gives its absolute value. |
| RiskMetrics.ValueAtRiskExtremeConfidence | stock_analyzer/risk_metrics.py:6-17 | Confidence 1 gives \|min\|; confidence 0 gives \|max\|. |
| RiskMetrics.FirstArgMin | stock_analyzer/risk_metrics.py:39-40 | `idxmin`: the first index of the minimum. |
| RiskMetrics.FirstArgMax | stock_analyzer/risk_metrics.py:42 | `idxmax`: the first index of the maximum. |
| RiskMetrics.Drawdowns | stock_analyzer/risk_metrics.py:35-37 | One drawdown per day: the price over the running maximum, minus 1. |
| RiskMetrics.MaxDrawdown | stock_analyzer/risk_metrics.py:20-44 | None iff there are no prices (the error path). Otherwise `end` is the first day of the deepest drawdown, and `start` is the first highest price up to and including `end`. The depth is the absolute value of that drawdown. |
| RiskMetrics.MaxDrawdownIsLargestDecline | stock_analyzer/risk_metrics.py:20-44 | The depth, in [0,1), is the fall from start to end, and no later-after-earlier pair falls further. |
| RiskMetrics.NoDrawdownOnRisingPrices | stock_analyzer/risk_metrics.py:20-44 | Non-falling prices have depth 0 at position 0. |
| RiskMetrics.MaxDrawdownExample | stock_analyzer/risk_metrics.py:20-44 | 100, 80, 120 has depth 0.2 from day 0 to day 1. |
| Aggregator.CurrentWeights | stock_analyzer/models.py:283-285 | The weights used are positive and sum to 1; with an empty history they are the base weights. |
| Aggregator.CategoryScoresOf | stock_analyzer/models.py:295-399 | Every category score is in [0,1]. Missing ratios, indicators, risk data or sentiment success score 0. For technical, risk and sentiment, a NaN scorer result becomes 0 and a numeric result is passed through. |
| Aggregator.WeightedSum | stock_analyzer/models.py:402-405 | The final score's sum of score × weight over the four categories; its bounds, monotonicity and fixed points are in the three lemmas below. |
| Aggregator.WeightedSumInUnit | stock_analyzer/models.py:402-405 | Scores in [0,1] under normalised non-negative weights give a final score in [0,1]. |
| Aggregator.WeightedSumMonotone | stock_analyzer/models.py:402-405 | Raising any category score never lowers the final score. |
| Aggregator.WeightedSumOfEqualScores | stock_analyzer/models.py:402-405 | Equal category scores give that score as the final score. |
| Aggregator.Band | stock_analyzer/models.py:449-460 | The band index is the one whose floor the score exceeds and whose ceiling it does not. |
| Aggregator.BandMonotone | stock_analyzer/models.py:449-460 | A higher score never falls into a lower band. |
| Aggregator.InterpretScore | stock_analyzer/models.py:446-468 | The text is the band's text, then the fundamental note iff that weight > 0.5, then the technical note iff that weight > 0.4, and nothing else. |
| Aggregator.FinalScore | stock_analyzer/models.py:279-444 | The final score lies in [0,1]. It fails with the error text iff indicators are given on an empty history, and then scores 0. Otherwise it is the weighted sum of the category scores under the current weights, with its interpretation. |
| Aggregator.InterpretationIsNotError | stock_analyzer/models.py:446-468 | A real interpretation never equals the error text. |
| Aggregator.InterpretationTellsBand | stock_analyzer/models.py:446-468 | Different bands give different interpretations. |
| Aggregator.ShortHistoryScoresNoTechnical | stock_analyzer/models.py:319-359 | With fewer than 20 rows the technical category contributes 0. |
| Aggregator.EqualWeightsExample | stock_analyzer/models.py:402-460 | Equal weights with scores 0.9/0.5/0.8/0 give 0.55, read as 中性偏多 (可以考虑). |
| Validators.Missing | stock_analyzer/validators.py:41-45 | The missing columns are exactly the required ones that are absent. |
| Validators.JumpDays | stock_analyzer/validators.py:55-64 | Exactly the days whose change from the previous day exceeds the limit, in increasing order; empty iff there is no jump. |
| Validators.GapDays | stock_analyzer/validators.py:48-52 | Exactly the days more than five days after the previous row, in order. |
| Validators.ValidatePriceData | stock_analyzer/validators.py:26-70 | Valid iff the input is a frame with all required columns. An invalid report carries only the missing-columns error. A valid one carries gap, return and volume warnings, each iff it occurs. |
| Validators.SteadyPricesPassCleanly | stock_analyzer/validators.py:26-70 | Prices within ±20% a day, volumes within ×11 and no date gaps give a clean report. |
| Validators.JumpExample | stock_analyzer/validators.py:55-64 | A 25% rise is flagged, and so is a rise from 0. |
| Validators.ValidateFinancialData | stock_analyzer/validators.py:72-109 | None (raised) iff the equity is 0. A non-dict is a format error. Otherwise valid iff assets ≥ 0, with high-debt and abnormal-ROE warnings exactly when their ratios exceed the limits. |
| Validators.HealthyStatementPassesCleanly | stock_analyzer/validators.py:72-109 | Positive assets, moderate debt and ROE within bounds give a clean report. |
| Validators.WarningsAgreeWithRatios | stock_analyzer/validators.py:91-103 | The validator's warnings agree with the ratios that `calculate_financial_ratios` computes. |
| Run.UpperChar | run.py:95 | ASCII upper-casing of one character. |
| Run.Upper | run.py:95 | `str.upper` on ASCII keeps the length, maps each character, and leaves no lower case. |
| Run.UpperFixesUpperCase | run.py:95 | A string without lower case is its own upper case. |
| Run.ValidateSymbol | run.py:91-99 | Accepted iff 1 to 6 characters long; the accepted form is the upper-cased symbol. |
| Run.ValidateSymbolIdempotent | run.py:91-99 | Validating an accepted symbol again returns the same result. |
| Run.ValidateSymbolIgnoresCase | run.py:91-99 | Validation ignores letter case. |
| Run.SymbolExamples | run.py:91-99 | "aapl" becomes "AAPL"; the empty and the 7-letter symbol are rejected. |
| Run.StatusOf | run.py:137-184 | Success iff a non-empty report path; error iff the analysis raised. |
| Run.AnalyzeStocks | run.py:131-195 | At most one result per symbol. |
| Run.AnalyzeStocksKeys | run.py:131-195 | The results hold exactly the symbols that validate. |
| Run.AnalyzeStocksKey | run.py:131-195 | A given symbol is recorded iff some position validates to it. |
| Run.AnalyzeStocksLastWins | run.py:137-184 | A symbol's result is the outcome of its last occurrence. |
| Run.Tally | run.py:401-414 | Successes plus failures is the number of results, and the failures are exactly the non-successful entries. |
| Run.AllReportsSucceed | run.py:131-195 | Valid symbols that all produce reports tally with no failures. |
| Run.LastOccurrence | run.py:137-184 | Every named symbol has a last position naming it. |

## Left out

- Fetching prices, statements and StockTwits messages over HTTP, the API keys and rate limits are I/O. The messages come in as a sequence of tags.
- The standard deviation of the sentiment scores (`sentiment_std`) is reported but feeds nothing, so it is not modelled.
- IEEE floating point: infinities, rounding and overflow are not modelled. Numbers are exact reals and NaN is explicit.
- ATR and ADX use exponentially weighted means and square roots, so they are parameters. So are the annualised volatility (a square root) and the Sharpe ratio that feed the risk score and the market state.
- The 5-day mean of the volume change in `analyze_volume_sentiment` is a parameter.
- `Normalizer.NormalizeFactor`: z-score normalisation of two or more values needs a square root, so that case is excluded by the precondition. Single values, min-max, rank and unknown methods are modelled.
- `RiskMetrics.MaxDrawdown`: requires positive prices. A zero or negative price makes pandas divide by zero or give meaningless ratios.
- `RiskMetrics.ValueAtRisk`: NumPy's rounding in the quantile position is not modelled; the position is exact.
- `WeightAdjuster.AnalyzeMarketState`: a zero base in a relative change gives NaN rather than ±inf.
- `Run.Upper`: only ASCII letters are upper-cased; Unicode case mapping is not modelled.
- NaN prices inside `pct_change` are not modelled; price and volume series are real numbers.
- The thresholds `min_price`, `max_price_gap`, `min_cash_ratio` and `min_volume` are defined but never read, so they are not modelled.
- Logging, report export, PDF output, argument parsing, printing and timing are not modelled.
- The report's `raw_values`, `normalized_scores`, `technical_trends` and `risk_scores` dictionaries are not modelled. The technical-trend block feeds no score.
- Mutating the shared configuration dict between calls is covered only by `WeightAdjuster.DriftedBaseStaysNormalized`. The model passes the base weights explicitly.

## Findings

| source | as written | input that shows it | evidently intended | confidence | as-written member | corrected member |
|---|---|---|---|---|---|---|
| stock_analyzer/models.py:185 | `min(max(sharpe, -2), 2) / 2 + 0.5` spans [-0.5, 1.5], though the comment promises [0, 1]; single-value normalisation then clips it | Sharpe ratios -1.5 and -1.0 both score 0, and 1.0 and 1.5 both score 1 | `/ 4 + 0.5`, mapping [-2, 2] onto [0, 1] | not executed | Scorers.SharpeScoreAsWrittenSaturates | Scorers.SharpeScoreStrictlyIncreasing |
