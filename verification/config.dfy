/** The fixed configuration tables of the engine: base category weights,
    the per-category factor sub-weights, and the market and sentiment
    thresholds (`stock_analyzer/config.py`). */
module Config {
  import opened Weights

  /** Base category weights: fundamental 0.4, technical 0.3, risk 0.2, sentiment 0.1. */
  const BaseWeights: CategoryWeights := CategoryWeights(0.4, 0.3, 0.2, 0.1)

  datatype FundamentalFactors = FundamentalFactors(roe: real, debtRatio: real, fcf: real, evEbitda: real, dividendCoverage: real)
  datatype TechnicalFactors = TechnicalFactors(maTrend: real, atr: real, obv: real, adx: real)
  datatype RiskFactors = RiskFactors(valueAtRisk: real, sharpe: real, maxDrawdown: real)
  datatype SentimentFactors = SentimentFactors(socialScore: real, volumeSentiment: real)

  const Fundamental: FundamentalFactors := FundamentalFactors(0.4, 0.3, 0.1, 0.1, 0.1)
  const Technical: TechnicalFactors := TechnicalFactors(0.4, 0.2, 0.2, 0.2)
  const Risk: RiskFactors := RiskFactors(0.3, 0.3, 0.4)
  const Sentiment: SentimentFactors := SentimentFactors(0.6, 0.4)

  /** Market-state thresholds on the 5/20-day trend strength. */
  const BullThreshold: real := 0.2
  const BearThreshold: real := -0.2

  /** Social-sentiment settings. */
  const MinMessages: nat := 10
  const BullishThreshold: real := 0.6
  const BearishThreshold: real := -0.3
  const VolumeFactor: real := 0.3

  /** Moving-average periods of the technical indicators. */
  const MaPeriods: seq<nat> := [5, 10, 20, 60]

  /** The base category weights are positive and sum to 1. */
  lemma BaseWeightsNormalized()
    ensures BaseWeights.Positive() && BaseWeights.Normalized()
  {
  }

  /** Within each category the factor sub-weights sum to 1. */
  lemma FactorWeightsSumToOne()
    ensures Fundamental.roe + Fundamental.debtRatio + Fundamental.fcf
            + Fundamental.evEbitda + Fundamental.dividendCoverage == 1.0
    ensures Technical.maTrend + Technical.atr + Technical.obv + Technical.adx == 1.0
    ensures Risk.valueAtRisk + Risk.sharpe + Risk.maxDrawdown == 1.0
    ensures Sentiment.socialScore + Sentiment.volumeSentiment == 1.0
  {
  }

  /** The thresholds are ordered so that no value is both bullish and bearish,
      and the volume factor is a convex-combination weight. */
  lemma ThresholdsOrdered()
    ensures BearThreshold < BullThreshold
    ensures BearishThreshold < BullishThreshold
    ensures 0.0 <= VolumeFactor <= 1.0
    ensures MinMessages == 10
    ensures forall p :: p in MaPeriods ==> p >= 1
  {
  }
}
