/** The four category scorers of `MultiFactorModel`
    (`stock_analyzer/models.py`). Every factor value goes through the
    single-value path of `normalize_factor`, so each factor score is the
    value clamped to [0, 1], and the category score is the sub-weighted sum
    of the factor scores. */
module Scorers {
  import opened Floats
  import opened Normalizer
  import opened Indicators
  import opened Sentiment
  import Config
  import Stats

  /** `float(normalize_factor(np.array([x]), 'minmax')[0])`. */
  function Factor(x: real): (r: real)
    ensures 0.0 <= r <= 1.0
    ensures 0.0 <= x <= 1.0 ==> r == x
    ensures x <= 0.0 ==> r == 0.0
    ensures x >= 1.0 ==> r == 1.0
  {
    NormalizeSingle(Real(x), MinMax).value
  }

  lemma FactorMonotone(x: real, y: real)
    requires x <= y
    ensures Factor(x) <= Factor(y)
  {
    ClampMonotone(x, y, 0.0, 1.0);
  }

  // ---------------------------------------------------------------------
  // Fundamental
  // ---------------------------------------------------------------------

  /** The greatest fundamental score: the three factors that are always
      scored 0 (FCF, EV/EBITDA, dividend coverage) cap it at 0.7. */
  const FundamentalCap: real := Config.Fundamental.roe + Config.Fundamental.debtRatio

  /** `calculate_fundamental_score`: ROE and one minus the debt ratio, each
      clamped to [0, 1], under the ROE and debt-ratio sub-weights; the other
      three factors are fixed at 0. */
  function FundamentalScore(f: FinancialRatios): (r: real)
    ensures 0.0 <= r <= FundamentalCap
    ensures r == FundamentalCap <==> f.roe >= 1.0 && f.debtRatio <= 0.0
    ensures r == 0.0 <==> f.roe <= 0.0 && f.debtRatio >= 1.0
  {
    var w := Config.Fundamental;
    w.roe * Factor(f.roe) + w.debtRatio * Factor(1.0 - f.debtRatio)
    + w.fcf * 0.0 + w.evEbitda * 0.0 + w.dividendCoverage * 0.0
  }

  /** A higher ROE or a lower debt ratio never lowers the score. */
  lemma FundamentalMonotone(a: FinancialRatios, b: FinancialRatios)
    requires a.roe <= b.roe && a.debtRatio >= b.debtRatio
    ensures FundamentalScore(a) <= FundamentalScore(b)
  {
    FactorMonotone(a.roe, b.roe);
    FactorMonotone(1.0 - a.debtRatio, 1.0 - b.debtRatio);
  }

  /** Free cash flow, EV/EBITDA and dividend coverage do not affect it. */
  lemma FundamentalIgnoresOtherRatios(a: FinancialRatios, b: FinancialRatios)
    requires a.roe == b.roe && a.debtRatio == b.debtRatio
    ensures FundamentalScore(a) == FundamentalScore(b)
  {
  }

  // ---------------------------------------------------------------------
  // Technical
  // ---------------------------------------------------------------------

  /** The latest values the technical scorer reads: the 5- and 20-day moving
      averages, ATR, OBV and ADX. */
  datatype TechnicalInputs = TechnicalInputs(maShort: Float, maLong: Float, atr: Float, obv: real, adx: Float)

  /** `(ma_short / ma_long - 1) if ma_long != 0 else 0`. NaN is not equal to
      0, so a NaN average gives a NaN trend. */
  function MaTrend(maShort: Float, maLong: Float): (r: Float)
    ensures maLong == Real(0.0) ==> r == Real(0.0)
    ensures maLong != Real(0.0) ==> (r.NaN? <==> maShort.NaN? || maLong.NaN?)
    ensures maShort.Real? && maLong.Real? && maLong.value != 0.0 ==>
              r.Real? && (r.value + 1.0) * maLong.value == maShort.value
  {
    if maLong == Real(0.0) then Real(0.0)
    else if maShort.NaN? || maLong.NaN? then NaN
    else Real(maShort.value / maLong.value - 1.0)
  }

  /** `calculate_technical_score`: MA trend, ATR, OBV and ADX, each clamped
      to [0, 1], under the sub-weights 0.4, 0.2, 0.2, 0.2. A NaN input makes
      the score NaN. */
  function TechnicalScore(t: TechnicalInputs): (r: Float)
    ensures r.NaN? <==> MaTrend(t.maShort, t.maLong).NaN? || t.atr.NaN? || t.adx.NaN?
    ensures r.Real? ==> 0.0 <= r.value <= 1.0
  {
    var w := Config.Technical;
    Add(Add(Add(Times(NormalizeSingle(MaTrend(t.maShort, t.maLong), MinMax), w.maTrend),
                Times(NormalizeSingle(t.atr, MinMax), w.atr)),
            Times(NormalizeSingle(Real(t.obv), MinMax), w.obv)),
        Times(NormalizeSingle(t.adx, MinMax), w.adx))
  }

  /** The latest technical inputs read from the price history: the moving
      averages of the closes, the last OBV value, and ATR and ADX as given
      (their exponential smoothing is not modelled). */
  function TechnicalInputsOf(closes: seq<real>, volumes: seq<real>, atr: Float, adx: Float): (t: TechnicalInputs)
    requires |closes| == |volumes| && |closes| > 0
    ensures t.maShort.NaN? <==> |closes| < 5
    ensures t.maLong.NaN? <==> |closes| < 20
    ensures t.maShort.Real? ==> t.maShort.value == Stats.WindowMean(closes, 5)
    ensures t.maLong.Real? ==> t.maLong.value == Stats.WindowMean(closes, 20)
    ensures t.obv == Obv(closes, volumes)[|closes| - 1]
    ensures t.atr == atr && t.adx == adx
  {
    var last := |closes| - 1;
    assert closes[..last + 1] == closes;
    TechnicalInputs(RollingMean(closes, 5, last), RollingMean(closes, 20, last),
                    atr, Obv(closes, volumes)[last], adx)
  }

  /** With fewer than 20 closes the 20-day average is NaN, so the technical
      score is NaN whatever the other indicators are. */
  lemma ShortHistoryTechnicalIsNaN(closes: seq<real>, volumes: seq<real>, atr: Float, adx: Float)
    requires |closes| == |volumes| && 0 < |closes| < 20
    ensures TechnicalScore(TechnicalInputsOf(closes, volumes, atr, adx)).NaN?
  {
  }

  lemma QuotientAtLeast(s: real, l: real)
    requires l > 0.0 && s >= 2.0 * l
    ensures s / l - 1.0 >= 1.0
  {
    assert s / l >= 2.0 * l / l;
  }

  /** With a positive long average, a higher short average (a stronger
      uptrend) never lowers the technical score. */
  lemma TechnicalScoreMonotone(t: TechnicalInputs, maShort: real)
    requires t.maShort.Real? && t.maLong.Real? && t.maLong.value > 0.0
    requires t.atr.Real? && t.adx.Real?
    requires t.maShort.value <= maShort
    ensures TechnicalScore(t).value <= TechnicalScore(t.(maShort := Real(maShort))).value
  {
    var u := t.(maShort := Real(maShort));
    TrendTermMonotone(t.maShort.value, maShort, t.maLong.value);
    TechnicalScoreSplit(t);
    TechnicalScoreSplit(u);
    assert OtherIndicators(u) == OtherIndicators(t);
  }

  lemma TrendTermMonotone(a: real, b: real, l: real)
    requires a <= b && l > 0.0
    ensures MaTrend(Real(a), Real(l)).Real? && MaTrend(Real(b), Real(l)).Real?
    ensures NormalizeSingle(MaTrend(Real(a), Real(l)), MinMax).value
            <= NormalizeSingle(MaTrend(Real(b), Real(l)), MinMax).value
  {
    QuotientMonotone(a, b, l);
    NormalizeSingleMonotone(a / l - 1.0, b / l - 1.0, MinMax);
  }

  /** The technical score as the trend term plus what the other indicators
      add. */
  lemma TechnicalScoreSplit(t: TechnicalInputs)
    requires MaTrend(t.maShort, t.maLong).Real? && t.atr.Real? && t.adx.Real?
    ensures TechnicalScore(t).value
            == Config.Technical.maTrend * NormalizeSingle(MaTrend(t.maShort, t.maLong), MinMax).value
               + OtherIndicators(t)
  {
  }

  /** What ATR, OBV and ADX add to the technical score. */
  function OtherIndicators(t: TechnicalInputs): real
    requires t.atr.Real? && t.adx.Real?
  {
    var w := Config.Technical;
    NormalizeSingle(t.atr, MinMax).value * w.atr + NormalizeSingle(Real(t.obv), MinMax).value * w.obv
    + NormalizeSingle(t.adx, MinMax).value * w.adx
  }

  lemma QuotientMonotone(a: real, b: real, l: real)
    requires a <= b && l > 0.0
    ensures a / l <= b / l
  {
    assert b / l - a / l == (b - a) / l;
  }

  /** A strong uptrend with saturated indicators scores the full 1. */
  lemma TechnicalScoreTop(t: TechnicalInputs)
    requires t.maShort.Real? && t.maLong.Real? && t.maLong.value > 0.0
    requires t.maShort.value >= 2.0 * t.maLong.value
    requires t.atr.Real? && t.atr.value >= 1.0 && t.obv >= 1.0 && t.adx.Real? && t.adx.value >= 1.0
    ensures TechnicalScore(t) == Real(1.0)
  {
    var s, l := t.maShort.value, t.maLong.value;
    QuotientAtLeast(s, l);
    assert NormalizeSingle(MaTrend(t.maShort, t.maLong), MinMax) == Real(1.0);
    assert NormalizeSingle(t.atr, MinMax) == Real(1.0);
    assert NormalizeSingle(Real(t.obv), MinMax) == Real(1.0);
    assert NormalizeSingle(t.adx, MinMax) == Real(1.0);
  }

  // ---------------------------------------------------------------------
  // Risk
  // ---------------------------------------------------------------------

  /** The risk metrics the scorer reads: 95% VaR, Sharpe ratio and maximum
      drawdown (a missing key reads as 0). */
  datatype RiskInputs = RiskInputs(valueAtRisk: Float, sharpe: Float, maxDrawdown: Float)

  function AbsF(x: Float): (r: Float)
    ensures r.NaN? <==> x.NaN?
    ensures r.Real? ==> r.value == Abs(x.value)
  {
    match x
    case Real(v) => Real(Abs(v))
    case NaN => NaN
  }

  /** Python's `min(x, c)`: `c` only when `c < x`, so a NaN `x` survives. */
  function PyMin(x: Float, c: real): (r: Float)
    ensures r.NaN? <==> x.NaN?
    ensures r.Real? ==> r.value <= c && r.value <= x.value && (r.value == c || r.value == x.value)
  {
    match x
    case Real(v) => if c < v then Real(c) else x
    case NaN => NaN
  }

  /** Python's `max(x, c)`: `c` only when `c > x`, so a NaN `x` survives. */
  function PyMax(x: Float, c: real): (r: Float)
    ensures r.NaN? <==> x.NaN?
    ensures r.Real? ==> r.value >= c && r.value >= x.value && (r.value == c || r.value == x.value)
  {
    match x
    case Real(v) => if c > v then Real(c) else x
    case NaN => NaN
  }

  /** `1 - min(|VaR|, 0.1) * 10`: 1 for no loss, falling to 0 at a 10% VaR. */
  function VarScore(v: Float): (r: Float)
    ensures r.NaN? <==> v.NaN?
    ensures r.Real? ==> 0.0 <= r.value <= 1.0
    ensures v.Real? && Abs(v.value) >= 0.1 ==> r == Real(0.0)
  {
    match PyMin(AbsF(v), 0.1)
    case Real(m) => Real(1.0 - m * 10.0)
    case NaN => NaN
  }

  /** The Sharpe score as the source computes it,
      `min(max(sharpe, -2), 2) / 2 + 0.5`. Its comment promises a mapping
      onto [0, 1], but the formula spans [-0.5, 1.5]. */
  function SharpeScoreAsWritten(s: Float): (r: Float)
    ensures r.NaN? <==> s.NaN?
    ensures r.Real? ==> -0.5 <= r.value <= 1.5
    ensures s.Real? && s.value <= -2.0 ==> r == Real(-0.5)
    ensures s.Real? && s.value >= 2.0 ==> r == Real(1.5)
    ensures s.Real? && -2.0 <= s.value <= 2.0 ==> r == Real((s.value + 1.0) / 2.0)
  {
    match PyMin(PyMax(s, -2.0), 2.0)
    case Real(m) => Real(m / 2.0 + 0.5)
    case NaN => NaN
  }

  /** The as-written formula leaves [0, 1] at both ends of the clip range,
      and after the clamp of `normalize_factor` every Sharpe ratio at or
      below -1 scores 0: a ratio of -1 and one of -1.5 are
      indistinguishable. */
  lemma SharpeScoreAsWrittenSaturates()
    ensures SharpeScoreAsWritten(Real(-2.0)) == Real(-0.5)
    ensures SharpeScoreAsWritten(Real(2.0)) == Real(1.5)
    ensures NormalizeSingle(SharpeScoreAsWritten(Real(-1.5)), MinMax) == Real(0.0)
    ensures NormalizeSingle(SharpeScoreAsWritten(Real(-1.0)), MinMax) == Real(0.0)
    ensures SharpeScore(Real(-1.5)) != SharpeScore(Real(-1.0))
  {
  }

  /** The Sharpe term the risk scorer adds up: the as-written score clamped
      to [0, 1] by the single-value path of `normalize_factor`. Only ratios
      in [-1, 1] are told apart; the clip at -2 and 2 never takes effect. */
  function SharpeTerm(s: Float): (r: Float)
    ensures r.NaN? <==> s.NaN?
    ensures r.Real? ==> 0.0 <= r.value <= 1.0
    ensures s.Real? && s.value <= -1.0 ==> r == Real(0.0)
    ensures s.Real? && s.value >= 1.0 ==> r == Real(1.0)
    ensures s.Real? && -1.0 <= s.value <= 1.0 ==> r == Real((s.value + 1.0) / 2.0)
  {
    NormalizeSingle(SharpeScoreAsWritten(s), MinMax)
  }

  /** The Sharpe score as intended: the clip range [-2, 2] mapped linearly
      onto [0, 1], `min(max(sharpe, -2), 2) / 4 + 0.5`. */
  function SharpeScore(s: Float): (r: Float)
    ensures r.NaN? <==> s.NaN?
    ensures r.Real? ==> 0.0 <= r.value <= 1.0
    ensures s.Real? && s.value <= -2.0 ==> r == Real(0.0)
    ensures s.Real? && s.value >= 2.0 ==> r == Real(1.0)
    ensures s.Real? && -2.0 <= s.value <= 2.0 ==> r == Real((s.value + 2.0) / 4.0)
  {
    match PyMin(PyMax(s, -2.0), 2.0)
    case Real(m) => Real(m / 4.0 + 0.5)
    case NaN => NaN
  }

  /** Inside the clip range the intended score is strictly increasing, so
      distinct Sharpe ratios stay distinguishable. */
  lemma SharpeScoreStrictlyIncreasing(a: real, b: real)
    requires -2.0 <= a < b <= 2.0
    ensures SharpeScore(Real(a)).value < SharpeScore(Real(b)).value
  {
  }

  /** `1 - min(|max drawdown|, 0.5) * 2`: 1 for no drawdown, 0 from 50%. */
  function DrawdownScore(d: Float): (r: Float)
    ensures r.NaN? <==> d.NaN?
    ensures r.Real? ==> 0.0 <= r.value <= 1.0
    ensures d.Real? && Abs(d.value) >= 0.5 ==> r == Real(0.0)
  {
    match PyMin(AbsF(d), 0.5)
    case Real(m) => Real(1.0 - m * 2.0)
    case NaN => NaN
  }

  lemma VarScoreMonotone(a: real, b: real)
    requires Abs(a) <= Abs(b)
    ensures VarScore(Real(b)).value <= VarScore(Real(a)).value
  {
  }

  /** A higher Sharpe ratio never lowers its score: neither the as-written
      score, nor the clamped term the risk scorer uses, nor the intended
      score. */
  lemma SharpeScoreMonotone(a: real, b: real)
    requires a <= b
    ensures SharpeScoreAsWritten(Real(a)).value <= SharpeScoreAsWritten(Real(b)).value
    ensures SharpeTerm(Real(a)).value <= SharpeTerm(Real(b)).value
    ensures SharpeScore(Real(a)).value <= SharpeScore(Real(b)).value
  {
    NormalizeSingleMonotone(SharpeScoreAsWritten(Real(a)).value, SharpeScoreAsWritten(Real(b)).value, MinMax);
  }

  lemma DrawdownScoreMonotone(a: real, b: real)
    requires Abs(a) <= Abs(b)
    ensures DrawdownScore(Real(b)).value <= DrawdownScore(Real(a)).value
  {
  }

  /** `calculate_risk_score`: the three risk scores, clamped to [0, 1]
      (which leaves the VaR and drawdown scores unchanged and cuts the
      as-written Sharpe score back into [0, 1]), under the sub-weights 0.3,
      0.3, 0.4. */
  function RiskScore(k: RiskInputs): (r: Float)
    ensures r.NaN? <==> k.valueAtRisk.NaN? || k.sharpe.NaN? || k.maxDrawdown.NaN?
    ensures r.Real? ==> 0.0 <= r.value <= 1.0
    ensures r.Real? ==> r.value == Config.Risk.valueAtRisk * VarScore(k.valueAtRisk).value
                                   + Config.Risk.sharpe * SharpeTerm(k.sharpe).value
                                   + Config.Risk.maxDrawdown * DrawdownScore(k.maxDrawdown).value
  {
    var w := Config.Risk;
    Add(Add(Times(NormalizeSingle(VarScore(k.valueAtRisk), MinMax), w.valueAtRisk),
            Times(NormalizeSingle(SharpeScoreAsWritten(k.sharpe), MinMax), w.sharpe)),
        Times(NormalizeSingle(DrawdownScore(k.maxDrawdown), MinMax), w.maxDrawdown))
  }

  /** A position that is no riskier on every metric (smaller VaR and
      drawdown in magnitude, Sharpe ratio at least as high) never scores
      lower. */
  lemma RiskScoreMonotone(safer: RiskInputs, riskier: RiskInputs)
    requires safer.valueAtRisk.Real? && safer.sharpe.Real? && safer.maxDrawdown.Real?
    requires riskier.valueAtRisk.Real? && riskier.sharpe.Real? && riskier.maxDrawdown.Real?
    requires Abs(safer.valueAtRisk.value) <= Abs(riskier.valueAtRisk.value)
    requires safer.sharpe.value >= riskier.sharpe.value
    requires Abs(safer.maxDrawdown.value) <= Abs(riskier.maxDrawdown.value)
    ensures RiskScore(riskier).value <= RiskScore(safer).value
  {
    VarScoreMonotone(safer.valueAtRisk.value, riskier.valueAtRisk.value);
    SharpeScoreMonotone(riskier.sharpe.value, safer.sharpe.value);
    DrawdownScoreMonotone(safer.maxDrawdown.value, riskier.maxDrawdown.value);
  }

  /** No risk at all scores 0.85 (a zero Sharpe ratio is the midpoint);
      the worst case on every metric scores 0, and for the Sharpe ratio the
      worst case already starts at -1. */
  lemma RiskScoreExtremes(k: RiskInputs)
    ensures RiskScore(RiskInputs(Real(0.0), Real(0.0), Real(0.0))) == Real(0.85)
    ensures k.valueAtRisk.Real? && Abs(k.valueAtRisk.value) >= 0.1
            && k.sharpe.Real? && k.sharpe.value <= -1.0
            && k.maxDrawdown.Real? && Abs(k.maxDrawdown.value) >= 0.5
            ==> RiskScore(k) == Real(0.0)
  {
  }

  /** A Sharpe ratio of 0.5 is worth 0.75 of its weight, and one of 1.5
      already the full weight. */
  lemma RiskScoreExamples()
    ensures RiskScore(RiskInputs(Real(0.0), Real(0.5), Real(0.0))) == Real(0.925)
    ensures RiskScore(RiskInputs(Real(0.0), Real(1.5), Real(0.0))) == Real(1.0)
  {
  }

  // ---------------------------------------------------------------------
  // Sentiment
  // ---------------------------------------------------------------------

  /** `calculate_sentiment_score`: 0 unless the sentiment status is
      success; otherwise the average sentiment and the volume-adjusted
      sentiment (0 when absent), each clamped to [0, 1] by the default
      method's single-value path, under the sub-weights 0.6 and 0.4. */
  function SentimentScore(d: SentimentData): (r: Float)
    ensures !d.Success? ==> r == Real(0.0)
    ensures r.NaN? <==> d.Success? && d.volume.Adjusted? && d.volume.sentiment.NaN?
    ensures r.Real? ==> 0.0 <= r.value <= 1.0
  {
    if !d.Success? then Real(0.0)
    else
      var w := Config.Sentiment;
      var volume := if d.volume.Adjusted? then d.volume.sentiment else Real(0.0);
      Add(Times(NormalizeSingle(Real(d.average), ZScore), w.socialScore),
          Times(NormalizeSingle(volume, ZScore), w.volumeSentiment))
  }

  /** Clamping at 0 makes every non-positive mood score the same as a
      neutral one: a bearish crowd with falling volume scores 0. */
  lemma BearishMoodScoresLikeNeutral(d: SentimentData)
    requires d.Success? && d.average <= 0.0
    requires d.volume.NotAdjusted? || (d.volume.sentiment.Real? && d.volume.sentiment.value <= 0.0)
    ensures SentimentScore(d) == Real(0.0)
  {
    var volume := if d.volume.Adjusted? then d.volume.sentiment else Real(0.0);
    assert NormalizeSingle(Real(d.average), ZScore) == Real(0.0);
    assert NormalizeSingle(volume, ZScore) == Real(0.0);
  }

  /** A more bullish average never lowers the score. */
  lemma SentimentMonotone(d: SentimentData, average: real)
    requires d.Success? && d.average <= average
    requires d.volume.NotAdjusted? || d.volume.sentiment.Real?
    ensures SentimentScore(d).value <= SentimentScore(d.(average := average)).value
  {
    NormalizeSingleMonotone(d.average, average, ZScore);
  }
}
