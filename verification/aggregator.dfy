/** The final multi-factor score (`calculate_final_score` and
    `_interpret_score` in `stock_analyzer/models.py`): the adjusted weights,
    the four category scores with NaN replaced by 0, their weighted sum,
    and its verbal interpretation. */
module Aggregator {
  import opened Wrappers
  import opened Floats
  import Weights
  import Config
  import WeightAdjuster
  import Indicators
  import Sentiment
  import Scorers

  datatype CategoryScores = CategoryScores(fundamental: real, technical: real, risk: real, sentiment: real)
  {
    predicate InUnit() {
      && 0.0 <= fundamental <= 1.0 && 0.0 <= technical <= 1.0
      && 0.0 <= risk <= 1.0 && 0.0 <= sentiment <= 1.0
    }
  }

  const NoScores: CategoryScores := CategoryScores(0.0, 0.0, 0.0, 0.0)

  /** The analysis inputs: the price history (closes and volumes of one
      table), the annualised volatility and latest ATR and ADX computed from
      it, whether the technical-indicator table was supplied, the financial
      ratios (absent when they could not be computed), the risk metrics
      (absent when not supplied) and the sentiment result. */
  datatype AllData = AllData(
    closes: seq<real>,
    volumes: seq<real>,
    annualVolatility: real,
    atr: Float,
    adx: Float,
    indicators: bool,
    ratios: Option<Indicators.FinancialRatios>,
    risk: Option<Scorers.RiskInputs>,
    sentiment: Sentiment.SentimentData)

  datatype FinalReport = FinalReport(
    finalScore: real,
    scores: CategoryScores,
    weights: Weights.CategoryWeights,
    interpretation: string)

  /** The weights of this run: the base weights adjusted to the market state
      read from the price history. */
  function CurrentWeights(data: AllData): (w: Weights.CategoryWeights)
    requires |data.closes| == |data.volumes|
    ensures w.Positive() && w.Normalized()
    ensures |data.closes| == 0 ==> w == Config.BaseWeights
  {
    Config.BaseWeightsNormalized();
    WeightAdjuster.AdjustWeights(Config.BaseWeights,
      WeightAdjuster.AnalyzeMarketState(data.closes, data.volumes, data.annualVolatility))
  }

  /** The four category scores: a missing input scores 0 and a NaN score
      becomes 0. */
  function CategoryScoresOf(data: AllData): (s: CategoryScores)
    requires |data.closes| == |data.volumes|
    requires data.indicators ==> |data.closes| > 0
    ensures s.InUnit()
    ensures data.ratios.Some? ==> s.fundamental == Scorers.FundamentalScore(data.ratios.value)
    ensures data.ratios.None? ==> s.fundamental == 0.0
    ensures !data.indicators ==> s.technical == 0.0
    ensures data.indicators ==>
              var t := Scorers.TechnicalScore(Scorers.TechnicalInputsOf(data.closes, data.volumes, data.atr, data.adx));
              && (t.NaN? ==> s.technical == 0.0)
              && (t.Real? ==> s.technical == t.value)
    ensures data.risk.None? ==> s.risk == 0.0
    ensures data.risk.Some? && Scorers.RiskScore(data.risk.value).NaN? ==> s.risk == 0.0
    ensures data.risk.Some? && Scorers.RiskScore(data.risk.value).Real? ==>
              s.risk == Scorers.RiskScore(data.risk.value).value
    ensures !data.sentiment.Success? ==> s.sentiment == 0.0
    ensures Scorers.SentimentScore(data.sentiment).NaN? ==> s.sentiment == 0.0
    ensures Scorers.SentimentScore(data.sentiment).Real? ==>
              s.sentiment == Scorers.SentimentScore(data.sentiment).value
  {
    var fundamental := match data.ratios
                       case None => 0.0
                       case Some(f) => Scorers.FundamentalScore(f);
    var technical := if data.indicators
                     then Scrub(Scorers.TechnicalScore(Scorers.TechnicalInputsOf(data.closes, data.volumes, data.atr, data.adx)))
                     else 0.0;
    var risk := match data.risk
                case None => 0.0
                case Some(k) => Scrub(Scorers.RiskScore(k));
    CategoryScores(fundamental, technical, risk, Scrub(Scorers.SentimentScore(data.sentiment)))
  }

  /** The score accumulated over the categories in the order fundamental,
      technical, risk, sentiment. */
  function WeightedSum(w: Weights.CategoryWeights, s: CategoryScores): real {
    0.0 + s.fundamental * w.fundamental + s.technical * w.technical
        + s.risk * w.risk + s.sentiment * w.sentiment
  }

  lemma ProductWithin(score: real, weight: real) returns (p: real)
    requires 0.0 <= score <= 1.0 && weight >= 0.0
    ensures p == score * weight && 0.0 <= p <= weight
  {
    p := score * weight;
    var rest := 1.0 - score;
    assert rest * weight >= 0.0;
    assert weight - p == rest * weight;
    assert p <= weight;
    assert p >= 0.0;
  }

  /** With nonnegative weights summing to 1 and scores in [0, 1], the
      weighted sum lies in [0, 1]. */
  lemma WeightedSumInUnit(w: Weights.CategoryWeights, s: CategoryScores)
    requires w.fundamental >= 0.0 && w.technical >= 0.0 && w.risk >= 0.0 && w.sentiment >= 0.0
    requires w.Normalized() && s.InUnit()
    ensures 0.0 <= WeightedSum(w, s) <= 1.0
  {
    var a := ProductWithin(s.fundamental, w.fundamental);
    var b := ProductWithin(s.technical, w.technical);
    var c := ProductWithin(s.risk, w.risk);
    var d := ProductWithin(s.sentiment, w.sentiment);
    SumWithin(a, b, c, d, w.fundamental, w.technical, w.risk, w.sentiment);
  }

  lemma SumWithin(a: real, b: real, c: real, d: real, p: real, q: real, u: real, v: real)
    requires 0.0 <= a <= p && 0.0 <= b <= q && 0.0 <= c <= u && 0.0 <= d <= v
    ensures 0.0 <= 0.0 + a + b + c + d <= p + q + u + v
  {
  }

  lemma ProductMonotone(a: real, b: real, weight: real)
    requires a <= b && weight >= 0.0
    ensures a * weight <= b * weight
  {
    assert b * weight - a * weight == (b - a) * weight;
  }

  /** Raising any category score never lowers the weighted sum. */
  lemma WeightedSumMonotone(w: Weights.CategoryWeights, s: CategoryScores, t: CategoryScores)
    requires w.fundamental >= 0.0 && w.technical >= 0.0 && w.risk >= 0.0 && w.sentiment >= 0.0
    requires s.fundamental <= t.fundamental && s.technical <= t.technical
    requires s.risk <= t.risk && s.sentiment <= t.sentiment
    ensures WeightedSum(w, s) <= WeightedSum(w, t)
  {
    ProductMonotone(s.fundamental, t.fundamental, w.fundamental);
    ProductMonotone(s.technical, t.technical, w.technical);
    ProductMonotone(s.risk, t.risk, w.risk);
    ProductMonotone(s.sentiment, t.sentiment, w.sentiment);
  }

  /** With normalised weights the sum is a weighted average: equal scores
      give that score back. */
  lemma WeightedSumOfEqualScores(w: Weights.CategoryWeights, c: real)
    requires w.Normalized()
    ensures WeightedSum(w, CategoryScores(c, c, c, c)) == c
  {
    assert WeightedSum(w, CategoryScores(c, c, c, c)) == c * w.Total();
  }

  /** The text reported when the calculation raises. */
  const ErrorText: string := "计算错误"

  /** Lower bounds of the interpretation bands above the lowest. */
  const BandFloors: seq<real> := [0.0, 0.2, 0.4, 0.6, 0.8]

  /** The band texts, from the lowest band to the highest. */
  const BandTexts: seq<string> := [
    "看空 (建议规避)",
    "中性偏空 (暂不建议)",
    "中性 (建议观望)",
    "中性偏多 (可以考虑)",
    "看多 (较好的投资机会)",
    "强烈看多 (非常好的投资机会)"]

  const FundamentalNote: string := "\n基本面因素权重较高"
  const TechnicalNote: string := "\n技术面因素权重较高"

  /** The band of a score: the number of band floors it strictly exceeds. */
  function Band(score: real): (b: nat)
    ensures b < |BandTexts|
    ensures b > 0 ==> score > BandFloors[b - 1]
    ensures b < |BandFloors| ==> score <= BandFloors[b]
  {
    if score > 0.8 then 5
    else if score > 0.6 then 4
    else if score > 0.4 then 3
    else if score > 0.2 then 2
    else if score > 0.0 then 1
    else 0
  }

  /** A higher score never falls into a lower band. */
  lemma BandMonotone(a: real, b: real)
    requires a <= b
    ensures Band(a) <= Band(b)
  {
  }

  /** Whether `s` occurs in `text` starting at position `i`. */
  predicate OccursAt(text: string, i: nat, s: string) {
    i + |s| <= |text| && text[i..i + |s|] == s
  }

  /** `_interpret_score`: the band text, then a note that the fundamental
      weight is high (above 0.5), then one that the technical weight is high
      (above 0.4), and nothing else. */
  function InterpretScore(score: real, w: Weights.CategoryWeights): (r: string)
    ensures OccursAt(r, 0, BandTexts[Band(score)])
    ensures OccursAt(r, |BandTexts[Band(score)]|, FundamentalNote) <==> w.fundamental > 0.5
    ensures OccursAt(r, |BandTexts[Band(score)]| + (if w.fundamental > 0.5 then |FundamentalNote| else 0), TechnicalNote)
            <==> w.technical > 0.4
    ensures |r| == |BandTexts[Band(score)]|
                   + (if w.fundamental > 0.5 then |FundamentalNote| else 0)
                   + (if w.technical > 0.4 then |TechnicalNote| else 0)
  {
    var band := BandTexts[Band(score)];
    var fundamental := if w.fundamental > 0.5 then FundamentalNote else "";
    var technical := if w.technical > 0.4 then TechnicalNote else "";
    var r := band + fundamental + technical;
    assert r[..|band|] == band;
    assert r[|band|..|band| + |fundamental|] == fundamental;
    assert r[|band| + |fundamental|..] == technical;
    assert w.fundamental <= 0.5 && w.technical > 0.4 ==> r[|band|..|band| + |FundamentalNote|] != FundamentalNote by {
      if w.fundamental <= 0.5 && w.technical > 0.4 {
        assert r[|band|..|band| + |FundamentalNote|] == TechnicalNote;
        assert FundamentalNote[1] != TechnicalNote[1];
      }
    }
    r
  }

  /** The `calculate_final_score` result. When the technical-indicator table
      is supplied for an empty price history, reading its last values
      raises and the report is the error report: score 0, all category
      scores 0, the interpretation "计算错误". Otherwise the final score is
      the weighted sum of the category scores, in [0, 1], and is
      interpreted. Either way the report carries the adjusted weights. */
  function FinalScore(data: AllData): (r: FinalReport)
    requires |data.closes| == |data.volumes|
    ensures r.weights == CurrentWeights(data)
    ensures 0.0 <= r.finalScore <= 1.0
    ensures r.scores.InUnit()
    ensures r.interpretation == ErrorText <==> data.indicators && |data.closes| == 0
    ensures r.interpretation == ErrorText ==> r.finalScore == 0.0 && r.scores == NoScores
    ensures r.interpretation != ErrorText ==>
              && r.scores == CategoryScoresOf(data)
              && r.finalScore == WeightedSum(r.weights, r.scores)
              && r.interpretation == InterpretScore(r.finalScore, r.weights)
  {
    var weights := CurrentWeights(data);
    if data.indicators && |data.closes| == 0 then
      FinalReport(0.0, NoScores, weights, ErrorText)
    else
      var scores := CategoryScoresOf(data);
      var total := WeightedSum(weights, scores);
      WeightedSumInUnit(weights, scores);
      var text := InterpretScore(total, weights);
      InterpretationIsNotError(total, weights);
      FinalReport(total, scores, weights, text)
  }

  /** No interpretation reads as the error text. */
  lemma InterpretationIsNotError(score: real, w: Weights.CategoryWeights)
    ensures InterpretScore(score, w) != ErrorText
  {
    var r := InterpretScore(score, w);
    assert r[0] == BandTexts[Band(score)][0];
    assert BandTexts[Band(score)][0] != ErrorText[0];
  }

  /** Different bands give different interpretations, whatever the
      weights: the text tells the band. */
  lemma InterpretationTellsBand(a: real, v: Weights.CategoryWeights, b: real, w: Weights.CategoryWeights)
    requires Band(a) != Band(b)
    ensures InterpretScore(a, v) != InterpretScore(b, w)
  {
    var x, y := InterpretScore(a, v), InterpretScore(b, w);
    assert x[..4] == BandTexts[Band(a)][..4];
    assert y[..4] == BandTexts[Band(b)][..4];
    BandPrefixesDistinct(Band(a), Band(b));
  }

  lemma BandPrefixesDistinct(i: nat, j: nat)
    requires i < |BandTexts| && j < |BandTexts| && i != j
    ensures BandTexts[i][..4] != BandTexts[j][..4]
  {
    var p: seq<string> := ["看空 (", "中性偏空", "中性 (", "中性偏多", "看多 (", "强烈看多"];
    assert BandTexts[0][..4] == p[0];
    assert BandTexts[1][..4] == p[1];
    assert BandTexts[2][..4] == p[2];
    assert BandTexts[3][..4] == p[3];
    assert BandTexts[4][..4] == p[4];
    assert BandTexts[5][..4] == p[5];
    assert p[i] != p[j];
  }

  /** A price history shorter than the 20-day average leaves the technical
      score NaN, and it enters the final score as 0. */
  lemma ShortHistoryScoresNoTechnical(data: AllData)
    requires |data.closes| == |data.volumes| && 0 < |data.closes| < 20
    ensures CategoryScoresOf(data).technical == 0.0
  {
    Scorers.ShortHistoryTechnicalIsNaN(data.closes, data.volumes, data.atr, data.adx);
  }

  /** Category scores 0.9, 0.5, 0.8 and 0 under equal weights give 0.55,
      read as "中性偏多", with no weight note. */
  lemma EqualWeightsExample()
    ensures var w := Weights.CategoryWeights(0.25, 0.25, 0.25, 0.25);
            var total := WeightedSum(w, CategoryScores(0.9, 0.5, 0.8, 0.0));
            && total == 0.55
            && InterpretScore(total, w) == "中性偏多 (可以考虑)"
  {
    var w := Weights.CategoryWeights(0.25, 0.25, 0.25, 0.25);
    assert Band(0.55) == 3;
    assert InterpretScore(0.55, w) == BandTexts[3] + "" + "";
  }
}
