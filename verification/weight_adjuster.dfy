/** The adaptive weight adjuster (`stock_analyzer/weight_adjuster.py`):
    market-state analysis, six-way regime classification, and three
    multiplicative passes (regime, volatility, volume), each followed by
    renormalisation. Every pass is a pure function returning a new weight
    map; on any failure the base weights come back unchanged. */
module WeightAdjuster {
  import opened Wrappers
  import opened Floats
  import opened Weights
  import Config
  import Stats

  datatype MarketType =
    | SteadyBull | VolatileBull
    | SteadyBear | VolatileBear
    | SteadySideways | VolatileSideways
  {
    predicate IsBull() { SteadyBull? || VolatileBull? }
    predicate IsBear() { SteadyBear? || VolatileBear? }
    predicate IsVolatile() { VolatileBull? || VolatileBear? || VolatileSideways? }
  }

  /** Annualised volatility above which a regime is the VOLATILE variant. */
  const VolatileAbove: real := 0.3

  /** Rolling window of the market-state analysis. */
  const Window: nat := 20

  /** `_classify_market`: the bull test first, then the bear test, else
      sideways; the VOLATILE variant exactly when volatility exceeds 0.3.
      NaN fails every test, so a NaN trend is sideways and a NaN volatility
      is steady. */
  function ClassifyMarket(trend: Float, volatility: Float): (m: MarketType)
    ensures m.IsBull() <==> Gt(trend, Config.BullThreshold)
    ensures m.IsBear() <==> Lt(trend, Config.BearThreshold)
    ensures m.IsVolatile() <==> Gt(volatility, VolatileAbove)
  {
    if Gt(trend, Config.BullThreshold) then
      (if Gt(volatility, VolatileAbove) then VolatileBull else SteadyBull)
    else if Lt(trend, Config.BearThreshold) then
      (if Gt(volatility, VolatileAbove) then VolatileBear else SteadyBear)
    else
      (if Gt(volatility, VolatileAbove) then VolatileSideways else SteadySideways)
  }

  lemma ClassifyExamples()
    ensures ClassifyMarket(Real(0.25), Real(0.35)) == VolatileBull
    ensures ClassifyMarket(Real(-0.25), Real(0.1)) == SteadyBear
    ensures ClassifyMarket(Real(0.0), Real(0.5)) == VolatileSideways
    ensures ClassifyMarket(NaN, NaN) == SteadySideways
  {
  }

  /** The dictionary returned by `analyze_market_state`. */
  datatype MarketState = MarketState(trendStrength: Float, volatility: Float, volumeTrend: Float, marketType: MarketType)

  /** `x / base - 1`. A zero base is `0/0`, NaN (see README for the
      non-zero numerator). */
  function RelativeChange(x: real, base: real): Float {
    if base == 0.0 then NaN else Real(x / base - 1.0)
  }

  /** `analyze_market_state` with the default 20-period window.
      `annualVolatility` is the standard deviation of the last 20 returns
      scaled by sqrt(252), computed outside the model; pandas yields it only
      when 20 returns, hence 21 closes, exist, and NaN otherwise. Trend
      strength is MA5/MA20 - 1 and volume trend is latest volume over its
      20-period mean, minus 1, both NaN with fewer than 20 rows. An empty
      frame makes `iloc[-1]` raise, and the analysis returns None. */
  function AnalyzeMarketState(closes: seq<real>, volumes: seq<real>, annualVolatility: real): (r: Option<MarketState>)
    requires |closes| == |volumes|
    ensures r.None? <==> |closes| == 0
    ensures r.Some? ==> r.value.marketType == ClassifyMarket(r.value.trendStrength, r.value.volatility)
    ensures r.Some? && |closes| < Window ==>
              r.value.trendStrength.NaN? && r.value.volumeTrend.NaN? && r.value.marketType == SteadySideways
    ensures r.Some? && |closes| >= Window ==>
              r.value.trendStrength == RelativeChange(Stats.WindowMean(closes, 5), Stats.WindowMean(closes, Window))
    ensures r.Some? ==> (r.value.volatility.Real? <==> |closes| > Window)
  {
    if |closes| == 0 then None
    else
      var trend := if |closes| < Window then NaN
                   else RelativeChange(Stats.WindowMean(closes, 5), Stats.WindowMean(closes, Window));
      var volatility := if |closes| > Window then Real(annualVolatility) else NaN;
      var volumeTrend := if |volumes| < Window then NaN
                         else RelativeChange(volumes[|volumes| - 1], Stats.WindowMean(volumes, Window));
      Some(MarketState(trend, volatility, volumeTrend, ClassifyMarket(trend, volatility)))
  }

  const Unit: CategoryWeights := CategoryWeights(1.0, 1.0, 1.0, 1.0)

  /** The regime table: which categories each regime multiplies, and by how much. */
  function RegimeMultipliers(m: MarketType): (t: CategoryWeights)
    ensures t.Positive()
  {
    match m
    case SteadyBull => CategoryWeights(0.8, 1.2, 1.0, 1.2)
    case VolatileBull => CategoryWeights(1.0, 1.1, 1.3, 1.0)
    case SteadyBear => CategoryWeights(1.3, 0.7, 1.2, 1.0)
    case VolatileBear => CategoryWeights(1.2, 0.6, 1.5, 1.0)
    case SteadySideways => Unit
    case VolatileSideways => Unit
  }

  /** The regime pass's multiplications, one `_adjust_category_weight` call
      at a time; they amount to the regime table. */
  function ApplyRegime(w: CategoryWeights, m: MarketType): (r: CategoryWeights)
    ensures r == Mul(w, RegimeMultipliers(m))
  {
    var r := match m
      case SteadyBull => Scale(Scale(Scale(w, Technical, 1.2), Sentiment, 1.2), Fundamental, 0.8)
      case VolatileBull => Scale(Scale(w, Risk, 1.3), Technical, 1.1)
      case SteadyBear => Scale(Scale(Scale(w, Fundamental, 1.3), Risk, 1.2), Technical, 0.7)
      case VolatileBear => Scale(Scale(Scale(w, Risk, 1.5), Fundamental, 1.2), Technical, 0.6)
      case SteadySideways => w
      case VolatileSideways => w;
    Extensionality(r, Mul(w, RegimeMultipliers(m)));
    r
  }

  /** `adjust_weights_by_market`: the regime pass. From positive weights it
      yields positive weights summing to 1; the sideways regimes only
      renormalise. */
  function MarketPass(w: CategoryWeights, m: MarketType): (r: Option<CategoryWeights>)
    ensures w.Positive() ==> r.Some? && r.value.Positive() && r.value.Normalized()
    ensures !m.IsBull() && !m.IsBear() ==> r == Normalize(w)
  {
    Normalize(ApplyRegime(w, m))
  }

  /** In a volatile bull market only risk and technical move, so
      fundamental : sentiment is kept. */
  lemma VolatileBullKeepsRatio(w: CategoryWeights)
    requires w.Positive()
    ensures MarketPass(w, VolatileBull).value.fundamental * w.sentiment
            == MarketPass(w, VolatileBull).value.sentiment * w.fundamental
  {
    NormalizeKeepsRatios(ApplyRegime(w, VolatileBull));
  }

  /** In a steady bull market technical and sentiment are both raised by
      1.2, so their ratio is kept. */
  lemma SteadyBullKeepsRatio(w: CategoryWeights)
    requires w.Positive()
    ensures MarketPass(w, SteadyBull).value.technical * w.sentiment
            == MarketPass(w, SteadyBull).value.sentiment * w.technical
  {
    NormalizeKeepsRatios(ApplyRegime(w, SteadyBull));
  }
  /** Volatility bounds of the volatility pass. */
  const HighVolatility: real := 0.4
  const LowVolatility: real := 0.1

  function VolatilityMultipliers(volatility: Float): (t: CategoryWeights)
    ensures t.Positive()
  {
    if Gt(volatility, HighVolatility) then CategoryWeights(1.0, 0.8, 1.3, 1.0)
    else if Lt(volatility, LowVolatility) then CategoryWeights(1.0, 1.2, 0.8, 1.0)
    else Unit
  }

  /** The volatility pass's multiplications as the source performs them. */
  function ApplyVolatility(w: CategoryWeights, volatility: Float): (r: CategoryWeights)
    ensures r == Mul(w, VolatilityMultipliers(volatility))
  {
    var r := if Gt(volatility, HighVolatility) then Scale(Scale(w, Risk, 1.3), Technical, 0.8)
             else if Lt(volatility, LowVolatility) then Scale(Scale(w, Technical, 1.2), Risk, 0.8)
             else w;
    Extensionality(r, Mul(w, VolatilityMultipliers(volatility)));
    r
  }

  /** `adjust_weights_by_volatility`. From positive weights it yields
      positive weights summing to 1; inside the closed band [0.1, 0.4], or
      for a NaN volatility, it only renormalises, so normalised weights come
      back unchanged. */
  function VolatilityPass(w: CategoryWeights, volatility: Float): (r: Option<CategoryWeights>)
    ensures w.Positive() ==> r.Some? && r.value.Positive() && r.value.Normalized()
    ensures !Gt(volatility, HighVolatility) && !Lt(volatility, LowVolatility) ==> r == Normalize(w)
    ensures w.Normalized() && (volatility.NaN? || LowVolatility <= volatility.value <= HighVolatility) ==> r == Some(w)
  {
    Normalize(ApplyVolatility(w, volatility))
  }

  /** The volatility pass only ever moves risk and technical, so
      fundamental : sentiment is kept whatever the volatility. */
  lemma VolatilityPassKeepsRatio(w: CategoryWeights, volatility: Float)
    requires w.Positive()
    ensures VolatilityPass(w, volatility).value.fundamental * w.sentiment
            == VolatilityPass(w, volatility).value.sentiment * w.fundamental
  {
    if Gt(volatility, HighVolatility) {
      HighVolatilityKeepsRatio(w, volatility);
    } else if Lt(volatility, LowVolatility) {
      LowVolatilityKeepsRatio(w, volatility);
    }
  }

  lemma HighVolatilityKeepsRatio(w: CategoryWeights, volatility: Float)
    requires w.Positive() && Gt(volatility, HighVolatility)
    ensures VolatilityPass(w, volatility).value.fundamental * w.sentiment
            == VolatilityPass(w, volatility).value.sentiment * w.fundamental
  {
    NormalizeKeepsRatios(ApplyVolatility(w, volatility));
  }

  lemma LowVolatilityKeepsRatio(w: CategoryWeights, volatility: Float)
    requires w.Positive() && Lt(volatility, LowVolatility)
    ensures VolatilityPass(w, volatility).value.fundamental * w.sentiment
            == VolatilityPass(w, volatility).value.sentiment * w.fundamental
  {
    NormalizeKeepsRatios(ApplyVolatility(w, volatility));
  }

  /** Volume-trend bounds of the volume pass. */
  const VolumeSurge: real := 0.5
  const VolumeDrop: real := -0.5

  function VolumeMultipliers(volumeTrend: Float): (t: CategoryWeights)
    ensures t.Positive()
  {
    if Gt(volumeTrend, VolumeSurge) then CategoryWeights(1.0, 1.2, 1.0, 1.1)
    else if Lt(volumeTrend, VolumeDrop) then CategoryWeights(1.2, 0.9, 1.0, 1.0)
    else Unit
  }

  /** The volume pass's multiplications as the source performs them. */
  function ApplyVolume(w: CategoryWeights, volumeTrend: Float): (r: CategoryWeights)
    ensures r == Mul(w, VolumeMultipliers(volumeTrend))
  {
    var r := if Gt(volumeTrend, VolumeSurge) then Scale(Scale(w, Technical, 1.2), Sentiment, 1.1)
             else if Lt(volumeTrend, VolumeDrop) then Scale(Scale(w, Fundamental, 1.2), Technical, 0.9)
             else w;
    Extensionality(r, Mul(w, VolumeMultipliers(volumeTrend)));
    r
  }

  /** `adjust_weights_by_volume`. From positive weights it yields positive
      weights summing to 1; with a volume trend in [-0.5, 0.5], or NaN, it
      only renormalises. */
  function VolumePass(w: CategoryWeights, volumeTrend: Float): (r: Option<CategoryWeights>)
    ensures w.Positive() ==> r.Some? && r.value.Positive() && r.value.Normalized()
    ensures !Gt(volumeTrend, VolumeSurge) && !Lt(volumeTrend, VolumeDrop) ==> r == Normalize(w)
    ensures w.Normalized() && (volumeTrend.NaN? || VolumeDrop <= volumeTrend.value <= VolumeSurge) ==> r == Some(w)
  {
    Normalize(ApplyVolume(w, volumeTrend))
  }

  /** Rising volume moves technical and sentiment only: fundamental : risk is kept. */
  lemma VolumeSurgeKeepsRatio(w: CategoryWeights, volumeTrend: Float)
    requires w.Positive() && Gt(volumeTrend, VolumeSurge)
    ensures VolumePass(w, volumeTrend).value.fundamental * w.risk
            == VolumePass(w, volumeTrend).value.risk * w.fundamental
  {
    NormalizeKeepsRatios(ApplyVolume(w, volumeTrend));
  }

  /** Falling volume moves fundamental and technical only: risk : sentiment is kept. */
  lemma VolumeDropKeepsRatio(w: CategoryWeights, volumeTrend: Float)
    requires w.Positive() && Lt(volumeTrend, VolumeDrop)
    ensures VolumePass(w, volumeTrend).value.risk * w.sentiment
            == VolumePass(w, volumeTrend).value.sentiment * w.risk
  {
    NormalizeKeepsRatios(ApplyVolume(w, volumeTrend));
  }

  /** `get_adjusted_weights`: the regime pass, then the volatility pass, then
      the volume pass, each on the previous result. A failed market analysis
      (None) or an exception in any pass (a zero total) returns the base
      weights. From positive base weights the result is positive, and it
      sums to 1 whenever the passes ran or the base already did. */
  function AdjustWeights(base: CategoryWeights, state: Option<MarketState>): (r: CategoryWeights)
    ensures state.None? ==> r == base
    ensures base.Positive() ==> r.Positive()
    ensures base.Positive() && state.Some? ==> r.Normalized()
    ensures base.Positive() && base.Normalized() ==> r.Normalized()
  {
    match state
    case None => base
    case Some(s) =>
      match MarketPass(base, s.marketType)
      case None => base
      case Some(w1) =>
        match VolatilityPass(w1, s.volatility)
        case None => base
        case Some(w2) =>
          match VolumePass(w2, s.volumeTrend)
          case None => base
          case Some(w3) => w3
  }

  /** The three pass tables of one market state, multiplied together. */
  function CombinedMultipliers(s: MarketState): (t: CategoryWeights)
    ensures t.Positive()
  {
    MulPositive(RegimeMultipliers(s.marketType), VolatilityMultipliers(s.volatility));
    MulPositive(Mul(RegimeMultipliers(s.marketType), VolatilityMultipliers(s.volatility)), VolumeMultipliers(s.volumeTrend));
    Mul(Mul(RegimeMultipliers(s.marketType), VolatilityMultipliers(s.volatility)), VolumeMultipliers(s.volumeTrend))
  }

  /** In exact arithmetic the three renormalised passes amount to one:
      multiply the base by the product of the three tables and renormalise
      once. */
  lemma AdjustWeightsClosedForm(base: CategoryWeights, s: MarketState)
    requires base.Positive()
    ensures Normalize(Mul(base, CombinedMultipliers(s))).Some?
    ensures AdjustWeights(base, Some(s)) == Normalize(Mul(base, CombinedMultipliers(s))).value
  {
    var r, v, u := RegimeMultipliers(s.marketType), VolatilityMultipliers(s.volatility), VolumeMultipliers(s.volumeTrend);
    var x1 := Mul(base, r);
    MulPositive(base, r);
    var x2 := Mul(x1, v);
    MulPositive(x1, v);
    var x3 := Mul(x2, u);
    MulPositive(x2, u);
    var w1 := MarketPass(base, s.marketType).value;
    var w2 := VolatilityPass(w1, s.volatility).value;
    RenormalizeThenScale(x1, v);
    assert Normalize(x2).value == w2;
    RenormalizeThenScale(x2, u);
    MulAssociative(base, r, v);
    MulAssociative(base, Mul(r, v), u);
    MulPositive(base, CombinedMultipliers(s));
  }

  /** In exact arithmetic the volatility and volume passes commute; the
      source's fixed order matters only for floating-point rounding. */
  lemma VolatilityAndVolumePassesCommute(w: CategoryWeights, volatility: Float, volumeTrend: Float)
    requires w.Positive()
    ensures VolumePass(VolatilityPass(w, volatility).value, volumeTrend)
            == VolatilityPass(VolumePass(w, volumeTrend).value, volatility)
  {
    var v, u := VolatilityMultipliers(volatility), VolumeMultipliers(volumeTrend);
    MulPositive(w, v);
    MulPositive(w, u);
    MulPositive(Mul(w, v), u);
    MulPositive(Mul(w, u), v);
    RenormalizeThenScale(Mul(w, v), u);
    RenormalizeThenScale(Mul(w, u), v);
    MulAssociative(w, v, u);
    MulAssociative(w, u, v);
    MulCommutative(v, u);
  }

  /** With fewer than 20 rows every market measure is NaN, the regime is
      steady sideways, and no pass multiplies anything: the adjusted
      weights are the renormalised base, and the configured base comes back
      unchanged. */
  lemma ShortHistoryOnlyRenormalises(base: CategoryWeights, closes: seq<real>, volumes: seq<real>, annualVolatility: real)
    requires |closes| == |volumes| && 0 < |closes| < Window
    requires base.Positive()
    ensures AdjustWeights(base, AnalyzeMarketState(closes, volumes, annualVolatility)) == Normalize(base).value
    ensures AdjustWeights(Config.BaseWeights, AnalyzeMarketState(closes, volumes, annualVolatility)) == Config.BaseWeights
  {
    var s := AnalyzeMarketState(closes, volumes, annualVolatility).value;
    var n := Normalize(base).value;
    assert MarketPass(base, s.marketType) == Some(n);
    assert VolatilityPass(n, s.volatility) == Some(n);
    assert VolumePass(n, s.volumeTrend) == Some(n);
    Config.BaseWeightsNormalized();
  }

  /** The source's passes write into the configuration's own weight entries,
      so each run starts from the previous run's result. Feeding an adjusted
      map back in as the base still gives positive weights that sum to 1. */
  lemma DriftedBaseStaysNormalized(base: CategoryWeights, first: Option<MarketState>, second: Option<MarketState>)
    requires base.Positive() && base.Normalized()
    ensures AdjustWeights(AdjustWeights(base, first), second).Positive()
    ensures AdjustWeights(AdjustWeights(base, first), second).Normalized()
  {
  }
}
