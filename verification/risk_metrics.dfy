/** The risk metrics the risk scorer reads (`stock_analyzer/risk_metrics.py`):
    historical value-at-risk and maximum drawdown. */
module RiskMetrics {
  import opened Wrappers
  import opened Floats
  import opened Stats

  // ---------------------------------------------------------------------
  // Value at risk
  // ---------------------------------------------------------------------

  /** A fractional position `h` in `[0, n - 1]` has a floor in `[0, n - 1]`. */
  lemma PositionInRange(n: nat, q: real)
    requires n >= 1 && 0.0 <= q <= 1.0
    ensures 0.0 <= (n - 1) as real * q <= (n - 1) as real
    ensures 0 <= ((n - 1) as real * q).Floor <= n - 1
  {
    var m := (n - 1) as real;
    assert m * q <= m * 1.0;
  }

  /** `a + f * (b - a)`: the point a fraction `f` of the way from `a` to
      `b`, which for `f` in [0, 1] lies between them. */
  function Lerp(a: real, b: real, f: real): (r: real)
    ensures a <= b && 0.0 <= f <= 1.0 ==> a <= r <= b
    ensures f == 0.0 ==> r == a
  {
    LerpBounds(a, b, f);
    a + f * (b - a)
  }

  lemma LerpBounds(a: real, b: real, f: real)
    ensures a <= b && 0.0 <= f <= 1.0 ==> 0.0 <= f * (b - a) <= b - a
  {
    if a <= b && 0.0 <= f <= 1.0 {
      var d := b - a;
      assert d - f * d == (1.0 - f) * d;
      MulNonneg(1.0 - f, d);
      MulNonneg(f, d);
    }
  }

  lemma MulNonneg(x: real, y: real)
    requires x >= 0.0 && y >= 0.0
    ensures x * y >= 0.0
  {
  }

  /** A product with a positive factor has the sign of the other factor. */
  lemma MulPositiveFactor(x: real, y: real)
    requires y > 0.0
    ensures x * y >= 0.0 ==> x >= 0.0
    ensures x * y > 0.0 ==> x > 0.0
  {
  }

  /** The value at fractional position `h` of a sequence, interpolated
      linearly between its two neighbours. */
  function Interpolated(t: seq<real>, h: real): (r: real)
    requires |t| > 0 && 0.0 <= h <= (|t| - 1) as real
  {
    var k := h.Floor;
    if k + 1 < |t| then Lerp(t[k], t[k + 1], h - k as real) else t[k]
  }

  /** On sorted data the interpolated value lies between the first and the
      last entry. */
  lemma InterpolatedBetweenEnds(t: seq<real>, h: real)
    requires Sorted(t) && |t| > 0 && 0.0 <= h <= (|t| - 1) as real
    ensures t[0] <= Interpolated(t, h) <= t[|t| - 1]
  {
    var k := h.Floor;
    assert t[0] <= t[k] <= t[|t| - 1];
    if k + 1 < |t| {
      assert t[k + 1] <= t[|t| - 1];
    }
  }

  /** Pandas' fractional position `(n - 1) * q` of quantile `q = 1 - confidence`
      among `n` sorted values. */
  function TailPosition(n: nat, confidence: real): (h: real)
    requires n >= 1 && 0.0 <= confidence <= 1.0
    ensures 0.0 <= h <= (n - 1) as real
    ensures confidence == 1.0 ==> h == 0.0
    ensures confidence == 0.0 ==> h == (n - 1) as real
  {
    PositionInRange(n, 1.0 - confidence);
    (n - 1) as real * (1.0 - confidence)
  }

  /** `Series.quantile(1 - confidence)` with pandas' default linear
      interpolation: the value at the tail position of the sorted data. */
  function TailQuantile(s: seq<real>, confidence: real): real
    requires |s| > 0 && 0.0 <= confidence <= 1.0
  {
    Interpolated(Sort(s), TailPosition(|s|, confidence))
  }

  /** Every quantile lies between the smallest and the largest value. */
  lemma TailQuantileWithinRange(s: seq<real>, confidence: real)
    requires |s| > 0 && 0.0 <= confidence <= 1.0
    ensures SeqMin(s) <= TailQuantile(s, confidence) <= SeqMax(s)
  {
    SortEndsAreExtrema(s);
    InterpolatedBetweenEnds(Sort(s), TailPosition(|s|, confidence));
  }

  /** `calculate_var`: the absolute value of the `1 - confidence` quantile of
      the returns. No returns give NaN; a confidence outside [0, 1] makes
      the quantile raise, reported as `None`. */
  function ValueAtRisk(rets: seq<real>, confidence: real): (r: Option<Float>)
    ensures r.None? <==> !(0.0 <= confidence <= 1.0)
    ensures r.Some? ==> (r.value.NaN? <==> |rets| == 0)
    ensures r.Some? && r.value.Real? ==> 0.0 <= r.value.value
  {
    if !(0.0 <= confidence <= 1.0) then None
    else if |rets| == 0 then Some(NaN)
    else Some(Real(Abs(TailQuantile(rets, confidence))))
  }

  /** The VaR is the size of a return that lies within the range of the
      returns: between the best and the worst day's size when all days
      lose, between them when all days gain, and never beyond the two
      extremes' sizes together. */
  lemma ValueAtRiskBounds(rets: seq<real>, confidence: real)
    requires |rets| > 0 && 0.0 <= confidence <= 1.0
    ensures var v := ValueAtRisk(rets, confidence).value.value;
            && v <= Abs(SeqMin(rets)) + Abs(SeqMax(rets))
            && (SeqMax(rets) <= 0.0 ==> -SeqMax(rets) <= v <= -SeqMin(rets))
            && (SeqMin(rets) >= 0.0 ==> SeqMin(rets) <= v <= SeqMax(rets))
  {
    TailQuantileWithinRange(rets, confidence);
    AbsWithin(TailQuantile(rets, confidence), SeqMin(rets), SeqMax(rets));
  }

  lemma AbsWithin(x: real, lo: real, hi: real)
    requires lo <= x <= hi
    ensures Abs(x) <= Abs(lo) + Abs(hi)
    ensures hi <= 0.0 ==> -hi <= Abs(x) <= -lo
    ensures lo >= 0.0 ==> lo <= Abs(x) <= hi
  {
  }

  /** A single return is its own quantile at every confidence. */
  lemma ValueAtRiskOfOneReturn(x: real, confidence: real)
    requires 0.0 <= confidence <= 1.0
    ensures ValueAtRisk([x], confidence) == Some(Real(Abs(x)))
  {
    assert Sort([x]) == [x] by {
      var t := Sort([x]);
      assert |t| == 1;
      assert t[0] in multiset(t);
    }
  }

  /** At confidence 1 the quantile is the smallest return, at confidence 0
      the largest: the worst and the best day. */
  lemma ValueAtRiskExtremeConfidence(rets: seq<real>)
    requires |rets| > 0
    ensures ValueAtRisk(rets, 1.0) == Some(Real(Abs(SeqMin(rets))))
    ensures ValueAtRisk(rets, 0.0) == Some(Real(Abs(SeqMax(rets))))
  {
    var n := |rets|;
    SortEndsAreExtrema(rets);
    assert Interpolated(Sort(rets), 0.0) == Sort(rets)[0];
    assert Interpolated(Sort(rets), (n - 1) as real) == Sort(rets)[n - 1];
  }

  // ---------------------------------------------------------------------
  // Maximum drawdown
  // ---------------------------------------------------------------------

  /** Index of the first smallest entry (`idxmin`). */
  function FirstArgMin(s: seq<real>): (k: nat)
    requires |s| > 0
    ensures k < |s|
    ensures forall i :: 0 <= i < |s| ==> s[k] <= s[i]
    ensures forall i :: 0 <= i < k ==> s[i] > s[k]
    decreases |s|
  {
    if |s| == 1 then 0
    else
      var k := FirstArgMin(s[..|s| - 1]);
      assert forall i :: 0 <= i < |s| - 1 ==> s[..|s| - 1][i] == s[i];
      if s[|s| - 1] < s[k] then |s| - 1 else k
  }

  /** Index of the first largest entry (`idxmax`). */
  function FirstArgMax(s: seq<real>): (k: nat)
    requires |s| > 0
    ensures k < |s|
    ensures forall i :: 0 <= i < |s| ==> s[i] <= s[k]
    ensures forall i :: 0 <= i < k ==> s[i] < s[k]
    decreases |s|
  {
    if |s| == 1 then 0
    else
      var k := FirstArgMax(s[..|s| - 1]);
      assert forall i :: 0 <= i < |s| - 1 ==> s[..|s| - 1][i] == s[i];
      if s[|s| - 1] > s[k] then |s| - 1 else k
  }

  predicate AllPositive(prices: seq<real>) {
    forall i :: 0 <= i < |prices| ==> prices[i] > 0.0
  }

  /** `prices / prices.expanding().max() - 1`: each day's fall from the
      running peak, as a (non-positive) fraction. */
  function Drawdowns(prices: seq<real>): (d: seq<real>)
    requires AllPositive(prices)
    ensures |d| == |prices|
  {
    seq(|prices|, i requires 0 <= i < |prices| => prices[i] / SeqMax(prices[..i + 1]) - 1.0)
  }

  /** Depth of the worst decline and the positions of its peak and trough. */
  datatype Drawdown = Drawdown(depth: real, start: nat, end: nat)

  /** `calculate_max_drawdown`: the trough is the first day of the deepest
      drawdown, the peak the first highest price up to and including the
      trough (the slice is label-based on a date index, so it includes the
      trough), and the depth the absolute value of that drawdown. No prices
      make `idxmin` raise, reported as `None`. */
  function MaxDrawdown(prices: seq<real>): (r: Option<Drawdown>)
    requires AllPositive(prices)
    ensures r.None? <==> |prices| == 0
    ensures r.Some? ==> r.value.start <= r.value.end < |prices|
    ensures r.Some? ==> forall i :: 0 <= i < |prices| ==> Drawdowns(prices)[r.value.end] <= Drawdowns(prices)[i]
    ensures r.Some? ==> forall i :: 0 <= i < r.value.end ==> Drawdowns(prices)[r.value.end] < Drawdowns(prices)[i]
    ensures r.Some? ==> forall i :: 0 <= i <= r.value.end ==> prices[i] <= prices[r.value.start]
    ensures r.Some? ==> forall i :: 0 <= i < r.value.start ==> prices[i] < prices[r.value.start]
    ensures r.Some? ==> r.value.depth == Abs(Drawdowns(prices)[r.value.end])
  {
    if |prices| == 0 then None
    else
      var d := Drawdowns(prices);
      var end := FirstArgMin(d);
      var start := FirstArgMax(prices[..end + 1]);
      assert forall i :: 0 <= i <= end ==> prices[..end + 1][i] == prices[i];
      Some(Drawdown(Abs(d[end]), start, end))
  }

  /** `p / m - 1` for a positive price at most the positive peak `m`. */
  lemma FallFromPeak(p: real, m: real)
    requires 0.0 < p <= m
    ensures -1.0 < p / m - 1.0 <= 0.0
  {
    var q := p / m;
    assert q * m == p;
    assert (1.0 - q) * m == m - p;
    MulPositiveFactor(1.0 - q, m);
    MulPositiveFactor(q, m);
  }

  /** A lower price, or the same price under a higher peak, is a deeper fall. */
  lemma FallOrder(p: real, a: real, b: real)
    requires 0.0 < p && 0.0 < a <= b
    ensures p / b <= p / a
  {
    assert p / b * b == p;
    assert p / a * a == p;
    assert p / a * b >= p / a * a;
  }

  /** The maximum drawdown is the largest fall from any earlier (or same)
      price to any later one: no pair `i <= j` falls further, and the
      reported peak and trough fall exactly that far. The depth lies in
      [0, 1). */
  lemma MaxDrawdownIsLargestDecline(prices: seq<real>)
    requires AllPositive(prices) && |prices| > 0
    ensures var r := MaxDrawdown(prices).value;
            && 0.0 <= r.depth < 1.0
            && r.depth == 1.0 - prices[r.end] / prices[r.start]
            && (forall i, j :: 0 <= i <= j < |prices| ==> 1.0 - prices[j] / prices[i] <= r.depth)
  {
    var d := Drawdowns(prices);
    var r := MaxDrawdown(prices).value;
    var e := r.end;
    // Every drawdown is a fall of a positive price from its positive peak.
    forall j | 0 <= j < |prices|
      ensures -1.0 < d[j] <= 0.0
    {
      assert prices[j] == prices[..j + 1][j];
      FallFromPeak(prices[j], SeqMax(prices[..j + 1]));
    }
    // The peak before the trough is the running maximum at the trough.
    var w := prices[..e + 1];
    assert prices[r.start] == w[r.start];
    assert SeqMax(w) == w[r.start] by {
      var k :| 0 <= k < |w| && w[k] == SeqMax(w);
    }
    assert d[e] == prices[e] / prices[r.start] - 1.0;
    // Any pair i <= j falls no further than the trough's drawdown.
    forall i, j | 0 <= i <= j < |prices|
      ensures 1.0 - prices[j] / prices[i] <= r.depth
    {
      var m := SeqMax(prices[..j + 1]);
      assert prices[i] == prices[..j + 1][i];
      assert prices[j] == prices[..j + 1][j];
      FallOrder(prices[j], prices[i], m);
      assert d[e] <= d[j];
    }
  }

  /** A market that never falls has no drawdown, measured from day 0. */
  lemma NoDrawdownOnRisingPrices(prices: seq<real>)
    requires AllPositive(prices) && |prices| > 0
    requires forall i :: 1 <= i < |prices| ==> prices[i - 1] <= prices[i]
    ensures MaxDrawdown(prices) == Some(Drawdown(0.0, 0, 0))
  {
    var d := Drawdowns(prices);
    forall j | 0 <= j < |prices|
      ensures d[j] == 0.0
    {
      RisingDrawdownIsZero(prices, j);
    }
    var e := FirstArgMin(d);
    assert d[0] == 0.0 && d[e] == 0.0;
    assert prices[..1] == [prices[0]];
  }

  lemma RisingDrawdownIsZero(prices: seq<real>, j: int)
    requires AllPositive(prices) && 0 <= j < |prices|
    requires forall i :: 1 <= i < |prices| ==> prices[i - 1] <= prices[i]
    ensures Drawdowns(prices)[j] == 0.0
  {
    DrawdownAt(prices, j);
    RisingPeakIsLatest(prices, j);
    var p := prices[j];
    assert p > 0.0;
    assert p / p == 1.0;
  }

  lemma DrawdownAt(prices: seq<real>, j: int)
    requires AllPositive(prices) && 0 <= j < |prices|
    ensures Drawdowns(prices)[j] == prices[j] / SeqMax(prices[..j + 1]) - 1.0
  {
  }

  lemma RisingPeakIsLatest(prices: seq<real>, j: int)
    requires 0 <= j < |prices|
    requires forall i :: 1 <= i < |prices| ==> prices[i - 1] <= prices[i]
    ensures SeqMax(prices[..j + 1]) == prices[j]
  {
    var w := prices[..j + 1];
    RisingPeak(prices, j);
    assert forall i :: 0 <= i < |w| ==> w[i] <= w[j];
    SeqMaxIsAttained(w, j);
  }

  lemma {:induction false} RisingPeak(prices: seq<real>, j: int)
    requires 0 <= j < |prices|
    requires forall i :: 1 <= i < |prices| ==> prices[i - 1] <= prices[i]
    ensures forall i :: 0 <= i <= j ==> prices[i] <= prices[j]
    decreases j
  {
    if j > 0 {
      RisingPeak(prices, j - 1);
    }
  }

  /** A 20% fall from the opening peak, then a new high. */
  lemma MaxDrawdownExample()
    ensures MaxDrawdown([100.0, 80.0, 120.0]) == Some(Drawdown(0.2, 0, 1))
  {
    var p := [100.0, 80.0, 120.0];
    assert p[..1] == [100.0] && p[..2] == [100.0, 80.0];
    var d := Drawdowns(p);
    assert d[0] == 0.0 && d[1] == -0.2 && d[2] == 0.0;
    assert FirstArgMin(d) == 1;
    assert FirstArgMax(p[..2]) == 0;
  }
}
