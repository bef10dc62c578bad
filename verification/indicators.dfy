/** The indicators the scorers consume (`stock_analyzer/indicators.py`):
    rolling moving averages, on-balance volume and the financial ratios. */
module Indicators {
  import opened Wrappers
  import opened Floats
  import opened Stats
  import Config

  // ---------------------------------------------------------------------
  // Moving averages
  // ---------------------------------------------------------------------

  /** Row `i` of `close.rolling(window=p).mean()`: NaN until a full window
      is available, then the mean of the `p` values ending at row `i`. */
  function RollingMean(s: seq<real>, p: nat, i: int): (r: Float)
    requires p >= 1 && 0 <= i < |s|
    ensures r.NaN? <==> i + 1 < p
  {
    if i + 1 < p then NaN else Real(WindowMean(s[..i + 1], p))
  }

  /** A window sum is a difference of two prefix sums. */
  lemma WindowIsPrefixDifference(s: seq<real>, a: int, b: int)
    requires 0 <= a <= b <= |s|
    ensures Sum(s[a..b]) == Sum(s[..b]) - Sum(s[..a])
  {
    assert s[..a] + s[a..b] == s[..b];
    SumConcat(s[..a], s[a..b]);
  }

  /** `close.rolling(window=p).mean()` in one pass over prefix sums. */
  method MovingAverage(s: seq<real>, p: nat) returns (r: seq<Float>)
    requires p >= 1
    ensures |r| == |s|
    ensures forall i :: 0 <= i < |s| ==> r[i] == RollingMean(s, p, i)
  {
    var prefix: seq<real> := [0.0];
    r := [];
    var i := 0;
    while i < |s|
      invariant 0 <= i <= |s|
      invariant |r| == i && |prefix| == i + 1
      invariant forall k :: 0 <= k <= i ==> prefix[k] == Sum(s[..k])
      invariant forall k :: 0 <= k < i ==> r[k] == RollingMean(s, p, k)
    {
      assert s[..i + 1][..i] == s[..i];
      prefix := prefix + [prefix[i] + s[i]];
      var v: Float;
      if i + 1 < p {
        v := NaN;
      } else {
        var t := s[..i + 1];
        assert t[|t| - p..] == s[i + 1 - p..i + 1];
        WindowIsPrefixDifference(s, i + 1 - p, i + 1);
        v := Real((prefix[i + 1] - prefix[i + 1 - p]) / p as real);
      }
      r := r + [v];
      i := i + 1;
    }
  }

  /** `calculate_ma`: one rolling mean per configured period
      (5, 10, 20 and 60 days). */
  method CalculateMa(closes: seq<real>) returns (table: seq<seq<Float>>)
    ensures |table| == |Config.MaPeriods|
    ensures forall j :: 0 <= j < |table| ==> |table[j]| == |closes|
    ensures forall j, i :: 0 <= j < |table| && 0 <= i < |closes| ==>
              table[j][i] == RollingMean(closes, Config.MaPeriods[j], i)
  {
    Config.ThresholdsOrdered();
    table := [];
    var j := 0;
    while j < |Config.MaPeriods|
      invariant 0 <= j <= |Config.MaPeriods|
      invariant |table| == j
      invariant forall k :: 0 <= k < j ==> |table[k]| == |closes|
      invariant forall k, i :: 0 <= k < j && 0 <= i < |closes| ==>
                  table[k][i] == RollingMean(closes, Config.MaPeriods[k], i)
    {
      assert Config.MaPeriods[j] in Config.MaPeriods;
      var column := MovingAverage(closes, Config.MaPeriods[j]);
      table := table + [column];
      j := j + 1;
    }
  }

  /** A moving average of a constant series is that constant. */
  lemma RollingMeanOfConstant(s: seq<real>, p: nat, i: int, c: real)
    requires p >= 1 && 0 <= i < |s| && i + 1 >= p
    requires forall k :: 0 <= k < |s| ==> s[k] == c
    ensures RollingMean(s, p, i) == Real(c)
  {
    var w := s[..i + 1][i + 1 - p..];
    SumConstant(w, c);
    assert |w| == p;
  }

  /** A moving average lies between the least and the greatest price of
      its window. */
  lemma RollingMeanBounds(s: seq<real>, p: nat, i: int, lo: real, hi: real)
    requires p >= 1 && 0 <= i < |s| && i + 1 >= p
    requires forall k :: i + 1 - p <= k <= i ==> lo <= s[k] <= hi
    ensures lo <= RollingMean(s, p, i).value <= hi
  {
    var w := s[..i + 1][i + 1 - p..];
    assert forall k :: 0 <= k < |w| ==> w[k] == s[i + 1 - p + k];
    SumBounds(w, lo, hi);
    var n := p as real;
    assert |w| as real == n;
    assert Sum(w) / n >= n * lo / n;
    assert Sum(w) / n <= n * hi / n;
  }

  // ---------------------------------------------------------------------
  // On-balance volume
  // ---------------------------------------------------------------------

  /** The on-balance-volume recurrence: start at the first volume, then add
      the day's volume on an up-close, subtract it on a down-close and carry
      the previous value on an unchanged close. */
  predicate IsObv(closes: seq<real>, volumes: seq<real>, obv: seq<real>)
    requires |closes| == |volumes|
  {
    && |obv| == |closes|
    && (|obv| > 0 ==> obv[0] == volumes[0])
    && (forall i :: 1 <= i < |obv| ==>
          obv[i] == (if closes[i] > closes[i - 1] then obv[i - 1] + volumes[i]
                     else if closes[i] < closes[i - 1] then obv[i - 1] - volumes[i]
                     else obv[i - 1]))
  }

  /** `calculate_obv`. An empty series has no first volume to start from,
      which the source reports by raising: `None` here. */
  method CalculateObv(closes: seq<real>, volumes: seq<real>) returns (r: Option<seq<real>>)
    requires |closes| == |volumes|
    ensures r.None? <==> |closes| == 0
    ensures r.Some? ==> IsObv(closes, volumes, r.value)
  {
    if |closes| == 0 {
      return None;
    }
    var obv := [volumes[0]];
    var i := 1;
    while i < |closes|
      invariant 1 <= i <= |closes|
      invariant |obv| == i && obv[0] == volumes[0]
      invariant forall k :: 1 <= k < i ==>
                  obv[k] == (if closes[k] > closes[k - 1] then obv[k - 1] + volumes[k]
                             else if closes[k] < closes[k - 1] then obv[k - 1] - volumes[k]
                             else obv[k - 1])
    {
      var next := if closes[i] > closes[i - 1] then obv[i - 1] + volumes[i]
                  else if closes[i] < closes[i - 1] then obv[i - 1] - volumes[i]
                  else obv[i - 1];
      obv := obv + [next];
      i := i + 1;
    }
    return Some(obv);
  }

  /** The on-balance-volume series as a function, built day by day. */
  function Obv(closes: seq<real>, volumes: seq<real>): (obv: seq<real>)
    requires |closes| == |volumes|
    ensures |obv| == |closes|
    decreases |closes|
  {
    if |closes| == 0 then []
    else if |closes| == 1 then [volumes[0]]
    else
      var n := |closes|;
      var prev := Obv(closes[..n - 1], volumes[..n - 1]);
      prev + [if closes[n - 1] > closes[n - 2] then prev[n - 2] + volumes[n - 1]
              else if closes[n - 1] < closes[n - 2] then prev[n - 2] - volumes[n - 1]
              else prev[n - 2]]
  }

  /** The function satisfies the recurrence, so (by `ObvUnique`) it is the
      series `CalculateObv` returns. */
  lemma {:induction false} ObvSatisfiesRecurrence(closes: seq<real>, volumes: seq<real>)
    requires |closes| == |volumes|
    ensures IsObv(closes, volumes, Obv(closes, volumes))
    decreases |closes|
  {
    var n := |closes|;
    if n > 1 {
      var c, v := closes[..n - 1], volumes[..n - 1];
      ObvSatisfiesRecurrence(c, v);
      var prev := Obv(c, v);
      var obv := Obv(closes, volumes);
      assert obv[..n - 1] == prev;
      forall i | 1 <= i < n
        ensures obv[i] == (if closes[i] > closes[i - 1] then obv[i - 1] + volumes[i]
                           else if closes[i] < closes[i - 1] then obv[i - 1] - volumes[i]
                           else obv[i - 1])
      {
        if i < n - 1 {
          assert obv[i] == prev[i] && obv[i - 1] == prev[i - 1];
          assert closes[i] == c[i] && closes[i - 1] == c[i - 1] && volumes[i] == v[i];
        }
      }
    }
  }

  /** `calculate_obv` computes the function's series. */
  lemma CalculateObvIsObv(closes: seq<real>, volumes: seq<real>, obv: seq<real>)
    requires |closes| == |volumes| && IsObv(closes, volumes, obv)
    ensures obv == Obv(closes, volumes)
  {
    ObvSatisfiesRecurrence(closes, volumes);
    ObvUnique(closes, volumes, obv, Obv(closes, volumes));
  }

  /** The recurrence determines the series: two series that both satisfy
      it are equal. */
  lemma {:induction false} ObvUnique(closes: seq<real>, volumes: seq<real>, a: seq<real>, b: seq<real>)
    requires |closes| == |volumes|
    requires IsObv(closes, volumes, a) && IsObv(closes, volumes, b)
    ensures a == b
  {
    var k := 0;
    while k < |a|
      invariant 0 <= k <= |a|
      invariant |a| == |b|
      invariant forall j :: 0 <= j < k ==> a[j] == b[j]
    {
      if k > 0 {
        assert a[k - 1] == b[k - 1];
      }
      k := k + 1;
    }
  }

  /** With unchanged closes every day the OBV stays at the first volume. */
  lemma {:induction false} ObvFlatCloses(closes: seq<real>, volumes: seq<real>, obv: seq<real>)
    requires |closes| == |volumes| && IsObv(closes, volumes, obv)
    requires forall i :: 1 <= i < |closes| ==> closes[i] == closes[i - 1]
    ensures forall i :: 0 <= i < |obv| ==> obv[i] == volumes[0]
  {
    var k := 0;
    while k < |obv|
      invariant 0 <= k <= |obv|
      invariant forall j :: 0 <= j < k ==> obv[j] == volumes[0]
    {
      if k > 0 {
        assert obv[k - 1] == volumes[0];
        assert closes[k] == closes[k - 1];
      }
      k := k + 1;
    }
  }

  /** On a market that never closes lower, with non-negative volumes, OBV
      never falls. */
  lemma ObvRisingMarket(closes: seq<real>, volumes: seq<real>, obv: seq<real>, i: int)
    requires |closes| == |volumes| && IsObv(closes, volumes, obv)
    requires forall k :: 1 <= k < |closes| ==> closes[k] >= closes[k - 1]
    requires forall k :: 0 <= k < |volumes| ==> volumes[k] >= 0.0
    requires 1 <= i < |obv|
    ensures obv[i - 1] <= obv[i]
  {
  }

  /** Over a stretch of rising closes the OBV gains exactly the volumes
      traded on those days. */
  lemma {:induction false} ObvOverRally(closes: seq<real>, volumes: seq<real>, obv: seq<real>, a: int, b: int)
    requires |closes| == |volumes| && IsObv(closes, volumes, obv)
    requires 0 <= a <= b < |obv|
    requires forall k :: a < k <= b ==> closes[k] > closes[k - 1]
    ensures obv[b] == obv[a] + Sum(volumes[a + 1..b + 1])
    decreases b - a
  {
    if a < b {
      ObvOverRally(closes, volumes, obv, a, b - 1);
      assert volumes[a + 1..b + 1] == volumes[a + 1..b] + [volumes[b]];
      SumConcat(volumes[a + 1..b], [volumes[b]]);
      assert Sum([volumes[b]]) == volumes[b] by {
        assert [volumes[b]][..0] == [];
      }
    }
  }

  // ---------------------------------------------------------------------
  // Financial ratios
  // ---------------------------------------------------------------------

  datatype FinancialRatios = FinancialRatios(roe: real, debtRatio: real, fcf: real, evEbitda: real, dividendCoverage: real)

  /** `financial_data.get(key, default)`. */
  function Lookup(m: map<string, real>, key: string, default: real): (r: real)
    ensures key in m ==> r == m[key]
    ensures key !in m ==> r == default
  {
    if key in m then m[key] else default
  }

  /** `calculate_financial_ratios`: ROE, debt ratio, free cash flow,
      EV/EBITDA and dividend coverage. Missing items default to 0, except
      the four divisors, which default to 1. A zero divisor raises in the
      source and the function reports `None`. */
  function CalculateFinancialRatios(m: map<string, real>): (r: Option<FinancialRatios>)
    ensures r.None? <==>
              || Lookup(m, "Total Equity", 1.0) == 0.0
              || Lookup(m, "EBITDA", 1.0) == 0.0
              || Lookup(m, "Common Dividends", 1.0) == 0.0
              || Lookup(m, "Total Assets", 1.0) == 0.0
    ensures r.Some? ==> r.value.roe * Lookup(m, "Total Equity", 1.0) == Lookup(m, "Net Income", 0.0)
    ensures r.Some? ==> r.value.debtRatio * Lookup(m, "Total Assets", 1.0) == Lookup(m, "Total Liabilities", 0.0)
    ensures r.Some? ==> r.value.fcf + Lookup(m, "Capital Expenditure", 0.0) == Lookup(m, "Operating Cash Flow", 0.0)
    ensures r.Some? ==> r.value.evEbitda * Lookup(m, "EBITDA", 1.0)
                        == Lookup(m, "Market Cap", 0.0) + Lookup(m, "Total Liabilities", 0.0) - Lookup(m, "Cash", 0.0)
    ensures r.Some? ==> r.value.dividendCoverage * Lookup(m, "Common Dividends", 1.0)
                        == Lookup(m, "Net Income", 0.0) - Lookup(m, "Preferred Dividends", 0.0)
  {
    var netIncome := Lookup(m, "Net Income", 0.0);
    var equity := Lookup(m, "Total Equity", 1.0);
    var ebitda := Lookup(m, "EBITDA", 1.0);
    var commonDividends := Lookup(m, "Common Dividends", 1.0);
    var assets := Lookup(m, "Total Assets", 1.0);
    var debt := Lookup(m, "Total Liabilities", 0.0);
    if equity == 0.0 || ebitda == 0.0 || commonDividends == 0.0 || assets == 0.0 then None
    else
      Some(FinancialRatios(
        netIncome / equity,
        debt / assets,
        Lookup(m, "Operating Cash Flow", 0.0) - Lookup(m, "Capital Expenditure", 0.0),
        (Lookup(m, "Market Cap", 0.0) + debt - Lookup(m, "Cash", 0.0)) / ebitda,
        (netIncome - Lookup(m, "Preferred Dividends", 0.0)) / commonDividends))
  }

  /** With no financial statement items every ratio is zero. */
  lemma EmptyStatementRatios()
    ensures CalculateFinancialRatios(map[]) == Some(FinancialRatios(0.0, 0.0, 0.0, 0.0, 0.0))
  {
  }
}
