/** Plausibility checks on price history and financial statements
    (`stock_analyzer/validators.py`). A check yields a report of errors,
    which make the data invalid, and warnings, which do not. */
module Validators {
  import opened Wrappers
  import opened Floats
  import Indicators

  /** Thresholds of `DataValidator` that the checks consult. */
  const MaxDailyChange: real := 0.2
  const MaxVolumeChange: real := 10.0
  const MaxDebtRatio: real := 0.95
  const MaxRoe: real := 1.0
  const MinTotalAssets: real := 0.0
  /** A gap between consecutive dates longer than this many days is reported. */
  const MaxDateGap: real := 5.0

  /** Columns a price frame must carry, in the order they are reported. */
  const RequiredColumns: seq<string> := ["Open", "High", "Low", "Close", "Volume"]

  datatype Issue =
    | BadPriceFormat
    | BadFinancialFormat
    | MissingColumns(columns: seq<string>)
    | DateGaps(days: seq<nat>)
    | AbnormalReturns(days: seq<nat>)
    | AbnormalVolumes(days: seq<nat>)
    | BadTotalAssets
    | HighDebt(ratio: real)
    | AbnormalRoe(roe: real)

  datatype Report = Report(valid: bool, errors: seq<Issue>, warnings: seq<Issue>)

  /** A price table: its column names, its dates (in days) and its Close and
      Volume columns, or something that is not a table at all. */
  datatype PriceInput =
    | NotAFrame
    | Frame(columns: set<string>, dates: seq<real>, close: seq<real>, volume: seq<real>)

  datatype FinancialInput = NotADict | Statement(items: map<string, real>)

  /** The required columns absent from `present`, in their required order. */
  function Missing(required: seq<string>, present: set<string>): (r: seq<string>)
    ensures |r| <= |required|
    ensures forall c :: c in r <==> c in required && c !in present
  {
    if |required| == 0 then []
    else
      var rest := Missing(required[..|required| - 1], present);
      var c := required[|required| - 1];
      assert forall x :: x in required <==> x in required[..|required| - 1] || x == c;
      if c in present then rest else rest + [c]
  }

  /** Whether `pct_change` from `prev` to `cur` exceeds `limit` in absolute
      value. From a zero the change is infinite (and exceeds every limit)
      unless `cur` is zero too, in which case it is NaN and exceeds nothing. */
  predicate Jumps(prev: real, cur: real, limit: real) {
    if prev == 0.0 then cur != 0.0
    else Abs(cur / prev - 1.0) > limit
  }

  predicate HasJump(s: seq<real>, limit: real) {
    exists i :: 1 <= i < |s| && Jumps(s[i - 1], s[i], limit)
  }

  /** Whether two consecutive dates lie more than `MaxDateGap` days apart. */
  predicate Gap(prev: real, cur: real) {
    cur - prev > MaxDateGap
  }

  predicate HasGap(dates: seq<real>) {
    exists i :: 1 <= i < |dates| && Gap(dates[i - 1], dates[i])
  }

  /** Indices `i >= 1` at which `s` jumps by more than `limit` from day `i - 1`,
      in increasing order. */
  function JumpDays(s: seq<real>, limit: real): (r: seq<nat>)
    ensures forall k :: 0 <= k < |r| ==> 1 <= r[k] < |s| && Jumps(s[r[k] - 1], s[r[k]], limit)
    ensures forall i :: 1 <= i < |s| && Jumps(s[i - 1], s[i], limit) ==> i in r
    ensures forall k, l :: 0 <= k < l < |r| ==> r[k] < r[l]
    ensures |r| == 0 <==> !HasJump(s, limit)
  {
    if |s| <= 1 then []
    else
      var n := |s| - 1;
      var rest := JumpDays(s[..n], limit);
      if Jumps(s[n - 1], s[n], limit) then rest + [n]
      else
        assert HasJump(s, limit) ==> HasJump(s[..n], limit) by {
          if HasJump(s, limit) {
            var i :| 1 <= i < |s| && Jumps(s[i - 1], s[i], limit);
            assert s[..n][i - 1] == s[i - 1] && s[..n][i] == s[i];
          }
        }
        rest
  }

  /** Indices `i >= 1` whose date lies more than `MaxDateGap` days after
      the previous one, in increasing order. */
  function GapDays(dates: seq<real>): (r: seq<nat>)
    ensures forall k :: 0 <= k < |r| ==> 1 <= r[k] < |dates| && Gap(dates[r[k] - 1], dates[r[k]])
    ensures forall i :: 1 <= i < |dates| && Gap(dates[i - 1], dates[i]) ==> i in r
    ensures forall k, l :: 0 <= k < l < |r| ==> r[k] < r[l]
    ensures |r| == 0 <==> !HasGap(dates)
  {
    if |dates| <= 1 then []
    else
      var n := |dates| - 1;
      var rest := GapDays(dates[..n]);
      if Gap(dates[n - 1], dates[n]) then rest + [n]
      else
        assert HasGap(dates) ==> HasGap(dates[..n]) by {
          if HasGap(dates) {
            var i :| 1 <= i < |dates| && Gap(dates[i - 1], dates[i]);
            assert dates[..n][i - 1] == dates[i - 1] && dates[..n][i] == dates[i];
          }
        }
        rest
  }

  /** `validate_price_data`: a non-table is invalid; missing required
      columns are one error, reported before anything else is examined;
      otherwise the table is valid, with one warning, in this order, for
      each kind of anomaly present: date gaps above five days, closing-price
      jumps above 20%, volume changes above tenfold, each listing the days
      concerned. */
  function ValidatePriceData(input: PriceInput): (r: Report)
    ensures r.valid <==> |r.errors| == 0
    ensures r.valid <==> input.Frame? && forall c :: c in RequiredColumns ==> c in input.columns
    ensures input.Frame? && !r.valid ==> r.errors == [MissingColumns(Missing(RequiredColumns, input.columns))]
    ensures !r.valid ==> r.warnings == []
    ensures r.valid ==>
              r.warnings == (if HasGap(input.dates) then [DateGaps(GapDays(input.dates))] else [])
                            + (if HasJump(input.close, MaxDailyChange)
                               then [AbnormalReturns(JumpDays(input.close, MaxDailyChange))] else [])
                            + (if HasJump(input.volume, MaxVolumeChange)
                               then [AbnormalVolumes(JumpDays(input.volume, MaxVolumeChange))] else [])
  {
    match input
    case NotAFrame => Report(false, [BadPriceFormat], [])
    case Frame(columns, dates, close, volume) =>
      var missing := Missing(RequiredColumns, columns);
      if |missing| > 0 then
        assert missing[0] in missing;
        Report(false, [MissingColumns(missing)], [])
      else
        assert forall c :: c in RequiredColumns ==> c in columns;
        var gaps := GapDays(dates);
        var moves := JumpDays(close, MaxDailyChange);
        var volumes := JumpDays(volume, MaxVolumeChange);
        Report(true, [],
               (if |gaps| > 0 then [DateGaps(gaps)] else [])
               + (if |moves| > 0 then [AbnormalReturns(moves)] else [])
               + (if |volumes| > 0 then [AbnormalVolumes(volumes)] else []))
  }

  /** Prices that move by at most 20% a day, volumes that grow at most
      elevenfold (a change of at most +1000%), and dates at most five days
      apart pass with no warning. */
  lemma SteadyPricesPassCleanly(columns: set<string>, dates: seq<real>, close: seq<real>, volume: seq<real>)
    requires forall c :: c in RequiredColumns ==> c in columns
    requires forall i :: 1 <= i < |dates| ==> !Gap(dates[i - 1], dates[i])
    requires forall i :: 1 <= i < |close| ==> Within(close[i - 1], close[i], 0.8, 1.2)
    requires forall i :: 1 <= i < |volume| ==> Within(volume[i - 1], volume[i], 0.0, 11.0)
    ensures ValidatePriceData(Frame(columns, dates, close, volume)) == Report(true, [], [])
  {
    forall i | 1 <= i < |close|
      ensures !Jumps(close[i - 1], close[i], MaxDailyChange)
    {
      BoundedRatio(close[i - 1], close[i], 0.8, 1.2);
    }
    forall i | 1 <= i < |volume|
      ensures !Jumps(volume[i - 1], volume[i], MaxVolumeChange)
    {
      BoundedRatio(volume[i - 1], volume[i], 0.0, 11.0);
    }
  }

  /** `cur` lies between `lo` and `hi` times a positive `prev`. */
  predicate Within(prev: real, cur: real, lo: real, hi: real) {
    prev > 0.0 && lo * prev <= cur <= hi * prev
  }

  /** Sign of a product with a positive factor. */
  lemma SignOfProduct(d: real, y: real)
    requires y > 0.0
    ensures d * y > 0.0 <==> d > 0.0
    ensures d * y >= 0.0 <==> d >= 0.0
  {
  }

  /** `x / y > b` for positive `y` is `x > b * y`. */
  lemma RatioAgainstBound(x: real, y: real, b: real)
    requires y > 0.0
    ensures x / y > b <==> x > b * y
  {
    var q := x / y;
    var d := q - b;
    assert q * y == x;
    assert d * y == x - b * y;
    SignOfProduct(d, y);
    assert x / y > b <==> d > 0.0;
    assert d > 0.0 <==> x - b * y > 0.0;
  }

  lemma BoundedRatio(prev: real, cur: real, lo: real, hi: real)
    requires prev > 0.0 && lo * prev <= cur <= hi * prev
    ensures lo <= cur / prev <= hi
  {
    var q := cur / prev;
    assert cur - lo * prev == (q - lo) * prev;
    assert hi * prev - cur == (hi - q) * prev;
    SignOfProduct(q - lo, prev);
    SignOfProduct(hi - q, prev);
  }

  /** A 25% rise is reported at its day, a 4% fall is not, and so is a
      move away from a zero price but not a zero price that stays zero. */
  lemma JumpExample()
    ensures JumpDays([100.0, 125.0, 120.0], MaxDailyChange) == [1]
    ensures JumpDays([0.0, 0.0, 5.0], MaxDailyChange) == [2]
  {
    assert !Jumps(125.0, 120.0, MaxDailyChange) by {
      assert 120.0 / 125.0 == 0.96;
    }
    assert Jumps(100.0, 125.0, MaxDailyChange) by {
      assert 125.0 / 100.0 == 1.25;
    }
  }

  /** `validate_financial_data`. Total assets (default 0) below zero are an
      error; total liabilities above 95% of positive total assets and a
      return on equity (net income, default 0, over total equity, default 1)
      above 100% in absolute value are warnings, in that order. A zero total
      equity makes the ROE division raise out of the validator: `None`. */
  function ValidateFinancialData(input: FinancialInput): (r: Option<Report>)
    ensures r.None? <==> input.Statement? && Indicators.Lookup(input.items, "Total Equity", 1.0) == 0.0
    ensures r.Some? ==> (r.value.valid <==> |r.value.errors| == 0)
    ensures input.NotADict? ==> r == Some(Report(false, [BadFinancialFormat], []))
    ensures input.Statement? && r.Some? ==>
              var m := input.items;
              var assets := Indicators.Lookup(m, "Total Assets", 0.0);
              var liabilities := Indicators.Lookup(m, "Total Liabilities", 0.0);
              var equity := Indicators.Lookup(m, "Total Equity", 1.0);
              var income := Indicators.Lookup(m, "Net Income", 0.0);
              && (r.value.valid <==> assets >= MinTotalAssets)
              && r.value.errors == (if r.value.valid then [] else [BadTotalAssets])
              && r.value.warnings
                 == (if assets > 0.0 && liabilities > MaxDebtRatio * assets
                     then [HighDebt(liabilities / assets)] else [])
                    + (if Abs(income) > MaxRoe * Abs(equity) then [AbnormalRoe(income / equity)] else [])
  {
    match input
    case NotADict => Some(Report(false, [BadFinancialFormat], []))
    case Statement(m) =>
      var assets := Indicators.Lookup(m, "Total Assets", 0.0);
      var liabilities := Indicators.Lookup(m, "Total Liabilities", 0.0);
      var income := Indicators.Lookup(m, "Net Income", 0.0);
      var equity := Indicators.Lookup(m, "Total Equity", 1.0);
      if equity == 0.0 then None
      else
        var errors := if assets < MinTotalAssets then [BadTotalAssets] else [];
        var debt := if assets > 0.0 && liabilities / assets > MaxDebtRatio then [HighDebt(liabilities / assets)] else [];
        var roe := income / equity;
        var roeWarning := if Abs(roe) > MaxRoe then [AbnormalRoe(roe)] else [];
        DebtAgainstBound(liabilities, assets);
        RoeAgainstBound(income, equity);
        Some(Report(|errors| == 0, errors, debt + roeWarning))
  }

  lemma DebtAgainstBound(liabilities: real, assets: real)
    ensures (assets > 0.0 && liabilities / assets > MaxDebtRatio) <==> (assets > 0.0 && liabilities > MaxDebtRatio * assets)
  {
    if assets > 0.0 {
      RatioAgainstBound(liabilities, assets, MaxDebtRatio);
    }
  }

  /** `|x / y| > 1` for nonzero `y` is `|x| > |y|`. */
  lemma RoeAgainstBound(x: real, y: real)
    requires y != 0.0
    ensures Abs(x / y) > MaxRoe <==> Abs(x) > MaxRoe * Abs(y)
  {
    var q := x / y;
    assert q * y == x;
    assert Abs(q) * Abs(y) == Abs(x);
    assert Abs(x) / Abs(y) == Abs(q);
    RatioAgainstBound(Abs(x), Abs(y), MaxRoe);
  }

  /** A balance sheet with positive assets, liabilities within 95% of them
      and net income no larger than equity in size passes with no warning. */
  lemma HealthyStatementPassesCleanly(m: map<string, real>)
    requires Indicators.Lookup(m, "Total Assets", 0.0) > 0.0
    requires Indicators.Lookup(m, "Total Liabilities", 0.0) <= MaxDebtRatio * Indicators.Lookup(m, "Total Assets", 0.0)
    requires Indicators.Lookup(m, "Total Equity", 1.0) != 0.0
    requires Abs(Indicators.Lookup(m, "Net Income", 0.0)) <= Abs(Indicators.Lookup(m, "Total Equity", 1.0))
    ensures ValidateFinancialData(Statement(m)) == Some(Report(true, [], []))
  {
  }

  /** The validator's warnings agree with the ratios the analysis computes
      from the same statement: the ROE warning fires exactly when the
      computed ROE exceeds 100% in size, and (total assets being reported)
      the debt warning exactly when the computed debt ratio exceeds 95% of
      positive assets; each warning carries the computed ratio. */
  lemma WarningsAgreeWithRatios(m: map<string, real>)
    requires Indicators.CalculateFinancialRatios(m).Some?
    requires "Total Assets" in m
    ensures var r := ValidateFinancialData(Statement(m));
            var ratios := Indicators.CalculateFinancialRatios(m).value;
            && r.Some?
            && r.value.warnings
               == (if m["Total Assets"] > 0.0 && ratios.debtRatio > MaxDebtRatio then [HighDebt(ratios.debtRatio)] else [])
                  + (if Abs(ratios.roe) > MaxRoe then [AbnormalRoe(ratios.roe)] else [])
  {
    var ratios := Indicators.CalculateFinancialRatios(m).value;
    var equity := Indicators.Lookup(m, "Total Equity", 1.0);
    var income := Indicators.Lookup(m, "Net Income", 0.0);
    var assets := m["Total Assets"];
    var liabilities := Indicators.Lookup(m, "Total Liabilities", 0.0);
    assert ratios.roe == income / equity by {
      assert ratios.roe * equity == income;
    }
    RoeAgainstBound(income, equity);
    assert ratios.debtRatio == liabilities / assets by {
      assert ratios.debtRatio * assets == liabilities;
    }
    DebtAgainstBound(liabilities, assets);
  }
}
