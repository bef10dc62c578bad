/** The command-line driver (`run.py`): symbol validation, the map of
    per-symbol results that `analyze_stocks` builds, and the success tally
    `main` prints. The analysis of one symbol is outside this module: its
    outcome for each position of the argument list is a parameter. */
module Run {
  import opened Wrappers

  const MaxSymbolLength: nat := 6

  /** ASCII upper-casing of one character. */
  function UpperChar(c: char): (r: char)
    ensures 'a' <= c <= 'z' ==> 'A' <= r <= 'Z' && r as int - c as int == 'A' as int - 'a' as int
    ensures !('a' <= c <= 'z') ==> r == c
  {
    if 'a' <= c <= 'z' then (c as int - 'a' as int + 'A' as int) as char else c
  }

  predicate NoLowerCase(s: string) {
    forall i :: 0 <= i < |s| ==> !('a' <= s[i] <= 'z')
  }

  /** `str.upper` restricted to ASCII: every lower-case letter becomes its
      capital, everything else is kept, and the length is unchanged. */
  function Upper(s: string): (r: string)
    ensures |r| == |s|
    ensures forall i :: 0 <= i < |s| ==> r[i] == UpperChar(s[i])
    ensures NoLowerCase(r)
  {
    if |s| == 0 then [] else Upper(s[..|s| - 1]) + [UpperChar(s[|s| - 1])]
  }

  /** Upper-casing leaves a string without lower-case letters unchanged,
      and in particular is idempotent. */
  lemma UpperFixesUpperCase(s: string)
    requires NoLowerCase(s)
    ensures Upper(s) == s
  {
  }

  /** `validate_symbol`: an empty symbol is rejected; otherwise the symbol
      is upper-cased and accepted when it has at most six characters. */
  function ValidateSymbol(s: string): (r: Option<string>)
    ensures r.Some? <==> 1 <= |s| <= MaxSymbolLength
    ensures r.Some? ==> r.value == Upper(s)
  {
    if |s| == 0 then None
    else
      var u := Upper(s);
      if |u| < 1 || |u| > MaxSymbolLength then None else Some(u)
  }

  /** Re-validating an accepted symbol returns it unchanged, and validation
      ignores letter case. */
  lemma ValidateSymbolIdempotent(s: string)
    requires ValidateSymbol(s).Some?
    ensures ValidateSymbol(ValidateSymbol(s).value) == ValidateSymbol(s)
  {
    UpperFixesUpperCase(Upper(s));
  }

  lemma ValidateSymbolIgnoresCase(s: string)
    ensures ValidateSymbol(Upper(s)) == ValidateSymbol(s)
  {
    UpperFixesUpperCase(Upper(s));
  }

  lemma SymbolExamples()
    ensures ValidateSymbol("aapl") == Some("AAPL")
    ensures ValidateSymbol("") == None
    ensures ValidateSymbol("toolong") == None
  {
    assert Upper("aapl") == "AAPL";
  }

  /** What analysing one symbol yields: a report path (an empty path counts
      as no report), no report, or an exception with its message. */
  datatype Outcome = Report(path: string) | NoReport | Raised(message: string)

  /** The entry `analyze_stocks` records for a symbol. */
  datatype Status = Succeeded(reportPath: string) | Failed(error: string) | Errored(error: string)

  const AnalysisFailed: string := "分析失败"

  function StatusOf(o: Outcome): (s: Status)
    ensures s.Succeeded? <==> o.Report? && |o.path| > 0
    ensures s.Errored? <==> o.Raised?
  {
    match o
    case Report(path) => if |path| > 0 then Succeeded(path) else Failed(AnalysisFailed)
    case NoReport => Failed(AnalysisFailed)
    case Raised(message) => Errored(message)
  }

  /** Whether position `i` of the argument list validates to `k`. */
  predicate Names(symbols: seq<string>, i: int, k: string) {
    0 <= i < |symbols| && ValidateSymbol(symbols[i]) == Some(k)
  }

  /** Position `i` is the last one of the list that validates to `k`. */
  predicate LastNames(symbols: seq<string>, i: int, k: string) {
    Names(symbols, i, k) && forall j :: i < j < |symbols| ==> !Names(symbols, j, k)
  }

  /** `analyze_stocks`: invalid symbols are skipped; each valid one is
      analysed and its status recorded under the normalised symbol, a later
      occurrence of the same symbol overwriting an earlier one.
      `outcomes[i]` is what analysing position `i` yields. */
  function AnalyzeStocks(symbols: seq<string>, outcomes: seq<Outcome>): (r: map<string, Status>)
    requires |outcomes| == |symbols|
    ensures |r| <= |symbols|
  {
    if |symbols| == 0 then map[]
    else
      var n := |symbols| - 1;
      var rest := AnalyzeStocks(symbols[..n], outcomes[..n]);
      match ValidateSymbol(symbols[n])
      case None => rest
      case Some(k) => rest[k := StatusOf(outcomes[n])]
  }

  /** The results hold exactly the accepted symbols. */
  lemma AnalyzeStocksKeys(symbols: seq<string>, outcomes: seq<Outcome>)
    requires |outcomes| == |symbols|
    ensures forall k :: k in AnalyzeStocks(symbols, outcomes) <==> exists i :: Names(symbols, i, k)
  {
    forall k
      ensures k in AnalyzeStocks(symbols, outcomes) <==> exists i :: Names(symbols, i, k)
    {
      AnalyzeStocksKey(symbols, outcomes, k);
    }
  }

  lemma {:induction false} AnalyzeStocksKey(symbols: seq<string>, outcomes: seq<Outcome>, k: string)
    requires |outcomes| == |symbols|
    ensures k in AnalyzeStocks(symbols, outcomes) <==> exists i :: Names(symbols, i, k)
  {
    if |symbols| > 0 {
      var n := |symbols| - 1;
      var prefix := symbols[..n];
      AnalyzeStocksKey(prefix, outcomes[..n], k);
      var rest := AnalyzeStocks(prefix, outcomes[..n]);
      assert k in AnalyzeStocks(symbols, outcomes) <==> k in rest || Names(symbols, n, k);
      if exists i :: Names(symbols, i, k) {
        var i :| Names(symbols, i, k);
        if i < n {
          assert Names(prefix, i, k);
        }
      }
      if k in rest {
        var i :| Names(prefix, i, k);
        assert Names(symbols, i, k);
      }
    }
  }

  /** Each recorded symbol carries the status of its last occurrence in
      the list. */
  lemma {:induction false} AnalyzeStocksLastWins(symbols: seq<string>, outcomes: seq<Outcome>, i: int, k: string)
    requires |outcomes| == |symbols|
    requires LastNames(symbols, i, k)
    ensures k in AnalyzeStocks(symbols, outcomes) && AnalyzeStocks(symbols, outcomes)[k] == StatusOf(outcomes[i])
  {
    var n := |symbols| - 1;
    if i < n {
      var prefix := symbols[..n];
      assert !Names(symbols, n, k);
      assert Names(prefix, i, k);
      forall j | i < j < n
        ensures !Names(prefix, j, k)
      {
        assert !Names(symbols, j, k);
      }
      AnalyzeStocksLastWins(prefix, outcomes[..n], i, k);
    }
  }

  /** What `main` prints at the end: the number of successes out of the
      number of symbols recorded, and the entries that did not succeed. */
  datatype Summary = Summary(successes: nat, total: nat, failed: map<string, Status>)

  function Tally(results: map<string, Status>): (t: Summary)
    ensures t.total == |results|
    ensures t.successes <= t.total
    ensures t.successes + |t.failed| == t.total
    ensures forall k :: k in t.failed <==> k in results && !results[k].Succeeded?
    ensures forall k :: k in t.failed ==> t.failed[k] == results[k]
  {
    var succeeded := set k | k in results && results[k].Succeeded?;
    var failed := map k | k in results && !results[k].Succeeded? :: results[k];
    assert failed.Keys + succeeded == results.Keys;
    assert failed.Keys * succeeded == {};
    Summary(|succeeded|, |results|, failed)
  }

  /** Every symbol accepted and distinct after upper-casing, all analyses
      producing a report: the tally shows every symbol as a success. */
  lemma AllReportsSucceed(symbols: seq<string>, outcomes: seq<Outcome>)
    requires |outcomes| == |symbols|
    requires forall i :: 0 <= i < |symbols| ==> ValidateSymbol(symbols[i]).Some?
    requires forall i :: 0 <= i < |outcomes| ==> outcomes[i].Report? && |outcomes[i].path| > 0
    ensures Tally(AnalyzeStocks(symbols, outcomes)).failed == map[]
    ensures Tally(AnalyzeStocks(symbols, outcomes)).successes == |AnalyzeStocks(symbols, outcomes)|
  {
    var r := AnalyzeStocks(symbols, outcomes);
    AnalyzeStocksKeys(symbols, outcomes);
    forall k | k in r
      ensures r[k].Succeeded?
    {
      var i :| Names(symbols, i, k);
      var last := LastOccurrence(symbols, i, k);
      AnalyzeStocksLastWins(symbols, outcomes, last, k);
    }
  }

  /** The last position of the list that names `k`, from one that does. */
  lemma LastOccurrence(symbols: seq<string>, i: int, k: string) returns (last: int)
    requires Names(symbols, i, k)
    ensures i <= last && Names(symbols, last, k)
    ensures forall j :: last < j < |symbols| ==> !Names(symbols, j, k)
    decreases |symbols| - i
  {
    if exists j :: i < j < |symbols| && Names(symbols, j, k) {
      var j :| i < j < |symbols| && Names(symbols, j, k);
      last := LastOccurrence(symbols, j, k);
    } else {
      last := i;
    }
  }
}
