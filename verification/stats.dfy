/** Sequence statistics shared by the indicators, the normaliser and the
    risk metrics: sums, window means, extrema, counts and sorting. */
module Stats {

  /** `sum(s)`, accumulated from the left as Python does. */
  function Sum(s: seq<real>): real
    decreases |s|
  {
    if |s| == 0 then 0.0 else Sum(s[..|s| - 1]) + s[|s| - 1]
  }

  lemma {:induction false} SumConcat(a: seq<real>, b: seq<real>)
    ensures Sum(a + b) == Sum(a) + Sum(b)
    decreases |b|
  {
    if |b| == 0 {
      assert a + b == a;
    } else {
      assert (a + b)[..|a + b| - 1] == a + b[..|b| - 1];
      SumConcat(a, b[..|b| - 1]);
    }
  }

  /** A sequence of `n` copies of `c` sums to `n * c`. */
  lemma {:induction false} SumConstant(s: seq<real>, c: real)
    requires forall i :: 0 <= i < |s| ==> s[i] == c
    ensures Sum(s) == |s| as real * c
    decreases |s|
  {
    if |s| > 0 {
      SumConstant(s[..|s| - 1], c);
    }
  }

  /** Every term between `lo` and `hi` puts the sum between `n * lo` and `n * hi`. */
  lemma {:induction false} SumBounds(s: seq<real>, lo: real, hi: real)
    requires forall i :: 0 <= i < |s| ==> lo <= s[i] <= hi
    ensures |s| as real * lo <= Sum(s) <= |s| as real * hi
    decreases |s|
  {
    if |s| > 0 {
      var n := |s| as real;
      SumBounds(s[..|s| - 1], lo, hi);
      assert Sum(s) == Sum(s[..|s| - 1]) + s[|s| - 1];
      assert (n - 1.0) * hi + hi == n * hi;
      assert (n - 1.0) * lo + lo == n * lo;
    }
  }

  /** Mean of the last `p` values: the latest entry of `rolling(window=p).mean()`. */
  function WindowMean(s: seq<real>, p: nat): real
    requires 1 <= p <= |s|
  {
    Sum(s[|s| - p..]) / p as real
  }

  function SeqMin(s: seq<real>): (m: real)
    requires |s| > 0
    ensures forall i :: 0 <= i < |s| ==> m <= s[i]
    ensures exists i :: 0 <= i < |s| && s[i] == m
    decreases |s|
  {
    if |s| == 1 then s[0]
    else
      var m' := SeqMin(s[..|s| - 1]);
      assert forall i :: 0 <= i < |s| - 1 ==> s[..|s| - 1][i] == s[i];
      if s[|s| - 1] < m' then s[|s| - 1] else m'
  }

  function SeqMax(s: seq<real>): (m: real)
    requires |s| > 0
    ensures forall i :: 0 <= i < |s| ==> s[i] <= m
    ensures exists i :: 0 <= i < |s| && s[i] == m
    decreases |s|
  {
    if |s| == 1 then s[0]
    else
      var m' := SeqMax(s[..|s| - 1]);
      assert forall i :: 0 <= i < |s| - 1 ==> s[..|s| - 1][i] == s[i];
      if s[|s| - 1] > m' then s[|s| - 1] else m'
  }

  /** Number of entries strictly below `x`. */
  function CountLess(s: seq<real>, x: real): nat
    decreases |s|
  {
    if |s| == 0 then 0
    else CountLess(s[..|s| - 1], x) + (if s[|s| - 1] < x then 1 else 0)
  }

  /** Number of entries equal to `x`. */
  function CountEqual(s: seq<real>, x: real): nat
    decreases |s|
  {
    if |s| == 0 then 0
    else CountEqual(s[..|s| - 1], x) + (if s[|s| - 1] == x then 1 else 0)
  }

  lemma {:induction false} CountsBounded(s: seq<real>, x: real)
    ensures CountLess(s, x) + CountEqual(s, x) <= |s|
    decreases |s|
  {
    if |s| > 0 {
      CountsBounded(s[..|s| - 1], x);
    }
  }

  lemma {:induction false} CountEqualOfMember(s: seq<real>, i: int)
    requires 0 <= i < |s|
    ensures CountEqual(s, s[i]) >= 1
    decreases |s|
  {
    if i < |s| - 1 {
      CountEqualOfMember(s[..|s| - 1], i);
    }
  }

  /** Every entry below or equal to `x` is strictly below a larger `y`. */
  lemma {:induction false} CountLessGrows(s: seq<real>, x: real, y: real)
    requires x < y
    ensures CountLess(s, y) >= CountLess(s, x) + CountEqual(s, x)
    decreases |s|
  {
    if |s| > 0 {
      CountLessGrows(s[..|s| - 1], x, y);
    }
  }

  predicate Sorted(s: seq<real>) {
    forall i, j :: 0 <= i < j < |s| ==> s[i] <= s[j]
  }

  function Insert(x: real, s: seq<real>): (r: seq<real>)
    requires Sorted(s)
    ensures Sorted(r)
    ensures multiset(r) == multiset(s) + multiset{x}
    decreases |s|
  {
    if |s| == 0 then [x]
    else if x <= s[0] then [x] + s
    else
      var t := Insert(x, s[1..]);
      assert s == [s[0]] + s[1..];
      FirstBoundsInsert(x, s, t);
      [s[0]] + t
  }

  /** Everything inserted after the first entry of a sorted sequence is at
      least that entry. */
  lemma FirstBoundsInsert(x: real, s: seq<real>, t: seq<real>)
    requires Sorted(s) && |s| > 0 && s[0] < x
    requires multiset(t) == multiset(s[1..]) + multiset{x}
    ensures forall k :: 0 <= k < |t| ==> s[0] <= t[k]
  {
    forall k | 0 <= k < |t|
      ensures s[0] <= t[k]
    {
      assert t[k] in multiset(t);
      if t[k] != x {
        assert t[k] in multiset(s[1..]);
        var j :| 0 <= j < |s[1..]| && s[1..][j] == t[k];
        assert s[j + 1] == t[k];
      }
    }
  }

  /** Ascending sort (insertion sort): a sorted permutation of the input. */
  function Sort(s: seq<real>): (r: seq<real>)
    ensures Sorted(r)
    ensures multiset(r) == multiset(s)
    ensures |r| == |s|
    decreases |s|
  {
    if |s| == 0 then []
    else
      assert s == [s[0]] + s[1..];
      var r := Insert(s[0], Sort(s[1..]));
      assert |r| == |multiset(r)|;
      r
  }

  /** The first entry of a sorted permutation is at most every input value,
      the last at least every input value. */
  lemma SortedEnds(s: seq<real>)
    requires |s| > 0
    ensures forall i :: 0 <= i < |s| ==> Sort(s)[0] <= s[i] <= Sort(s)[|s| - 1]
  {
    var r := Sort(s);
    forall i | 0 <= i < |s|
      ensures r[0] <= s[i] <= r[|s| - 1]
    {
      assert s[i] in multiset(s);
      assert s[i] in multiset(r);
      var k :| 0 <= k < |r| && r[k] == s[i];
    }
  }

  /** Every entry of a sorted permutation is an input value. */
  lemma SortedMembers(s: seq<real>, k: int)
    requires 0 <= k < |s|
    ensures exists i :: 0 <= i < |s| && s[i] == Sort(s)[k]
  {
    var r := Sort(s);
    assert r[k] in multiset(r);
    assert r[k] in multiset(s);
  }

  /** An entry that bounds every other entry is the maximum. */
  lemma SeqMaxIsAttained(s: seq<real>, k: int)
    requires 0 <= k < |s|
    requires forall i :: 0 <= i < |s| ==> s[i] <= s[k]
    ensures SeqMax(s) == s[k]
  {
    var j :| 0 <= j < |s| && s[j] == SeqMax(s);
  }

  /** An entry that every other entry bounds is the minimum. */
  lemma SeqMinIsAttained(s: seq<real>, k: int)
    requires 0 <= k < |s|
    requires forall i :: 0 <= i < |s| ==> s[k] <= s[i]
    ensures SeqMin(s) == s[k]
  {
    var j :| 0 <= j < |s| && s[j] == SeqMin(s);
  }

  /** The ends of the sorted permutation are the minimum and the maximum. */
  lemma SortEndsAreExtrema(s: seq<real>)
    requires |s| > 0
    ensures Sort(s)[0] == SeqMin(s)
    ensures Sort(s)[|s| - 1] == SeqMax(s)
  {
    var t := Sort(s);
    SortedEnds(s);
    SortedMembers(s, 0);
    SortedMembers(s, |s| - 1);
    var i :| 0 <= i < |s| && s[i] == t[0];
    SeqMinIsAttained(s, i);
    var j :| 0 <= j < |s| && s[j] == t[|s| - 1];
    SeqMaxIsAttained(s, j);
  }
}
