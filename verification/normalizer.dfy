/** `normalize_factor` (`stock_analyzer/models.py`): maps a factor's values
    to comparable scores. */
module Normalizer {
  import opened Floats
  import opened Stats

  /** The requested normalisation method. `Unknown` is any other string. */
  datatype Method = ZScore | MinMax | Rank | Unknown

  /** `(x - min) / (max - min)` for every entry, all zeros for a constant
      sequence. */
  function MinMaxScale(s: seq<real>): (r: seq<real>)
    requires |s| > 0
    ensures |r| == |s|
  {
    var lo, hi := SeqMin(s), SeqMax(s);
    if lo == hi then seq(|s|, i => 0.0)
    else seq(|s|, i requires 0 <= i < |s| => (s[i] - lo) / (hi - lo))
  }

  /** scipy's `rankdata` (method 'average'): entry `i` takes the mean of the
      1-based positions its value occupies in sorted order, that is the
      number of smaller entries plus (ties + 1) / 2. */
  function AverageRank(s: seq<real>, i: int): real
    requires 0 <= i < |s|
  {
    CountLess(s, s[i]) as real + (CountEqual(s, s[i]) as real + 1.0) / 2.0
  }

  /** `rankdata(s) / len(s)`. */
  function RankScale(s: seq<real>): (r: seq<real>)
    requires |s| > 0
    ensures |r| == |s|
  {
    seq(|s|, i requires 0 <= i < |s| => AverageRank(s, i) / |s| as real)
  }

  /** `normalize_factor`. Empty input gives `[0.0]`. A single value is
      clamped to [0, 1] whatever the method: the reference-range lookup
      searches the printed array for a key name and never finds one, so the
      default range [0, 1] always applies. Two or more values go through
      min-max or rank scaling; an unrecognised method returns them
      unchanged. The z-score branch for two or more values is not modelled. */
  function NormalizeFactor(data: seq<real>, how: Method): (r: seq<real>)
    requires how == ZScore ==> |data| <= 1
    ensures |data| == 0 ==> r == [0.0]
    ensures |data| == 1 ==> r == [Clamp(data[0], 0.0, 1.0)]
    ensures |data| >= 1 ==> |r| == |data|
    ensures |data| >= 2 && how == Unknown ==> r == data
  {
    if |data| == 0 then [0.0]
    else if |data| == 1 then [Clamp((data[0] - 0.0) / (1.0 - 0.0), 0.0, 1.0)]
    else match how
      case MinMax => MinMaxScale(data)
      case Rank => RankScale(data)
      case Unknown => data
  }

  /** The single-value path used by every category scorer, lifted to floats
      (NaN passes through `np.clip`). Values inside [0, 1] are unchanged. */
  function NormalizeSingle(x: Float, how: Method): (r: Float)
    ensures r.NaN? <==> x.NaN?
    ensures r.Real? ==> 0.0 <= r.value <= 1.0
    ensures x.Real? && 0.0 <= x.value <= 1.0 ==> r == x
    ensures x.Real? && x.value <= 0.0 ==> r == Real(0.0)
    ensures x.Real? && x.value >= 1.0 ==> r == Real(1.0)
  {
    match x
    case NaN => NaN
    case Real(v) => Real(NormalizeFactor([v], how)[0])
  }

  /** The single-value path never reverses the order of two values. */
  lemma NormalizeSingleMonotone(x: real, y: real, how: Method)
    requires x <= y
    ensures NormalizeSingle(Real(x), how).value <= NormalizeSingle(Real(y), how).value
  {
    ClampMonotone(x, y, 0.0, 1.0);
  }

  /** Arithmetic of one min-max score. */
  lemma UnitScale(x: real, lo: real, hi: real)
    requires lo < hi && lo <= x <= hi
    ensures 0.0 <= (x - lo) / (hi - lo) <= 1.0
    ensures (x - lo) / (hi - lo) == 0.0 <==> x == lo
    ensures (x - lo) / (hi - lo) == 1.0 <==> x == hi
  {
    var d := hi - lo;
    assert (x - lo) / d * d == x - lo;
  }

  lemma UnitScaleMonotone(x: real, y: real, lo: real, hi: real)
    requires lo < hi && x <= y
    ensures (x - lo) / (hi - lo) <= (y - lo) / (hi - lo)
  {
  }

  /** Min-max scaling of two or more values: zeros for a constant input;
      otherwise every score lies in [0, 1], order is kept, and exactly the
      minima score 0 and the maxima score 1. */
  lemma MinMaxProperties(s: seq<real>)
    requires |s| >= 2
    ensures var r := NormalizeFactor(s, MinMax);
            (SeqMin(s) == SeqMax(s) ==> forall i :: 0 <= i < |r| ==> r[i] == 0.0)
    ensures var r := NormalizeFactor(s, MinMax);
            SeqMin(s) != SeqMax(s) ==>
              && (forall i :: 0 <= i < |r| ==> 0.0 <= r[i] <= 1.0)
              && (forall i :: 0 <= i < |r| ==> (r[i] == 0.0 <==> s[i] == SeqMin(s)))
              && (forall i :: 0 <= i < |r| ==> (r[i] == 1.0 <==> s[i] == SeqMax(s)))
  {
    var r := NormalizeFactor(s, MinMax);
    var lo, hi := SeqMin(s), SeqMax(s);
    if lo != hi {
      assert lo < hi by {
        assert lo <= s[0] <= hi;
      }
      forall i | 0 <= i < |r|
        ensures 0.0 <= r[i] <= 1.0
        ensures r[i] == 0.0 <==> s[i] == lo
        ensures r[i] == 1.0 <==> s[i] == hi
      {
        assert r[i] == (s[i] - lo) / (hi - lo);
        UnitScale(s[i], lo, hi);
      }
    }
  }

  /** Min-max scaling never reverses the order of two entries. */
  lemma MinMaxKeepsOrder(s: seq<real>, i: int, j: int)
    requires |s| >= 2 && 0 <= i < |s| && 0 <= j < |s| && s[i] <= s[j]
    ensures NormalizeFactor(s, MinMax)[i] <= NormalizeFactor(s, MinMax)[j]
  {
    var lo, hi := SeqMin(s), SeqMax(s);
    if lo != hi {
      assert lo < hi by {
        assert lo <= s[0] <= hi;
      }
      UnitScaleMonotone(s[i], s[j], lo, hi);
    }
  }

  /** Arithmetic of the average rank: with `less + equal <= n` and at least
      one tie (the entry itself), the rank lies in [1, n]. */
  lemma AverageRankBounds(less: nat, equal: nat, n: nat)
    requires less + equal <= n && equal >= 1
    ensures 1.0 <= less as real + (equal as real + 1.0) / 2.0 <= n as real
  {
  }

  lemma DivideByCount(a: real, b: real, n: real)
    requires 1.0 <= n
    ensures 1.0 <= a <= n ==> 0.0 < a / n <= 1.0
    ensures a < b ==> a / n < b / n
  {
    if 1.0 <= a <= n {
      assert a / n <= n / n;
    }
  }

  /** Every rank score lies in (0, 1]. */
  lemma RankInUnitInterval(s: seq<real>, i: int)
    requires |s| >= 2 && 0 <= i < |s|
    ensures 0.0 < NormalizeFactor(s, Rank)[i] <= 1.0
  {
    CountsBounded(s, s[i]);
    CountEqualOfMember(s, i);
    AverageRankBounds(CountLess(s, s[i]), CountEqual(s, s[i]), |s|);
    DivideByCount(AverageRank(s, i), 0.0, |s| as real);
    assert NormalizeFactor(s, Rank) == RankScale(s);
  }

  /** A strictly smaller value gets a strictly smaller rank score; equal
      values get equal scores. */
  lemma RankKeepsOrder(s: seq<real>, i: int, j: int)
    requires |s| >= 2 && 0 <= i < |s| && 0 <= j < |s|
    ensures s[i] < s[j] ==> NormalizeFactor(s, Rank)[i] < NormalizeFactor(s, Rank)[j]
    ensures s[i] == s[j] ==> NormalizeFactor(s, Rank)[i] == NormalizeFactor(s, Rank)[j]
  {
    assert NormalizeFactor(s, Rank) == RankScale(s);
    if s[i] < s[j] {
      CountEqualOfMember(s, j);
      CountLessGrows(s, s[i], s[j]);
      DivideByCount(AverageRank(s, i), AverageRank(s, j), |s| as real);
    }
  }
}
