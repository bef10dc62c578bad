/** The category-level weight map of the scoring engine, as an immutable
    record, with the two primitive operations the weight adjuster uses:
    multiplying one category's weight and renormalising. */
module Weights {
  import opened Wrappers

  datatype Category = Fundamental | Technical | Risk | Sentiment

  /** The `weight` entry of each category of the source's weight map. */
  datatype CategoryWeights = CategoryWeights(fundamental: real, technical: real, risk: real, sentiment: real)
  {
    function Get(c: Category): real {
      match c
      case Fundamental => fundamental
      case Technical => technical
      case Risk => risk
      case Sentiment => sentiment
    }

    function Total(): real {
      fundamental + technical + risk + sentiment
    }

    predicate Positive() {
      fundamental > 0.0 && technical > 0.0 && risk > 0.0 && sentiment > 0.0
    }

    predicate Normalized() {
      Total() == 1.0
    }
  }

  /** Weight maps that agree on every category are the same map. */
  lemma Extensionality(v: CategoryWeights, w: CategoryWeights)
    requires forall c :: v.Get(c) == w.Get(c)
    ensures v == w
  {
    assert v.Get(Fundamental) == w.Get(Fundamental);
    assert v.Get(Technical) == w.Get(Technical);
    assert v.Get(Risk) == w.Get(Risk);
    assert v.Get(Sentiment) == w.Get(Sentiment);
  }

  /** `weights[category]['weight'] *= factor`: one category is multiplied and
      nothing else changes. */
  function Scale(w: CategoryWeights, c: Category, factor: real): (r: CategoryWeights)
    ensures r.Get(c) == w.Get(c) * factor
    ensures forall d :: d != c ==> r.Get(d) == w.Get(d)
  {
    match c
    case Fundamental => w.(fundamental := w.fundamental * factor)
    case Technical => w.(technical := w.technical * factor)
    case Risk => w.(risk := w.risk * factor)
    case Sentiment => w.(sentiment := w.sentiment * factor)
  }

  /** Category-wise product of a weight map and a multiplier table. */
  function Mul(w: CategoryWeights, m: CategoryWeights): (r: CategoryWeights)
    ensures forall c :: r.Get(c) == w.Get(c) * m.Get(c)
  {
    CategoryWeights(w.fundamental * m.fundamental, w.technical * m.technical,
                    w.risk * m.risk, w.sentiment * m.sentiment)
  }

  /** The multiplier table that multiplies every category by `s`. */
  function Uniform(s: real): CategoryWeights {
    CategoryWeights(s, s, s, s)
  }

  /** Every weight multiplied by the same factor `s`. */
  function ScaleAll(w: CategoryWeights, s: real): CategoryWeights {
    Mul(w, Uniform(s))
  }

  /** The number that multiplies `t` to 1. */
  function Inverse(t: real): (i: real)
    requires t != 0.0
    ensures t * i == 1.0
  {
    1.0 / t
  }

  /** `_normalize_weights`: divide every weight by the total, that is,
      multiply it by the inverse of the total. A zero total is Python's
      `ZeroDivisionError`, reported as `None`. With a non-zero total the
      result sums to 1, keeps positivity, and leaves an already normalised
      map unchanged; `NormalizeShare` and `NormalizeKeepsRatio` state what
      each share is. */
  function Normalize(w: CategoryWeights): (r: Option<CategoryWeights>)
    ensures r.Some? <==> w.Total() != 0.0
    ensures r.Some? ==> r.value.Normalized()
    ensures w.Positive() ==> r.Some? && r.value.Positive()
    ensures w.Normalized() ==> r == Some(w)
  {
    var t := w.Total();
    if t == 0.0 then None
    else
      var i := Inverse(t);
      InverseSumsToOne(w, i);
      InverseKeepsPositive(w, i);
      InverseOfOne(w, i);
      Some(ScaleAll(w, i))
  }

  lemma InverseSumsToOne(w: CategoryWeights, i: real)
    requires w.Total() * i == 1.0
    ensures ScaleAll(w, i).Normalized()
  {
    assert ScaleAll(w, i).Total() == w.Total() * i;
  }

  lemma InverseKeepsPositive(w: CategoryWeights, i: real)
    requires w.Total() * i == 1.0
    ensures w.Positive() ==> ScaleAll(w, i).Positive()
  {
    if w.Positive() {
      PositiveFactor(w.Total(), i);
      PositiveProduct(w.fundamental, i);
      PositiveProduct(w.technical, i);
      PositiveProduct(w.risk, i);
      PositiveProduct(w.sentiment, i);
    }
  }

  lemma InverseOfOne(w: CategoryWeights, i: real)
    requires w.Total() * i == 1.0
    ensures w.Normalized() ==> ScaleAll(w, i) == w
  {
  }

  /** Each renormalised weight is the category's share of the total. */
  lemma NormalizeShare(w: CategoryWeights, c: Category)
    requires w.Total() != 0.0
    ensures Normalize(w).value.Get(c) * w.Total() == w.Get(c)
  {
    var t := w.Total();
    var i := Inverse(t);
    assert Normalize(w).value.Get(c) == w.Get(c) * i;
    ShareTimesTotal(w.Get(c), t, i);
  }

  lemma ShareTimesTotal(a: real, t: real, i: real)
    requires t * i == 1.0
    ensures a * i * t == a
  {
    assert a * i * t == a * (t * i);
  }

  /** Renormalising keeps the ratio of any two categories. */
  lemma NormalizeKeepsRatios(w: CategoryWeights)
    requires w.Total() != 0.0
    ensures var n := Normalize(w).value;
      && n.fundamental * w.technical == n.technical * w.fundamental
      && n.fundamental * w.risk == n.risk * w.fundamental
      && n.fundamental * w.sentiment == n.sentiment * w.fundamental
      && n.technical * w.risk == n.risk * w.technical
      && n.technical * w.sentiment == n.sentiment * w.technical
      && n.risk * w.sentiment == n.sentiment * w.risk
  {
    var n := Normalize(w).value;
    NormalizeShare(w, Fundamental);
    NormalizeShare(w, Technical);
    NormalizeShare(w, Risk);
    NormalizeShare(w, Sentiment);
    SharesKeepRatios(n, w);
  }

  /** Shares of one total are in the ratio of the weights they come from. */
  lemma SharesKeepRatios(n: CategoryWeights, w: CategoryWeights)
    requires n.fundamental * w.Total() == w.fundamental && n.technical * w.Total() == w.technical
    requires n.risk * w.Total() == w.risk && n.sentiment * w.Total() == w.sentiment
    ensures n.fundamental * w.technical == n.technical * w.fundamental
    ensures n.fundamental * w.risk == n.risk * w.fundamental
    ensures n.fundamental * w.sentiment == n.sentiment * w.fundamental
    ensures n.technical * w.risk == n.risk * w.technical
    ensures n.technical * w.sentiment == n.sentiment * w.technical
    ensures n.risk * w.sentiment == n.sentiment * w.risk
  {
    var t := w.Total();
    CrossFromScale(n.fundamental, n.technical, w.fundamental, w.technical, t);
    CrossFromScale(n.fundamental, n.risk, w.fundamental, w.risk, t);
    CrossFromScale(n.fundamental, n.sentiment, w.fundamental, w.sentiment, t);
    CrossFromScale(n.technical, n.risk, w.technical, w.risk, t);
    CrossFromScale(n.technical, n.sentiment, w.technical, w.sentiment, t);
    CrossFromScale(n.risk, n.sentiment, w.risk, w.sentiment, t);
  }

  /** Two numbers that scale to `a` and `b` by the same factor are in the
      ratio of `a` to `b`. */
  lemma CrossFromScale(x: real, y: real, a: real, b: real, t: real)
    requires x * t == a && y * t == b
    ensures x * b == y * a
  {
    assert x * b == x * (y * t);
    assert y * a == y * (x * t);
  }

  lemma PositiveFactor(t: real, i: real)
    requires t > 0.0 && t * i == 1.0
    ensures i > 0.0
  {
  }

  lemma PositiveProduct(a: real, b: real)
    requires a > 0.0 && b > 0.0
    ensures a * b > 0.0
  {
  }

  /** Scaling twice is scaling by the product of the factors. */
  lemma ScaleAllTwice(w: CategoryWeights, s: real, u: real)
    ensures ScaleAll(ScaleAll(w, s), u) == ScaleAll(w, s * u)
  {
    MulAssociative(w, Uniform(s), Uniform(u));
    assert Mul(Uniform(s), Uniform(u)) == Uniform(s * u);
  }

  /** The inverse of `t * s`, multiplied by `s`, is the inverse of `t`. */
  lemma InverseOfProduct(t: real, s: real)
    requires t != 0.0 && s != 0.0
    ensures s * Inverse(t * s) == Inverse(t)
  {
    var j := Inverse(t * s);
    assert t * (s * j) == 1.0;
    assert t * Inverse(t) == 1.0;
    assert t * (s * j - Inverse(t)) == 0.0;
  }

  /** Renormalisation ignores a common factor: scaling every weight by the
      same non-zero number first changes nothing. */
  lemma NormalizeScaleInvariant(w: CategoryWeights, s: real)
    requires s != 0.0 && w.Total() != 0.0
    ensures Normalize(ScaleAll(w, s)) == Normalize(w)
  {
    var t := w.Total();
    ScaleAllTotal(w, s);
    NonZeroProduct(t, s);
    var j := Inverse(t * s);
    InverseOfProduct(t, s);
    ScaleAllTwice(w, s, j);
    NormalizeBy(ScaleAll(w, s), t * s);
    NormalizeBy(w, t);
    assert s * j == Inverse(t);
    assert ScaleAll(ScaleAll(w, s), j) == ScaleAll(w, s * j);
    assert ScaleAll(w, s * j) == ScaleAll(w, Inverse(t));
    assert Normalize(ScaleAll(w, s)) == Some(ScaleAll(ScaleAll(w, s), j));
    assert Normalize(w) == Some(ScaleAll(w, Inverse(t)));
  }

  /** Renormalising a map whose total is known to be `k`. */
  lemma NormalizeBy(w: CategoryWeights, k: real)
    requires w.Total() == k && k != 0.0
    ensures Normalize(w) == Some(ScaleAll(w, Inverse(k)))
  {
  }

  lemma ScaleAllTotal(w: CategoryWeights, s: real)
    ensures ScaleAll(w, s).Total() == w.Total() * s
  {
  }

  lemma NonZeroProduct(a: real, b: real)
    requires a != 0.0 && b != 0.0
    ensures a * b != 0.0
  {
  }

  lemma MulPositive(w: CategoryWeights, m: CategoryWeights)
    requires w.Positive() && m.Positive()
    ensures Mul(w, m).Positive()
  {
  }

  /** Renormalising before a multiplicative pass does not change the pass's
      renormalised result: in exact arithmetic only the product of the
      multipliers matters. */
  lemma RenormalizeThenScale(x: CategoryWeights, m: CategoryWeights)
    requires x.Total() != 0.0 && Mul(x, m).Total() != 0.0
    ensures Normalize(Mul(Normalize(x).value, m)) == Normalize(Mul(x, m))
  {
    var i := Inverse(x.Total());
    assert i != 0.0;
    MulAssociative(x, Uniform(i), m);
    MulCommutative(Uniform(i), m);
    MulAssociative(x, m, Uniform(i));
    NormalizeScaleInvariant(Mul(x, m), i);
  }

  lemma MulAssociative(w: CategoryWeights, a: CategoryWeights, b: CategoryWeights)
    ensures Mul(Mul(w, a), b) == Mul(w, Mul(a, b))
  {
    assert (w.fundamental * a.fundamental) * b.fundamental == w.fundamental * (a.fundamental * b.fundamental);
    assert (w.technical * a.technical) * b.technical == w.technical * (a.technical * b.technical);
    assert (w.risk * a.risk) * b.risk == w.risk * (a.risk * b.risk);
    assert (w.sentiment * a.sentiment) * b.sentiment == w.sentiment * (a.sentiment * b.sentiment);
  }

  lemma MulCommutative(a: CategoryWeights, b: CategoryWeights)
    ensures Mul(a, b) == Mul(b, a)
  {
  }
}
