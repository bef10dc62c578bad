/** Double-precision values as the scoring engine sees them.

    Arithmetic is exact (`real`); the only IEEE-754 behaviour kept is NaN,
    because the engine relies on it: every ordered comparison with NaN is
    false, `np.clip` and Python's `min`/`max` (with NaN as first argument)
    return it unchanged, and it absorbs every sum and product. */
module Floats {

  datatype Float = Real(value: real) | NaN

  /** `x > c` on a float: false for NaN. */
  predicate Gt(x: Float, c: real) {
    x.Real? && x.value > c
  }

  /** `x < c` on a float: false for NaN. */
  predicate Lt(x: Float, c: real) {
    x.Real? && x.value < c
  }

  function Abs(x: real): (r: real)
    ensures r >= 0.0
    ensures r == x || r == -x
  {
    if x < 0.0 then -x else x
  }

  /** `np.clip(x, lo, hi)`, equally `min(max(x, lo), hi)`. */
  function Clamp(x: real, lo: real, hi: real): (r: real)
    requires lo <= hi
    ensures lo <= r <= hi
    ensures lo <= x <= hi ==> r == x
    ensures x < lo ==> r == lo
    ensures x > hi ==> r == hi
  {
    if x < lo then lo else if x > hi then hi else x
  }

  /** Clamping never reverses the order of its arguments. */
  lemma ClampMonotone(x: real, y: real, lo: real, hi: real)
    requires lo <= hi
    requires x <= y
    ensures Clamp(x, lo, hi) <= Clamp(y, lo, hi)
  {
  }

  /** `np.clip` on a float: NaN passes through. */
  function ClampF(x: Float, lo: real, hi: real): (r: Float)
    requires lo <= hi
    ensures r.NaN? <==> x.NaN?
    ensures r.Real? ==> lo <= r.value <= hi
  {
    match x
    case Real(v) => Real(Clamp(v, lo, hi))
    case NaN => NaN
  }

  function Add(x: Float, y: Float): (r: Float)
    ensures r.NaN? <==> x.NaN? || y.NaN?
  {
    if x.Real? && y.Real? then Real(x.value + y.value) else NaN
  }

  function Times(x: Float, k: real): (r: Float)
    ensures r.NaN? <==> x.NaN?
  {
    match x
    case Real(v) => Real(v * k)
    case NaN => NaN
  }

  /** The aggregation scrub `0.0 if np.isnan(v) else float(v)`. */
  function Scrub(x: Float): (r: real)
    ensures x.Real? ==> r == x.value
    ensures x.NaN? ==> r == 0.0
  {
    match x
    case Real(v) => v
    case NaN => 0.0
  }

  /** `np.sign`. */
  function Sign(x: real): (r: real)
    ensures x > 0.0 ==> r == 1.0
    ensures x < 0.0 ==> r == -1.0
    ensures x == 0.0 ==> r == 0.0
  {
    if x > 0.0 then 1.0 else if x < 0.0 then -1.0 else 0.0
  }
}
