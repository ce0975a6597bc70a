/**
 * Float64 values as a data frame column holds them. Python and numpy compare a
 * NaN with anything as false and carry NaN through arithmetic; the indicator
 * library and pandas' rolling windows use NaN for "not available yet".
 * Infinities and rounding are not modelled: a non-NaN value is an exact real.
 */
module Numbers {

  /** A float column entry: an exact real, or NaN. */
  datatype Num = NaN | Real(value: real)

  /** `a > b` on floats: false as soon as either side is NaN. */
  predicate Gt(a: Num, b: Num) {
    a.Real? && b.Real? && a.value > b.value
  }

  /** `a < b` on floats: false as soon as either side is NaN. */
  predicate Lt(a: Num, b: Num) {
    Gt(b, a)
  }

  /** `a - b` on floats: NaN when either operand is NaN. */
  function Sub(a: Num, b: Num): (r: Num)
    ensures r.Real? <==> a.Real? && b.Real?
  {
    if a.Real? && b.Real? then Real(a.value - b.value) else NaN
  }

  /** `abs(a)` on floats: never negative, NaN stays NaN. */
  function Abs(a: Num): (r: Num)
    ensures r.Real? <==> a.Real?
    ensures r.Real? ==> r.value >= 0.0 && (r.value == a.value || r.value == -a.value)
  {
    match a
    case NaN => NaN
    case Real(x) => Real(if x < 0.0 then -x else x)
  }

  /** `-a` on floats; used to state the up/down symmetry of the signal rules. */
  function Neg(a: Num): (r: Num)
    ensures r.Real? <==> a.Real?
    ensures r.Real? ==> r.value + a.value == 0.0
  {
    match a
    case NaN => NaN
    case Real(x) => Real(-x)
  }
}
