/**
 * JavaScript numbers as the workout classes see them, after the unary `+`
 * coercion of a form field (`+distance`, `+duration`, `+cadence`,
 * `+elevation`).
 *
 * A finite number is an exact real: rounding, overflow and the sign of zero
 * are not modelled. The three non-finite values are kept apart because the
 * comparison `x > 0` holds of `Infinity` but not of `NaN` or `-Infinity`.
 */
module Numbers {

  datatype Num = Finite(r: real) | NaN | PosInfinity | NegInfinity

  /** `Number.isFinite(x)` */
  predicate IsFinite(x: Num)
  {
    x.Finite?
  }

  /** The comparison `x > 0`; false for `NaN`, as every comparison with it is. */
  predicate GreaterThanZero(x: Num)
  {
    match x
    case Finite(v) => v > 0.0
    case PosInfinity => true
    case _ => false
  }

  /** A number that passes both `Number.isFinite` and `> 0`. */
  predicate PositiveFinite(x: Num)
  {
    IsFinite(x) && GreaterThanZero(x)
  }

  /**
   * The division `a / b` on the extended reals: dividing by (positive) zero
   * gives an infinity of the dividend's sign, or `NaN` for `0 / 0`; dividing
   * an infinity by an infinity gives `NaN`.
   */
  function Div(a: Num, b: Num): (q: Num)
    ensures a.Finite? && b.Finite? && b.r != 0.0 ==> q.Finite? && q.r * b.r == a.r
    ensures PositiveFinite(a) && PositiveFinite(b) ==> PositiveFinite(q)
    ensures q.Finite? ==> a.Finite?
    ensures a.NaN? || b.NaN? ==> q.NaN?
  {
    match (a, b)
    case (NaN, _) => NaN
    case (_, NaN) => NaN
    case (Finite(x), Finite(y)) =>
      if y != 0.0 then Finite(x / y)
      else if x == 0.0 then NaN
      else if x > 0.0 then PosInfinity
      else NegInfinity
    case (Finite(_), _) => Finite(0.0)
    case (_, Finite(y)) =>
      if (a == PosInfinity) == (y >= 0.0) then PosInfinity else NegInfinity
    case _ => NaN
  }
}
