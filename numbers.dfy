/**
 * JavaScript numbers as the shop planner's core uses them: a finite value or
 * one of the three non-finite values. Rounding of finite arithmetic is not
 * modelled: finite values are mathematical reals.
 */
module Numbers {
  datatype Num = Finite(value: real) | PosInf | NegInf | NaN

  /** `Number.isFinite(x)` */
  predicate IsFinite(x: Num) {
    x.Finite?
  }

  /** `Number.isInteger(x)`: finite with no fractional part */
  predicate IsInteger(x: Num) {
    x.Finite? && x.value.Floor as real == x.value
  }

  /** `x < 0`; every comparison involving NaN is false */
  predicate IsNegative(x: Num) {
    match x
    case Finite(v) => v < 0.0
    case NegInf => true
    case _ => false
  }

  /** `a + b` under IEEE 754 rules for infinities and NaN */
  function Add(a: Num, b: Num): (r: Num)
    ensures r.Finite? <==> a.Finite? && b.Finite?
    ensures b == Finite(0.0) ==> r == a
    ensures IsNegative(r) ==> IsNegative(a) || IsNegative(b)
  {
    if a.NaN? || b.NaN? then NaN
    else if a.Finite? && b.Finite? then Finite(a.value + b.value)
    else if (a.PosInf? && b.NegInf?) || (a.NegInf? && b.PosInf?) then NaN
    else if a.PosInf? || b.PosInf? then PosInf
    else NegInf
  }
}
