/**
 * The part of JavaScript number semantics the components rely on: division
 * that yields NaN or an infinity instead of failing, Math.round, Math.ceil and
 * Math.min. Finite values are exact reals; floating-point rounding error and
 * signed zero are not modelled.
 */
module JsNumber {

  datatype Num = Fin(v: real) | NaN | PosInf | NegInf

  /** Math.round on a finite value: the nearest integer, halves toward +Infinity. */
  function RoundReal(x: real): (r: int)
    ensures r as real <= x + 0.5 < r as real + 1.0
    ensures x - 0.5 < r as real
  {
    (x + 0.5).Floor
  }

  /** Math.ceil on a finite value: the least integer not below x. */
  function CeilReal(x: real): (r: int)
    ensures x <= r as real < x + 1.0
  {
    -((-x).Floor)
  }

  /** a / b with IEEE semantics for a zero divisor. */
  function Div(a: real, b: real): (r: Num)
    ensures b != 0.0 <==> r.Fin?
    ensures r.Fin? ==> r.v * b == a
    ensures r == NaN <==> a == 0.0 && b == 0.0
    ensures r == PosInf <==> a > 0.0 && b == 0.0
  {
    if b != 0.0 then Fin(a / b)
    else if a > 0.0 then PosInf
    else if a < 0.0 then NegInf
    else NaN
  }

  /** n * k for a finite factor k. */
  function Mul(n: Num, k: real): (r: Num)
    ensures n.Fin? <==> r.Fin?
    ensures n.Fin? ==> r.v == n.v * k
    ensures n == NaN ==> r == NaN
    ensures !n.Fin? && k == 0.0 ==> r == NaN
  {
    match n
    case Fin(x) => Fin(x * k)
    case NaN => NaN
    case PosInf => if k > 0.0 then PosInf else if k < 0.0 then NegInf else NaN
    case NegInf => if k > 0.0 then NegInf else if k < 0.0 then PosInf else NaN
  }

  /** Math.round: integral finite results, non-finite values pass through. */
  function Round(n: Num): (r: Num)
    ensures n.Fin? <==> r.Fin?
    ensures n.Fin? ==> r.v == RoundReal(n.v) as real
    ensures !n.Fin? ==> r == n
  {
    if n.Fin? then Fin(RoundReal(n.v) as real) else n
  }

  /** Math.ceil: integral finite results, non-finite values pass through. */
  function Ceil(n: Num): (r: Num)
    ensures n.Fin? <==> r.Fin?
    ensures n.Fin? ==> r.v == CeilReal(n.v) as real
    ensures !n.Fin? ==> r == n
  {
    if n.Fin? then Fin(CeilReal(n.v) as real) else n
  }

  /** Math.min(n, k) for a finite k: NaN wins, +Infinity loses. */
  function Min(n: Num, k: real): (r: Num)
    ensures r == NaN <==> n == NaN
    ensures r.Fin? ==> r.v <= k
    ensures n.Fin? ==> r.Fin? && (r.v == n.v || r.v == k) && r.v <= n.v
    ensures n == PosInf ==> r == Fin(k)
    ensures n == NegInf ==> r == NegInf
  {
    match n
    case Fin(x) => Fin(if x < k then x else k)
    case NaN => NaN
    case PosInf => Fin(k)
    case NegInf => NegInf
  }

  /** The rendering guard `isNaN(x) ? 0 : x`. */
  function ZeroIfNaN(n: Num): (r: Num)
    ensures r != NaN
    ensures n != NaN ==> r == n
  {
    if n == NaN then Fin(0.0) else n
  }

  /** Math.round never reverses the order of two values. */
  lemma RoundMonotone(x: real, y: real)
    requires x <= y
    ensures RoundReal(x) <= RoundReal(y)
  {
  }

  /** Dividing by the same positive number and scaling by 100 keeps the order. */
  lemma PercentMonotone(a: real, b: real, t: real)
    requires t > 0.0 && a <= b
    ensures a / t * 100.0 <= b / t * 100.0
  {
    var x, y := a / t, b / t;
    assert x * t == a && y * t == b;
    assert (y - x) * t == b - a;
  }
}
