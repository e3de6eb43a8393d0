// IEEE-754 doubles on top of exact reals: a finite value, the two
// infinities, or NaN. The sign of zero is not kept.
module Floats {

  datatype F64 = Fin(v: real) | PosInf | NegInf | NaN
  {
    /** `f64::is_finite`. */
    predicate IsFinite() { Fin? }

    /** `f64::is_nan`. */
    predicate IsNaN() { NaN? }
  }

  /**
   * The library functions the source calls and this model does not define:
   * square root, natural logarithm, exponential, and the Student-t
   * cumulative distribution (degrees of freedom, point).
   */
  datatype Libm = Libm(sqrt: real -> real, ln: real -> real, exp: real -> real,
                       tCdf: (real, real) -> real)

  /** `sqrt(v²) = v` for this `v`. */
  predicate RootOfSquare(m: Libm, v: real)
  {
    m.sqrt(v * v) == v
  }

  /** The square root facts the lemmas about fitted statistics rely on:
      the root of a square of a non-negative value is that value, and the
      root of a positive value is positive. */
  ghost predicate SqrtFacts(m: Libm)
  {
    (forall v :: v >= 0.0 ==> RootOfSquare(m, v)) &&
    (forall v :: v > 0.0 ==> m.sqrt(v) > 0.0)
  }

  /** `f64::EPSILON`, 2^-52. */
  const Epsilon: real := 1.0 / 4503599627370496.0

  function Neg(a: F64): F64
  {
    match a
    case Fin(x) => Fin(-x)
    case PosInf => NegInf
    case NegInf => PosInf
    case NaN => NaN
  }

  /** An infinity with the sign of `s`, where `s != 0`. */
  function InfOfSign(s: real): F64
  {
    if s > 0.0 then PosInf else NegInf
  }

  function Sign(a: F64): real
  {
    match a
    case Fin(x) => if x > 0.0 then 1.0 else if x < 0.0 then -1.0 else 0.0
    case PosInf => 1.0
    case NegInf => -1.0
    case NaN => 0.0
  }

  function Add(a: F64, b: F64): (r: F64)
    ensures a.Fin? && b.Fin? ==> r == Fin(a.v + b.v)
    ensures r.Fin? ==> a.Fin? && b.Fin?
  {
    match (a, b)
    case (Fin(x), Fin(y)) => Fin(x + y)
    case (NaN, _) => NaN
    case (_, NaN) => NaN
    case (PosInf, NegInf) => NaN
    case (NegInf, PosInf) => NaN
    case (PosInf, _) => PosInf
    case (NegInf, _) => NegInf
    case (_, PosInf) => PosInf
    case (_, NegInf) => NegInf
  }

  function Sub(a: F64, b: F64): F64
  {
    Add(a, Neg(b))
  }

  function Mul(a: F64, b: F64): (r: F64)
    ensures a.Fin? && b.Fin? ==> r == Fin(a.v * b.v)
    ensures r.Fin? ==> a.Fin? && b.Fin?
  {
    if a.Fin? && b.Fin? then Fin(a.v * b.v)
    else if a.NaN? || b.NaN? then NaN
    else if Sign(a) * Sign(b) == 0.0 then NaN
    else InfOfSign(Sign(a) * Sign(b))
  }

  function Div(a: F64, b: F64): (r: F64)
    ensures a.Fin? && b.Fin? && b.v != 0.0 ==> r == Fin(a.v / b.v)
    ensures r.Fin? ==> a.Fin?
  {
    match (a, b)
    case (NaN, _) => NaN
    case (_, NaN) => NaN
    case (Fin(x), Fin(y)) =>
      if y != 0.0 then Fin(x / y)
      else if x == 0.0 then NaN
      else InfOfSign(x)
    case (Fin(x), _) => Fin(0.0)
    case (_, Fin(y)) => if y == 0.0 then a else InfOfSign(Sign(a) * Sign(b))
    case _ => NaN
  }

  /** Division of two finite values: finite unless the divisor is zero. */
  function DivR(a: real, b: real): (r: F64)
    ensures r.Fin? <==> b != 0.0
    ensures b != 0.0 ==> r.v == a / b
    ensures b == 0.0 ==> (r.NaN? <==> a == 0.0)
  {
    Div(Fin(a), Fin(b))
  }

  function Abs(a: F64): (r: F64)
    ensures r.Fin? <==> a.Fin?
    ensures r.NaN? <==> a.NaN?
    ensures r.Fin? ==> r.v >= 0.0 && (r.v == a.v || r.v == -a.v)
  {
    match a
    case Fin(x) => Fin(if x < 0.0 then -x else x)
    case NaN => NaN
    case _ => PosInf
  }

  function AbsR(x: real): (r: real)
    ensures r >= 0.0 && (r == x || r == -x)
  {
    if x < 0.0 then -x else x
  }

  /** `f64::max` and `f64::min` on finite values. */
  function MaxR(a: real, b: real): (r: real)
    ensures r >= a && r >= b && (r == a || r == b)
  {
    if a >= b then a else b
  }

  function MinR(a: real, b: real): (r: real)
    ensures r <= a && r <= b && (r == a || r == b)
  {
    if a <= b then a else b
  }

  /** `f64::clamp`, which panics unless `lo <= hi`; every caller in this
      model passes ordered bounds. */
  function ClampR(x: real, lo: real, hi: real): (r: real)
    ensures lo <= hi ==> lo <= r <= hi
    ensures lo <= x <= hi ==> r == x
  {
    if x < lo then lo else if x > hi then hi else x
  }

  /** `f64::sqrt`: NaN below zero. */
  function Sqrt(m: Libm, a: F64): (r: F64)
    ensures r.Fin? <==> a.Fin? && a.v >= 0.0
  {
    match a
    case Fin(x) => if x < 0.0 then NaN else Fin(m.sqrt(x))
    case PosInf => PosInf
    case _ => NaN
  }

  /** The order `partial_cmp` gives on values that are not NaN. */
  predicate Le(a: F64, b: F64)
  {
    match (a, b)
    case (NegInf, _) => true
    case (_, PosInf) => true
    case (Fin(x), Fin(y)) => x <= y
    case _ => false
  }

  lemma {:induction false} LeTotal(a: F64, b: F64)
    requires !a.NaN? && !b.NaN?
    ensures Le(a, b) || Le(b, a)
  {
  }

  lemma {:induction false} LeTransitive(a: F64, b: F64, c: F64)
    requires !a.NaN? && !b.NaN? && !c.NaN?
    requires Le(a, b) && Le(b, c)
    ensures Le(a, c)
  {
  }

  lemma {:induction false} LeAntisymmetric(a: F64, b: F64)
    requires !a.NaN? && !b.NaN?
    requires Le(a, b) && Le(b, a)
    ensures a == b
  {
  }

  /** `a < b` on doubles: false whenever either is NaN. */
  predicate Lt(a: F64, b: F64)
  {
    !a.NaN? && !b.NaN? && Le(a, b) && a != b
  }

  predicate AllFinite(s: seq<F64>)
  {
    forall i :: 0 <= i < |s| ==> s[i].Fin?
  }

  /** The values of a sequence of finite doubles. */
  function Values(s: seq<F64>): (r: seq<real>)
    requires AllFinite(s)
    ensures |r| == |s| && forall i :: 0 <= i < |s| ==> r[i] == s[i].v
  {
    seq(|s|, i requires 0 <= i < |s| => s[i].v)
  }

  /** Finite doubles holding the given values. */
  function Fins(s: seq<real>): (r: seq<F64>)
    ensures |r| == |s| && AllFinite(r) && Values(r) == s
  {
    seq(|s|, i requires 0 <= i < |s| => Fin(s[i]))
  }
}
