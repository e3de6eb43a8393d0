// Unsigned arithmetic the source relies on: saturating subtraction and
// the remainder facts behind `step_by` and cyclic stepping.
module Arith {

  /** `usize::saturating_sub`. */
  function SatSub(a: nat, b: nat): (r: nat)
    ensures a >= b ==> r == a - b
    ensures a < b ==> r == 0
  {
    if a >= b then a - b else 0
  }

  lemma {:induction false} MulAtLeast(k: int, d: int)
    requires k >= 1 && d >= 1
    ensures k * d >= d
  {
  }

  /** Quotient and remainder are unique. */
  lemma {:induction false} ModUnique(a: int, d: int, q: int, r: int)
    requires d >= 1 && 0 <= r < d && a == q * d + r
    ensures a % d == r
  {
    var q0, r0 := a / d, a % d;
    assert (q - q0) * d == r0 - r;
    if q > q0 {
      MulAtLeast(q - q0, d);
    } else if q < q0 {
      MulAtLeast(q0 - q, d);
    }
  }

  lemma {:induction false} ModShift(a: int, step: int)
    requires a >= 0 && step >= 1
    ensures (a + step) % step == a % step
  {
    ModUnique(a + step, step, a / step + 1, a % step);
  }
}
