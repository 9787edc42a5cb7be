/** Exact rational arithmetic that the firmware's floating-point expressions are
    compared against. */
module Ratio {

  /** The floor of an exact rational quotient is integer division
      (Dafny's `/` on `int` is floor division when the divisor is positive). */
  lemma FloorOfQuotient(a: int, b: int)
    requires b > 0
    ensures ((a as real) / (b as real)).Floor == a / b
  {
    var q, r := a / b, a % b;
    assert a as real == (q as real) * (b as real) + r as real;
    assert (a as real) / (b as real) == (q as real) + (r as real) / (b as real);
    assert 0.0 <= (r as real) / (b as real) < 1.0;
  }

  /** Multiplying by a non-negative factor keeps the order. */
  lemma MulMonotone(k: nat, x: nat, y: nat)
    requires x <= y
    ensures k * x <= k * y
  {
    var d := y - x;
    assert k * y == k * x + k * d;
  }
}
