/**
 * Real multiplication as a named function, and the facts about products of
 * non-negative reals that the cost bounds use.
 */
module Reals {
  /** Real multiplication, named so that contracts can mention a product as a
      single term. */
  function Mul(a: real, b: real): real {
    a * b
  }

  lemma MulNonNegative(a: real, b: real)
    requires a >= 0.0 && b >= 0.0
    ensures a * b >= 0.0
  {
  }

  lemma MulMonotone(a: real, b: real, c: real)
    requires 0.0 <= a <= b && c >= 0.0
    ensures a * c <= b * c
  {
    MulNonNegative(b - a, c);
    assert (b - a) * c == b * c - a * c;
  }

  lemma ProductOfUnits(m: real, f: real)
    requires 0.0 <= m <= 1.0 && 0.0 <= f <= 1.0
    ensures 0.0 <= m * f <= 1.0
  {
    MulNonNegative(m, f);
    assert m * f >= 0.0;
    MulMonotone(m, 1.0, f);
    assert m * f <= 1.0 * f;
    assert 1.0 * f == f;
    assert m * f <= f;
  }
}
