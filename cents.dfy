/**
 * `Math.round(x * 100) / 100`, the rounding to cents that the work and subscription forms apply
 * to an accepted amount. `Math.round` rounds halves up, towards +infinity.
 */
module Cents {

  /** `Math.round(x)`: the integer nearest to x, halves going up. */
  function Round(x: real): (r: int)
    ensures x - 0.5 < r as real <= x + 0.5
  {
    (x + 0.5).Floor
  }

  /** An amount that is a whole number of cents. */
  predicate WholeCents(x: real) {
    (x * 100.0).Floor as real == x * 100.0
  }

  /** `Math.round(x * 100) / 100`. */
  function ToCents(x: real): (r: real)
    ensures x - 0.005 < r <= x + 0.005
    ensures WholeCents(r)
  {
    var k := Round(x * 100.0);
    assert (k as real / 100.0) * 100.0 == k as real;
    k as real / 100.0
  }

  /** An amount already in whole cents is kept as it is. */
  lemma ToCentsKeepsCents(x: real)
    requires WholeCents(x)
    ensures ToCents(x) == x
  {
    var k := (x * 100.0).Floor;
    assert Round(x * 100.0) == k;
  }

  /** Rounding twice is rounding once. */
  lemma ToCentsIdempotent(x: real)
    ensures ToCents(ToCents(x)) == ToCents(x)
  {
    ToCentsKeepsCents(ToCents(x));
  }

  /** A positive amount never rounds to a negative one; from half a cent up it stays positive. */
  lemma ToCentsOfPositive(x: real)
    requires x > 0.0
    ensures ToCents(x) >= 0.0
    ensures x >= 0.005 ==> ToCents(x) > 0.0
  {
  }
}
