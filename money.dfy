/** Exact money arithmetic: Python's `round(x, 2)` on an exact real. */
module Money {

  /** Whether x is a whole number of cents. */
  predicate WholeCents(x: real) {
    (x * 100.0).Floor as real == x * 100.0
  }

  /** The number of cents nearest to x. An exact tie (x an odd number of half cents) rounds up;
      Python rounds the nearest binary double half-to-even, so no claim of the model depends on ties. */
  function Cents(x: real): (c: int)
    ensures x * 100.0 - 0.5 < c as real <= x * 100.0 + 0.5
    ensures x >= 0.0 ==> c >= 0
  {
    (x * 100.0 + 0.5).Floor
  }

  /** `round(x, 2)`: x to the nearest cent. */
  function RoundCents(x: real): (r: real)
    ensures -1.0 / 200.0 < r - x <= 1.0 / 200.0
    ensures WholeCents(r)
    ensures x >= 0.0 ==> r >= 0.0
  {
    Cents(x) as real / 100.0
  }

  /** A whole-cents value closer to x than half a cent is the rounding of x, whatever the
      tie-breaking rule. */
  lemma RoundCentsUnique(x: real, c: real)
    requires WholeCents(c)
    requires -1.0 / 200.0 < c - x < 1.0 / 200.0
    ensures RoundCents(x) == c
  {
    var n := (c * 100.0).Floor;
    var m := Cents(x);
    assert n as real == c * 100.0;
    assert -1.0 < (m - n) as real < 1.0;
    assert m == n;
  }

  /** Rounding leaves a whole number of cents unchanged. */
  lemma RoundCentsExact(x: real)
    requires WholeCents(x)
    ensures RoundCents(x) == x
  {
    RoundCentsUnique(x, x);
  }
}
