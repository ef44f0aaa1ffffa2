/** Decimal quantisation, in units of the quantum (cents). */
module Money {

  /** ROUND_HALF_UP: to the nearest unit, ties away from zero. */
  function HalfUp(x: real): (c: int)
    ensures 0.0 <= x ==> c as real - 0.5 <= x < c as real + 0.5
    ensures x < 0.0 ==> c as real - 0.5 < x <= c as real + 0.5
  {
    if 0.0 <= x then (x + 0.5).Floor else -(0.5 - x).Floor
  }

  /** `round(x, 4)`: nearest multiple of 0.0001, ties to the even multiple. */
  function Round4(x: real): real {
    var scaled := x * 10000.0;
    var low := scaled.Floor;
    var rest := scaled - low as real;
    var units := if rest < 0.5 || (rest == 0.5 && low % 2 == 0) then low else low + 1;
    units as real / 10000.0
  }

  lemma Round4Close(x: real)
    ensures -0.00005 <= Round4(x) - x <= 0.00005
  {
    var scaled := x * 10000.0;
    var low := scaled.Floor;
    assert low as real <= scaled < low as real + 1.0;
  }

  lemma HalfUpOfWhole(c: int)
    ensures HalfUp(c as real) == c
  {}

  lemma HalfUpMonotone(x: real, y: real)
    requires x <= y
    ensures HalfUp(x) <= HalfUp(y)
  {}

  /** Expected share of an amount under probability `p`. */
  function Expected(amount: real, p: real): real { amount * p }

  predicate WholeCents(x: real) {
    x == x.Floor as real
  }
}
