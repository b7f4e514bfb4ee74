/**
 * Arithmetic helpers that spell out what C does implicitly: the conversion of a
 * floating-point value to `int` (truncation toward zero), integer `pow` with a
 * natural exponent, and `max`.
 */
module Numerics {

  /** C's conversion of a floating-point value to `int`: truncation toward zero. */
  function Trunc(x: real): (r: int)
    ensures x >= 0.0 ==> r as real <= x < r as real + 1.0
    ensures x < 0.0 ==> r as real - 1.0 < x <= r as real
  {
    if x >= 0.0 then x.Floor else -((-x).Floor)
  }

  /** Truncation of an integral value gives that value back. */
  lemma TruncOfInt(k: int)
    ensures Trunc(k as real) == k
  {
  }

  /** Truncation is monotone. */
  lemma TruncMonotone(x: real, y: real)
    requires x <= y
    ensures Trunc(x) <= Trunc(y)
  {
    if x >= 0.0 {
    } else if y < 0.0 {
      assert (-y).Floor <= (-x).Floor;
    }
  }

  function Max(a: int, b: int): (r: int)
    ensures r >= a && r >= b && (r == a || r == b)
  {
    if a > b then a else b
  }

  /** `pow(base, e)` for a natural exponent. */
  function Pow(base: real, e: nat): (r: real)
    ensures base > 0.0 ==> r > 0.0
    ensures base >= 1.0 ==> r >= 1.0
  {
    if e == 0 then 1.0 else base * Pow(base, e - 1)
  }
}
