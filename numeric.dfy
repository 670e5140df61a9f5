/**
 * The two pieces of Python integer arithmetic the core relies on, stated over
 * Dafny's unbounded numbers: `int(x)` on a float truncates toward zero, and
 * `a // b`, `a % b` on ints round toward negative infinity.
 */
module Numeric {

  /** Python's `int(x)`: the integer part of `x`, rounding toward zero (not floor). */
  function Trunc(x: real): (r: int)
    ensures 0.0 <= x ==> 0 <= r && r as real <= x < r as real + 1.0
    ensures x < 0.0 ==> r <= 0 && r as real - 1.0 < x <= r as real
  {
    if x >= 0.0 then x.Floor else -((-x).Floor)
  }

  /** Python's `a // b`: the floor of the exact quotient. */
  function PyDiv(a: int, b: int): (q: int)
    requires b != 0
    ensures b > 0 ==> b * q <= a < b * q + b
    ensures b < 0 ==> b * q >= a > b * q + b
  {
    if b > 0 then a / b else (-a) / (-b)
  }

  /** Python's `a % b`: the remainder that takes the sign of `b`. */
  function PyMod(a: int, b: int): (m: int)
    requires b != 0
    ensures a == b * PyDiv(a, b) + m
    ensures b > 0 ==> 0 <= m < b
    ensures b < 0 ==> b < m <= 0
  {
    a - b * PyDiv(a, b)
  }

  /** For a positive divisor Python's `//` and `%` agree with Dafny's. */
  lemma PyDivModPositive(a: int, b: int)
    requires b > 0
    ensures PyDiv(a, b) == a / b && PyMod(a, b) == a % b
  {
  }

  /** Scaling numerator and denominator by the same non-zero factor leaves the quotient unchanged. */
  lemma QuotientScale(a: real, b: real, k: real)
    requires b != 0.0 && k != 0.0
    ensures (a * k) / (b * k) == a / b
  {
    calc {
      (a * k) / (b * k);
      == { assert (a / b) * (b * k) == a * k; }
      a / b;
    }
  }
}
