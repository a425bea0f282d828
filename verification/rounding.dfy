/**
 * The integer conversions the generator applies to exact quantities:
 * Python's `round` (ties to even), `np.ceil`, `int()` (truncation toward
 * zero) and `round(x, 2)` for money amounts.
 */
module Rounding {

  /** `n` is `x` rounded to the nearest integer, a tie going to the even neighbour. */
  predicate IsHalfEvenRounding(x: real, n: int)
  {
    var d := n as real - x;
    (-0.5 < d < 0.5) || ((d == 0.5 || d == -0.5) && n % 2 == 0)
  }

  /** Python 3's `round(x)`: round half to even. */
  function RoundHalfEven(x: real): (n: int)
    ensures IsHalfEvenRounding(x, n)
  {
    var f := x.Floor;
    var frac := x - f as real;
    if frac < 0.5 then f
    else if frac > 0.5 then f + 1
    else if f % 2 == 0 then f
    else f + 1
  }

  /** At most one integer is the half-even rounding of `x`. */
  lemma HalfEvenRoundingUnique(x: real, n: int)
    requires IsHalfEvenRounding(x, n)
    ensures RoundHalfEven(x) == n
  {
  }

  /**
   * Rounding of `n / 100` computed on integers alone: quotient plus a
   * carry decided by the remainder, with ties resolved by the quotient's parity.
   */
  function RoundHundredths(n: int): int
  {
    var q := n / 100;
    var r := n % 100;
    if r < 50 then q
    else if r > 50 then q + 1
    else if q % 2 == 0 then q
    else q + 1
  }

  /** The real-valued rounding and the integer-only rounding agree on hundredths. */
  lemma RoundHalfEvenOfHundredths(n: int)
    ensures RoundHalfEven(n as real / 100.0) == RoundHundredths(n)
  {
    var q := n / 100;
    var r := n % 100;
    var x := n as real / 100.0;
    assert n == 100 * q + r;
    assert x == q as real + r as real / 100.0;
    HalfEvenRoundingUnique(x, RoundHundredths(n));
  }

  /** `np.ceil`: the least integer not below `x`. */
  function Ceil(x: real): (n: int)
    ensures x <= n as real < x + 1.0
  {
    -((-x).Floor)
  }

  /** Python's `int(x)` on a number: truncation toward zero. */
  function Trunc(x: real): (n: int)
    ensures 0.0 <= x ==> 0 <= n && n as real <= x < n as real + 1.0
    ensures x < 0.0 ==> n <= 0 && n as real - 1.0 < x <= n as real
  {
    if x >= 0.0 then x.Floor else Ceil(x)
  }

  /** `round(x, 2)` on an exact amount: half-even rounding to whole hundredths. */
  function RoundCents(x: real): (r: real)
    ensures x - 0.005 <= r <= x + 0.005
    ensures 0.0 <= x ==> 0.0 <= r
  {
    RoundHalfEven(x * 100.0) as real / 100.0
  }
}
