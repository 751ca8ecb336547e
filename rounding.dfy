/** Python's built-in `round` on a number with no digit argument (round half
    to even, "banker's rounding") and `math.ceil`, stated on exact reals. */
module Rounding {

  /** True when `x` lies exactly halfway between two integers. */
  predicate IsTie(x: real) {
    x - x.Floor as real == 0.5
  }

  /** `round(x)`: the integer nearest to `x`; a tie goes to the even neighbour. */
  function RoundHalfEven(x: real): (r: int)
    ensures x - 0.5 <= r as real <= x + 0.5
    ensures IsTie(x) ==> r % 2 == 0
    ensures !IsTie(x) ==> x - 0.5 < r as real < x + 0.5
  {
    var f := x.Floor;
    var d := x - f as real;
    if d < 0.5 then f
    else if d > 0.5 then f + 1
    else if f % 2 == 0 then f
    else f + 1
  }

  /** Any integer within one half of `x`, and even when exactly one half
      away, is the value `round` gives: the rounding is uniquely determined. */
  lemma RoundHalfEvenUnique(x: real, n: int)
    requires x - 0.5 <= n as real <= x + 0.5
    requires (n as real == x - 0.5 || n as real == x + 0.5) ==> n % 2 == 0
    ensures RoundHalfEven(x) == n
  {
  }

  /** Rounding never reverses the order of its arguments. */
  lemma RoundHalfEvenMonotone(a: real, b: real)
    requires a <= b
    ensures RoundHalfEven(a) <= RoundHalfEven(b)
  {
  }

  /** `math.ceil(x)`: the least integer that is at least `x`. */
  function Ceil(x: real): (r: int)
    ensures x <= r as real < x + 1.0
  {
    -((-x).Floor)
  }
}
