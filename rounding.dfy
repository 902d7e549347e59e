/**
 * Python's built-in `round(x)` on a number without a digit count: the nearest
 * integer, with ties broken towards the even neighbour ("banker's rounding").
 * The model works on exact reals; floating-point representation error is not modelled.
 */
module Rounding {

  predicate IsEven(n: int) {
    n % 2 == 0
  }

  /** `x` is exactly halfway between two integers, one of them `n`. */
  predicate IsTie(x: real, n: int) {
    n as real - x == 0.5 || x - n as real == 0.5
  }

  /** Round half to even: the result is a nearest integer, and the even one on a tie. */
  function RoundHalfEven(x: real): (r: int)
    ensures -0.5 <= r as real - x <= 0.5
    ensures IsTie(x, r) ==> IsEven(r)
  {
    var f := x.Floor;
    var frac := x - f as real;
    if frac < 0.5 then f
    else if frac > 0.5 then f + 1
    else if IsEven(f) then f
    else f + 1
  }

  /** The two properties of RoundHalfEven determine it: no other integer has both. */
  lemma RoundHalfEvenUnique(x: real, n: int)
    requires -0.5 <= n as real - x <= 0.5
    requires IsTie(x, n) ==> IsEven(n)
    ensures n == RoundHalfEven(x)
  {
  }

  /** An integer rounds to itself. */
  lemma RoundHalfEvenOfInteger(n: int)
    ensures RoundHalfEven(n as real) == n
  {
  }

  /** Rounding never crosses an integer bound: values in the open interval (lo - 1/2, hi + 1/2) round into [lo, hi]. */
  lemma RoundHalfEvenWithin(x: real, lo: int, hi: int)
    requires lo as real - 0.5 < x < hi as real + 0.5
    ensures lo <= RoundHalfEven(x) <= hi
  {
  }
}
