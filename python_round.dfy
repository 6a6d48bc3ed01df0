// Python's built-in round(x) on a float, with no ndigits argument: it returns
// an int, the integer nearest to x, and on an exact tie the even one.

module PythonRound {

  /** The integer nearest to `x`; a tie (fractional part exactly 1/2) goes to the even neighbour. */
  function RoundHalfEven(x: real): (n: int)
    ensures n as real - 0.5 <= x <= n as real + 0.5
    ensures (x == n as real - 0.5 || x == n as real + 0.5) ==> n % 2 == 0
  {
    var f := x.Floor;
    var frac := x - f as real;
    if frac < 0.5 then f
    else if frac > 0.5 then f + 1
    else if f % 2 == 0 then f
    else f + 1
  }

  /** The two postconditions of RoundHalfEven pin its result down: any integer
      that is within 1/2 of `x`, and even on a tie, is the rounded value. */
  lemma RoundHalfEvenUnique(x: real, m: int)
    requires m as real - 0.5 <= x <= m as real + 0.5
    requires (x == m as real - 0.5 || x == m as real + 0.5) ==> m % 2 == 0
    ensures RoundHalfEven(x) == m
  {
  }
}
