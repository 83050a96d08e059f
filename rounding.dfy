/** Exact integer replacement for PHP's round() applied to a quotient. */
module Rounding {

  /** The quotient n / d rounded to the nearest integer, halves away from
      zero (the rule of PHP's round()). The two ensures pin the result down
      uniquely: it is within half a step of n / d, and a tie goes up for a
      non-negative n and down for a negative one. */
  function RoundDiv(n: int, d: int): (r: int)
    requires d > 0
    ensures n >= 0 ==> r >= 0 && -d <= 2 * n - 2 * r * d < d
    ensures n < 0 ==> r <= 0 && -d < 2 * n - 2 * r * d <= d
  {
    if n >= 0 then
      (2 * n + d) / (2 * d)
    else
      -((-2 * n + d) / (2 * d))
  }
}
