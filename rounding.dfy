/** `Math.round(total / count)` for an integer total and a positive count.
    `Math.round(x)` is the integer nearest to `x`, halves rounded up
    (towards +infinity), that is floor(x + 1/2). */
module Rounding {

  /** floor((2t + n) / 2n) = floor(t/n + 1/2); Dafny's `/` floors for a positive divisor. */
  function RoundedQuotient(t: int, n: int): (r: int)
    requires n > 0
    ensures n * (2 * r - 1) <= 2 * t < n * (2 * r + 1)
  {
    var q := (2 * t + n) / (2 * n);
    var m := (2 * t + n) % (2 * n);
    assert 2 * n * q + m == 2 * t + n && 0 <= m < 2 * n;
    q
  }

  /** Cancelling a positive factor on both sides of `<`. */
  lemma CancelLess(n: int, a: int, b: int)
    requires n > 0 && n * a < n * b
    ensures a < b
  {
  }

  /** The rounding condition determines the result: there is one nearest integer. */
  lemma RoundedQuotientUnique(t: int, n: int, r: int)
    requires n > 0
    requires n * (2 * r - 1) <= 2 * t < n * (2 * r + 1)
    ensures r == RoundedQuotient(t, n)
  {
    var q := RoundedQuotient(t, n);
    CancelLess(n, 2 * r - 1, 2 * q + 1);
    CancelLess(n, 2 * q - 1, 2 * r + 1);
  }

  /** A rounded average of values in [lo, hi] lies in [lo, hi]. */
  lemma RoundedQuotientWithin(t: int, n: int, lo: int, hi: int)
    requires n > 0
    requires n * lo <= t <= n * hi
    ensures lo <= RoundedQuotient(t, n) <= hi
  {
    var r := RoundedQuotient(t, n);
    assert n * (2 * lo) == 2 * (n * lo) && n * (2 * hi + 1) == 2 * (n * hi) + n;
    CancelLess(n, 2 * lo, 2 * r + 1);
    CancelLess(n, 2 * r - 1, 2 * hi + 1);
  }
}
