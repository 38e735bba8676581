/** The few facts about products, quotients and remainders that layout and rotation rest on. */
module Arithmetic {

  lemma AtLeastOnce(n: int, d: nat)
    requires n >= 1
    ensures n * d >= d
  {
    assert n * d == (n - 1) * d + d;
    assert (n - 1) * d >= 0;
  }

  /** Division with remainder has one answer. */
  lemma Quotient(q: int, n: nat, r: int)
    requires 0 <= r < n
    ensures (q * n + r) / n == q && (q * n + r) % n == r
  {
    var x := q * n + r;
    var d, m := x / n, x % n;
    assert (d - q) * n == r - m && (q - d) * n == m - r;
    if d - q >= 1 {
      AtLeastOnce(d - q, n);
    } else if q - d >= 1 {
      AtLeastOnce(q - d, n);
    }
  }
}
