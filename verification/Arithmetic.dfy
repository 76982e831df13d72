/** Division facts that span several modules. */
module Arithmetic {

  lemma MultipleIsBig(d: int, n: nat)
    requires d != 0
    ensures d * n >= n || d * n + n <= 0
  {
    if d >= 1 {
      assert (d - 1) * n >= 0;
    } else {
      assert (-1 - d) * n >= 0;
    }
  }

  /** Quotient and remainder are unique. */
  lemma UniqueQuotient(x: nat, n: nat, q: nat, r: nat)
    requires r < n && x == q * n + r
    ensures x / n == q && x % n == r
  {
    assert x == (x / n) * n + x % n;
    assert (x / n - q) * n == (x / n) * n - q * n;
    if x / n != q { MultipleIsBig(x / n - q, n); }
  }
}
