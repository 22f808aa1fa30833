/** Remainders by a divisor that is not a constant. */
module Remainders {

  lemma MultipleAtLeast(d: int, n: nat)
    ensures d >= 1 ==> d * n >= n
    ensures d <= -1 ==> d * n + n <= 0
  {
  }

  /** Quotient and remainder are unique. */
  lemma RemainderIs(x: nat, n: nat, q: nat, r: nat)
    requires r < n && x == q * n + r
    ensures x % n == r
  {
    var d := x / n - q;
    MultipleAtLeast(d, n);
    assert d * n + x % n == r;
  }

  lemma MultipleWhenFull(k: nat, n: nat, r: nat)
    requires 0 < r <= n
    ensures (k * n + r) % n == 0 <==> r == n
  {
    if r == n {
      RemainderIs(k * n + r, n, k + 1, 0);
    } else {
      RemainderIs(k * n + r, n, k, r);
    }
  }
}
