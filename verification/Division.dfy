/** Quotients and remainders: what round-robin and strided index sets rest on. */
module Division {

  lemma {:induction false} ScaleOrder(a: int, b: int, n: nat)
    ensures a <= b ==> a * n <= b * n
    decreases b - a
  {
    if a < b {
      ScaleOrder(a, b - 1, n);
      assert b * n == (b - 1) * n + n;
    }
  }

  /** Quotient and remainder are unique. */
  lemma DivMod(x: nat, q: int, r: nat, n: nat)
    requires r < n && x == q * n + r
    ensures x / n == q && x % n == r
  {
    var d := x / n;
    assert x == d * n + x % n;
    assert (q + 1) * n == q * n + n && (d + 1) * n == d * n + n;
    ScaleOrder(q + 1, d, n);
    ScaleOrder(d + 1, q, n);
  }

  /** Among n consecutive numbers only the first has its remainder. */
  lemma NextInStride(i: nat, p: nat, n: nat)
    requires n > 0
    ensures (p + n) % n == p % n
    ensures p <= i < p + n && i % n == p % n ==> i == p
  {
    var q := p / n;
    assert p == q * n + p % n;
    assert (q + 1) * n == q * n + n;
    DivMod(p + n, q + 1, p % n, n);
    assert i == (i / n) * n + i % n;
    assert (i / n + 1) * n == (i / n) * n + n;
    ScaleOrder(q + 1, i / n, n);
    ScaleOrder(i / n + 1, q, n);
  }

  lemma ModAtMost(i: nat, n: nat)
    requires n > 0
    ensures i % n <= i
  {
    if i < n {
      DivMod(i, 0, i, n);
    }
  }
}
