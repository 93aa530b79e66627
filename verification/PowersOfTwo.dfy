/** Powers of two over the naturals, and the division facts that go with them. */
module PowersOfTwo {
  import opened Arithmetic

  function Pow2(n: nat): (r: nat)
    ensures r >= 1
  {
    if n == 0 then 1 else 2 * Pow2(n - 1)
  }

  lemma {:induction false} Pow2Add(m: nat, n: nat)
    ensures Pow2(m + n) == Pow2(m) * Pow2(n)
  {
    if n > 0 {
      Pow2Add(m, n - 1);
      assert Pow2(m) * (2 * Pow2(n - 1)) == 2 * (Pow2(m) * Pow2(n - 1));
    }
  }

  lemma {:induction false} Pow2Monotone(m: nat, n: nat)
    requires m < n
    ensures 2 * Pow2(m) <= Pow2(n)
  {
    if m + 1 < n {
      Pow2Monotone(m, n - 1);
    }
  }

  lemma {:induction false} Pow2Exceeds(n: nat)
    ensures n < Pow2(n)
  {
    if n > 0 {
      Pow2Exceeds(n - 1);
    }
  }

  /** Quotient and remainder are unique. */
  lemma DivMod(q: nat, r: nat, m: nat)
    requires r < m
    ensures (q * m + r) / m == q && (q * m + r) % m == r
  {
    var n := q * m + r;
    assert n == (n / m) * m + n % m;
    MulMonotone(n / m + 1, q, m);
    MulMonotone(q + 1, n / m, m);
  }
}
