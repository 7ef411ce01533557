/** Arithmetic that more than one module needs. */
module Numbers {
  const TWO_64: nat := 0x1_0000_0000_0000_0000

  function Min(x: int, y: int): int {
    if x < y then x else y
  }

  function Pow2(n: nat): (p: nat)
    ensures p >= 1
  {
    if n == 0 then 1 else 2 * Pow2(n - 1)
  }

  lemma {:induction false} Pow2Adds(m: nat, n: nat)
    ensures Pow2(m + n) == Pow2(m) * Pow2(n)
  {
    if n > 0 {
      Pow2Adds(m, n - 1);
      assert Pow2(m + n) == 2 * Pow2(m + (n - 1));
    }
  }

  /** Quotient and remainder are the only ones. */
  lemma Residue(x: nat, q: nat, r: nat, n: nat)
    requires r < n && x == n * q + r
    ensures x % n == r
  {
    var e := q - x / n;
    assert n * e == x % n - r;
    if e > 0 {
      Grows(n, e);
    } else if e < 0 {
      Grows(n, -e);
    }
  }

  lemma Grows(n: int, e: int)
    requires n > 0 && e > 0
    ensures n * e >= n
  {
  }
}
