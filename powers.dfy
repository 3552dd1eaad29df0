/** Integer powers and minima, as Python's `**` and `min` compute them on ints. */
module Powers {

  function Pow(b: nat, n: nat): nat
  {
    if n == 0 then 1 else b * Pow(b, n - 1)
  }

  function Min(a: int, b: int): int
  {
    if a <= b then a else b
  }

  /** How many of `n` further items still fit when `used` of `limit` slots are taken. */
  function SlotsLeft(used: nat, limit: nat, n: nat): (w: nat)
    ensures w <= n
  {
    if used >= limit then 0 else Min(n, limit - used)
  }

  lemma {:induction false} PowAtLeastOne(b: nat, n: nat)
    requires b >= 1
    ensures Pow(b, n) >= 1
  {
    if n > 0 {
      PowAtLeastOne(b, n - 1);
      assert b * Pow(b, n - 1) >= Pow(b, n - 1) by {
        assert (b - 1) * Pow(b, n - 1) >= 0;
      }
    }
  }

  lemma {:induction false} PowMonotone(b: nat, m: nat, n: nat)
    requires b >= 1 && m <= n
    ensures Pow(b, m) <= Pow(b, n)
    decreases n - m
  {
    if m < n {
      PowMonotone(b, m, n - 1);
      assert b * Pow(b, n - 1) >= Pow(b, n - 1) by {
        assert (b - 1) * Pow(b, n - 1) >= 0;
      }
    }
  }
}
