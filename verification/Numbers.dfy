// Small arithmetic the other modules share.
module Numbers {

  function Min(a: int, b: int): int { if a < b then a else b }

  function Max(a: int, b: int): int { if a > b then a else b }

  function Pow2(n: nat): int { if n == 0 then 1 else 2 * Pow2(n - 1) }

  lemma {:induction false} Pow2Grows(m: nat, n: nat)
    requires m <= n
    ensures 1 <= Pow2(m) <= Pow2(n)
    decreases n
  {
    if m < n {
      Pow2Grows(m, n - 1);
    } else if n > 0 {
      Pow2Grows(m - 1, n - 1);
    }
  }
}
