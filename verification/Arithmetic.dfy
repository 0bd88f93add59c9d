/** Quotients and remainders by a variable divisor. */
module Arithmetic {

  lemma MulBound(n: nat, k: int)
    ensures k >= 1 ==> n * k >= n
    ensures k <= -1 ==> n * k + n <= 0
  {
    if k >= 1 {
      assert n * k == n * (k - 1) + n;
    } else if k <= -1 {
      assert n * k == n * (k + 1) - n;
    }
  }

  lemma DivModUnique(a: int, n: nat, q: int, r: nat)
    requires n > 0 && a == n * q + r && r < n
    ensures a / n == q && a % n == r
  {
    assert n * (a / n - q) == r - a % n;
    MulBound(n, a / n - q);
  }

  lemma MultipleMod(n: nat, k: nat)
    requires n > 0
    ensures n * k % n == 0 && n * k / n == k
  {
    DivModUnique(n * k, n, k, 0);
  }

  /** Sums and differences of multiples, and the multiple below a number. */
  lemma Distribute(n: nat, i: int, j: int)
    ensures n * (i + j) == n * i + n * j && n * (i - j) == n * i - n * j
  {
  }

  lemma Below(a: nat, n: nat)
    requires n > 0
    ensures n * (a / n) <= a < n * (a / n) + n && n * (a / n) + a % n == a
  {
  }
}
