/** Quotient and remainder. */
module Division {

  lemma Grows(n: nat, x: int)
    requires n > 0
    ensures x >= 1 ==> n * x >= n
    ensures x <= -1 ==> n * x <= 0 - n
  {
  }

  /** A number is divided in one way only. */
  lemma QuotientIs(n: nat, q: int, r: nat)
    requires r < n
    ensures (n * q + r) / n == q && (n * q + r) % n == r
  {
    var x := n * q + r;
    Difference(n, q, r, x / n, x % n);
  }

  lemma Difference(n: nat, q: int, r: nat, q2: int, r2: nat)
    requires r < n && r2 < n && n * q + r == n * q2 + r2
    ensures q == q2 && r == r2
  {
    assert n * (q - q2) == n * q - n * q2;
    Grows(n, q - q2);
  }
}
