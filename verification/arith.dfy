/** Division facts for a variable divisor. */
module Arith {

  lemma {:induction false} MulGrows(n: nat, d: nat)
    requires d >= 1
    ensures n * d >= n
  {
    if d > 1 {
      MulGrows(n, d - 1);
      assert n * d == n * (d - 1) + n;
    }
  }

  /** Quotient and remainder are unique. */
  lemma DivModUnique(n: nat, q: nat, r: nat)
    requires r < n
    ensures (n * q + r) / n == q && (n * q + r) % n == r
  {
    var x := n * q + r;
    var q', r' := x / n, x % n;
    assert x == n * q' + r';
    assert n * q == n * q' + n * (q - q');
    assert n * (q' - q) == -(n * (q - q'));
    if q' < q {
      MulGrows(n, q - q');
    } else if q < q' {
      MulGrows(n, q' - q);
    }
  }

  lemma ModPlusMultiple(n: nat, q: nat, x: nat)
    requires 0 < n
    ensures (n * q + x) % n == x % n
  {
    assert n * q + x == n * (q + x / n) + x % n;
    DivModUnique(n, q + x / n, x % n);
  }

  /** Reducing one summand first does not change the remainder. */
  lemma ModOfReduced(c: nat, n: nat, e: nat)
    requires 0 < n
    ensures (c % n + e) % n == (c + e) % n
  {
    assert c + e == n * (c / n) + (c % n + e);
    ModPlusMultiple(n, c / n, c % n + e);
  }

  /** Numbers less than n apart have different remainders. */
  lemma ModDistinct(n: nat, a: nat, b: nat)
    requires a < b < a + n
    ensures a % n != b % n
  {
    var qa, qb := a / n, b / n;
    assert a == n * qa + a % n && b == n * qb + b % n;
    assert n * (qb - qa) == n * qb - n * qa;
    if qb > qa {
      MulGrows(n, qb - qa);
    } else {
      MulGrows(n, qa - qb + 1);
      assert n * (qa - qb + 1) == n - n * (qb - qa);
    }
  }
}
