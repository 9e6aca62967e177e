/** Quotients and remainders of unbounded integers. */
module Arithmetic {
  lemma RemainderUnique(x: int, d: nat, q: int, r: int)
    requires d > 0 && 0 <= r < d && x == d * q + r
    ensures x % d == r
  {
    var q', r' := x / d, x % d;
    assert d * (q - q') == r' - r;
    if q > q' {
      ProductAtLeast(d, q - q');
    } else if q < q' {
      ProductAtLeast(d, q' - q);
    }
  }

  lemma ProductAtLeast(d: nat, k: int)
    requires k >= 1
    ensures d * k >= d
  {
  }

  lemma QuotientUnique(x: int, d: nat, q: int, r: int)
    requires d > 0 && 0 <= r < d && x == d * q + r
    ensures x / d == q
  {
    RemainderUnique(x, d, q, r);
    var q' := x / d;
    assert d * q' == d * q;
    if q < q' {
      ProductAtLeast(d, q' - q);
    } else if q' < q {
      ProductAtLeast(d, q - q');
    }
  }

  lemma ProductBelow(p: nat, q: nat, r: nat, s: nat)
    requires r < q && s < p
    ensures p * r + s < p * q
  {
    assert p * (r + 1) <= p * q;
    assert p * (r + 1) == p * r + p;
  }

  lemma DivideTwice(n: nat, p: nat, q: nat)
    requires p > 0 && q > 0
    ensures p * q > 0 && n / p / q == n / (p * q)
  {
    var m := n / p;
    var a, r, b, s := m / q, m % q, n / p, n % p;
    assert n == p * (q * a + r) + s;
    ProductBelow(p, q, r, s);
    assert p * (q * a + r) == p * q * a + p * r;
    QuotientUnique(n, p * q, a, p * r + s);
  }
}
