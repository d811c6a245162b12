/** Quotients and remainders, pinned down by what they multiply up to. */
module Division {

  lemma RemainderIs(n: int, d: int, q: int, r: int)
    requires d > 0 && 0 <= r < d && n == d * q + r
    ensures n % d == r
  {
    var e := q - n / d;
    assert d * e == n % d - r;
    if e > 0 {
      Multiple(d, e);
    } else if e < 0 {
      Multiple(d, -e);
    }
  }

  lemma Multiple(d: int, e: int)
    requires d > 0 && e >= 1
    ensures d * e >= d
  {
  }

  lemma QuotientIs(n: int, d: int, q: int, r: int)
    requires d > 0 && 0 <= r < d && n == d * q + r
    ensures n / d == q
  {
    RemainderIs(n, d, q, r);
    assert d * (n / d) == d * q;
  }

  lemma WrapOnce(a: int, n: int)
    requires n > 0
    ensures (a + n) % n == a % n
  {
    var q, r := a / n, a % n;
    assert a + n == n * (q + 1) + r;
    RemainderIs(a + n, n, q + 1, r);
  }
}
