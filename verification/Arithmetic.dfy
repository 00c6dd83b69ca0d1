/** Division facts used for byte order and for the pool index. */
module Arithmetic {

  lemma MulLess(d: nat, k: nat, k': nat)
    requires k < k'
    ensures d * k + d <= d * k'
  {
    assert d * k' == d * k + d * (k' - k);
    assert d * (k' - k) == d * (k' - k - 1) + d;
  }

  lemma DivModUnique(n: nat, d: nat, q: nat, r: nat)
    requires d > 0 && n == d * q + r && r < d
    ensures n / d == q && n % d == r
  {
    var q' := n / d;
    if q > q' {
      MulLess(d, q', q);
    } else if q' > q {
      MulLess(d, q, q');
    }
  }

  /** The remainder by b * p, digit by digit. */
  lemma ModSplit(n: nat, b: nat, p: nat)
    requires p > 0 && b > 0
    ensures b * p > 0 && n % b + b * ((n / b) % p) == n % (b * p)
  {
    var m := n / b;
    var q, r := m / p, m % p;
    assert m == p * q + r;
    assert b * m == b * (p * q) + b * r;
    assert b * (p * q) == (b * p) * q;
    assert n == (b * p) * q + (b * r + n % b);
    MulLess(b, r, p);
    DivModUnique(n, b * p, q, b * r + n % b);
  }
}
