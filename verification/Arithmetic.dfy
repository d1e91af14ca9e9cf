/** Quotients and remainders by a variable divisor. */
module Arithmetic {

  lemma QuotientRemainder(n: nat, q: nat, r: nat)
    requires r < n
    ensures (n * q + r) / n == q && (n * q + r) % n == r
  {
    var d, m := (n * q + r) / n, (n * q + r) % n;
    assert n * d + m == n * q + r;
    if d < q {
      assert n * (d + 1) <= n * q by { MonotoneProduct(n, d + 1, q); }
    } else if q < d {
      assert n * (q + 1) <= n * d by { MonotoneProduct(n, q + 1, d); }
    }
  }

  lemma MonotoneProduct(n: nat, a: nat, b: nat)
    requires a <= b
    ensures n * a <= n * b
  {}
}
