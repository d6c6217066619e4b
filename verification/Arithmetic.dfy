/** Facts about products and quotients. */
module Arithmetic {
  lemma Monotone(a: nat, b: nat, d: nat)
    requires a <= b
    ensures a * d <= b * d
  {}

  lemma Successor(a: nat, d: nat)
    ensures (a + 1) * d == a * d + d
  {}

  lemma Quotient(n: nat, d: nat, q: nat, r: nat)
    requires n == q * d + r && r < d
    ensures n / d == q && n % d == r
  {
    var q', r' := n / d, n % d;
    assert n == q' * d + r';
    Successor(q, d);
    Successor(q', d);
    if q' > q {
      Monotone(q + 1, q', d);
    } else if q' < q {
      Monotone(q' + 1, q, d);
    }
  }
}
