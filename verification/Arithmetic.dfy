/** Products and rounded quotients of natural numbers. */
module Arithmetic {

  lemma OneMoreOf(n: nat, a: nat)
    ensures (n + 1) * a == n * a + a
    ensures a * (n + 1) == a * n + a
  {
  }

  lemma ProductOrder(a: nat, b: nat, n: nat)
    requires a <= b
    ensures a * n <= b * n
  {
  }

  lemma DivisionBounds(a: nat, d: nat)
    requires d > 0
    ensures 0 <= a - d * (a / d) <= d - 1
  {
  }

  lemma QuotientBounds(t: nat, d: nat, lo: nat, hi: nat)
    requires d > 0 && lo * d <= t <= hi * d
    ensures lo <= t / d <= hi
  {
    var q := t / d;
    DivisionBounds(t, d);
    OneMoreOf(q, d);
    if q < lo {
      ProductOrder(q + 1, lo, d);
    }
    OneMoreOf(hi, d);
    if q > hi {
      ProductOrder(hi + 1, q, d);
    }
  }
}
