/** Multiples and quotients. */
module Arithmetic {

  lemma MulMono(a: nat, b: nat, k: nat)
    requires a <= b
    ensures a * k <= b * k
  {
  }

  lemma NextMultiple(i: nat, n: nat, k: nat)
    requires i < n
    ensures i * k + k <= n * k
  {
    MulMono(i + 1, n, k);
  }

  lemma BelowQuotient(n: nat, d: nat, x: nat)
    requires d > 0 && n * d <= x
    ensures n <= x / d
  {
    var q := x / d;
    assert x < (q + 1) * d;
    if n > q {
      MulMono(q + 1, n, d);
    }
  }

  lemma UniqueQuotient(i: nat, q: nat, r: nat, d: nat)
    requires i * d == q * d + r && r < d
    ensures i == q && r == 0
  {
    if i > q { NextMultiple(q, i, d); }
    if i < q { NextMultiple(i, q, d); }
  }

  lemma Quotient(i: nat, d: nat)
    requires d > 0
    ensures i * d / d == i && i * d % d == 0
  {
    var x := i * d;
    UniqueQuotient(i, x / d, x % d, d);
  }

  lemma Division(x: nat, d: nat)
    requires d > 0
    ensures x % d == 0 ==> x == x / d * d
  {
  }

  /** The least multiple of `a` that is not below `x`. */
  function AlignUp(x: nat, a: nat): nat
    requires a > 0
  {
    (x + a - 1) / a * a
  }

  lemma AlignUpFits(x: nat, a: nat)
    requires a > 0
    ensures AlignUp(x, a) % a == 0 && x <= AlignUp(x, a) < x + a
  {
    Quotient((x + a - 1) / a, a);
  }

  lemma SumOfMultiples(x: nat, y: nat, a: nat)
    requires a > 0 && x % a == 0 && y % a == 0
    ensures (x + y) % a == 0
  {
    Division(x, a);
    Division(y, a);
    var q, r := x / a, y / a;
    assert x + y == (q + r) * a;
    Quotient(q + r, a);
  }

  /** Alignments of target types: powers of two up to that of an object header. */
  predicate Natural(a: nat) { a == 1 || a == 2 || a == 4 || a == 8 || a == 16 }

  function Max(a: nat, b: nat): nat { if a < b then b else a }
}
