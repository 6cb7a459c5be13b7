/** Floored products `floor(a * b / d)` and the rounding facts the accumulator rests on. */
module Arith {

  function MulDiv(a: nat, b: nat, d: nat): (q: nat)
    requires d > 0
  {
    var product: nat := a * b;
    product / d
  }

  /** What rounding a product down to a multiple of `d` drops. */
  function MulMod(a: nat, b: nat, d: nat): (r: nat)
    requires d > 0
    ensures r < d
  {
    var product: nat := a * b;
    product % d
  }

  lemma MulModIs(a: nat, b: nat, d: nat)
    requires d > 0
    ensures MulDiv(a, b, d) * d + MulMod(a, b, d) == a * b
  {
  }

  lemma MulDivBounds(a: nat, b: nat, d: nat)
    requires d > 0
    ensures MulDiv(a, b, d) * d <= a * b < MulDiv(a, b, d) * d + d
  {
  }

  lemma QuotientBounds(x: nat, d: nat)
    requires d > 0
    ensures x / d * d <= x < x / d * d + d
  {
  }

  lemma MulMono(a: nat, b: nat, c: nat)
    requires a <= b
    ensures a * c <= b * c
  {
    assert (b - a) * c >= 0;
  }

  lemma MulCancel(a: nat, b: nat, c: nat)
    requires c > 0
    requires a * c <= b * c
    ensures a <= b
  {
    if a > b {
      MulMono(b + 1, a, c);
    }
  }

  lemma MulCancelStrict(a: nat, b: nat, c: nat)
    requires a * c < b * c
    ensures a < b
  {
    if b <= a {
      MulMono(b, a, c);
    }
  }

  /** Quotients are unique. */
  lemma QuotientIs(x: nat, d: nat, q: nat)
    requires d > 0
    requires q * d <= x < q * d + d
    ensures x / d == q
  {
    var k := x / d;
    QuotientBounds(x, d);
    assert (k + 1) * d == k * d + d && (q + 1) * d == q * d + d;
    MulCancelStrict(q, k + 1, d);
    MulCancelStrict(k, q + 1, d);
  }

  lemma DivMono(x: nat, y: nat, d: nat)
    requires d > 0
    requires x <= y
    ensures x / d <= y / d
  {
    var p, q := x / d, y / d;
    if p > q {
      MulMono(q + 1, p, d);
    }
  }

  /** Monotone in the first factor. */
  lemma MulDivMono(a: nat, a': nat, b: nat, d: nat)
    requires d > 0
    requires a <= a'
    ensures MulDiv(a, b, d) <= MulDiv(a', b, d)
  {
    MulMono(a, a', b);
    DivMono(a * b, a' * b, d);
  }

  lemma MulDivComm(a: nat, b: nat, d: nat)
    requires d > 0
    ensures MulDiv(a, b, d) == MulDiv(b, a, d)
  {
  }

  lemma QuotientsOfSum(x: nat, y: nat, d: nat, p: nat, q: nat, s: nat)
    requires p * d <= x < p * d + d
    requires q * d <= y < q * d + d
    requires s * d <= x + y < s * d + d
    ensures p + q <= s <= p + q + 1
  {
    assert (p + q) * d == p * d + q * d;
    assert (s + 1) * d == s * d + d;
    MulCancelStrict(p + q, s + 1, d);
    assert (p + q + 2) * d == p * d + q * d + d + d;
    MulCancelStrict(s, p + q + 2, d);
  }

  function Quotient(x: nat, d: nat): nat
    requires d > 0
  {
    x / d
  }

  lemma QuotientSpec(x: nat, d: nat)
    requires d > 0
    ensures Quotient(x, d) * d <= x < Quotient(x, d) * d + d
  {
  }

  /** Rounding a sum once loses no more, and at most one unit less, than rounding its parts. */
  lemma DivSplit(x: nat, y: nat, d: nat)
    requires d > 0
    ensures Quotient(x, d) + Quotient(y, d) <= Quotient(x + y, d) <= Quotient(x, d) + Quotient(y, d) + 1
  {
    hide Quotient;
    QuotientSpec(x, d);
    QuotientSpec(y, d);
    QuotientSpec(x + y, d);
    QuotientsOfSum(x, y, d, Quotient(x, d), Quotient(y, d), Quotient(x + y, d));
  }

  lemma MulDivSplit(a: nat, a': nat, b: nat, d: nat)
    requires d > 0
    ensures MulDiv(a, b, d) + MulDiv(a', b, d) <= MulDiv(a + a', b, d) <= MulDiv(a, b, d) + MulDiv(a', b, d) + 1
  {
    assert (a + a') * b == a * b + a' * b;
    DivSplit(a * b, a' * b, d);
  }
}
