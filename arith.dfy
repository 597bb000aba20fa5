/**
  Facts about products and truncating division of naturals, stated on
  plain variables so that the ratio computations can use them with the
  products treated as opaque values.
*/
module Arith {

  /** Multiplication by a natural number is monotone. */
  lemma {:induction false} MulMonotone(a: nat, b: nat, c: nat)
    requires a <= b
    ensures a * c <= b * c && c * a <= c * b
    decreases c
  {
    if c > 0 {
      MulMonotone(a, b, c - 1);
      assert a * c == a * (c - 1) + a;
      assert b * c == b * (c - 1) + b;
    }
  }

  /** A strict inequality between multiples of the same factor carries over to the multiplicands. */
  lemma {:induction false} MulCancelLess(a: nat, b: nat, c: nat)
    requires a * c < b * c
    ensures a < b
    decreases a
  {
    if a > 0 && b > 0 {
      assert (a - 1) * c == a * c - c;
      assert (b - 1) * c == b * c - c;
      MulCancelLess(a - 1, b - 1, c);
    }
  }

  /** Truncating division: `x / y` is the largest `q` with `q * y <= x`. */
  lemma DivBounds(x: nat, y: nat, q: nat)
    requires y > 0 && q == x / y
    ensures q * y <= x < (q + 1) * y
  {
    assert x == q * y + x % y;
    assert (q + 1) * y == q * y + y;
  }

  /** Truncating division of naturals, by repeated subtraction. */
  function Quotient(x: nat, y: nat): nat
    requires y > 0
    decreases x
  {
    if x < y then 0 else 1 + Quotient(x - y, y)
  }

  /** `Quotient(x, y)` is the largest `q` with `q * y <= x`. */
  lemma {:induction false} QuotientBounds(x: nat, y: nat)
    requires y > 0
    ensures Quotient(x, y) * y <= x < (Quotient(x, y) + 1) * y
    decreases x
  {
    if x >= y {
      var q := Quotient(x - y, y);
      QuotientBounds(x - y, y);
      assert Quotient(x, y) == q + 1;
      assert (q + 1) * y == q * y + y;
      assert (q + 2) * y == (q + 1) * y + y;
    }
  }

  /** On naturals the quotient is Python's `int` of the ratio, which Dafny writes `x / y`. */
  lemma QuotientIsDiv(x: nat, y: nat)
    requires y > 0
    ensures Quotient(x, y) == x / y
  {
    var q, r := Quotient(x, y), x / y;
    QuotientBounds(x, y);
    DivBounds(x, y, r);
    MulCancelLess(q, r + 1, y);
    MulCancelLess(r, q + 1, y);
  }
}
