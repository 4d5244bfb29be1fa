/** The pieces of JavaScript's number arithmetic that the carousel relies on,
    over exact reals: Math.PI, Math.abs, Math.min and the `%` operator. */
module JsMath {

  /** Math.PI, as the exact decimal JavaScript prints for it. */
  const PI: real := 3.141592653589793

  /** Math.abs */
  function Abs(x: real): (r: real)
    ensures r >= 0.0
    ensures r == x || r == -x
  {
    if x < 0.0 then -x else x
  }

  /** Math.min of two numbers */
  function Min(a: real, b: real): (r: real)
    ensures r <= a && r <= b
    ensures r == a || r == b
  {
    if a <= b then a else b
  }

  /** Rounds a quotient toward zero, the way `%` on numbers picks its quotient. */
  function Trunc(q: real): (t: int)
    ensures q >= 0.0 ==> 0.0 <= t as real <= q < t as real + 1.0
    ensures q < 0.0 ==> t as real - 1.0 < q <= t as real <= 0.0
  {
    if q >= 0.0 then q.Floor else -((-q).Floor)
  }

  /** The `%` operator on numbers: the remainder of a division whose quotient
      is truncated toward zero, so the result takes the sign of the dividend. */
  function Rem(x: real, y: real): (r: real)
    requires y != 0.0
    ensures x >= 0.0 ==> r >= 0.0
    ensures x <= 0.0 ==> r <= 0.0
    ensures Abs(r) < Abs(y)
    ensures exists t: int :: x == Times(t, y) + r
  {
    var q := x / y;
    var t := Trunc(q);
    assert x == q * y;
    assert x - y * t as real == (q - t as real) * y;
    FractionOfDivisor(q - t as real, y);
    assert x == Times(t, y) + (x - y * t as real);
    x - y * t as real
  }

  /** `t` whole copies of `y`. */
  function Times(t: int, y: real): real {
    t as real * y
  }

  /** A fraction strictly between -1 and 1 of a nonzero number is smaller than it. */
  lemma FractionOfDivisor(f: real, y: real)
    requires -1.0 < f < 1.0 && y != 0.0
    ensures Abs(f * y) < Abs(y)
  {
    if y > 0.0 {
      assert y - f * y == (1.0 - f) * y;
      assert y + f * y == (1.0 + f) * y;
    } else {
      assert -y - f * y == (1.0 + f) * -y;
      assert -y + f * y == (1.0 - f) * -y;
    }
  }

  /** A dividend already smaller than the divisor is its own remainder. */
  lemma RemOfSmaller(x: real, y: real)
    requires 0.0 <= x < y
    ensures Rem(x, y) == x
  {
    var q := x / y;
    assert x == q * y;
    assert 0.0 <= q < 1.0;
    assert Trunc(q) == 0;
  }

  /** Multiplying by a positive factor keeps a strict order. */
  lemma MulLess(a: real, b: real, c: real)
    requires a < b && c > 0.0
    ensures a * c < b * c
  {
    assert b * c - a * c == (b - a) * c;
  }

  /** Multiplying by a non-negative factor keeps a weak order. */
  lemma MulLessEq(a: real, b: real, c: real)
    requires a <= b && c >= 0.0
    ensures a * c <= b * c
  {
    assert b * c - a * c == (b - a) * c;
  }

  /** A product of non-negative numbers is non-negative. */
  lemma MulNonNeg(a: real, b: real)
    requires a >= 0.0 && b >= 0.0
    ensures a * b >= 0.0
  {
  }
}
