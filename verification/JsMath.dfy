/** The members of JavaScript's `Math` object that the audio code calls.
    `abs`, `max` and `min` are exact over the reals and are defined here.
    `sqrt`, `log` and `exp` are transcendental: they are passed to the model
    as function values, and the laws below are all the model assumes of them. */
module JsMath {

  /** Math.abs */
  function Abs(x: real): (r: real)
    ensures 0.0 <= r
    ensures r == x || r == -x
  {
    if x < 0.0 then -x else x
  }

  /** Math.max with two arguments */
  function Max(x: real, y: real): (r: real)
    ensures x <= r && y <= r
    ensures r == x || r == y
  {
    if x < y then y else x
  }

  /** Math.min with two arguments */
  function Min(x: real, y: real): (r: real)
    ensures r <= x && r <= y
    ensures r == x || r == y
  {
    if x < y then x else y
  }

  /** `sqrt` behaves as Math.sqrt on the non-negative reals: it yields the
      non-negative square root. */
  ghost predicate IsSqrt(sqrt: real -> real)
  {
    forall x :: 0.0 <= x ==> 0.0 <= sqrt(x) && sqrt(x) * sqrt(x) == x
  }

  /** The law of IsSqrt at one point. */
  lemma SqrtLaw(sqrt: real -> real, x: real)
    requires IsSqrt(sqrt) && 0.0 <= x
    ensures 0.0 <= sqrt(x) && sqrt(x) * sqrt(x) == x
  {
  }

  /** `exp` undoes `ln` on the positive reals, as Math.exp undoes Math.log,
      and `exp` is positive everywhere, as Math.exp is. */
  ghost predicate IsLnExp(ln: real -> real, exp: real -> real)
  {
    (forall x :: 0.0 < x ==> exp(ln(x)) == x)
    && (forall y :: 0.0 < exp(y))
  }

  /** The positivity law of IsLnExp at one point. */
  lemma ExpPositive(ln: real -> real, exp: real -> real, y: real)
    requires IsLnExp(ln, exp)
    ensures 0.0 < exp(y)
  {
  }

  /** The product of two positive numbers is positive. */
  lemma MulPositive(u: real, w: real)
    requires 0.0 < u && 0.0 < w
    ensures 0.0 < u * w
  {
  }

  /** a * c <= b * c for a <= b and non-negative c. */
  lemma MulMonotone(a: real, b: real, c: real)
    requires a <= b && 0.0 <= c
    ensures a * c <= b * c
  {
    if c != 0.0 && a < b {
      assert b * c - a * c == (b - a) * c;
      MulPositive(b - a, c);
    }
  }

  /** x / y <= c when x <= c * y and y is positive. */
  lemma QuotientBound(x: real, y: real, c: real)
    requires 0.0 < y && x <= c * y
    ensures x / y <= c
  {
    assert (c * y) / y == c;
    if x < c * y {
      assert c - x / y == (c * y - x) / y;
    }
  }

  /** Squaring is strictly increasing on the non-negative reals. */
  lemma SquareStrictlyIncreasing(u: real, v: real)
    requires 0.0 <= u < v
    ensures u * u < v * v
  {
    assert v * v - u * u == (v - u) * (v + u);
    MulPositive(v - u, v + u);
  }

  /** Negation commutes with division. */
  lemma NegQuotient(x: real, y: real)
    requires y != 0.0
    ensures (-x) / y == -(x / y)
  {
  }

  /** A non-negative number whose square is x * x is |x|. */
  lemma SquareRootUnique(y: real, x: real)
    requires 0.0 <= y && y * y == x * x
    ensures y == Abs(x)
  {
    var a := Abs(x);
    assert a * a == x * x by {
      if x < 0.0 {
        assert a == -x;
        assert (-x) * (-x) == x * x;
      }
    }
    if y < a {
      SquareStrictlyIncreasing(y, a);
    } else if a < y {
      SquareStrictlyIncreasing(a, y);
    }
  }

  /** Math.sqrt(x * x) is |x|. */
  lemma SqrtOfSquare(sqrt: real -> real, x: real)
    requires IsSqrt(sqrt)
    ensures sqrt(x * x) == Abs(x)
  {
    assert 0.0 <= x * x;
    SquareRootUnique(sqrt(x * x), x);
  }
}
