/** Powers and sign facts over the reals, shared by the geometry and drag
    formulas. */
module RealArithmetic {

  /** `x**2`. Squares go through this one function so that the solver sees
      the same term wherever a square occurs. */
  function Sq(x: real): real {
    x * x
  }

  /** `x**3`. */
  function Cube(x: real): real {
    x * x * x
  }

  /** With a non-negative factor the product has the sign of the other. */
  lemma SignOfProduct(c: real, d: real)
    requires c >= 0.0
    ensures d >= 0.0 ==> c * d >= 0.0
    ensures c > 0.0 ==> (c * d > 0.0 <==> d > 0.0)
  {
  }

  /** A square is non-negative, and positive unless its root is zero. */
  lemma SqPositive(x: real)
    ensures Sq(x) >= 0.0
    ensures x != 0.0 ==> Sq(x) > 0.0
  {
    if x != 0.0 {
      SqNonZero(x);
    }
  }

  /** The square of a non-zero number is positive. */
  lemma SqNonZero(x: real)
    requires x != 0.0
    ensures Sq(x) > 0.0
  {
    assert Sq(x) / x == x;
  }

  /** Squaring is strictly increasing on the non-negative reals. */
  lemma SqIncreasing(a: real, b: real)
    requires 0.0 <= a < b
    ensures Sq(a) < Sq(b)
  {
    assert (Sq(b) - Sq(a)) / (b - a) == b + a;
  }

  /** A non-zero number divided by itself is one. */
  lemma DivSelf(x: real)
    requires x != 0.0
    ensures x / x == 1.0
  {
  }
}
