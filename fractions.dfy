/** Facts about quotients of exact reals that the solver does not find on
    its own. */
module Fractions {

  /** `a / d + b / d == (a + b) / d`, stated over the values it is used on. */
  lemma AddFractions(a: nat, b: nat, n: nat, d: real, x: real, y: real, z: real)
    requires d != 0.0 && a + b == n
    requires x == a as real / d && y == b as real / d && z == x + y
    ensures z == n as real / d
  {
  }

  /** Equal numerators over equal denominators: the solver does not always
      carry an arithmetic equality into the division on its own. */
  lemma SameQuotient(a: real, a': real, b: real, b': real)
    requires a == a' && b == b' && b != 0.0
    ensures a / b == a' / b'
  {
  }

  /** A fraction with a positive numerator below its denominator lies
      strictly between 0 and 1. */
  lemma ProperFraction(n: real, d: real)
    requires 0.0 < n < d
    ensures 0.0 < n / d < 1.0
  {
    var q := n / d;
    DividePositive(n, d);
    assert (1.0 - q) * d == d - n;
    PositiveFactor(1.0 - q, d);
  }

  lemma DividePositive(a: real, b: real)
    requires a > 0.0 && b > 0.0
    ensures a / b > 0.0
  {
  }

  lemma PositiveFactor(a: real, b: real)
    requires b > 0.0 && a * b > 0.0
    ensures a > 0.0
  {
    assert a == (a * b) / b;
    DividePositive(a * b, b);
  }

  lemma MultiplyPositive(a: real, b: real)
    requires a > 0.0 && b > 0.0
    ensures a * b > 0.0
  {
  }

  /** The same mass over a larger denominator is smaller. */
  lemma LargerDenominator(k: real, a: real, b: real)
    requires k > 0.0 && 0.0 < a <= b
    ensures k / b <= k / a
    ensures k / b == k / a <==> a == b
  {
    var x, y := k / a, k / b;
    if a < b {
      DividePositive(k, a);
      MultiplyPositive(x, b - a);
      assert (x - y) * b == x * (b - a);
      PositiveFactor(x - y, b);
    }
  }

  /** The two shares `a / (a + b)` and `b / (a + b)` make up the whole. */
  lemma WholeSplit(a: real, b: real, x: real, y: real)
    requires a + b != 0.0 && x == a / (a + b) && y == b / (a + b)
    ensures x + y == 1.0
  {
  }

  lemma Whole(d: real, x: real)
    requires d != 0.0 && x == d / d
    ensures x == 1.0
  {
  }
}
