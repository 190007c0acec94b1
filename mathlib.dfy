/** The four <cmath> functions the transmittance computation calls (sqrt, exp, pow, cos).
    Their values are not modelled: every operation that needs one receives a `Libm` record
    as an argument, and a member that relies on a law of sqrt, exp or pow says so in its
    `requires` clause through `SqrtLaws`, `ExpLaws` or `PowLaws`.  The laws are true of the
    real square root, the real exponential and the real power. */
module MathLib {

  datatype Libm = Libm(
    sqrt: real -> real,
    exp: real -> real,
    pow: (real, real) -> real,
    cos: real -> real)

  /** x * x, as a named term so that the law `sqrt(x*x) == x` has a trigger. */
  function Square(x: real): real { x * x }

  /** The defining laws of the principal square root: on its domain it is non-negative and
      squares back to its argument.  Everything else the proofs use is derived below. */
  ghost predicate SqrtLaws(sqrt: real -> real) {
    && (forall x :: 0.0 <= x ==> 0.0 <= sqrt(x))
    && (forall x :: 0.0 <= x ==> Square(sqrt(x)) == x)
  }

  /** The laws of the exponential used by the proofs. */
  ghost predicate ExpLaws(exp: real -> real) {
    && (forall x :: 0.0 < exp(x))
    && (forall x :: x <= 0.0 ==> exp(x) <= 1.0)
    && exp(0.0) == 1.0
  }

  /** The law of pow used by the proofs: any number to the power 0 is 1. */
  ghost predicate PowLaws(pow: (real, real) -> real) {
    forall x :: pow(x, 0.0) == 1.0
  }

  /** The square root of a square of a non-negative number. */
  lemma SqrtOfSquare(sqrt: real -> real, x: real)
    requires SqrtLaws(sqrt)
    requires 0.0 <= x
    ensures sqrt(x * x) == x
  {
    SquareNonNegative(x);
    var s := sqrt(x * x);
    assert Square(s) == x * x;
    SquareLeImpliesLe(s, x);
    SquareLeImpliesLe(x, s);
  }

  /** sqrt(a) <= b for b >= 0 exactly when a <= b * b (on a >= 0). */
  lemma SqrtAtMost(sqrt: real -> real, a: real, b: real)
    requires SqrtLaws(sqrt)
    requires 0.0 <= a && 0.0 <= b && a <= b * b
    ensures sqrt(a) <= b
  {
    var s := sqrt(a);
    assert Square(s) == a;
    SquareLeImpliesLe(s, b);
  }

  /** b <= sqrt(a) for b >= 0 whenever b * b <= a. */
  lemma SqrtAtLeast(sqrt: real -> real, a: real, b: real)
    requires SqrtLaws(sqrt)
    requires 0.0 <= b && b * b <= a
    ensures b <= sqrt(a)
  {
    SquareNonNegative(b);
    var s := sqrt(a);
    assert Square(s) == a;
    SquareLeImpliesLe(b, s);
  }

  /** The square root is monotone. */
  lemma SqrtMonotone(sqrt: real -> real, a: real, b: real)
    requires SqrtLaws(sqrt)
    requires 0.0 <= a <= b
    ensures sqrt(a) <= sqrt(b)
  {
    var s := sqrt(b);
    assert Square(s) == b;
    SqrtAtMost(sqrt, a, s);
  }

  /** Squaring is monotone on non-negative numbers. */
  lemma SquareMonotone(a: real, b: real)
    requires 0.0 <= a <= b
    ensures a * a <= b * b
  {
    assert a * a <= a * b;
    assert a * b <= b * b;
  }

  /** Squaring is strictly monotone on non-negative numbers. */
  lemma SquareStrictMonotone(a: real, b: real)
    requires 0.0 <= a
    ensures a < b ==> a * a < b * b
  {
    if a < b {
      var aa, ab, bb := a * a, a * b, b * b;
      assert aa <= ab;
      assert ab < bb;
    }
  }

  /** Comparing squares compares numbers, when the larger side is non-negative. */
  lemma SquareLeImpliesLe(a: real, c: real)
    requires 0.0 <= c && a * a <= c * c
    ensures a <= c
  {
    SquareStrictMonotone(c, a);
  }

  /** The square of a non-zero number is positive. */
  lemma SquarePositive(a: real)
    requires a != 0.0
    ensures 0.0 < a * a
  {
    var m := if a < 0.0 then -a else a;
    assert a * a == m * m;
    MulCompare(0.0, m, m);
  }

  /** A square is never negative. */
  lemma SquareNonNegative(a: real)
    ensures 0.0 <= a * a
  {
    if a < 0.0 {
      var na := -a;
      assert a * a == na * na;
    }
  }

  /** Multiplying by a positive number preserves both orders. */
  lemma MulCompare(a: real, b: real, q: real)
    requires 0.0 < q
    ensures a < b <==> a * q < b * q
    ensures a <= b <==> a * q <= b * q
  {
    var aq, bq := a * q, b * q;
    assert bq - aq == (b - a) * q;
  }

  /** a * b, as a named term: a fact stated about Mul(a, b) carries over to a caller whose
      arguments are expressions, where one about a * b may not. */
  function Mul(a: real, b: real): real { a * b }

  /** A product of non-negative numbers is non-negative. */
  lemma MulNonNegative(a: real, b: real)
    requires 0.0 <= a && 0.0 <= b
    ensures 0.0 <= Mul(a, b)
  {
  }

  /** A fraction u in [0, 1] of a non-negative d is within [0, d]. */
  lemma FractionOf(d: real, u: real)
    requires 0.0 <= d && 0.0 <= u <= 1.0
    ensures 0.0 <= Mul(u, d) <= d
  {
    assert d - u * d == (1.0 - u) * d;
  }

  /** The laws for one argument: sqrt(a) is non-negative and squares back to a. */
  lemma SqrtFacts(sqrt: real -> real, a: real)
    requires SqrtLaws(sqrt)
    requires 0.0 <= a
    ensures 0.0 <= sqrt(a) && sqrt(a) * sqrt(a) == a
  {
    assert Square(sqrt(a)) == a;
  }

  /** sqrt(0) == 0. */
  lemma SqrtOfZero(sqrt: real -> real)
    ensures SqrtLaws(sqrt) ==> sqrt(0.0) == 0.0
  {
    if SqrtLaws(sqrt) {
      SqrtOfSquare(sqrt, 0.0);
    }
  }
}
