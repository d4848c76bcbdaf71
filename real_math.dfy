/** Exact real arithmetic stands in for the source's float64 arithmetic.

    The transcendental functions the flight code calls (numpy's sqrt, exp, power with a
    real exponent, log, sin, cos, arcsin, arccos, arctan and the constant pi) have no
    definition here.  They are carried as the fields of an `Elementary` value that every
    operation needing one receives as a parameter, and `Lawful` lists the only facts
    about them that the proofs use. */
module RealMath {

  datatype Elementary = Elementary(
    sqrt: real -> real,
    exp: real -> real,
    pow: (real, real) -> real,   // x ** k for a real exponent k
    ln: real -> real,
    sin: real -> real,
    cos: real -> real,
    arcsin: real -> real,
    arccos: real -> real,
    arctan: real -> real,
    pi: real)

  /** The facts about the elementary functions that the model relies on. */
  ghost predicate Lawful(e: Elementary)
  {
    && e.pi > 0.0
    && (forall k :: e.pow(1.0, k) == 1.0)
    && (forall k :: k > 0.0 ==> e.pow(0.0, k) == 0.0)
    && (forall x, k :: x > 0.0 ==> e.pow(x, k) > 0.0)
    && (forall x :: e.exp(x) > 0.0)
    && e.exp(0.0) == 1.0
    && (forall x, y :: x < y ==> e.exp(x) < e.exp(y))
    && (forall x, y, k :: 0.0 < x < y && k > 0.0 ==> e.pow(x, k) < e.pow(y, k))
    && (forall x, y, k :: 0.0 < x < y && k < 0.0 ==> e.pow(y, k) < e.pow(x, k))
    && (forall x :: x > 0.0 ==> e.sqrt(x) > 0.0)
    && (forall x :: x > 1.0 ==> e.ln(x) > 0.0)
    && (forall x :: e.cos(e.arctan(x)) > 0.0)
    && e.cos(e.pi / 6.0) > 0.0
    && e.cos(e.pi / 6.0) * e.cos(e.pi / 6.0) == 0.75
  }

  /** The values of sine, cosine and arcsine at 0, which is all the flight-path proofs
      need of them. */
  ghost predicate TrigAtZero(e: Elementary)
  {
    e.sin(0.0) == 0.0 && e.cos(0.0) == 1.0 && e.arcsin(0.0) == 0.0
  }

  /** Python's int() on a float: truncation toward zero. */
  function Trunc(x: real): (r: int)
    ensures x >= 0.0 ==> r as real <= x < r as real + 1.0
    ensures x < 0.0 ==> r as real - 1.0 < x <= r as real
  {
    if x >= 0.0 then x.Floor else -((-x).Floor)
  }

  /** The least integer not below x. */
  function Ceil(x: real): (r: int)
    ensures r as real - 1.0 < x <= r as real
  {
    -((-x).Floor)
  }

  function Min(a: real, b: real): (r: real)
    ensures r <= a && r <= b && (r == a || r == b)
  {
    if a <= b then a else b
  }

  function Max(a: real, b: real): (r: real)
    ensures r >= a && r >= b && (r == a || r == b)
  {
    if a >= b then a else b
  }

  // Ordered-field facts the solver does not find on its own once products of
  // unknowns appear.

  lemma ProductPositive(a: real, b: real)
    requires a > 0.0 && b > 0.0
    ensures a * b > 0.0
  {
  }

  lemma SquarePositive(x: real)
    requires x != 0.0
    ensures x * x > 0.0
  {
    if x > 0.0 {
      ProductPositive(x, x);
    } else {
      ProductPositive(-x, -x);
      assert x * x == (-x) * (-x);
    }
  }

  lemma MultiplyMonotone(x: real, y: real, d: real)
    requires x <= y && d > 0.0
    ensures x * d <= y * d
    ensures x < y ==> x * d < y * d
  {
    if x < y {
      ProductPositive(y - x, d);
      assert y * d - x * d == (y - x) * d;
    }
  }

  /** Dividing by a positive number keeps the sign and is undone by multiplying back. */
  lemma Quotient(n: real, d: real)
    requires d > 0.0
    ensures n / d * d == n
    ensures n > 0.0 ==> n / d > 0.0
    ensures n < 0.0 ==> n / d < 0.0
    ensures n == 0.0 ==> n / d == 0.0
  {
  }

  /** Two numbers with the same product with a positive number are equal. */
  lemma CancelPositive(x: real, y: real, d: real)
    requires d > 0.0 && x * d == y * d
    ensures x == y
  {
  }

  /** A product with a nonzero factor is zero only when the other factor is. */
  lemma ZeroProduct(x: real, d: real)
    requires d != 0.0 && x * d == 0.0
    ensures x == 0.0
  {
  }

  /** A product of nonzero factors is nonzero. */
  lemma NonzeroProduct(x: real, d: real)
    requires x != 0.0 && d != 0.0
    ensures x * d != 0.0
  {
    if x * d == 0.0 {
      ZeroProduct(x, d);
    }
  }

  /** Multiplication distributes over addition. */
  lemma Distribute(a: real, b: real, c: real)
    ensures a * (b + c) == a * b + a * c
  {
  }

  /** A factor can be taken out of a quotient. */
  lemma ScaleQuotient(k: real, n: real, d: real)
    requires d != 0.0
    ensures k * n / d == k * (n / d)
  {
  }

  /** Dividing by a positive number keeps the order of the dividends. */
  lemma DivideKeepsOrder(x: real, y: real, d: real)
    requires x < y && d > 0.0
    ensures x / d < y / d
  {
  }

  /** A positive dividend gives a smaller quotient for a larger positive divisor. */
  lemma DivideByLarger(n: real, a: real, b: real)
    requires n > 0.0 && 0.0 < a < b
    ensures n / b < n / a
  {
  }

  /** Below a quotient by a positive number means the product stays below the dividend. */
  lemma BelowQuotient(x: real, n: real, d: real)
    requires d > 0.0
    ensures x < n / d <==> x * d < n
  {
    if x < n / d {
      DivideKeepsOrder(x * d, n, d);
    }
  }
}
