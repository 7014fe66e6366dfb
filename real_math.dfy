/**
 * The two java.lang.Math primitives the vector code relies on, Math.sqrt and
 * Math.atan2, kept abstract. A model receives them as a `Primitives` value and
 * assumes nothing about them beyond the laws stated by `Lawful`.
 */
module RealMath {

  datatype Primitives = Primitives(sqrt: real -> real, atan2: (real, real) -> real)

  /** (x1, y1) and (x2, y2) are non-zero and point the same way. */
  predicate SameDirection(x1: real, y1: real, x2: real, y2: real) {
    x1 * y2 == x2 * y1 && x1 * x2 + y1 * y2 > 0.0
  }

  /**
   * sqrt yields the non-negative root of a non-negative argument, and
   * atan2(y, x) depends only on the direction of a non-zero (x, y).
   */
  ghost predicate Lawful(m: Primitives) {
    (forall a: real :: 0.0 <= a ==> 0.0 <= m.sqrt(a) && m.sqrt(a) * m.sqrt(a) == a)
    && (forall y1: real, x1: real, y2: real, x2: real
          {:trigger m.atan2(y1, x1), m.atan2(y2, x2)} ::
          SameDirection(x1, y1, x2, y2) ==> m.atan2(y1, x1) == m.atan2(y2, x2))
  }

  /** a * a + b * b, the squared length of (a, b). */
  function SumSq(a: real, b: real): (r: real) {
    a * a + b * b
  }

  /** A sum of two squares is never negative, and is positive unless both terms are zero. */
  lemma SumSqSign(a: real, b: real)
    ensures 0.0 <= SumSq(a, b)
    ensures 0.0 < SumSq(a, b) <==> a != 0.0 || b != 0.0
  {
    if a != 0.0 || b != 0.0 {
      calc {
        SumSq(a, b);
      ==
        a * a + b * b;
      > { SumPositive(a, b); }
        0.0;
      }
    } else {
      calc {
        SumSq(a, b);
      ==
        a * a + b * b;
      ==
        0.0;
      }
    }
  }

  /** Negating both terms leaves a sum of squares unchanged. */
  lemma SumSqNegate(a: real, b: real)
    ensures SumSq(-a, -b) == SumSq(a, b)
  {
    calc {
      SumSq(-a, -b);
    ==
      (-a) * (-a) + (-b) * (-b);
    ==
      a * a + b * b;
    ==
      SumSq(a, b);
    }
  }

  /** a * a + b * b + c * c, the squared length of (a, b, c). */
  function SumSq3(a: real, b: real, c: real): (r: real) {
    a * a + b * b + c * c
  }

  /** A sum of three squares is never negative, and is positive unless all terms are zero. */
  lemma SumSq3Sign(a: real, b: real, c: real)
    ensures 0.0 <= SumSq3(a, b, c)
    ensures 0.0 < SumSq3(a, b, c) <==> a != 0.0 || b != 0.0 || c != 0.0
  {
    SquareNonNegative(c);
    if a != 0.0 || b != 0.0 {
      calc {
        SumSq3(a, b, c);
      ==
        (a * a + b * b) + c * c;
      > { SumPositive(a, b); }
        0.0;
      }
    } else if c != 0.0 {
      calc {
        SumSq3(a, b, c);
      ==
        0.0 * 0.0 + 0.0 * 0.0 + c * c;
      > { SquarePositive(c); }
        0.0;
      }
    } else {
      calc {
        SumSq3(a, b, c);
      ==
        0.0 * 0.0 + 0.0 * 0.0 + 0.0 * 0.0;
      ==
        0.0;
      }
    }
  }

  lemma SumPositive(a: real, b: real)
    requires a != 0.0 || b != 0.0
    ensures 0.0 < a * a + b * b
  {
    SquareNonNegative(a);
    SquareNonNegative(b);
    if a != 0.0 { SquarePositive(a); } else { SquarePositive(b); }
  }

  lemma SquarePositive(a: real)
    requires a != 0.0
    ensures 0.0 < a * a
  {
    if a > 0.0 { ProductPositive(a, a); } else { ProductPositive(-a, -a); }
  }

  lemma SquareNonNegative(a: real)
    ensures 0.0 <= a * a
  {
    if a != 0.0 { SquarePositive(a); }
  }

  /** Two non-negative numbers with the same square are equal. */
  lemma SquareInjective(s: real, t: real)
    requires 0.0 <= s && 0.0 <= t && s * s == t * t
    ensures s == t
  {
    assert (s - t) * (s + t) == s * s - t * t;
    if s + t == 0.0 {
    } else {
      assert s - t == 0.0;
    }
  }

  /** The root of a square is the non-negative number squared. */
  lemma SqrtUnique(m: Primitives, a: real, s: real)
    requires Lawful(m)
    requires 0.0 <= s && s * s == a
    ensures m.sqrt(a) == s
  {
    SquareInjective(m.sqrt(a), s);
  }

  lemma SqrtPositive(m: Primitives, a: real)
    requires Lawful(m) && 0.0 < a
    ensures 0.0 < m.sqrt(a)
  {
  }

  /** For non-negative s and t, s exceeds t exactly when s * s exceeds t * t. */
  lemma CompareBySquares(s: real, t: real)
    requires 0.0 <= s && 0.0 <= t
    ensures s > t <==> s * s > t * t
    ensures s < t <==> s * s < t * t
  {
    if s > t {
      ProductPositive(s - t, s + t);
      assert s * s - t * t == (s - t) * (s + t);
    } else if s < t {
      ProductPositive(t - s, t + s);
      assert t * t - s * s == (t - s) * (t + s);
    }
  }

  lemma ProductPositive(a: real, b: real)
    requires 0.0 < a && 0.0 < b
    ensures 0.0 < a * b
  {
  }

  lemma ProductNonZero(a: real, b: real)
    requires a != 0.0 && b != 0.0
    ensures a * b != 0.0
  {
  }

  /** (a / d) * d == a. */
  lemma DivideThenMultiply(a: real, d: real)
    requires d != 0.0
    ensures (a / d) * d == a
  {
  }

  /** If (p, q) * d == (a, b) and d is the length of (a, b), then (p, q) has length 1. */
  lemma UnitWhenScaledToLength(p: real, q: real, a: real, b: real, d: real)
    requires 0.0 < d && p * d == a && q * d == b && d * d == a * a + b * b
    ensures p * p + q * q == 1.0
  {
    calc {
      (p * d) * (p * d) + (q * d) * (q * d);
      a * a + (q * d) * (q * d);
      a * a + b * b;
      d * d;
    }
    UnitWhenSquaresMatch(p, q, d);
  }

  lemma UnitWhenSquaresMatch(p: real, q: real, d: real)
    requires 0.0 < d && (p * d) * (p * d) + (q * d) * (q * d) == d * d
    ensures p * p + q * q == 1.0
  {
    assert (p * d) * (p * d) + (q * d) * (q * d) == (p * p + q * q) * (d * d);
    assert (p * p + q * q - 1.0) * (d * d) == 0.0;
    ProductPositive(d, d);
  }

  /** Dividing (a, b) by its length d gives a vector of length 1. */
  lemma UnitAfterDivision(a: real, b: real, d: real)
    requires 0.0 < d && d * d == a * a + b * b
    ensures (a / d) * (a / d) + (b / d) * (b / d) == 1.0
  {
    DivideThenMultiply(a, d);
    DivideThenMultiply(b, d);
    UnitWhenScaledToLength(a / d, b / d, a, b, d);
  }
}
