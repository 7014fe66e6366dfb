/**
 * The planar vector of the `vector` package, over exact reals. A Vector2D is
 * a value: every operation builds a new one and leaves its operands alone.
 */
module Vec2 {
  import opened RealMath

  datatype Vector2D = Vector2D(x: real, y: real)

  /** Square of the distance between v and w: never negative, zero exactly when they coincide. */
  function DistanceFromSquared(v: Vector2D, w: Vector2D): (r: real)
    ensures 0.0 <= r
    ensures r == 0.0 <==> v == w
  {
    SumSqSign(v.x - w.x, v.y - w.y);
    SumSq(v.x - w.x, v.y - w.y)
  }

  /** The squared distance does not depend on which point is the receiver. */
  lemma DistanceFromSquaredSymmetric(v: Vector2D, w: Vector2D)
    ensures DistanceFromSquared(v, w) == DistanceFromSquared(w, v)
  {
  }

  /** Distance between v and w: the non-negative root of the squared distance. */
  function DistanceFrom(m: Primitives, v: Vector2D, w: Vector2D): (r: real)
    requires Lawful(m)
    ensures 0.0 <= r && r * r == DistanceFromSquared(v, w)
  {
    SumSqSign(v.x - w.x, v.y - w.y);
    m.sqrt(SumSq(v.x - w.x, v.y - w.y))
  }

  /** Component-wise sum; subtracting either operand gives back the other. */
  function Plus(v: Vector2D, w: Vector2D): (r: Vector2D)
    ensures Minus(r, w) == v && Minus(r, v) == w
  {
    Vector2D(v.x + w.x, v.y + w.y)
  }

  /** Component-wise difference; the zero vector exactly when the operands coincide. */
  function Minus(v: Vector2D, w: Vector2D): (r: Vector2D)
    ensures r == Vector2D(0.0, 0.0) <==> v == w
  {
    Vector2D(v.x - w.x, v.y - w.y)
  }

  /** Addition does not depend on the order of its operands. */
  lemma PlusCommutative(v: Vector2D, w: Vector2D)
    ensures Plus(v, w) == Plus(w, v)
  {
  }

  /** Subtracting w undoes adding w. */
  lemma PlusThenMinus(v: Vector2D, w: Vector2D)
    ensures Minus(Plus(v, w), w) == v
  {
  }

  function DotProduct(v: Vector2D, w: Vector2D): (r: real) {
    v.x * w.x + v.y * w.y
  }

  /** The dot product does not depend on the order of its operands. */
  lemma DotProductSymmetric(v: Vector2D, w: Vector2D)
    ensures DotProduct(v, w) == DotProduct(w, v)
  {
  }

  /** Component-wise product with s. */
  function Scale(v: Vector2D, s: real): (r: Vector2D) {
    Vector2D(v.x * s, v.y * s)
  }

  /** Component-wise division; Java would produce infinities or NaN for d == 0. Multiplying back by d restores v. */
  function Divide(v: Vector2D, d: real): (r: Vector2D)
    requires d != 0.0
    ensures r.x * d == v.x && r.y * d == v.y
  {
    DivideThenMultiply(v.x, d);
    DivideThenMultiply(v.y, d);
    Vector2D(v.x / d, v.y / d)
  }

  /** Dividing by a non-zero s undoes scaling by s. */
  lemma ScaleThenDivide(v: Vector2D, s: real)
    requires s != 0.0
    ensures Divide(Scale(v, s), s) == v
  {
    DivideAfterMultiply(v.x, s);
    DivideAfterMultiply(v.y, s);
  }

  lemma DivideAfterMultiply(a: real, s: real)
    requires s != 0.0
    ensures (a * s) / s == a
  {
  }

  /** Length of v: the non-negative root of the sum of its squared components. */
  function Magnitude(m: Primitives, v: Vector2D): (r: real)
    requires Lawful(m)
    ensures 0.0 <= r && r * r == SumSq(v.x, v.y)
  {
    SumSqSign(v.x, v.y);
    m.sqrt(SumSq(v.x, v.y))
  }

  /** The squared length of v is v's dot product with itself. */
  lemma MagnitudeSquaredIsDotProduct(m: Primitives, v: Vector2D)
    requires Lawful(m)
    ensures Magnitude(m, v) * Magnitude(m, v) == DotProduct(v, v)
  {
    calc {
      Magnitude(m, v) * Magnitude(m, v);
    ==
      SumSq(v.x, v.y);
    == { DotSelf(v); }
      DotProduct(v, v);
    }
  }

  lemma DotSelf(v: Vector2D)
    ensures DotProduct(v, v) == SumSq(v.x, v.y)
  {
    calc {
      DotProduct(v, v);
    ==
      v.x * v.x + v.y * v.y;
    ==
      SumSq(v.x, v.y);
    }
  }

  /** v has length 1. */
  predicate IsUnit(v: Vector2D) {
    v.x * v.x + v.y * v.y == 1.0
  }

  /**
   * Unit vector pointing from `from` towards `to`: their difference divided by
   * their distance. The points must differ, or the distance is zero.
   */
  function DirectionTowards(m: Primitives, from: Vector2D, to: Vector2D): (r: Vector2D)
    requires Lawful(m) && from != to
    ensures DistanceFrom(m, from, to) != 0.0
    ensures r == Divide(Minus(to, from), DistanceFrom(m, from, to))
    ensures IsUnit(r)
  {
    DirectionFacts(m, from, to);
    var dx := to.x - from.x;
    var dy := to.y - from.y;
    var d := m.sqrt(SumSq(dx, dy));
    Vector2D(dx / d, dy / d)
  }

  /** The length used by DirectionTowards is the positive distance, and dividing by it yields length 1. */
  lemma DirectionFacts(m: Primitives, from: Vector2D, to: Vector2D)
    requires Lawful(m) && from != to
    ensures
      var dx := to.x - from.x;
      var dy := to.y - from.y;
      var d := m.sqrt(SumSq(dx, dy));
      0.0 < d && d == DistanceFrom(m, from, to) && IsUnit(Vector2D(dx / d, dy / d))
  {
    var dx := to.x - from.x;
    var dy := to.y - from.y;
    SumSqSign(dx, dy);
    var s := SumSq(dx, dy);
    SqrtPositive(m, s);
    var d := m.sqrt(s);
    calc {
      SumSq(from.x - to.x, from.y - to.y);
    == { assert from.x - to.x == -dx && from.y - to.y == -dy; }
      SumSq(-dx, -dy);
    == { SumSqNegate(dx, dy); }
      s;
    }
    calc {
      d * d;
    ==
      s;
    ==
      dx * dx + dy * dy;
    }
    UnitAfterDivision(dx, dy, d);
  }

  /** Heading angle of v, atan2(y, x). */
  function Theta(m: Primitives, v: Vector2D): (r: real) {
    m.atan2(v.y, v.x)
  }

  /** Scaling a non-zero vector by a positive factor keeps its heading. */
  lemma ThetaOfPositiveScale(m: Primitives, v: Vector2D, s: real)
    requires Lawful(m) && v != Vector2D(0.0, 0.0) && 0.0 < s
    ensures Theta(m, Scale(v, s)) == Theta(m, v)
  {
    ScaledSameDirection(v.x, v.y, s);
  }

  /** The unit vector of DirectionTowards has the heading of the difference it normalises. */
  lemma ThetaOfDirection(m: Primitives, from: Vector2D, to: Vector2D)
    requires Lawful(m) && from != to
    ensures Theta(m, DirectionTowards(m, from, to)) == Theta(m, Minus(to, from))
  {
    DirectionFacts(m, from, to);
    var dx := to.x - from.x;
    var dy := to.y - from.y;
    var d := m.sqrt(SumSq(dx, dy));
    DivideAsScale(dx, d);
    DivideAsScale(dy, d);
    InversePositive(d);
    ThetaOfPositiveScale(m, Minus(to, from), 1.0 / d);
  }

  lemma DivideAsScale(a: real, d: real)
    requires d != 0.0
    ensures a / d == a * (1.0 / d)
  {
  }

  lemma InversePositive(d: real)
    requires 0.0 < d
    ensures 0.0 < 1.0 / d
  {
  }

  /** (a * s, b * s) points the same way as a non-zero (a, b) when s is positive. */
  lemma ScaledSameDirection(a: real, b: real, s: real)
    requires (a != 0.0 || b != 0.0) && 0.0 < s
    ensures SameDirection(a * s, b * s, a, b)
  {
    SumSqSign(a, b);
    ProductPositive(s, SumSq(a, b));
    calc {
      (a * s) * a + (b * s) * b;
    ==
      s * (a * a + b * b);
    ==
      s * SumSq(a, b);
    }
    assert (a * s) * b == a * (b * s);
  }
}
