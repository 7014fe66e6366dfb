/**
 * The spatial vector of the `vector` package, over exact reals. The pure
 * operations work on the value type `Vector3D`; `Vector3DObject` is the same
 * vector as a heap object whose public fields callers may overwrite in place.
 */
module Vec3 {
  import opened RealMath
  import opened Vec2

  datatype Vector3D = Vector3D(x: real, y: real, z: real)

  /** A Vector3D instance: its three fields are public and mutable. */
  class Vector3DObject {
    var x: real
    var y: real
    var z: real

    /** Stores the three components unchanged. */
    constructor (x: real, y: real, z: real)
      ensures Value() == Vector3D(x, y, z)
    {
      this.x := x;
      this.y := y;
      this.z := z;
    }

    /** The vector this object currently holds. */
    function Value(): Vector3D
      reads this
    {
      Vector3D(x, y, z)
    }
  }

  /** (x, y) of v scaled to length 1; the source divides by zero when x and y are both zero. */
  function To2DDirectionVector(m: Primitives, v: Vector3D): (r: Vector2D)
    requires Lawful(m) && (v.x != 0.0 || v.y != 0.0)
    ensures IsUnit(r)
    ensures SameDirection(r.x, r.y, v.x, v.y)
  {
    FlatDirectionFacts(m, v);
    var d := m.sqrt(SumSq(v.x, v.y));
    Vector2D(v.x / d, v.y / d)
  }

  lemma FlatDirectionFacts(m: Primitives, v: Vector3D)
    requires Lawful(m) && (v.x != 0.0 || v.y != 0.0)
    ensures
      var d := m.sqrt(SumSq(v.x, v.y));
      0.0 < d && IsUnit(Vector2D(v.x / d, v.y / d)) && SameDirection(v.x / d, v.y / d, v.x, v.y)
  {
    SumSqSign(v.x, v.y);
    var s := SumSq(v.x, v.y);
    SqrtPositive(m, s);
    var d := m.sqrt(s);
    calc {
      d * d;
    ==
      s;
    ==
      v.x * v.x + v.y * v.y;
    }
    UnitAfterDivision(v.x, v.y, d);
    DivideAsScale(v.x, d);
    DivideAsScale(v.y, d);
    InversePositive(d);
    ScaledSameDirection(v.x, v.y, 1.0 / d);
  }

  /** The z component plays no part in the planar direction. */
  lemma To2DDirectionVectorIgnoresZ(m: Primitives, v: Vector3D, z: real)
    requires Lawful(m) && (v.x != 0.0 || v.y != 0.0)
    ensures To2DDirectionVector(m, Vector3D(v.x, v.y, z)) == To2DDirectionVector(m, v)
  {
  }

  /** The planar direction of v is the direction from the origin towards (x, y). */
  lemma To2DDirectionVectorFromOrigin(m: Primitives, v: Vector3D)
    requires Lawful(m) && (v.x != 0.0 || v.y != 0.0)
    ensures To2DDirectionVector(m, v) == DirectionTowards(m, Vector2D(0.0, 0.0), Vector2D(v.x, v.y))
  {
    assert v.x - 0.0 == v.x && v.y - 0.0 == v.y;
  }

  /** Reference definition: the sum of the squared component differences. */
  function SquaredDistance(v: Vector3D, w: Vector3D): (r: real) {
    (v.x - w.x) * (v.x - w.x) + (v.y - w.y) * (v.y - w.y) + (v.z - w.z) * (v.z - w.z)
  }

  /** Euclidean distance from v to w. */
  function DistanceFrom(m: Primitives, v: Vector3D, w: Vector3D): (r: real)
    requires Lawful(m)
    ensures 0.0 <= r
  {
    SumSq3Sign(w.x - v.x, w.y - v.y, w.z - v.z);
    m.sqrt(SumSq3(w.x - v.x, w.y - v.y, w.z - v.z))
  }

  /** The body's sum of squares, taken over other - this, is the reference squared distance. */
  lemma DistanceRadicand(v: Vector3D, w: Vector3D)
    ensures SumSq3(w.x - v.x, w.y - v.y, w.z - v.z) == SquaredDistance(v, w)
  {
  }

  /** The squared distance is the sum of the squared component differences. */
  lemma DistanceFromSquared(m: Primitives, v: Vector3D, w: Vector3D)
    requires Lawful(m)
    ensures DistanceFrom(m, v, w) * DistanceFrom(m, v, w) == SquaredDistance(v, w)
  {
    SumSq3Sign(w.x - v.x, w.y - v.y, w.z - v.z);
    calc {
      DistanceFrom(m, v, w) * DistanceFrom(m, v, w);
    ==
      SumSq3(w.x - v.x, w.y - v.y, w.z - v.z);
    == { DistanceRadicand(v, w); }
      SquaredDistance(v, w);
    }
  }

  /** The distance does not depend on which point is the receiver. */
  lemma DistanceFromSymmetric(m: Primitives, v: Vector3D, w: Vector3D)
    requires Lawful(m)
    ensures DistanceFrom(m, v, w) == DistanceFrom(m, w, v)
  {
  }

  /** The distance is zero exactly when the two points coincide. */
  lemma DistanceFromZero(m: Primitives, v: Vector3D, w: Vector3D)
    requires Lawful(m)
    ensures DistanceFrom(m, v, w) == 0.0 <==> v == w
  {
    var s := SumSq3(w.x - v.x, w.y - v.y, w.z - v.z);
    SumSq3Sign(w.x - v.x, w.y - v.y, w.z - v.z);
    if v == w {
      SqrtUnique(m, s, 0.0);
    } else {
      SqrtPositive(m, s);
    }
  }

  /**
   * Comparing a distance with a non-negative tolerance t is the same as
   * comparing the squared distance with t * t, so no root is needed.
   */
  lemma DistanceCompare(m: Primitives, v: Vector3D, w: Vector3D, t: real)
    requires Lawful(m) && 0.0 <= t
    ensures DistanceFrom(m, v, w) > t <==> SquaredDistance(v, w) > t * t
    ensures DistanceFrom(m, v, w) < t <==> SquaredDistance(v, w) < t * t
  {
    DistanceFromSquared(m, v, w);
    CompareBySquares(DistanceFrom(m, v, w), t);
  }
}
