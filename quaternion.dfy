/**
 * The rotation quaternion of the `vector` package, with components w, x, y, z
 * as reported by the motion-capture stream.
 */
module Quat {
  import opened RealMath
  import opened Vec3

  datatype Quaternion = Quaternion(w: real, x: real, y: real, z: real)

  /** q has norm 1. */
  predicate IsUnitQuaternion(q: Quaternion) {
    q.w * q.w + q.x * q.x + q.y * q.y + q.z * q.z == 1.0
  }

  /** The image of the y axis under the rotation q; its y component is at most 1. */
  function ToUpVector(q: Quaternion): (r: Vector3D)
    ensures r.y <= 1.0
  {
    SumSqSign(q.x, q.z);
    Vector3D(
      2.0 * (q.x * q.y - q.w * q.z),
      1.0 - 2.0 * SumSq(q.x, q.z),
      2.0 * (q.y * q.z + q.w * q.x))
  }

  /** The identity rotation leaves the up vector pointing along y. */
  lemma IdentityUpVector()
    ensures ToUpVector(Quaternion(1.0, 0.0, 0.0, 0.0)) == Vector3D(0.0, 1.0, 0.0)
  {
  }

  /** q and -q describe the same rotation: every term of the formula has degree 2. */
  lemma UpVectorOfNegation(q: Quaternion)
    ensures ToUpVector(Quaternion(-q.w, -q.x, -q.y, -q.z)) == ToUpVector(q)
  {
    SumSqNegate(q.x, q.z);
    assert (-q.x) * (-q.y) - (-q.w) * (-q.z) == q.x * q.y - q.w * q.z;
    assert (-q.y) * (-q.z) + (-q.w) * (-q.x) == q.y * q.z + q.w * q.x;
  }

  /** A unit quaternion yields an up vector of length 1. */
  lemma UpVectorOfUnitIsUnit(q: Quaternion)
    requires IsUnitQuaternion(q)
    ensures SumSq3(ToUpVector(q).x, ToUpVector(q).y, ToUpVector(q).z) == 1.0
  {
  }
}
