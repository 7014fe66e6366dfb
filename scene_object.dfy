/**
 * A tracked object drawn on the canvas: a live location that is moved in
 * place, a rotation, and the mapping from room coordinates to screen pixels.
 */
module Scene {
  import opened RealMath
  import opened Vec3

  /** A Java `int`. */
  newtype Int32 = n: int | -0x8000_0000 <= n < 0x8000_0000

  const MaxInt32: Int32 := 0x7fff_ffff
  const MinInt32: Int32 := -0x8000_0000

  /** A java.awt.Point: two int coordinates. */
  datatype Point = Point(x: Int32, y: Int32)

  /** A motive.Quaternion: four public components a, b, c, d. */
  datatype MotiveQuaternion = MotiveQuaternion(a: real, b: real, c: real, d: real)

  /**
   * Java's `(int)` cast of a double: the fraction is dropped (rounding toward
   * zero) and values beyond the int range saturate at its ends.
   */
  function TruncateToInt(r: real): (n: Int32)
    ensures MaxInt32 as real <= r ==> n == MaxInt32
    ensures r <= MinInt32 as real ==> n == MinInt32
    ensures 0.0 <= r < MaxInt32 as real ==> 0 <= n && n as real <= r < n as real + 1.0
    ensures MinInt32 as real < r <= 0.0 ==> n <= 0 && n as real - 1.0 < r <= n as real
  {
    if MaxInt32 as real <= r then MaxInt32
    else if r <= MinInt32 as real then MinInt32
    else if 0.0 <= r then r.Floor as Int32
    else -((-r).Floor) as Int32
  }

  /** The cast leaves a value that is already a whole int unchanged. */
  lemma TruncateWhole(n: Int32)
    ensures TruncateToInt(n as real) == n
  {
  }

  /** Horizontal pixel before truncation: the room's x range stretched over the screen width. */
  function ScreenX(x: real, lowerX: real, width: real, screenWidth: Int32): (sx: real)
    requires width != 0.0
  {
    (x - lowerX) / width * screenWidth as real
  }

  /** Vertical pixel before truncation, as the source writes it: note `y + lowerY`, not `y - lowerY`. */
  function ScreenY(y: real, lowerY: real, length: real, screenHeight: Int32): (sy: real)
    requires length != 0.0
  {
    -((y + lowerY) / length * screenHeight as real)
  }

  /** The room's lower x bound maps to the left edge of the screen. */
  lemma ScreenXAtLowerBound(lowerX: real, width: real, screenWidth: Int32)
    requires width != 0.0
    ensures ScreenX(lowerX, lowerX, width, screenWidth) == 0.0
  {
  }

  /** The room's upper x bound maps to the right edge of the screen. */
  lemma ScreenXAtUpperBound(lowerX: real, width: real, screenWidth: Int32)
    requires width != 0.0
    ensures ScreenX(lowerX + width, lowerX, width, screenWidth) == screenWidth as real
  {
    assert (lowerX + width - lowerX) / width == 1.0;
  }

  /** For a positive width and a non-negative screen width, further right in the room is never further left on screen. */
  lemma ScreenXMonotone(x1: real, x2: real, lowerX: real, width: real, screenWidth: Int32)
    requires 0.0 < width && 0 <= screenWidth && x1 <= x2
    ensures ScreenX(x1, lowerX, width, screenWidth) <= ScreenX(x2, lowerX, width, screenWidth)
  {
    var k := screenWidth as real / width;
    assert 0.0 <= k;
    assert ScreenX(x1, lowerX, width, screenWidth) == (x1 - lowerX) * k;
    assert ScreenX(x2, lowerX, width, screenWidth) == (x2 - lowerX) * k;
    assert (x2 - lowerX) * k - (x1 - lowerX) * k == (x2 - x1) * k;
  }

  /** The y coordinate -lowerY maps to the top edge of the screen. */
  lemma ScreenYAtNegatedLowerBound(lowerY: real, length: real, screenHeight: Int32)
    requires length != 0.0
    ensures ScreenY(-lowerY, lowerY, length, screenHeight) == 0.0
  {
  }

  /**
   * The lower y bound reaches the bottom edge of a non-empty screen exactly
   * when the room is centred on y = 0, as the default room (-0.5, length 1) is.
   */
  lemma ScreenYAtLowerBound(lowerY: real, length: real, screenHeight: Int32)
    requires length != 0.0 && screenHeight != 0
    ensures ScreenY(lowerY, lowerY, length, screenHeight) == screenHeight as real
        <==> lowerY == -length / 2.0
  {
    var h := screenHeight as real;
    var q := (lowerY + lowerY) / length;
    assert ScreenY(lowerY, lowerY, length, screenHeight) == -(q * h);
    if lowerY == -length / 2.0 {
      calc {
        q;
      == { assert lowerY + lowerY == -length; }
        (-length) / length;
      ==
        -1.0;
      }
    } else {
      ProductNonZero(q + 1.0, h);
      assert -(q * h) - h == -((q + 1.0) * h);
    }
  }

  /** The pixel an object at `location` is drawn at. */
  function ScreenLocation(location: Vector3D, lowerX: real, lowerY: real, width: real, length: real,
                          screenWidth: Int32, screenHeight: Int32): (p: Point)
    requires width != 0.0 && length != 0.0
  {
    Point(TruncateToInt(ScreenX(location.x, lowerX, width, screenWidth)),
          TruncateToInt(ScreenY(location.y, lowerY, length, screenHeight)))
  }

  /** An object at (lowerX, -lowerY) is drawn at the top-left pixel (0, 0). */
  lemma ScreenLocationOfTopLeft(location: Vector3D, lowerX: real, lowerY: real, width: real, length: real,
                                screenWidth: Int32, screenHeight: Int32)
    requires width != 0.0 && length != 0.0
    requires location.x == lowerX && location.y == -lowerY
    ensures ScreenLocation(location, lowerX, lowerY, width, length, screenWidth, screenHeight) == Point(0, 0)
  {
    ScreenXAtLowerBound(lowerX, width, screenWidth);
    ScreenYAtNegatedLowerBound(lowerY, length, screenHeight);
    TruncateWhole(0);
  }

  /** An object at the room's upper x bound is drawn in the column screenWidth. */
  lemma ScreenLocationOfRightEdge(location: Vector3D, lowerX: real, lowerY: real, width: real, length: real,
                                  screenWidth: Int32, screenHeight: Int32)
    requires width != 0.0 && length != 0.0
    requires location.x == lowerX + width
    ensures ScreenLocation(location, lowerX, lowerY, width, length, screenWidth, screenHeight).x == screenWidth
  {
    ScreenXAtUpperBound(lowerX, width, screenWidth);
    TruncateWhole(screenWidth);
  }

  class SceneObject {
    /** The location object; never replaced, only updated in place. */
    const location: Vector3DObject
    var rotation: MotiveQuaternion

    /** A new object sits at the origin with rotation (0, 0, 0, 1). */
    constructor ()
      ensures fresh(location)
      ensures location.Value() == Vector3D(0.0, 0.0, 0.0)
      ensures rotation == MotiveQuaternion(0.0, 0.0, 0.0, 1.0)
    {
      location := new Vector3DObject(0.0, 0.0, 0.0);
      rotation := MotiveQuaternion(0.0, 0.0, 0.0, 1.0);
    }

    /** Overwrites the three components of the location object; the rotation is untouched. */
    method MoveTo(x: real, y: real, z: real)
      modifies location
      ensures location.Value() == Vector3D(x, y, z)
      ensures rotation == old(rotation)
    {
      location.x := x;
      location.y := y;
      location.z := z;
    }

    /** Overwrites the four rotation components; the location is untouched. */
    method RotateTo(a: real, b: real, c: real, d: real)
      modifies this`rotation
      ensures rotation == MotiveQuaternion(a, b, c, d)
      ensures location.Value() == old(location.Value())
    {
      rotation := MotiveQuaternion(a, b, c, d);
    }

    /** Returns the location object itself, not a copy. */
    method GetLocation() returns (l: Vector3DObject)
      ensures l == location
    {
      l := location;
    }

    /** The pixel this object is drawn at; computing it changes nothing. */
    method GetScreenLocation(lowerX: real, lowerY: real, width: real, length: real,
                             screenWidth: Int32, screenHeight: Int32) returns (p: Point)
      requires width != 0.0 && length != 0.0
      ensures p == ScreenLocation(location.Value(), lowerX, lowerY, width, length, screenWidth, screenHeight)
    {
      var px := TruncateToInt(ScreenX(location.x, lowerX, width, screenWidth));
      var py := TruncateToInt(ScreenY(location.y, lowerY, length, screenHeight));
      p := Point(px, py);
    }
  }

  /** A location obtained before a move observes the move: GetLocation hands out the live object. */
  method LocationIsLive(o: SceneObject, x: real, y: real, z: real) returns (seen: Vector3D)
    modifies o.location
    ensures seen == Vector3D(x, y, z)
  {
    var l := o.GetLocation();
    o.MoveTo(x, y, z);
    seen := l.Value();
  }
}
