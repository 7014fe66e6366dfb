/**
 * The game state of the parking canvas: it receives rigid-body reports for
 * three tracked cars, latches each car's first pose, keeps each car's scene
 * object at its newest pose, and on every frame checks for bumps and a win
 * and calibrates the lane direction once.
 */
module Canvas {
  import opened Options
  import opened RealMath
  import opened Vec2
  import opened Vec3
  import opened Quat
  import opened Scene

  const FrontCar: int := 0
  const BackCar: int := 1
  const PlayerCar: int := 2

  const RoomXLowerLimit: real := -0.5
  const RoomYLowerLimit: real := -0.5
  const RoomLength: real := 1.0
  const RoomWidth: real := 1.0

  const GoalLocationTolerance: real := 0.02
  const BumpTolerance: real := 0.005
  const GoalRotationTolerance: real := 7.0

  /** One rigid-body report of the stream: which body, where, and how it is turned. */
  datatype BodyUpdate = BodyUpdate(id: int, position: Vector3D, orientation: Quaternion)

  /** The first report about body `id` in `h`, if any. */
  function FirstUpdate(h: seq<BodyUpdate>, id: int): (r: Option<BodyUpdate>)
    ensures r.Some? ==> r.value in h && r.value.id == id
  {
    if |h| == 0 then None
    else if h[0].id == id then Some(h[0])
    else FirstUpdate(h[1..], id)
  }

  /** FirstUpdate finds exactly the earliest report about `id`, and None when there is none. */
  lemma {:induction false} FirstUpdateIsEarliest(h: seq<BodyUpdate>, id: int)
    ensures FirstUpdate(h, id).None? <==> forall i | 0 <= i < |h| :: h[i].id != id
    ensures FirstUpdate(h, id).Some? ==>
      exists i | 0 <= i < |h| :: h[i] == FirstUpdate(h, id).value && h[i].id == id
        && forall j | 0 <= j < i :: h[j].id != id
  {
    if |h| == 0 {
    } else if h[0].id == id {
      assert h[0] == FirstUpdate(h, id).value;
    } else {
      FirstUpdateIsEarliest(h[1..], id);
      assert forall i | 1 <= i < |h| :: h[i] == h[1..][i - 1];
      if FirstUpdate(h, id).Some? {
        var k :| 0 <= k < |h[1..]| && h[1..][k] == FirstUpdate(h, id).value && h[1..][k].id == id
          && forall j | 0 <= j < k :: h[1..][j].id != id;
        assert h[k + 1] == FirstUpdate(h, id).value;
        assert forall j | 0 <= j < k + 1 :: h[j].id != id by {
          forall j | 0 <= j < k + 1 ensures h[j].id != id {
            if j > 0 { assert h[j] == h[1..][j - 1]; }
          }
        }
      }
    }
  }

  /** Appending a report never changes an existing first report, and supplies one when there was none. */
  lemma {:induction false} FirstUpdateAppend(h: seq<BodyUpdate>, u: BodyUpdate, id: int)
    ensures FirstUpdate(h + [u], id) ==
      if FirstUpdate(h, id).Some? then FirstUpdate(h, id)
      else if u.id == id then Some(u)
      else None
  {
    if |h| == 0 {
      assert h + [u] == [u];
    } else {
      assert (h + [u])[1..] == h[1..] + [u];
      FirstUpdateAppend(h[1..], u, id);
    }
  }

  /**
   * Replays the stream `h` through the latch of body `id`: every report about
   * `id`, oldest first, is offered to Latch, which keeps what it already holds.
   */
  function Replay(h: seq<BodyUpdate>, id: int): (r: Option<BodyUpdate>)
  {
    if |h| == 0 then None
    else
      var held := Replay(h[..|h| - 1], id);
      if h[|h| - 1].id == id then Latch(held, h[|h| - 1]) else held
  }

  /** Whatever the stream, the latch ends up holding the first report about `id`. */
  lemma {:induction false} ReplayLatchesFirst(h: seq<BodyUpdate>, id: int)
    ensures Replay(h, id) == FirstUpdate(h, id)
  {
    if |h| > 0 {
      var prefix, u := h[..|h| - 1], h[|h| - 1];
      assert h == prefix + [u];
      ReplayLatchesFirst(prefix, id);
      FirstUpdateAppend(prefix, u, id);
    }
  }

  /** The position a report carries, if there is one. */
  function PositionOf(u: Option<BodyUpdate>): (p: Option<Vector3D>)
    ensures p.Some? == u.Some?
  {
    if u.None? then None else Some(u.value.position)
  }

  /** The orientation a report carries, if there is one. */
  function OrientationOf(u: Option<BodyUpdate>): (q: Option<Quaternion>)
    ensures q.Some? == u.Some?
  {
    if u.None? then None else Some(u.value.orientation)
  }

  /** Java's Math.abs on doubles. */
  function Abs(r: real): (a: real)
    ensures 0.0 <= a && (a == r || a == -r)
  {
    if r < 0.0 then -r else r
  }

  /** The (x, y) part of a position, as `new Vector2D(p.x, p.y)`. */
  function Flat(p: Vector3D): (v: Vector2D) {
    Vector2D(p.x, p.y)
  }

  /** Keeps a latched value; fills an empty slot with `v`. */
  function Latch<T>(slot: Option<T>, v: T): (r: Option<T>)
    ensures r.Some?
    ensures slot.Some? ==> r == slot
    ensures slot.None? ==> r == Some(v)
  {
    if slot.None? then Some(v) else slot
  }

  /**
   * A lane, once set, is the unit direction from the player's goal towards
   * the front car's first position, and rot is the angle of that direction;
   * before that, rot keeps its initial 0.
   */
  ghost predicate Calibrated(m: Primitives, lane: Option<Vector2D>, rot: real,
                             front: Option<Vector3D>, goal: Option<Vector3D>)
  {
    if lane.None? then rot == 0.0
    else
      Lawful(m) && front.Some? && goal.Some? && Flat(goal.value) != Flat(front.value)
      && lane.value == DirectionTowards(m, Flat(goal.value), Flat(front.value))
      && rot == Theta(m, lane.value)
  }

  /**
   * One body's latched slots: position and orientation are latched together,
   * and its entry of initialRotations is the heading of the latched
   * orientation, or the array default 0 before it is latched.
   */
  ghost predicate Latched(heading: Quaternion -> real, position: Option<Vector3D>,
                          orientation: Option<Quaternion>, initialRotation: real)
  {
    position.Some? == orientation.Some?
    && initialRotation == if orientation.None? then 0.0 else heading(orientation.value)
  }

  class ApplicationCanvas {
    /** The two java.lang.Math primitives the vector code uses. */
    const math: Primitives
    /** The heading of an orientation: toForwardVector().to2DDirectionVector().getTheta(). */
    const heading: Quaternion -> real

    var roomXLowerBound: real
    var roomYLowerBound: real
    var roomWidth: real
    var roomLength: real

    const frontCar: SceneObject
    const backCar: SceneObject
    const playerCar: SceneObject

    var frontCarInitialPosition: Option<Vector3D>
    var backCarInitialPosition: Option<Vector3D>
    var playerCarGoalPosition: Option<Vector3D>

    var frontCarInitialRotation: Option<Quaternion>
    var backCarInitialRotation: Option<Quaternion>
    var playerCarGoalRotation: Option<Quaternion>

    const initialRotations: array<real>
    const rotations: array<real>

    var laneDirection: Option<Vector2D>
    var playing: bool
    const sceneObjects: seq<SceneObject>
    var rot: real

    /** The scene object of body k. */
    function Body(k: int): (o: SceneObject)
      requires 0 <= k < 3
    {
      if k == FrontCar then frontCar else if k == BackCar then backCar else playerCar
    }

    /** The latched first position of body k (the player car's is its goal). */
    function InitialPosition(k: int): (p: Option<Vector3D>)
      requires 0 <= k < 3
      reads this`frontCarInitialPosition, this`backCarInitialPosition, this`playerCarGoalPosition
    {
      if k == FrontCar then frontCarInitialPosition
      else if k == BackCar then backCarInitialPosition
      else playerCarGoalPosition
    }

    /** The latched first orientation of body k. */
    function InitialRotation(k: int): (q: Option<Quaternion>)
      requires 0 <= k < 3
      reads this`frontCarInitialRotation, this`backCarInitialRotation, this`playerCarGoalRotation
    {
      if k == FrontCar then frontCarInitialRotation
      else if k == BackCar then backCarInitialRotation
      else playerCarGoalRotation
    }

    /** The fixed shape of the object graph: three distinct cars, three-slot arrays. */
    ghost predicate Shape()
    {
      Lawful(math)
      && rotations.Length == 3 && initialRotations.Length == 3 && |sceneObjects| == 3
      && rotations != initialRotations
      && sceneObjects[FrontCar] == frontCar && sceneObjects[BackCar] == backCar
      && sceneObjects[PlayerCar] == playerCar
      && frontCar != backCar && frontCar != playerCar && backCar != playerCar
      && frontCar.location != backCar.location && frontCar.location != playerCar.location
      && backCar.location != playerCar.location
    }

    /** Calibration is due: no lane yet, and the front car and the player's goal are latched. */
    predicate CalibrationDue()
      reads this`laneDirection, this`frontCarInitialPosition, this`playerCarGoalPosition
    {
      laneDirection.None? && frontCarInitialPosition.Some? && playerCarGoalPosition.Some?
    }

    /** The latched slots of all three bodies agree with each other. */
    ghost predicate LatchedAll()
      requires initialRotations.Length == 3
      reads this`frontCarInitialPosition, this`backCarInitialPosition, this`playerCarGoalPosition
      reads this`frontCarInitialRotation, this`backCarInitialRotation, this`playerCarGoalRotation
      reads initialRotations
    {
      Latched(heading, frontCarInitialPosition, frontCarInitialRotation, initialRotations[FrontCar])
      && Latched(heading, backCarInitialPosition, backCarInitialRotation, initialRotations[BackCar])
      && Latched(heading, playerCarGoalPosition, playerCarGoalRotation, initialRotations[PlayerCar])
    }

    /** The class invariant every operation keeps. */
    ghost predicate Valid()
      reads this`frontCarInitialPosition, this`backCarInitialPosition, this`playerCarGoalPosition
      reads this`frontCarInitialRotation, this`backCarInitialRotation, this`playerCarGoalRotation
      reads this`laneDirection, this`rot
      reads initialRotations
    {
      Shape() && LatchedAll()
      && Calibrated(math, laneDirection, rot, frontCarInitialPosition, playerCarGoalPosition)
    }

    /** The canvas before any report: default room, nothing latched, three cars at the origin. */
    constructor (math: Primitives, heading: Quaternion -> real)
      requires Lawful(math)
      ensures Valid()
      ensures roomXLowerBound == RoomXLowerLimit && roomYLowerBound == RoomYLowerLimit
      ensures roomWidth == RoomWidth && roomLength == RoomLength
      ensures !playing && laneDirection == None && rot == 0.0
      ensures this.math == math && this.heading == heading
      ensures fresh(rotations) && fresh(initialRotations) && fresh(frontCar) && fresh(backCar) && fresh(playerCar)
      ensures fresh(frontCar.location) && fresh(backCar.location) && fresh(playerCar.location)
      ensures forall k | 0 <= k < 3 :: InitialPosition(k) == None && InitialRotation(k) == None
      ensures rotations[..] == [0.0, 0.0, 0.0] && initialRotations[..] == [0.0, 0.0, 0.0]
      ensures forall k | 0 <= k < 3 ::
        Body(k).location.Value() == Vector3D(0.0, 0.0, 0.0) && Body(k).rotation == MotiveQuaternion(0.0, 0.0, 0.0, 1.0)
    {
      this.math := math;
      this.heading := heading;
      roomXLowerBound := RoomXLowerLimit;
      roomYLowerBound := RoomYLowerLimit;
      roomWidth := RoomWidth;
      roomLength := RoomLength;
      var front := new SceneObject();
      var back := new SceneObject();
      var player := new SceneObject();
      frontCar := front;
      backCar := back;
      playerCar := player;
      frontCarInitialPosition := None;
      backCarInitialPosition := None;
      playerCarGoalPosition := None;
      frontCarInitialRotation := None;
      backCarInitialRotation := None;
      playerCarGoalRotation := None;
      initialRotations := new real[3](_ => 0.0);
      rotations := new real[3](_ => 0.0);
      laneDirection := None;
      playing := false;
      sceneObjects := [front, back, player];
      rot := 0.0;
    }

    /** Replaces the room rectangle that the screen shows. */
    method SetRoomDimensions(xLowerBound: real, yLowerBound: real, width: real, length: real)
      requires Valid()
      modifies this`roomXLowerBound, this`roomYLowerBound, this`roomWidth, this`roomLength
      ensures Valid()
      ensures roomXLowerBound == xLowerBound && roomYLowerBound == yLowerBound
      ensures roomWidth == width && roomLength == length
    {
      roomXLowerBound := xLowerBound;
      roomYLowerBound := yLowerBound;
      roomWidth := width;
      roomLength := length;
    }

    /**
     * A report for body `id`: records its newest heading, latches its first
     * pose once, and moves and turns its scene object. An id outside 0..2
     * indexes past the three-slot arrays, so it is excluded.
     */
    method RigidBodyUpdateReceived(id: int, x: real, y: real, z: real,
                                   qw: real, qx: real, qy: real, qz: real)
      requires Valid() && 0 <= id < 3
      modifies this`frontCarInitialPosition, this`backCarInitialPosition, this`playerCarGoalPosition
      modifies this`frontCarInitialRotation, this`backCarInitialRotation, this`playerCarGoalRotation
      modifies rotations, initialRotations, Body(id), Body(id).location
      ensures Valid()
      ensures rotations[..] == old(rotations[..])[id := heading(Quaternion(qw, qx, qy, qz))]
      ensures InitialPosition(id) == Latch(old(InitialPosition(id)), Vector3D(x, y, z))
      ensures InitialRotation(id) == Latch(old(InitialRotation(id)), Quaternion(qw, qx, qy, qz))
      ensures initialRotations[..] ==
        if old(InitialPosition(id)).None?
        then old(initialRotations[..])[id := heading(Quaternion(qw, qx, qy, qz))]
        else old(initialRotations[..])
      ensures forall k | 0 <= k < 3 && k != id ::
        InitialPosition(k) == old(InitialPosition(k)) && InitialRotation(k) == old(InitialRotation(k))
      ensures Body(id).location.Value() == Vector3D(x, y, z)
      ensures Body(id).rotation == MotiveQuaternion(qw, qx, qy, qz)
      ensures forall k | 0 <= k < 3 && k != id :: unchanged(Body(k), Body(k).location)
    {
      var quaternion := Quaternion(qw, qx, qy, qz);
      var rotation := heading(quaternion);
      rotations[id] := rotation;
      LatchFirstPose(id, Vector3D(x, y, z), quaternion, rotation);
      var obj := sceneObjects[id];
      assert obj == Body(id);
      obj.MoveTo(x, y, z);
      obj.RotateTo(qw, qx, qy, qz);
    }

    /**
     * The switch on `id`: the first report about a body stores its position,
     * orientation and heading; a later one leaves them alone.
     */
    method LatchFirstPose(id: int, position: Vector3D, orientation: Quaternion, rotation: real)
      requires 0 <= id < 3 && initialRotations.Length == 3 && rotation == heading(orientation)
      requires LatchedAll()
      modifies this`frontCarInitialPosition, this`backCarInitialPosition, this`playerCarGoalPosition
      modifies this`frontCarInitialRotation, this`backCarInitialRotation, this`playerCarGoalRotation
      modifies initialRotations
      ensures LatchedAll()
      ensures InitialPosition(id) == Latch(old(InitialPosition(id)), position)
      ensures InitialRotation(id) == Latch(old(InitialRotation(id)), orientation)
      ensures initialRotations[..] ==
        if old(InitialPosition(id)).None? then old(initialRotations[..])[id := rotation]
        else old(initialRotations[..])
      ensures forall k | 0 <= k < 3 && k != id ::
        InitialPosition(k) == old(InitialPosition(k)) && InitialRotation(k) == old(InitialRotation(k))
      ensures old(frontCarInitialPosition).Some? ==> frontCarInitialPosition == old(frontCarInitialPosition)
      ensures old(playerCarGoalPosition).Some? ==> playerCarGoalPosition == old(playerCarGoalPosition)
    {
      if id == FrontCar {
        if frontCarInitialPosition.None? {
          frontCarInitialPosition := Some(position);
          frontCarInitialRotation := Some(orientation);
          initialRotations[FrontCar] := rotation;
        }
      } else if id == BackCar {
        if backCarInitialPosition.None? {
          backCarInitialPosition := Some(position);
          backCarInitialRotation := Some(orientation);
          initialRotations[BackCar] := rotation;
        }
      } else {
        if playerCarGoalPosition.None? {
          playerCarGoalPosition := Some(position);
          playerCarGoalRotation := Some(orientation);
          initialRotations[PlayerCar] := rotation;
        }
      }
    }

    /**
     * One frame: reports whether the front or back car has left its latched
     * position by more than the bump tolerance, whether the player has won,
     * and calibrates the lane the first time that is possible.
     */
    method FrameUpdateReceived() returns (frontBumped: bool, backBumped: bool, won: bool)
      requires Valid()
      requires frontCarInitialPosition.Some? && backCarInitialPosition.Some?
      requires playing ==> playerCarGoalPosition.Some?
      requires CalibrationDue() ==>
        Flat(playerCarGoalPosition.value) != Flat(frontCarInitialPosition.value)
      modifies this`laneDirection, this`rot
      ensures Valid()
      ensures frontBumped <==>
        Vec3.DistanceFrom(math, frontCar.location.Value(), frontCarInitialPosition.value) > BumpTolerance
      ensures backBumped <==>
        Vec3.DistanceFrom(math, backCar.location.Value(), backCarInitialPosition.value) > BumpTolerance
      ensures won <==>
        playing
        && Vec3.DistanceFrom(math, playerCar.location.Value(), playerCarGoalPosition.value) < GoalLocationTolerance
        && Abs(rotations[PlayerCar] - initialRotations[PlayerCar]) < GoalRotationTolerance
      ensures if old(CalibrationDue())
        then laneDirection.Some?
          && laneDirection.value
             == DirectionTowards(math, Flat(playerCarGoalPosition.value), Flat(frontCarInitialPosition.value))
          && IsUnit(laneDirection.value)
          && rot == Theta(math, Minus(Flat(frontCarInitialPosition.value), Flat(playerCarGoalPosition.value)))
        else laneDirection == old(laneDirection) && rot == old(rot)
    {
      var frontLocation := frontCar.GetLocation();
      frontBumped := Vec3.DistanceFrom(math, frontLocation.Value(), frontCarInitialPosition.value) > BumpTolerance;
      var backLocation := backCar.GetLocation();
      backBumped := Vec3.DistanceFrom(math, backLocation.Value(), backCarInitialPosition.value) > BumpTolerance;
      won := false;
      if playing {
        var playerLocation := playerCar.GetLocation();
        won := Vec3.DistanceFrom(math, playerLocation.Value(), playerCarGoalPosition.value) < GoalLocationTolerance
          && Abs(rotations[PlayerCar] - initialRotations[PlayerCar]) < GoalRotationTolerance;
      }
      if laneDirection.None? && frontCarInitialPosition.Some? && playerCarGoalPosition.Some? {
        var fc2d := Flat(frontCarInitialPosition.value);
        var pc2d := Flat(playerCarGoalPosition.value);
        var lane := DirectionTowards(math, pc2d, fc2d);
        laneDirection := Some(lane);
        rot := math.atan2(lane.y, lane.x);
        ThetaOfDirection(math, pc2d, fc2d);
      }
    }

    /** Any key starts the game; nothing stops it again. */
    method KeyPressed()
      requires Valid()
      modifies this`playing
      ensures Valid() && playing
    {
      playing := true;
    }
  }

  /**
   * A new canvas fed the stream `h` report by report ends up with every
   * body's first report latched: the canvas performs the fold Replay.
   */
  method ReplayStream(math: Primitives, heading: Quaternion -> real, h: seq<BodyUpdate>)
    returns (c: ApplicationCanvas)
    requires Lawful(math)
    requires forall i | 0 <= i < |h| :: 0 <= h[i].id < 3
    ensures c.Valid()
    ensures forall k | 0 <= k < 3 ::
      c.InitialPosition(k) == PositionOf(FirstUpdate(h, k))
      && c.InitialRotation(k) == OrientationOf(FirstUpdate(h, k))
  {
    c := new ApplicationCanvas(math, heading);
    var i := 0;
    while i < |h|
      invariant 0 <= i <= |h|
      invariant c.Valid()
      invariant fresh(c.rotations) && fresh(c.initialRotations)
      invariant fresh(c.frontCar) && fresh(c.backCar) && fresh(c.playerCar)
      invariant fresh(c.frontCar.location) && fresh(c.backCar.location) && fresh(c.playerCar.location)
      invariant forall k | 0 <= k < 3 ::
        c.InitialPosition(k) == PositionOf(Replay(h[..i], k))
        && c.InitialRotation(k) == OrientationOf(Replay(h[..i], k))
    {
      var u := h[i];
      c.RigidBodyUpdateReceived(u.id, u.position.x, u.position.y, u.position.z,
                                u.orientation.w, u.orientation.x, u.orientation.y, u.orientation.z);
      assert h[..i + 1][..i] == h[..i];
      i := i + 1;
    }
    assert h[..|h|] == h;
    forall k | 0 <= k < 3
      ensures c.InitialPosition(k) == PositionOf(FirstUpdate(h, k))
      ensures c.InitialRotation(k) == OrientationOf(FirstUpdate(h, k))
    {
      ReplayLatchesFirst(h, k);
    }
  }
}
