# parking-sim in Dafny

This project models the core of parking-sim, a Swing canvas fed by a
motion-capture stream. Three rigid bodies are tracked: a front car, a back car
and the player's car. `ApplicationCanvas` handles one pose report at a time:

- It keeps each body's newest heading in `rotations`.
- The first report about a body latches that body's initial position,
  orientation and heading. For the player's car, the latched position is the
  goal.
- Every report moves and turns the body's `SceneObject`.

On every frame the canvas:

- checks whether the front or back car has been bumped away from its latched
  position;
- checks whether the player has won;
- once the front car and the goal are both known, calibrates the lane
  direction and its angle `rot`, exactly once.

The math it relies on is modelled over exact reals. It comes from the
`vector` package (`Vector2D`, `Vector3D`, `Quaternion`) and from
`SceneObject`'s room-to-screen mapping.

Modules: `Options` and `RealMath` support the rest, and the others each model one source file:

- `RealMath`: the two `java.lang.Math` primitives the code calls, `sqrt` and
  `atan2`. They are the function values of a `Primitives` record. `Lawful`
  states the only laws the proofs use:
  - for `a >= 0`, `sqrt(a) >= 0` and `sqrt(a) * sqrt(a) == a`;
  - `atan2` depends only on the direction of its argument.

  The module also holds the real-arithmetic lemmas the other modules share.
- `Vec2` (`vector/Vector2D.java`) and `Vec3` (`vector/Vector3D.java`): vectors
  are values, so every operation returns a new vector and changes neither
  operand. `Vec3.Vector3DObject` is the mutable `Vector3D` instance that a
  `SceneObject` hands out.
- `Quat` (`vector/Quaternion.java`): the datatype constructor stores w, x, y,
  z in that order, and `ToUpVector` is the polynomial formula.
- `Scene` (`SceneObject.java`): a class with a live location object that is
  updated in place, and a rotation. Java's `(int)` cast is modelled as
  truncation toward zero that saturates at the `int` range.
- `Canvas` (`ApplicationCanvas.java`): a class with the source's fields.
  - The nullable fields are `Option`s.
  - `rotations` and `initialRotations` are arrays that are updated in place.
  - The class invariant `Valid` holds three things:
    - `Shape`: the `sqrt`/`atan2` laws hold, both arrays have three slots,
      and the three cars and their location objects are distinct.
    - Each body's position and orientation are latched together, and its
      `initialRotations` slot holds the matching heading.
    - Once the lane is set, it is the unit direction from the goal to the
      front car, and `rot` is its angle.
  - `Replay` folds the per-report latch over a whole stream of reports.
    `ReplayLatchesFirst` proves that the result is the first report about the
    body. `ReplayStream` feeds a stream to a new canvas one report at a time
    and proves that the canvas ends in that state.

`rigidBodyUpdateReceived` indexes the three-slot `rotations` array with the
reported id (ApplicationCanvas.java:204), so a report with an id outside 0..2
throws. `RigidBodyUpdateReceived` therefore requires `0 <= id < 3`.

## Model

| member | source | states |
|---|---|---|
| Vec2.DistanceFromSquared | vector/Vector2D.java:13-17 | The squared distance is never negative, and it is zero exactly when the two points coincide |
| Vec2.DistanceFromSquaredSymmetric | vector/Vector2D.java:13-17 | The squared distance does not depend on which point is the receiver |
| Vec2.DistanceFrom | vector/Vector2D.java:19-23 | The distance is non-negative, and its square is the squared distance of distanceFromSquared |
| Vec2.Plus | vector/Vector2D.java:25-27 | Subtracting either operand from the sum gives back the other |
| Vec2.Minus | vector/Vector2D.java:29-31 | The difference is the zero vector exactly when the operands coincide |
| Vec2.PlusCommutative | vector/Vector2D.java:25-27 | plus is commutative |
| Vec2.PlusThenMinus | vector/Vector2D.java:25-31 | minus w undoes plus w |
| Vec2.DotProduct | vector/Vector2D.java:33-35 | No contract of its own; Vec2.DotProductSymmetric and Vec2.MagnitudeSquaredIsDotProduct state its properties |
| Vec2.DotProductSymmetric | vector/Vector2D.java:33-35 | The dot product is symmetric |
| Vec2.Scale | vector/Vector2D.java:37-39 | No contract of its own; Vec2.ScaleThenDivide states that divide undoes it |
| Vec2.Divide | vector/Vector2D.java:41-43 | For d != 0, multiplying each component of the result by d gives back the original component |
| Vec2.ScaleThenDivide | vector/Vector2D.java:37-43 | For s != 0, dividing by s undoes scaling by s |
| Vec2.Magnitude | vector/Vector2D.java:45-47 | The magnitude is non-negative, and its square is x² + y² |
| Vec2.MagnitudeSquaredIsDotProduct | vector/Vector2D.java:45-47 | The squared magnitude equals the vector's dot product with itself |
| Vec2.DirectionTowards | vector/Vector2D.java:49-54 | For distinct points: the distance between them is non-zero, the result is their difference divided by that distance, and the result has length 1 |
| Vec2.Theta | vector/Vector2D.java:56-58 | atan2(y, x) with the abstract atan2; Vec2.ThetaOfPositiveScale and Vec2.ThetaOfDirection state its properties |
| Vec2.ThetaOfPositiveScale | vector/Vector2D.java:56-58 | Scaling a non-zero vector by a positive factor keeps its angle |
| Vec2.ThetaOfDirection | vector/Vector2D.java:49-58 | The unit vector of directionTowards has the same angle as the raw difference it normalises |
| Vec3.Vector3DObject.constructor | vector/Vector3D.java:11-15 | The constructor stores x, y and z unchanged |
| Vec3.To2DDirectionVector | vector/Vector3D.java:23-28 | When (x, y) is not (0, 0), the result has length 1 and is a positive multiple of (x, y) |
| Vec3.To2DDirectionVectorIgnoresZ | vector/Vector3D.java:23-28 | Two vectors that differ only in z give the same direction |
| Vec3.To2DDirectionVectorFromOrigin | vector/Vector3D.java:23-28 | The result is the 2D direction from the origin towards (x, y) |
| Vec3.SquaredDistance | vector/Vector3D.java:36-39 | Reference definition, the sum of the squared component differences; Vec3.DistanceRadicand and Vec3.DistanceFromSquared tie distanceFrom to it |
| Vec3.DistanceFrom | vector/Vector3D.java:35-40 | The distance is non-negative |
| Vec3.DistanceRadicand | vector/Vector3D.java:36-39 | The sum of squares taken over other − this equals the reference sum of squared component differences |
| Vec3.DistanceFromSquared | vector/Vector3D.java:35-40 | The squared distance is the sum of the squared component differences |
| Vec3.DistanceFromSymmetric | vector/Vector3D.java:35-40 | The distance does not depend on which point is the receiver |
| Vec3.DistanceFromZero | vector/Vector3D.java:35-40 | The distance is 0 exactly when the two points coincide |
| Vec3.DistanceCompare | vector/Vector3D.java:35-40 | Comparing the distance with a non-negative tolerance t, by > or by <, agrees with comparing the squared distance with t² |
| Quat.ToUpVector | vector/Quaternion.java:22 | The y component 1 − 2(x² + z²) is at most 1 |
| Quat.IdentityUpVector | vector/Quaternion.java:19-24 | The identity quaternion (1, 0, 0, 0) yields the up vector (0, 1, 0) |
| Quat.UpVectorOfNegation | vector/Quaternion.java:20-24 | q and −q give the same up vector |
| Quat.UpVectorOfUnitIsUnit | vector/Quaternion.java:20-24 | For a unit quaternion, the up vector has squared length 1 |
| Scene.TruncateToInt | SceneObject.java:39-40 | The `(int)` cast drops the fraction toward zero and saturates at the int bounds |
| Scene.TruncateWhole | SceneObject.java:39-40 | The cast leaves a whole int unchanged |
| Scene.ScreenX | SceneObject.java:39 | (x − lowerX) / width · screenWidth before truncation; its edge and monotonicity lemmas follow |
| Scene.ScreenY | SceneObject.java:40 | −((y + lowerY) / length · screenHeight) before truncation; its edge lemmas follow |
| Scene.ScreenXAtLowerBound | SceneObject.java:39 | Before truncation, an object at lowerX maps to screen x 0 |
| Scene.ScreenXAtUpperBound | SceneObject.java:39 | Before truncation, an object at lowerX + width maps to screen x screenWidth |
| Scene.ScreenXMonotone | SceneObject.java:39 | For a positive width and a non-negative screen width, screen x never decreases as room x increases |
| Scene.ScreenYAtNegatedLowerBound | SceneObject.java:40 | Before truncation, an object at y = −lowerY maps to screen y 0 (the formula adds lowerY) |
| Scene.ScreenYAtLowerBound | SceneObject.java:40 | An object at y = lowerY maps to the bottom row screenHeight exactly when lowerY = −length/2, as in the default room |
| Scene.ScreenLocation | SceneObject.java:36-42 | The truncated pair (ScreenX, ScreenY); Scene.ScreenLocationOfTopLeft and Scene.ScreenLocationOfRightEdge pin its corners |
| Scene.ScreenLocationOfTopLeft | SceneObject.java:36-42 | An object at (lowerX, −lowerY) is drawn at pixel (0, 0) |
| Scene.ScreenLocationOfRightEdge | SceneObject.java:36-42 | An object at x = lowerX + width is drawn in column screenWidth |
| Scene.SceneObject.constructor | SceneObject.java:10-13 | A new object has a fresh location at the origin and rotation (0, 0, 0, 1) |
| Scene.SceneObject.MoveTo | SceneObject.java:15-19 | The location object now holds exactly (x, y, z); the rotation is unchanged |
| Scene.SceneObject.RotateTo | SceneObject.java:21-26 | The rotation is now (a, b, c, d); the location is unchanged |
| Scene.SceneObject.GetLocation | SceneObject.java:28-30 | Returns the live location object itself, not a copy |
| Scene.LocationIsLive | SceneObject.java:15-30 | A location obtained before a moveTo shows the moved-to coordinates |
| Scene.SceneObject.GetScreenLocation | SceneObject.java:36-42 | The pixel is the truncated screen mapping of the current location; nothing changes |
| Canvas.FirstUpdate | ApplicationCanvas.java:205-226 | Reference definition of the first report about a body; a result is a report of the stream with that id |
| Canvas.FirstUpdateIsEarliest | ApplicationCanvas.java:205-226 | The reference "first report about id" is None exactly when no report has that id; otherwise it is the earliest such report |
| Canvas.FirstUpdateAppend | ApplicationCanvas.java:205-226 | Appending a report never changes an existing first report, and it supplies one when there was none |
| Canvas.Latch | ApplicationCanvas.java:207-211 | The null check of one case: a held value is kept, and an empty slot takes the new value |
| Canvas.Replay | ApplicationCanvas.java:205-226 | The latch of one body applied to every report of a stream in order; Canvas.ReplayLatchesFirst states what it yields |
| Canvas.ReplayLatchesFirst | ApplicationCanvas.java:205-226 | Replaying any stream through the per-report latch leaves the latch holding the first report about the body |
| Canvas.ApplicationCanvas.constructor | ApplicationCanvas.java:47-111 | Default room (−0.5, −0.5, 1, 1), nothing latched, both arrays zero, three distinct cars at the origin with rotation (0, 0, 0, 1), not playing, no lane, rot 0; the arrays, cars and locations are newly allocated; the invariant holds |
| Canvas.ApplicationCanvas.SetRoomDimensions | ApplicationCanvas.java:191-197 | The four room fields take the arguments; nothing else changes |
| Canvas.ApplicationCanvas.RigidBodyUpdateReceived | ApplicationCanvas.java:200-230 | For ids 0..2: rotations[id] becomes the new heading and no other entry changes. The body's initial position and orientation are latched on the first report and kept afterwards, and initialRotations[id] changes only on that first report. Other bodies' latched values are unchanged. The body's scene object moves to (x, y, z) with rotation (qw, qx, qy, qz), and the other two scene objects are untouched. The invariant is kept |
| Canvas.ApplicationCanvas.LatchFirstPose | ApplicationCanvas.java:205-226 | The switch on id: it latches the three initial values of that body only when none is held. A held value never changes, and other bodies are untouched |
| Canvas.ApplicationCanvas.FrameUpdateReceived | ApplicationCanvas.java:233-255 | Each bump flag is set iff that car's distance from its latched position exceeds 0.005. won holds iff playing, the player is within 0.02 of the goal, and the heading difference is below 7. If calibration was due, the lane becomes the unit direction from the goal's (x, y) to the front car's (x, y), and rot becomes the angle of that difference; otherwise lane and rot are unchanged. No other field changes |
| Canvas.ApplicationCanvas.KeyPressed | ApplicationCanvas.java:262-265 | playing becomes true, and the invariant is kept |
| Canvas.Abs | ApplicationCanvas.java:244 | Math.abs: the result is non-negative and is r or −r |
| Canvas.Flat | ApplicationCanvas.java:249-250 | The (x, y) part of a position, as `new Vector2D(p.x, p.y)`; no contract of its own, used by the calibration ensures of FrameUpdateReceived |
| Canvas.ReplayStream | ApplicationCanvas.java:200-230 | A new canvas fed any stream of reports with ids 0..2, one rigidBodyUpdateReceived call each, keeps its invariant and ends with every body's initial position and orientation taken from its first report in the stream |

## Left out

- Floating point is not modelled: doubles are exact reals, and the float arguments of the stream callbacks widen exactly. So rounding, infinities and NaN propagation are outside the model.
- `Math.sqrt` and `Math.atan2` are abstract. Only the laws in `RealMath.Lawful` are assumed of them, and every member that uses them requires `Lawful`.
- Vec2.Divide: requires a non-zero divisor, where Java would produce infinities or NaN.
- Vec2.DirectionTowards: requires the two points to differ, where Java divides by a zero distance and returns NaN components.
- Vec3.To2DDirectionVector: requires (x, y) ≠ (0, 0), where Java divides by zero.
- Scene.SceneObject.GetScreenLocation: requires a non-zero room width and length, where Java's `(int)` of an infinity or NaN would still give a number.
- Canvas.ApplicationCanvas.RigidBodyUpdateReceived: requires `0 <= id < 3`, because Java throws when the id indexes past the three-slot arrays.
- Canvas.ApplicationCanvas.FrameUpdateReceived: requires the front and back cars to be latched, and the goal to be latched while playing, because Java dereferences those positions.
- Canvas.ApplicationCanvas.FrameUpdateReceived: also requires the goal and the front car to have different (x, y) when calibration is due. With equal points, Java would store a NaN lane, which the model cannot represent.
- Canvas.ApplicationCanvas.FrameUpdateReceived: the three `System.out` reports become the returned booleans.
- Other output is not modelled: `repaint`, `paint`, `drawCar`, the car images, `squarifyImage` and rendering hints, together with `rot` and `laneDirection`'s use in drawing.
- The stream wiring and its thread (`CommandStreamManager`) are network I/O and concurrency, so they are not modelled.
- The focus and key-listener setup is not modelled; `keyTyped` and `keyReleased` do nothing.
- The heading of a report, `toForwardVector().to2DDirectionVector().getTheta()`, is an abstract function given to the canvas's constructor. `toForwardVector` is not part of this model, because `vector/Quaternion.java` defines only `toUpVector`.
- motive.Quaternion is not part of this model. A scene object's rotation is a four-component value (a, b, c, d), and `new Quaternion(0, 0, 0, 1)` is assumed to set them in that order.
- Scene.SceneObject.RotateTo replaces the rotation value instead of mutating a shared object. `getRotation` is not modelled, so no alias of the rotation can be observed.
- `sceneObjects` is written only in the constructor, so it is an immutable sequence of the three cars.
- Canvas.ReplayStream: states only the latched positions and orientations after a stream. The newest heading and scene-object pose after a stream follow from RigidBodyUpdateReceived's per-call contract and are not restated over whole streams.
- motive/SceneObject.java is a broken duplicate of SceneObject.java (its location is never initialised), so it is not modelled.
- Scoring, round timers, high scores and random goal placement do not exist in the code, so they are not modelled.
- Canvas.ApplicationCanvas.FrameUpdateReceived: the rotation tolerance 7 is compared with a difference of two angles. The model does not bound the abstract heading, so it does not show whether that check can ever fail.
