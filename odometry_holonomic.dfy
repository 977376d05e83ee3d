/** OdometryHolonomic: dead reckoning for a base of N omnidirectional wheels
    spread evenly around its centre. A direct kinematic matrix (base speed to
    wheel speeds) is built once and pseudo-inverted; each step turns the
    encoder vector into a local (x, y, theta) estimate, rotates the change
    since the previous estimate into the global frame and accumulates it. */
module Holonomic {
  import opened Trigonometry
  import opened Pose
  import opened Matrices

  /** Angle of wheel `line` around the centre, the wheels being evenly spread. */
  function WheelAngle(line: int, numberOfWheels: int): real
    requires numberOfWheels != 0
  {
    (line * 2) as real * PI / numberOfWheels as real
  }

  /** Line `line` of the direct matrix: the rolling direction of that wheel
      and its lever arm for a rotation of the base. */
  function DirectRow(trig: Trig, line: int, numberOfWheels: int, distanceToCenter: real): seq<real>
    requires numberOfWheels != 0
  {
    [-trig.sin(WheelAngle(line, numberOfWheels)), trig.cos(WheelAngle(line, numberOfWheels)), distanceToCenter]
  }

  /** The N x 3 direct matrix (Vx, Vy, Omega to wheel speeds). */
  function DirectMatrix(trig: Trig, numberOfWheels: nat, distanceToCenter: real): (d: Matrix)
    ensures IsMatrix(d, numberOfWheels, 3)
  {
    seq(numberOfWheels, line requires 0 <= line < numberOfWheels =>
      DirectRow(trig, line, numberOfWheels, distanceToCenter))
  }

  /** The matrix inversion the integrator is given maps 3 x 3 matrices to
      3 x 3 matrices; nothing else is known of it. */
  ghost predicate InverseKeepsShape(inverse: Matrix -> Matrix) {
    forall m :: IsMatrix(m, 3, 3) ==> IsMatrix(inverse(m), 3, 3)
  }

  /** The 3 x N pseudo-inverse (D^t D)^-1 D^t of the direct matrix D. */
  function Reverse(direct: Matrix, numberOfWheels: nat, inverse: Matrix -> Matrix): (r: Matrix)
    requires IsMatrix(direct, numberOfWheels, 3)
    requires InverseKeepsShape(inverse)
    ensures IsMatrix(r, 3, numberOfWheels)
  {
    var transposed := Transpose(direct, numberOfWheels, 3);
    Multiply(inverse(Multiply(transposed, direct, 3, numberOfWheels, 3)), transposed, 3, 3, numberOfWheels)
  }

  /** Rotation by `angle` in the plane, leaving the heading axis alone. */
  function Rotation(trig: Trig, angle: real): Matrix {
    [[trig.cos(angle), -trig.sin(angle), 0.0],
     [trig.sin(angle), trig.cos(angle), 0.0],
     [0.0, 0.0, 1.0]]
  }

  /** Line 2 and column 2 of `r` are those of the identity. */
  predicate ThirdAxisFixed(r: Matrix)
    requires IsMatrix(r, 3, 3)
  {
    r[0][2] == 0.0 && r[1][2] == 0.0 && r[2] == [0.0, 0.0, 1.0]
  }

  /** The 3 x 1 change from the `previous` local estimate to `local`. */
  function Delta(local: Matrix, previous: Matrix): (d: Matrix)
    requires IsMatrix(local, 3, 1) && IsMatrix(previous, 3, 1)
    ensures IsMatrix(d, 3, 1)
  {
    seq(3, i requires 0 <= i < 3 => [local[i][0] - previous[i][0]])
  }

  /** The pose moved by a 3 x 1 change expressed in the global frame. */
  function Accumulate(pose: Position, global: Matrix): Position
    requires IsMatrix(global, 3, 1)
  {
    Position(pose.x + global[0][0], pose.y + global[1][0], pose.theta + global[2][0])
  }

  /** One step's effect on the pose: `pose` moved by the change from the
      `previous` local estimate to `local`, rotated by `angle`. */
  function StepPose(trig: Trig, angle: real, pose: Position, local: Matrix, previous: Matrix): Position
    requires IsMatrix(local, 3, 1) && IsMatrix(previous, 3, 1)
  {
    Accumulate(pose, Multiply(Rotation(trig, angle), Delta(local, previous), 3, 3, 1))
  }

  /** The state one `compute` call leaves (the rotation for the new local
      heading, the change since the previous estimate, that change rotated,
      the pose moved by it) is one StepPose from the old pose; so a run of
      calls is a StepRun. */
  lemma StepPoseOfParts(trig: Trig, angle: real, pose: Position, local: Matrix, previous: Matrix,
                        r: Matrix, d: Matrix, g: Matrix)
    requires IsMatrix(local, 3, 1) && IsMatrix(previous, 3, 1)
    requires r == Rotation(trig, angle) && d == Delta(local, previous) && g == Multiply(r, d, 3, 3, 1)
    ensures IsMatrix(g, 3, 1) && Accumulate(pose, g) == StepPose(trig, angle, pose, local, previous)
    ensures pose.theta == previous[2][0] ==> Accumulate(pose, g).theta == local[2][0]
  {
    StepPoseHeadingUnrotated(trig, angle, pose, local, previous);
  }

  /** The heading advances by the change of local heading, whatever the
      rotation; the x, y displacement is the local one rotated. */
  lemma StepPoseHeadingUnrotated(trig: Trig, angle: real, pose: Position, local: Matrix, previous: Matrix)
    requires IsMatrix(local, 3, 1) && IsMatrix(previous, 3, 1)
    ensures var next := StepPose(trig, angle, pose, local, previous);
            var dx, dy := local[0][0] - previous[0][0], local[1][0] - previous[1][0];
            next.theta == pose.theta + (local[2][0] - previous[2][0])
            && next.x == pose.x + (trig.cos(angle) * dx - trig.sin(angle) * dy)
            && next.y == pose.y + (trig.sin(angle) * dx + trig.cos(angle) * dy)
  {
    var d := Delta(local, previous);
    RotateVector(trig, angle, d);
  }

  /** A pose whose heading is the previous local heading moves to one whose
      heading is the new local heading: from a zero start, the global heading
      keeps following the latest local estimate. */
  lemma StepPoseTracksLocalHeading(trig: Trig, angle: real, pose: Position, local: Matrix, previous: Matrix)
    requires IsMatrix(local, 3, 1) && IsMatrix(previous, 3, 1)
    requires pose.theta == previous[2][0]
    ensures StepPose(trig, angle, pose, local, previous).theta == local[2][0]
  {
    StepPoseHeadingUnrotated(trig, angle, pose, local, previous);
  }

  /** A local estimate equal to the previous one leaves the pose where it is. */
  lemma StepPoseRepeated(trig: Trig, angle: real, pose: Position, local: Matrix)
    requires IsMatrix(local, 3, 1)
    ensures StepPose(trig, angle, pose, local, local) == pose
  {
    StepPoseHeadingUnrotated(trig, angle, pose, local, local);
    assert local[0][0] - local[0][0] == 0.0 && local[1][0] - local[1][0] == 0.0;
  }

  /** Under sin^2 + cos^2 = 1, a step moves the robot in the plane by the
      length of the local x, y change. */
  lemma StepPoseKeepsDistance(trig: Trig, angle: real, pose: Position, local: Matrix, previous: Matrix)
    requires Pythagorean(trig)
    requires IsMatrix(local, 3, 1) && IsMatrix(previous, 3, 1)
    ensures var next := StepPose(trig, angle, pose, local, previous);
            var dx, dy := local[0][0] - previous[0][0], local[1][0] - previous[1][0];
            (next.x - pose.x) * (next.x - pose.x) + (next.y - pose.y) * (next.y - pose.y) == dx * dx + dy * dy
  {
    var dx, dy := local[0][0] - previous[0][0], local[1][0] - previous[1][0];
    StepPoseHeadingUnrotated(trig, angle, pose, local, previous);
    RotationPreservesLength(trig, angle, dx, dy);
  }

  /** Every wheel rolls along a unit direction. */
  lemma DirectRowsAreUnit(trig: Trig, numberOfWheels: nat, distanceToCenter: real, line: int)
    requires Pythagorean(trig)
    requires 0 <= line < numberOfWheels
    ensures var row := DirectMatrix(trig, numberOfWheels, distanceToCenter)[line];
            row[0] * row[0] + row[1] * row[1] == 1.0 && row[2] == distanceToCenter
  {
    var a := WheelAngle(line, numberOfWheels);
    assert (-trig.sin(a)) * (-trig.sin(a)) == trig.sin(a) * trig.sin(a);
  }

  /** Rotating a 3 x 1 vector turns its x, y part and passes its heading through. */
  lemma RotateVector(trig: Trig, angle: real, v: Matrix)
    requires IsMatrix(v, 3, 1)
    ensures var p := Multiply(Rotation(trig, angle), v, 3, 3, 1);
            p[0][0] == trig.cos(angle) * v[0][0] - trig.sin(angle) * v[1][0]
            && p[1][0] == trig.sin(angle) * v[0][0] + trig.cos(angle) * v[1][0]
            && p[2][0] == v[2][0]
  {
    var r := Rotation(trig, angle);
    MultiplyThreeByOne(r, v);
    assert r[0] == [trig.cos(angle), -trig.sin(angle), 0.0];
    assert r[1] == [trig.sin(angle), trig.cos(angle), 0.0];
    assert r[2] == [0.0, 0.0, 1.0];
  }

  /** With sin^2 + cos^2 = 1 the rotation keeps the length of the x, y displacement. */
  lemma RotationPreservesLength(trig: Trig, angle: real, dx: real, dy: real)
    requires Pythagorean(trig)
    ensures var c, s := trig.cos(angle), trig.sin(angle);
            (c * dx - s * dy) * (c * dx - s * dy) + (s * dx + c * dy) * (s * dx + c * dy)
            == dx * dx + dy * dy
  {
    var c, s := trig.cos(angle), trig.sin(angle);
    assert (c * dx - s * dy) * (c * dx - s * dy) == c * c * (dx * dx) - 2.0 * (c * s) * (dx * dy) + s * s * (dy * dy);
    assert (s * dx + c * dy) * (s * dx + c * dy) == s * s * (dx * dx) + 2.0 * (c * s) * (dx * dy) + c * c * (dy * dy);
    assert s * s + c * c == 1.0;
    assert c * c * (dx * dx) + s * s * (dx * dx) == (s * s + c * c) * (dx * dx);
    assert s * s * (dy * dy) + c * c * (dy * dy) == (s * s + c * c) * (dy * dy);
  }

  /** The pose after one step per local estimate in `locals`, in order: each
      step is taken from the estimate before it (`previous` for the first)
      and rotated by the matching angle in `angles`. */
  function StepRun(trig: Trig, angles: seq<real>, pose: Position, previous: Matrix, locals: seq<Matrix>): Position
    requires |angles| == |locals| && IsMatrix(previous, 3, 1)
    requires forall i :: 0 <= i < |locals| ==> IsMatrix(locals[i], 3, 1)
    decreases |locals|
  {
    if locals == [] then pose
    else StepRun(trig, angles[1..], StepPose(trig, angles[0], pose, locals[0], previous), locals[0], locals[1..])
  }

  /** The heading deltas telescope: whatever the rotations, after the steps
      the heading has moved by the last local heading minus the first previous
      one. So a pose that starts at the previous local heading (from a zero
      start, both are zero) ends at the latest local heading. */
  lemma {:induction false} HeadingTelescopes(trig: Trig, angles: seq<real>, pose: Position, previous: Matrix,
                                             locals: seq<Matrix>)
    requires |angles| == |locals| && IsMatrix(previous, 3, 1)
    requires forall i :: 0 <= i < |locals| ==> IsMatrix(locals[i], 3, 1)
    requires locals != []
    ensures StepRun(trig, angles, pose, previous, locals).theta
            == pose.theta + locals[|locals| - 1][2][0] - previous[2][0]
    ensures pose.theta == previous[2][0] ==> StepRun(trig, angles, pose, previous, locals).theta == locals[|locals| - 1][2][0]
    decreases |locals|
  {
    var next := StepPose(trig, angles[0], pose, locals[0], previous);
    StepPoseHeadingUnrotated(trig, angles[0], pose, locals[0], previous);
    if |locals| > 1 {
      HeadingTelescopes(trig, angles[1..], next, locals[0], locals[1..]);
    }
  }

  /** The delta loop of `compute`: line by line, the local estimate minus
      the previous one. */
  method DeltaLoop(local: Matrix, previous: Matrix) returns (delta: Matrix)
    requires IsMatrix(local, 3, 1) && IsMatrix(previous, 3, 1)
    ensures delta == Delta(local, previous)
  {
    delta := Zero(3, 1);
    for i := 0 to 3
      invariant IsMatrix(delta, 3, 1)
      invariant forall k :: 0 <= k < i ==> delta[k] == [local[k][0] - previous[k][0]]
    {
      delta := delta[i := delta[i][0 := local[i][0] - previous[i][0]]];
    }
  }

  class OdometryHolonomic {
    const odomRateHz: real
    const numberOfWheels: int
    const distanceToCenter: real
    const offsetAngle: real

    var previousOdometry: Matrix
    var deltaVector: Matrix
    var rotation: Matrix
    var reverse: Matrix
    var globalPosition: Matrix

    // Base-class pose and heading offset.
    var odometryPosition: Position
    var odometryOffset: Position

    /** The shapes CalculInit gives the matrices, and the rotation's fixed heading axis. */
    ghost predicate Valid()
      reads this
    {
      numberOfWheels >= 0
      && IsMatrix(reverse, 3, numberOfWheels)
      && IsMatrix(rotation, 3, 3) && ThirdAxisFixed(rotation)
      && IsMatrix(previousOdometry, 3, 1) && IsMatrix(deltaVector, 3, 1) && IsMatrix(globalPosition, 3, 1)
    }

    /** The accumulated heading is the heading of the latest local estimate. */
    ghost predicate HeadingTracksLocal()
      reads this
      requires IsMatrix(previousOdometry, 3, 1)
    {
      odometryPosition.theta == previousOdometry[2][0]
    }

    /** Stores the rate, the wheel count, the distance to the centre and the
        offset angle; the matrices wait for CalculInit. */
    constructor (rateHz: real, numberOfWheels: int, distanceToCenter: real, offset: real)
      ensures odomRateHz == rateHz && this.numberOfWheels == numberOfWheels
      ensures this.distanceToCenter == distanceToCenter && offsetAngle == offset
      ensures odometryPosition == Origin && odometryOffset == Origin
    {
      this.numberOfWheels := numberOfWheels;
      offsetAngle := offset;
      odomRateHz := rateHz;
      this.distanceToCenter := distanceToCenter;
      // the base-class triples start at position's zero member initialisers
      odometryPosition, odometryOffset := Origin, Origin;
    }

    /** Fills the direct matrix line by line. */
    method BuildDirectMatrix(trig: Trig) returns (directMatrix: Matrix)
      requires numberOfWheels >= 0
      ensures directMatrix == DirectMatrix(trig, numberOfWheels, distanceToCenter)
    {
      directMatrix := Zero(numberOfWheels, 3);
      for line := 0 to numberOfWheels
        invariant IsMatrix(directMatrix, numberOfWheels, 3)
        invariant forall k :: 0 <= k < line ==> directMatrix[k] == DirectRow(trig, k, numberOfWheels, distanceToCenter)
      {
        var angle := WheelAngle(line, numberOfWheels);
        directMatrix := directMatrix[line := directMatrix[line][0 := -trig.sin(angle)]];
        directMatrix := directMatrix[line := directMatrix[line][1 := trig.cos(angle)]];
        directMatrix := directMatrix[line := directMatrix[line][2 := distanceToCenter]];
      }
    }

    /** Builds the pseudo-inverse of the direct matrix and zeroes the other
        matrices, except the heading cell of the rotation. */
    method CalculInit(trig: Trig, inverse: Matrix -> Matrix)
      requires numberOfWheels >= 0
      requires InverseKeepsShape(inverse)
      modifies this`reverse, this`rotation, this`previousOdometry, this`deltaVector, this`globalPosition
      ensures Valid()
      ensures reverse == Reverse(DirectMatrix(trig, numberOfWheels, distanceToCenter), numberOfWheels, inverse)
      ensures rotation == [[0.0, 0.0, 0.0], [0.0, 0.0, 0.0], [0.0, 0.0, 1.0]]
      ensures previousOdometry == Zero(3, 1) && deltaVector == Zero(3, 1) && globalPosition == Zero(3, 1)
      ensures odometryPosition.theta == 0.0 ==> HeadingTracksLocal()
    {
      var directMatrix := BuildDirectMatrix(trig);
      var transposed := Transpose(directMatrix, numberOfWheels, 3);
      reverse := Multiply(inverse(Multiply(transposed, directMatrix, 3, numberOfWheels, 3)), transposed,
                          3, 3, numberOfWheels);
      rotation := Zero(3, 3);
      rotation := rotation[2 := rotation[2][2 := 1.0]];
      assert rotation[0] == [0.0, 0.0, 0.0] && rotation[1] == [0.0, 0.0, 0.0] && rotation[2] == [0.0, 0.0, 1.0];
      previousOdometry := Zero(3, 1);
      deltaVector := Zero(3, 1);
      globalPosition := Zero(3, 1);
    }

    /** Writes the plane block of the rotation for `newAngle` plus the offset angle. */
    method UpdateRotation(newAngle: real, trig: Trig)
      requires IsMatrix(rotation, 3, 3)
      modifies this`rotation
      ensures IsMatrix(rotation, 3, 3)
      ensures var a := newAngle + offsetAngle;
              rotation == [[trig.cos(a), -trig.sin(a), old(rotation)[0][2]],
                           [trig.sin(a), trig.cos(a), old(rotation)[1][2]],
                           old(rotation)[2]]
      ensures old(ThirdAxisFixed(rotation)) ==> rotation == Rotation(trig, newAngle + offsetAngle)
    {
      rotation := rotation[0 := rotation[0][0 := trig.cos(newAngle + offsetAngle)]];
      rotation := rotation[0 := rotation[0][1 := -trig.sin(newAngle + offsetAngle)]];
      rotation := rotation[1 := rotation[1][0 := trig.sin(newAngle + offsetAngle)]];
      rotation := rotation[1 := rotation[1][1 := trig.cos(newAngle + offsetAngle)]];
      ghost var a := newAngle + offsetAngle;
      assert rotation[0] == [trig.cos(a), -trig.sin(a), old(rotation)[0][2]];
      assert rotation[1] == [trig.sin(a), trig.cos(a), old(rotation)[1][2]];
    }

    /** One integration step from the encoder vector (N x 1): the local
        estimate, its change since the previous one, the rotation for the
        local heading, the change in the global frame and the new pose. */
    method Compute(vectorEncoders: Matrix, trig: Trig)
      requires Valid()
      requires IsMatrix(vectorEncoders, numberOfWheels, 1)
      modifies this`deltaVector, this`rotation, this`globalPosition, this`odometryPosition, this`previousOdometry
      ensures Valid()
      ensures previousOdometry == Multiply(reverse, vectorEncoders, 3, numberOfWheels, 1)
      ensures deltaVector == Delta(previousOdometry, old(previousOdometry))
      ensures rotation == Rotation(trig, (previousOdometry[2][0] - odometryOffset.theta) + offsetAngle)
      ensures globalPosition == Multiply(rotation, deltaVector, 3, 3, 1)
      ensures odometryPosition == Accumulate(old(odometryPosition), globalPosition)
      ensures odometryPosition == StepPose(trig, (previousOdometry[2][0] - odometryOffset.theta) + offsetAngle,
                                           old(odometryPosition), previousOdometry, old(previousOdometry))
      ensures old(HeadingTracksLocal()) ==> HeadingTracksLocal()
    {
      var local := Multiply(reverse, vectorEncoders, 3, numberOfWheels, 1);
      var delta := DeltaLoop(local, previousOdometry);
      UpdateRotation(local[2][0] - odometryOffset.theta, trig);
      var global := Multiply(rotation, delta, 3, 3, 1);
      // the pose is moved on a copy, and the fields are written together
      var position := odometryPosition.(x := odometryPosition.x + global[0][0],
                                        y := odometryPosition.y + global[1][0],
                                        theta := odometryPosition.theta + global[2][0]);
      StepPoseOfParts(trig, (local[2][0] - odometryOffset.theta) + offsetAngle, odometryPosition, local,
                      previousOdometry, rotation, delta, global);
      deltaVector, globalPosition, odometryPosition, previousOdometry := delta, global, position, local;
    }
  }
}
