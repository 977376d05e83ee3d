/** OdometryTwoEncoders: dead reckoning for a differential drive from the
    cumulative counts of a left and a right encoder. */
module TwoEncoders {
  import opened Trigonometry
  import opened Pose
  import Units
  import opened DifferentialDrive

  class OdometryTwoEncoders {
    // Geometry and the constants derived from it, fixed at construction.
    const odomRateHz: real
    const motorResolution: real
    const motorWheelRadius: real
    const motorWheelsDistance: real
    const wheelPerimeter: real
    const tickPerMeters: real
    const metersPerRobotRevolution: real
    const ticksPerRobotRevolution: real

    // Speeds, pose and the tick-domain accumulators.
    var vRobotLin: real
    var vRobotAng: real
    var theta: real
    var tickTheta: real
    var dTheta: real
    var x: real
    var tickX: real
    var y: real
    var tickY: real
    var robotDistance: real

    /** The derived constants can be divided by. */
    predicate Valid() {
      tickPerMeters != 0.0 && ticksPerRobotRevolution != 0.0
    }

    function Ticks2Meters(ticks: real): real
      requires Valid()
    {
      Units.TicksToMeters(tickPerMeters, ticks)
    }

    function Meters2Ticks(meters: real): real {
      Units.MetersToTicks(tickPerMeters, meters)
    }

    function Ticks2Rads(ticks: real): real
      requires Valid()
    {
      Units.TicksToRads(ticksPerRobotRevolution, ticks)
    }

    /** The tick-domain accumulators as one value. */
    ghost function Ticks(): Accumulators
      reads this
    {
      Accumulators(tickX, tickY, tickTheta, robotDistance)
    }

    /** The pose the fields hold. */
    ghost function CurrentPose(): Position
      reads this
    {
      Position(x, y, theta)
    }

    constructor (rateHz: real, motorResolution: real, motorWheelRadius: real, encWheelsDistance: real)
      requires motorResolution != 0.0 && motorWheelRadius != 0.0 && encWheelsDistance != 0.0
      ensures Valid()
      ensures odomRateHz == rateHz && this.motorResolution == motorResolution
      ensures this.motorWheelRadius == motorWheelRadius && motorWheelsDistance == encWheelsDistance
      ensures wheelPerimeter == 2.0 * PI * motorWheelRadius
      ensures tickPerMeters * wheelPerimeter == motorResolution
      ensures metersPerRobotRevolution == PI * encWheelsDistance
      ensures ticksPerRobotRevolution == Units.MetersToTicks(tickPerMeters, PI * encWheelsDistance)
      ensures vRobotLin == 0.0 && vRobotAng == 0.0
      ensures x == 0.0 && y == 0.0 && theta == 0.0 && dTheta == 0.0
      ensures Ticks() == Rest
      ensures CurrentPose() == PoseOf(tickPerMeters, ticksPerRobotRevolution, Rest)
    {
      vRobotLin, vRobotAng := 0.0, 0.0;
      theta, tickTheta, dTheta := 0.0, 0.0, 0.0;
      x, tickX := 0.0, 0.0;
      y, tickY := 0.0, 0.0;
      robotDistance := 0.0;
      odomRateHz := rateHz;
      this.motorResolution := motorResolution;
      this.motorWheelRadius := motorWheelRadius;
      motorWheelsDistance := encWheelsDistance;
      var perimeter := 2.0 * PI * motorWheelRadius;
      var perMeter := (1.0 / perimeter) * motorResolution;
      NonZeroProduct(1.0 / perimeter, motorResolution);
      wheelPerimeter := perimeter;
      tickPerMeters := perMeter;
      metersPerRobotRevolution := PI * encWheelsDistance;
      ticksPerRobotRevolution := Units.MetersToTicks(perMeter, PI * encWheelsDistance);
      NonZeroProduct(PI * encWheelsDistance, perMeter);
    }

    /** One integration step from the cumulative counts of both encoders:
        the accumulators advance by the shared rule, the pose is their
        conversion, and the speeds are those of the step. */
    method Compute(encL: int, encR: int, trig: Trig)
      requires Valid()
      modifies this`tickX, this`tickY, this`tickTheta, this`robotDistance, this`dTheta
      modifies this`x, this`y, this`theta, this`vRobotLin, this`vRobotAng
      ensures Ticks() == Advance(ticksPerRobotRevolution, old(Ticks()), encL, encR, 0.0, trig)
      ensures dTheta == Angle(encL, encR) - old(tickTheta)
      ensures CurrentPose() == PoseOf(tickPerMeters, ticksPerRobotRevolution, Ticks())
      ensures vRobotLin == LinearSpeed(tickPerMeters, odomRateHz, old(Ticks()), encL, encR)
      ensures vRobotAng == AngularSpeed(ticksPerRobotRevolution, odomRateHz, old(Ticks()), encL, encR)
    {
      // the step is computed on locals and the fields are written together
      ghost var next := Advance(ticksPerRobotRevolution, Ticks(), encL, encR, 0.0, trig);
      var newDistance := (encL + encR) as real / 2.0;
      var deltaDistance := newDistance - robotDistance;
      var newAngle := (encR - encL) as real / 2.0;
      var deltaTheta := newAngle - tickTheta;
      var midAngle := Ticks2Rads(tickTheta + deltaTheta / 2.0);
      assert midAngle - 0.0 == midAngle;
      var newTickX := tickX + deltaDistance * trig.cos(midAngle);
      var newTickY := tickY + deltaDistance * trig.sin(midAngle);
      var newTickTheta := tickTheta + deltaTheta;
      var newRobotDistance := robotDistance + deltaDistance;
      assert next == Accumulators(newTickX, newTickY, newTickTheta, newRobotDistance);
      var linear := Ticks2Meters(deltaDistance) * odomRateHz;
      var angular := Ticks2Rads(deltaTheta) * odomRateHz;
      assert linear == LinearSpeed(tickPerMeters, odomRateHz, Ticks(), encL, encR);
      assert angular == AngularSpeed(ticksPerRobotRevolution, odomRateHz, Ticks(), encL, encR);
      var pose := (Ticks2Meters(newTickX), Ticks2Meters(newTickY), Ticks2Rads(newTickTheta));
      dTheta, tickX, tickY, tickTheta, robotDistance, x, y, theta, vRobotLin, vRobotAng :=
        deltaTheta, newTickX, newTickY, newTickTheta, newRobotDistance, pose.0, pose.1, pose.2, linear, angular;
    }

    method GetSpeedLin() returns (speed: real)
      ensures speed == vRobotLin
    {
      speed := vRobotLin;
    }

    method GetSpeedAng() returns (speed: real)
      ensures speed == vRobotAng
    {
      speed := vRobotAng;
    }

    method GetTheta() returns (heading: real)
      ensures heading == theta
    {
      heading := theta;
    }

    method GetX() returns (position: real)
      ensures position == x
    {
      position := x;
    }

    method GetY() returns (position: real)
      ensures position == y
    {
      position := y;
    }

    /** Recalibration: overwrite the pose, leaving the accumulators and the
        speeds as they are; the next Compute recomputes the pose from them. */
    method SetPos(pos: Position)
      modifies this`x, this`y, this`theta
      ensures x == pos.x && y == pos.y && theta == pos.theta
    {
      x := pos.x;
      y := pos.y;
      theta := pos.theta;
    }

    /** The pose as one triple, the same values the three getters return. */
    method GetPos() returns (current: Position)
      ensures current == Position(x, y, theta)
    {
      current := Origin;
      current := current.(x := x);
      current := current.(y := y);
      current := current.(theta := theta);
    }
  }
}
