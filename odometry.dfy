/** Odometry: the older two-encoder integrator, whose constructor only zeroes
    the state and whose geometry arrives later through `Init`. */
module Odometry {
  import opened Trigonometry
  import Units
  import opened Pose
  import opened DifferentialDrive

  class Odometry {
    // Geometry and derived constants, written by Init.
    var odomRateHz: real
    var encResolution: real
    var encWheelRadius: real
    var encWheelsDistance: real
    var wheelPerimeter: real
    var tickPerMeters: real
    var metersPerRobotRevolution: real
    var ticksPerRobotRevolution: real

    // Speeds, pose and the tick-domain accumulators.
    var vRobotLin: real
    var vRobotAng: real
    var theta: real
    var tickTheta: real
    var dTheta: real
    var x: real
    var tickX: real
    var y: real
    var tickY: real
    var robotDistance: real

    /** Init has given the derived constants values that can be divided by. */
    ghost predicate Valid()
      reads this
    {
      tickPerMeters != 0.0 && ticksPerRobotRevolution != 0.0
    }

    function Ticks2Meters(ticks: real): real
      reads this
      requires Valid()
    {
      Units.TicksToMeters(tickPerMeters, ticks)
    }

    function Meters2Ticks(meters: real): real
      reads this
    {
      Units.MetersToTicks(tickPerMeters, meters)
    }

    function Ticks2Rads(ticks: real): real
      reads this
      requires Valid()
    {
      Units.TicksToRads(ticksPerRobotRevolution, ticks)
    }

    ghost function Ticks(): Accumulators
      reads this
    {
      Accumulators(tickX, tickY, tickTheta, robotDistance)
    }

    /** Zeroes the speeds, the pose and the accumulators; the geometry is
        left undefined until Init. */
    constructor ()
      ensures vRobotLin == 0.0 && vRobotAng == 0.0
      ensures x == 0.0 && y == 0.0 && theta == 0.0 && dTheta == 0.0
      ensures Ticks() == Rest
    {
      vRobotLin, vRobotAng := 0.0, 0.0;
      theta, tickTheta, dTheta := 0.0, 0.0, 0.0;
      x, tickX := 0.0, 0.0;
      y, tickY := 0.0, 0.0;
      robotDistance := 0.0;
    }

    /** Stores the rate and the geometry and derives the conversion constants. */
    method Init(rateHz: real, encResolution: real, encWheelRadius: real, encWheelsDistance: real)
      requires encResolution != 0.0 && encWheelRadius != 0.0 && encWheelsDistance != 0.0
      modifies this`odomRateHz, this`encResolution, this`encWheelRadius, this`encWheelsDistance
      modifies this`wheelPerimeter, this`tickPerMeters, this`metersPerRobotRevolution, this`ticksPerRobotRevolution
      ensures Valid()
      ensures odomRateHz == rateHz && this.encResolution == encResolution
      ensures this.encWheelRadius == encWheelRadius && this.encWheelsDistance == encWheelsDistance
      ensures wheelPerimeter == 2.0 * PI * encWheelRadius
      ensures tickPerMeters * wheelPerimeter == encResolution
      ensures metersPerRobotRevolution == PI * encWheelsDistance
      ensures ticksPerRobotRevolution == Units.MetersToTicks(tickPerMeters, PI * encWheelsDistance)
    {
      odomRateHz := rateHz;
      this.encResolution := encResolution;
      this.encWheelRadius := encWheelRadius;
      this.encWheelsDistance := encWheelsDistance;
      var perimeter := 2.0 * PI * encWheelRadius;
      var perMeter := (1.0 / perimeter) * encResolution;
      NonZeroProduct(1.0 / perimeter, encResolution);
      var perRevolution := PI * encWheelsDistance;
      NonZeroProduct(perRevolution, perMeter);
      wheelPerimeter := perimeter;
      tickPerMeters := perMeter;
      metersPerRobotRevolution := perRevolution;
      // meters2Ticks on the constant just stored
      ticksPerRobotRevolution := Meters2Ticks(perRevolution);
    }

    /** The pose the fields hold. */
    ghost function CurrentPose(): Position
      reads this
    {
      Position(x, y, theta)
    }

    /** One integration step from the cumulative counts of both encoders:
        the accumulators advance by the shared rule, the pose is their
        conversion, and the speeds are those of the step. */
    method Compute(encL: int, encR: int, trig: Trig)
      requires Valid()
      modifies this`tickX, this`tickY, this`tickTheta, this`robotDistance, this`dTheta
      modifies this`x, this`y, this`theta, this`vRobotLin, this`vRobotAng
      ensures Valid()
      ensures Ticks() == Advance(ticksPerRobotRevolution, old(Ticks()), encL, encR, 0.0, trig)
      ensures dTheta == Angle(encL, encR) - old(tickTheta)
      ensures CurrentPose() == PoseOf(tickPerMeters, ticksPerRobotRevolution, Ticks())
      ensures vRobotLin == LinearSpeed(tickPerMeters, odomRateHz, old(Ticks()), encL, encR)
      ensures vRobotAng == AngularSpeed(ticksPerRobotRevolution, odomRateHz, old(Ticks()), encL, encR)
    {
      // the step is computed on locals and the fields are written together
      ghost var next := Advance(ticksPerRobotRevolution, Ticks(), encL, encR, 0.0, trig);
      var newDistance := (encL + encR) as real / 2.0;
      var deltaDistance := newDistance - robotDistance;
      var newAngle := (encR - encL) as real / 2.0;
      var deltaTheta := newAngle - tickTheta;
      var midAngle := Ticks2Rads(tickTheta + deltaTheta / 2.0);
      assert midAngle - 0.0 == midAngle;
      var newTickX := tickX + deltaDistance * trig.cos(midAngle);
      var newTickY := tickY + deltaDistance * trig.sin(midAngle);
      var newTickTheta := tickTheta + deltaTheta;
      var newRobotDistance := robotDistance + deltaDistance;
      assert next == Accumulators(newTickX, newTickY, newTickTheta, newRobotDistance);
      var linear := Ticks2Meters(deltaDistance) * odomRateHz;
      var angular := Ticks2Rads(deltaTheta) * odomRateHz;
      assert linear == LinearSpeed(tickPerMeters, odomRateHz, Ticks(), encL, encR);
      assert angular == AngularSpeed(ticksPerRobotRevolution, odomRateHz, Ticks(), encL, encR);
      var pose := (Ticks2Meters(newTickX), Ticks2Meters(newTickY), Ticks2Rads(newTickTheta));
      dTheta, tickX, tickY, tickTheta, robotDistance, x, y, theta, vRobotLin, vRobotAng :=
        deltaTheta, newTickX, newTickY, newTickTheta, newRobotDistance, pose.0, pose.1, pose.2, linear, angular;
    }

    method GetVRobotLin() returns (speed: real)
      ensures speed == vRobotLin
    {
      speed := vRobotLin;
    }

    method GetVRobotAng() returns (speed: real)
      ensures speed == vRobotAng
    {
      speed := vRobotAng;
    }

    method GetTheta() returns (heading: real)
      ensures heading == theta
    {
      heading := theta;
    }

    method GetX() returns (position: real)
      ensures position == x
    {
      position := x;
    }

    method GetY() returns (position: real)
      ensures position == y
    {
      position := y;
    }
  }
}
