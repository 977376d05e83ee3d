/** OdometryDifferential: the differential-drive integrator that corrects the
    heading of every displacement by the heading offset, and keeps its pose
    and speeds as `Position` triples. */
module Differential {
  import opened Trigonometry
  import opened Pose
  import Units
  import opened DifferentialDrive

  class OdometryDifferential {
    // Geometry and the constants derived from it, fixed at construction.
    const odomRateHz: real
    const motorResolution: real
    const motorWheelRadius: real
    const motorWheelsDistance: real
    const wheelPerimeter: real
    const tickPerMeters: real
    const tickPerMetersInverted: real
    const metersPerRobotRevolution: real
    const ticksPerRobotRevolution: real
    const ticksPerRobotRevolutionDb2Inverted: real

    // The tick-domain accumulators.
    var tickTheta: real
    var dTheta: real
    var tickX: real
    var tickY: real
    var robotDistance: real

    // Pose, heading offset and speeds, each a triple (x, y, theta).
    var odometryPosition: Position
    var odometryOffset: Position
    var odometrySpeeds: Position

    /** The derived constants can be divided by. */
    predicate Valid() {
      tickPerMeters != 0.0 && ticksPerRobotRevolution != 0.0
    }

    /** Ticks to metres; the same as multiplying by the inverted constant. */
    function Ticks2Meters(ticks: real): (meters: real)
      requires Valid()
      ensures meters * tickPerMeters == ticks
    {
      Units.TicksToMeters(tickPerMeters, ticks)
    }

    /** Metres to ticks, the inverse of Ticks2Meters. */
    function Meters2Ticks(meters: real): (ticks: real)
      requires Valid()
      ensures Ticks2Meters(ticks) == meters
    {
      Units.MetersToTicks(tickPerMeters, meters)
    }

    /** Ticks of differential heading to radians: half a robot revolution of
        ticks is a half turn. */
    function Ticks2Rads(ticks: real): (rads: real)
      requires Valid()
      ensures rads * ticksPerRobotRevolution == 2.0 * PI * ticks
    {
      Units.TicksToRads(ticksPerRobotRevolution, ticks)
    }

    /** The tick-domain accumulators as one value. */
    ghost function Ticks(): Accumulators
      reads this
    {
      Accumulators(tickX, tickY, tickTheta, robotDistance)
    }

    constructor (rateHz: real, motorResolution: real, motorWheelRadius: real, encWheelsDistance: real)
      requires motorResolution != 0.0 && motorWheelRadius != 0.0 && encWheelsDistance != 0.0
      ensures Valid()
      ensures odomRateHz == rateHz && this.motorResolution == motorResolution
      ensures this.motorWheelRadius == motorWheelRadius && motorWheelsDistance == encWheelsDistance
      ensures wheelPerimeter == 2.0 * PI * motorWheelRadius
      ensures tickPerMeters * wheelPerimeter == motorResolution
      ensures tickPerMetersInverted * tickPerMeters == 1.0
      ensures metersPerRobotRevolution == PI * encWheelsDistance
      ensures ticksPerRobotRevolution == Units.MetersToTicks(tickPerMeters, PI * encWheelsDistance)
      ensures ticksPerRobotRevolutionDb2Inverted * ticksPerRobotRevolution == 2.0
      ensures Ticks() == Rest && dTheta == 0.0
      ensures odometryPosition == Origin && odometryOffset == Origin && odometrySpeeds == Origin
    {
      tickTheta, dTheta := 0.0, 0.0;
      tickX, tickY := 0.0, 0.0;
      robotDistance := 0.0;
      // the base-class triples start at position's zero member initialisers
      odometryPosition, odometryOffset, odometrySpeeds := Origin, Origin, Origin;
      odomRateHz := rateHz;
      this.motorResolution := motorResolution;
      this.motorWheelRadius := motorWheelRadius;
      motorWheelsDistance := encWheelsDistance;
      var perimeter := 2.0 * PI * motorWheelRadius;
      var perMeter := (1.0 / perimeter) * motorResolution;
      NonZeroProduct(1.0 / perimeter, motorResolution);
      var perRevolution := PI * encWheelsDistance;
      var ticksPerRevolution := Units.MetersToTicks(perMeter, perRevolution);
      NonZeroProduct(perRevolution, perMeter);
      wheelPerimeter := perimeter;
      tickPerMeters := perMeter;
      tickPerMetersInverted := 1.0 / perMeter;
      metersPerRobotRevolution := perRevolution;
      ticksPerRobotRevolution := ticksPerRevolution;
      ticksPerRobotRevolutionDb2Inverted := 1.0 / (ticksPerRevolution / 2.0);
    }

    /** One integration step from the cumulative counts of both encoders:
        the accumulators advance by the shared rule with the displacement
        turned back by the heading offset, the pose is the accumulators
        converted (its heading without the offset), and the linear and
        angular speeds are those of the step; the y speed is not written. */
    method Compute(encL: int, encR: int, trig: Trig)
      requires Valid()
      modifies this`tickX, this`tickY, this`tickTheta, this`robotDistance, this`dTheta
      modifies this`odometryPosition, this`odometrySpeeds
      ensures Ticks() == Advance(ticksPerRobotRevolution, old(Ticks()), encL, encR, odometryOffset.theta, trig)
      ensures dTheta == Angle(encL, encR) - old(tickTheta)
      ensures odometryPosition == PoseOf(tickPerMeters, ticksPerRobotRevolution, Ticks())
      ensures odometrySpeeds == Position(LinearSpeed(tickPerMeters, odomRateHz, old(Ticks()), encL, encR),
                                         old(odometrySpeeds.y),
                                         AngularSpeed(ticksPerRobotRevolution, odomRateHz, old(Ticks()), encL, encR))
    {
      // the step is computed on locals and the fields are written together
      ghost var next := Advance(ticksPerRobotRevolution, Ticks(), encL, encR, odometryOffset.theta, trig);
      var newDistance := (encL + encR) as real * 0.5;
      var deltaDistance := newDistance - robotDistance;
      var newAngle := (encR - encL) as real * 0.5;
      var deltaTheta := newAngle - tickTheta;
      var midAngle := Ticks2Rads(tickTheta + deltaTheta * 0.5);
      var newTickX := tickX + deltaDistance * trig.cos(midAngle - odometryOffset.theta);
      var newTickY := tickY + deltaDistance * trig.sin(midAngle - odometryOffset.theta);
      var newTickTheta := tickTheta + deltaTheta;
      var newRobotDistance := robotDistance + deltaDistance;
      assert next == Accumulators(newTickX, newTickY, newTickTheta, newRobotDistance);
      var linear := Ticks2Meters(deltaDistance) * odomRateHz;
      var angular := Ticks2Rads(deltaTheta) * odomRateHz;
      assert linear == LinearSpeed(tickPerMeters, odomRateHz, Ticks(), encL, encR);
      assert angular == AngularSpeed(ticksPerRobotRevolution, odomRateHz, Ticks(), encL, encR);
      var position := odometryPosition.(x := Ticks2Meters(newTickX), y := Ticks2Meters(newTickY),
                                        theta := Ticks2Rads(newTickTheta));
      var speeds := odometrySpeeds.(x := linear, theta := angular);
      dTheta, tickX, tickY, tickTheta, robotDistance, odometryPosition, odometrySpeeds :=
        deltaTheta, newTickX, newTickY, newTickTheta, newRobotDistance, position, speeds;
    }
  }
}
