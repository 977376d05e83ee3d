/** The update rule that the three differential-drive integrators share:
    from two cumulative encoder counts, advance the tick-domain accumulators
    by one step, using the heading at the middle of the step. */
module DifferentialDrive {
  import opened Trigonometry
  import opened Pose
  import Units

  /** The tick-domain state of a differential integrator: position and
      heading in ticks, and the curvilinear distance already integrated. */
  datatype Accumulators = Accumulators(tickX: real, tickY: real, tickTheta: real, robotDistance: real)

  /** The accumulators as every integrator's constructor leaves them. */
  const Rest: Accumulators := Accumulators(0.0, 0.0, 0.0, 0.0)

  /** Cumulative curvilinear distance of the robot centre, in ticks. */
  function Distance(encL: int, encR: int): real {
    (encL + encR) as real / 2.0
  }

  /** Cumulative differential heading, in ticks. */
  function Angle(encL: int, encR: int): real {
    (encR - encL) as real / 2.0
  }

  /** The accumulators already hold the counts (encL, encR): they are the
      counts of the last step, and the encoders have not moved since. */
  predicate SyncedWith(acc: Accumulators, encL: int, encR: int) {
    acc.robotDistance == Distance(encL, encR) && acc.tickTheta == Angle(encL, encR)
  }

  /** One `compute` step on the accumulators. The displacement since the last
      call is projected on the heading halfway between the old and the new
      one, minus `headingOffset` (zero except in the differential variant). */
  function Advance(ticksPerRevolution: real, acc: Accumulators, encL: int, encR: int,
                   headingOffset: real, trig: Trig): (next: Accumulators)
    requires ticksPerRevolution != 0.0
    ensures next.robotDistance == Distance(encL, encR)
    ensures next.tickTheta == Angle(encL, encR)
    ensures Distance(encL, encR) == acc.robotDistance ==> next.tickX == acc.tickX && next.tickY == acc.tickY
  {
    var deltaDistance := Distance(encL, encR) - acc.robotDistance;
    var dTheta := Angle(encL, encR) - acc.tickTheta;
    var midAngle := Units.TicksToRads(ticksPerRevolution, acc.tickTheta + dTheta / 2.0);
    Accumulators(acc.tickX + deltaDistance * trig.cos(midAngle - headingOffset),
                 acc.tickY + deltaDistance * trig.sin(midAngle - headingOffset),
                 acc.tickTheta + dTheta,
                 acc.robotDistance + deltaDistance)
  }

  /** The pose in metres and radians that the accumulators stand for. */
  function PoseOf(tickPerMeters: real, ticksPerRevolution: real, acc: Accumulators): Position
    requires tickPerMeters != 0.0 && ticksPerRevolution != 0.0
  {
    Position(Units.TicksToMeters(tickPerMeters, acc.tickX), Units.TicksToMeters(tickPerMeters, acc.tickY),
             Units.TicksToRads(ticksPerRevolution, acc.tickTheta))
  }

  /** Linear speed of a step taken at `rateHz` steps per second, in m/s. */
  function LinearSpeed(tickPerMeters: real, rateHz: real, acc: Accumulators, encL: int, encR: int): real
    requires tickPerMeters != 0.0
  {
    Units.TicksToMeters(tickPerMeters, Distance(encL, encR) - acc.robotDistance) * rateHz
  }

  /** Angular speed of a step taken at `rateHz` steps per second, in rad/s. */
  function AngularSpeed(ticksPerRevolution: real, rateHz: real, acc: Accumulators, encL: int, encR: int): real
    requires ticksPerRevolution != 0.0
  {
    Units.TicksToRads(ticksPerRevolution, Angle(encL, encR) - acc.tickTheta) * rateHz
  }

  /** A step with the counts the accumulators already hold changes nothing,
      and the robot is measured standing still. */
  lemma AdvanceSynced(tickPerMeters: real, ticksPerRevolution: real, rateHz: real, acc: Accumulators,
                      encL: int, encR: int, headingOffset: real, trig: Trig)
    requires tickPerMeters != 0.0 && ticksPerRevolution != 0.0
    requires SyncedWith(acc, encL, encR)
    ensures Advance(ticksPerRevolution, acc, encL, encR, headingOffset, trig) == acc
    ensures LinearSpeed(tickPerMeters, rateHz, acc, encL, encR) == 0.0
    ensures AngularSpeed(ticksPerRevolution, rateHz, acc, encL, encR) == 0.0
  {
  }

  /** The robot is measured standing still exactly when the counts are the
      ones the accumulators hold, provided the rate is not zero. */
  lemma StillIffSynced(tickPerMeters: real, ticksPerRevolution: real, rateHz: real, acc: Accumulators,
                       encL: int, encR: int)
    requires tickPerMeters != 0.0 && ticksPerRevolution != 0.0 && rateHz != 0.0
    ensures (LinearSpeed(tickPerMeters, rateHz, acc, encL, encR) == 0.0
             && AngularSpeed(ticksPerRevolution, rateHz, acc, encL, encR) == 0.0)
            <==> SyncedWith(acc, encL, encR)
  {
    var dd := Distance(encL, encR) - acc.robotDistance;
    var dt := Angle(encL, encR) - acc.tickTheta;
    Units.ConversionsScale(tickPerMeters, ticksPerRevolution, dd);
    Units.ConversionsScale(tickPerMeters, ticksPerRevolution, dt);
    if dd != 0.0 {
      NonZeroProduct(Units.TicksToMeters(tickPerMeters, dd), rateHz);
    }
    if dt != 0.0 {
      NonZeroProduct(Units.TicksToRads(ticksPerRevolution, dt), rateHz);
    }
  }

  /** A step that does not turn keeps the heading, and no angular speed is measured. */
  lemma AdvanceNoTurn(ticksPerRevolution: real, rateHz: real, acc: Accumulators, encL: int, encR: int,
                      headingOffset: real, trig: Trig)
    requires ticksPerRevolution != 0.0
    requires Angle(encL, encR) == acc.tickTheta
    ensures Advance(ticksPerRevolution, acc, encL, encR, headingOffset, trig).tickTheta == acc.tickTheta
    ensures AngularSpeed(ticksPerRevolution, rateHz, acc, encL, encR) == 0.0
  {
  }

  /** Calling `compute` twice with the same counts: the second step leaves
      the accumulators, and so the pose, as the first one left them, and
      measures both speeds at zero. */
  lemma RepeatedCompute(tickPerMeters: real, ticksPerRevolution: real, rateHz: real, acc: Accumulators,
                        encL: int, encR: int, headingOffset: real, trig: Trig)
    requires tickPerMeters != 0.0 && ticksPerRevolution != 0.0
    ensures var once := Advance(ticksPerRevolution, acc, encL, encR, headingOffset, trig);
            var twice := Advance(ticksPerRevolution, once, encL, encR, headingOffset, trig);
            twice == once
            && PoseOf(tickPerMeters, ticksPerRevolution, twice) == PoseOf(tickPerMeters, ticksPerRevolution, once)
            && LinearSpeed(tickPerMeters, rateHz, once, encL, encR) == 0.0
            && AngularSpeed(ticksPerRevolution, rateHz, once, encL, encR) == 0.0
  {
    var once := Advance(ticksPerRevolution, acc, encL, encR, headingOffset, trig);
    AdvanceSynced(tickPerMeters, ticksPerRevolution, rateHz, once, encL, encR, headingOffset, trig);
  }

  /** The accumulators after calling `compute` once per pair of `counts`, in order. */
  function Run(ticksPerRevolution: real, acc: Accumulators, counts: seq<(int, int)>,
               headingOffset: real, trig: Trig): Accumulators
    requires ticksPerRevolution != 0.0
    decreases |counts|
  {
    if counts == [] then acc
    else
      var last := counts[|counts| - 1];
      Advance(ticksPerRevolution, Run(ticksPerRevolution, acc, counts[..|counts| - 1], headingOffset, trig),
              last.0, last.1, headingOffset, trig)
  }

  /** Whatever the history, a run ends with the accumulators of its last counts. */
  lemma {:induction false} RunTracksLastCounts(ticksPerRevolution: real, acc: Accumulators,
                                               counts: seq<(int, int)>, headingOffset: real, trig: Trig)
    requires ticksPerRevolution != 0.0
    requires counts != []
    ensures var last := counts[|counts| - 1];
            var final := Run(ticksPerRevolution, acc, counts, headingOffset, trig);
            final.robotDistance == Distance(last.0, last.1) && final.tickTheta == Angle(last.0, last.1)
  {
  }

  /** `acc` lies on the straight line that leaves `start` along its heading:
      same heading, and moved along it by the distance travelled since. */
  ghost predicate OnStraightLine(ticksPerRevolution: real, start: Accumulators, acc: Accumulators,
                                 headingOffset: real, trig: Trig)
    requires ticksPerRevolution != 0.0
  {
    var heading := Units.TicksToRads(ticksPerRevolution, start.tickTheta) - headingOffset;
    var travelled := acc.robotDistance - start.robotDistance;
    acc == Accumulators(start.tickX + travelled * trig.cos(heading),
                        start.tickY + travelled * trig.sin(heading),
                        start.tickTheta, acc.robotDistance)
  }

  /** Straight-line drive: while encR - encL stays where the accumulated
      heading is, every step moves the robot along that one heading, so the
      position moves by the whole distance travelled along it. */
  lemma {:induction false} StraightLine(ticksPerRevolution: real, acc: Accumulators, counts: seq<(int, int)>,
                                        headingOffset: real, trig: Trig)
    requires ticksPerRevolution != 0.0
    requires forall i :: 0 <= i < |counts| ==> Angle(counts[i].0, counts[i].1) == acc.tickTheta
    ensures OnStraightLine(ticksPerRevolution, acc, Run(ticksPerRevolution, acc, counts, headingOffset, trig),
                           headingOffset, trig)
  {
    if counts != [] {
      var n := |counts|;
      StraightLine(ticksPerRevolution, acc, counts[..n - 1], headingOffset, trig);
      var before := Run(ticksPerRevolution, acc, counts[..n - 1], headingOffset, trig);
      var l, r := counts[n - 1].0, counts[n - 1].1;
      assert Run(ticksPerRevolution, acc, counts, headingOffset, trig)
             == Advance(ticksPerRevolution, before, l, r, headingOffset, trig);
      StraightStep(ticksPerRevolution, acc, before, l, r, headingOffset, trig);
    } else {
      var heading := Units.TicksToRads(ticksPerRevolution, acc.tickTheta) - headingOffset;
      assert 0.0 * trig.cos(heading) == 0.0 && 0.0 * trig.sin(heading) == 0.0;
    }
  }

  /** A step that keeps the heading stays on the straight line. */
  lemma StraightStep(ticksPerRevolution: real, start: Accumulators, acc: Accumulators, encL: int, encR: int,
                     headingOffset: real, trig: Trig)
    requires ticksPerRevolution != 0.0
    requires OnStraightLine(ticksPerRevolution, start, acc, headingOffset, trig)
    requires Angle(encL, encR) == start.tickTheta
    ensures OnStraightLine(ticksPerRevolution, start, Advance(ticksPerRevolution, acc, encL, encR, headingOffset, trig),
                           headingOffset, trig)
  {
    var heading := Units.TicksToRads(ticksPerRevolution, start.tickTheta) - headingOffset;
    var sofar := acc.robotDistance - start.robotDistance;
    var step := Distance(encL, encR) - acc.robotDistance;
    AdvanceKeepingHeading(ticksPerRevolution, acc, encL, encR, headingOffset, trig);
    Distribute(sofar, step, trig.cos(heading));
    Distribute(sofar, step, trig.sin(heading));
  }

  /** Spinning in place: while encL + encR stays where the accumulated
      distance is, the position accumulators do not move and the heading
      follows encR - encL. */
  lemma {:induction false} SpinInPlace(ticksPerRevolution: real, acc: Accumulators, counts: seq<(int, int)>,
                                       headingOffset: real, trig: Trig)
    requires ticksPerRevolution != 0.0
    requires forall i :: 0 <= i < |counts| ==> Distance(counts[i].0, counts[i].1) == acc.robotDistance
    ensures var final := Run(ticksPerRevolution, acc, counts, headingOffset, trig);
            final == Accumulators(acc.tickX, acc.tickY, final.tickTheta, acc.robotDistance)
  {
    if counts != [] {
      SpinInPlace(ticksPerRevolution, acc, counts[..|counts| - 1], headingOffset, trig);
    }
  }

  lemma NonZeroProduct(a: real, b: real)
    requires a != 0.0 && b != 0.0
    ensures a * b != 0.0
  {
  }

  lemma Distribute(a: real, b: real, c: real)
    ensures a * c + b * c == (a + b) * c
  {
  }

  /** A step that does not turn moves along the current heading. */
  lemma AdvanceKeepingHeading(ticksPerRevolution: real, acc: Accumulators, encL: int, encR: int,
                              headingOffset: real, trig: Trig)
    requires ticksPerRevolution != 0.0
    requires Angle(encL, encR) == acc.tickTheta
    ensures var heading := Units.TicksToRads(ticksPerRevolution, acc.tickTheta) - headingOffset;
            var delta := Distance(encL, encR) - acc.robotDistance;
            Advance(ticksPerRevolution, acc, encL, encR, headingOffset, trig)
            == Accumulators(acc.tickX + delta * trig.cos(heading), acc.tickY + delta * trig.sin(heading),
                            acc.tickTheta, Distance(encL, encR))
  {
    var next := Advance(ticksPerRevolution, acc, encL, encR, headingOffset, trig);
    var dTheta := Angle(encL, encR) - acc.tickTheta;
    var midTicks := acc.tickTheta + dTheta / 2.0;
    assert dTheta == 0.0 && midTicks == acc.tickTheta;
    var heading := Units.TicksToRads(ticksPerRevolution, acc.tickTheta) - headingOffset;
    assert Units.TicksToRads(ticksPerRevolution, midTicks) - headingOffset == heading;
    var delta := Distance(encL, encR) - acc.robotDistance;
    assert next.tickX == acc.tickX + delta * trig.cos(heading);
    assert next.tickY == acc.tickY + delta * trig.sin(heading);
  }
}
