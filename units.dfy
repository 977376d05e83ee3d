/** The unit conversions that the two-encoder and differential headers
    define inline. Each takes the cached constant it reads as its first
    parameter: `tickPerMeters` is encoder ticks per meter of wheel travel,
    `ticksPerRevolution` the ticks each wheel travels while the robot turns
    once in place. */
module Units {
  import opened Trigonometry

  /** ticks * (1 / tickPerMeters): the distance, in meters, of `ticks` ticks. */
  function TicksToMeters(tickPerMeters: real, ticks: real): real
    requires tickPerMeters != 0.0
  {
    ticks * (1.0 / tickPerMeters)
  }

  /** meters * tickPerMeters: the ticks that cover `meters` meters. */
  function MetersToTicks(tickPerMeters: real, meters: real): real
  {
    meters * tickPerMeters
  }

  /** (ticks * PI) / (ticksPerRevolution / 2): the heading, in radians, of a
      differential tick count; a whole revolution of ticks is 2 PI. */
  function TicksToRads(ticksPerRevolution: real, ticks: real): real
    requires ticksPerRevolution != 0.0
  {
    (ticks * PI) / (ticksPerRevolution / 2.0)
  }

  /** Meters are the ticks divided by the ticks per meter, and radians the
      share of a whole revolution of ticks, times 2 PI. */
  lemma ConversionsScale(tickPerMeters: real, ticksPerRevolution: real, v: real)
    requires tickPerMeters != 0.0 && ticksPerRevolution != 0.0
    ensures TicksToMeters(tickPerMeters, v) * tickPerMeters == v
    ensures TicksToRads(ticksPerRevolution, v) * ticksPerRevolution == 2.0 * PI * v
  {
  }

  lemma MetersTicksRoundTrip(tickPerMeters: real, meters: real, ticks: real)
    requires tickPerMeters != 0.0
    ensures TicksToMeters(tickPerMeters, MetersToTicks(tickPerMeters, meters)) == meters
    ensures MetersToTicks(tickPerMeters, TicksToMeters(tickPerMeters, ticks)) == ticks
  {
  }

  /** No ticks is no heading, half a revolution is PI, a whole one 2 PI. */
  lemma TicksToRadsLandmarks(ticksPerRevolution: real)
    requires ticksPerRevolution != 0.0
    ensures TicksToRads(ticksPerRevolution, 0.0) == 0.0
    ensures TicksToRads(ticksPerRevolution, ticksPerRevolution / 2.0) == PI
    ensures TicksToRads(ticksPerRevolution, ticksPerRevolution) == 2.0 * PI
  {
  }

  /** All three conversions are linear maps. */
  lemma ConversionsLinear(tickPerMeters: real, ticksPerRevolution: real, a: real, b: real, k: real)
    requires tickPerMeters != 0.0 && ticksPerRevolution != 0.0
    ensures TicksToMeters(tickPerMeters, a + b) == TicksToMeters(tickPerMeters, a) + TicksToMeters(tickPerMeters, b)
    ensures TicksToMeters(tickPerMeters, k * a) == k * TicksToMeters(tickPerMeters, a)
    ensures MetersToTicks(tickPerMeters, a + b) == MetersToTicks(tickPerMeters, a) + MetersToTicks(tickPerMeters, b)
    ensures MetersToTicks(tickPerMeters, k * a) == k * MetersToTicks(tickPerMeters, a)
    ensures TicksToRads(ticksPerRevolution, a + b) == TicksToRads(ticksPerRevolution, a) + TicksToRads(ticksPerRevolution, b)
    ensures TicksToRads(ticksPerRevolution, k * a) == k * TicksToRads(ticksPerRevolution, a)
  {
  }

  /** With positive constants every conversion keeps the sign of its argument. */
  lemma ConversionsKeepSign(tickPerMeters: real, ticksPerRevolution: real, v: real)
    requires tickPerMeters > 0.0 && ticksPerRevolution > 0.0
    ensures (TicksToMeters(tickPerMeters, v) > 0.0 <==> v > 0.0) && (TicksToMeters(tickPerMeters, v) < 0.0 <==> v < 0.0)
    ensures (MetersToTicks(tickPerMeters, v) > 0.0 <==> v > 0.0) && (MetersToTicks(tickPerMeters, v) < 0.0 <==> v < 0.0)
    ensures (TicksToRads(ticksPerRevolution, v) > 0.0 <==> v > 0.0) && (TicksToRads(ticksPerRevolution, v) < 0.0 <==> v < 0.0)
  {
  }
}
