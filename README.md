# Wheel-encoder odometry, modelled in Dafny

This project models the pose integrators of the 6TRON odometry library. They do
dead reckoning for a mobile robot from cumulative wheel-encoder counts. There
are two drivetrains:

- **Differential drive.** Three integrators share one update rule:
  `OdometryTwoEncoders`, the older `Odometry` (its geometry arrives through
  `init`), and `OdometryDifferential` (it corrects the heading of each
  displacement by a heading offset). Each `compute(encL, encR)` does four things:
  - it turns the counts into a curvilinear distance `(encL + encR) / 2` and a
    differential heading `(encR - encL) / 2`, both in ticks;
  - it projects the distance travelled since the last call on the heading
    halfway through the step;
  - it accumulates the result in tick-domain accumulators;
  - it converts the accumulators to metres and radians, and the step to speeds
    at the configured rate.
- **Holonomic drive.** `OdometryHolonomic` drives N omnidirectional wheels.
  - `calculInit` builds a direct kinematic matrix and its pseudo-inverse.
  - Each `compute` turns the encoder vector into a local (x, y, theta)
    estimate. It rotates the change since the previous estimate into the
    global frame, using the current local heading, and adds it to the pose.

The model is organised as follows:

- Every integrator is a `class` whose fields are the C++ members.
- `compute`, `init`, `calculInit`, `updateRotation` and `setPos` are methods.
  Their `modifies` clauses name the fields they write, and their `ensures`
  state every new field value as a function of the inputs and the old state.
- The unit conversions are pure functions.
- The `position` struct is a datatype whose zero value is `Origin`.

Arithmetic is exact, over `real`. Sine and cosine form an uninterpreted `Trig`
pair passed to every operation that uses them. Only the lemmas that need
`sin² + cos² = 1` require it, through `Pythagorean`. π is the real constant
`PI`, M_PI written out, so `PI > 0` is a fact and not an assumption.

The modules are:

- `Trigonometry`: π and the trigonometry parameter.
- `Pose`: the `position` datatype.
- `Units`: the three conversions of odometry/odometry_two_encoders.h and
  odometry/odometry_differential.h, and their algebra.
- `DifferentialDrive`: the shared update rule.
  - `Advance` is one step on the accumulators.
  - `PoseOf`, `LinearSpeed` and `AngularSpeed` map accumulators to the pose
    and speeds a step reports.
  - `Run` is a sequence of steps.
  - The lemmas about these are the properties every differential integrator
    inherits through its `Compute` contract.
- `TwoEncoders`, `Odometry` and `Differential`: the three differential
  classes. Each `Compute` promises three things:
  - its accumulator fields are `Advance` of the old ones;
  - its pose fields are `PoseOf` the new accumulators;
  - its speeds are `LinearSpeed` and `AngularSpeed` of the step.
- `Matrices`: the matrix helpers the holonomic integrator calls, as functions
  on `seq<seq<real>>`.
- `Holonomic`: the holonomic class. It also holds `StepPose`, one holonomic
  step's effect on the pose, and the lemmas about it.

Three consequences of the code, as the model states them:

- Spinning in place by `d` ticks per wheel per call advances the heading
  by `ticks2Rads(d)` per call. The heading accumulator is
  `(encR − encL) / 2`; see `DifferentialDrive.SpinInPlace` and `Advance`.
- `setPos` of the two-encoder class overwrites the raw pose, with no offset.
  A following `compute` recomputes the pose from the accumulators. So after
  `SetPos` and a `Compute` with unchanged counts the pose is
  `PoseOf(Ticks())` again, not the requested pose: see
  `TwoEncoders.OdometryTwoEncoders.Compute` and `RepeatedCompute`.
- The holonomic rotation angle also subtracts `_odometry_offset.theta`.
  That term is zero, because the offset starts at `Origin` and no modelled
  operation writes it.

## Model

| member | source | states |
|---|---|---|
| Units.TicksToMeters | odometry/odometry_two_encoders.h:60-63 | defined as ticks·(1 / ticks-per-metre); its properties are the lemmas below |
| Units.MetersToTicks | odometry/odometry_two_encoders.h:65-68 | defined as metres·ticks-per-metre |
| Units.TicksToRads | odometry/odometry_two_encoders.h:70-73 | defined as (ticks·π) / (ticks per robot revolution / 2) |
| Units.ConversionsScale | odometry/odometry_two_encoders.h:60-73 | ticks2Meters(v) times the ticks-per-metre constant is v again; ticks2Rads(v) times the ticks per robot revolution is 2π·v |
| Units.MetersTicksRoundTrip | odometry/odometry_two_encoders.h:60-68 | with a nonzero constant, meters→ticks→meters and ticks→meters→ticks are both the identity |
| Units.TicksToRadsLandmarks | odometry/odometry_two_encoders.h:70-73 | zero ticks is zero radians, half a robot revolution of ticks is π, a whole one is 2π |
| Units.ConversionsLinear | odometry/odometry_two_encoders.h:60-73 | each of the three conversions is additive and commutes with scaling |
| Units.ConversionsKeepSign | odometry/odometry_differential.h:32-42 | with positive constants each conversion is positive exactly when its argument is, and negative exactly when its argument is |
| TwoEncoders.OdometryTwoEncoders.Ticks2Meters | odometry/odometry_two_encoders.h:60-63 | Units.TicksToMeters on the class's ticks-per-metre constant |
| TwoEncoders.OdometryTwoEncoders.Meters2Ticks | odometry/odometry_two_encoders.h:65-68 | Units.MetersToTicks on the class's ticks-per-metre constant |
| TwoEncoders.OdometryTwoEncoders.Ticks2Rads | odometry/odometry_two_encoders.h:70-73 | Units.TicksToRads on the class's ticks per robot revolution |
| Odometry.Odometry.Ticks2Meters | src/odometry.cpp:68-76 | Units.TicksToMeters on the ticks-per-metre constant Init stored; Compute converts x, y and the linear speed with it |
| Odometry.Odometry.Meters2Ticks | src/odometry.cpp:44 | Units.MetersToTicks on the ticks-per-metre constant; Init derives the ticks per revolution with it |
| Odometry.Odometry.Ticks2Rads | src/odometry.cpp:61-77 | Units.TicksToRads on the ticks per revolution Init stored; Compute converts the mid angle, theta and the angular speed with it |
| Differential.OdometryDifferential.Ticks2Meters | odometry/odometry_differential.h:32-34 | the metres returned, times the ticks-per-metre constant, give back the ticks |
| Differential.OdometryDifferential.Meters2Ticks | odometry/odometry_differential.h:36-38 | converting the returned ticks back to metres gives the metres passed in |
| Differential.OdometryDifferential.Ticks2Rads | odometry/odometry_differential.h:40-42 | the radians returned are the share of a robot revolution that the ticks make, times 2π |
| DifferentialDrive.Advance | src/odometry_two_encoders.cpp:52-78 | after one step the distance accumulator is (encL+encR)/2 and the heading accumulator is (encR−encL)/2, whatever the history; a step with no curvilinear motion leaves tickX and tickY alone |
| DifferentialDrive.PoseOf | src/odometry_two_encoders.cpp:71-76 | defined as the accumulators converted: tickX and tickY to metres, tickTheta to radians |
| DifferentialDrive.LinearSpeed | src/odometry_two_encoders.cpp:79 | defined as the step's distance change in metres times the rate |
| DifferentialDrive.AngularSpeed | src/odometry_two_encoders.cpp:80 | defined as the step's heading change in radians times the rate |
| DifferentialDrive.Run | src/odometry_two_encoders.cpp:52-81 | defined as one Advance per pair of counts, in order; a run of Compute calls leaves the accumulators at Run |
| DifferentialDrive.AdvanceSynced | src/odometry.cpp:49-78 | counts the accumulators already hold change no accumulator, and give zero linear and zero angular speed |
| DifferentialDrive.StillIffSynced | src/odometry_two_encoders.cpp:79-80 | at a nonzero rate, both speeds are zero exactly when the counts are those of the previous step |
| DifferentialDrive.AdvanceNoTurn | src/odometry.cpp:56-58 | when encR−encL has not changed since the last step, the heading accumulator is kept and the angular speed is zero |
| DifferentialDrive.RepeatedCompute | src/odometry_differential.cpp:32-61 | a second step with the same counts leaves the accumulators and the pose as the first left them, and both speeds read zero |
| DifferentialDrive.RunTracksLastCounts | src/odometry_two_encoders.cpp:55-61 | after any non-empty sequence of steps, the distance and heading accumulators depend on the last counts only |
| DifferentialDrive.StraightLine | src/odometry_two_encoders.cpp:63-68 | while encR−encL stays at the accumulated heading, the position moves along that one heading by the whole distance travelled |
| DifferentialDrive.StraightStep | src/odometry_two_encoders.cpp:63-68 | one step that keeps the heading stays on the straight line from the start |
| DifferentialDrive.AdvanceKeepingHeading | src/odometry_two_encoders.cpp:58-68 | a step that does not turn moves the position along the current heading, by the distance travelled |
| DifferentialDrive.SpinInPlace | src/odometry_two_encoders.cpp:54-68 | while encL+encR stays at the accumulated distance, tickX, tickY and the distance accumulator never move |
| TwoEncoders.OdometryTwoEncoders.constructor | src/odometry_two_encoders.cpp:25-48 | speeds, pose and accumulators start at zero; the perimeter is 2π·radius, ticks-per-metre times the perimeter is the resolution, and ticks per revolution is meters2Ticks(π·wheel distance) |
| TwoEncoders.OdometryTwoEncoders.Compute | src/odometry_two_encoders.cpp:52-81 | the accumulators advance by the shared rule without offset; dTheta is the change of differential heading; x, y, theta are the new accumulators converted; the speeds are those of the step at the rate |
| TwoEncoders.OdometryTwoEncoders.GetSpeedLin | src/odometry_two_encoders.cpp:83-85 | returns the stored linear speed |
| TwoEncoders.OdometryTwoEncoders.GetSpeedAng | src/odometry_two_encoders.cpp:87-89 | returns the stored angular speed |
| TwoEncoders.OdometryTwoEncoders.GetTheta | src/odometry_two_encoders.cpp:91-93 | returns the stored heading |
| TwoEncoders.OdometryTwoEncoders.GetX | src/odometry_two_encoders.cpp:95-97 | returns the stored x |
| TwoEncoders.OdometryTwoEncoders.GetY | src/odometry_two_encoders.cpp:99-101 | returns the stored y |
| TwoEncoders.OdometryTwoEncoders.SetPos | src/odometry_two_encoders.cpp:103-109 | overwrites x, y and theta with the requested pose and may change nothing else, so accumulators and speeds are untouched |
| TwoEncoders.OdometryTwoEncoders.GetPos | src/odometry_two_encoders.cpp:111-119 | returns the triple (x, y, theta) that the three getters return, changing nothing |
| Odometry.Odometry.constructor | src/odometry.cpp:25-28 | speeds, pose, dTheta and all accumulators start at zero |
| Odometry.Odometry.Init | src/odometry.cpp:30-45 | stores rate and geometry and derives the same constants as the two-encoder constructor; writes no other field |
| Odometry.Odometry.Compute | src/odometry.cpp:49-78 | the same step as the two-encoder class; the geometry is left as Init set it |
| Odometry.Odometry.GetVRobotLin | src/odometry.cpp:80-82 | returns the stored linear speed |
| Odometry.Odometry.GetVRobotAng | src/odometry.cpp:84-86 | returns the stored angular speed |
| Odometry.Odometry.GetTheta | src/odometry.cpp:88-90 | returns the stored heading |
| Odometry.Odometry.GetX | src/odometry.cpp:92-94 | returns the stored x |
| Odometry.Odometry.GetY | src/odometry.cpp:96-98 | returns the stored y |
| Differential.OdometryDifferential.constructor | src/odometry_differential.cpp:9-28 | accumulators start at zero and the three triples at Origin; the inverted constants are the reciprocals of ticks-per-metre and of half the ticks per revolution |
| Differential.OdometryDifferential.Compute | src/odometry_differential.cpp:32-61 | the accumulators advance with each displacement turned back by the heading offset; the pose is the accumulators converted, its heading without the offset; speeds.x and speeds.theta are the step's speeds; speeds.y keeps its old value |
| Matrices.Zero | src/odometry_holonomic.cpp:39-51 | a lines×columns matrix whose every entry is zero |
| Matrices.Transpose | src/odometry_holonomic.cpp:35-36 | a columns×lines matrix with entry (j, i) equal to entry (i, j) of the argument |
| Matrices.Dot | src/odometry_holonomic.cpp:69 | defined as the sum of row[t]·b[t][column] over the first count indices |
| Matrices.ProductLine | src/odometry_holonomic.cpp:35-36 | entry j of a line of the product is that line dotted with column j |
| Matrices.Multiply | src/odometry_holonomic.cpp:69 | the product of a lines×inner and an inner×columns matrix is lines×columns |
| Matrices.MultiplyEntry | src/odometry_holonomic.cpp:69 | entry (i, j) of the product is line i of the left factor dotted with column j of the right one |
| Matrices.DotThree | src/odometry_holonomic.cpp:69 | a dot product over three indices, written out as a sum |
| Matrices.MultiplyThreeByOneLine | src/odometry_holonomic.cpp:69 | one entry of a 3×3 by 3×1 product, written out |
| Matrices.MultiplyThreeByOne | src/odometry_holonomic.cpp:69 | every entry of a 3×3 by 3×1 product, written out |
| Holonomic.WheelAngle | src/odometry_holonomic.cpp:28-29 | defined as line·2·π / N, the angle of wheel line |
| Holonomic.DirectRow | src/odometry_holonomic.cpp:28-30 | defined as [−sin(angle), cos(angle), distance to centre] for the wheel's angle |
| Holonomic.DirectMatrix | src/odometry_holonomic.cpp:25-31 | the direct matrix has N lines of three entries |
| Holonomic.Reverse | src/odometry_holonomic.cpp:35-36 | (DᵗD)⁻¹·Dᵗ is a 3×N matrix, for any inversion that keeps 3×3 shapes |
| Holonomic.Rotation | src/odometry_holonomic.cpp:82-85 | defined as the 3×3 matrix with plane block [cos, −sin; sin, cos] of the angle, and the identity's third line and column |
| Holonomic.Delta | src/odometry_holonomic.cpp:61-63 | the change between two 3×1 estimates is 3×1 |
| Holonomic.DeltaLoop | src/odometry_holonomic.cpp:61-63 | the loop computes line i as local[i] − previous[i], for all three lines |
| Holonomic.DirectRowsAreUnit | src/odometry_holonomic.cpp:27-31 | under sin²+cos²=1 the first two entries of each line form a unit vector, and the third is the distance to the centre |
| Holonomic.RotateVector | src/odometry_holonomic.cpp:66-69 | the rotation turns the x, y part of a vector by the angle and passes its heading through unchanged |
| Holonomic.RotationPreservesLength | src/odometry_holonomic.cpp:82-85 | under sin²+cos²=1 the rotation keeps the length of the x, y displacement |
| Holonomic.Accumulate | src/odometry_holonomic.cpp:71-74 | defined as the pose plus the three entries of a 3×1 change |
| Holonomic.StepPose | src/odometry_holonomic.cpp:61-74 | defined as the pose accumulated with the rotated change from the previous local estimate to the new one |
| Holonomic.StepPoseOfParts | src/odometry_holonomic.cpp:61-74 | a rotation, a change and their product, as compute builds them, accumulate to StepPose; from the previous local heading, to the new local heading |
| Holonomic.StepPoseHeadingUnrotated | src/odometry_holonomic.cpp:66-74 | a step adds the change of local heading to the heading, unrotated, and the rotated x, y change to x and y |
| Holonomic.StepPoseTracksLocalHeading | src/odometry_holonomic.cpp:70-77 | a pose whose heading is the previous local heading ends with the new local heading |
| Holonomic.StepPoseRepeated | src/odometry_holonomic.cpp:54-78 | a step whose local estimate equals the previous one leaves the pose where it is |
| Holonomic.StepPoseKeepsDistance | src/odometry_holonomic.cpp:66-74 | under sin²+cos²=1 the pose moves in the plane by the length of the local x, y change |
| Holonomic.StepRun | src/odometry_holonomic.cpp:54-78 | defined as one StepPose per local estimate, in order, each taken from the estimate before it; a run of Compute calls is a StepRun |
| Holonomic.HeadingTelescopes | src/odometry_holonomic.cpp:70-77 | over any non-empty run of steps (StepRun), whatever the rotations, the heading moves by the last local heading minus the first previous one; so from the previous local heading it ends at the latest one |
| Holonomic.OdometryHolonomic.constructor | src/odometry_holonomic.cpp:8-17 | stores rate, wheel count, distance to centre and offset angle unchanged; pose and offset start at Origin |
| Holonomic.OdometryHolonomic.BuildDirectMatrix | src/odometry_holonomic.cpp:25-31 | the loop fills line i with [−sin(2πi/N), cos(2πi/N), distance to centre], for every line |
| Holonomic.OdometryHolonomic.CalculInit | src/odometry_holonomic.cpp:22-52 | reverse is the pseudo-inverse of the direct matrix; the rotation is zero except entry (2, 2) = 1; the three vectors are zero; from a zero heading, the pose heading tracks the local one |
| Holonomic.OdometryHolonomic.UpdateRotation | src/odometry_holonomic.cpp:80-86 | only the top-left 2×2 block is rewritten, to the rotation by newAngle + offset angle; with a fixed third axis the whole matrix is that rotation |
| Holonomic.OdometryHolonomic.Compute | src/odometry_holonomic.cpp:54-78 | previousOdometry becomes reverse·encoders; deltaVector is its change; the rotation is freshly derived from the new local heading minus the heading offset, plus the offset angle; globalPosition is rotation·delta; the pose gains globalPosition, which makes the new pose StepPose of the old one; shapes and the fixed third axis are kept; a pose heading that tracks the local heading keeps tracking it |

## Left out

- Float arithmetic is not modelled: rounding, `sinf`/`cosf` accuracy, the
  `int64_t` to `float` conversion, and `int64_t` overflow of `encL + encR`.
  The model computes exactly over `real` and `int`.
- Sine and cosine are parameters (`Trig`). Nothing about them is assumed
  except where a lemma requires `Pythagorean`.
- Division by zero is not modelled: the geometry constructors require a
  nonzero resolution, radius and wheel distance. In `float` a zero gives an
  infinite or NaN constant; over `real` the division would be undefined.
- Holonomic.OdometryHolonomic.Compute requires `Valid()`, so it models
  `compute` only after `calculInit` has given the matrices their shapes. A
  call before `calculInit` would multiply matrices that have no data yet.
- Odometry.Odometry.Compute requires `Valid()`, so it models `compute` only
  after an `init` with nonzero geometry. The source also allows calling it
  before `init`, on uninitialised constants.
- The matrix library (`newMatrix`, `multiply`, `transpose`, `inverse`) is not
  part of this model. Instead:
  - `multiply` and `transpose` are written as functions on sequences;
  - `newMatrix` is taken to be zero-filled (`Matrices.Zero`);
  - `inverse` is a parameter of `CalculInit`, about which only its 3×3 shape
    is assumed; degenerate geometries are out of scope.
- The matrices are values, not buffers: in-place writes and sharing are not
  modelled. `UpdateRotation` writes the four cells of the rotation one by one.
  The delta loop of the holonomic `compute` (`DeltaLoop`) writes its lines
  into a local matrix, like the C++ loop writing `_delta_vector`.
- The three differential `Compute` methods and the holonomic one compute the
  step in locals and write the fields together at the end. The values written
  are the ones the source writes step by step. Where the source reads a field
  it has just written, such as `_dTheta`, the model reads the local that holds
  the same value.
- Holonomic.OdometryHolonomic.CalculInit requires `numberOfWheels >= 0`.
  With a negative count the C++ `newMatrix` would get a negative size, and a
  matrix of negative size does not exist in the model.
- The `setPos` of `OdometryDifferential` and `OdometryHolonomic`, and the
  `init()` and `update()` virtuals of the abstract base, are declared but do
  not have bodies in the source files, so they are not modelled. The same goes
  for the base-class getters of those two variants.
- Base-class members are declared locally in each class:
  `_odometry_position`, `_odometry_offset`, `_odometry_speeds` and
  `_odom_rate_hz`. The headers that declare them are not part of this model.
  Their zero start comes from the default initialisers of `position`.
- The holonomic variant never writes a speed, so it has no speed fields here.
- Reading the encoders, timers and the calling cadence are not modelled. The
  rate is a given constant.
