/** The `position` struct of odometry/odometry.h: a planar pose whose three
    members default to zero. The differential and holonomic integrators also
    use it for their offset and speed triples. */
module Pose {

  datatype Position = Position(x: real, y: real, theta: real)

  /** The value of a default-initialised `position`. */
  const Origin: Position := Position(0.0, 0.0, 0.0)
}
