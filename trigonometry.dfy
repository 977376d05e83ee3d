/** The trigonometry the integrators rely on.

    The C++ integrators call the C library's `sinf` and `cosf`. Their values
    are not part of this model: a `Trig` value carries a sine and a cosine as
    plain functions, every operation that needs them takes one as a
    parameter, and only the lemmas that need a property of them (the
    Pythagorean identity) require it. */
module Trigonometry {

  /** M_PI, the constant the source rounds to `float` before use. */
  const PI: real := 3.14159265358979323846

  /** An uninterpreted pair of sine and cosine functions. */
  datatype Trig = Trig(sin: real -> real, cos: real -> real)

  /** sin(a)^2 + cos(a)^2 == 1 for every angle a. */
  ghost predicate Pythagorean(t: Trig) {
    forall a: real :: t.sin(a) * t.sin(a) + t.cos(a) * t.cos(a) == 1.0
  }
}
