/** The sine and cosine that the engine takes from the Java runtime. Their
    values are not computable over the reals, so the model receives them as a
    pair of functions together with the laws the proofs rely on. */
module Trig {

  datatype Trig = Trig(sin: real -> real, cos: real -> real)

  /** The Pythagorean identity and the values at zero. */
  ghost predicate Laws(t: Trig) {
    && (forall a: real :: t.sin(a) * t.sin(a) + t.cos(a) * t.cos(a) == 1.0)
    && t.cos(0.0) == 1.0
    && t.sin(0.0) == 0.0
  }

  /** Cosine is even and sine is odd. */
  ghost predicate Parity(t: Trig) {
    forall a: real :: t.cos(-a) == t.cos(a) && t.sin(-a) == -t.sin(a)
  }
}
