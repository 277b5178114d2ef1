/** The parts of the JavaScript/GLSL math library the animation relies on.
  * The real functions are not available to the verifier, so a `MathLib`
  * value carries them as plain functions and `Lawful` states the only
  * facts about them that the proofs use. Random draws (`Math.random()`)
  * are parameters of type `Draw`. */
module Transcendental {

  /** `Math.PI` as the double-precision literal. */
  const PI: real := 3.141592653589793

  /** A value returned by `Math.random()`: a real in [0, 1). */
  type Draw = r: real | 0.0 <= r < 1.0

  datatype MathLib = MathLib(
    sin: real -> real,
    cos: real -> real,
    acos: real -> real,
    cbrt: real -> real,
    pow: (real, real) -> real,
    sqrt: real -> real)

  /** Range facts: sine and cosine lie on the unit circle; the cube root,
    * the square root, and a positive power of a value in [0, 1) are again
    * in [0, 1). Nothing is assumed about `acos`. */
  ghost predicate Lawful(m: MathLib)
  {
    (forall a :: m.sin(a) * m.sin(a) + m.cos(a) * m.cos(a) == 1.0) &&
    (forall a :: -1.0 <= m.sin(a) <= 1.0) &&
    (forall a :: -1.0 <= m.cos(a) <= 1.0) &&
    (forall w :: 0.0 <= w < 1.0 ==> 0.0 <= m.cbrt(w) < 1.0) &&
    (forall u, e :: 0.0 <= u < 1.0 && 0.0 < e ==> 0.0 <= m.pow(u, e) < 1.0) &&
    (forall s :: 0.0 <= s < 1.0 ==> 0.0 <= m.sqrt(s) < 1.0)
  }
}
