/** Scalar helpers shared by the animation code: the JavaScript Math.abs,
  * Math.min and Math.max, GLSL's scalar `mix`, and the frame count a
  * constant-rate transition needs to cover a unit distance. */
module Numeric {

  function Abs(a: real): real
  {
    if a < 0.0 then -a else a
  }

  function Min(a: real, b: real): real
  {
    if a <= b then a else b
  }

  function Max(a: real, b: real): real
  {
    if a >= b then a else b
  }

  /** GLSL `mix(a, b, t)`: a * (1 - t) + b * t. Over the reals this is also
    * what three.js `lerpVectors` computes per coordinate (a + (b - a) * t). */
  function Mix(a: real, b: real, t: real): real
  {
    a * (1.0 - t) + b * t
  }

  /** Mix is an affine interpolation: it starts at a, ends at b, and for t in
    * [0, 1] stays between them. */
  lemma MixConvex(a: real, b: real, t: real)
    requires 0.0 <= t <= 1.0
    ensures Mix(a, b, 0.0) == a && Mix(a, b, 1.0) == b
    ensures Min(a, b) <= Mix(a, b, t) <= Max(a, b)
    ensures Mix(a, b, t) == a + (b - a) * t
  {
    assert Mix(a, b, t) == a + (b - a) * t;
    if a <= b {
      MulNonneg(b - a, t);
      MulNonneg(b - a, 1.0 - t);
    } else {
      MulNonneg(a - b, t);
      MulNonneg(a - b, 1.0 - t);
    }
  }

  lemma MulNonneg(x: real, y: real)
    requires x >= 0.0 && y >= 0.0
    ensures x * y >= 0.0
  {
  }

  lemma MulPos(x: real, y: real)
    requires x > 0.0 && y > 0.0
    ensures x * y > 0.0
  {
  }

  /** Multiplying both sides of a <= b by c >= 0 keeps the order. */
  lemma MulMono(a: real, b: real, c: real)
    requires a <= b && c >= 0.0
    ensures a * c <= b * c
  {
    MulNonneg(b - a, c);
  }

  lemma SquareMono(a: real, b: real)
    requires 0.0 <= a <= b
    ensures a * a <= b * b
  {
    var aa, ab, bb := a * a, a * b, b * b;
    MulMono(a, b, a);
    MulMono(a, b, b);
    assert aa <= ab && ab <= bb;
  }

  /** The number of frames a transition needs to cover a distance of 1 when
    * it moves `step` per frame: the ceiling of 1 / step, i.e. the least n
    * with n * step >= 1. */
  function FramesToSettle(step: real): (n: nat)
    requires step > 0.0
    ensures n as real * step >= 1.0
    ensures n as real * step < 1.0 + step
  {
    var q := 1.0 / step;
    var f := q.Floor;
    var n: nat := if f as real == q then f else f + 1;
    var here: real := n as real;
    AtLeastOne(here, q, step);
    BelowOne(here, q, step);
    n
  }

  /** Any number of frames from FramesToSettle on covers the unit distance. */
  lemma SettleCovers(step: real, n: nat)
    requires step > 0.0 && n >= FramesToSettle(step)
    ensures n as real * step >= 1.0
  {
    var k := FramesToSettle(step);
    MulMono(k as real, n as real, step);
  }

  lemma AtLeastOne(p: real, q: real, step: real)
    requires step > 0.0 && q * step == 1.0 && p >= q
    ensures p * step >= 1.0
  {
    var a := q * step;
    var b := p * step;
    assert (p - q) * step == b - a;
    MulNonneg(p - q, step);
    assert a == 1.0;
  }

  lemma BelowOne(p: real, q: real, step: real)
    requires step > 0.0 && q * step == 1.0 && p - 1.0 < q
    ensures p * step < 1.0 + step
  {
    var a := q * step;
    var b := p * step;
    var d := q - (p - 1.0);
    assert d > 0.0;
    var c := d * step;
    assert c > 0.0;
    assert c == a - b + step;
    assert a == 1.0;
    assert b < 1.0 + step;
  }
}
