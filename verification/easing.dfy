/** The cubic ease-in-out curve shared by the foliage vertex shader
  * (`easeInOutCubic`) and the ornament update (its inline `easedT`).
  * `pow(y, 3.0)` there is written as the cube y * y * y. */
module Easing {
  import opened Numeric

  function Cube(y: real): real
  {
    y * y * y
  }

  /** x < 0.5 ? 4x^3 : 1 - (-2x + 2)^3 / 2 */
  function EaseInOutCubic(x: real): real
  {
    if x < 0.5 then 4.0 * Cube(x) else 1.0 - Cube(-2.0 * x + 2.0) / 2.0
  }

  /** The curve starts at 0 and ends at 1. */
  lemma EaseEnds()
    ensures EaseInOutCubic(0.0) == 0.0
    ensures EaseInOutCubic(1.0) == 1.0
  {
    assert Cube(0.0) == 0.0;
  }

  /** It passes through 0.5 at the midpoint, where both branches give the
    * same value. */
  lemma EaseMidpoint()
    ensures EaseInOutCubic(0.5) == 0.5 && 4.0 * Cube(0.5) == 0.5
  {
    assert Cube(0.5) == 0.125;
    assert Cube(1.0) == 1.0;
  }

  lemma CubeMono(a: real, b: real)
    requires 0.0 <= a <= b
    ensures 0.0 <= Cube(a) <= Cube(b)
  {
    var aa, bb := a * a, b * b;
    MulNonneg(a, a);
    MulMono(a, b, a);
    MulMono(a, b, b);
    assert aa <= bb;
    MulMono(aa, bb, a);
    MulMono(a, b, bb);
    MulNonneg(aa, a);
  }

  /** On [0, 1] the curve stays in [0, 1], below the midpoint on the first
    * half and at or above it on the second. */
  lemma EaseRange(x: real)
    requires 0.0 <= x <= 1.0
    ensures 0.0 <= EaseInOutCubic(x) <= 1.0
    ensures x < 0.5 ==> EaseInOutCubic(x) < 0.5
    ensures x >= 0.5 ==> EaseInOutCubic(x) >= 0.5
  {
    if x < 0.5 {
      CubeMono(0.0, x);
      CubeBelow(x, 0.5);
    } else {
      var y := -2.0 * x + 2.0;
      CubeMono(0.0, y);
      CubeMono(y, 1.0);
    }
  }

  lemma CubeBelow(a: real, b: real)
    requires 0.0 <= a < b
    ensures Cube(a) < Cube(b)
  {
    CubeMono(a, b);
    var aa, bb := a * a, b * b;
    MulMono(a, b, a);
    MulMono(a, b, b);
    var d := b - a;
    MulPos(d, b);
    assert d * b == b * b - a * b;
    assert aa < bb;
    MulNonneg(aa, a);
    MulMono(aa, bb, a);
    MulPos(d, bb);
    assert d * bb == bb * b - bb * a;
  }

  /** The curve is non-decreasing on [0, 1]. */
  lemma EaseMonotone(x: real, y: real)
    requires 0.0 <= x <= y <= 1.0
    ensures EaseInOutCubic(x) <= EaseInOutCubic(y)
  {
    if y < 0.5 {
      CubeMono(x, y);
    } else if x >= 0.5 {
      CubeMono(-2.0 * y + 2.0, -2.0 * x + 2.0);
    } else {
      EaseRange(x);
      EaseRange(y);
    }
  }

  /** The curve is point-symmetric about (0.5, 0.5): easing in mirrors easing out. */
  lemma EaseSymmetric(x: real)
    ensures EaseInOutCubic(1.0 - x) == 1.0 - EaseInOutCubic(x)
  {
    if x < 0.5 {
      assert -2.0 * (1.0 - x) + 2.0 == 2.0 * x;
      CubeDouble(x);
    } else if x > 0.5 {
      assert -2.0 * x + 2.0 == 2.0 * (1.0 - x);
      CubeDouble(1.0 - x);
    }
  }

  lemma CubeDouble(y: real)
    ensures Cube(2.0 * y) == 8.0 * Cube(y)
  {
    var yy := y * y;
    assert (2.0 * y) * (2.0 * y) == 4.0 * yy;
    assert 4.0 * yy * (2.0 * y) == 8.0 * (yy * y);
  }

  /** The steepest slope of the curve is 3 (at the midpoint): moving the
    * input by dx moves the output by at most 3 dx, so a bounded step of the
    * morph factor can never make the eased value jump. */
  lemma EaseLipschitz(x: real, y: real)
    requires 0.0 <= x <= y <= 1.0
    ensures 0.0 <= EaseInOutCubic(y) - EaseInOutCubic(x) <= 3.0 * (y - x)
  {
    EaseMonotone(x, y);
    if y < 0.5 {
      CubeSlope(x, y, 0.5);
    } else if x >= 0.5 {
      CubeSlope(-2.0 * y + 2.0, -2.0 * x + 2.0, 1.0);
    } else {
      CubeSlope(x, 0.5, 0.5);
      CubeSlope(-2.0 * y + 2.0, 1.0, 1.0);
    }
  }

  /** For 0 <= a <= b <= c: b^3 - a^3 <= 3 c^2 (b - a). */
  lemma CubeSlope(a: real, b: real, c: real)
    requires 0.0 <= a <= b <= c
    ensures Cube(b) - Cube(a) <= 3.0 * (c * c) * (b - a)
  {
    var d := b - a;
    var bb, ab, aa, cc := b * b, a * b, a * a, c * c;
    var s := bb + ab + aa;
    assert Cube(b) - Cube(a) == d * s;
    SquareMono(b, c);
    SquareMono(a, c);
    MulMono(a, c, b);
    MulMono(b, c, c);
    assert ab <= cc;
    MulMono(s, 3.0 * cc, d);
  }
}
