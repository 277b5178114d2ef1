/** The point sampler of utils/math.ts: three straight-line formulas that
  * turn unit draws into points of the scene. Draws arrive as parameters,
  * the transcendental functions through a `MathLib`. */
module Sampler {
  import opened Numeric
  import opened Vectors
  import opened Transcendental

  /** The three `Math.random()` calls of `getRandomSpherePoint`, in call order. */
  datatype SphereDraws = SphereDraws(u: Draw, v: Draw, w: Draw)

  /** The three `Math.random()` calls of `getTreePoint`, in call order. */
  datatype TreeDraws = TreeDraws(heightDraw: Draw, angle: Draw, radial: Draw)

  /** The exponent of the height draw in `getTreePoint`. */
  const HeightBias: real := 0.8

  // ---------------------------------------------------------------------
  // getRandomSpherePoint

  /** Distance from the centre of the sphere sample: cbrt(w) * radius. */
  function SphereDistance(m: MathLib, radius: real, d: SphereDraws): real
  {
    m.cbrt(d.w) * radius
  }

  /** `getRandomSpherePoint(radius)`: azimuth 2 pi u, polar angle acos(2v - 1),
    * distance cbrt(w) * radius, converted to Cartesian coordinates. */
  function SpherePoint(m: MathLib, radius: real, d: SphereDraws): Vec3
  {
    var theta := 2.0 * PI * d.u;
    var phi := m.acos(2.0 * d.v - 1.0);
    var r := SphereDistance(m, radius, d);
    var sinPhi := m.sin(phi);
    Vec3(r * sinPhi * m.cos(theta), r * sinPhi * m.sin(theta), r * m.cos(phi))
  }

  /** The sphere sample lies strictly inside the ball: its distance from the
    * centre is cbrt(w) * radius, which is in [0, radius), and the point's
    * squared norm is exactly the square of that distance. */
  lemma SpherePointInBall(m: MathLib, radius: real, d: SphereDraws)
    requires Lawful(m) && radius > 0.0
    ensures 0.0 <= SphereDistance(m, radius, d) < radius
    ensures NormSquared(SpherePoint(m, radius, d)) ==
            SphereDistance(m, radius, d) * SphereDistance(m, radius, d)
    ensures NormSquared(SpherePoint(m, radius, d)) < radius * radius
  {
    SphereDistanceRange(m, radius, d);
    SpherePointNorm(m, radius, d);
    SquareBelow(SphereDistance(m, radius, d), radius);
  }

  lemma SphereDistanceRange(m: MathLib, radius: real, d: SphereDraws)
    requires Lawful(m) && radius > 0.0
    ensures 0.0 <= SphereDistance(m, radius, d) < radius
  {
    var c := m.cbrt(d.w);
    assert 0.0 <= c < 1.0;
    MulNonneg(c, radius);
    MulStrict(c, radius);
    assert SphereDistance(m, radius, d) == c * radius;
  }

  lemma SpherePointNorm(m: MathLib, radius: real, d: SphereDraws)
    requires Lawful(m)
    ensures NormSquared(SpherePoint(m, radius, d)) ==
            SphereDistance(m, radius, d) * SphereDistance(m, radius, d)
  {
    var theta := 2.0 * PI * d.u;
    var phi := m.acos(2.0 * d.v - 1.0);
    var r := SphereDistance(m, radius, d);
    var sp, cp := m.sin(phi), m.cos(phi);
    var st, ct := m.sin(theta), m.cos(theta);
    assert sp * sp + cp * cp == 1.0;
    assert st * st + ct * ct == 1.0;
    SphericalNorm(r, sp, cp, st, ct);
  }

  lemma MulStrict(c: real, radius: real)
    requires 0.0 <= c < 1.0 && radius > 0.0
    ensures c * radius < radius
  {
    var k := (1.0 - c) * radius;
    assert k > 0.0;
    assert k == radius - c * radius;
  }

  /** Spherical to Cartesian conversion preserves the radius. */
  lemma SphericalNorm(r: real, sp: real, cp: real, st: real, ct: real)
    requires sp * sp + cp * cp == 1.0 && st * st + ct * ct == 1.0
    ensures NormSquared(Vec3(r * sp * ct, r * sp * st, r * cp)) == r * r
  {
    var r2, s2 := r * r, sp * sp;
    var xx := (r * sp * ct) * (r * sp * ct);
    var yy := (r * sp * st) * (r * sp * st);
    var zz := (r * cp) * (r * cp);
    assert xx == r2 * s2 * (ct * ct);
    assert yy == r2 * s2 * (st * st);
    assert xx + yy == r2 * s2 * (st * st + ct * ct);
    assert xx + yy == r2 * s2;
    assert zz == r2 * (cp * cp);
    assert r2 * s2 + r2 * (cp * cp) == r2 * (sp * sp + cp * cp);
  }

  lemma SquareBelow(a: real, b: real)
    requires 0.0 <= a < b
    ensures a * a < b * b
  {
    var aa, ab, bb := a * a, a * b, b * b;
    var k1 := a * (b - a);
    MulNonneg(a, b - a);
    assert k1 == ab - aa;
    var k2 := (b - a) * b;
    MulPos(b - a, b);
    assert k2 == bb - ab;
    assert aa <= ab && ab < bb;
    assert aa < bb;
  }

  // ---------------------------------------------------------------------
  // getTreePoint

  /** The height fraction h = pow(draw, 0.8). Despite the comment beside it
    * in the source, h = 0 is the apex (top) and h = 1 the base. */
  function HeightFraction(m: MathLib, d: TreeDraws): real
  {
    m.pow(d.heightDraw, HeightBias)
  }

  /** `getTreePoint(height, radius)`: y = (1 - h) * height - height / 2, the
    * disc at that height has radius h * radius, and the point sits at
    * distance sqrt(s) * h * radius from the axis at angle 2 pi a. */
  function TreePoint(m: MathLib, height: real, radius: real, d: TreeDraws): Vec3
  {
    var h := HeightFraction(m, d);
    var y := (1.0 - h) * height - height / 2.0;
    var currentRadius := h * radius;
    var angle := d.angle * PI * 2.0;
    var r := m.sqrt(d.radial) * currentRadius;
    Vec3(m.cos(angle) * r, y, m.sin(angle) * r)
  }

  /** Radius of the cone of the given height and base radius, centred on the
    * origin with its apex at y = height / 2 and its base at y = -height / 2. */
  function ConeRadiusAt(height: real, radius: real, y: real): real
    requires height != 0.0
  {
    radius * (height / 2.0 - y) / height
  }

  /** p lies in the solid cone: between base and apex, and no farther from
    * the axis than the cone's radius at p's height. */
  ghost predicate InCone(p: Vec3, height: real, radius: real)
  {
    height > 0.0 &&
    -height / 2.0 <= p.y <= height / 2.0 &&
    0.0 <= ConeRadiusAt(height, radius, p.y) &&
    HorizontalSquared(p) <= ConeRadiusAt(height, radius, p.y) * ConeRadiusAt(height, radius, p.y)
  }

  /** The cone's radius is zero at the apex and the full radius at the base. */
  lemma ConeEnds(height: real, radius: real)
    requires height > 0.0
    ensures ConeRadiusAt(height, radius, height / 2.0) == 0.0
    ensures ConeRadiusAt(height, radius, -height / 2.0) == radius
  {
  }

  /** The tree sample lies in the cone. Its height is in (-height/2, height/2]
    * (h = 0 gives the apex, h < 1 never quite reaches the base), the disc
    * radius h * radius is the cone's radius at that height and lies in
    * [0, radius), and the point is no farther from the axis than that. */
  lemma TreePointInCone(m: MathLib, height: real, radius: real, d: TreeDraws)
    requires Lawful(m) && height > 0.0 && radius >= 0.0
    ensures var p := TreePoint(m, height, radius, d);
      -height / 2.0 < p.y <= height / 2.0 &&
      ConeRadiusAt(height, radius, p.y) == HeightFraction(m, d) * radius &&
      0.0 <= ConeRadiusAt(height, radius, p.y) <= radius &&
      InCone(p, height, radius)
  {
    TreeHeightInCone(m, height, radius, d);
    TreeDistanceInDisc(m, height, radius, d);
  }

  /** The sample's height lies in (-height/2, height/2] and the cone's radius
    * there is h * radius, in [0, radius]. */
  lemma TreeHeightInCone(m: MathLib, height: real, radius: real, d: TreeDraws)
    requires Lawful(m) && height > 0.0 && radius >= 0.0
    ensures var p := TreePoint(m, height, radius, d);
      -height / 2.0 < p.y <= height / 2.0 &&
      ConeRadiusAt(height, radius, p.y) == HeightFraction(m, d) * radius &&
      0.0 <= HeightFraction(m, d) * radius <= radius
  {
    var h := HeightFraction(m, d);
    assert 0.0 <= h < 1.0;
    var hH := h * height;
    MulNonneg(h, height);
    MulStrict(h, height);
    assert TreePoint(m, height, radius, d).y == height / 2.0 - hH;
    ConeRadiusOfFraction(height, radius, h);
    MulNonneg(h, radius);
    MulMono(h, 1.0, radius);
  }

  /** The sample's distance from the axis is at most the disc radius h * radius. */
  lemma TreeDistanceInDisc(m: MathLib, height: real, radius: real, d: TreeDraws)
    requires Lawful(m) && radius >= 0.0
    ensures HorizontalSquared(TreePoint(m, height, radius, d)) <=
            (HeightFraction(m, d) * radius) * (HeightFraction(m, d) * radius)
  {
    var p := TreePoint(m, height, radius, d);
    var h := HeightFraction(m, d);
    assert 0.0 <= h < 1.0;
    var cr := h * radius;
    MulNonneg(h, radius);
    var angle := d.angle * PI * 2.0;
    var s := m.sqrt(d.radial);
    assert 0.0 <= s < 1.0;
    var r := s * cr;
    MulNonneg(s, cr);
    MulMono(s, 1.0, cr);
    var c, sn := m.cos(angle), m.sin(angle);
    assert sn * sn + c * c == 1.0;
    CircleNorm(r, c, sn);
    assert HorizontalSquared(p) == r * r;
    SquareMono(r, cr);
  }

  /** At y = height/2 - h * height, the cone's radius is h * radius. */
  lemma ConeRadiusOfFraction(height: real, radius: real, h: real)
    requires height > 0.0
    ensures ConeRadiusAt(height, radius, height / 2.0 - h * height) == h * radius
  {
    var y := height / 2.0 - h * height;
    assert height / 2.0 - y == h * height;
    assert radius * (h * height) == (h * radius) * height;
  }

  lemma CircleNorm(r: real, c: real, s: real)
    requires s * s + c * c == 1.0
    ensures (c * r) * (c * r) + (s * r) * (s * r) == r * r
  {
    var r2 := r * r;
    assert (c * r) * (c * r) == r2 * (c * c);
    assert (s * r) * (s * r) == r2 * (s * s);
    assert r2 * (c * c) + r2 * (s * s) == r2 * (s * s + c * c);
  }

  // ---------------------------------------------------------------------
  // getSpiralTreePoint

  /** Fraction of the way up the spiral: index / total. */
  function SpiralFraction(index: int, total: int): real
    requires total != 0
  {
    index as real / total as real
  }

  /** Radius of the spiral at this index: (1 - index / total) * radius. */
  function SpiralRadius(radius: real, index: int, total: int): real
    requires total != 0
  {
    (1.0 - SpiralFraction(index, total)) * radius
  }

  /** `getSpiralTreePoint(height, radius, index, total)`: a deterministic
    * point climbing from the base (index 0) to the apex (index total) while
    * turning by half a radian per index. */
  function SpiralPoint(m: MathLib, height: real, radius: real, index: int, total: int): Vec3
    requires total != 0
  {
    var y := SpiralFraction(index, total) * height - height / 2.0;
    var currentRadius := SpiralRadius(radius, index, total);
    var angle := index as real * 0.5;
    Vec3(m.cos(angle) * currentRadius, y, m.sin(angle) * currentRadius)
  }

  /** For 0 <= index <= total the spiral point stays within the tree's
    * vertical extent, its radius is in [0, radius], and its distance from
    * the axis is exactly that radius. Index 0 is the full-width base,
    * index total the apex. */
  lemma SpiralPointBounds(m: MathLib, height: real, radius: real, index: int, total: int)
    requires Lawful(m) && total != 0 && 0 <= index <= total
    requires height >= 0.0 && radius >= 0.0
    ensures var p := SpiralPoint(m, height, radius, index, total);
      -height / 2.0 <= p.y <= height / 2.0 &&
      0.0 <= SpiralRadius(radius, index, total) <= radius &&
      HorizontalSquared(p) == SpiralRadius(radius, index, total) * SpiralRadius(radius, index, total)
    ensures index == 0 ==> SpiralPoint(m, height, radius, index, total).y == -height / 2.0 &&
                           SpiralRadius(radius, index, total) == radius
    ensures index == total ==> SpiralPoint(m, height, radius, index, total).y == height / 2.0 &&
                               SpiralRadius(radius, index, total) == 0.0
  {
    SpiralHeightRange(height, index, total);
    SpiralRadiusRange(radius, index, total);
    SpiralOnCircle(m, height, radius, index, total);
  }

  lemma SpiralHeightRange(height: real, index: int, total: int)
    requires total != 0 && 0 <= index <= total && height >= 0.0
    ensures -height / 2.0 <= SpiralFraction(index, total) * height - height / 2.0 <= height / 2.0
    ensures index == 0 ==> SpiralFraction(index, total) * height - height / 2.0 == -height / 2.0
    ensures index == total ==> SpiralFraction(index, total) * height - height / 2.0 == height / 2.0
  {
    FractionInUnit(index, total);
    MulNonneg(SpiralFraction(index, total), height);
    MulMono(SpiralFraction(index, total), 1.0, height);
  }

  lemma SpiralRadiusRange(radius: real, index: int, total: int)
    requires total != 0 && 0 <= index <= total && radius >= 0.0
    ensures 0.0 <= SpiralRadius(radius, index, total) <= radius
    ensures index == 0 ==> SpiralRadius(radius, index, total) == radius
    ensures index == total ==> SpiralRadius(radius, index, total) == 0.0
  {
    var f := SpiralFraction(index, total);
    FractionInUnit(index, total);
    MulNonneg(1.0 - f, radius);
    MulMono(1.0 - f, 1.0, radius);
  }

  lemma SpiralOnCircle(m: MathLib, height: real, radius: real, index: int, total: int)
    requires Lawful(m) && total != 0
    ensures HorizontalSquared(SpiralPoint(m, height, radius, index, total)) ==
            SpiralRadius(radius, index, total) * SpiralRadius(radius, index, total)
  {
    var cr := SpiralRadius(radius, index, total);
    var angle := index as real * 0.5;
    var c, s := m.cos(angle), m.sin(angle);
    assert s * s + c * c == 1.0;
    CircleNorm(cr, c, s);
  }

  lemma FractionInUnit(index: int, total: int)
    requires total != 0 && 0 <= index <= total
    ensures 0.0 <= SpiralFraction(index, total) <= 1.0
    ensures index == 0 ==> SpiralFraction(index, total) == 0.0
    ensures index == total ==> SpiralFraction(index, total) == 1.0
  {
    var t := total as real;
    var i := index as real;
    assert t > 0.0;
    assert i / t <= t / t;
  }

  /** Walking up the spiral: a later index is never lower and never wider. */
  lemma SpiralMonotone(m: MathLib, height: real, radius: real, i: int, j: int, total: int)
    requires total > 0 && i <= j
    requires height >= 0.0 && radius >= 0.0
    ensures SpiralPoint(m, height, radius, i, total).y <= SpiralPoint(m, height, radius, j, total).y
    ensures SpiralRadius(radius, j, total) <= SpiralRadius(radius, i, total)
  {
    var t := total as real;
    var fi, fj := SpiralFraction(i, total), SpiralFraction(j, total);
    assert fi <= fj by {
      assert fj - fi == (j - i) as real / t;
    }
    MulMono(fi, fj, height);
    MulMono(1.0 - fj, 1.0 - fi, radius);
  }
}
