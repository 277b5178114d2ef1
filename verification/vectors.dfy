/** Points in three dimensions (three.js `Vector3`) over the reals, with the
  * few operations the animation uses, and the flat coordinate layout of a
  * `Float32Array` attribute buffer with item size 3. */
module Vectors {
  import opened Numeric

  datatype Vec3 = Vec3(x: real, y: real, z: real)

  const Origin: Vec3 := Vec3(0.0, 0.0, 0.0)

  function Add(p: Vec3, q: Vec3): Vec3
  {
    Vec3(p.x + q.x, p.y + q.y, p.z + q.z)
  }

  /** `multiplyScalar`. */
  function Scale(p: Vec3, k: real): Vec3
  {
    Vec3(p.x * k, p.y * k, p.z * k)
  }

  /** Coordinate i of p: x, y and z for i = 0, 1, 2. */
  function Coord(p: Vec3, i: nat): real
    requires i < 3
  {
    if i == 0 then p.x else if i == 1 then p.y else p.z
  }

  /** GLSL `mix` on vec3, and three.js `lerpVectors`: both interpolate each
    * coordinate, and over the reals they agree. */
  function Lerp(a: Vec3, b: Vec3, t: real): Vec3
  {
    Vec3(Mix(a.x, b.x, t), Mix(a.y, b.y, t), Mix(a.z, b.z, t))
  }

  function NormSquared(p: Vec3): real
  {
    p.x * p.x + p.y * p.y + p.z * p.z
  }

  /** Squared distance from the vertical (y) axis. */
  function HorizontalSquared(p: Vec3): real
  {
    p.x * p.x + p.z * p.z
  }

  /** Every coordinate of p lies between the corresponding coordinates of a and b. */
  predicate InBox(p: Vec3, a: Vec3, b: Vec3)
  {
    Min(a.x, b.x) <= p.x <= Max(a.x, b.x) &&
    Min(a.y, b.y) <= p.y <= Max(a.y, b.y) &&
    Min(a.z, b.z) <= p.z <= Max(a.z, b.z)
  }

  /** Interpolating with t in [0, 1] gives a point of the segment from a to b:
    * a itself at t = 0, b itself at t = 1, and in between coordinate-wise
    * between the two ends. */
  lemma LerpConvex(a: Vec3, b: Vec3, t: real)
    requires 0.0 <= t <= 1.0
    ensures Lerp(a, b, 0.0) == a && Lerp(a, b, 1.0) == b
    ensures InBox(Lerp(a, b, t), a, b)
  {
    MixConvex(a.x, b.x, t);
    MixConvex(a.y, b.y, t);
    MixConvex(a.z, b.z, t);
  }

  /** Scaling a point by k scales its squared norm by k * k. */
  lemma ScaleNormSquared(p: Vec3, k: real)
    ensures NormSquared(Scale(p, k)) == k * k * NormSquared(p)
    ensures HorizontalSquared(Scale(p, k)) == k * k * HorizontalSquared(p)
  {
    assert (p.x * k) * (p.x * k) == k * k * (p.x * p.x);
    assert (p.y * k) * (p.y * k) == k * k * (p.y * p.y);
    assert (p.z * k) * (p.z * k) == k * k * (p.z * p.z);
  }

  /** The coordinates of a sequence of points, laid out as an attribute
    * buffer with item size 3: x, y, z of the first point, then of the next. */
  function Flatten(ps: seq<Vec3>): (r: seq<real>)
    ensures |r| == 3 * |ps|
  {
    if ps == [] then []
    else
      var last := ps[|ps| - 1];
      Flatten(ps[..|ps| - 1]) + [last.x, last.y, last.z]
  }

  /** Point k of the sequence occupies slots 3k, 3k + 1 and 3k + 2 of the buffer. */
  lemma {:induction false} FlattenAt(ps: seq<Vec3>, k: nat)
    requires k < |ps|
    ensures 3 * k + 2 < |Flatten(ps)|
    ensures Flatten(ps)[3 * k] == ps[k].x
    ensures Flatten(ps)[3 * k + 1] == ps[k].y
    ensures Flatten(ps)[3 * k + 2] == ps[k].z
  {
    var init := ps[..|ps| - 1];
    if k < |ps| - 1 {
      FlattenAt(init, k);
      assert init[k] == ps[k];
    }
  }

  /** Appending a point appends its three coordinates. */
  lemma FlattenSnoc(ps: seq<Vec3>, p: Vec3)
    ensures Flatten(ps + [p]) == Flatten(ps) + [p.x, p.y, p.z]
  {
    assert (ps + [p])[..|ps|] == ps;
  }
}
