/** The foliage particle field of components/Foliage.tsx: a one-scalar
  * morph controller updated every frame, the creation loop that packs the
  * per-particle attribute buffers, and the vertex shader's position
  * arithmetic. */
module Foliage {
  import opened Numeric
  import opened Vectors
  import opened Transcendental
  import opened Sampler
  import opened Easing
  import opened AppStates

  /** Morph speed: the factor moves `delta * 1.5` per frame. */
  const MorphRate: real := 1.5
  /** The update does nothing once the factor is this close to its target. */
  const DeadBand: real := 0.001

  const TreeHeight: real := 12.0
  const TreeRadius: real := 5.0
  const ScatterRadius: real := 15.0

  // ---------------------------------------------------------------------
  // The per-frame morph-factor update

  /** One frame of the `uMorphFactor` update toward `target`. */
  function MorphStep(current: real, target: real, delta: real): real
  {
    var step := delta * MorphRate;
    if Abs(current - target) > DeadBand then
      if current < target then Min(1.0, current + step) else Max(0.0, current - step)
    else current
  }

  /** The factor after n frames of the same length toward the same target. */
  function MorphAfter(current: real, target: real, delta: real, n: nat): real
    decreases n
  {
    if n == 0 then current else MorphAfter(MorphStep(current, target, delta), target, delta, n - 1)
  }

  /** One frame moves the factor toward its target and never past it: it
    * stays in [0, 1], rises toward the tree and falls toward the scattered
    * state, changes by at most one step, does nothing inside the dead-band,
    * and outside it closes the distance by a full step or to zero. */
  lemma MorphStepTowardTarget(c: real, s: AppState, delta: real)
    requires 0.0 <= c <= 1.0 && delta >= 0.0
    ensures var t, n := MorphTarget(s), MorphStep(c, MorphTarget(s), delta);
      0.0 <= n <= 1.0 &&
      Abs(n - c) <= delta * MorphRate &&
      (s == TreeShape ==> c <= n <= t) &&
      (s == Scattered ==> t <= n <= c) &&
      (Abs(c - t) <= DeadBand ==> n == c) &&
      (Abs(c - t) > DeadBand ==> Abs(n - t) == Max(0.0, Abs(c - t) - delta * MorphRate))
  {
  }

  /** Inside the dead-band the factor never moves again. */
  lemma {:induction false} MorphStaysSettled(c: real, s: AppState, delta: real, n: nat)
    requires Abs(c - MorphTarget(s)) <= DeadBand
    ensures MorphAfter(c, MorphTarget(s), delta, n) == c
  {
    if n > 0 {
      MorphStaysSettled(c, s, delta, n - 1);
    }
  }

  /** n frames whose steps add up to the initial distance bring the factor
    * within the dead-band of its target. */
  lemma {:induction false} MorphApproaches(c: real, s: AppState, delta: real, n: nat)
    requires 0.0 <= c <= 1.0 && delta > 0.0
    requires n as real * (delta * MorphRate) >= Abs(c - MorphTarget(s))
    ensures 0.0 <= MorphAfter(c, MorphTarget(s), delta, n) <= 1.0
    ensures Abs(MorphAfter(c, MorphTarget(s), delta, n) - MorphTarget(s)) <= DeadBand
    decreases n
  {
    var t := MorphTarget(s);
    if Abs(c - t) <= DeadBand {
      MorphStaysSettled(c, s, delta, n);
    } else {
      var step := delta * MorphRate;
      assert n > 0;
      var c' := MorphStep(c, t, delta);
      MorphStepTowardTarget(c, s, delta);
      assert (n - 1) as real * step == n as real * step - step;
      MorphApproaches(c', s, delta, n - 1);
    }
  }

  /** From anywhere in [0, 1], after ceil(1 / (1.5 delta)) frames or more the
    * factor is within 0.001 of its target, and it stays there. */
  lemma MorphSettles(c: real, s: AppState, delta: real, n: nat)
    requires 0.0 <= c <= 1.0 && delta > 0.0
    requires n >= FramesToSettle(delta * MorphRate)
    ensures 0.0 <= MorphAfter(c, MorphTarget(s), delta, n) <= 1.0
    ensures Abs(MorphAfter(c, MorphTarget(s), delta, n) - MorphTarget(s)) <= DeadBand
  {
    SettleCovers(delta * MorphRate, n);
    MorphApproaches(c, s, delta, n);
  }

  /** Because of the dead-band the factor need not reach its target exactly:
    * from 0.9995 with the tree as target it never moves again. */
  lemma DeadBandStopsShort(delta: real, n: nat)
    ensures MorphAfter(0.9995, MorphTarget(TreeShape), delta, n) == 0.9995
  {
    MorphStaysSettled(0.9995, TreeShape, delta, n);
  }

  /** The foliage shader material's uniforms: `uTime` and `uMorphFactor`. */
  class FoliageMaterial {
    var time: real
    var morphFactor: real

    ghost predicate Valid()
      reads this
    {
      0.0 <= morphFactor <= 1.0
    }

    /** Both uniforms start at 0: the field mounts scattered. */
    constructor ()
      ensures Valid() && time == 0.0 && morphFactor == 0.0
    {
      time := 0.0;
      morphFactor := 0.0;
    }

    /** The `useFrame` callback: record the clock and move the morph factor
      * one step toward the target of the current application state. */
    method Frame(appState: AppState, elapsedTime: real, delta: real)
      requires Valid() && delta >= 0.0
      modifies this
      ensures Valid()
      ensures time == elapsedTime
      ensures morphFactor == MorphStep(old(morphFactor), MorphTarget(appState), delta)
    {
      time := elapsedTime;
      var targetMorph := if appState == TreeShape then 1.0 else 0.0;
      var currentMorph := morphFactor;
      var step := delta * MorphRate;
      if Abs(currentMorph - targetMorph) > DeadBand {
        if currentMorph < targetMorph {
          morphFactor := Min(1.0, currentMorph + step);
        } else {
          morphFactor := Max(0.0, currentMorph - step);
        }
      }
      MorphStepTowardTarget(currentMorph, appState, delta);
    }
  }

  // ---------------------------------------------------------------------
  // Creation of the attribute buffers

  /** The `Math.random()` draws made for one particle, in call order. */
  datatype ParticleDraws = ParticleDraws(scatter: SphereDraws, tree: TreeDraws, random: Draw, size: Draw)

  /** Point size of one particle: random * 0.8 + 0.2. */
  function ParticleSize(d: ParticleDraws): real
  {
    d.size * 0.8 + 0.2
  }

  /** The random buffer's contents: each particle's phase draw. */
  function RandomValues(ds: seq<ParticleDraws>): (r: seq<real>)
    ensures |r| == |ds|
    ensures forall i :: 0 <= i < |ds| ==> 0.0 <= r[i] < 1.0
  {
    seq(|ds|, i requires 0 <= i < |ds| => ds[i].random)
  }

  /** The size buffer's contents: each particle's size, in [0.2, 1.0). */
  function SizeValues(ds: seq<ParticleDraws>): (r: seq<real>)
    ensures |r| == |ds|
    ensures forall i :: 0 <= i < |ds| ==> 0.2 <= r[i] < 1.0
  {
    seq(|ds|, i requires 0 <= i < |ds| => ParticleSize(ds[i]))
  }

  function ScatterTargets(m: MathLib, ds: seq<ParticleDraws>): (ps: seq<Vec3>)
    ensures |ps| == |ds|
  {
    seq(|ds|, i requires 0 <= i < |ds| => SpherePoint(m, ScatterRadius, ds[i].scatter))
  }

  function TreeTargets(m: MathLib, ds: seq<ParticleDraws>): (ps: seq<Vec3>)
    ensures |ps| == |ds|
  {
    seq(|ds|, i requires 0 <= i < |ds| => TreePoint(m, TreeHeight, TreeRadius, ds[i].tree))
  }

  /** Every particle's scatter target lies strictly inside the ball of radius
    * 15, and its tree target in the cone of height 12 and base radius 5. */
  lemma ParticleTargetsPlaced(m: MathLib, ds: seq<ParticleDraws>, i: nat)
    requires Lawful(m) && i < |ds|
    ensures NormSquared(ScatterTargets(m, ds)[i]) < ScatterRadius * ScatterRadius
    ensures InCone(TreeTargets(m, ds)[i], TreeHeight, TreeRadius)
  {
    SpherePointInBall(m, ScatterRadius, ds[i].scatter);
    TreePointInCone(m, TreeHeight, TreeRadius, ds[i].tree);
  }

  /** The `useMemo` block: five zero-filled buffers, of which the scatter and
    * tree buffers receive each particle's three coordinates at 3i, 3i + 1,
    * 3i + 2 and the random and size buffers its two scalars at i. The
    * position buffer is left as zeros. */
  method CreateGeometry(m: MathLib, count: nat, draws: seq<ParticleDraws>)
    returns (positions: array<real>, scatterPos: array<real>, treePos: array<real>,
             randoms: array<real>, sizes: array<real>)
    requires |draws| == count
    ensures fresh(positions) && fresh(scatterPos) && fresh(treePos) && fresh(randoms) && fresh(sizes)
    ensures positions.Length == 3 * count
    ensures forall k :: 0 <= k < positions.Length ==> positions[k] == 0.0
    ensures scatterPos[..] == Flatten(ScatterTargets(m, draws))
    ensures treePos[..] == Flatten(TreeTargets(m, draws))
    ensures randoms.Length == count && sizes.Length == count
    ensures randoms[..] == RandomValues(draws)
    ensures sizes[..] == SizeValues(draws)
  {
    positions := new real[count * 3](_ => 0.0);
    scatterPos := new real[count * 3](_ => 0.0);
    treePos := new real[count * 3](_ => 0.0);
    randoms := new real[count](_ => 0.0);
    sizes := new real[count](_ => 0.0);

    FillBuffers(m, draws, scatterPos, treePos, randoms, sizes);
  }

  /** The loop of the `useMemo` block: particle i's scatter and tree targets
    * go to slots 3i, 3i + 1, 3i + 2 of their buffers, its two scalars to
    * slot i of theirs. */
  method FillBuffers(m: MathLib, draws: seq<ParticleDraws>,
                     scatterPos: array<real>, treePos: array<real>, randoms: array<real>, sizes: array<real>)
    requires scatterPos.Length == 3 * |draws| && treePos.Length == 3 * |draws|
    requires randoms.Length == |draws| && sizes.Length == |draws|
    requires scatterPos != treePos && scatterPos != randoms && scatterPos != sizes
    requires treePos != randoms && treePos != sizes && randoms != sizes
    modifies scatterPos, treePos, randoms, sizes
    ensures scatterPos[..] == Flatten(ScatterTargets(m, draws))
    ensures treePos[..] == Flatten(TreeTargets(m, draws))
    ensures randoms[..] == RandomValues(draws)
    ensures sizes[..] == SizeValues(draws)
  {
    ghost var scatters, trees := ScatterTargets(m, draws), TreeTargets(m, draws);
    var i := 0;
    while i < |draws|
      invariant 0 <= i <= |draws|
      invariant Filled(scatters, trees, draws, i, scatterPos[..], treePos[..], randoms[..], sizes[..])
    {
      var scatter, tree := SampleParticle(m, draws, i);
      StoreParticle(scatterPos, treePos, randoms, sizes, i, scatter, tree, draws[i].random, draws[i].size * 0.8 + 0.2,
                    scatters, trees, draws);
      i := i + 1;
    }
    FilledAll(scatters, trees, draws, scatterPos[..], treePos[..], randoms[..], sizes[..]);
  }

  /** The two sampler calls of one iteration: particle i's scatter target in
    * the sphere of radius 15 and its tree target in the cone of height 12 and
    * radius 5. */
  method SampleParticle(m: MathLib, draws: seq<ParticleDraws>, i: nat) returns (scatter: Vec3, tree: Vec3)
    requires i < |draws|
    ensures scatter == ScatterTargets(m, draws)[i] && tree == TreeTargets(m, draws)[i]
  {
    scatter := SpherePoint(m, ScatterRadius, draws[i].scatter);
    tree := TreePoint(m, TreeHeight, TreeRadius, draws[i].tree);
  }

  /** The first n particles' entries are in place in the four buffers: the
    * coordinates of the first n scatter and tree targets, and the first n
    * random and size values. */
  ghost predicate Filled(scatters: seq<Vec3>, trees: seq<Vec3>, draws: seq<ParticleDraws>, n: nat,
                         sp: seq<real>, tp: seq<real>, rs: seq<real>, ss: seq<real>)
  {
    n <= |scatters| && n <= |trees| && n <= |draws| &&
    3 * n <= |sp| && 3 * n <= |tp| && n <= |rs| && n <= |ss| &&
    sp[..3 * n] == Flatten(scatters[..n]) &&
    tp[..3 * n] == Flatten(trees[..n]) &&
    rs[..n] == RandomValues(draws[..n]) &&
    ss[..n] == SizeValues(draws[..n])
  }

  /** Appending particle i's entries to buffers filled up to i fills them up
    * to i + 1. */
  lemma FilledStep(scatters: seq<Vec3>, trees: seq<Vec3>, draws: seq<ParticleDraws>, i: nat,
                   sp: seq<real>, tp: seq<real>, rs: seq<real>, ss: seq<real>,
                   sp': seq<real>, tp': seq<real>, rs': seq<real>, ss': seq<real>)
    requires i < |scatters| && i < |trees| && i < |draws|
    requires Filled(scatters, trees, draws, i, sp, tp, rs, ss)
    requires 3 * i + 3 <= |sp'| && 3 * i + 3 <= |tp'| && i < |rs'| && i < |ss'|
    requires sp'[..3 * i + 3] == sp[..3 * i] + [scatters[i].x, scatters[i].y, scatters[i].z]
    requires tp'[..3 * i + 3] == tp[..3 * i] + [trees[i].x, trees[i].y, trees[i].z]
    requires rs'[..i + 1] == rs[..i] + [draws[i].random]
    requires ss'[..i + 1] == ss[..i] + [ParticleSize(draws[i])]
    ensures Filled(scatters, trees, draws, i + 1, sp', tp', rs', ss')
  {
    assert scatters[..i + 1] == scatters[..i] + [scatters[i]];
    assert trees[..i + 1] == trees[..i] + [trees[i]];
    FlattenSnoc(scatters[..i], scatters[i]);
    FlattenSnoc(trees[..i], trees[i]);
    ScalarsSnoc(draws, i);
  }

  /** Buffers of exactly the right lengths, filled up to the last particle,
    * hold exactly the buffer contents. */
  lemma FilledAll(scatters: seq<Vec3>, trees: seq<Vec3>, draws: seq<ParticleDraws>,
                  sp: seq<real>, tp: seq<real>, rs: seq<real>, ss: seq<real>)
    requires |scatters| == |draws| && |trees| == |draws|
    requires |sp| == 3 * |draws| && |tp| == 3 * |draws| && |rs| == |draws| && |ss| == |draws|
    requires Filled(scatters, trees, draws, |draws|, sp, tp, rs, ss)
    ensures sp == Flatten(scatters) && tp == Flatten(trees)
    ensures rs == RandomValues(draws) && ss == SizeValues(draws)
  {
    assert draws[..|draws|] == draws;
    assert scatters[..|draws|] == scatters && trees[..|draws|] == trees;
    assert sp[..3 * |draws|] == sp && tp[..3 * |draws|] == tp;
    assert rs[..|draws|] == rs && ss[..|draws|] == ss;
  }

  /** Extending the particles by one appends that particle's two scalars. */
  lemma ScalarsSnoc(draws: seq<ParticleDraws>, i: nat)
    requires i < |draws|
    ensures RandomValues(draws[..i + 1]) == RandomValues(draws[..i]) + [draws[i].random]
    ensures SizeValues(draws[..i + 1]) == SizeValues(draws[..i]) + [ParticleSize(draws[i])]
  {
    assert draws[..i + 1] == draws[..i] + [draws[i]];
  }

  /** One iteration's writes: p's coordinates to slots 3i, 3i + 1, 3i + 2 of
    * the scatter buffer, q's to the same slots of the tree buffer, and the
    * scalars r and sz to slot i of the random and size buffers. With p, q, r
    * and sz particle i's entries, buffers filled up to i are then filled up
    * to i + 1. */
  method StoreParticle(scatterPos: array<real>, treePos: array<real>, randoms: array<real>, sizes: array<real>,
                       i: nat, p: Vec3, q: Vec3, r: real, sz: real,
                       ghost scatters: seq<Vec3>, ghost trees: seq<Vec3>, ghost draws: seq<ParticleDraws>)
    requires 3 * i + 3 <= scatterPos.Length && 3 * i + 3 <= treePos.Length
    requires i < randoms.Length && i < sizes.Length
    requires scatterPos != treePos && scatterPos != randoms && scatterPos != sizes
    requires treePos != randoms && treePos != sizes && randoms != sizes
    requires i < |scatters| && i < |trees| && i < |draws|
    requires p == scatters[i] && q == trees[i] && r == draws[i].random && sz == ParticleSize(draws[i])
    requires Filled(scatters, trees, draws, i, scatterPos[..], treePos[..], randoms[..], sizes[..])
    modifies scatterPos, treePos, randoms, sizes
    ensures Filled(scatters, trees, draws, i + 1, scatterPos[..], treePos[..], randoms[..], sizes[..])
  {
    ghost var sp, tp, rs, ss := scatterPos[..], treePos[..], randoms[..], sizes[..];
    scatterPos[i * 3] := p.x;
    scatterPos[i * 3 + 1] := p.y;
    scatterPos[i * 3 + 2] := p.z;
    treePos[i * 3] := q.x;
    treePos[i * 3 + 1] := q.y;
    treePos[i * 3 + 2] := q.z;
    randoms[i] := r;
    sizes[i] := sz;
    assert scatterPos[..3 * i + 3] == sp[..3 * i] + [p.x, p.y, p.z];
    assert treePos[..3 * i + 3] == tp[..3 * i] + [q.x, q.y, q.z];
    assert randoms[..i + 1] == rs[..i] + [r];
    assert sizes[..i + 1] == ss[..i] + [sz];
    FilledStep(scatters, trees, draws, i, sp, tp, rs, ss, scatterPos[..], treePos[..], randoms[..], sizes[..]);
  }

  // ---------------------------------------------------------------------
  // The vertex shader's position arithmetic

  /** The per-particle noise vector: three sinusoids of the clock, phase
    * shifted by the particle's random scalar, scaled by 0.2. */
  function Noise(m: MathLib, random: real, time: real): Vec3
  {
    Scale(Vec3(m.sin(time * 2.0 + random * 10.0),
               m.cos(time * 1.5 + random * 20.0),
               m.sin(time * 1.8 + random * 5.0)), 0.2)
  }

  /** `movementScale = mix(1.0, 0.1, easeInOutCubic(uMorphFactor))`. */
  function MovementScale(morph: real): real
  {
    Mix(1.0, 0.1, EaseInOutCubic(morph))
  }

  /** `currentPos`: the eased interpolation between the particle's scatter
    * and tree targets plus its noise scaled by the movement scale. */
  function DisplayedPosition(m: MathLib, scatter: Vec3, tree: Vec3, random: real, time: real, morph: real): Vec3
  {
    Add(Lerp(scatter, tree, EaseInOutCubic(morph)), Scale(Noise(m, random, time), MovementScale(morph)))
  }

  /** `vAlpha = 0.6 + 0.4 * sin(uTime + aRandom * 10.0)`. */
  function Alpha(m: MathLib, random: real, time: real): real
  {
    0.6 + 0.4 * m.sin(time + random * 10.0)
  }

  /** The movement scale stays in [0.1, 1]: from 1 when fully scattered
    * (chaotic motion) to 0.1 when assembled (breathing). */
  lemma MovementScaleRange(morph: real)
    requires 0.0 <= morph <= 1.0
    ensures 0.1 <= MovementScale(morph) <= 1.0
  {
    EaseRange(morph);
    var t := EaseInOutCubic(morph);
    assert MovementScale(morph) == 1.0 - 0.9 * t;
  }

  /** The movement scale falls as the morph factor rises, from exactly 1 at
    * 0 to exactly 0.1 at 1. */
  lemma MovementScaleMonotone(morph: real, later: real)
    requires 0.0 <= morph <= later <= 1.0
    ensures MovementScale(later) <= MovementScale(morph)
    ensures MovementScale(0.0) == 1.0 && MovementScale(1.0) == 0.1
  {
    EaseEnds();
    EaseMonotone(morph, later);
    var t, u := EaseInOutCubic(morph), EaseInOutCubic(later);
    assert MovementScale(morph) == 1.0 - 0.9 * t;
    assert MovementScale(later) == 1.0 - 0.9 * u;
  }

  /** The displayed position is the point of the scatter-to-tree segment
    * selected by the eased factor, displaced by at most 0.2 times the
    * movement scale in each coordinate. */
  lemma DisplayedPositionBounds(m: MathLib, scatter: Vec3, tree: Vec3, random: real, time: real, morph: real)
    requires Lawful(m) && 0.0 <= morph <= 1.0
    ensures var p, base, k := DisplayedPosition(m, scatter, tree, random, time, morph),
                              Lerp(scatter, tree, EaseInOutCubic(morph)), MovementScale(morph);
      InBox(base, scatter, tree) &&
      Abs(p.x - base.x) <= 0.2 * k && Abs(p.y - base.y) <= 0.2 * k && Abs(p.z - base.z) <= 0.2 * k
  {
    EaseRange(morph);
    LerpConvex(scatter, tree, EaseInOutCubic(morph));
    MovementScaleRange(morph);
    NoiseBounded(m, random, time, MovementScale(morph));
    OffsetWithin(Lerp(scatter, tree, EaseInOutCubic(morph)), Scale(Noise(m, random, time), MovementScale(morph)),
                 0.2 * MovementScale(morph));
  }

  lemma OffsetWithin(base: Vec3, d: Vec3, b: real)
    requires Abs(d.x) <= b && Abs(d.y) <= b && Abs(d.z) <= b
    ensures var p := Add(base, d);
      Abs(p.x - base.x) <= b && Abs(p.y - base.y) <= b && Abs(p.z - base.z) <= b
  {
    var p := Add(base, d);
    assert p.x - base.x == d.x && p.y - base.y == d.y && p.z - base.z == d.z;
  }

  /** Fully scattered, a particle shows its scatter target plus the full
    * noise; fully assembled, its tree target plus a tenth of the noise. */
  lemma DisplayedPositionEnds(m: MathLib, scatter: Vec3, tree: Vec3, random: real, time: real)
    ensures DisplayedPosition(m, scatter, tree, random, time, 0.0) == Add(scatter, Noise(m, random, time))
    ensures DisplayedPosition(m, scatter, tree, random, time, 1.0) == Add(tree, Scale(Noise(m, random, time), 0.1))
  {
    EaseEnds();
    LerpConvex(scatter, tree, 0.0);
    var n := Noise(m, random, time);
    assert Mix(1.0, 0.1, 0.0) == 1.0 && Mix(1.0, 0.1, 1.0) == 0.1;
    assert Scale(n, 1.0) == n;
  }

  /** Each coordinate of the noise vector scaled by k >= 0 lies within 0.2 k
    * of zero. */
  lemma NoiseBounded(m: MathLib, random: real, time: real, k: real)
    requires Lawful(m) && k >= 0.0
    ensures var d := Scale(Noise(m, random, time), k);
      Abs(d.x) <= 0.2 * k && Abs(d.y) <= 0.2 * k && Abs(d.z) <= 0.2 * k
  {
    var n := Noise(m, random, time);
    assert -1.0 <= m.sin(time * 2.0 + random * 10.0) <= 1.0;
    assert -1.0 <= m.cos(time * 1.5 + random * 20.0) <= 1.0;
    assert -1.0 <= m.sin(time * 1.8 + random * 5.0) <= 1.0;
    ScaledBox(n, k);
  }

  /** A vector within 0.2 of zero in each coordinate, scaled by k >= 0, is
    * within 0.2 k of zero in each coordinate. */
  lemma ScaledBox(n: Vec3, k: real)
    requires -0.2 <= n.x <= 0.2 && -0.2 <= n.y <= 0.2 && -0.2 <= n.z <= 0.2 && k >= 0.0
    ensures var d := Scale(n, k);
      Abs(d.x) <= 0.2 * k && Abs(d.y) <= 0.2 * k && Abs(d.z) <= 0.2 * k
  {
    var d := Scale(n, k);
    ScaledCoordinate(n.x, k);
    assert Abs(d.x) <= 0.2 * k;
    ScaledCoordinate(n.y, k);
    assert Abs(d.y) <= 0.2 * k;
    ScaledCoordinate(n.z, k);
  }

  lemma ScaledCoordinate(v: real, k: real)
    requires -0.2 <= v <= 0.2 && k >= 0.0
    ensures Abs(v * k) <= 0.2 * k
  {
    MulMono(v, 0.2, k);
    MulMono(-0.2, v, k);
  }

  /** The flicker opacity stays in [0.2, 1]. */
  lemma AlphaRange(m: MathLib, random: real, time: real)
    requires Lawful(m)
    ensures 0.2 <= Alpha(m, random, time) <= 1.0
  {
    assert -1.0 <= m.sin(time + random * 10.0) <= 1.0;
  }

  /** Moving the interpolation parameter from t to u, by at most `bound`,
    * moves each coordinate of the segment point by at most `bound` times the
    * extent of the segment in that coordinate. */
  lemma SegmentShift(a: Vec3, b: Vec3, t: real, u: real, bound: real)
    requires Abs(u - t) <= bound
    ensures forall i :: 0 <= i < 3 ==>
      Abs(Coord(Lerp(a, b, u), i) - Coord(Lerp(a, b, t), i)) <= bound * Abs(Coord(b, i) - Coord(a, i))
  {
    forall i | 0 <= i < 3
      ensures Abs(Coord(Lerp(a, b, u), i) - Coord(Lerp(a, b, t), i)) <= bound * Abs(Coord(b, i) - Coord(a, i))
    {
      var p, q := Coord(a, i), Coord(b, i);
      assert Coord(Lerp(a, b, u), i) == Mix(p, q, u) && Coord(Lerp(a, b, t), i) == Mix(p, q, t);
      MixShift(p, q, t, u, bound);
    }
  }

  /** No snapping: in one frame the eased factor moves by at most three
    * steps, 3 * 1.5 * delta; with SegmentShift every coordinate of every
    * particle's segment point then moves by at most that fraction of the
    * scatter-to-tree extent in that coordinate. */
  lemma MorphFrameContinuity(c: real, s: AppState, delta: real)
    requires 0.0 <= c <= 1.0 && delta >= 0.0
    ensures Abs(EaseInOutCubic(MorphStep(c, MorphTarget(s), delta)) - EaseInOutCubic(c)) <= 3.0 * (delta * MorphRate)
  {
    var n := MorphStep(c, MorphTarget(s), delta);
    MorphStepTowardTarget(c, s, delta);
    if c <= n {
      EaseLipschitz(c, n);
    } else {
      EaseLipschitz(n, c);
    }
  }

  /** Moving the interpolation parameter by at most `bound` moves the
    * interpolated value by at most `bound` times the distance of the ends. */
  lemma MixShift(a: real, b: real, t: real, u: real, bound: real)
    requires Abs(u - t) <= bound
    ensures Abs(Mix(a, b, u) - Mix(a, b, t)) <= bound * Abs(b - a)
  {
    assert Mix(a, b, u) - Mix(a, b, t) == (b - a) * (u - t);
    AbsProduct(b - a, u - t, bound);
  }

  lemma AbsProduct(a: real, b: real, bound: real)
    requires Abs(b) <= bound
    ensures Abs(a * b) <= bound * Abs(a)
  {
    var aa, bb := Abs(a), Abs(b);
    assert Abs(a * b) == aa * bb;
    MulMono(bb, bound, aa);
  }
}
