/** An ornament field of components/Ornaments.tsx: per-instance parameters
  * generated once, a progress scalar `userData.t` stepped every frame
  * toward the target of the application state, and the loop that writes
  * one transform per instance into the instanced mesh's matrix buffer. */
module Ornaments {
  import opened Numeric
  import opened Vectors
  import opened Transcendental
  import opened Sampler
  import opened Easing
  import opened AppStates

  /** The `type` prop: 'BAUBLE' | 'GIFT' | 'LIGHT'. */
  datatype Category = Bauble | Gift | Light

  datatype Option<T> = None | Some(value: T)

  const ScatterRadius: real := 18.0
  const TreeHeight: real := 12.0
  const TreeRadius: real := 5.2
  /** Transition speed: the progress moves `delta * 1.0` per frame. */
  const ProgressRate: real := 1.0

  /** The factor applied to the cone sample: lights are pulled slightly in
    * toward the axis (0.9), baubles and gifts pushed slightly out (1.05). */
  function TreeScale(c: Category): (k: real)
    ensures k > 0.0
    ensures c == Light <==> k < 1.0
    ensures c != Light ==> k > 1.0
  {
    if c == Light then 0.9 else 1.05
  }

  // ---------------------------------------------------------------------
  // Instance data

  /** The `Math.random()` draws made for one instance, in call order: three
    * by `getRandomSpherePoint`, three by `getTreePoint`, then scale,
    * rotation speed and phase. */
  datatype OrnamentDraws = OrnamentDraws(scatter: SphereDraws, tree: TreeDraws,
                                         scale: Draw, rotationSpeed: Draw, phase: Draw)

  datatype Instance = Instance(scatterPos: Vec3, treePos: Vec3, scale: real, rotationSpeed: real, phase: real)

  /** One element of the `data` array: a scatter target in the sphere of
    * radius 18, a tree target in the cone of height 12 and radius 5.2 scaled
    * by the category's factor, a scale in [0.5, 1), a rotation speed in
    * [0, 0.02) and a phase in [0, 2 pi). */
  function MakeInstance(m: MathLib, c: Category, d: OrnamentDraws): (o: Instance)
    ensures 0.5 <= o.scale < 1.0
    ensures 0.0 <= o.rotationSpeed < 0.02
    ensures 0.0 <= o.phase < 2.0 * PI
  {
    Instance(SpherePoint(m, ScatterRadius, d.scatter),
             Scale(TreePoint(m, TreeHeight, TreeRadius, d.tree), TreeScale(c)),
             d.scale * 0.5 + 0.5,
             d.rotationSpeed * 0.02,
             d.phase * PI * 2.0)
  }

  /** The `useMemo` block: one instance per draw, in order. */
  function MakeInstances(m: MathLib, c: Category, ds: seq<OrnamentDraws>): (os: seq<Instance>)
    ensures |os| == |ds|
  {
    seq(|ds|, i requires 0 <= i < |ds| => MakeInstance(m, c, ds[i]))
  }

  /** Every instance's scatter target lies strictly inside the ball of radius
    * 18, and its tree target in the cone of height 12 and radius 5.2 scaled
    * by the category's factor about the origin. */
  lemma InstancePlacement(m: MathLib, c: Category, d: OrnamentDraws)
    requires Lawful(m)
    ensures var o := MakeInstance(m, c, d);
      NormSquared(o.scatterPos) < ScatterRadius * ScatterRadius &&
      InCone(o.treePos, TreeScale(c) * TreeHeight, TreeScale(c) * TreeRadius)
  {
    SpherePointInBall(m, ScatterRadius, d.scatter);
    TreePointInCone(m, TreeHeight, TreeRadius, d.tree);
    ScaledCone(TreePoint(m, TreeHeight, TreeRadius, d.tree), TreeHeight, TreeRadius, TreeScale(c));
  }

  /** Scaling a point of a cone by k > 0 gives a point of the cone scaled by k. */
  lemma ScaledCone(p: Vec3, height: real, radius: real, k: real)
    requires InCone(p, height, radius) && k > 0.0
    ensures InCone(Scale(p, k), k * height, k * radius)
  {
    ScaledConeHeight(p, height, radius, k);
    ScaledConeWidth(p, height, radius, k);
  }

  lemma ScaledConeHeight(p: Vec3, height: real, radius: real, k: real)
    requires InCone(p, height, radius) && k > 0.0
    ensures k * height > 0.0
    ensures -(k * height) / 2.0 <= Scale(p, k).y <= (k * height) / 2.0
  {
    ScaledHeight(p.y, height, k);
  }

  lemma ScaledConeWidth(p: Vec3, height: real, radius: real, k: real)
    requires InCone(p, height, radius) && k > 0.0
    ensures k * height != 0.0
    ensures 0.0 <= ConeRadiusAt(k * height, k * radius, Scale(p, k).y)
    ensures HorizontalSquared(Scale(p, k)) <=
            ConeRadiusAt(k * height, k * radius, Scale(p, k).y) * ConeRadiusAt(k * height, k * radius, Scale(p, k).y)
  {
    MulPos(k, height);
    ScaledConeRadiusAt(p, height, radius, k);
    ScaledDisc(p, ConeRadiusAt(height, radius, p.y), k);
    SquareOfEqual(ConeRadiusAt(k * height, k * radius, Scale(p, k).y), k * ConeRadiusAt(height, radius, p.y));
  }

  lemma ScaledConeRadiusAt(p: Vec3, height: real, radius: real, k: real)
    requires height > 0.0 && k > 0.0
    ensures k * height != 0.0
    ensures ConeRadiusAt(k * height, k * radius, Scale(p, k).y) == k * ConeRadiusAt(height, radius, p.y)
  {
    MulPos(k, height);
    ScaledConeRadius(height, radius, p.y, k);
    assert Scale(p, k).y == p.y * k;
  }

  lemma SquareOfEqual(a: real, b: real)
    requires a == b
    ensures a * a == b * b
  {
  }

  lemma ScaledDisc(p: Vec3, c: real, k: real)
    requires 0.0 <= c && HorizontalSquared(p) <= c * c && k > 0.0
    ensures 0.0 <= k * c
    ensures HorizontalSquared(Scale(p, k)) <= (k * c) * (k * c)
  {
    MulNonneg(k, c);
    ScaleNormSquared(p, k);
    ScaledSquare(HorizontalSquared(p), c, k);
  }

  lemma ScaledHeight(y: real, height: real, k: real)
    requires -height / 2.0 <= y <= height / 2.0 && height > 0.0 && k > 0.0
    ensures k * height > 0.0
    ensures -(k * height) / 2.0 <= y * k <= (k * height) / 2.0
  {
    MulPos(k, height);
    MulMono(y, height / 2.0, k);
    MulMono(-height / 2.0, y, k);
  }

  lemma ScaledConeRadius(height: real, radius: real, y: real, k: real)
    requires height > 0.0 && k > 0.0
    ensures ConeRadiusAt(k * height, k * radius, y * k) == k * ConeRadiusAt(height, radius, y)
  {
    var a := height / 2.0 - y;
    var c := ConeRadiusAt(height, radius, y);
    assert c * height == radius * a;
    var kh := k * height;
    MulPos(k, height);
    var x := ConeRadiusAt(kh, k * radius, y * k);
    assert kh / 2.0 - y * k == k * a;
    assert x * kh == (k * radius) * (k * a);
    assert (k * radius) * (k * a) == (k * k) * (radius * a);
    assert (k * c) * kh == (k * k) * (c * height);
  }

  lemma ScaledSquare(h: real, c: real, k: real)
    requires h <= c * c && k > 0.0
    ensures k * k * h <= (k * c) * (k * c)
  {
    var kk := k * k;
    MulNonneg(k, k);
    MulMono(h, c * c, kk);
    assert (k * c) * (k * c) == kk * (c * c);
  }

  // ---------------------------------------------------------------------
  // The per-frame progress update

  /** One frame of the `userData.t` update toward `target`: up by one step
    * but not past the target, down by one step but not past it, or nothing
    * when already there. */
  function ProgressStep(t: real, target: real, delta: real): real
  {
    var step := delta * ProgressRate;
    if t < target then Min(target, t + step)
    else if t > target then Max(target, t - step)
    else t
  }

  /** The progress after n frames of the same length toward the same target. */
  function ProgressAfter(t: real, target: real, delta: real, n: nat): real
    decreases n
  {
    if n == 0 then t else ProgressAfter(ProgressStep(t, target, delta), target, delta, n - 1)
  }

  /** `userData.t` as the update reads it: an absent value counts as 0. */
  function Progress(t: Option<real>): real
  {
    if t.Some? then t.value else 0.0
  }

  /** One frame moves the progress toward its target and never past it: it
    * stays in [0, 1], rises toward the tree and falls toward the scattered
    * state, changes by at most one step, and closes the distance by a full
    * step or to exactly zero. */
  lemma ProgressStepTowardTarget(t: real, s: AppState, delta: real)
    requires 0.0 <= t <= 1.0 && delta >= 0.0
    ensures var g, n := MorphTarget(s), ProgressStep(t, MorphTarget(s), delta);
      0.0 <= n <= 1.0 &&
      Abs(n - t) <= delta * ProgressRate &&
      (s == TreeShape ==> t <= n <= g) &&
      (s == Scattered ==> g <= n <= t) &&
      Abs(n - g) == Max(0.0, Abs(t - g) - delta * ProgressRate)
  {
  }

  /** At the target the progress never moves again. */
  lemma {:induction false} ProgressStaysAtTarget(s: AppState, delta: real, n: nat)
    ensures ProgressAfter(MorphTarget(s), MorphTarget(s), delta, n) == MorphTarget(s)
  {
    if n > 0 {
      ProgressStaysAtTarget(s, delta, n - 1);
    }
  }

  /** n frames whose steps add up to the initial distance bring the progress
    * exactly to its target: there is no dead-band. */
  lemma {:induction false} ProgressReaches(t: real, s: AppState, delta: real, n: nat)
    requires 0.0 <= t <= 1.0 && delta > 0.0
    requires n as real * (delta * ProgressRate) >= Abs(t - MorphTarget(s))
    ensures ProgressAfter(t, MorphTarget(s), delta, n) == MorphTarget(s)
    decreases n
  {
    var g := MorphTarget(s);
    if t == g {
      ProgressStaysAtTarget(s, delta, n);
    } else {
      var step := delta * ProgressRate;
      assert n > 0;
      ProgressStepTowardTarget(t, s, delta);
      assert (n - 1) as real * step == n as real * step - step;
      ProgressReaches(ProgressStep(t, g, delta), s, delta, n - 1);
    }
  }

  /** From anywhere in [0, 1], after ceil(1 / delta) frames or more the
    * progress equals its target exactly. */
  lemma ProgressSettles(t: real, s: AppState, delta: real, n: nat)
    requires 0.0 <= t <= 1.0 && delta > 0.0
    requires n >= FramesToSettle(delta * ProgressRate)
    ensures ProgressAfter(t, MorphTarget(s), delta, n) == MorphTarget(s)
  {
    SettleCovers(delta * ProgressRate, n);
    ProgressReaches(t, s, delta, n);
  }

  /** In one frame the eased progress moves by at most three steps. */
  lemma ProgressFrameContinuity(t: real, s: AppState, delta: real)
    requires 0.0 <= t <= 1.0 && delta >= 0.0
    ensures Abs(EaseInOutCubic(ProgressStep(t, MorphTarget(s), delta)) - EaseInOutCubic(t)) <= 3.0 * (delta * ProgressRate)
  {
    var n := ProgressStep(t, MorphTarget(s), delta);
    ProgressStepTowardTarget(t, s, delta);
    if t <= n {
      EaseLipschitz(t, n);
    } else {
      EaseLipschitz(n, t);
    }
  }

  // ---------------------------------------------------------------------
  // The per-instance transform

  /** What `updateMatrix` composes into an instance matrix: position, the
    * three Euler angles, and a uniform scale. */
  datatype Transform = Transform(position: Vec3, rotation: Vec3, scale: real)

  /** An instanced mesh starts with identity matrices. */
  const Identity: Transform := Transform(Origin, Origin, 1.0)

  /** Vertical floating amplitude: less in tree form. */
  function FloatAmplitudeY(isTree: bool): real
  {
    if isTree then 0.05 else 0.5
  }

  /** Horizontal floating amplitude: less in tree form. */
  function FloatAmplitudeX(isTree: bool): real
  {
    if isTree then 0.02 else 0.3
  }

  /** The floating offset added to the interpolated position: x by the
    * cosine wave, y by the sine wave, z untouched. */
  function FloatOffset(m: MathLib, o: Instance, time: real, isTree: bool): Vec3
  {
    Vec3(m.cos(time * 0.5 + o.phase) * FloatAmplitudeX(isTree), m.sin(time + o.phase) * FloatAmplitudeY(isTree), 0.0)
  }

  /** The lights' flicker multiplier 0.8 + 0.4 sin(10 time + phase). */
  function Flicker(m: MathLib, time: real, phase: real): real
  {
    0.8 + 0.4 * m.sin(time * 10.0 + phase)
  }

  /** The scale written to the matrix: lights flicker, the others keep theirs. */
  function DisplayedScale(m: MathLib, c: Category, o: Instance, time: real): real
  {
    if c == Light then o.scale * Flicker(m, time, o.phase) else o.scale
  }

  /** One iteration of the `forEach`: the eased interpolation of the two
    * targets plus the floating offset, all three angles time * speed, and
    * the displayed scale. */
  function InstanceTransform(m: MathLib, c: Category, o: Instance, time: real, isTree: bool, eased: real): Transform
  {
    var spin := time * o.rotationSpeed;
    Transform(Add(Lerp(o.scatterPos, o.treePos, eased), FloatOffset(m, o, time, isTree)),
              Vec3(spin, spin, spin),
              DisplayedScale(m, c, o, time))
  }

  /** The whole matrix buffer after one frame: instance i's transform at i. */
  function Transforms(m: MathLib, c: Category, data: seq<Instance>, time: real, isTree: bool, eased: real): (ts: seq<Transform>)
    ensures |ts| == |data|
  {
    seq(|data|, i requires 0 <= i < |data| => InstanceTransform(m, c, data[i], time, isTree, eased))
  }

  /** The flicker multiplier stays in [0.4, 1.2]. */
  lemma FlickerRange(m: MathLib, time: real, phase: real)
    requires Lawful(m)
    ensures 0.4 <= Flicker(m, time, phase) <= 1.2
  {
    assert -1.0 <= m.sin(time * 10.0 + phase) <= 1.0;
  }

  /** With a generated scale in [0.5, 1), a light's displayed scale lies in
    * [0.2, 1.2) and the others' in [0.5, 1). */
  lemma DisplayedScaleRange(m: MathLib, c: Category, o: Instance, time: real)
    requires Lawful(m) && 0.5 <= o.scale < 1.0
    ensures c == Light ==> 0.2 <= DisplayedScale(m, c, o, time) < 1.2
    ensures c != Light ==> 0.5 <= DisplayedScale(m, c, o, time) < 1.0
  {
    var w := m.sin(time * 10.0 + o.phase);
    assert -1.0 <= w <= 1.0;
    FlickeringScale(o.scale, w);
  }

  lemma FlickeringScale(s: real, w: real)
    requires 0.5 <= s < 1.0 && -1.0 <= w <= 1.0
    ensures 0.2 <= s * (0.8 + 0.4 * w) < 1.2
  {
    MulMono(w, 1.0, s);
    MulMono(-1.0, w, s);
    var ws := w * s;
    assert -s <= ws <= s;
    assert s * (0.8 + 0.4 * w) == 0.8 * s + 0.4 * ws;
    assert 0.8 * s + 0.4 * ws <= 1.2 * s < 1.2;
    assert 0.8 * s + 0.4 * ws >= 0.4 * s >= 0.2;
  }

  /** For an eased value in [0, 1] the position is a point of the
    * scatter-to-tree segment displaced by at most the floating amplitudes
    * in x and y and not at all in z; all three angles are time * speed. */
  lemma TransformBounds(m: MathLib, c: Category, o: Instance, time: real, isTree: bool, eased: real)
    requires Lawful(m) && 0.0 <= eased <= 1.0
    ensures var x, base := InstanceTransform(m, c, o, time, isTree, eased), Lerp(o.scatterPos, o.treePos, eased);
      InBox(base, o.scatterPos, o.treePos) &&
      Abs(x.position.x - base.x) <= FloatAmplitudeX(isTree) &&
      Abs(x.position.y - base.y) <= FloatAmplitudeY(isTree) &&
      x.position.z == base.z &&
      x.rotation.x == x.rotation.y == x.rotation.z == time * o.rotationSpeed
  {
    LerpConvex(o.scatterPos, o.treePos, eased);
    FloatBounded(m, o, time, isTree);
  }

  lemma FloatBounded(m: MathLib, o: Instance, time: real, isTree: bool)
    requires Lawful(m)
    ensures Abs(FloatOffset(m, o, time, isTree).x) <= FloatAmplitudeX(isTree)
    ensures Abs(FloatOffset(m, o, time, isTree).y) <= FloatAmplitudeY(isTree)
  {
    var cx, sy := m.cos(time * 0.5 + o.phase), m.sin(time + o.phase);
    assert -1.0 <= cx <= 1.0 && -1.0 <= sy <= 1.0;
    UnitTimesAmplitude(cx, FloatAmplitudeX(isTree));
    UnitTimesAmplitude(sy, FloatAmplitudeY(isTree));
  }

  lemma UnitTimesAmplitude(w: real, a: real)
    requires -1.0 <= w <= 1.0 && a >= 0.0
    ensures Abs(w * a) <= a
  {
    MulMono(w, 1.0, a);
    MulMono(-1.0, w, a);
  }

  /** At eased value 0 an instance floats about its scatter target, at 1
    * about its tree target. */
  lemma TransformEnds(m: MathLib, c: Category, o: Instance, time: real, isTree: bool)
    ensures InstanceTransform(m, c, o, time, isTree, 0.0).position == Add(o.scatterPos, FloatOffset(m, o, time, isTree))
    ensures InstanceTransform(m, c, o, time, isTree, 1.0).position == Add(o.treePos, FloatOffset(m, o, time, isTree))
  {
    LerpConvex(o.scatterPos, o.treePos, 0.0);
  }

  /** After ceil(1 / delta) frames or more toward a state, every instance
    * floats about exactly its target for that state: the tree target when
    * assembled, the scatter target when scattered. */
  lemma OrnamentsSettle(m: MathLib, c: Category, data: seq<Instance>, s: AppState,
                        t: real, delta: real, n: nat, time: real)
    requires 0.0 <= t <= 1.0 && delta > 0.0
    requires n >= FramesToSettle(delta * ProgressRate)
    ensures var isTree := s == TreeShape;
      var ts := Transforms(m, c, data, time, isTree, EaseInOutCubic(ProgressAfter(t, MorphTarget(s), delta, n)));
      forall i :: 0 <= i < |data| ==>
        ts[i].position == Add(if isTree then data[i].treePos else data[i].scatterPos, FloatOffset(m, data[i], time, isTree))
  {
    ProgressSettles(t, s, delta, n);
    EaseEnds();
    forall i | 0 <= i < |data|
      ensures InstanceTransform(m, c, data[i], time, s == TreeShape, EaseInOutCubic(MorphTarget(s))).position ==
              Add(if s == TreeShape then data[i].treePos else data[i].scatterPos, FloatOffset(m, data[i], time, s == TreeShape))
    {
      TransformEnds(m, c, data[i], time, s == TreeShape);
    }
  }

  /** The floating offset depends on the application state and not on the
    * progress: for any two eased values the position differs from its
    * segment point by the same vector, and switching the state alone moves
    * the position by 0.45 sin(time + phase) in y and 0.28 cos(time / 2 +
    * phase) in x while rotation and scale stay the same. */
  lemma FloatSwitchesWithState(m: MathLib, c: Category, o: Instance, time: real, isTree: bool, e1: real, e2: real)
    ensures var a, b := InstanceTransform(m, c, o, time, isTree, e1), InstanceTransform(m, c, o, time, isTree, e2);
      a.position.x - Lerp(o.scatterPos, o.treePos, e1).x == b.position.x - Lerp(o.scatterPos, o.treePos, e2).x &&
      a.position.y - Lerp(o.scatterPos, o.treePos, e1).y == b.position.y - Lerp(o.scatterPos, o.treePos, e2).y
    ensures var scattered, tree := InstanceTransform(m, c, o, time, false, e1), InstanceTransform(m, c, o, time, true, e1);
      scattered.position.y - tree.position.y == 0.45 * m.sin(time + o.phase) &&
      scattered.position.x - tree.position.x == 0.28 * m.cos(time * 0.5 + o.phase) &&
      scattered.position.z == tree.position.z &&
      scattered.rotation == tree.rotation && scattered.scale == tree.scale
  {
  }

  // ---------------------------------------------------------------------
  // The instanced mesh

  /** One ornament field's mesh: its category, the instance data made at
    * creation, the progress kept in `userData.t` (absent until the first
    * frame) and the instance matrix buffer. */
  class OrnamentMesh {
    const category: Category
    const data: seq<Instance>
    const matrices: array<Transform>
    var t: Option<real>

    ghost predicate Valid()
      reads this
    {
      matrices.Length == |data| &&
      (t.Some? ==> 0.0 <= t.value <= 1.0)
    }

    /** Mounting the field: the instance data for the draws, identity
      * matrices and no progress yet. */
    constructor (m: MathLib, category: Category, draws: seq<OrnamentDraws>)
      ensures Valid()
      ensures this.category == category && data == MakeInstances(m, category, draws)
      ensures t == None && fresh(matrices)
      ensures forall k :: 0 <= k < matrices.Length ==> matrices[k] == Identity
    {
      this.category := category;
      data := MakeInstances(m, category, draws);
      matrices := new Transform[|draws|](_ => Identity);
      t := None;
    }

    /** The `useFrame` callback: initialise the progress to 0 if absent,
      * step it toward the target of the current state, ease it, and
      * rewrite every instance's matrix. */
    method Frame(m: MathLib, appState: AppState, time: real, delta: real)
      requires Valid() && delta >= 0.0
      modifies this, matrices
      ensures Valid()
      ensures t == Some(ProgressStep(Progress(old(t)), MorphTarget(appState), delta))
      ensures old(t) == None ==> t == Some(ProgressStep(0.0, MorphTarget(appState), delta))
      ensures matrices[..] == Transforms(m, category, data, time, appState == TreeShape, EaseInOutCubic(Progress(t)))
    {
      var isTree := appState == TreeShape;
      if t.None? {
        t := Some(0.0);
      }
      var targetT := if isTree then 1.0 else 0.0;
      var step := delta * ProgressRate;
      var current := t.value;
      if current < targetT {
        t := Some(Min(targetT, current + step));
      } else if current > targetT {
        t := Some(Max(targetT, current - step));
      }
      ProgressStepTowardTarget(current, appState, delta);
      var easedT := EaseInOutCubic(t.value);
      WriteMatrices(m, time, isTree, easedT);
    }

    /** The `forEach` over the instances: instance i's transform goes to
      * slot i of the matrix buffer, for every i exactly once. */
    method WriteMatrices(m: MathLib, time: real, isTree: bool, easedT: real)
      requires matrices.Length == |data|
      modifies matrices
      ensures matrices[..] == Transforms(m, category, data, time, isTree, easedT)
    {
      ghost var target := Transforms(m, category, data, time, isTree, easedT);
      var i := 0;
      while i < |data|
        invariant 0 <= i <= |data|
        invariant forall k :: 0 <= k < i ==> matrices[k] == target[k]
      {
        var x := InstanceMatrix(m, i, time, isTree, easedT);
        matrices[i] := x;
        i := i + 1;
      }
    }

    /** The body of one iteration: interpolate, add the floating offset,
      * set the angles and the (flickering) scale. */
    method InstanceMatrix(m: MathLib, i: nat, time: real, isTree: bool, easedT: real) returns (x: Transform)
      requires i < |data|
      ensures x == Transforms(m, category, data, time, isTree, easedT)[i]
    {
      var d := data[i];
      var position := Lerp(d.scatterPos, d.treePos, easedT);
      var floatY := m.sin(time + d.phase) * (if isTree then 0.05 else 0.5);
      var floatX := m.cos(time * 0.5 + d.phase) * (if isTree then 0.02 else 0.3);
      position := Vec3(position.x + floatX, position.y + floatY, position.z + 0.0);
      var spin := time * d.rotationSpeed;
      var scale := d.scale;
      if category == Light {
        scale := d.scale * (0.8 + 0.4 * m.sin(time * 10.0 + d.phase));
      }
      x := Transform(position, Vec3(spin, spin, spin), scale);
    }
  }
}
