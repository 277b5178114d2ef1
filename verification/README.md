# Scatter-to-tree morph: a Dafny model

The scene is a cloud of particles and ornaments that assembles into a cone
shaped Christmas tree and scatters again when a button is pressed. Two
kinds of field take part:

- the **foliage**, thousands of points whose positions the vertex shader
  blends between a scatter target and a tree target;
- the **ornament** fields, instanced meshes (baubles, gifts and lights)
  that recompute every instance's transform on the CPU each frame.

Each field carries one morph scalar. Every frame it steps toward 0 (the
scattered cloud) or 1 (the tree), and every element is drawn at the eased
interpolation of its two targets plus a small animated wobble.

The project models:

- the three point samplers of `utils/math.ts`: a point in a ball, a point in
  a cone, and a point on a spiral;
- the foliage's per-frame morph update, the loop that packs its attribute
  buffers, and the shader's easing and position arithmetic;
- the ornaments' instance generation, their per-frame `userData.t` update,
  and the loop that rewrites the instance matrix buffer;
- the application state and its toggle.

Modules:

| file | module | contents |
|---|---|---|
| `numeric.dfy` | `Numeric` | `Math.abs/min/max`, GLSL `mix`, the frame count ceil(1/step) |
| `vectors.dfy` | `Vectors` | `Vector3` over the reals, interpolation, the item-size-3 buffer layout |
| `transcendental.dfy` | `Transcendental` | `Math.PI`, random draws, the math functions as a record with their range facts |
| `sampler.dfy` | `Sampler` | `getRandomSpherePoint`, `getTreePoint`, `getSpiralTreePoint` |
| `easing.dfy` | `Easing` | the cubic ease-in-out curve |
| `app_state.dfy` | `AppStates` | `AppState` and the button's toggle |
| `foliage.dfy` | `Foliage` | the foliage field |
| `ornaments.dfy` | `Ornaments` | an ornament field |

Modelling choices:

- Numbers are Dafny `real`s.
- Each `Math.random()` call is a parameter of type `Draw`, a real in [0, 1).
- `sin`, `cos`, `acos`, `cbrt`, `pow` and `sqrt` are fields of a `MathLib`
  value. The predicate `Lawful` gives the only facts the proofs use:
  - sin² + cos² = 1;
  - sine and cosine lie in [-1, 1];
  - the cube root, the square root and a positive power of a value in
    [0, 1) are again in [0, 1).
- The elapsed time and the frame length `delta` are parameters.
- Two places keep state from frame to frame:
  - the foliage shader's uniforms, modelled as the class
    `Foliage.FoliageMaterial`;
  - the ornament mesh with its `userData.t` and instance matrices, modelled
    as the class `Ornaments.OrnamentMesh`.
- The foliage buffer-packing loop writes into Dafny arrays, as the source
  writes into `Float32Array`s.

Where the code differs from its own comments, or from the behaviour the
system is meant to have, the model follows the code:

- **Height fraction.** The comment at `utils/math.ts:27` says the height
  fraction h is 0 at the bottom and 1 at the top. The code puts h = 0 at
  the apex, y = height/2 with radius 0, and h near 1 at the base.
  `Sampler.TreePointInCone` states the code's behaviour.
- **Dead-band.** The foliage morph factor is meant to reach 0 or 1, but
  the update stops once it is within 0.001 of the target. It can settle
  short of the target for good (`Foliage.DeadBandStopsShort`). The proved
  bound is therefore "within 0.001" (`Foliage.MorphSettles`). The ornament
  progress has no dead-band and reaches its target exactly
  (`Ornaments.ProgressSettles`).
- **Float amplitude.** A toggle is meant to move positions only by the
  per-frame step. The ornaments' float amplitudes follow the new state at
  once (0.5/0.3 scattered, 0.05/0.02 assembled), independent of progress.
  So on the frame of a toggle every ornament's position moves by
  0.45·sin(time + phase) vertically and 0.28·cos(time/2 + phase)
  horizontally, however small `delta` is (`Ornaments.FloatSwitchesWithState`).
  While one mesh lives, the eased segment point moves by at most three
  steps' worth of the segment per frame:
  - `Ornaments.ProgressFrameContinuity`;
  - `Foliage.MorphFrameContinuity` with `Foliage.SegmentShift`.
- **Re-created meshes.** The program does not keep one ornament mesh
  across a toggle. components/Ornaments.tsx:104-130 builds a new geometry
  and material on every render and passes them through `args`
  (components/Ornaments.tsx:135). `appState` is a prop, so a toggle
  re-renders every ornament field, and react-three-fiber builds a new
  `InstancedMesh` whose `userData` is empty. Line 58 then restarts t at 0.
  On a tree-to-scattered toggle the ornaments therefore jump the whole
  segment in one frame, and the per-frame bound above does not apply
  across the toggle. The foliage material is one module-level object
  (components/Foliage.tsx:8-14) whose uniforms are kept by reference, so
  a remount does not restart its morph factor.

## Model

| member | source | states |
|---|---|---|
| `AppStates.Toggle` | components/Overlay.tsx:24-28 | The button always switches to the other of the two states (types.ts:3-6) |
| `AppStates.MorphTarget` | components/Foliage.tsx:128 | The morph target is 1 exactly for the tree shape and 0 otherwise |
| `Numeric.Mix` | components/Foliage.tsx:44-46 | GLSL `mix(a, b, t)`. No contract of its own; `Numeric.MixConvex` and `Foliage.MixShift` state its properties |
| `Numeric.MixConvex` | components/Foliage.tsx:44-46 | `mix(a, b, t)` is a at 0 and b at 1, lies between a and b for t in [0, 1], and equals the `lerpVectors` form a + (b - a)t |
| `Numeric.FramesToSettle` | components/Foliage.tsx:132 | The frame bound ceil(1/step): the least n with n·step >= 1, so n·step < 1 + step |
| `Numeric.SettleCovers` | components/Ornaments.tsx:61 | Any number of frames from that bound on covers a distance of 1 |
| `Vectors.Lerp` | components/Ornaments.tsx:75 | `lerpVectors`, coordinate by coordinate. No contract of its own; `Vectors.LerpConvex` and `Foliage.SegmentShift` state its properties |
| `Vectors.LerpConvex` | components/Ornaments.tsx:75 | Interpolating two points gives the first at 0 and the second at 1; in between it is coordinate-wise inside their box |
| `Vectors.ScaleNormSquared` | components/Ornaments.tsx:26-28 | `multiplyScalar(k)` multiplies the squared norm and the squared distance from the axis by k² |
| `Vectors.Flatten` | components/Foliage.tsx:108-114 | The item-size-3 layout of a sequence of points; its contract gives only the length 3·n, and `Vectors.FlattenAt` and `Vectors.FlattenSnoc` state where each coordinate sits |
| `Vectors.FlattenAt` | components/Foliage.tsx:108-114 | In an item-size-3 buffer, point k's x, y and z sit at 3k, 3k+1 and 3k+2, all in bounds |
| `Vectors.FlattenSnoc` | components/Foliage.tsx:108-114 | Appending a point to the buffer appends exactly its three coordinates |
| `Sampler.SpherePoint` | utils/math.ts:6-18 | `getRandomSpherePoint` over three draws. No contract of its own; `Sampler.SpherePointInBall`, `Sampler.SphereDistanceRange` and `Sampler.SpherePointNorm` state its properties |
| `Sampler.SpherePointInBall` | utils/math.ts:6-18 | The sphere sample's distance cbrt(w)·radius is in [0, radius), its squared norm is the square of that distance, so it lies strictly inside the ball |
| `Sampler.SphereDistanceRange` | utils/math.ts:11 | cbrt(w)·radius lies in [0, radius) for w in [0, 1) |
| `Sampler.SpherePointNorm` | utils/math.ts:12-17 | The spherical-to-Cartesian conversion has squared norm r² (using sin² + cos² = 1) |
| `Sampler.ConeEnds` | utils/math.ts:30-33 | The cone's radius is 0 at the apex y = height/2 and the full radius at the base y = -height/2 |
| `Sampler.TreePoint` | utils/math.ts:26-42 | `getTreePoint` over three draws. No contract of its own; `Sampler.TreePointInCone`, `Sampler.TreeHeightInCone` and `Sampler.TreeDistanceInDisc` state its properties |
| `Sampler.TreePointInCone` | utils/math.ts:26-42 | The tree sample's y lies in (-height/2, height/2]; the cone's radius there is h·radius, in [0, radius]; the point lies in the solid cone |
| `Sampler.TreeHeightInCone` | utils/math.ts:29-33 | y = (1-h)·height - height/2 lies in (-height/2, height/2], and the cone radius at y is h·radius, in [0, radius] |
| `Sampler.TreeDistanceInDisc` | utils/math.ts:33-39 | The distance from the axis, sqrt(s)·h·radius, is at most the disc radius h·radius |
| `Sampler.ConeRadiusOfFraction` | utils/math.ts:30-33 | At the height computed from h, the cone's radius is exactly h·radius |
| `Sampler.SpiralPoint` | utils/math.ts:44-52 | `getSpiralTreePoint`, with `index` and `total` taken as integers where the source takes JavaScript numbers. No contract of its own; `Sampler.SpiralPointBounds`, `Sampler.SpiralHeightRange`, `Sampler.SpiralRadiusRange`, `Sampler.SpiralOnCircle` and `Sampler.SpiralMonotone` state its properties |
| `Sampler.SpiralPointBounds` | utils/math.ts:44-52 | For 0 <= index <= total: y in [-height/2, height/2], radius in [0, radius], distance from the axis equal to that radius; index 0 is the full-width base, index total the apex |
| `Sampler.SpiralHeightRange` | utils/math.ts:45 | The spiral's y lies in [-height/2, height/2], -height/2 at index 0 and height/2 at index total |
| `Sampler.SpiralRadiusRange` | utils/math.ts:46-47 | The spiral's radius (1 - index/total)·radius lies in [0, radius], radius at index 0 and 0 at index total |
| `Sampler.SpiralOnCircle` | utils/math.ts:47-50 | The spiral point lies on the circle of that radius about the vertical axis |
| `Sampler.SpiralMonotone` | utils/math.ts:45-47 | A later index is never lower and never wider |
| `Easing.EaseInOutCubic` | components/Foliage.tsx:28-30 | The cubic ease-in-out of the shader and of components/Ornaments.tsx:71. No contract of its own; `Easing.EaseEnds`, `Easing.EaseMidpoint`, `Easing.EaseRange`, `Easing.EaseMonotone`, `Easing.EaseSymmetric` and `Easing.EaseLipschitz` state its properties |
| `Easing.EaseEnds` | components/Foliage.tsx:28-30 | ease(0) = 0 and ease(1) = 1 |
| `Easing.EaseMidpoint` | components/Foliage.tsx:28-30 | ease(0.5) = 0.5, and both branches agree there |
| `Easing.EaseRange` | components/Foliage.tsx:28-30 | ease maps [0, 1] into [0, 1]: below 0.5 on the first half, at or above 0.5 on the second |
| `Easing.EaseMonotone` | components/Foliage.tsx:28-30 | ease is non-decreasing on [0, 1] |
| `Easing.EaseSymmetric` | components/Foliage.tsx:28-30 | ease(1 - x) = 1 - ease(x) |
| `Easing.EaseLipschitz` | components/Foliage.tsx:28-30 | On [0, 1], ease(y) - ease(x) lies in [0, 3(y - x)] |
| `Foliage.MorphStep` | components/Foliage.tsx:128-139 | One frame of the morph-factor update. No contract of its own; `Foliage.MorphStepTowardTarget`, `Foliage.MorphStaysSettled`, `Foliage.MorphSettles` and `Foliage.DeadBandStopsShort` state its properties |
| `Foliage.MorphStepTowardTarget` | components/Foliage.tsx:128-139 | One update keeps the factor in [0, 1], moves it at most delta·1.5, never past the target, toward 1 for the tree and toward 0 otherwise; inside the 0.001 dead-band it does nothing, outside it closes the distance by a full step or to zero |
| `Foliage.MorphStaysSettled` | components/Foliage.tsx:133 | Once within 0.001 of the target, the factor never changes again |
| `Foliage.MorphApproaches` | components/Foliage.tsx:132-139 | Frames whose steps add up to the distance bring the factor within 0.001 of the target, staying in [0, 1] |
| `Foliage.MorphSettles` | components/Foliage.tsx:132-139 | After ceil(1/(1.5·delta)) frames or more the factor is within 0.001 of the target |
| `Foliage.DeadBandStopsShort` | components/Foliage.tsx:133 | From 0.9995 toward the tree the factor never moves, so it never reaches 1 |
| `Foliage.FoliageMaterial.constructor` | components/Foliage.tsx:9-11 | Both uniforms start at 0 (scattered) |
| `Foliage.FoliageMaterial.Frame` | components/Foliage.tsx:123-141 | Records the clock, replaces the factor by one update step toward the current state's target, and keeps it in [0, 1] |
| `Foliage.RandomValues` | components/Foliage.tsx:116 | The random buffer has one value per particle, each in [0, 1) |
| `Foliage.SizeValues` | components/Foliage.tsx:117 | The size buffer has one value per particle, each random·0.8 + 0.2 in [0.2, 1.0) |
| `Foliage.ParticleTargetsPlaced` | components/Foliage.tsx:100-106 | Every scatter target is strictly inside the ball of radius 15; every tree target is in the cone of height 12 and radius 5 |
| `Foliage.CreateGeometry` | components/Foliage.tsx:93-121 | Five fresh buffers: positions of length 3·count, all zero; scatter and tree buffers holding the targets' coordinates at 3i..3i+2; random and size buffers of length count holding each particle's scalars at i |
| `Foliage.FillBuffers` | components/Foliage.tsx:104-118 | The loop leaves every buffer holding exactly the layout above for all count particles |
| `Foliage.SampleParticle` | components/Foliage.tsx:105-106 | The two sampler calls give particle i's scatter and tree targets |
| `Foliage.StoreParticle` | components/Foliage.tsx:108-117 | The eight writes of one iteration extend the filled prefix of every buffer by particle i |
| `Foliage.FilledStep` | components/Foliage.tsx:104-118 | Appending particle i's entries to buffers filled up to i fills them up to i + 1 |
| `Foliage.FilledAll` | components/Foliage.tsx:104-118 | Buffers filled up to the last particle hold exactly the whole layout |
| `Foliage.MovementScale` | components/Foliage.tsx:43-44 | `mix(1.0, 0.1, ease(t))`. No contract of its own; `Foliage.MovementScaleRange` and `Foliage.MovementScaleMonotone` state its properties |
| `Foliage.MovementScaleRange` | components/Foliage.tsx:43-44 | The movement scale lies in [0.1, 1] |
| `Foliage.MovementScaleMonotone` | components/Foliage.tsx:43-44 | The movement scale falls as the factor rises: 1 when scattered, 0.1 when assembled |
| `Foliage.DisplayedPosition` | components/Foliage.tsx:34-47 | The shader's `currentPos`. No contract of its own; `Foliage.DisplayedPositionBounds` and `Foliage.DisplayedPositionEnds` state its properties |
| `Foliage.DisplayedPositionBounds` | components/Foliage.tsx:34-47 | The shader position is a point of the scatter-to-tree segment, displaced by at most 0.2·movementScale in each coordinate |
| `Foliage.DisplayedPositionEnds` | components/Foliage.tsx:34-47 | At factor 0 the particle shows scatter target + noise; at 1, tree target + noise/10 |
| `Foliage.Noise` | components/Foliage.tsx:37-41 | The shader's noise vector. No contract of its own; `Foliage.NoiseBounded` states its bound |
| `Foliage.NoiseBounded` | components/Foliage.tsx:37-41 | Each noise coordinate times a scale k >= 0 is within 0.2·k of zero |
| `Foliage.Alpha` | components/Foliage.tsx:55 | The shader's `vAlpha`. No contract of its own; `Foliage.AlphaRange` states its range |
| `Foliage.AlphaRange` | components/Foliage.tsx:55 | The opacity 0.6 + 0.4·sin(…) lies in [0.2, 1] |
| `Foliage.SegmentShift` | components/Foliage.tsx:46 | Moving the interpolation parameter by at most b moves each coordinate by at most b times the segment's extent in it |
| `Foliage.MixShift` | components/Foliage.tsx:46 | Moving t by at most b moves mix(a, c, t) by at most b·abs(c - a) |
| `Foliage.MorphFrameContinuity` | components/Foliage.tsx:132-139 | In one frame the eased factor changes by at most 3·1.5·delta, so particles never jump along their segment |
| `Ornaments.TreeScale` | components/Ornaments.tsx:25-29 | The tree-target factor is positive, below 1 (pulled in) exactly for lights, above 1 (pushed out) otherwise |
| `Ornaments.MakeInstance` | components/Ornaments.tsx:20-37 | Each instance's scale is in [0.5, 1), rotation speed in [0, 0.02), phase in [0, 2π) |
| `Ornaments.MakeInstances` | components/Ornaments.tsx:19-39 | One instance per draw |
| `Ornaments.InstancePlacement` | components/Ornaments.tsx:21-29 | The scatter target is strictly inside the ball of radius 18; the tree target is in the cone of height 12 and radius 5.2 scaled by the category's factor |
| `Ornaments.ScaledCone` | components/Ornaments.tsx:25-29 | Scaling a point of a cone by k > 0 gives a point of the cone scaled by k |
| `Ornaments.ProgressStep` | components/Ornaments.tsx:60-67 | One frame of the `userData.t` update. No contract of its own; `Ornaments.ProgressStepTowardTarget`, `Ornaments.ProgressStaysAtTarget`, `Ornaments.ProgressReaches` and `Ornaments.ProgressSettles` state its properties |
| `Ornaments.ProgressStepTowardTarget` | components/Ornaments.tsx:60-67 | One update keeps t in [0, 1], moves it at most delta, never past the target, up for the tree and down otherwise, closing the distance by a full step or to exactly zero |
| `Ornaments.ProgressStaysAtTarget` | components/Ornaments.tsx:63-67 | At the target, t never changes again |
| `Ornaments.ProgressReaches` | components/Ornaments.tsx:61-67 | Frames whose steps add up to the distance bring t exactly to the target |
| `Ornaments.ProgressSettles` | components/Ornaments.tsx:61-67 | After ceil(1/delta) frames or more, t equals the target exactly |
| `Ornaments.ProgressFrameContinuity` | components/Ornaments.tsx:61-71 | In one frame the eased progress changes by at most 3·delta |
| `Ornaments.Transforms` | components/Ornaments.tsx:73-99 | The frame's matrix buffer holds one transform per instance |
| `Ornaments.Flicker` | components/Ornaments.tsx:93 | The lights' flicker multiplier. No contract of its own; `Ornaments.FlickerRange` states its range |
| `Ornaments.FlickerRange` | components/Ornaments.tsx:93 | The flicker multiplier 0.8 + 0.4·sin(…) lies in [0.4, 1.2] |
| `Ornaments.DisplayedScale` | components/Ornaments.tsx:89-95 | The scale passed to `setScalar`. No contract of its own; `Ornaments.DisplayedScaleRange` states its range |
| `Ornaments.DisplayedScaleRange` | components/Ornaments.tsx:90-95 | With a scale in [0.5, 1), a light's displayed scale is in [0.2, 1.2) and the others' in [0.5, 1) |
| `Ornaments.FloatOffset` | components/Ornaments.tsx:77-82 | The floating offset added to the interpolated position. No contract of its own; `Ornaments.TransformBounds` and `Ornaments.FloatSwitchesWithState` state its properties |
| `Ornaments.InstanceTransform` | components/Ornaments.tsx:74-95 | One iteration's position, rotation and scale. No contract of its own; `Ornaments.TransformBounds`, `Ornaments.TransformEnds` and `Ornaments.FloatSwitchesWithState` state its properties |
| `Ornaments.TransformBounds` | components/Ornaments.tsx:73-88 | The position is a point of the scatter-to-tree segment, displaced by at most the x and y float amplitudes and not at all in z; all three angles equal time·rotationSpeed |
| `Ornaments.TransformEnds` | components/Ornaments.tsx:75-82 | At eased value 0 an instance floats about its scatter target, at 1 about its tree target |
| `Ornaments.OrnamentsSettle` | components/Ornaments.tsx:58-99 | After ceil(1/delta) frames or more, every instance floats about exactly its target for the current state |
| `Ornaments.FloatSwitchesWithState` | components/Ornaments.tsx:78-82 | The float offset does not depend on progress; switching state alone moves the position by 0.45·sin in y and 0.28·cos in x and leaves rotation and scale alone |
| `Ornaments.OrnamentMesh.constructor` | components/Ornaments.tsx:19-39 | A new mesh holds the instance data for its draws, identity matrices, one per instance, and no progress |
| `Ornaments.OrnamentMesh.Frame` | components/Ornaments.tsx:41-102 | An absent t counts as 0 (line 58), so the first frame steps from 0; every frame sets t to one update step toward the state's target, keeps it in [0, 1], and rewrites the matrix buffer with every instance's transform at the eased progress |
| `Ornaments.OrnamentMesh.WriteMatrices` | components/Ornaments.tsx:73-99 | The loop writes instance i's transform to slot i, for every instance exactly once |
| `Ornaments.OrnamentMesh.InstanceMatrix` | components/Ornaments.tsx:74-98 | One iteration computes exactly instance i's transform |

## Left out

- React and hooks: `useMemo`, `useFrame`, `useRef` and JSX become a constructor and a `Frame` method. The mount guards (`if (shaderRef.current)`, `if (!meshRef.current) return`) are not modelled. Regenerating the data when `count` or `type` changes is not modelled.
- `Ornaments.OrnamentMesh.Frame`, `Ornaments.ProgressFrameContinuity`: the model keeps t for the field's whole lifetime. The program re-creates the instanced mesh on every render, a toggle included, and so drops t; that re-creation is not modelled. The foliage uniforms are one shared module-level object kept by reference across remounts; the model gives each field its own `Foliage.FoliageMaterial`.
- GPU work: point-size attenuation, `gl_Position`, the fragment shader's discard, glow and colour mixing (components/Foliage.tsx:49-80). These are rendering, not logic.
- three.js internals. `updateMatrix` is modelled as the `Transform` triple it composes (position, Euler angles, uniform scale). `setMatrixAt` is an array write. `instanceMatrix.needsUpdate` and the geometry/material selection (components/Ornaments.tsx:101-130) are left out.
- The shared `tempObject`: position, rotation and scale are all overwritten in every iteration, so no value flows between iterations. The model computes each transform as a fresh value. It does not model the object's identity.
- Floating point: all arithmetic is over the reals. `Float32Array` rounding of stored values and IEEE rounding are not modelled. The strict bounds hold of the reals only: the largest `Math.random()` value is 1 - 2^-53, whose `Math.cbrt` may round to exactly 1.0, so a sphere sample of utils/math.ts:11 may land on the sphere itself, where `Sampler.SpherePointInBall` promises strictly inside.
- `Math.random` is not modelled as a distribution: no statistical claims, only the [0, 1) range of each draw. Nothing is assumed about `acos`. `pow(x, 0.8)`, `cbrt` and `sqrt` are known only to map [0, 1) into [0, 1).
- `Sampler.SpiralPoint`: `index` and `total` are integers, where the source accepts any JavaScript number; requires total ≠ 0. With total = 0 JavaScript divides by zero and produces non-finite coordinates, which reals cannot represent.
- The foliage's dummy position buffer is modelled only as the zero-filled array it is.
- components/Experience.tsx, components/Overlay.tsx apart from the toggle, App.tsx, the `THEME` colours and `ParticleData` in types.ts are not part of this model.
