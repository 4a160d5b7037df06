# Holiday tree animation: a Dafny model

This project models the animation core of a small React/three.js greeting
page. A cloud of 2000 particles starts as a nebula ("CHAOS"), morphs into a
spiral Christmas tree, and then a greeting fades in. The model covers:

- the four animation states and the overlay's rules: the play/replay toggle,
  the reduced-motion switch, and the captions and greeting shown per state;
- the App component's auto-play timeline. It starts in CHAOS. With the
  reduced-motion preference it jumps to FINISHED. Otherwise three one-shot
  timers fire at 1000, 4000 and 5500 ms, and the unmount cleanup cancels all
  three. This is a class (`App.Timeline`) whose pending timers are a set of
  events in simulated time;
- the particle field's deterministic geometry: cone height and radius, the
  position on the tree, the shell of the nebula, and the ranges of colour,
  scale, speed and phase. The `Math.random()` draws are inputs;
- the morph controller's frame: target and rate chosen from the state, snap
  or damped update of `progress`, the shimmer/rotation or drift regime
  chosen on `progress > 0.8`, and the transform buffer written per index
  (`MagicTree.MagicTree`);
- the ribbons' orbit (CHAOS) and helix (the other states), each ribbon a
  small class whose mesh position the frame updates;
- the camera rig's frame: a fixed pose with reduced motion; otherwise a
  distance damped toward 14 or 8, a bounded sway and a fixed look-at point.

Numbers are `real`. Sine and cosine are functions that the caller supplies.
`FrameMath.IsTrig` states the only laws the proofs use: both stay in [-1, 1],
sin² + cos² = 1, and sin 0 = 0. `THREE.MathUtils.damp(x, y, λ, dt)` is
`lerp(x, y, α)` with `α = 1 - exp(-λ·dt)`. The model reads it as
`FrameMath.Damp(x, y, α)`. The frame's α for each rate λ is a function
`alphaOf` with `0 < alphaOf(λ) < 1` for every λ > 0 that grows with λ
(`FrameMath.IsDampLaw`).
That way the rates 1.5, 0.8 and 0.8 in the source still decide which α is used.

The generator picks the inner (green) colour when `Math.random() > 0.6`,
which is a 40% share; `MagicTree.ChooseHue` follows that test. The model uses
the code's state names CHAOS, MORPH, TREE and FINISHED.

Files: `types.dfy` (types.ts), `frame_math.dfy` (the three.js arithmetic),
`ui.dfy` (components/UI.tsx), `app.dfy` (App.tsx), `magic_tree.dfy`
(components/MagicTree.tsx) and `scene.dfy` (components/Scene.tsx).

## Model

| member | source | states |
|---|---|---|
| `UI.Toggle` | components/UI.tsx:15-22 | the toggle only ever yields CHAOS or MORPH, and yields CHAOS exactly when leaving TREE or FINISHED |
| `UI.ToggleTable` | components/UI.tsx:17-20 | TREE and FINISHED go to CHAOS; CHAOS and MORPH go to MORPH |
| `UI.ToggleTwice` | components/UI.tsx:15-22 | two presses always end in MORPH, and MORPH is a fixed point |
| `UI.FlipReducedMotion` | components/UI.tsx:63 | the reduced-motion button always changes the flag |
| `UI.FlipTwice` | components/UI.tsx:63 | two presses of the reduced-motion button restore the flag |
| `UI.GreetingVisible` | components/UI.tsx:47 | defines when the greeting is faded in: exactly in FINISHED. `UI.ToggleEffectOnOverlay` and `App.OverlayFollowsAutoPlay` state what follows from it |
| `UI.ActionLabel` | components/UI.tsx:76-77 | the button reads "Play Animation" exactly in CHAOS and "Replay" in every other state |
| `UI.MotionLabel` | components/UI.tsx:66 | the switch reads "Enable Motion" exactly when motion is reduced |
| `UI.ToggleEffectOnOverlay` | components/UI.tsx:47 | after a toggle the greeting is hidden, and "Play Animation" shows exactly when the toggle broke up the formed tree |
| `UI.FlipChangesMotionLabel` | components/UI.tsx:66 | pressing the switch always changes its caption |
| `App.Schedule` | App.tsx:18-28 | the effect schedules exactly three timers, all after mount and none later than 5500 ms |
| `App.FirstExists` | App.tsx:18-28 | among any pending timers one fires first, which the earliest-first firing order needs |
| `App.AutoPlayState` | App.tsx:18-28 | the reference timeline that the Timeline lemmas target: CHAOS, MORPH, TREE, FINISHED by the time since mount. Its phases are stated by `App.AutoPlayPhases` |
| `App.AutoPlayPhases` | App.tsx:18-28 | CHAOS exactly before 1000 ms, a formed state exactly from 1000 ms, TREE exactly in [4000, 5500) and FINISHED exactly from 5500 ms |
| `App.Timeline.constructor` | App.tsx:7-8 | the App starts in CHAOS with reduced motion off and no timers |
| `App.Timeline.MountEffect` | App.tsx:11-36 | the first run with the preference sets the flag and FINISHED and schedules nothing; without it, schedules the three timers and changes no state; a later commit changes nothing (empty dependency list) |
| `App.Timeline.Advance` | App.tsx:18-28 | the due timers fire and leave the pending set, the rest stay, and the state is the target of the latest due timer (unchanged if none is due) |
| `App.Timeline.Toggle` | components/UI.tsx:15-22 | the manual toggle applies the overlay rule and leaves the pending timers alone |
| `App.Timeline.ToggleReducedMotion` | components/UI.tsx:63 | the switch negates the stored flag |
| `App.Timeline.Cleanup` | App.tsx:30-34 | the cleanup removes exactly the three timers the effect scheduled (the closure's t1, t2, t3); since every pending timer is one of them, nothing stays pending |
| `App.FireFirst` | App.tsx:18-28 | firing the earliest due timer keeps every fired timer earlier than those still due and makes it the latest fired |
| `App.ScheduleFired` | App.tsx:18-28 | running time from mount to t with the three timers pending gives the auto-play state for t, and before 1000 ms changes nothing |
| `App.RemainingFired` | App.tsx:18-28 | running on from t1 to t2 leaves the state alone when the auto-play state does not change in between, and otherwise sets it to the auto-play state for t2 |
| `App.ScheduleDue` | App.tsx:18-28 | which timers are due at time t after mount, and which of them fires last |
| `App.RemainingDue` | App.tsx:18-28 | advancing from t1 to t2 fires a timer exactly when the auto-play state changes in between, and the last one sets the state for t2 |
| `App.MountAndRun` | App.tsx:11-28 | mounting without the preference and running time to t leaves the auto-play state for t, the flag off, the effect's three timers recorded, and exactly those not yet due still pending |
| `App.AutoPlayAt` | App.tsx:18-28 | with no interaction the state at time t is CHAOS before 1000, MORPH before 4000, TREE before 5500 and FINISHED from then on |
| `App.AutoPlayInSteps` | App.tsx:18-28 | the observed state depends only on the time since mount, not on how the clock was advanced |
| `App.ReducedMotionAt` | App.tsx:13-15 | with the preference the state is FINISHED at once, the flag is set, no timer is pending, and time changes nothing |
| `App.ToggleOverridden` | App.tsx:26-28 | a toggle before 5500 ms takes effect, but the still pending FINISHED timer overrides it at 5500 |
| `App.CleanupFreezes` | App.tsx:30-34 | once the timers are cleared, advancing time never changes the state |
| `App.RecommitIgnored` | App.tsx:36 | the effect runs once: a second commit does not reschedule or apply the preference, whatever the query says |
| `App.OverlayFollowsAutoPlay` | components/UI.tsx:47 | without interaction the greeting shows exactly from 5500 ms on, and "Play Animation" only before 1000 ms |
| `FrameMath.Lerp` | components/MagicTree.tsx:136 | interpolation gives the start at weight 0, the end at weight 1, and stays between the two for weights in [0, 1] |
| `FrameMath.LerpVectors` | components/MagicTree.tsx:136 | the blended point is the nebula position at progress 0 and the tree position at progress 1 |
| `FrameMath.Damp` | components/MagicTree.tsx:124 | a damped step shrinks the distance to the target by the factor 1 - α: strictly closer, no overshoot, fixed once there |
| `FrameMath.DampFramesApproach` | components/MagicTree.tsx:124 | over successive frames toward a fixed target the value moves strictly monotonically toward it and never passes it |
| `FrameMath.DampFramesClosed` | components/MagicTree.tsx:124 | after n frames with the same factor the distance to the target is (1 - α)^n times the starting distance |
| `FrameMath.PowShrinks` | components/MagicTree.tsx:124 | the shrink factor (1 - α)^n stays in [0, 1] and satisfies Bernoulli's bound (1 - α)^n · (1 + n·α) <= 1 |
| `FrameMath.DampFramesSettle` | components/MagicTree.tsx:124 | damping converges: for every ε > 0, from frame `SettleFrames` on (a bound computed from the start distance, α and ε) the value stays within ε of the target |
| `MagicTree.ConeHeight` | components/MagicTree.tsx:62-64 | for every particle index the tree height lies in [-3, 2.5) |
| `MagicTree.RadiusBase` | components/MagicTree.tsx:65 | the cone radius is positive at every particle's height |
| `MagicTree.ChooseHue` | components/MagicTree.tsx:87-88 | a green exactly when the colour draw exceeds 0.6; Emerald exactly for a green with the second draw above 0.5; Gold exactly for a gold with the second draw above 0.3 |
| `MagicTree.TreePosition` | components/MagicTree.tsx:68-73 | defines the tree position at the cone height and perturbed radius; `MagicTree.TreePositionShape` states its distance from the axis |
| `MagicTree.ChaosPosition` | components/MagicTree.tsx:76-83 | defines the nebula position in spherical coordinates; `MagicTree.ChaosPositionShape` states that it lies on the shell |
| `MagicTree.GenerateParticle` | components/MagicTree.tsx:60-97 | defines the generator's body for one index; `MagicTree.ParticleShape` states what it promises |
| `MagicTree.ConeNarrowsUpward` | components/MagicTree.tsx:62-65 | a later index sits strictly higher, on a strictly narrower part of the cone |
| `MagicTree.TreePositionShape` | components/MagicTree.tsx:68-73 | the tree position lies at distance given by the perturbed radius from the vertical axis |
| `MagicTree.ChaosPositionShape` | components/MagicTree.tsx:76-83 | the nebula position lies on the sphere of radius `4 + 4·draw`, so within the shell between radius 4 and 8 |
| `MagicTree.ParticleShape` | components/MagicTree.tsx:60-97 | each generated particle: height from the cone formula, within 0.25 of the cone radius, on the nebula shell, green exactly when the colour draw exceeds 0.6, scale, speed and phase in their ranges |
| `MagicTree.Generate` | components/MagicTree.tsx:59-99 | the data holds exactly COUNT particles, entry i built from index i and its draws |
| `MagicTree.FieldShape` | components/MagicTree.tsx:59-99 | every generated particle is well formed in the sense above |
| `MagicTree.Target` | components/MagicTree.tsx:116-117 | the target is 1 in MORPH, TREE and FINISHED and 0 in CHAOS |
| `MagicTree.Rate` | components/MagicTree.tsx:123 | the rate is positive: 1.5 while forming and 0.8 while dispersing |
| `MagicTree.FormingFaster` | components/MagicTree.tsx:123-124 | a frame in a formed state closes a larger share of the remaining progress than a frame in CHAOS |
| `MagicTree.NextProgress` | components/MagicTree.tsx:119-125 | with reduced motion progress equals the target after one frame; otherwise the distance to the target shrinks by 1 - α for the state's rate: strictly closer, no overshoot, fixed at the target; progress never leaves [0, 1] |
| `MagicTree.RegimeOf` | components/MagicTree.tsx:139 | shimmer and rotation exactly when progress exceeds 0.8, drift exactly otherwise |
| `MagicTree.Blend` | components/MagicTree.tsx:136 | the blended position is the nebula position at progress 0 and the tree position at progress 1 |
| `MagicTree.ShimmerRotate` | components/MagicTree.tsx:140-148 | the shimmer moves a particle at most 0.02 vertically, and the rotation of the whole tree keeps every particle's distance from the axis |
| `MagicTree.DriftAround` | components/MagicTree.tsx:150-153 | the drift moves each coordinate by at most 0.01 |
| `MagicTree.InstanceAt` | components/MagicTree.tsx:130-163 | each transform lies within its regime's bounds around the blended point; its scale stays within 0.2 of the particle's own and equals it at progress 0 |
| `MagicTree.MagicTree.constructor` | components/MagicTree.tsx:59-110 | the data is generated once, progress starts at 0, and the mesh is not attached yet |
| `MagicTree.MagicTree.PaintColors` | components/MagicTree.tsx:101-107 | once the mesh is attached every slot of the colour buffer holds its particle's colour, and before that nothing is written |
| `MagicTree.MagicTree.Frame` | components/MagicTree.tsx:112-170 | before the mesh is attached nothing changes; after, progress takes its next value and every buffer slot holds its particle's transform; only progress and the buffer are writable, the data is constant, and progress stays in [0, 1] |
| `MagicTree.MountedRibbons` | components/MagicTree.tsx:186-192 | no ribbon is rendered with reduced motion, all three otherwise |
| `MagicTree.Orbit` | components/MagicTree.tsx:24-29 | defines the CHAOS path of a ribbon; `MagicTree.OrbitShape` states its shape |
| `MagicTree.Spiral` | components/MagicTree.tsx:30-37 | defines the helix of a ribbon in the formed states; `MagicTree.SpiralShape` states its bounds |
| `MagicTree.OrbitShape` | components/MagicTree.tsx:24-29 | the CHAOS path is a circle of radius 2·radius about the vertical axis, with height within ±2·radius |
| `MagicTree.SpiralRadiusRange` | components/MagicTree.tsx:33 | on the helix's height range the helix radius lies between 0 and 5/6 of the ribbon's radius |
| `MagicTree.SpiralShape` | components/MagicTree.tsx:30-37 | the helix stays between heights -2.5 and 2.5 at a distance from the axis between 0 and 5/6 of the ribbon's radius |
| `MagicTree.Ribbon.Frame` | components/MagicTree.tsx:19-38 | before the mesh is attached nothing moves; then the ribbon follows the orbit exactly in CHAOS and the helix in every other state |
| `Scene.TargetDistance` | components/Scene.tsx:26-29 | the camera aims at distance 14 in CHAOS and 8 in MORPH, TREE and FINISHED |
| `Scene.Camera.constructor` | components/Scene.tsx:15 | the renderer's camera: at the given position, looking at the origin |
| `Scene.SwayX` | components/Scene.tsx:36 | the horizontal sway stays within [-0.5, 0.5] |
| `Scene.SwayY` | components/Scene.tsx:37 | the vertical sway stays within [-0.2, 0.2] |
| `Scene.CameraRigFrame` | components/Scene.tsx:18-40 | with reduced motion the camera sits at (0, 0, 9) looking at the origin, with no damping; otherwise z takes one damped step toward the target distance at rate 0.8, x and y take the bounded sway, and it looks at (0, 0.5, 0) |
| `Scene.CameraFramesApproach` | components/Scene.tsx:32 | over successive frames the distance moves monotonically toward 14 in CHAOS and 8 otherwise, never passing it, and after n frames its distance from the target is (1 - α)^n times the start's |
| `Scene.CameraSettles` | components/Scene.tsx:26-32 | the push-in converges: for every ε > 0, from frame `SettleFrames` on the distance stays within ε of 14 in CHAOS and of 8 in the formed states |

The sub-expression helpers have no rows of their own, because the rows of the members that use them cover them:
- `MagicTree.TreeRadius` and `MagicTree.TreeAngle` (components/MagicTree.tsx:68-69) are covered by `MagicTree.TreePosition` and `MagicTree.TreePositionShape`.
- `MagicTree.ChaosDistance` (components/MagicTree.tsx:80) is covered by `MagicTree.ChaosPosition` and `MagicTree.ChaosPositionShape`.
- `MagicTree.RibbonPhase`, `MagicTree.SpiralY` and `MagicTree.SpiralRadius` (components/MagicTree.tsx:21-33) are covered by `MagicTree.Orbit`, `MagicTree.Spiral`, `MagicTree.SpiralRadiusRange` and `MagicTree.Ribbon.Frame`.
- `Types.Formed` (components/MagicTree.tsx:116, components/Scene.tsx:27) is covered by `MagicTree.Target`, `MagicTree.Rate` and `Scene.TargetDistance`.

## Left out

- services/gemini.ts: a network call into a foreign SDK. It is not part of this model. It turns every failure into an empty string (services/gemini.ts:16-18) and no state of the core depends on it.
- Rendering and library plumbing: the Canvas, lights, environment, bloom and vignette, the star mesh, the `Trail` renderer and its taper, `updateMatrix`, and the `needsUpdate` flags. The instance buffer is an array of position/scale/rotation records written per index. The colour buffer is an array of palette entries.
- Randomness: the `Math.random()` draws are inputs in [0, 1). Their distributions, such as the share of green particles, are statistical claims and are not modelled.
- Floating point and transcendental functions: `sin`, `cos`, `acos` and `exp` are supplied functions, constrained only by `FrameMath.IsTrig` and `FrameMath.IsDampLaw`. IEEE rounding is not modelled. `Math.PI` is the shortest decimal that rounds to it.
- Real-time timers and the media query: `window.matchMedia` is an input boolean. `setTimeout` and `clearTimeout` are pending events in simulated integer milliseconds, fired by `App.Timeline.Advance`.
- Cosmetic UI: CSS classes, the opacity of the controls (components/UI.tsx:59), the `showUI` recording toggle (components/UI.tsx:13, 38, 86) and the `ParticleData` interface, which nothing uses.
- React's render cycle: props reach the frame callbacks directly as parameters. No frame or effect runs after unmount.
- App.Timeline.Advance: fires timers earliest first and relies on no two pending timers sharing an instant. `App.Timeline.Valid` keeps this, because every pending timer is one of the effect's three and those have distinct delays. Timers due at the same instant, which the browser would fire in scheduling order, cannot arise.
- MagicTree.InstanceAt: does not state that particles swell mid-morph, or that they return to their own scale at progress 1. Those need sin ≥ 0 on [0, π] and sin π = 0, which `FrameMath.IsTrig` does not give. The model only states that the scale stays within 0.2 of the particle's own and equals it at progress 0.
- FrameMath.Damp: assumes a positive frame delta (0 < α < 1). A frame with delta 0, where damp leaves the value unchanged, is not modelled.
- MagicTree.ShimmerRotate: states what the rotation preserves, the distance from the axis. It does not state the angle.
- MagicTree.MagicTree.Frame: the rotation part of each transform (elapsed·speed, elapsed·speed·0.5, 0) is written as in the source, with no property about it.
