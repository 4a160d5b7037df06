/** The particle tree (components/MagicTree.tsx): the particle field generated
    once, the morph controller that blends every particle between its nebula
    and tree positions each frame, and the golden ribbons. */
module MagicTree {
  import opened Types
  import opened FrameMath

  /** Number of particles in the instanced mesh. */
  const COUNT: nat := 2000

  /** The palette: two gold hues for the outer layer, two greens for the inner. */
  datatype Hue = Gold | DeepGold | Emerald | LightGreen

  predicate IsInner(h: Hue)
  {
    h == Emerald || h == LightGreen
  }

  /** The ten Math.random() draws the generator makes for one particle, in the
      order it makes them. */
  datatype Draws = Draws(radius: real, angle: real, u: real, v: real, dist: real,
                         inner: real, hue: real, scale: real, speed: real, phase: real)

  /** Every draw lies in [0, 1), as Math.random() promises. */
  predicate ValidDraws(d: Draws)
  {
    && 0.0 <= d.radius < 1.0 && 0.0 <= d.angle < 1.0
    && 0.0 <= d.u < 1.0 && 0.0 <= d.v < 1.0 && 0.0 <= d.dist < 1.0
    && 0.0 <= d.inner < 1.0 && 0.0 <= d.hue < 1.0
    && 0.0 <= d.scale < 1.0 && 0.0 <= d.speed < 1.0 && 0.0 <= d.phase < 1.0
  }

  /** One entry of the memoized particle data. */
  datatype Particle = Particle(treePos: Vec3, chaosPos: Vec3, color: Hue,
                               scale: real, speed: real, phase: real)

  // ---------------------------------------------------------------- particle field

  /** How far up the cone particle i sits, as a fraction. */
  function ConeFraction(i: nat): real
  {
    i as real / COUNT as real
  }

  /** Height of particle i on the tree: from -3 at the bottom toward 2.5 at the top. */
  function ConeHeight(i: nat): (y: real)
    ensures i < COUNT ==> -3.0 <= y < 2.5
  {
    -3.0 + ConeFraction(i) * 5.5
  }

  /** Radius of the cone at particle i's height; positive all the way up. */
  function RadiusBase(i: nat): (r: real)
    ensures i < COUNT ==> r > 0.0
  {
    (2.5 - ConeHeight(i)) * 0.45
  }

  /** Later particles sit strictly higher on a strictly narrower part of the cone. */
  lemma ConeNarrowsUpward(i: nat, j: nat)
    requires i < j
    ensures ConeHeight(i) < ConeHeight(j)
    ensures RadiusBase(j) < RadiusBase(i)
  {
  }

  /** The base radius of particle i, perturbed by the first draw. */
  function TreeRadius(i: nat, d: Draws): real
  {
    RadiusBase(i) + (d.radius - 0.5) * 0.5
  }

  /** The winding angle of particle i: 25 turns over the height of the tree. */
  function TreeAngle(i: nat, d: Draws): real
  {
    ConeFraction(i) * 50.0 * PI + d.angle * 0.5
  }

  /** The nebula's radial distance for a particle. */
  function ChaosDistance(d: Draws): real
  {
    4.0 + d.dist * 4.0
  }

  /** The colour choice: inner (green) when the draw exceeds 0.6, then one of two
      greens 50:50; otherwise one of two golds, Gold when the next draw exceeds 0.3. */
  function ChooseHue(d: Draws): (h: Hue)
    ensures IsInner(h) <==> d.inner > 0.6
    ensures h == Emerald <==> d.inner > 0.6 && d.hue > 0.5
    ensures h == Gold <==> d.inner <= 0.6 && d.hue > 0.3
  {
    var isInner := d.inner > 0.6;
    if isInner then (if d.hue > 0.5 then Emerald else LightGreen)
    else (if d.hue > 0.3 then Gold else DeepGold)
  }

  /** The tree position of particle i: on the cone, wound around the axis. */
  function TreePosition(i: nat, d: Draws, trig: Trig): Vec3
  {
    var y := ConeHeight(i);
    var r := TreeRadius(i, d);
    var angle := TreeAngle(i, d);
    Vec3(trig.cos(angle) * r, y, trig.sin(angle) * r)
  }

  /** The nebula position: spherical coordinates with a uniform azimuth theta,
      a polar angle phi = acos(2v - 1) and the distance ChaosDistance. */
  function ChaosPosition(d: Draws, trig: Trig, acos: real -> real): Vec3
  {
    var theta := 2.0 * PI * d.u;
    var phi := acos(2.0 * d.v - 1.0);
    var dist := ChaosDistance(d);
    SphericalPoint(dist, trig.sin(phi), trig.cos(phi), trig.sin(theta), trig.cos(theta))
  }

  /** The generator's body for index i. */
  function GenerateParticle(i: nat, d: Draws, trig: Trig, acos: real -> real): Particle
  {
    Particle(
      TreePosition(i, d, trig),
      ChaosPosition(d, trig, acos),
      ChooseHue(d),
      d.scale * 0.12 + 0.03,
      d.speed * 0.2 + 0.1,
      d.phase * PI * 2.0)
  }

  /** What the generator promises of particle i: it sits on the cone at height
      ConeHeight(i), within 0.25 of the cone's radius from the axis; in the
      nebula it sits on a spherical shell between radius 4 and 8; its colour is
      a green exactly when the colour draw exceeds 0.6; and its scale, speed and
      phase lie in [0.03, 0.15), [0.1, 0.3) and [0, 2 pi). */
  ghost predicate WellFormed(i: nat, d: Draws, p: Particle)
  {
    && p.treePos.y == ConeHeight(i)
    && AxisDistance2(p.treePos) == TreeRadius(i, d) * TreeRadius(i, d)
    && RadiusBase(i) - 0.25 <= TreeRadius(i, d) < RadiusBase(i) + 0.25
    && Norm2(p.chaosPos) == ChaosDistance(d) * ChaosDistance(d)
    && 16.0 <= Norm2(p.chaosPos) < 64.0
    && (IsInner(p.color) <==> d.inner > 0.6)
    && 0.03 <= p.scale < 0.15
    && 0.1 <= p.speed < 0.3
    && 0.0 <= p.phase < 2.0 * PI
  }

  lemma ParticleShape(i: nat, d: Draws, trig: Trig, acos: real -> real)
    requires i < COUNT && ValidDraws(d) && IsTrig(trig)
    ensures WellFormed(i, d, GenerateParticle(i, d, trig, acos))
  {
    TreePositionShape(i, d, trig);
    ChaosPositionShape(d, trig, acos);
  }

  lemma TreePositionShape(i: nat, d: Draws, trig: Trig)
    requires IsTrig(trig)
    ensures AxisDistance2(TreePosition(i, d, trig)) == TreeRadius(i, d) * TreeRadius(i, d)
  {
    CircleAxisDistance(TreeRadius(i, d), trig.cos(TreeAngle(i, d)), trig.sin(TreeAngle(i, d)));
  }

  lemma ChaosPositionShape(d: Draws, trig: Trig, acos: real -> real)
    requires ValidDraws(d) && IsTrig(trig)
    ensures Norm2(ChaosPosition(d, trig, acos)) == ChaosDistance(d) * ChaosDistance(d)
    ensures 16.0 <= Norm2(ChaosPosition(d, trig, acos)) < 64.0
  {
    var theta := 2.0 * PI * d.u;
    var phi := acos(2.0 * d.v - 1.0);
    var dist := ChaosDistance(d);
    SphereNorm(dist, trig.sin(phi), trig.cos(phi), trig.sin(theta), trig.cos(theta));
    ShellBounds(dist);
  }

  /** A distance in [4, 8) has its square in [16, 64). */
  lemma ShellBounds(dist: real)
    requires 4.0 <= dist < 8.0
    ensures 16.0 <= dist * dist < 64.0
  {
    assert dist * dist >= 4.0 * dist;
    assert dist * dist < 8.0 * dist;
  }

  /** The memoized data: the generator mapped over the indices 0 .. COUNT-1. */
  function Generate(draws: seq<Draws>, trig: Trig, acos: real -> real): (data: seq<Particle>)
    requires |draws| == COUNT
    ensures |data| == COUNT
    ensures forall i :: 0 <= i < COUNT ==> data[i] == GenerateParticle(i, draws[i], trig, acos)
  {
    seq(COUNT, i requires 0 <= i < COUNT => GenerateParticle(i, draws[i], trig, acos))
  }

  /** Every generated particle is well formed. */
  lemma FieldShape(draws: seq<Draws>, trig: Trig, acos: real -> real)
    requires |draws| == COUNT && IsTrig(trig)
    requires forall i :: 0 <= i < COUNT ==> ValidDraws(draws[i])
    ensures forall i :: 0 <= i < COUNT ==> WellFormed(i, draws[i], Generate(draws, trig, acos)[i])
  {
    forall i | 0 <= i < COUNT
      ensures WellFormed(i, draws[i], Generate(draws, trig, acos)[i])
    {
      ParticleShape(i, draws[i], trig, acos);
    }
  }

  // ---------------------------------------------------------------- morph controller

  /** The progress the controller heads for: 1 (the tree) in the formed
      states, 0 (the nebula) in CHAOS. */
  function Target(s: AnimationState): (r: real)
    ensures Formed(s) ==> r == 1.0
    ensures s == CHAOS ==> r == 0.0
  {
    if Formed(s) then 1.0 else 0.0
  }

  /** The damping rate: 1.5 when forming, 0.8 when dispersing. */
  function Rate(s: AnimationState): (r: real)
    ensures r > 0.0
    ensures Formed(s) ==> r == 1.5
    ensures s == CHAOS ==> r == 0.8
  {
    if Formed(s) then 1.5 else 0.8
  }

  /** Forming is faster than dispersing: in a formed state a frame closes a
      larger share of the remaining distance than in CHAOS. */
  lemma FormingFaster(s: AnimationState, alphaOf: real -> real)
    requires IsDampLaw(alphaOf) && Formed(s)
    ensures alphaOf(Rate(CHAOS)) < alphaOf(Rate(s))
  {
    assert Rate(CHAOS) < Rate(s);
  }

  /** progress after one frame. With reduced motion it snaps to the target.
      Otherwise the distance to the target shrinks by 1 - alphaOf(Rate(s)):
      it moves strictly closer, never overshoots, stays once there, and it
      never leaves [0, 1] once inside. */
  function NextProgress(p: real, s: AnimationState, reducedMotion: bool, alphaOf: real -> real): (r: real)
    requires IsDampLaw(alphaOf)
    ensures reducedMotion ==> r == Target(s)
    ensures !reducedMotion ==> r - Target(s) == (1.0 - alphaOf(Rate(s))) * (p - Target(s))
    ensures !reducedMotion && p < Target(s) ==> p < r < Target(s)
    ensures !reducedMotion && Target(s) < p ==> Target(s) < r < p
    ensures p == Target(s) ==> r == p
    ensures 0.0 <= p <= 1.0 ==> 0.0 <= r <= 1.0
  {
    if reducedMotion then Target(s) else Damp(p, Target(s), alphaOf(Rate(s)))
  }

  /** The secondary-motion regime of a frame. */
  datatype Regime = Shimmer | Drift

  /** Shimmer and rotation once progress is past 0.8, drift otherwise. */
  function RegimeOf(mix: real): (r: Regime)
    ensures r == Shimmer <==> mix > 0.8
    ensures r == Drift <==> mix <= 0.8
  {
    if mix > 0.8 then Shimmer else Drift
  }

  /** A particle's position blended between nebula and tree: the nebula
      position at progress 0, the tree position at progress 1. */
  function Blend(d: Particle, mix: real): (b: Vec3)
    ensures mix == 0.0 ==> b == d.chaosPos
    ensures mix == 1.0 ==> b == d.treePos
  {
    LerpVectors(d.chaosPos, d.treePos, mix)
  }

  /** The formed regime: a vertical shimmer of at most 0.02, then a rotation of
      the whole tree about the vertical axis by 0.1 rad per second, which keeps
      every particle's distance from the axis. */
  function ShimmerRotate(p: Vec3, phase: real, t: real, trig: Trig): (q: Vec3)
    requires IsTrig(trig)
    ensures AxisDistance2(q) == AxisDistance2(p)
    ensures p.y - 0.02 <= q.y <= p.y + 0.02
  {
    var y := p.y + trig.sin(t * 2.0 + phase) * 0.02;
    var rot := t * 0.1;
    RotationKeepsAxisDistance(p.x, p.z, trig.cos(rot), trig.sin(rot));
    Vec3(p.x * trig.cos(rot) - p.z * trig.sin(rot), y, p.x * trig.sin(rot) + p.z * trig.cos(rot))
  }

  /** The transitional regime: each axis drifts by at most 0.01. */
  function DriftAround(p: Vec3, speed: real, phase: real, t: real, trig: Trig): (q: Vec3)
    requires IsTrig(trig)
    ensures p.x - 0.01 <= q.x <= p.x + 0.01
    ensures p.y - 0.01 <= q.y <= p.y + 0.01
    ensures p.z - 0.01 <= q.z <= p.z + 0.01
  {
    Vec3(p.x + trig.sin(t * speed + phase) * 0.01,
         p.y + trig.cos(t * speed + phase) * 0.01,
         p.z + trig.sin(t * speed * 0.5 + phase) * 0.01)
  }

  /** One per-instance transform. */
  datatype Instance = Instance(position: Vec3, scale: real, rotation: Vec3)

  /** The transform written for particle d at progress mix and elapsed time t.
      Its position lies within the regime's bounds around the blended point;
      its scale stays within 0.2 of the particle's own and equals it at mix 0;
      its spin does not touch the position. */
  function InstanceAt(d: Particle, mix: real, t: real, trig: Trig): (inst: Instance)
    requires IsTrig(trig)
    ensures mix > 0.8 ==>
      && AxisDistance2(inst.position) == AxisDistance2(Blend(d, mix))
      && Blend(d, mix).y - 0.02 <= inst.position.y <= Blend(d, mix).y + 0.02
    ensures mix <= 0.8 ==>
      && Blend(d, mix).x - 0.01 <= inst.position.x <= Blend(d, mix).x + 0.01
      && Blend(d, mix).y - 0.01 <= inst.position.y <= Blend(d, mix).y + 0.01
      && Blend(d, mix).z - 0.01 <= inst.position.z <= Blend(d, mix).z + 0.01
    ensures d.scale - 0.2 <= inst.scale <= d.scale + 0.2
    ensures mix == 0.0 ==> inst.scale == d.scale
  {
    var p := Blend(d, mix);
    var position := match RegimeOf(mix)
      case Shimmer => ShimmerRotate(p, d.phase, t, trig)
      case Drift => DriftAround(p, d.speed, d.phase, t, trig);
    var pop := trig.sin(mix * PI) * 0.2;
    Instance(position, d.scale + pop, Vec3(t * d.speed, t * d.speed * 0.5, 0.0))
  }

  /** The MagicTree component's state: the particle data, memoized once and
      never written again; the instanced mesh's transform and colour buffers;
      whether the mesh ref is attached; and the progress ref. */
  class MagicTree {
    const data: seq<Particle>
    const mesh: array<Instance>
    const colors: array<Hue>
    var meshReady: bool
    var progress: real

    /** Both buffers hold one slot per particle, and progress stays in [0, 1]. */
    ghost predicate Valid()
      reads this
    {
      |data| == COUNT && mesh.Length == COUNT && colors.Length == COUNT && 0.0 <= progress <= 1.0
    }

    /** Mounting: the data is generated once, progress starts at 0, the mesh
        ref is not attached yet. */
    constructor (draws: seq<Draws>, trig: Trig, acos: real -> real)
      requires |draws| == COUNT
      ensures Valid() && fresh(mesh) && fresh(colors)
      ensures data == Generate(draws, trig, acos)
      ensures progress == 0.0 && !meshReady
    {
      data := Generate(draws, trig, acos);
      mesh := new Instance[COUNT];
      colors := new Hue[COUNT];
      meshReady := false;
      progress := 0.0;
    }

    /** React attaches the instanced mesh to its ref. */
    method AttachMesh()
      requires Valid()
      modifies this`meshReady
      ensures Valid() && meshReady
    {
      meshReady := true;
    }

    /** The layout effect: once the mesh is attached, write every particle's
        colour into the colour buffer. */
    method PaintColors()
      requires Valid()
      modifies colors
      ensures !meshReady ==> colors[..] == old(colors[..])
      ensures meshReady ==> forall i :: 0 <= i < COUNT ==> colors[i] == data[i].color
    {
      if !meshReady {
        return;
      }
      var i := 0;
      while i < |data|
        invariant 0 <= i <= |data|
        invariant forall k :: 0 <= k < i ==> colors[k] == data[k].color
      {
        colors[i] := data[i].color;
        i := i + 1;
      }
    }

    /** The frame callback. Before the mesh is attached it does nothing. Then it
        updates progress (snap with reduced motion, damp otherwise) and writes the
        transform of every particle at the new progress into the mesh buffer. Only
        progress and the buffer change; the particle data is constant. */
    method Frame(state: AnimationState, reducedMotion: bool, elapsed: real,
                 alphaOf: real -> real, trig: Trig)
      requires Valid() && IsDampLaw(alphaOf) && IsTrig(trig)
      modifies this`progress, mesh
      ensures Valid()
      ensures !meshReady ==> progress == old(progress) && mesh[..] == old(mesh[..])
      ensures meshReady ==> progress == NextProgress(old(progress), state, reducedMotion, alphaOf)
      ensures meshReady ==> forall i :: 0 <= i < COUNT ==> mesh[i] == InstanceAt(data[i], progress, elapsed, trig)
    {
      if !meshReady {
        return;
      }
      var isFormed := state == TREE || state == FINISHED || state == MORPH;
      var target := if isFormed then 1.0 else 0.0;
      if reducedMotion {
        progress := target;
      } else {
        var speed := if isFormed then 1.5 else 0.8;
        progress := Damp(progress, target, alphaOf(speed));
      }
      var t := elapsed;
      var mix := progress;
      var i := 0;
      while i < |data|
        invariant 0 <= i <= |data|
        invariant progress == mix
        invariant forall k :: 0 <= k < i ==> mesh[k] == InstanceAt(data[k], mix, t, trig)
      {
        mesh[i] := InstanceAt(data[i], mix, t, trig);
        i := i + 1;
      }
    }
  }

  // ---------------------------------------------------------------- ribbons

  /** A ribbon's props. */
  datatype RibbonSpec = RibbonSpec(radius: real, speed: real, offset: real)

  /** The three golden ribbons. */
  const RIBBONS: seq<RibbonSpec> :=
    [RibbonSpec(3.0, 0.5, 0.0), RibbonSpec(3.5, 0.4, 2.0), RibbonSpec(2.5, 0.6, 4.0)]

  /** The ribbons rendered: none with reduced motion, all three otherwise. */
  function MountedRibbons(reducedMotion: bool): (r: seq<RibbonSpec>)
    ensures reducedMotion <==> r == []
    ensures !reducedMotion ==> r == RIBBONS
  {
    if reducedMotion then [] else RIBBONS
  }

  /** The ribbon's own clock. */
  function RibbonPhase(spec: RibbonSpec, elapsed: real): real
  {
    elapsed * spec.speed + spec.offset
  }

  /** The path in CHAOS: an orbit at distance 2 * radius from the vertical axis. */
  function Orbit(spec: RibbonSpec, t: real, trig: Trig): Vec3
  {
    Vec3(trig.sin(t) * spec.radius * 2.0, trig.cos(t * 0.5) * spec.radius * 2.0, trig.cos(t) * spec.radius * 2.0)
  }

  /** The orbit is a circle of radius 2 * radius about the vertical axis,
      bobbing between -2 * radius and 2 * radius in height. */
  lemma OrbitShape(spec: RibbonSpec, t: real, trig: Trig)
    requires IsTrig(trig) && spec.radius >= 0.0
    ensures AxisDistance2(Orbit(spec, t, trig)) == (spec.radius * 2.0) * (spec.radius * 2.0)
    ensures -2.0 * spec.radius <= Orbit(spec, t, trig).y <= 2.0 * spec.radius
  {
    var R := spec.radius * 2.0;
    var sn, cs, h := trig.sin(t), trig.cos(t), trig.cos(t * 0.5);
    assert Orbit(spec, t, trig) == Vec3(sn * R, h * R, cs * R);
    CircleAxisDistance(R, sn, cs);
    UnitScale(h, R);
  }

  /** Height of the helix. */
  function SpiralY(t: real, trig: Trig): real
  {
    (trig.sin(t) + 1.0) * 2.5 - 2.5
  }

  /** Radius of the helix at height y: it narrows linearly toward the top. */
  function SpiralRadius(spec: RibbonSpec, y: real): real
  {
    (2.5 - y) * 0.5 * (spec.radius / 3.0)
  }

  /** While y is in [-2.5, 2.5] the helix radius stays between 0 and 5/6 of
      the ribbon's radius. */
  lemma SpiralRadiusRange(spec: RibbonSpec, y: real)
    requires -2.5 <= y <= 2.5 && spec.radius >= 0.0
    ensures 0.0 <= SpiralRadius(spec, y) <= spec.radius * 5.0 / 6.0
  {
    var u := 2.5 - y;
    var k := spec.radius / 6.0;
    assert SpiralRadius(spec, y) == k * u;
    ScaleDown(k, u / 5.0);
    assert k * u == 5.0 * (k * (u / 5.0));
  }

  /** The path in the formed states: a helix around the tree. */
  function Spiral(spec: RibbonSpec, t: real, trig: Trig): Vec3
  {
    var spiralY := SpiralY(t, trig);
    var currentRadius := SpiralRadius(spec, spiralY);
    Vec3(trig.cos(t * 3.0) * currentRadius, spiralY, trig.sin(t * 3.0) * currentRadius)
  }

  /** The helix stays between heights -2.5 and 2.5, and its point lies at
      distance SpiralRadius (between 0 and 5/6 of the radius) from the axis. */
  lemma SpiralShape(spec: RibbonSpec, t: real, trig: Trig)
    requires IsTrig(trig)
    ensures -2.5 <= Spiral(spec, t, trig).y <= 2.5
    ensures AxisDistance2(Spiral(spec, t, trig))
            == SpiralRadius(spec, Spiral(spec, t, trig).y) * SpiralRadius(spec, Spiral(spec, t, trig).y)
    ensures spec.radius >= 0.0 ==> 0.0 <= SpiralRadius(spec, Spiral(spec, t, trig).y) <= spec.radius * 5.0 / 6.0
  {
    var currentRadius := SpiralRadius(spec, SpiralY(t, trig));
    CircleAxisDistance(currentRadius, trig.cos(t * 3.0), trig.sin(t * 3.0));
    if spec.radius >= 0.0 {
      SpiralRadiusRange(spec, SpiralY(t, trig));
    }
  }

  /** One Ribbon component: its props, and the position of its leading mesh. */
  class Ribbon {
    const spec: RibbonSpec
    var position: Vec3
    var attached: bool

    constructor (spec: RibbonSpec)
      ensures this.spec == spec && position == ORIGIN && !attached
    {
      this.spec := spec;
      position := ORIGIN;
      attached := false;
    }

    /** React attaches the mesh to the ribbon's ref. */
    method Attach()
      modifies this`attached
      ensures attached
    {
      attached := true;
    }

    /** The ribbon's frame callback: nothing before the mesh is attached; then
        the orbit in CHAOS and the helix in every other state. */
    method Frame(state: AnimationState, elapsed: real, trig: Trig)
      modifies this`position
      ensures !attached ==> position == old(position)
      ensures attached && state == CHAOS ==> position == Orbit(spec, RibbonPhase(spec, elapsed), trig)
      ensures attached && state != CHAOS ==> position == Spiral(spec, RibbonPhase(spec, elapsed), trig)
    {
      if !attached {
        return;
      }
      var t := RibbonPhase(spec, elapsed);
      if state == CHAOS {
        position := Vec3(trig.sin(t) * spec.radius * 2.0,
                         trig.cos(t * 0.5) * spec.radius * 2.0,
                         trig.cos(t) * spec.radius * 2.0);
      } else {
        var spiralY := (trig.sin(t) + 1.0) * 2.5 - 2.5;
        var currentRadius := (2.5 - spiralY) * 0.5 * (spec.radius / 3.0);
        position := position.(x := trig.cos(t * 3.0) * currentRadius);
        position := position.(z := trig.sin(t * 3.0) * currentRadius);
        position := position.(y := spiralY);
      }
    }
  }
}
