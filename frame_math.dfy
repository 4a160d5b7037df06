/** The three.js arithmetic the per-frame code relies on, stated over the reals:
    vectors, linear interpolation, exponential damping, and sine and cosine
    as functions supplied by the caller together with the laws they obey. */
module FrameMath {

  /** A point in the scene, as a three.js Vector3. */
  datatype Vec3 = Vec3(x: real, y: real, z: real)

  const ORIGIN: Vec3 := Vec3(0.0, 0.0, 0.0)

  /** Math.PI, as the shortest decimal that rounds to it. */
  const PI: real := 3.141592653589793

  /** Squared distance of a point from the vertical (y) axis. */
  function AxisDistance2(p: Vec3): real
  {
    p.x * p.x + p.z * p.z
  }

  /** Squared distance of a point from the origin. */
  function Norm2(p: Vec3): real
  {
    p.x * p.x + p.y * p.y + p.z * p.z
  }

  /** Sine and cosine. Nothing is computed with them: every property proved
      below holds for any pair that satisfies IsTrig. */
  datatype Trig = Trig(sin: real -> real, cos: real -> real)

  /** The laws of sine and cosine the model uses: both stay in [-1, 1],
      sin^2 + cos^2 = 1, and sin 0 = 0. */
  ghost predicate IsTrig(tr: Trig)
  {
    && (forall a :: -1.0 <= tr.sin(a) <= 1.0 && -1.0 <= tr.cos(a) <= 1.0)
    && (forall a :: tr.sin(a) * tr.sin(a) + tr.cos(a) * tr.cos(a) == 1.0)
    && tr.sin(0.0) == 0.0
  }

  /** THREE.MathUtils.lerp: the point a fraction w of the way from a to b. */
  function Lerp(a: real, b: real, w: real): (r: real)
    ensures w == 0.0 ==> r == a
    ensures w == 1.0 ==> r == b
    ensures 0.0 <= w <= 1.0 && a <= b ==> a <= r <= b
    ensures 0.0 <= w <= 1.0 && b <= a ==> b <= r <= a
  {
    LerpBetween(a, b, w);
    a + (b - a) * w
  }

  lemma LerpBetween(a: real, b: real, w: real)
    ensures 0.0 <= w <= 1.0 && a <= b ==> 0.0 <= (b - a) * w <= b - a
    ensures 0.0 <= w <= 1.0 && b <= a ==> b - a <= (b - a) * w <= 0.0
  {
    if 0.0 <= w <= 1.0 {
      var d := b - a;
      if a <= b {
        ScaleDown(d, w);
      } else {
        ScaleDown(-d, w);
        assert d * w == -((-d) * w);
      }
    }
  }

  /** Scaling a non-negative length by a factor in [0, 1] does not lengthen it. */
  lemma ScaleDown(c: real, w: real)
    requires c >= 0.0 && 0.0 <= w <= 1.0
    ensures 0.0 <= c * w <= c
  {
    assert c * w + c * (1.0 - w) == c;
  }

  /** Scaling a non-negative length by a factor in [-1, 1] stays within plus or
      minus that length. */
  lemma UnitScale(c: real, w: real)
    requires -1.0 <= c <= 1.0 && w >= 0.0
    ensures -w <= c * w <= w
  {
    NonNegProduct(1.0 + c, w);
    NonNegProduct(1.0 - c, w);
    assert (1.0 + c) * w == w + c * w;
    assert (1.0 - c) * w == w - c * w;
  }

  /** The product of two non-negative numbers is non-negative. */
  lemma NonNegProduct(a: real, b: real)
    requires a >= 0.0 && b >= 0.0
    ensures a * b >= 0.0
  {
  }

  /** The product of two positive numbers is positive. */
  lemma PosProduct(a: real, b: real)
    requires a > 0.0 && b > 0.0
    ensures a * b > 0.0
  {
  }

  /** Vector3.lerpVectors: componentwise Lerp. */
  function LerpVectors(a: Vec3, b: Vec3, w: real): (r: Vec3)
    ensures w == 0.0 ==> r == a
    ensures w == 1.0 ==> r == b
  {
    Vec3(Lerp(a.x, b.x, w), Lerp(a.y, b.y, w), Lerp(a.z, b.z, w))
  }

  /** A damping law for one frame: the interpolation factor 1 - exp(-lambda * dt)
      that THREE.MathUtils.damp uses for each positive rate lambda, at the
      frame's fixed positive delta time dt. It lies strictly between 0 and 1
      and grows with the rate, as 1 - exp(-lambda * dt) does. */
  ghost predicate IsDampLaw(alphaOf: real -> real)
  {
    && (forall lambda :: lambda > 0.0 ==> 0.0 < alphaOf(lambda) < 1.0)
    && (forall l1, l2 :: 0.0 < l1 < l2 ==> alphaOf(l1) < alphaOf(l2))
  }

  /** THREE.MathUtils.damp(x, y, lambda, dt), which is
      lerp(x, y, alpha) = (1 - alpha) * x + alpha * y with alpha = 1 - exp(-lambda * dt).
      The remaining distance to the target shrinks by the factor 1 - alpha, so a
      step moves strictly closer to the target, never overshoots it, and stays
      put once it has arrived. */
  function Damp(x: real, y: real, alpha: real): (r: real)
    requires 0.0 < alpha < 1.0
    ensures r - y == (1.0 - alpha) * (x - y)
    ensures x < y ==> x < r < y
    ensures y < x ==> y < r < x
    ensures x == y ==> r == y
  {
    var r := (1.0 - alpha) * x + alpha * y;
    DampStep(x, y, alpha, r);
    r
  }

  lemma DampStep(x: real, y: real, alpha: real, r: real)
    requires 0.0 < alpha < 1.0 && r == (1.0 - alpha) * x + alpha * y
    ensures r - y == (1.0 - alpha) * (x - y)
    ensures x < y ==> x < r < y
    ensures y < x ==> y < r < x
  {
    var beta := 1.0 - alpha;
    var d := y - x;
    var p := alpha * d;
    var q := beta * d;
    assert r == x + p;
    assert r == y - q;
    assert beta * (x - y) == -q;
    if x < y {
      PosProduct(alpha, d);
      PosProduct(beta, d);
    } else if y < x {
      PosProduct(alpha, -d);
      PosProduct(beta, -d);
      assert alpha * (-d) == -p;
      assert beta * (-d) == -q;
    }
  }

  /** The value after n frames damped toward y with the same factor. */
  function DampFrames(x: real, y: real, alpha: real, n: nat): real
    requires 0.0 < alpha < 1.0
  {
    if n == 0 then x else Damp(DampFrames(x, y, alpha, n - 1), y, alpha)
  }

  /** Over successive frames toward a fixed target the value moves strictly and
      monotonically toward it and never reaches the other side of it. */
  lemma {:induction false} DampFramesApproach(x: real, y: real, alpha: real, n: nat)
    requires 0.0 < alpha < 1.0
    ensures x < y ==> x <= DampFrames(x, y, alpha, n) < DampFrames(x, y, alpha, n + 1) < y
    ensures y < x ==> y < DampFrames(x, y, alpha, n + 1) < DampFrames(x, y, alpha, n) <= x
    ensures x == y ==> DampFrames(x, y, alpha, n) == y
  {
    if n > 0 {
      DampFramesApproach(x, y, alpha, n - 1);
    }
  }

  /** b raised to the n-th power. */
  function Pow(b: real, n: nat): real
  {
    if n == 0 then 1.0 else b * Pow(b, n - 1)
  }

  /** After n frames the distance to the target is (1 - alpha)^n times the
      starting distance. */
  lemma {:induction false} DampFramesClosed(x: real, y: real, alpha: real, n: nat)
    requires 0.0 < alpha < 1.0
    ensures DampFrames(x, y, alpha, n) - y == Pow(1.0 - alpha, n) * (x - y)
  {
    if n > 0 {
      DampFramesClosed(x, y, alpha, n - 1);
      ClosedFrame(x, y, alpha, n);
    }
  }

  /** The induction step of DampFramesClosed: one more frame shrinks the
      remaining distance by 1 - alpha. */
  lemma ClosedFrame(x: real, y: real, alpha: real, n: nat)
    requires 0.0 < alpha < 1.0 && n > 0
    requires DampFrames(x, y, alpha, n - 1) - y == Pow(1.0 - alpha, n - 1) * (x - y)
    ensures DampFrames(x, y, alpha, n) - y == Pow(1.0 - alpha, n) * (x - y)
  {
    var prev := DampFrames(x, y, alpha, n - 1);
    var next := DampFrames(x, y, alpha, n);
    assert next == Damp(prev, y, alpha);
    ClosedPow(prev, next, x, y, 1.0 - alpha, n);
  }

  /** If prev lies b^(n-1) times the start distance from y and next shrinks
      that distance by b, next lies b^n times the start distance from y. */
  lemma ClosedPow(prev: real, next: real, x: real, y: real, b: real, n: nat)
    requires n > 0
    requires prev - y == Pow(b, n - 1) * (x - y) && next - y == b * (prev - y)
    ensures next - y == Pow(b, n) * (x - y)
  {
    ClosedStep(prev, next, x, y, b, Pow(b, n - 1), Pow(b, n));
  }

  /** If prev is p times the start distance from y and next shrinks prev's
      distance by b, next is (b * p) times the start distance. */
  lemma ClosedStep(prev: real, next: real, x: real, y: real, b: real, p: real, q: real)
    requires prev - y == p * (x - y) && next - y == b * (prev - y) && q == b * p
    ensures next - y == q * (x - y)
  {
  }

  /** Bernoulli's inequality for the shrink factor: (1 - alpha)^n lies in
      [0, 1] and (1 - alpha)^n * (1 + n * alpha) <= 1. */
  lemma {:induction false} PowShrinks(alpha: real, n: nat)
    requires 0.0 < alpha < 1.0
    ensures 0.0 <= Pow(1.0 - alpha, n) <= 1.0
    ensures Pow(1.0 - alpha, n) * (1.0 + (n as real) * alpha) <= 1.0
  {
    if n > 0 {
      PowShrinks(alpha, n - 1);
      var b := 1.0 - alpha;
      var p := Pow(b, n - 1);
      var k := (n - 1) as real;
      var q := p * (1.0 + k * alpha);
      assert Pow(b, n) == b * p;
      NonNegProduct(b, p);
      NonNegProduct(b, 1.0 - p);
      assert b * p <= b;
      NonNegProduct(b, 1.0 - q);
      assert b * q <= b;
      NonNegProduct(alpha, 1.0 - b * p);
      assert alpha * (b * p) <= alpha;
      assert (b * p) * (1.0 + (n as real) * alpha) == b * q + alpha * (b * p);
    }
  }

  /** The absolute value. */
  function Abs(v: real): (r: real)
    ensures r >= 0.0 && (r == v || r == -v)
  {
    if v < 0.0 then -v else v
  }

  /** A number of frames after which a damped value starting at distance
      dist from its target is within eps of it. */
  function SettleFrames(dist: real, alpha: real, eps: real): nat
    requires 0.0 < alpha && 0.0 < eps
  {
    var f := Abs(dist) / (alpha * eps);
    f.Floor + 1
  }

  /** Damping converges: from frame SettleFrames on, the value stays within eps
      of the target. */
  lemma DampFramesSettle(x: real, y: real, alpha: real, eps: real, n: nat)
    requires 0.0 < alpha < 1.0 && 0.0 < eps
    requires n >= SettleFrames(x - y, alpha, eps)
    ensures -eps < DampFrames(x, y, alpha, n) - y < eps
  {
    DampFramesClosed(x, y, alpha, n);
    ShrunkWithin(DampFrames(x, y, alpha, n) - y, x - y, alpha, eps, n);
  }

  /** A distance shrunk by the factor (1 - alpha)^n, with n at least
      SettleFrames, is below eps. */
  lemma ShrunkWithin(v: real, dist: real, alpha: real, eps: real, n: nat)
    requires 0.0 < alpha < 1.0 && 0.0 < eps
    requires n >= SettleFrames(dist, alpha, eps)
    requires v == Pow(1.0 - alpha, n) * dist
    ensures -eps < v < eps
  {
    ShrunkDistance(dist, alpha, eps, n);
    WithinEps(v, Pow(1.0 - alpha, n), dist, eps);
  }

  /** After SettleFrames frames the shrink factor has brought the distance
      below eps. */
  lemma ShrunkDistance(dist: real, alpha: real, eps: real, n: nat)
    requires 0.0 < alpha < 1.0 && 0.0 < eps
    requires n >= SettleFrames(dist, alpha, eps)
    ensures Pow(1.0 - alpha, n) >= 0.0
    ensures Pow(1.0 - alpha, n) * Abs(dist) < eps
  {
    SettleFramesCover(dist, alpha, eps, n);
    PowBound(alpha, n, Abs(dist), eps);
  }

  /** (1 - alpha)^n brings a distance below n * alpha * eps to below eps. */
  lemma PowBound(alpha: real, n: nat, d: real, eps: real)
    requires 0.0 < alpha < 1.0 && 0.0 < eps
    requires 0.0 <= d < ((n as real) * alpha) * eps
    ensures Pow(1.0 - alpha, n) >= 0.0
    ensures Pow(1.0 - alpha, n) * d < eps
  {
    PowShrinks(alpha, n);
    SettleBound(Pow(1.0 - alpha, n), d, (n as real) * alpha, eps);
  }

  /** A non-negative multiple p * e of e whose size p * |e| is below eps lies
      within eps of 0. */
  lemma WithinEps(v: real, p: real, e: real, eps: real)
    requires v == p * e && p >= 0.0 && p * Abs(e) < eps
    ensures -eps < v < eps
  {
    AbsScale(p, e);
  }

  /** SettleFrames frames cover the distance at eps per frame and unit of alpha. */
  lemma SettleFramesCover(dist: real, alpha: real, eps: real, n: nat)
    requires 0.0 < alpha && 0.0 < eps
    requires n >= SettleFrames(dist, alpha, eps)
    ensures Abs(dist) < ((n as real) * alpha) * eps
  {
    var f := Abs(dist) / (alpha * eps);
    FloorBelow(f, n);
    FramesCoverDistance(Abs(dist), alpha, eps, n as real);
  }

  /** A count beyond the floor of f exceeds f. */
  lemma FloorBelow(f: real, n: int)
    requires n >= f.Floor + 1
    ensures n as real > f
  {
  }

  /** More frames than d / (alpha * eps) cover the distance d at eps per frame
      and unit of alpha. */
  lemma FramesCoverDistance(d: real, alpha: real, eps: real, m: real)
    requires 0.0 < alpha && 0.0 < eps && m > d / (alpha * eps)
    ensures d < (m * alpha) * eps
  {
    var k := alpha * eps;
    PosProduct(alpha, eps);
    var f := d / k;
    assert d == f * k;
    ScaleUp(m, f, k);
    assert (m * alpha) * eps == m * k;
  }

  /** Scaling by a non-negative factor commutes with the absolute value. */
  lemma AbsScale(p: real, v: real)
    requires p >= 0.0
    ensures Abs(p * v) == p * Abs(v)
  {
    if v < 0.0 {
      NonNegProduct(p, -v);
      assert p * (-v) == -(p * v);
    } else {
      NonNegProduct(p, v);
    }
  }

  /** A factor p with p * (1 + c) <= 1 brings a distance below c * eps to
      below eps. */
  lemma SettleBound(p: real, d: real, c: real, eps: real)
    requires 0.0 <= p && p * (1.0 + c) <= 1.0 && 0.0 <= d < c * eps && 0.0 < eps
    ensures p * d < eps
  {
    NonNegProduct(p, c * eps - d);
    assert p * (c * eps - d) == p * (c * eps) - p * d;
    var q := p * (1.0 + c);
    assert p * (c * eps) + p * eps == q * eps;
    NonNegProduct(1.0 - q, eps);
    assert (1.0 - q) * eps == eps - q * eps;
    if p > 0.0 {
      PosProduct(p, eps);
    } else {
      assert p * d == 0.0;
    }
  }

  /** Multiplying by a positive factor keeps a strict order. */
  lemma ScaleUp(a: real, b: real, c: real)
    requires a > b && c > 0.0
    ensures a * c > b * c
  {
    PosProduct(a - b, c);
    assert (a - b) * c == a * c - b * c;
  }

  /** Multiplying by a factor that equals one. */
  lemma MulOne(a: real, s: real)
    requires s == 1.0
    ensures a * s == a
  {
  }

  /** Rotating about the vertical axis by an angle with cosine c and sine s
      keeps the distance from the axis. */
  lemma RotationKeepsAxisDistance(x: real, z: real, c: real, s: real)
    requires c * c + s * s == 1.0
    ensures (x * c - z * s) * (x * c - z * s) + (x * s + z * c) * (x * s + z * c) == x * x + z * z
  {
    calc {
      (x * c - z * s) * (x * c - z * s) + (x * s + z * c) * (x * s + z * c);
      (x * x) * (c * c + s * s) + (z * z) * (c * c + s * s);
      { MulOne(x * x, c * c + s * s); MulOne(z * z, c * c + s * s); }
      x * x + z * z;
    }
  }

  /** A point (c * r, _, s * r) on the circle of radius |r| about the vertical axis. */
  lemma CircleAxisDistance(r: real, c: real, s: real)
    requires c * c + s * s == 1.0
    ensures (c * r) * (c * r) + (s * r) * (s * r) == r * r
  {
    calc {
      (c * r) * (c * r) + (s * r) * (s * r);
      (r * r) * (c * c + s * s);
      { MulOne(r * r, c * c + s * s); }
      r * r;
    }
  }

  /** The point at distance dist in spherical coordinates, given the sine sp
      and cosine cp of its polar angle and the sine st and cosine ct of its
      azimuth. */
  function SphericalPoint(dist: real, sp: real, cp: real, st: real, ct: real): Vec3
  {
    Vec3(dist * sp * ct, dist * sp * st, dist * cp)
  }

  /** A point in spherical coordinates lies at its distance from the origin. */
  lemma SphereNorm(dist: real, sp: real, cp: real, st: real, ct: real)
    requires sp * sp + cp * cp == 1.0 && st * st + ct * ct == 1.0
    ensures Norm2(SphericalPoint(dist, sp, cp, st, ct)) == dist * dist
  {
    var k := dist * dist;
    calc {
      Norm2(SphericalPoint(dist, sp, cp, st, ct));
      (dist * sp * ct) * (dist * sp * ct) + (dist * sp * st) * (dist * sp * st) + (dist * cp) * (dist * cp);
      (k * (sp * sp)) * (st * st + ct * ct) + k * (cp * cp);
      { MulOne(k * (sp * sp), st * st + ct * ct); }
      k * (sp * sp + cp * cp);
      { MulOne(k, sp * sp + cp * cp); }
      k;
    }
  }
}
