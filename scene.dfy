/** The camera rig of the scene (components/Scene.tsx): a cinematic push-in
    toward the tree, a gentle sway, and a fixed pose with reduced motion. */
module Scene {
  import opened Types
  import opened FrameMath

  /** The damping rate of the camera's distance. */
  const CAMERA_RATE: real := 0.8

  /** The fixed pose used with reduced motion. */
  const STILL_POSITION: Vec3 := Vec3(0.0, 0.0, 9.0)

  /** The point the moving camera looks at, slightly above the tree's centre. */
  const TREE_CENTRE: Vec3 := Vec3(0.0, 0.5, 0.0)

  /** The camera's position and the point it was last told to look at. */
  class Camera {
    var position: Vec3
    var lookAt: Vec3

    constructor (position: Vec3)
      ensures this.position == position && lookAt == ORIGIN
    {
      this.position := position;
      lookAt := ORIGIN;
    }
  }

  /** The distance the camera pushes toward: 14 for the nebula, 8 close up
      in the formed states. */
  function TargetDistance(s: AnimationState): (z: real)
    ensures s == CHAOS ==> z == 14.0
    ensures Formed(s) ==> z == 8.0
  {
    if Formed(s) then 8.0 else 14.0
  }

  /** Horizontal sway: within half a unit either side. */
  function SwayX(t: real, trig: Trig): (x: real)
    requires IsTrig(trig)
    ensures -0.5 <= x <= 0.5
  {
    trig.sin(t * 0.1) * 0.5
  }

  /** Vertical sway: within 0.2 either side. */
  function SwayY(t: real, trig: Trig): (y: real)
    requires IsTrig(trig)
    ensures -0.2 <= y <= 0.2
  {
    trig.cos(t * 0.15) * 0.2
  }

  /** The CameraRig frame callback. With reduced motion it places the camera at
      (0, 0, 9) looking at the origin and returns without damping. Otherwise
      it damps the distance toward TargetDistance at rate 0.8, sets the sway,
      and looks at (0, 0.5, 0). */
  method CameraRigFrame(camera: Camera, state: AnimationState, reducedMotion: bool,
                        elapsed: real, alphaOf: real -> real, trig: Trig)
    requires IsDampLaw(alphaOf) && IsTrig(trig)
    modifies camera
    ensures reducedMotion ==> camera.position == STILL_POSITION && camera.lookAt == ORIGIN
    ensures !reducedMotion ==>
      camera.position.z == Damp(old(camera.position.z), TargetDistance(state), alphaOf(CAMERA_RATE))
    ensures !reducedMotion ==>
      camera.position.x == SwayX(elapsed, trig) && camera.position.y == SwayY(elapsed, trig)
    ensures !reducedMotion ==> camera.lookAt == TREE_CENTRE
  {
    if reducedMotion {
      camera.position := Vec3(0.0, 0.0, 9.0);
      camera.lookAt := ORIGIN;
      return;
    }
    var targetZ := 14.0;
    if state == MORPH || state == TREE || state == FINISHED {
      targetZ := 8.0;
    }
    camera.position := camera.position.(z := Damp(camera.position.z, targetZ, alphaOf(0.8)));
    var t := elapsed;
    camera.position := camera.position.(x := trig.sin(t * 0.1) * 0.5);
    camera.position := camera.position.(y := trig.cos(t * 0.15) * 0.2);
    camera.lookAt := Vec3(0.0, 0.5, 0.0);
  }

  /** Over successive frames at a fixed delta the distance moves monotonically
      toward 14 in CHAOS and toward 8 otherwise, never passing it; after n
      frames its distance from the target is (1 - alpha)^n times the start's. */
  lemma CameraFramesApproach(z: real, s: AnimationState, alpha: real, n: nat)
    requires 0.0 < alpha < 1.0
    ensures z < TargetDistance(s) ==>
      z <= DampFrames(z, TargetDistance(s), alpha, n) < DampFrames(z, TargetDistance(s), alpha, n + 1) < TargetDistance(s)
    ensures TargetDistance(s) < z ==>
      TargetDistance(s) < DampFrames(z, TargetDistance(s), alpha, n + 1) < DampFrames(z, TargetDistance(s), alpha, n) <= z
    ensures DampFrames(z, TargetDistance(s), alpha, n) - TargetDistance(s)
            == Pow(1.0 - alpha, n) * (z - TargetDistance(s))
  {
    DampFramesApproach(z, TargetDistance(s), alpha, n);
    DampFramesClosed(z, TargetDistance(s), alpha, n);
  }

  /** The push-in converges: from SettleFrames frames on, the distance stays
      within eps of 14 in CHAOS and of 8 in the formed states. */
  lemma CameraSettles(z: real, s: AnimationState, alpha: real, eps: real, n: nat)
    requires 0.0 < alpha < 1.0 && 0.0 < eps
    requires n >= SettleFrames(z - TargetDistance(s), alpha, eps)
    ensures s == CHAOS ==> -eps < DampFrames(z, 14.0, alpha, n) - 14.0 < eps
    ensures Formed(s) ==> -eps < DampFrames(z, 8.0, alpha, n) - 8.0 < eps
  {
    DampFramesSettle(z, TargetDistance(s), alpha, eps, n);
  }
}
