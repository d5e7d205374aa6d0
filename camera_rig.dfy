/** The camera parallax: each rendered frame moves the camera's x and y five
    percent of the way to targets proportional to the mouse position. The
    component uses the constant mouse (0, 0), so the targets are the origin. */
module CameraRig {
  import opened MathUtils

  /** The mouse the component uses in place of the store's value. */
  const RigMouseX: real := 0.0
  const RigMouseY: real := 0.0

  /** The share of the remaining distance the camera covers in one frame. */
  const CameraLerp: real := 0.05

  function TargetX(mouseX: real): real { mouseX * 0.5 }
  function TargetY(mouseY: real): real { mouseY * 0.3 }

  /** For a mouse in [-1, 1]² the targets lie in [-0.5, 0.5] × [-0.3, 0.3]. */
  lemma TargetsInRange(mouseX: real, mouseY: real)
    requires -1.0 <= mouseX <= 1.0 && -1.0 <= mouseY <= 1.0
    ensures -0.5 <= TargetX(mouseX) <= 0.5
    ensures -0.3 <= TargetY(mouseY) <= 0.3
  {
  }

  /** The camera position. */
  class Camera {
    var x: real
    var y: real
    var z: real

    constructor (x0: real, y0: real, z0: real)
      ensures x == x0 && y == y0 && z == z0
    {
      x, y, z := x0, y0, z0;
    }
  }

  /** The `useFrame` callback; it never assigns `z`. */
  method Frame(camera: Camera)
    modifies camera
    ensures camera.x == Lerp(old(camera.x), TargetX(RigMouseX), CameraLerp)
    ensures camera.y == Lerp(old(camera.y), TargetY(RigMouseY), CameraLerp)
    ensures camera.z == old(camera.z)
  {
    var targetX := RigMouseX * 0.5;
    var targetY := RigMouseY * 0.3;
    camera.x := Lerp(camera.x, targetX, 0.05);
    camera.y := Lerp(camera.y, targetY, 0.05);
  }

  /** One frame lands between the coordinate and its target and leaves 95
      percent of the distance. */
  lemma CameraStep(v: real, target: real)
    ensures Min(v, target) <= Lerp(v, target, CameraLerp) <= Max(v, target)
    ensures Abs(Lerp(v, target, CameraLerp) - target) == 0.95 * Abs(v - target)
  {
    LerpNoOvershoot(v, target, CameraLerp);
  }

  /** With the constant mouse the targets are 0: after `n` frames a coordinate
      is `0.95^n` times its starting value, and the origin does not move. */
  lemma CameraDecaysToOrigin(v: real, n: nat)
    ensures TargetX(RigMouseX) == 0.0 && TargetY(RigMouseY) == 0.0
    ensures Ease(v, 0.0, CameraLerp, n) == Pow(0.95, n) * v
    ensures Ease(0.0, 0.0, CameraLerp, n) == 0.0
  {
    EaseDistance(v, 0.0, CameraLerp, n);
    EaseDistance(0.0, 0.0, CameraLerp, n);
  }
}
