/** The two vault doors and their per-frame easing. Each rendered frame moves
    each door's x position a tenth of the way to its target: the left door
    towards `-0.5 - vaultOffset`, the right one towards `0.5 + vaultOffset`.
    The component uses the constant offset 0, so the targets are the doors'
    initial positions. */
module Vault {
  import opened MathUtils

  /** The offset the component uses in place of the store's value. */
  const VaultOffset: real := 0.0

  /** The share of the remaining distance a door covers in one frame. */
  const DoorLerp: real := 0.1

  /** The meshes' initial x positions. */
  const LeftInitialX: real := -0.5
  const RightInitialX: real := 0.5

  function LeftTarget(offset: real): real { -0.5 - offset }
  function RightTarget(offset: real): real { 0.5 + offset }

  /** A mesh position; the frame step only writes `x`. */
  class Mesh {
    var x: real
    var y: real
    var z: real

    constructor (x0: real, y0: real, z0: real)
      ensures x == x0 && y == y0 && z == z0
    {
      x, y, z := x0, y0, z0;
    }
  }

  /** The `useFrame` callback. A door ref that is not attached (null) makes the
      frame do nothing. */
  method Frame(left: Mesh?, right: Mesh?)
    requires left != null && right != null ==> left != right
    modifies left, right
    ensures left == null || right == null ==>
      (left != null ==> unchanged(left)) && (right != null ==> unchanged(right))
    ensures left != null && right != null ==>
      && left.x == Lerp(old(left.x), LeftTarget(VaultOffset), DoorLerp)
      && right.x == Lerp(old(right.x), RightTarget(VaultOffset), DoorLerp)
      && left.y == old(left.y) && left.z == old(left.z)
      && right.y == old(right.y) && right.z == old(right.z)
  {
    if left != null && right != null {
      left.x := Lerp(left.x, -0.5 - VaultOffset, 0.1);
      right.x := Lerp(right.x, 0.5 + VaultOffset, 0.1);
    }
  }

  /** One frame lands between the door's position and its target and leaves
      nine tenths of the distance. */
  lemma DoorStep(x: real, target: real)
    ensures Min(x, target) <= Lerp(x, target, DoorLerp) <= Max(x, target)
    ensures Abs(Lerp(x, target, DoorLerp) - target) == 0.9 * Abs(x - target)
  {
    LerpNoOvershoot(x, target, DoorLerp);
  }

  /** After `n` frames a door is `0.9^n` times as far from its target as it
      started. */
  lemma DoorAfterFrames(x: real, target: real, n: nat)
    ensures Ease(x, target, DoorLerp, n) - target == Pow(0.9, n) * (x - target)
  {
    EaseDistance(x, target, DoorLerp, n);
  }

  /** With the constant offset the targets are the initial positions, so doors
      that start there stay there for any number of frames. */
  lemma DoorsAtRestStay(n: nat)
    ensures LeftTarget(VaultOffset) == LeftInitialX && RightTarget(VaultOffset) == RightInitialX
    ensures Ease(LeftInitialX, LeftTarget(VaultOffset), DoorLerp, n) == LeftInitialX
    ensures Ease(RightInitialX, RightTarget(VaultOffset), DoorLerp, n) == RightInitialX
  {
    EaseDistance(LeftInitialX, LeftTarget(VaultOffset), DoorLerp, n);
    EaseDistance(RightInitialX, RightTarget(VaultOffset), DoorLerp, n);
  }

  /** The targets mirror each other for every offset, so doors placed
      symmetrically about x = 0 stay symmetric after a frame. */
  lemma FrameKeepsSymmetry(leftX: real, rightX: real, offset: real)
    requires leftX == -rightX
    ensures Lerp(leftX, LeftTarget(offset), DoorLerp) == -Lerp(rightX, RightTarget(offset), DoorLerp)
  {
    LerpNegate(rightX, RightTarget(offset), DoorLerp);
  }
}
