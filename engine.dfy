/**
 * Values shared by every component: the nullable reference of the engine
 * (Option), identities of scene objects and assets, and 3-vectors over the
 * reals (floating point is not modelled).
 */
module Engine {

  datatype Option<+T> = None | Some(value: T)

  /** Identity of a scene object (a GameObject); `None` plays null. */
  type ObjectId = nat

  /** Identity of a loaded asset (a prefab or a sprite). */
  type AssetId = nat

  datatype Vec3 = Vec3(x: real, y: real, z: real) {

    function Plus(o: Vec3): Vec3 {
      Vec3(x + o.x, y + o.y, z + o.z)
    }

    function Minus(o: Vec3): Vec3 {
      Vec3(x - o.x, y - o.y, z - o.z)
    }

    function Scaled(k: real): Vec3 {
      Vec3(x * k, y * k, z * k)
    }
  }

  const Zero: Vec3 := Vec3(0.0, 0.0, 0.0)

  /** `Vector3.up`. */
  const Up: Vec3 := Vec3(0.0, 1.0, 0.0)

  /** `Mathf.Clamp`: the lower bound is tested first, so it wins when the bounds cross. */
  function Clamp(x: real, lo: real, hi: real): real {
    if x < lo then lo else if x > hi then hi else x
  }

  /**
   * With ordered bounds the clamp lands within them, leaves exactly the
   * values within them alone and is idempotent.
   */
  lemma ClampSpec(x: real, lo: real, hi: real)
    requires lo <= hi
    ensures lo <= Clamp(x, lo, hi) <= hi
    ensures Clamp(x, lo, hi) == x <==> lo <= x <= hi
    ensures Clamp(Clamp(x, lo, hi), lo, hi) == Clamp(x, lo, hi)
  {
  }
}
