/**
  The parts of the engine's vector and scalar math that the character
  controller relies on, over the reals.

  Positions and directions are 2D: the controller keeps its movement and
  facing directions in 3D vectors, but every value it stores there comes
  from a 2D vector, so the third component is always zero and is dropped.
 */
module EngineMath {

  /** A 2D vector. */
  datatype Vec = Vec(x: real, y: real)

  /** The zero vector (`Vector2.zero`, `Vector3.zero`). */
  const Zero: Vec := Vec(0.0, 0.0)

  /** The downward unit vector, `new Vector2(0, -1)`. */
  const Down: Vec := Vec(0.0, -1.0)

  /** Component-wise multiplication by a scalar (`v * k`). */
  function Scale(v: Vec, k: real): (r: Vec)
    ensures v == Zero || k == 0.0 ==> r == Zero
    ensures k == 1.0 ==> r == v
    ensures r.x == v.x * k && r.y == v.y * k
  {
    Vec(v.x * k, v.y * k)
  }

  /**
    The one fact the model assumes about the engine's `Normalize`: it
    sends a nonzero vector to a nonzero vector. Nothing is assumed about
    its length or its accuracy.
   */
  ghost predicate NonzeroPreserving(normalize: Vec -> Vec) {
    forall v :: v != Zero ==> normalize(v) != Zero
  }

  function Abs(f: real): (r: real)
    ensures r >= 0.0
    ensures r == f || r == -f
  {
    if f >= 0.0 then f else -f
  }

  /** `Mathf.Sign`: 1 for zero and positive arguments, −1 for negative ones. */
  function Sign(f: real): (r: real)
    ensures r == 1.0 <==> f >= 0.0
    ensures r == -1.0 <==> f < 0.0
  {
    if f >= 0.0 then 1.0 else -1.0
  }

  /**
    `Mathf.MoveTowards(current, target, maxDelta)`: the target itself when it
    lies within `maxDelta`, otherwise `current` moved by `maxDelta` towards it.
   */
  function MoveTowards(current: real, target: real, maxDelta: real): (r: real)
    ensures Abs(target - current) <= maxDelta ==> r == target
    ensures maxDelta >= 0.0 ==> Abs(r - current) <= maxDelta
    ensures maxDelta >= 0.0 ==> r == target || Abs(r - current) == maxDelta
    // r lies between current and target: it gets closer and never overshoots
    ensures maxDelta >= 0.0 && current <= target ==> current <= r <= target
    ensures maxDelta >= 0.0 && target <= current ==> target <= r <= current
  {
    if Abs(target - current) <= maxDelta then target
    else current + Sign(target - current) * maxDelta
  }
}
