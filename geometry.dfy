/** Optional values, used for components an entity may lack and for "nothing found yet". */
module Options {
  datatype Option<T> = None | Some(value: T)
}

/**
 * Real-valued 3-D vectors standing in for Unity.Mathematics.float3.
 *
 * The source compares Euclidean distances (math.distance). Every such comparison is
 * modelled exactly through squared distances: `distance(a, b) <= r` holds iff
 * `r >= 0 && DistSq(a, b) <= r * r`, and `distance(a, b) < distance(a, c)` iff
 * `DistSq(a, b) < DistSq(a, c)`. Square roots, math.normalize and quaternions are not
 * modelled: a normalizer is passed in as a function and rotations are kept abstract.
 */
module Geometry {
  datatype Vec3 = Vec3(x: real, y: real, z: real)

  const Zero: Vec3 := Vec3(0.0, 0.0, 0.0)

  function Add(a: Vec3, b: Vec3): Vec3 {
    Vec3(a.x + b.x, a.y + b.y, a.z + b.z)
  }

  function Sub(a: Vec3, b: Vec3): Vec3 {
    Vec3(a.x - b.x, a.y - b.y, a.z - b.z)
  }

  function Scale(a: Vec3, k: real): Vec3 {
    Vec3(a.x * k, a.y * k, a.z * k)
  }

  function LengthSq(a: Vec3): real {
    a.x * a.x + a.y * a.y + a.z * a.z
  }

  /** The square of math.distance(a, b). */
  function DistSq(a: Vec3, b: Vec3): real {
    LengthSq(Sub(b, a))
  }

  /** math.distance(a, b) <= r. */
  predicate WithinDistance(a: Vec3, b: Vec3, r: real) {
    0.0 <= r && DistSq(a, b) <= r * r
  }

  /** math.distance(a, b) < r. */
  predicate StrictlyWithin(a: Vec3, b: Vec3, r: real) {
    0.0 < r && DistSq(a, b) < r * r
  }

  /**
   * math.normalize, supplied by the caller: the model never computes a square root.
   * Lemmas that need the unit length of a direction ask for it explicitly.
   */
  type Normalizer = Vec3 -> Vec3

  lemma LengthSqNonNegative(a: Vec3)
    ensures LengthSq(a) >= 0.0
  {
    assert a.x * a.x >= 0.0 && a.y * a.y >= 0.0 && a.z * a.z >= 0.0;
  }

  /** A displacement of `d * k` has squared length `k * k` when `d` has unit length. */
  lemma {:induction false} ScaledUnitLength(d: Vec3, k: real)
    requires LengthSq(d) == 1.0
    ensures LengthSq(Scale(d, k)) == k * k
  {
    calc {
      LengthSq(Scale(d, k));
      (d.x * k) * (d.x * k) + (d.y * k) * (d.y * k) + (d.z * k) * (d.z * k);
      { assert (d.x * k) * (d.x * k) == (d.x * d.x) * (k * k);
        assert (d.y * k) * (d.y * k) == (d.y * d.y) * (k * k);
        assert (d.z * k) * (d.z * k) == (d.z * d.z) * (k * k); }
      (d.x * d.x + d.y * d.y + d.z * d.z) * (k * k);
      k * k;
    }
  }

  /** Moving from `p` by `Scale(d, k)` puts the new point at squared distance `k * k` from `p`. */
  lemma StepLength(p: Vec3, d: Vec3, k: real)
    requires LengthSq(d) == 1.0
    ensures DistSq(p, Add(p, Scale(d, k))) == k * k
  {
    assert Sub(Add(p, Scale(d, k)), p) == Scale(d, k);
    ScaledUnitLength(d, k);
  }
}
