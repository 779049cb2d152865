/**
 * `MultiRayCastGroundDetection`: 21 sphere casts, 9 degrees apart, fired
 * straight down from points around the front half of the wheel's rim. For
 * every hit it works out where the wheel centre would rest on that point,
 * and keeps the hit that puts the wheel highest (it minimises minus that
 * height); among equal heights the first cast wins.
 *
 * The rotations that place the cast origins, the scene trace and the
 * world-to-local transform are outside the model: `castAt(i)` is the result
 * of cast `i`, and `toLocal`, `asin` and `cos` are parameters.
 */
module MultiRayCastGroundDetections {
  import opened Common
  import opened GroundHits
  import opened WheelControllers

  const CastCount: nat := 21

  /** The bound the search starts from. */
  const InitialNearest: real := 10000000000.0

  /** The angle between neighbouring casts, in degrees. */
  function StepAngle(): real
  {
    180.0 / (CastCount - 1) as real
  }

  /** The 21 casts are 9 degrees apart and together sweep half a turn. */
  lemma CastsSweepHalfTurn()
    ensures StepAngle() == 9.0
    ensures StepAngle() * (CastCount - 1) as real == 180.0
  {
  }

  /** How far above the wheel the casts start: 1.1 radii with a suspension, 0.1 radii without. */
  function CastOffset(radius: real, maxLength: real): real
  {
    if maxLength > 0.0 then radius * 1.1 else radius * 0.1
  }

  /** How far the casts reach: 2.2 radii plus the suspension travel plus the offset. */
  function CastDistance(radius: real, maxLength: real): real
  {
    radius * 2.2 + maxLength + CastOffset(radius, maxLength)
  }

  /**
   * Whatever the offset, a cast reaches 2.2 radii plus the suspension travel
   * below the wheel's own position, and the casts start higher with a
   * suspension than without one (for a positive radius).
   */
  lemma CastReach(radius: real, maxLength: real)
    ensures CastDistance(radius, maxLength) - CastOffset(radius, maxLength) == radius * 2.2 + maxLength
    ensures radius > 0.0 && maxLength > 0.0 ==> CastOffset(radius, maxLength) > CastOffset(radius, 0.0)
  {
  }

  /** The key of a hit: minus the height the wheel centre would rest at on it. */
  function ImpliedKey(local: Vec3, radius: real, asin: real -> real, cos: real -> real): real
  {
    -GroundedZ(local, radius, asin, cos)
  }

  /** The key of one cast, or nothing for a miss. */
  function KeyOf(trace: SceneTrace, toLocal: Vec3 -> Vec3, radius: real, asin: real -> real, cos: real -> real)
    : Option<real>
  {
    if trace.hit then Some(ImpliedKey(toLocal(trace.hitPosition), radius, asin, cos)) else None
  }

  /** The key of each cast. */
  function Keys(castAt: nat -> SceneTrace, toLocal: Vec3 -> Vec3, radius: real,
                asin: real -> real, cos: real -> real): (keys: seq<Option<real>>)
    ensures |keys| == CastCount
  {
    seq(CastCount, i requires 0 <= i < CastCount => KeyOf(castAt(i), toLocal, radius, asin, cos))
  }

  class MultiRayCastGroundDetection {
    /** `_nearestHit`, which outlives the call. */
    var nearestHit: SceneTrace

    constructor()
      ensures !nearestHit.hit
    {
      nearestHit := SceneTrace(false, Vec3(0.0, 0.0, 0.0), Vec3(0.0, 0.0, 0.0), Vec3(0.0, 0.0, 0.0), 0.0, 0);
    }

    /**
     * `GetGroundHit` (and `Cast`, which returns it): the hit that puts the
     * wheel highest, the first among equals; with no hit, the previous
     * nearest hit with `Hit` cleared.
     */
    method GetGroundHit(castAt: nat -> SceneTrace, toLocal: Vec3 -> Vec3, radius: real,
                        asin: real -> real, cos: real -> real) returns (r: SceneTrace)
      modifies this`nearestHit
      ensures r == nearestHit
      ensures r.hit ==> exists i :: IsEarliestMin(Keys(castAt, toLocal, radius, asin, cos), InitialNearest, i)
                                    && r == castAt(i)
      ensures !r.hit ==> NoneBelow(Keys(castAt, toLocal, radius, asin, cos), InitialNearest)
                         && r == old(nearestHit).(hit := false)
    {
      ghost var keys := Keys(castAt, toLocal, radius, asin, cos);
      var nearestDistance := InitialNearest;
      nearestHit := nearestHit.(hit := false);
      ghost var best: Option<nat> := None;
      for z := 0 to CastCount
        invariant best.None? ==> nearestDistance == InitialNearest && nearestHit == old(nearestHit).(hit := false)
                                 && NoneBelow(keys[..z], InitialNearest)
        invariant best.Some? ==> IsEarliestMin(keys[..z], InitialNearest, best.value)
                                 && nearestDistance == keys[best.value].value && nearestHit == castAt(best.value)
      {
        EarliestStep(keys, InitialNearest, z, best, nearestDistance);
        var trace := castAt(z);
        if trace.hit {
          // The clamped sine, the contact angle and the implied wheel height.
          var dist := ImpliedKey(toLocal(trace.hitPosition), radius, asin, cos);
          assert keys[z] == KeyOf(trace, toLocal, radius, asin, cos) == Some(dist);
          if dist < nearestDistance {
            nearestDistance := dist;
            nearestHit := trace;
            best := Some(z);
          }
        }
      }
      assert keys[..CastCount] == keys;
      r := nearestHit;
      if best.Some? {
        assert IsEarliestMin(keys, InitialNearest, best.value) && r == castAt(best.value);
      }
    }
  }
}
