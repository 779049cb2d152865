/**
 * `RayCastGroundDetection`: 20 thick rays fanned out from the wheel centre
 * at 70 - 7i degrees, i = 0 .. 19, so the fan runs from 70 down to -63
 * degrees and is not symmetric. Each ray is `MaxLength * 0.5 + Radius` long
 * with a thickness of half the wheel width. The hit nearest the start, by
 * squared distance, wins, and among equal distances the last ray does.
 *
 * The rotations that aim each ray and the scene trace itself are outside the
 * model: `castAt(i)` is the result of ray `i`.
 */
module RayCastGroundDetections {
  import opened Common
  import opened GroundHits

  const RayCount: nat := 20

  /** `float.MaxValue`, the starting bound of the search. */
  const FloatMax: real := 340282346638528859811704183484516925440.0

  /** The tilt of ray `i` about the body's right axis, in degrees. */
  function RayAngle(i: nat): real
  {
    70.0 - (i as real / RayCount as real) * 140.0
  }

  /** The rays are 7 degrees apart, from 70 down to -63: the fan stops short of -70. */
  lemma FanIsAsymmetric()
    ensures forall i: nat :: RayAngle(i) == 70.0 - 7.0 * i as real
    ensures RayAngle(0) == 70.0 && RayAngle(RayCount - 1) == -63.0
  {
  }

  /** How far each ray reaches, and how thick it is. */
  function RayLength(maxLength: real, radius: real): real { maxLength * 0.5 + radius }
  function TraceRadius(width: real): real { width * 0.5 }

  /** `Vector3.DistanceBetweenSquared(start, hit)`. */
  function SquaredDistance(t: SceneTrace): real
  {
    t.hitPosition.Sub(t.startPosition).LengthSquared()
  }

  /** The key of each ray: its squared hit distance, or nothing for a miss. */
  function Keys(castAt: nat -> SceneTrace): (keys: seq<Option<real>>)
    ensures |keys| == RayCount
  {
    seq(RayCount, i requires 0 <= i < RayCount => if castAt(i).hit then Some(SquaredDistance(castAt(i))) else None)
  }

  class RayCastGroundDetection {
    /** `_nearestHit`, which outlives the call. */
    var nearestHit: SceneTrace

    constructor()
      ensures !nearestHit.hit
    {
      nearestHit := SceneTrace(false, Vec3(0.0, 0.0, 0.0), Vec3(0.0, 0.0, 0.0), Vec3(0.0, 0.0, 0.0), 0.0, 0);
    }

    /**
     * `GetNearestHit`: the ray whose hit is nearest the start, the last one
     * among equals; with no hit, the previous nearest hit with `Hit` cleared.
     */
    method GetNearestHit(castAt: nat -> SceneTrace) returns (r: SceneTrace)
      modifies this`nearestHit
      ensures r == nearestHit
      ensures r.hit ==> exists i :: IsLatestMin(Keys(castAt), FloatMax, i) && r == castAt(i)
      ensures !r.hit ==> NoneAtOrBelow(Keys(castAt), FloatMax) && r == old(nearestHit).(hit := false)
    {
      ghost var keys := Keys(castAt);
      nearestHit := nearestHit.(hit := false);
      var nearestDistance := FloatMax;
      ghost var best: Option<nat> := None;
      for i := 0 to RayCount
        invariant best.None? ==> nearestDistance == FloatMax && nearestHit == old(nearestHit).(hit := false)
                                 && NoneAtOrBelow(keys[..i], FloatMax)
        invariant best.Some? ==> IsLatestMin(keys[..i], FloatMax, best.value)
                                 && nearestDistance == keys[best.value].value && nearestHit == castAt(best.value)
      {
        var trace := castAt(i);
        if trace.hit {
          var frac := SquaredDistance(trace);
          if frac <= nearestDistance {
            nearestDistance := frac;
            nearestHit := trace;
            best := Some(i);
          }
        }
      }
      assert keys[..RayCount] == keys;
      r := nearestHit;
    }

    /**
     * `Cast`: the nearest hit, turned into a ground hit. The hit is also kept
     * as `_nearestHit`; with no hit that is the previous one with `Hit` cleared.
     */
    method Cast(castAt: nat -> SceneTrace) returns (r: SceneTrace)
      modifies this`nearestHit
      ensures r == nearestHit
      ensures r.hit <==> !NoneAtOrBelow(Keys(castAt), FloatMax)
      ensures r.hit ==> exists i :: IsLatestMin(Keys(castAt), FloatMax, i) && r == castAt(i)
      ensures !r.hit ==> r == old(nearestHit).(hit := false)
    {
      r := GetNearestHit(castAt);
      if r.hit {
        var i: nat :| IsLatestMin(Keys(castAt), FloatMax, i) && r == castAt(i);
        assert Keys(castAt)[i].Some? && Keys(castAt)[i].value <= FloatMax;
      }
    }
  }
}
