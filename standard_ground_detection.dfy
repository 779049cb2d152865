/**
 * `StandardGroundDetection`: a row of sphere casts, each half the wheel width
 * across, fired from points around the front half of the wheel's rim. The
 * number of casts is the wheel diameter over the cast radius, rounded and
 * made odd so that one cast sits in the centre. The hit with the smallest
 * trace fraction wins, the first among equals. Every cast and every hit is
 * also recorded for the editor gizmos.
 *
 * The rotations that place the cast origins and the scene trace are outside
 * the model: `originAt(z)` is where cast `z` starts and `traceFrom(o)` what
 * a cast from `o` returns. The implied wheel position the loop also works
 * out for each hit is never used, and is left out.
 */
module StandardGroundDetections {
  import opened Common
  import opened GroundHits

  /** The bound the search starts from, and the one a result must be below to count. */
  const InitialNearest: real := 10000000000.0
  const ValidBelow: real := 1000000000.0

  /** `Math.Round`: to the nearest integer, halves to the even neighbour. */
  function RoundHalfEven(x: real): (n: int)
  {
    var f := x.Floor;
    var frac := x - f as real;
    if frac < 0.5 then f
    else if frac > 0.5 then f + 1
    else if f % 2 == 0 then f else f + 1
  }

  /** The rounding is to a nearest integer, and a tie goes to the even one. */
  lemma RoundHalfEvenIsNearest(x: real)
    ensures -0.5 <= RoundHalfEven(x) as real - x <= 0.5
    ensures RoundHalfEven(x) as real - x == 0.5 || x - RoundHalfEven(x) as real == 0.5 ==> RoundHalfEven(x) % 2 == 0
  {
  }

  /** The number of casts: the diameter over half the width, rounded, bumped to the next odd number if even. */
  function StepCount(radius: real, width: real): int
  {
    var castRadius := width * 0.5;
    var steps := RoundHalfEven(Div(radius, castRadius) * 2.0);
    if steps % 2 == 0 then steps + 1 else steps
  }

  /** There is always a centre cast: the count is odd, and at most one more than the rounded ratio. */
  lemma StepCountIsOdd(radius: real, width: real)
    ensures StepCount(radius, width) % 2 == 1
    ensures var raw := RoundHalfEven(Div(radius, width * 0.5) * 2.0);
            StepCount(radius, width) == raw || StepCount(radius, width) == raw + 1
  {
  }

  /** The angle between neighbouring casts, in degrees (a single cast divides by zero). */
  function StepAngle(steps: int): real
  {
    Div(180.0, (steps - 1) as real)
  }

  /** With three or more casts the fan sweeps exactly half a turn. */
  lemma FanSweepsHalfTurn(steps: int)
    requires steps >= 3
    ensures StepAngle(steps) > 0.0 && StepAngle(steps) * (steps - 1) as real == 180.0
  {
  }

  /** `WheelCastInfo`: one cast as recorded. */
  datatype CastInfo = CastInfo(trace: SceneTrace, origin: Vec3, direction: Vec3, distance: real,
                               radius: real, width: real)

  /** `WheelCastResult`: a hit as recorded. */
  datatype CastResult = CastResult(point: Vec3, normal: Vec3, castInfo: CastInfo)

  /** `WheelHit`: the output the wheel controller reads; `collider` is null until a hit sets it. */
  datatype WheelHit = WheelHit(point: Vec3, normal: Vec3, collider: Option<nat>)

  const ZeroVec: Vec3 := Vec3(0.0, 0.0, 0.0)
  const NoTrace: SceneTrace := SceneTrace(false, ZeroVec, ZeroVec, ZeroVec, 0.0, 0)
  const NoResult: CastResult := CastResult(ZeroVec, ZeroVec, CastInfo(NoTrace, ZeroVec, ZeroVec, 0.0, 0.0, 0.0))

  /** The trace fraction of each of the first `n` casts, or nothing for a miss. */
  function Keys(originAt: nat -> Vec3, traceFrom: Vec3 -> SceneTrace, n: nat): (keys: seq<Option<real>>)
    ensures |keys| == n
  {
    seq(n, z requires 0 <= z < n =>
          var t := traceFrom(originAt(z)); if t.hit then Some(t.fraction) else None)
  }

  /** The first `n` casts as recorded. */
  function Casts(originAt: nat -> Vec3, traceFrom: Vec3 -> SceneTrace, direction: Vec3, distance: real,
                 radius: real, width: real, n: nat): (infos: seq<CastInfo>)
    ensures |infos| == n
  {
    seq(n, z requires 0 <= z < n =>
          CastInfo(traceFrom(originAt(z)), originAt(z), direction, distance, radius, width))
  }

  /** The result recorded for a cast that hit: the hit's point and normal with the cast. */
  function HitOf(c: CastInfo): CastResult
  {
    CastResult(c.trace.hitPosition, c.trace.normal, c)
  }

  /** The hits among the recorded casts, in cast order. */
  function Results(infos: seq<CastInfo>): (rs: seq<CastResult>)
    ensures |rs| <= |infos|
  {
    if infos == [] then []
    else
      var last := infos[|infos| - 1];
      Results(infos[..|infos| - 1])
        + (if last.trace.hit then [HitOf(last)] else [])
  }

  /** One more cast adds its hit, if it hit, at the end of the recorded hits. */
  lemma ResultsStep(infos: seq<CastInfo>, z: nat)
    requires z < |infos|
    ensures Results(infos[..z + 1]) == Results(infos[..z])
              + (if infos[z].trace.hit then [HitOf(infos[z])] else [])
  {
    assert infos[..z + 1][..z] == infos[..z];
  }

  /** Every recorded hit comes from a cast that hit, and every cast that hit is recorded. */
  lemma {:induction false} ResultsAreTheHits(infos: seq<CastInfo>)
    ensures forall r :: r in Results(infos) ==> r.castInfo in infos && r.castInfo.trace.hit
                                                && r.point == r.castInfo.trace.hitPosition
    ensures forall c :: c in infos && c.trace.hit ==> exists r :: r in Results(infos) && r.castInfo == c
  {
    if infos != [] {
      var init := infos[..|infos| - 1];
      var last := infos[|infos| - 1];
      ResultsAreTheHits(init);
      assert infos == init + [last];
      forall c | c in infos && c.trace.hit
        ensures exists r :: r in Results(infos) && r.castInfo == c
      {
        if c in init {
          var r :| r in Results(init) && r.castInfo == c;
          assert r in Results(infos);
        } else {
          assert c == last;
          assert HitOf(last) in Results(infos);
        }
      }
    }
  }

  /** Some cast hit with a fraction below `ValidBelow`. */
  predicate SomeValidHit(keys: seq<Option<real>>)
  {
    exists z :: 0 <= z < |keys| && keys[z].Some? && keys[z].value < ValidBelow
  }

  /** After the scan, the nearest fraction is below 1e9 exactly when some hit's fraction is. */
  lemma ValidIffBelow(keys: seq<Option<real>>, best: Option<nat>, nearest: real)
    requires best.None? ==> nearest == InitialNearest && NoneBelow(keys, InitialNearest)
    requires best.Some? ==> IsEarliestMin(keys, InitialNearest, best.value) && nearest == keys[best.value].value
    ensures nearest < ValidBelow <==> SomeValidHit(keys)
    ensures nearest < ValidBelow ==> best.Some?
  {
    if best.Some? {
      SelectedIsMinimal(keys, InitialNearest, best.value);
    }
  }

  class StandardGroundDetection {
    var wheelCasts: seq<CastInfo>
    var wheelCastResults: seq<CastResult>
    /** `_nearestHit` and `_wheelCastResult`, which outlive the call. */
    var nearestHit: CastResult
    var wheelCastResult: CastResult

    constructor()
      ensures wheelCasts == [] && wheelCastResults == []
      ensures nearestHit == NoResult && wheelCastResult == NoResult
    {
      wheelCasts := [];
      wheelCastResults := [];
      nearestHit := NoResult;
      wheelCastResult := NoResult;
    }

    /**
     * One turn of the cast loop: fire cast `z`, record it, record its hit if
     * it hit, and take the hit as the nearest when its fraction is below
     * `nearestDistance`.
     */
    method FireCast(z: nat, direction: Vec3, distance: real, radius: real, width: real,
                    originAt: nat -> Vec3, traceFrom: Vec3 -> SceneTrace, nearestDistance: real)
      returns (castInfo: CastInfo, newNearest: real)
      modifies this`wheelCasts, this`wheelCastResults, this`nearestHit
      ensures castInfo == CastInfo(traceFrom(originAt(z)), originAt(z), direction, distance, radius, width)
      ensures wheelCasts == old(wheelCasts) + [castInfo]
      ensures wheelCastResults == old(wheelCastResults) + (if castInfo.trace.hit then [HitOf(castInfo)] else [])
      ensures castInfo.trace.hit && castInfo.trace.fraction < nearestDistance ==>
                newNearest == castInfo.trace.fraction && nearestHit == HitOf(castInfo)
      ensures !(castInfo.trace.hit && castInfo.trace.fraction < nearestDistance) ==>
                newNearest == nearestDistance && nearestHit == old(nearestHit)
    {
      newNearest := nearestDistance;
      var castOrigin := originAt(z);
      var castHit := traceFrom(castOrigin);
      castInfo := CastInfo(castHit, castOrigin, direction, distance, radius, width);
      wheelCasts := wheelCasts + [castInfo];
      if castHit.hit {
        var result := CastResult(castHit.hitPosition, castHit.normal, castInfo);
        wheelCastResults := wheelCastResults + [result];
        if castHit.fraction < nearestDistance {
          newNearest := castHit.fraction;
          nearestHit := result;
        }
      }
    }

    /**
     * The cast loop of `WheelCastMultiSphere`: every cast is recorded, every
     * hit is recorded, and the nearest hit is the one with the smallest
     * fraction, the first among equals, with its fraction (the start bound
     * when nothing hit).
     */
    method FireCasts(direction: Vec3, distance: real, radius: real, width: real, xSteps: int,
                     originAt: nat -> Vec3, traceFrom: Vec3 -> SceneTrace)
      returns (nearestDistance: real, ghost best: Option<nat>)
      modifies this`wheelCasts, this`wheelCastResults, this`nearestHit
      ensures var n := if xSteps < 0 then 0 else xSteps;
              var infos := Casts(originAt, traceFrom, direction, distance, radius, width, n);
              && wheelCasts == old(wheelCasts) + infos
              && wheelCastResults == old(wheelCastResults) + Results(infos)
      ensures var n := if xSteps < 0 then 0 else xSteps;
              var keys := Keys(originAt, traceFrom, n);
              && (best.None? ==> nearestDistance == InitialNearest && NoneBelow(keys, InitialNearest))
              && (best.Some? ==> IsEarliestMin(keys, InitialNearest, best.value)
                                 && nearestDistance == keys[best.value].value
                                 && var t := traceFrom(originAt(best.value));
                                    nearestHit.point == t.hitPosition && nearestHit.normal == t.normal
                                    && nearestHit.castInfo.trace == t)
    {
      nearestDistance := InitialNearest;
      var n: nat := if xSteps < 0 then 0 else xSteps;
      ghost var keys := Keys(originAt, traceFrom, n);
      ghost var infos := Casts(originAt, traceFrom, direction, distance, radius, width, n);
      best := None;
      for z := 0 to n
        invariant wheelCasts == old(wheelCasts) + infos[..z]
        invariant wheelCastResults == old(wheelCastResults) + Results(infos[..z])
        invariant best.None? ==> nearestDistance == InitialNearest && NoneBelow(keys[..z], InitialNearest)
        invariant best.Some? ==> IsEarliestMin(keys[..z], InitialNearest, best.value)
                                 && nearestDistance == keys[best.value].value
                                 && nearestHit == HitOf(infos[best.value])
      {
        EarliestStep(keys, InitialNearest, z, best, nearestDistance);
        ResultsStep(infos, z);
        assert infos[..z + 1] == infos[..z] + [infos[z]];
        ghost var before := nearestDistance;
        var castInfo;
        castInfo, nearestDistance := FireCast(z, direction, distance, radius, width, originAt, traceFrom,
                                              nearestDistance);
        if castInfo.trace.hit && castInfo.trace.fraction < before {
          best := Some(z);
        }
      }
      assert keys[..n] == keys && infos[..n] == infos;
    }

    /**
     * `WheelCastMultiSphere`: fire `StepCount` casts and pick the nearest
     * hit. When its fraction is below 1e9 the result is the hit's point and
     * normal with the fraction in place of the cast distance, and the cast
     * succeeds; otherwise the result is left as it was.
     */
    method WheelCastMultiSphere(direction: Vec3, distance: real, radius: real, width: real,
                                originAt: nat -> Vec3, traceFrom: Vec3 -> SceneTrace) returns (found: bool)
      modifies this`wheelCasts, this`wheelCastResults, this`nearestHit, this`wheelCastResult
      ensures var n := if StepCount(radius, width) < 0 then 0 else StepCount(radius, width);
              var infos := Casts(originAt, traceFrom, direction, distance, radius, width, n);
              && wheelCasts == old(wheelCasts) + infos
              && wheelCastResults == old(wheelCastResults) + Results(infos)
      ensures var n := if StepCount(radius, width) < 0 then 0 else StepCount(radius, width);
              var keys := Keys(originAt, traceFrom, n);
              && (found <==> SomeValidHit(keys))
              && (found ==> exists z :: IsEarliestMin(keys, InitialNearest, z)
                                        && var t := traceFrom(originAt(z));
                                           wheelCastResult == CastResult(t.hitPosition, t.normal,
                                                                         NoResult.castInfo.(trace := t, distance := t.fraction)))
              && (!found ==> wheelCastResult == old(wheelCastResult))
    {
      var xSteps := StepCount(radius, width);
      var nearestDistance;
      ghost var best;
      nearestDistance, best := FireCasts(direction, distance, radius, width, xSteps, originAt, traceFrom);
      ghost var keys := Keys(originAt, traceFrom, if xSteps < 0 then 0 else xSteps);
      ValidIffBelow(keys, best, nearestDistance);
      if nearestDistance < ValidBelow {
        wheelCastResult := CastResult(nearestHit.point, nearestHit.normal,
                                      NoResult.castInfo.(trace := nearestHit.castInfo.trace, distance := nearestDistance));
        found := true;
      } else {
        found := false;
      }
    }

    /**
     * `Cast`: clear the records and run the multi-sphere cast; when it
     * succeeds, copy the result's point, normal and collider into the wheel
     * hit, which is otherwise returned unchanged. Afterwards the records hold
     * exactly this call's casts and hits.
     */
    method Cast(direction: Vec3, distance: real, radius: real, width: real,
                originAt: nat -> Vec3, traceFrom: Vec3 -> SceneTrace, wheelHit: WheelHit)
      returns (isValid: bool, hitOut: WheelHit)
      modifies this`wheelCasts, this`wheelCastResults, this`nearestHit, this`wheelCastResult
      ensures var n := if StepCount(radius, width) < 0 then 0 else StepCount(radius, width);
              var infos := Casts(originAt, traceFrom, direction, distance, radius, width, n);
              && wheelCasts == infos
              && wheelCastResults == Results(infos)
              && (isValid <==> SomeValidHit(Keys(originAt, traceFrom, n)))
      ensures var n := if StepCount(radius, width) < 0 then 0 else StepCount(radius, width);
              isValid ==> exists z :: IsEarliestMin(Keys(originAt, traceFrom, n), InitialNearest, z)
                                      && var t := traceFrom(originAt(z));
                                         && wheelCastResult == CastResult(t.hitPosition, t.normal,
                                                                          NoResult.castInfo.(trace := t, distance := t.fraction))
                                         && hitOut == WheelHit(t.hitPosition, t.normal, Some(t.collider))
      ensures isValid ==> hitOut == WheelHit(wheelCastResult.point, wheelCastResult.normal,
                                             Some(wheelCastResult.castInfo.trace.collider))
      ensures !isValid ==> hitOut == wheelHit && wheelCastResult == old(wheelCastResult)
    {
      wheelCastResults := [];
      wheelCasts := [];
      isValid := WheelCastMultiSphere(direction, distance, radius, width, originAt, traceFrom);
      hitOut := wheelHit;
      if isValid {
        hitOut := hitOut.(point := wheelCastResult.point, normal := wheelCastResult.normal,
                          collider := Some(wheelCastResult.castInfo.trace.collider));
      }
    }

    /**
     * `IsInsideWheel`, given the point in the wheel's local frame: within
     * half the width sideways and within the radius along `y`.
     */
    predicate IsInsideWheel(localOffset: Vec3, radius: real, width: real)
    {
      var halfWidth := width * 0.5;
      localOffset.x >= -halfWidth && localOffset.x <= halfWidth && localOffset.y >= -radius && localOffset.y <= radius
    }
  }

  /** A point is inside the wheel iff both its sideways and its `y` offsets are small enough in size. */
  lemma InsideWheelIffWithinBox(d: StandardGroundDetection, localOffset: Vec3, radius: real, width: real)
    ensures d.IsInsideWheel(localOffset, radius, width)
            <==> Abs(localOffset.x) <= width * 0.5 && Abs(localOffset.y) <= radius
  {
  }
}
