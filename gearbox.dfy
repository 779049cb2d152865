/**
 * `BaseGearbox` and its `ManualGearbox` subclass: a gear index over a ratio
 * table with a separate reverse ratio, and a cooldown after every gear
 * assignment during which no torque is passed on and no manual shift happens.
 *
 * `TimeSince ShiftTime` is a time stamp (`shiftStamp`) read against the current
 * time `now`: assigning 0 to it stores `now`. The clutch whose torque `Think`
 * reads is the one that calls it, so its torque is a parameter; the axles'
 * `AverageRPM` values are a parameter too (`Differential.Think`, which the
 * source calls on every axle first, is not part of this model).
 */
module Gearboxes {
  import opened Common

  const DefaultReverseRatio: real := 3.082
  const DefaultShiftDuration: real := 0.14

  /** `CalcRatio`: reverse below gear 0, nothing in neutral, the table above. */
  function RatioFor(gear: int, ratios: seq<real>, reverseRatio: real): real
    requires gear <= |ratios|
  {
    if gear <= -1 then -reverseRatio else if gear == 0 then 0.0 else ratios[gear - 1]
  }

  /**
   * With a positive reverse ratio and a positive table, the sign of the ratio
   * tells the gear's kind: negative exactly in reverse, zero exactly in
   * neutral, positive exactly in a forward gear.
   */
  lemma RatioSignTellsGear(gear: int, ratios: seq<real>, reverseRatio: real)
    requires gear <= |ratios|
    requires reverseRatio > 0.0 && forall k :: 0 <= k < |ratios| ==> ratios[k] > 0.0
    ensures RatioFor(gear, ratios, reverseRatio) < 0.0 <==> gear <= -1
    ensures RatioFor(gear, ratios, reverseRatio) == 0.0 <==> gear == 0
    ensures RatioFor(gear, ratios, reverseRatio) > 0.0 <==> gear >= 1
  {
    if gear >= 1 {
      assert ratios[gear - 1] > 0.0;
    }
  }

  /** The range `SetGear` accepts: reverse (-1) up to the last table entry. */
  predicate Accepts(gear: int, gearCount: nat)
  {
    -1 <= gear <= gearCount
  }

  /** The gear `Shift(dir)` ends in: one step towards `dir` if that is accepted. */
  function ShiftTarget(gear: int, dir: int, gearCount: nat): (g: int)
    ensures g == gear || g == gear + IntSign(dir)
    ensures Accepts(gear, gearCount) ==> Accepts(g, gearCount)
  {
    if Accepts(gear + IntSign(dir), gearCount) then gear + IntSign(dir) else gear
  }

  /**
   * The largest `AverageRPM` among the axles (`MaxBy(x => x.AverageRPM)`
   * followed by reading that axle's `AverageRPM`).
   */
  function MaxRpm(rpms: seq<real>): (m: real)
    requires rpms != []
    ensures m in rpms
    ensures forall k :: 0 <= k < |rpms| ==> rpms[k] <= m
  {
    if |rpms| == 1 then rpms[0]
    else
      var rest := MaxRpm(rpms[1..]);
      assert forall k :: 1 <= k < |rpms| ==> rpms[k] == rpms[1..][k - 1];
      Max(rpms[0], rest)
  }

  /**
   * Scaling by a non-negative ratio keeps the larger value on top; a negative
   * ratio (reverse) swaps the order.
   */
  lemma ScaledOrder(a: real, m: real, ratio: real)
    requires a <= m
    ensures ratio >= 0.0 ==> a * ratio <= m * ratio
    ensures ratio < 0.0 ==> m * ratio <= a * ratio
  {
    if ratio >= 0.0 {
      MulMonotone(a, m, ratio);
    } else {
      MulNonNegative(m - a, -ratio);
    }
  }

  /**
   * The gearbox output RPM: the fastest axle's `AverageRPM` times the ratio.
   * It is one of the axles' scaled RPMs (`OutputRpmOrder` says which).
   */
  function OutputRpm(axleRpms: seq<real>, ratio: real): (rpm: real)
    requires axleRpms != []
    ensures exists k :: 0 <= k < |axleRpms| && rpm == axleRpms[k] * ratio
  {
    var fastest := MaxRpm(axleRpms);
    assert exists k :: 0 <= k < |axleRpms| && fastest * ratio == axleRpms[k] * ratio by {
      var k :| 0 <= k < |axleRpms| && axleRpms[k] == fastest;
    }
    fastest * ratio
  }

  /**
   * The output RPM is the largest of the axles' scaled RPMs for a
   * non-negative ratio and the smallest in reverse (a negative ratio).
   */
  lemma OutputRpmOrder(axleRpms: seq<real>, ratio: real)
    requires axleRpms != []
    ensures ratio >= 0.0 ==> forall k :: 0 <= k < |axleRpms| ==> axleRpms[k] * ratio <= OutputRpm(axleRpms, ratio)
    ensures ratio < 0.0 ==> forall k :: 0 <= k < |axleRpms| ==> OutputRpm(axleRpms, ratio) <= axleRpms[k] * ratio
  {
    ScaledMaximum(axleRpms, MaxRpm(axleRpms), ratio);
  }

  /**
   * Scaling by a non-negative ratio keeps the maximum `m` on top; a negative
   * ratio (reverse) turns it into the minimum.
   */
  lemma ScaledMaximum(rpms: seq<real>, m: real, ratio: real)
    requires forall k :: 0 <= k < |rpms| ==> rpms[k] <= m
    ensures ratio >= 0.0 ==> forall k :: 0 <= k < |rpms| ==> rpms[k] * ratio <= m * ratio
    ensures ratio < 0.0 ==> forall k :: 0 <= k < |rpms| ==> m * ratio <= rpms[k] * ratio
  {
    forall k | 0 <= k < |rpms|
      ensures ratio >= 0.0 ==> rpms[k] * ratio <= m * ratio
      ensures ratio < 0.0 ==> m * ratio <= rpms[k] * ratio
    {
      ScaledOrder(rpms[k], m, ratio);
    }
  }

  class Gearbox {
    var gear: int
    var ratios: seq<real>
    var reverseRatio: real
    var shiftDuration: real
    var rpm: real
    var ratio: real
    var torque: real
    /** When `ShiftTime` was last set to 0. */
    var shiftStamp: real

    /** The gear never points past the ratio table, so `CalcRatio` cannot fail. */
    predicate Valid()
      reads this
    {
      gear <= |ratios|
    }

    /** A new gearbox: neutral, default reverse ratio and cooldown, nothing computed yet. */
    constructor(ratios: seq<real>)
      ensures Valid()
      ensures this.ratios == ratios && gear == 0 && ratio == 0.0
      ensures reverseRatio == DefaultReverseRatio && shiftDuration == DefaultShiftDuration
      ensures rpm == 0.0 && torque == 0.0 && shiftStamp == 0.0
    {
      this.ratios := ratios;
      gear := 0;
      ratio := 0.0;
      reverseRatio := DefaultReverseRatio;
      shiftDuration := DefaultShiftDuration;
      rpm := 0.0;
      torque := 0.0;
      shiftStamp := 0.0;
    }

    /** `ShiftTime`: time elapsed since the last gear assignment. */
    function ShiftTime(now: real): real
      reads this
    {
      now - shiftStamp
    }

    /** `CanShift`: the cooldown is over. */
    predicate CanShift(now: real)
      reads this
    {
      ShiftTime(now) > shiftDuration
    }

    /** `CalcRatio`. */
    method CalcRatio()
      requires Valid()
      modifies this`ratio
      ensures ratio == RatioFor(gear, ratios, reverseRatio)
    {
      if gear <= -1 {
        ratio := -reverseRatio;
      } else if gear == 0 {
        ratio := 0.0;
      } else {
        ratio := ratios[gear - 1];
      }
    }

    /**
     * The `Gear` setter: stores the gear, restarts the cooldown and recomputes
     * the ratio. A gear past the table makes `CalcRatio` index out of range.
     */
    method SetGearValue(g: int, now: real)
      requires g <= |ratios|
      modifies this`gear, this`shiftStamp, this`ratio
      ensures Valid()
      ensures gear == g && ShiftTime(now) == 0.0 && !CanShift(now) == (shiftDuration >= 0.0)
      ensures ratio == RatioFor(g, ratios, reverseRatio)
    {
      gear := g;
      shiftStamp := now;
      CalcRatio();
    }

    /** `SetGear`: a gear outside [-1, number of ratios] is ignored. */
    method SetGear(g: int, now: real)
      requires Valid()
      modifies this`gear, this`shiftStamp, this`ratio
      ensures Valid()
      ensures Accepts(g, |ratios|) ==>
                gear == g && shiftStamp == now && ratio == RatioFor(g, ratios, reverseRatio)
      ensures !Accepts(g, |ratios|) ==>
                gear == old(gear) && shiftStamp == old(shiftStamp) && ratio == old(ratio)
    {
      if -1 <= g && g <= |ratios| {
        SetGearValue(g, now);
      }
    }

    /**
     * `Shift(dir)`: one gear towards the sign of `dir`. The gear moves by at
     * most one and stays in range; `Shift(0)` from an accepted gear re-assigns
     * the same gear and so still restarts the cooldown.
     */
    method Shift(dir: int, now: real)
      requires Valid()
      modifies this`gear, this`shiftStamp, this`ratio
      ensures Valid()
      ensures gear == ShiftTarget(old(gear), dir, |ratios|)
      ensures gear - old(gear) in {0, IntSign(dir)}
      ensures Accepts(old(gear), |ratios|) ==> Accepts(gear, |ratios|)
      ensures Accepts(old(gear) + IntSign(dir), |ratios|) ==>
                shiftStamp == now && ratio == RatioFor(gear, ratios, reverseRatio)
      ensures dir == 0 && Accepts(old(gear), |ratios|) ==> gear == old(gear) && shiftStamp == now
      ensures !Accepts(old(gear) + IntSign(dir), |ratios|) ==> shiftStamp == old(shiftStamp) && ratio == old(ratio)
    {
      SetGear(gear + IntSign(dir), now);
    }

    /**
     * `Think`: no torque leaves the gearbox during the cooldown, otherwise the
     * clutch torque times the ratio; the output RPM is the fastest axle's
     * average RPM times the ratio.
     */
    method Think(clutchTorque: real, axleRpms: seq<real>, now: real)
      requires axleRpms != []
      modifies this`torque, this`rpm
      ensures !CanShift(now) ==> torque == 0.0
      ensures CanShift(now) ==> torque == clutchTorque * ratio
      ensures rpm == OutputRpm(axleRpms, ratio)
      ensures exists k :: 0 <= k < |axleRpms| && rpm == axleRpms[k] * ratio
      ensures ratio >= 0.0 ==> forall k :: 0 <= k < |axleRpms| ==> axleRpms[k] * ratio <= rpm
      ensures ratio < 0.0 ==> forall k :: 0 <= k < |axleRpms| ==> rpm <= axleRpms[k] * ratio
    {
      var isShifting := if CanShift(now) then 1.0 else 0.0;
      torque := clutchTorque * ratio * isShifting;
      rpm := OutputRpm(axleRpms, ratio);
      OutputRpmOrder(axleRpms, ratio);
    }

    /**
     * `ManualGearbox.OnUpdate`: nothing happens during the cooldown; otherwise
     * a GearUp press shifts up and wins over GearDown, a GearDown press alone
     * shifts down, and no press leaves the gearbox as it was. An accepted
     * shift restarts the cooldown and recomputes the ratio; a shift past
     * either end changes nothing.
     */
    method OnUpdate(gearUpPressed: bool, gearDownPressed: bool, now: real)
      requires Valid()
      modifies this`gear, this`shiftStamp, this`ratio
      ensures Valid()
      ensures !old(CanShift(now)) ==>
                gear == old(gear) && shiftStamp == old(shiftStamp) && ratio == old(ratio)
      ensures old(CanShift(now)) && gearUpPressed ==> gear == ShiftTarget(old(gear), 1, |ratios|)
      ensures old(CanShift(now)) && !gearUpPressed && gearDownPressed ==>
                gear == ShiftTarget(old(gear), -1, |ratios|)
      ensures old(CanShift(now)) && (gearUpPressed || gearDownPressed) ==>
                var dir := if gearUpPressed then 1 else -1;
                && (Accepts(old(gear) + dir, |ratios|) ==>
                      shiftStamp == now && ratio == RatioFor(gear, ratios, reverseRatio))
                && (!Accepts(old(gear) + dir, |ratios|) ==>
                      gear == old(gear) && shiftStamp == old(shiftStamp) && ratio == old(ratio))
      ensures !gearUpPressed && !gearDownPressed ==>
                gear == old(gear) && shiftStamp == old(shiftStamp) && ratio == old(ratio)
    {
      if !CanShift(now) {
        return;
      }
      if gearUpPressed {
        Shift(1, now);
      } else if gearDownPressed {
        Shift(-1, now);
      }
    }
  }
}
