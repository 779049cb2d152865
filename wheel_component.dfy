/**
 * The drivetrain's terminal node, `WheelComponent`: the wheel state it drives
 * and the pure parts of its overrides (inertia query, brake-torque rule).
 * The methods that write the wheel live on `Powertrain.Drivetrain`, which holds
 * every node of the chain.
 */
module WheelComponents {
  import opened Common

  /**
   * The fields of the wheel collider (`WheelComponent.Wheel`) that the
   * drivetrain reads or writes.
   */
  datatype WheelState = WheelState(
    angularVelocity: real,
    mass: real,
    radius: real,
    motorTorque: real,
    inertia: real,
    autoSimulate: bool,
    counterTorque: real,
    brakeTorque: real,
    rollingResistanceTorque: real)

  /** `Math.Clamp(Time.Delta, 0.01f, 0.05f) / 0.005f`. */
  function DtScale(timeDelta: real): (s: real)
    ensures 2.0 <= s <= 10.0
  {
    Clamp(timeDelta, 0.01, 0.05) / 0.005
  }

  /**
   * `WheelComponent.QueryInertia`: half mass times radius (converted from inches
   * by `inchToMeter`) squared, scaled by the step-size factor. It does not
   * look at the rest of the chain.
   */
  function WheelQueryInertia(w: WheelState, timeDelta: real, inchToMeter: real -> real): (r: real)
    ensures w.mass >= 0.0 ==> r >= 0.0
    ensures timeDelta <= 0.01 ==> r == w.mass * inchToMeter(w.radius) * inchToMeter(w.radius)
    ensures timeDelta >= 0.05 ==> r == 5.0 * w.mass * inchToMeter(w.radius) * inchToMeter(w.radius)
  {
    var radius := inchToMeter(w.radius);
    var s := DtScale(timeDelta);
    assert w.mass >= 0.0 ==> 0.5 * w.mass * (radius * radius) * s >= 0.0 by {
      if w.mass >= 0.0 {
        assert radius * radius >= 0.0;
        assert 0.5 * w.mass * (radius * radius) >= 0.0;
      }
    }
    0.5 * w.mass * radius * radius * DtScale(timeDelta)
  }

  /**
   * `AddBrakeTorque`: a positive torque is added, then the value is raised to at
   * least `maxBrakeTorque` (the source takes `Math.Max`) and finally to at least 0.
   */
  function BrakeTorqueAfterAdd(current: real, torque: real, maxBrakeTorque: real): (r: real)
    ensures r >= 0.0 && r >= maxBrakeTorque
    ensures torque > 0.0 && current + torque >= maxBrakeTorque && current + torque >= 0.0 ==> r == current + torque
    ensures torque <= 0.0 && current >= maxBrakeTorque && current >= 0.0 ==> r == current
  {
    var brakeTorque := if torque > 0.0 then current + torque else current;
    var raised := Max(brakeTorque, maxBrakeTorque);
    if raised < 0.0 then 0.0 else raised
  }

  /**
   * As written, `Math.Max` makes every call leave at least `maxBrakeTorque`
   * on the wheel: a request for 10 Nm on a released wheel (0 Nm) with a
   * 1000 Nm limit stores the full 1000 Nm.
   */
  lemma SmallRequestBrakesFully()
    ensures BrakeTorqueAfterAdd(0.0, 10.0, 1000.0) == 1000.0
  {
  }

  /**
   * `AddBrakeTorque` as its documentation describes it: the request is added
   * on top and the value is clamped to the limit (and to 0 from below).
   */
  function BrakeTorqueAfterAddCorrected(current: real, torque: real, maxBrakeTorque: real): (r: real)
    ensures r >= 0.0
    ensures maxBrakeTorque >= 0.0 ==> r <= maxBrakeTorque
    ensures torque > 0.0 && 0.0 <= current + torque <= maxBrakeTorque ==> r == current + torque
    ensures torque <= 0.0 && 0.0 <= current <= maxBrakeTorque ==> r == current
  {
    var brakeTorque := if torque > 0.0 then current + torque else current;
    var lowered := Min(brakeTorque, maxBrakeTorque);
    if lowered < 0.0 then 0.0 else lowered
  }

  /** The corrected rule never brakes harder than asked: a wheel stays within the limit and grows by at most the request. */
  lemma CorrectedBrakeNeverExceedsRequest(current: real, torque: real, maxBrakeTorque: real)
    requires 0.0 <= current <= maxBrakeTorque
    ensures current <= BrakeTorqueAfterAddCorrected(current, torque, maxBrakeTorque)
    ensures BrakeTorqueAfterAddCorrected(current, torque, maxBrakeTorque) <= current + Max(torque, 0.0)
    ensures BrakeTorqueAfterAddCorrected(current, torque, maxBrakeTorque) <= maxBrakeTorque
  {
  }

  /** A non-positive request adds nothing: the result is what a zero request gives. */
  lemma NonPositiveBrakeAddsNothing(current: real, torque: real, maxBrakeTorque: real)
    requires torque <= 0.0
    ensures BrakeTorqueAfterAdd(current, torque, maxBrakeTorque) == BrakeTorqueAfterAdd(current, 0.0, maxBrakeTorque)
  {
  }
}
