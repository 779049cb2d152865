/**
 * `Clutch`: turns the slip between engine and gearbox into a target torque
 * and moves its torque towards it. The engine that owns the clutch passes its
 * own RPM and torque; the pedal (`Input.Down("Clutch")`) is a parameter, and
 * so is `MathX.Lerp`.
 */
module Clutches {
  import opened Common
  import opened Gearboxes
  import opened EngineIceUnits

  const DefaultStiffness: real := 1.0
  const DefaultDamping: real := 1.0

  /**
   * The target-torque rule as the source writes it: both slip terms are
   * multiplied by "ratio is not 0" and the sum by "pedal is up".
   */
  function TargetTorque(engineRpm: real, engineTorque: real, gearboxRpm: real, gearboxRatio: real,
                        stiffness: real, clutching: bool): real
  {
    var ratioNotZero := if gearboxRatio != 0.0 then 1.0 else 0.0;
    var slip := (engineRpm - gearboxRpm) * RPM_TO_RAD * ratioNotZero;
    var torqueSlip := engineTorque * ratioNotZero;
    (torqueSlip + slip * stiffness) * (1.0 - (if clutching then 1.0 else 0.0))
  }

  /**
   * The rule in three cases: nothing passes with the pedal down or in neutral
   * (ratio 0); otherwise the engine torque plus the slip, converted from RPM
   * to rad/s, times the stiffness.
   */
  lemma TargetTorqueCases(engineRpm: real, engineTorque: real, gearboxRpm: real, gearboxRatio: real,
                          stiffness: real, clutching: bool)
    ensures clutching ==> TargetTorque(engineRpm, engineTorque, gearboxRpm, gearboxRatio, stiffness, clutching) == 0.0
    ensures gearboxRatio == 0.0 ==> TargetTorque(engineRpm, engineTorque, gearboxRpm, gearboxRatio, stiffness, clutching) == 0.0
    ensures !clutching && gearboxRatio != 0.0 ==>
              TargetTorque(engineRpm, engineTorque, gearboxRpm, gearboxRatio, stiffness, clutching)
              == engineTorque + (engineRpm - gearboxRpm) * RPM_TO_RAD * stiffness
  {
  }

  class Clutch {
    var targetTorque: real
    var torque: real
    var stiffness: real
    var damping: real
    const gearbox: Gearbox

    /** A new clutch: no torque, unit stiffness and damping. */
    constructor(gearbox: Gearbox)
      ensures this.gearbox == gearbox
      ensures targetTorque == 0.0 && torque == 0.0
      ensures stiffness == DefaultStiffness && damping == DefaultDamping
    {
      this.gearbox := gearbox;
      targetTorque := 0.0;
      torque := 0.0;
      stiffness := DefaultStiffness;
      damping := DefaultDamping;
    }

    /**
     * `Think`: the engine RPM is taken first, then the gearbox updates (from
     * the clutch torque of the previous step), and only then is the gearbox
     * RPM (the fastest axle's RPM times the ratio) read for the slip. The
     * new torque is `Lerp(torque, target, damping)`.
     */
    method Think(engineRpm: real, engineTorque: real, clutching: bool, axleRpms: seq<real>, now: real,
                 lerp: (real, real, real) -> real)
      requires axleRpms != []
      modifies this`targetTorque, this`torque, gearbox`torque, gearbox`rpm
      ensures !gearbox.CanShift(now) ==> gearbox.torque == 0.0
      ensures gearbox.CanShift(now) ==> gearbox.torque == old(torque) * gearbox.ratio
      ensures gearbox.rpm == OutputRpm(axleRpms, gearbox.ratio)
      ensures targetTorque == TargetTorque(engineRpm, engineTorque, gearbox.rpm, gearbox.ratio, stiffness, clutching)
      ensures torque == lerp(old(torque), targetTorque, damping)
    {
      gearbox.Think(torque, axleRpms, now);
      var gearboxRpm := gearbox.rpm;
      var ratioNotZero := if gearbox.ratio != 0.0 then 1.0 else 0.0;
      var slip := (engineRpm - gearboxRpm) * RPM_TO_RAD * ratioNotZero;
      var torqueSlip := engineTorque * ratioNotZero;
      targetTorque := (torqueSlip + slip * stiffness) * (1.0 - (if clutching then 1.0 else 0.0));
      torque := lerp(torque, targetTorque, damping);
    }
  }
}
