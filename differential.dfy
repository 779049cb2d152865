/**
 * `Differential`: splits the gearbox torque between two car wheels and
 * reports an axle RPM. `Engine.RAD_TO_RPM` belongs to a class that is not
 * part of this model and is a parameter.
 *
 * As written, both "left" and "right" readings take the LEFT wheel's angular
 * velocity, so the right wheel never influences `LinearVelocity` or
 * `AverageRPM`, and the computed lock term is discarded: both wheels get the
 * same torque whatever their speeds.
 */
module Differentials {
  import opened Common
  import opened Gearboxes
  import opened CarWheels

  const DefaultFinalDrive: real := 2.2
  const DefaultDistributionCoeff: real := 1.0

  /** The torque each wheel receives: gearbox torque times distribution times final drive. */
  function SymmetricTorque(gearboxTorque: real, distributionCoeff: real, finalDrive: real): real
  {
    gearboxTorque * distributionCoeff * finalDrive
  }

  /** The mean of two angular velocities, as the averaging code reads it. */
  function AxleAverage(left: real, right: real): (v: real)
    ensures Min(left, right) <= v <= Max(left, right)
    ensures v - left == right - v
    ensures left == right ==> v == left
  {
    (left + right) / 2.0
  }

  /**
   * `GetVel` as written: `lwav` and `rwav` are both read from the left
   * wheel, so the "average" is the left wheel's velocity whatever the right
   * wheel does.
   */
  function GetVelAsWritten(leftVelocity: real, rightVelocity: real): (v: real)
    ensures v == leftVelocity
  {
    var lwav := leftVelocity;
    var rwav := leftVelocity;
    AxleAverage(lwav, rwav)
  }

  /**
   * A left wheel at 10 rad/s and a right wheel at rest: the code reports 10,
   * the mean of the two wheels is 5.
   */
  lemma RightWheelIgnored()
    ensures GetVelAsWritten(10.0, 0.0) == 10.0
    ensures AxleAverage(10.0, 0.0) == 5.0
    ensures GetVelAsWritten(10.0, 0.0) != AxleAverage(10.0, 0.0)
  {
  }

  /** The code's reading agrees with the mean of both wheels exactly when they turn alike. */
  lemma GetVelMatchesMeanIffEqual(leftVelocity: real, rightVelocity: real)
    ensures GetVelAsWritten(leftVelocity, rightVelocity) == AxleAverage(leftVelocity, rightVelocity)
            <==> leftVelocity == rightVelocity
  {
  }

  class Differential {
    var averageRpm: real
    var finalDrive: real
    var distributionCoeff: real
    const gearbox: Gearbox
    const leftWheel: Wheel
    const rightWheel: Wheel

    constructor(gearbox: Gearbox, leftWheel: Wheel, rightWheel: Wheel)
      ensures this.gearbox == gearbox && this.leftWheel == leftWheel && this.rightWheel == rightWheel
      ensures averageRpm == 0.0 && finalDrive == DefaultFinalDrive && distributionCoeff == DefaultDistributionCoeff
    {
      this.gearbox := gearbox;
      this.leftWheel := leftWheel;
      this.rightWheel := rightWheel;
      averageRpm := 0.0;
      finalDrive := DefaultFinalDrive;
      distributionCoeff := DefaultDistributionCoeff;
    }

    /** `LinearVelocity`: the left wheel's angular velocity; the right wheel is never read. */
    function LinearVelocity(): (v: real)
      reads this, leftWheel
      ensures v == leftWheel.angularVelocity
    {
      GetVelAsWritten(leftWheel.angularVelocity, leftWheel.angularVelocity)
    }

    /**
     * `OnFixedUpdate`: both wheels get the same motor torque; the lock term
     * is computed but applied to neither; `AverageRPM` is the left wheel's
     * velocity in RPM times the final drive. No wheel velocity changes here.
     */
    method OnFixedUpdate(dt: real, radToRpm: real)
      modifies leftWheel`appliedMotorTorque, rightWheel`appliedMotorTorque, this`averageRpm
      ensures leftWheel.appliedMotorTorque == SymmetricTorque(gearbox.torque, distributionCoeff, finalDrive)
      ensures rightWheel.appliedMotorTorque == SymmetricTorque(gearbox.torque, distributionCoeff, finalDrive)
      ensures averageRpm == leftWheel.angularVelocity * radToRpm * finalDrive
      ensures leftWheel.angularVelocity == old(leftWheel.angularVelocity)
      ensures rightWheel.angularVelocity == old(rightWheel.angularVelocity)
    {
      var lwav := leftWheel.angularVelocity;
      var rwav := leftWheel.angularVelocity;
      var inertia := leftWheel.inertia + rightWheel.inertia;
      var simmetric := gearbox.torque * distributionCoeff * finalDrive;
      var lock := (lwav - rwav) / 2.0 * inertia * dt;
      leftWheel.ApplyMotorTorque(simmetric);
      rightWheel.ApplyMotorTorque(simmetric);
      lwav := leftWheel.angularVelocity;
      rwav := leftWheel.angularVelocity;
      averageRpm := AxleAverage(lwav, rwav) * radToRpm * finalDrive;
    }
  }
}
