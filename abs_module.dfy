/**
 * `ABSModule`: the anti-lock brake. Each call to `BrakeTorqueModifier`
 * returns the factor the car multiplies its brake torque by: 1 normally, and
 * 0.01 while the brakes are on and some grounded powered wheel slips
 * forward (relative to the direction of travel) by more than the threshold.
 *
 * What the module reads from its car (speed, brake and handbrake axes, the
 * rev limiter, the powered wheels and the sideways component of the local
 * velocity that the source uses as travel direction) is passed in.
 */
module ABSModules {
  import opened Common

  /** The factor while the brakes are let off. */
  const ReleasedFactor: real := 0.01

  /** What the module reads from one powered wheel. */
  datatype WheelReading = WheelReading(grounded: bool, forwardSlip: real)

  /** A wheel that would set off the ABS: on the ground and slipping past the threshold. */
  predicate Slips(w: WheelReading, velocityY: real, slipThreshold: real)
  {
    w.grounded && w.forwardSlip * Sign(velocityY) as real > slipThreshold
  }

  /** The conditions under which an enabled module lets the brakes off. */
  predicate Engages(currentSpeed: real, lowerSpeedThreshold: real, slipThreshold: real,
                    brakes: real, revLimiterActive: bool, handbrake: real,
                    wheels: seq<WheelReading>, velocityY: real)
  {
    && currentSpeed >= lowerSpeedThreshold
    && brakes > 0.0 && !revLimiterActive && handbrake < 0.1
    && exists i :: 0 <= i < |wheels| && Slips(wheels[i], velocityY, slipThreshold)
  }

  /** A wheel in the air never sets off the ABS, whatever its slip. */
  lemma AirborneWheelsNeverEngage(currentSpeed: real, lowerSpeedThreshold: real, slipThreshold: real,
                                  brakes: real, revLimiterActive: bool, handbrake: real,
                                  wheels: seq<WheelReading>, velocityY: real)
    requires forall i :: 0 <= i < |wheels| ==> !wheels[i].grounded
    ensures !Engages(currentSpeed, lowerSpeedThreshold, slipThreshold, brakes, revLimiterActive, handbrake,
                     wheels, velocityY)
  {
  }

  /** With the car standing still sideways (`velocityY == 0`), a non-negative threshold is never passed. */
  lemma NoTravelNoEngage(currentSpeed: real, lowerSpeedThreshold: real, slipThreshold: real,
                         brakes: real, revLimiterActive: bool, handbrake: real, wheels: seq<WheelReading>)
    requires slipThreshold >= 0.0
    ensures !Engages(currentSpeed, lowerSpeedThreshold, slipThreshold, brakes, revLimiterActive, handbrake,
                     wheels, 0.0)
  {
  }

  class ABSModule {
    /** The component's `Active` flag. */
    var active: bool
    /** `IsActive`: whether the last call let the brakes off. */
    var isActive: bool
    var lowerSpeedThreshold: real
    var slipThreshold: real

    constructor()
      ensures active && !isActive && lowerSpeedThreshold == 1.0 && slipThreshold == 0.1
    {
      active := true;
      isActive := false;
      lowerSpeedThreshold := 1.0;
      slipThreshold := 0.1;
    }

    /**
     * `BrakeTorqueModifier`. A disabled module answers 1 and leaves `IsActive`
     * alone; an enabled one answers 0.01 exactly when `Engages` holds, and
     * `IsActive` records which it answered.
     */
    method BrakeTorqueModifier(currentSpeed: real, brakes: real, revLimiterActive: bool, handbrake: real,
                               wheels: seq<WheelReading>, velocityY: real) returns (r: real)
      modifies this`isActive
      ensures r == 1.0 || r == ReleasedFactor
      ensures !active ==> r == 1.0 && isActive == old(isActive)
      ensures active ==> (r == ReleasedFactor <==> Engages(currentSpeed, lowerSpeedThreshold, slipThreshold,
                                                           brakes, revLimiterActive, handbrake, wheels, velocityY))
      ensures active ==> (isActive <==> r == ReleasedFactor)
      ensures active && currentSpeed < lowerSpeedThreshold ==> r == 1.0
    {
      if !active {
        return 1.0;
      }
      isActive := false;
      if currentSpeed < lowerSpeedThreshold {
        return 1.0;
      }
      if brakes > 0.0 && !revLimiterActive && handbrake < 0.1 {
        var index := 0;
        while index < |wheels|
          invariant 0 <= index <= |wheels|
          invariant forall j :: 0 <= j < index ==> !Slips(wheels[j], velocityY, slipThreshold)
        {
          var wheel := wheels[index];
          if !wheel.grounded {
            index := index + 1;
            continue;
          }
          var longSlip := wheel.forwardSlip;
          if longSlip * Sign(velocityY) as real > slipThreshold {
            isActive := true;
            return ReleasedFactor;
          }
          index := index + 1;
        }
      }
      return 1.0;
    }
  }
}
