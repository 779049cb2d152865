/** The unit constants of `EngineICE`, shared with the clutch. */
module EngineIceUnits {
  import opened Common

  /** RPM to rad/s, as the source rounds it. */
  const RPM_TO_RAD: real := 0.10472
  /** rad/s to RPM: 60 / (2 * MathF.PI). */
  const RAD_TO_RPM: real := 60.0 / (2.0 * PI)
  const IDLE_FADE_START_OFFSET: real := 300.0
  const IDLE_FADE_END_OFFSET: real := 600.0
}

/**
 * `EngineICE`: the older combustion engine that drives the clutch directly.
 * Its torque map (`AltCurve.Evaluate`), `MathX.Remap` and `MathX.Lerp` are
 * parameters; `TimeSince _limiterTime` is a time stamp read against `now`.
 * The body impulses and the sound interpolator are not part of this model.
 */
module EngineIces {
  import opened Common
  import opened Gearboxes
  import opened Clutches
  import opened EngineIceUnits

  const DefaultFlywheelMass: real := 2.4
  const DefaultFlywheelRadius: real := 0.358
  const DefaultMaxRpm: real := 7000.0
  const DefaultIdleRpm: real := 800.0
  const DefaultStartFriction: real := 0.05
  const DefaultFrictionCoeff: real := 0.02
  const DefaultLimiterDuration: real := 0.03

  /** `CalcInertia`: a solid disc, half mass times radius squared. */
  function FlywheelInertia(mass: real, radius: real): real
  {
    0.5 * (mass * radius * radius)
  }

  /** A disc of non-negative mass has non-negative inertia, and none without mass or radius. */
  lemma FlywheelInertiaSign(mass: real, radius: real)
    ensures mass >= 0.0 ==> FlywheelInertia(mass, radius) >= 0.0
    ensures mass == 0.0 || radius == 0.0 ==> FlywheelInertia(mass, radius) == 0.0
  {
    assert radius * radius >= 0.0;
    if mass >= 0.0 {
      MulNonNegative(mass, radius * radius);
    }
    assert mass * radius * radius == mass * (radius * radius);
  }

  /** An idle-fade factor: the remapped RPM clamped to [0, 1]. */
  function IdleFade(remap: (real, real, real, real, real) -> real, rpm: real, from: real, to: real): (f: real)
    ensures 0.0 <= f <= 1.0
  {
    ClampBounds(remap(rpm, from, to, 1.0, 0.0), 0.0, 1.0);
    Clamp(remap(rpm, from, to, 1.0, 0.0), 0.0, 1.0)
  }

  /**
   * The idle support added to the driver's throttle: the start fade plus the
   * end fade times the share of the mapped torque that friction takes.
   */
  function IdleSupply(rpm: real, idleRpm: real, startFriction: real, frictionCoeff: real,
                      torqueMap: real -> real, remap: (real, real, real, real, real) -> real): real
  {
    var friction := startFriction - rpm * frictionCoeff;
    var fadeStart := IdleFade(remap, rpm, idleRpm - IDLE_FADE_START_OFFSET, idleRpm);
    var fadeEnd := IdleFade(remap, rpm, idleRpm, idleRpm + IDLE_FADE_END_OFFSET);
    fadeEnd * Div(-friction, torqueMap(rpm)) + fadeStart
  }

  class EngineIce {
    var inertia: real
    var flywheelMass: real
    var flywheelRadius: real
    var maxRpm: real
    var idleRpm: real
    var startFriction: real
    var frictionCoeff: real
    var limiterDuration: real
    var rpm: real
    var inputThrottle: real
    var masterThrottle: real
    /** When `_limiterTime` was last set to 0. */
    var limiterStamp: real
    var torque: real
    const clutch: Clutch

    /**
     * A new engine: default flywheel, but `inertia` is only computed by the
     * flywheel setters, so it starts at 0.
     */
    constructor(clutch: Clutch)
      ensures this.clutch == clutch
      ensures inertia == 0.0 && flywheelMass == DefaultFlywheelMass && flywheelRadius == DefaultFlywheelRadius
      ensures maxRpm == DefaultMaxRpm && idleRpm == DefaultIdleRpm
      ensures startFriction == DefaultStartFriction && frictionCoeff == DefaultFrictionCoeff
      ensures limiterDuration == DefaultLimiterDuration
      ensures rpm == 0.0 && inputThrottle == 0.0 && masterThrottle == 0.0 && limiterStamp == 0.0 && torque == 0.0
    {
      this.clutch := clutch;
      inertia := 0.0;
      flywheelMass := DefaultFlywheelMass;
      flywheelRadius := DefaultFlywheelRadius;
      maxRpm := DefaultMaxRpm;
      idleRpm := DefaultIdleRpm;
      startFriction := DefaultStartFriction;
      frictionCoeff := DefaultFrictionCoeff;
      limiterDuration := DefaultLimiterDuration;
      rpm := 0.0;
      inputThrottle := 0.0;
      masterThrottle := 0.0;
      limiterStamp := 0.0;
      torque := 0.0;
    }

    /** The `FlywheelMass` setter: stores the mass and recomputes the inertia. */
    method SetFlywheelMass(mass: real)
      modifies this`flywheelMass, this`inertia
      ensures flywheelMass == mass && flywheelRadius == old(flywheelRadius)
      ensures inertia == FlywheelInertia(mass, flywheelRadius)
    {
      flywheelMass := mass;
      inertia := 0.5 * (flywheelMass * flywheelRadius * flywheelRadius);
    }

    /** The `FlywheelRadius` setter: stores the radius and recomputes the inertia. */
    method SetFlywheelRadius(radius: real)
      modifies this`flywheelRadius, this`inertia
      ensures flywheelRadius == radius && flywheelMass == old(flywheelMass)
      ensures inertia == FlywheelInertia(flywheelMass, radius)
    {
      flywheelRadius := radius;
      inertia := 0.5 * (flywheelMass * flywheelRadius * flywheelRadius);
    }

    /**
     * The throttle part of `OnFixedUpdate`. Above `maxRpm` the driver's
     * throttle is dropped and the limiter timer restarts; while the timer is
     * below `limiterDuration` the throttle stays dropped. The master throttle
     * is the idle supply plus what is left of the throttle, clamped to [0, 1].
     */
    method UpdateThrottle(now: real, torqueMap: real -> real, remap: (real, real, real, real, real) -> real)
      modifies this`masterThrottle, this`limiterStamp, this`torque
      ensures 0.0 <= masterThrottle <= 1.0
      ensures var supply := IdleSupply(rpm, idleRpm, startFriction, frictionCoeff, torqueMap, remap);
              && (rpm > maxRpm ==> limiterStamp == now && masterThrottle == Clamp(supply, 0.0, 1.0))
              && (rpm <= maxRpm ==> limiterStamp == old(limiterStamp))
              && (rpm <= maxRpm && now - old(limiterStamp) < limiterDuration ==>
                    masterThrottle == Clamp(supply, 0.0, 1.0))
              && (rpm <= maxRpm && now - old(limiterStamp) >= limiterDuration ==>
                    masterThrottle == Clamp(supply + inputThrottle, 0.0, 1.0))
      ensures torque == torqueMap(rpm) * masterThrottle + (startFriction - rpm * frictionCoeff)
    {
      var friction := startFriction - rpm * frictionCoeff;
      var maxInitialTorque := torqueMap(rpm);
      var additionalEnergySupply := IdleSupply(rpm, idleRpm, startFriction, frictionCoeff, torqueMap, remap);
      var throttle := inputThrottle;
      if rpm > maxRpm {
        throttle := 0.0;
        limiterStamp := now;
      } else if now - limiterStamp < limiterDuration {
        throttle := 0.0;
      }
      ClampBounds(additionalEnergySupply + throttle, 0.0, 1.0);
      masterThrottle := Clamp(additionalEnergySupply + throttle, 0.0, 1.0);
      torque := maxInitialTorque * masterThrottle + friction;
    }

    /**
     * `OnFixedUpdate`: the throttle update, then the clutch (which reads the
     * RPM of the previous step and the new engine torque), then the RPM moves
     * by the net torque over the inertia and is kept non-negative. A zero
     * inertia leaves the RPM where it was (see `Common.Div`).
     */
    method OnFixedUpdate(dt: real, now: real, clutching: bool, axleRpms: seq<real>,
                         torqueMap: real -> real, remap: (real, real, real, real, real) -> real,
                         lerp: (real, real, real) -> real)
      requires dt > 0.0 && axleRpms != []
      modifies this`masterThrottle, this`limiterStamp, this`torque, this`rpm
      modifies clutch`targetTorque, clutch`torque, clutch.gearbox`torque, clutch.gearbox`rpm
      ensures 0.0 <= masterThrottle <= 1.0
      ensures rpm >= 0.0
      ensures old(rpm) > maxRpm ==> limiterStamp == now
      ensures torque == torqueMap(old(rpm)) * masterThrottle + (startFriction - old(rpm) * frictionCoeff)
      ensures clutch.targetTorque
              == TargetTorque(old(rpm), torque, clutch.gearbox.rpm, clutch.gearbox.ratio, clutch.stiffness, clutching)
      ensures rpm == Max(old(rpm) + Div(torque - clutch.torque, inertia) * RAD_TO_RPM * dt, 0.0)
    {
      UpdateThrottle(now, torqueMap, remap);
      clutch.Think(rpm, torque, clutching, axleRpms, now, lerp);
      var invTorque := clutch.torque;
      rpm := rpm + Div(torque - invTorque, inertia) * RAD_TO_RPM * dt;
      rpm := Max(rpm, 0.0);
    }
  }
}
