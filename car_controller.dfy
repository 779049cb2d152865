/**
 * `CarController`: each physics step it distributes brake torque over the
 * wheels (the driver's brake input, eased by the ABS, plus the handbrake on
 * the powered wheels) and steers the two front wheels, with an optional
 * speed-dependent reduction of the steering range and a drift help that
 * steers into the slide. It also hands the chosen friction preset to every
 * wheel.
 *
 * The wheels are seen through the properties the controller and its ABS
 * use: `ControlledWheel` holds what the `Stereable` base class of
 * `WheelCollider` exposes (brake torque, steer angle, friction preset) and
 * the two readings of the collider (ground contact, forward slip). The rigid
 * body's speed and velocity angle, the rev limiter, the frame time and the
 * engine's `MathX.Lerp` are parameters.
 */
module CarControllers {
  import opened Common
  import opened PacejkaCurves
  import opened CarInputs
  import opened ABSModules

  /** The state of a `ControlledWheel`, as one value. */
  datatype WheelView = WheelView(brakeTorque: real, steerAngle: real, frictionPreset: PacejkaCurve,
                                 grounded: bool, forwardSlip: real)

  /** A wheel as the controller sees it. */
  class ControlledWheel {
    var brakeTorque: real
    var steerAngle: real
    var frictionPreset: PacejkaCurve
    /** `IsGrounded` and `ForwardSlip`, which the controller only reads. */
    var grounded: bool
    var forwardSlip: real

    constructor(preset: PacejkaCurve)
      ensures brakeTorque == 0.0 && steerAngle == 0.0 && frictionPreset == preset
      ensures !grounded && forwardSlip == 0.0
    {
      brakeTorque := 0.0;
      steerAngle := 0.0;
      frictionPreset := preset;
      grounded := false;
      forwardSlip := 0.0;
    }

    function View(): WheelView
      reads this
    {
      WheelView(brakeTorque, steerAngle, frictionPreset, grounded, forwardSlip)
    }
  }

  /**
   * `CarDirection`: 0 below 1 m/s, else 1 when the velocity points less than
   * 90 degrees away from the heading and -1 when it does not.
   */
  function Direction(currentSpeed: real, velocityAngle: real): (r: int)
    ensures r == 0 <==> currentSpeed < 1.0
    ensures r == 1 <==> currentSpeed >= 1.0 && -90.0 < velocityAngle < 90.0
    ensures r == -1 <==> currentSpeed >= 1.0 && (velocityAngle <= -90.0 || velocityAngle >= 90.0)
  {
    if currentSpeed < 1.0 then 0 else if velocityAngle < 90.0 && velocityAngle > -90.0 then 1 else -1
  }

  /** Sliding to the left or to the right by the same angle gives the same direction. */
  lemma DirectionIsSymmetric(currentSpeed: real, velocityAngle: real)
    ensures Direction(currentSpeed, -velocityAngle) == Direction(currentSpeed, velocityAngle)
  {
  }

  /** The steering-range factor: 1 - speed/MaxSpeedForMinAngleMultiplier, clamped to [min, max]. */
  function SteerMultiplier(currentSpeed: real, maxSpeedForMin: real, minMultiplier: real, maxMultiplier: real)
    : (r: real)
    requires minMultiplier <= maxMultiplier
    ensures minMultiplier <= r <= maxMultiplier
  {
    ClampBounds(1.0 - Div(currentSpeed, maxSpeedForMin), minMultiplier, maxMultiplier);
    Clamp(1.0 - Div(currentSpeed, maxSpeedForMin), minMultiplier, maxMultiplier)
  }

  /**
   * The faster the car, the smaller the steering range (for a positive speed
   * bound); at or above that bound the minimum factor applies.
   */
  lemma {:induction false} SteerMultiplierFallsWithSpeed(s1: real, s2: real, maxSpeedForMin: real,
                                                         minMultiplier: real, maxMultiplier: real)
    requires minMultiplier <= maxMultiplier && maxSpeedForMin > 0.0 && s1 <= s2
    ensures SteerMultiplier(s2, maxSpeedForMin, minMultiplier, maxMultiplier)
            <= SteerMultiplier(s1, maxSpeedForMin, minMultiplier, maxMultiplier)
    ensures s2 >= maxSpeedForMin && minMultiplier >= 0.0 ==>
              SteerMultiplier(s2, maxSpeedForMin, minMultiplier, maxMultiplier) == minMultiplier
  {
    assert Div(s1, maxSpeedForMin) <= Div(s2, maxSpeedForMin) by {
      MulMonotone(s1, s2, 1.0 / maxSpeedForMin);
    }
    if s2 >= maxSpeedForMin {
      assert Div(s2, maxSpeedForMin) >= 1.0 by {
        MulMonotone(maxSpeedForMin, s2, 1.0 / maxSpeedForMin);
      }
    }
  }

  /** The steering the driver asks for: input times the maximum angle, reduced by the factor when enabled. */
  function TargetSteerAngle(steering: real, maxSteerAngle: real, enableMultiplier: bool, multiplier: real): real
  {
    if enableMultiplier then steering * maxSteerAngle * multiplier else steering * maxSteerAngle
  }

  /** Drift help is on above 20 m/s while the car moves forward. */
  predicate NeedsHelp(currentSpeed: real, velocityAngle: real)
  {
    currentSpeed > 20.0 && Direction(currentSpeed, velocityAngle) > 0
  }

  /** Above 20 m/s the help is on exactly when the velocity is within 90 degrees of the heading. */
  lemma HelpWhenFastAndForward(currentSpeed: real, velocityAngle: real)
    ensures NeedsHelp(currentSpeed, velocityAngle) <==> currentSpeed > 20.0 && -90.0 < velocityAngle < 90.0
  {
  }

  /** The angle both front wheels get: help plus steering, clamped to the steering range widened by 10 degrees. */
  function FrontWheelAngle(helpAngle: real, currentSteerAngle: real, maxSteerAngle: real): (r: real)
    requires maxSteerAngle >= -10.0
    ensures -(maxSteerAngle + 10.0) <= r <= maxSteerAngle + 10.0
    ensures -(maxSteerAngle + 10.0) <= helpAngle + currentSteerAngle <= maxSteerAngle + 10.0 ==>
              r == helpAngle + currentSteerAngle
  {
    ClampBounds(helpAngle + currentSteerAngle, -(maxSteerAngle + 10.0), maxSteerAngle + 10.0);
    Clamp(helpAngle + currentSteerAngle, -(maxSteerAngle + 10.0), maxSteerAngle + 10.0)
  }

  /** The brake torque every wheel starts the step with: the swapped brake input times the maximum, times the ABS factor. */
  function BaseBrakeTorque(inputSwappedBrakes: real, maxBrakeTorque: real, absFactor: real): real
  {
    inputSwappedBrakes * maxBrakeTorque * absFactor
  }

  /** The handbrake's extra torque on a powered wheel. */
  function HandbrakeTorque(handbrake: real, maxBrakeTorque: real): real
  {
    handbrake * maxBrakeTorque * 2.0
  }

  /** The ABS factor an enabled module gives. */
  function AbsFactor(enabled: bool, engages: bool): (r: real)
    ensures r == 1.0 || r == ReleasedFactor
  {
    if enabled && engages then ReleasedFactor else 1.0
  }

  /**
   * With the brake input and the handbrake in [0, 1] and a non-negative
   * maximum, no wheel gets more than three times the maximum: the ABS only
   * lowers the brake share, and the handbrake adds at most twice the maximum.
   */
  lemma BrakeTorqueBounds(inputSwappedBrakes: real, handbrake: real, maxBrakeTorque: real, absFactor: real,
                          powered: bool)
    requires 0.0 <= inputSwappedBrakes <= 1.0 && 0.0 <= handbrake <= 1.0 && maxBrakeTorque >= 0.0
    requires absFactor == 1.0 || absFactor == ReleasedFactor
    ensures var t := BaseBrakeTorque(inputSwappedBrakes, maxBrakeTorque, absFactor)
                     + (if powered then HandbrakeTorque(handbrake, maxBrakeTorque) else 0.0);
            0.0 <= t <= 3.0 * maxBrakeTorque
  {
    var base := BaseBrakeTorque(inputSwappedBrakes, maxBrakeTorque, absFactor);
    var extra := HandbrakeTorque(handbrake, maxBrakeTorque);
    assert 0.0 <= base <= maxBrakeTorque by {
      var b := inputSwappedBrakes * maxBrakeTorque;
      MulNonNegative(inputSwappedBrakes, maxBrakeTorque);
      MulMonotone(inputSwappedBrakes, 1.0, maxBrakeTorque);
      assert 1.0 * maxBrakeTorque == maxBrakeTorque;
      if absFactor == 1.0 {
        assert base == b;
      } else {
        assert base == b * 0.01;
        assert 0.0 <= b * 0.01 <= b;
      }
    }
    assert 0.0 <= extra <= 2.0 * maxBrakeTorque by {
      MulNonNegative(handbrake, maxBrakeTorque);
      MulMonotone(handbrake, 1.0, maxBrakeTorque);
      assert 1.0 * maxBrakeTorque == maxBrakeTorque;
    }
  }

  /** How many times wheel `k` is listed in `ps`; 0 exactly when it is not listed. */
  function Listings(ps: seq<nat>, k: nat): (n: nat)
    ensures n == 0 <==> k !in ps
  {
    if ps == [] then 0
    else Listings(ps[..|ps| - 1], k) + (if ps[|ps| - 1] == k then 1 else 0)
  }

  /** The handbrake torque wheel `k` gets in one step: one `HandbrakeTorque` per listing. */
  function HandbrakeShare(ps: seq<nat>, k: nat, handbrake: real, maxBrakeTorque: real): real
  {
    Listings(ps, k) as real * HandbrakeTorque(handbrake, maxBrakeTorque)
  }

  /** What the listings of wheel `k` in `ps` add up to, each adding `extra`. */
  function Share(ps: seq<nat>, k: nat, extra: real): real
  {
    if ps == [] then 0.0
    else Share(ps[..|ps| - 1], k, extra) + (if ps[|ps| - 1] == k then extra else 0.0)
  }

  /** One more listing taken into account. */
  lemma ShareStep(ps: seq<nat>, p: nat, extra: real)
    requires p < |ps|
    ensures forall k :: Share(ps[..p + 1], k, extra) == Share(ps[..p], k, extra) + (if ps[p] == k then extra else 0.0)
  {
    assert ps[..p + 1][..p] == ps[..p];
  }

  /** Each listing adds `extra` once: the total is the number of listings times `extra`. */
  lemma {:induction false} ShareCounts(ps: seq<nat>, k: nat, extra: real)
    ensures Share(ps, k, extra) == Listings(ps, k) as real * extra
  {
    if ps != [] {
      var init := ps[..|ps| - 1];
      ShareCounts(init, k, extra);
      var n := Listings(init, k) as real;
      if ps[|ps| - 1] == k {
        assert (n + 1.0) * extra == n * extra + extra;
      }
    }
  }

  /** Over the whole list, the loop's running total is `HandbrakeShare` for every wheel. */
  lemma SharesAreHandbrakeShares(ps: seq<nat>, handbrake: real, maxBrakeTorque: real)
    ensures forall k :: Share(ps, k, HandbrakeTorque(handbrake, maxBrakeTorque))
                        == HandbrakeShare(ps, k, handbrake, maxBrakeTorque)
  {
    forall k {
      ShareCounts(ps, k, HandbrakeTorque(handbrake, maxBrakeTorque));
    }
  }

  /** Listed at most once, a wheel is listed once exactly when it is powered. */
  lemma {:induction false} ListedOnce(ps: seq<nat>, k: nat)
    requires forall a, b :: 0 <= a < b < |ps| ==> ps[a] != ps[b]
    ensures Listings(ps, k) == if k in ps then 1 else 0
  {
    if ps != [] {
      var init := ps[..|ps| - 1];
      ListedOnce(init, k);
      if ps[|ps| - 1] == k {
        assert k !in init;
      } else {
        assert k in ps <==> k in init;
      }
    }
  }

  class CarController {
    const wheels: seq<ControlledWheel>
    /** The powered wheels (`Powertrain.Wheels`), as positions in `wheels`. */
    const poweredWheels: seq<nat>
    const input: CarInputHandler
    /** The ABS module, when the car has one. */
    const abs: ABSModule?

    var maxBrakeTorque: real
    var maxSteerAngle: real
    var enableSteerAngleMultiplier: bool
    var maxSpeedForMinAngleMultiplier: real
    var minSteerAngleMultiplier: real
    var maxSteerAngleMultiplier: real
    var frictionPresetEnum: PresetsEnum
    var frictionPreset: PacejkaCurve
    var currentSpeed: real
    var currentSteerAngle: real
    var velocityAngle: real

    /**
     * Distinct wheel objects, and each powered wheel one of them. A wheel may
     * be listed as powered more than once.
     */
    predicate Valid()
    {
      && (forall a, b :: 0 <= a < b < |wheels| ==> wheels[a] != wheels[b])
      && (forall p :: 0 <= p < |poweredWheels| ==> poweredWheels[p] < |wheels|)
    }

    /** The property defaults; the friction preset starts as the shared Asphalt object. */
    constructor(wheels: seq<ControlledWheel>, poweredWheels: seq<nat>, input: CarInputHandler, abs: ABSModule?,
                asphalt: PacejkaCurve)
      ensures this.wheels == wheels && this.poweredWheels == poweredWheels && this.input == input && this.abs == abs
      ensures maxBrakeTorque == 0.0 && maxSteerAngle == 0.0 && enableSteerAngleMultiplier
      ensures maxSpeedForMinAngleMultiplier == 100.0 && minSteerAngleMultiplier == 0.05
      ensures maxSteerAngleMultiplier == 1.0
      ensures frictionPresetEnum == Asphalt && frictionPreset == asphalt
      ensures currentSpeed == 0.0 && currentSteerAngle == 0.0 && velocityAngle == 0.0
    {
      this.wheels := wheels;
      this.poweredWheels := poweredWheels;
      this.input := input;
      this.abs := abs;
      maxBrakeTorque := 0.0;
      maxSteerAngle := 0.0;
      enableSteerAngleMultiplier := true;
      maxSpeedForMinAngleMultiplier := 100.0;
      minSteerAngleMultiplier := 0.05;
      maxSteerAngleMultiplier := 1.0;
      frictionPresetEnum := Asphalt;
      frictionPreset := asphalt;
      currentSpeed := 0.0;
      currentSteerAngle := 0.0;
      velocityAngle := 0.0;
    }

    /** `CarDirection`, from the stored speed and velocity angle. */
    function CarDirection(): int
      reads this
    {
      Direction(currentSpeed, velocityAngle)
    }

    /** What the ABS reads from the powered wheels. */
    function PoweredReadings(): (rs: seq<WheelReading>)
      requires Valid()
      reads wheels
      ensures |rs| == |poweredWheels|
    {
      seq(|poweredWheels|, i requires 0 <= i < |poweredWheels| reads wheels =>
        WheelReading(wheels[poweredWheels[i]].grounded, wheels[poweredWheels[i]].forwardSlip))
    }

    /** `UpdateWheelsFriction`: every wheel gets the controller's preset object itself, not a copy. */
    method UpdateWheelsFriction()
      modifies wheels
      ensures forall k :: 0 <= k < |wheels| ==> wheels[k].frictionPreset == frictionPreset
      ensures forall k :: 0 <= k < |wheels| ==>
                wheels[k].View() == old(wheels[k].View()).(frictionPreset := wheels[k].frictionPreset)
    {
      for k := 0 to |wheels|
        invariant forall j :: 0 <= j < k ==> wheels[j].frictionPreset == frictionPreset
        invariant forall j :: 0 <= j < |wheels| ==>
                    wheels[j].View() == old(wheels[j].View()).(frictionPreset := wheels[j].frictionPreset)
      {
        wheels[k].frictionPreset := frictionPreset;
      }
    }

    /**
     * The `FrictionPresetEnum` setter and `OnFrictionChanged`: the named
     * preset object of the table becomes the controller's preset and every
     * wheel's.
     */
    method SetFrictionPresetEnum(value: PresetsEnum, presets: map<PresetsEnum, PacejkaCurve>)
      requires value in presets
      modifies this`frictionPresetEnum, this`frictionPreset, wheels
      ensures frictionPresetEnum == value && frictionPreset == presets[value]
      ensures forall k :: 0 <= k < |wheels| ==> wheels[k].frictionPreset == presets[value]
      ensures forall k :: 0 <= k < |wheels| ==>
                wheels[k].View() == old(wheels[k].View()).(frictionPreset := wheels[k].frictionPreset)
    {
      frictionPresetEnum := value;
      frictionPreset := presets[frictionPresetEnum];
      UpdateWheelsFriction();
    }

    /**
     * The first loop of `OnFixedUpdate`: every wheel's brake torque is reset
     * to the swapped brake input times the maximum, times the ABS factor when
     * the car has an ABS (which is asked once per wheel and answers the same
     * each time).
     */
    method ResetBrakes(revLimiterActive: bool, velocityY: real) returns (ghost factor: real)
      requires Valid()
      modifies wheels, abs
      ensures abs == null ==> factor == 1.0
      ensures abs != null ==>
                factor == AbsFactor(abs.active, Engages(currentSpeed, abs.lowerSpeedThreshold, abs.slipThreshold,
                                                        input.states.brakes, revLimiterActive, input.states.handbrake,
                                                        old(PoweredReadings()), velocityY))
      ensures forall k :: 0 <= k < |wheels| ==>
                wheels[k].brakeTorque == BaseBrakeTorque(input.inputSwappedBrakes, maxBrakeTorque, factor)
      ensures forall k :: 0 <= k < |wheels| ==>
                wheels[k].View() == old(wheels[k].View()).(brakeTorque := wheels[k].brakeTorque)
      ensures abs != null ==> abs.active == old(abs.active) && abs.lowerSpeedThreshold == old(abs.lowerSpeedThreshold)
                              && abs.slipThreshold == old(abs.slipThreshold)
      ensures abs != null && !old(abs.active) ==> abs.isActive == old(abs.isActive)
      ensures abs != null && old(abs.active) && |wheels| > 0 ==> (abs.isActive <==> factor == ReleasedFactor)
    {
      var readings := PoweredReadings();
      factor := 1.0;
      if abs != null {
        factor := AbsFactor(abs.active, Engages(currentSpeed, abs.lowerSpeedThreshold, abs.slipThreshold,
                                                input.states.brakes, revLimiterActive, input.states.handbrake,
                                                readings, velocityY));
      }
      for k := 0 to |wheels|
        invariant forall j :: 0 <= j < k ==>
                    wheels[j].brakeTorque == BaseBrakeTorque(input.inputSwappedBrakes, maxBrakeTorque, factor)
        invariant forall j :: 0 <= j < |wheels| ==>
                    wheels[j].View() == old(wheels[j].View()).(brakeTorque := wheels[j].brakeTorque)
        invariant abs != null ==> abs.active == old(abs.active)
                                  && abs.lowerSpeedThreshold == old(abs.lowerSpeedThreshold)
                                  && abs.slipThreshold == old(abs.slipThreshold)
        invariant abs != null && !old(abs.active) ==> abs.isActive == old(abs.isActive)
        invariant abs != null && old(abs.active) && k > 0 ==> (abs.isActive <==> factor == ReleasedFactor)
      {
        wheels[k].brakeTorque := input.inputSwappedBrakes * maxBrakeTorque;
        if abs != null {
          var modifier := abs.BrakeTorqueModifier(currentSpeed, input.states.brakes, revLimiterActive,
                                                  input.states.handbrake, readings, velocityY);
          wheels[k].brakeTorque := wheels[k].brakeTorque * modifier;
        }
      }
    }

    /** One step of the handbrake loop. */
    method AddToWheel(w: nat, extra: real)
      requires Valid() && w < |wheels|
      modifies wheels[w]
      ensures wheels[w].View() == old(wheels[w].View()).(brakeTorque := old(wheels[w].brakeTorque) + extra)
      ensures forall k :: 0 <= k < |wheels| && k != w ==> wheels[k].View() == old(wheels[k].View())
    {
      wheels[w].brakeTorque := wheels[w].brakeTorque + extra;
    }

    /**
     * The second loop of `OnFixedUpdate`: each listing of a powered wheel adds
     * the handbrake torque to it, so a wheel listed n times gets it n times.
     */
    method AddHandbrake()
      requires Valid()
      modifies wheels
      ensures forall k :: 0 <= k < |wheels| ==>
                wheels[k].brakeTorque == old(wheels[k].brakeTorque)
                                         + HandbrakeShare(poweredWheels, k, input.states.handbrake, maxBrakeTorque)
      ensures forall k :: 0 <= k < |wheels| ==>
                wheels[k].View() == old(wheels[k].View()).(brakeTorque := wheels[k].brakeTorque)
    {
      var extra := HandbrakeTorque(input.states.handbrake, maxBrakeTorque);
      for p := 0 to |poweredWheels|
        invariant forall k :: 0 <= k < |wheels| ==>
                    wheels[k].brakeTorque == old(wheels[k].brakeTorque) + Share(poweredWheels[..p], k, extra)
        invariant forall k :: 0 <= k < |wheels| ==>
                    wheels[k].View() == old(wheels[k].View()).(brakeTorque := wheels[k].brakeTorque)
      {
        ShareStep(poweredWheels, p, extra);
        AddToWheel(poweredWheels[p], extra);
      }
      assert poweredWheels[..|poweredWheels|] == poweredWheels;
      SharesAreHandbrakeShares(poweredWheels, input.states.handbrake, maxBrakeTorque);
    }

    /**
     * `UpdateSteerAngle`. The steering eases towards its target through
     * `lerp`; the drift help is decided on the velocity angle of the previous
     * step (the new one is stored just after) and, when on, steers by the new
     * angle; both front wheels get the same clamped angle.
     */
    method UpdateSteerAngle(lerp: (real, real, real) -> real, timeDelta: real, signedAngle: real)
      requires |wheels| >= 2
      requires minSteerAngleMultiplier <= maxSteerAngleMultiplier && maxSteerAngle >= -10.0
      modifies this`currentSteerAngle, this`velocityAngle, wheels[0], wheels[1]
      ensures currentSteerAngle == lerp(old(currentSteerAngle),
                                        TargetSteerAngle(input.states.steering, maxSteerAngle,
                                                         enableSteerAngleMultiplier,
                                                         SteerMultiplier(currentSpeed, maxSpeedForMinAngleMultiplier,
                                                                         minSteerAngleMultiplier,
                                                                         maxSteerAngleMultiplier)),
                                        timeDelta * 5.0)
      ensures velocityAngle == -signedAngle
      ensures wheels[0].steerAngle == wheels[1].steerAngle
      ensures wheels[0].steerAngle == FrontWheelAngle(if NeedsHelp(currentSpeed, old(velocityAngle))
                                                      then velocityAngle else 0.0,
                                                      currentSteerAngle, maxSteerAngle)
      ensures -(maxSteerAngle + 10.0) <= wheels[0].steerAngle <= maxSteerAngle + 10.0
      ensures forall k :: 0 <= k < |wheels| ==>
                wheels[k].View() == old(wheels[k].View()).(steerAngle := wheels[k].steerAngle)
    {
      var targetSteerAngle := input.states.steering * maxSteerAngle;
      if enableSteerAngleMultiplier {
        targetSteerAngle := targetSteerAngle * SteerMultiplier(currentSpeed, maxSpeedForMinAngleMultiplier,
                                                               minSteerAngleMultiplier, maxSteerAngleMultiplier);
      }
      assert targetSteerAngle == TargetSteerAngle(input.states.steering, maxSteerAngle, enableSteerAngleMultiplier,
                                                  SteerMultiplier(currentSpeed, maxSpeedForMinAngleMultiplier,
                                                                  minSteerAngleMultiplier, maxSteerAngleMultiplier));
      currentSteerAngle := lerp(currentSteerAngle, targetSteerAngle, timeDelta * 5.0);
      var needHelp := currentSpeed > 20.0 && CarDirection() > 0;
      var targetAngle := 0.0;
      velocityAngle := -signedAngle;
      if needHelp {
        targetAngle := velocityAngle;
      }
      targetAngle := FrontWheelAngle(targetAngle, currentSteerAngle, maxSteerAngle);
      wheels[0].steerAngle := targetAngle;
      wheels[1].steerAngle := targetAngle;
    }

    /**
     * `OnFixedUpdate`: store the speed, reset every wheel's brake torque
     * (with the ABS factor), add the handbrake on the powered wheels, then
     * steer the front wheels.
     */
    method OnFixedUpdate(speed: real, revLimiterActive: bool, velocityY: real,
                         lerp: (real, real, real) -> real, timeDelta: real, signedAngle: real)
      returns (ghost factor: real)
      requires Valid() && |wheels| >= 2
      requires minSteerAngleMultiplier <= maxSteerAngleMultiplier && maxSteerAngle >= -10.0
      modifies this`currentSpeed, this`currentSteerAngle, this`velocityAngle, wheels, abs
      ensures currentSpeed == speed
      ensures abs == null ==> factor == 1.0
      ensures abs != null ==>
                factor == AbsFactor(old(abs.active), Engages(speed, old(abs.lowerSpeedThreshold),
                                                             old(abs.slipThreshold), input.states.brakes,
                                                             revLimiterActive, input.states.handbrake,
                                                             old(PoweredReadings()), velocityY))
      ensures forall k :: 0 <= k < |wheels| ==>
                wheels[k].brakeTorque == BaseBrakeTorque(input.inputSwappedBrakes, maxBrakeTorque, factor)
                                         + HandbrakeShare(poweredWheels, k, input.states.handbrake, maxBrakeTorque)
      ensures currentSteerAngle == lerp(old(currentSteerAngle),
                                        TargetSteerAngle(input.states.steering, maxSteerAngle,
                                                         enableSteerAngleMultiplier,
                                                         SteerMultiplier(speed, maxSpeedForMinAngleMultiplier,
                                                                         minSteerAngleMultiplier,
                                                                         maxSteerAngleMultiplier)),
                                        timeDelta * 5.0)
      ensures velocityAngle == -signedAngle
      ensures wheels[0].steerAngle == wheels[1].steerAngle
      ensures wheels[0].steerAngle == FrontWheelAngle(if NeedsHelp(speed, old(velocityAngle))
                                                      then velocityAngle else 0.0,
                                                      currentSteerAngle, maxSteerAngle)
      ensures -(maxSteerAngle + 10.0) <= wheels[0].steerAngle <= maxSteerAngle + 10.0
      ensures forall k :: 0 <= k < |wheels| ==> wheels[k].frictionPreset == old(wheels[k].frictionPreset)
      ensures forall k :: 2 <= k < |wheels| ==> wheels[k].steerAngle == old(wheels[k].steerAngle)
      ensures forall k :: 0 <= k < |wheels| ==>
                wheels[k].grounded == old(wheels[k].grounded) && wheels[k].forwardSlip == old(wheels[k].forwardSlip)
      ensures abs != null && !old(abs.active) ==> abs.isActive == old(abs.isActive)
      ensures abs != null && old(abs.active) ==> (abs.isActive <==> factor == ReleasedFactor)
    {
      currentSpeed := speed;
      factor := ResetBrakes(revLimiterActive, velocityY);
      AddHandbrake();
      UpdateSteerAngle(lerp, timeDelta, signedAngle);
    }
  }
}
