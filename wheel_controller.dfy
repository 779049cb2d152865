/**
 * `WheelController`: the suspension step of the newer wheel. Each step the
 * wheel is placed (on the contact point when grounded, otherwise extended at
 * the suspension's extension speed), the spring length is clamped into its
 * travel with an explicit extension state, and the spring force, damper force
 * and tyre load follow.
 *
 * `MathF.Asin`, `MathF.Cos` and the spring's force curve are parameters.
 * The ground cast arrives as its outcome (hit or not, contact point in the
 * controller's frame, contact normal); the rigid-body force is not applied
 * here, only computed.
 */
module WheelControllers {
  import opened Common
  import opened Springs
  import opened Dampers
  import opened VehicleWheels
  import opened WheelApis

  const DefaultSuspensionExtensionSpeedCoeff: real := 6.0

  /** Where the wheel hangs when it drops freely for one step. */
  function AirZ(z: real, dt: real, maxLength: real, coeff: real): real
  {
    z - dt * maxLength * coeff
  }

  /** The sine of the contact angle, clamped to [-1, 1] before `asin`. */
  function ContactSine(x: real, radius: real): (s: real)
    ensures -1.0 <= s <= 1.0
    ensures -1.0 <= Div(x, radius) <= 1.0 ==> s == Div(x, radius)
  {
    Clamp(Div(x, radius), -1.0, 1.0)
  }

  /** Where the wheel rests on the contact point. */
  function GroundedZ(hit: Vec3, radius: real, asin: real -> real, cos: real -> real): real
  {
    hit.z + radius * cos(asin(ContactSine(hit.x, radius)))
  }

  /** The wheel height after placement: the higher of rest and free drop when grounded. */
  function PlacedZ(grounded: bool, hit: Vec3, radius: real, z: real, dt: real, maxLength: real, coeff: real,
                   asin: real -> real, cos: real -> real): (r: real)
    ensures grounded ==> r >= GroundedZ(hit, radius, asin, cos) && r >= AirZ(z, dt, maxLength, coeff)
    ensures grounded ==> r == GroundedZ(hit, radius, asin, cos) || r == AirZ(z, dt, maxLength, coeff)
    ensures !grounded ==> r == AirZ(z, dt, maxLength, coeff)
  {
    var air := AirZ(z, dt, maxLength, coeff);
    if grounded then
      var ground := GroundedZ(hit, radius, asin, cos);
      if ground > air then ground else air
    else air
  }

  /** The extension state a raw length falls in. */
  function ExtensionOf(raw: real, maxLength: real): ExtensionState
  {
    if raw <= 0.0 then BottomedOut else if raw >= maxLength then OverExtended else Normal
  }

  /** The length the spring is clamped to. */
  function ClampedLength(raw: real, maxLength: real): real
  {
    match ExtensionOf(raw, maxLength)
    case BottomedOut => 0.0
    case OverExtended => maxLength
    case Normal => raw
  }

  /**
   * The clamped length lies in [0, MaxLength]; for a positive MaxLength the
   * state is BottomedOut exactly at 0, OverExtended exactly at MaxLength, and
   * a Normal spring keeps its raw length strictly inside.
   */
  lemma ClampedLengthInTravel(raw: real, maxLength: real)
    ensures maxLength >= 0.0 ==> 0.0 <= ClampedLength(raw, maxLength) <= maxLength
    ensures maxLength > 0.0 ==>
              var len := ClampedLength(raw, maxLength);
              var state := ExtensionOf(raw, maxLength);
              && (state == BottomedOut <==> len == 0.0)
              && (state == OverExtended <==> len == maxLength)
              && (state == Normal <==> 0.0 < len < maxLength)
    ensures ExtensionOf(raw, maxLength) == Normal ==> ClampedLength(raw, maxLength) == raw
  {
  }

  /** The compression of a spring within its travel is a fraction in [0, 1]. */
  lemma CompressionIsFraction(len: real, maxLength: real)
    requires 0.0 <= len <= maxLength && maxLength > 0.0
    ensures 0.0 <= Div(maxLength - len, maxLength) <= 1.0
    ensures len == 0.0 ==> Div(maxLength - len, maxLength) == 1.0
    ensures len == maxLength ==> Div(maxLength - len, maxLength) == 0.0
  {
    var c := (maxLength - len) / maxLength;
    assert c * maxLength == maxLength - len;
    if c < 0.0 {
      MulMonotone(c, 0.0, maxLength);
    }
    if c > 1.0 {
      MulMonotone(1.0, c, maxLength);
    }
  }

  class WheelController {
    var isGrounded: bool
    var load: real
    /** `_dt`, the step length last read from `Time.Delta`. */
    var dt: real
    var suspensionExtensionSpeedCoeff: real
    /** `_hitLocalPoint` and `wheelHit.Normal`: the last contact found. */
    var hitLocalPoint: Vec3
    var hitNormal: Vec3
    var suspensionForce: Vec3
    var frictionCircleShape: real
    var frictionCircleStrength: real
    var autoSimulate: bool
    const spring: Spring
    const damper: Damper
    const wheel: Wheel

    /** A new controller with the inherited defaults, on the ground of nothing. */
    constructor(spring: Spring, damper: Damper, wheel: Wheel, timeDelta: real)
      ensures this.spring == spring && this.damper == damper && this.wheel == wheel
      ensures !isGrounded && load == 0.0 && dt == timeDelta
      ensures suspensionExtensionSpeedCoeff == DefaultSuspensionExtensionSpeedCoeff
      ensures frictionCircleShape == DefaultFrictionCircleShape
      ensures frictionCircleStrength == DefaultFrictionCircleStrength && autoSimulate
    {
      this.spring := spring;
      this.damper := damper;
      this.wheel := wheel;
      isGrounded := false;
      load := 0.0;
      dt := timeDelta;
      suspensionExtensionSpeedCoeff := DefaultSuspensionExtensionSpeedCoeff;
      hitLocalPoint := Vec3(0.0, 0.0, 0.0);
      hitNormal := Vec3(0.0, 0.0, 0.0);
      suspensionForce := Vec3(0.0, 0.0, 0.0);
      frictionCircleShape := DefaultFrictionCircleShape;
      frictionCircleStrength := DefaultFrictionCircleStrength;
      autoSimulate := true;
    }

    /** First part of `UpdateSpringAndDamper`: remember the length, then place the wheel. */
    method PlaceWheel(asin: real -> real, cos: real -> real)
      modifies spring`prevLength, wheel`localPosition
      ensures spring.prevLength == spring.length
      ensures wheel.localPosition
              == old(wheel.localPosition).(z := PlacedZ(isGrounded, hitLocalPoint, wheel.radius, old(wheel.localPosition.z),
                                                         dt, spring.maxLength, suspensionExtensionSpeedCoeff, asin, cos))
    {
      spring.prevLength := spring.length;
      var localAirYPosition := wheel.localPosition.z - dt * spring.maxLength * suspensionExtensionSpeedCoeff;
      if isGrounded {
        var xDistance := hitLocalPoint.x;
        var sine := Div(xDistance, wheel.radius);
        sine := Clamp(sine, -1.0, 1.0);
        var hitAngle := asin(sine);
        var localGroundedYPosition := hitLocalPoint.z + wheel.radius * cos(hitAngle);
        wheel.localPosition := wheel.localPosition.(z := if localGroundedYPosition > localAirYPosition
                                                         then localGroundedYPosition else localAirYPosition);
      } else {
        wheel.localPosition := wheel.localPosition.(z := localAirYPosition);
      }
    }

    /** Second part: clamp the length into the travel; over-extension lifts the wheel off the ground. */
    method ClampSpring()
      modifies spring`length, spring`state, this`isGrounded
      ensures spring.length == ClampedLength(-wheel.localPosition.z, spring.maxLength)
      ensures spring.state == ExtensionOf(-wheel.localPosition.z, spring.maxLength)
      ensures isGrounded == (old(isGrounded) && spring.state != OverExtended)
    {
      spring.length := -wheel.localPosition.z;
      if spring.length <= 0.0 {
        spring.state := BottomedOut;
        spring.length := 0.0;
      } else if spring.length >= spring.maxLength {
        spring.state := OverExtended;
        spring.length := spring.maxLength;
        isGrounded := false;
      } else {
        spring.state := Normal;
      }
    }

    /** Last part: compression, forces and load; an airborne wheel carries nothing. */
    method UpdateForces(forceCurve: real -> real)
      requires dt > 0.0
      modifies spring`compressionVelocity, spring`compression, spring`force, damper`force
      modifies this`load, this`suspensionForce
      ensures spring.compressionVelocity == (spring.prevLength - spring.length) / dt
      ensures spring.compression == Div(spring.maxLength - spring.length, spring.maxLength)
      ensures spring.force == if isGrounded then spring.maxForce * forceCurve(spring.compression) else 0.0
      ensures damper.force == if isGrounded then DamperForce(damper.Settings(), spring.compressionVelocity) else 0.0
      ensures isGrounded ==> load == Max(spring.force + damper.force, 0.0)
      ensures !isGrounded ==> load == 0.0
      ensures load >= 0.0
      ensures suspensionForce == if isGrounded then hitNormal.Scale(load / dt) else Vec3(0.0, 0.0, 0.0)
    {
      spring.compressionVelocity := (spring.prevLength - spring.length) / dt;
      spring.compression := Div(spring.maxLength - spring.length, spring.maxLength);
      spring.force := if isGrounded then spring.maxForce * forceCurve(spring.compression) else 0.0;
      damper.force := if isGrounded then DamperForce(damper.Settings(), spring.compressionVelocity) else 0.0;
      if isGrounded {
        load := spring.force + damper.force;
        load := if load < 0.0 then 0.0 else load;
        suspensionForce := hitNormal.Scale(load / dt);
      } else {
        load := 0.0;
        suspensionForce := Vec3(0.0, 0.0, 0.0);
      }
    }

    /**
     * The suspension after one update of a wheel that stood at `oldPosition`
     * with spring length `oldLength`, grounded or not by the cast: the wheel
     * is placed, the length clamped into the travel with its state, and the
     * compression, forces, load and contact force follow from them.
     */
    ghost predicate Settled(grounded: bool, oldPosition: Vec3, oldLength: real,
                            asin: real -> real, cos: real -> real, forceCurve: real -> real)
      reads this, spring, damper, wheel
    {
      && dt > 0.0
      && spring.prevLength == oldLength
      && wheel.localPosition
         == oldPosition.(z := PlacedZ(grounded, hitLocalPoint, wheel.radius, oldPosition.z,
                                      dt, spring.maxLength, suspensionExtensionSpeedCoeff, asin, cos))
      && spring.length == ClampedLength(-wheel.localPosition.z, spring.maxLength)
      && spring.state == ExtensionOf(-wheel.localPosition.z, spring.maxLength)
      && isGrounded == (grounded && spring.state != OverExtended)
      && spring.compressionVelocity == (oldLength - spring.length) / dt
      && spring.compression == Div(spring.maxLength - spring.length, spring.maxLength)
      && spring.force == (if isGrounded then spring.maxForce * forceCurve(spring.compression) else 0.0)
      && damper.force == (if isGrounded then DamperForce(damper.Settings(), spring.compressionVelocity) else 0.0)
      && load == (if isGrounded then Max(spring.force + damper.force, 0.0) else 0.0)
      && suspensionForce == (if isGrounded then hitNormal.Scale(load / dt) else Vec3(0.0, 0.0, 0.0))
    }

    /**
     * A settled suspension lies within its travel with the state telling the
     * ends apart, its compression is a fraction, an over-extended spring
     * lifts the wheel off the ground, and the load is never negative and 0
     * off the ground.
     */
    lemma SettledInTravel(grounded: bool, oldPosition: Vec3, oldLength: real,
                          asin: real -> real, cos: real -> real, forceCurve: real -> real)
      requires Settled(grounded, oldPosition, oldLength, asin, cos, forceCurve)
      ensures spring.maxLength >= 0.0 ==> 0.0 <= spring.length <= spring.maxLength
      ensures spring.maxLength > 0.0 ==>
                && (spring.state == BottomedOut <==> spring.length == 0.0)
                && (spring.state == OverExtended <==> spring.length == spring.maxLength)
                && 0.0 <= spring.compression <= 1.0
      ensures spring.state == OverExtended ==> !isGrounded
      ensures !isGrounded ==> load == 0.0 && spring.force == 0.0 && damper.force == 0.0
      ensures load >= 0.0
    {
      ClampedLengthInTravel(-wheel.localPosition.z, spring.maxLength);
      if spring.maxLength > 0.0 {
        CompressionIsFraction(spring.length, spring.maxLength);
      }
    }

    /**
     * `UpdateSpringAndDamper`: the previous length is kept, the wheel is
     * placed, the length is clamped into [0, MaxLength] with its extension
     * state, and the load is never negative and 0 off the ground.
     */
    method UpdateSpringAndDamper(asin: real -> real, cos: real -> real, forceCurve: real -> real)
      requires dt > 0.0
      modifies spring`prevLength, spring`length, spring`state, spring`compressionVelocity
      modifies spring`compression, spring`force, damper`force, wheel`localPosition
      modifies this`isGrounded, this`load, this`suspensionForce
      ensures Settled(old(isGrounded), old(wheel.localPosition), old(spring.length), asin, cos, forceCurve)
      ensures spring.prevLength == old(spring.length)
      ensures wheel.localPosition.z
              == PlacedZ(old(isGrounded), hitLocalPoint, wheel.radius, old(wheel.localPosition.z),
                         dt, spring.maxLength, suspensionExtensionSpeedCoeff, asin, cos)
      ensures spring.length == ClampedLength(-wheel.localPosition.z, spring.maxLength)
      ensures spring.state == ExtensionOf(-wheel.localPosition.z, spring.maxLength)
      ensures spring.maxLength >= 0.0 ==> 0.0 <= spring.length <= spring.maxLength
      ensures spring.maxLength > 0.0 ==>
                && (spring.state == BottomedOut <==> spring.length == 0.0)
                && (spring.state == OverExtended <==> spring.length == spring.maxLength)
                && 0.0 <= spring.compression <= 1.0
      ensures isGrounded == (old(isGrounded) && spring.state != OverExtended)
      ensures spring.compressionVelocity == (old(spring.length) - spring.length) / dt
      ensures !isGrounded ==> load == 0.0 && spring.force == 0.0 && damper.force == 0.0
      ensures isGrounded ==> load == Max(spring.force + damper.force, 0.0)
      ensures load >= 0.0
    {
      PlaceWheel(asin, cos);
      ClampSpring();
      ClampedLengthInTravel(-wheel.localPosition.z, spring.maxLength);
      UpdateForces(forceCurve);
      if spring.maxLength > 0.0 {
        CompressionIsFraction(spring.length, spring.maxLength);
      }
    }

    /**
     * `Step`: nothing when disabled; otherwise the cast decides whether the
     * wheel is grounded (a hit also replaces the contact point and normal),
     * the step length is read, and the suspension updates.
     */
    method Step(enabled: bool, hasHit: bool, hitPoint: Vec3, normal: Vec3, timeDelta: real,
                asin: real -> real, cos: real -> real, forceCurve: real -> real)
      requires timeDelta > 0.0
      modifies this`isGrounded, this`hitLocalPoint, this`hitNormal, this`dt, this`load, this`suspensionForce
      modifies spring`prevLength, spring`length, spring`state, spring`compressionVelocity
      modifies spring`compression, spring`force, damper`force, wheel`localPosition
      ensures !enabled ==> unchanged(this, spring, damper, wheel)
      ensures enabled ==> dt == timeDelta
      ensures enabled && hasHit ==> hitLocalPoint == hitPoint && hitNormal == normal
      ensures enabled && !hasHit ==> hitLocalPoint == old(hitLocalPoint) && hitNormal == old(hitNormal)
      ensures enabled ==> Settled(hasHit, old(wheel.localPosition), old(spring.length), asin, cos, forceCurve)
      ensures enabled ==> isGrounded == (hasHit && spring.state != OverExtended)
      ensures enabled && !hasHit ==> load == 0.0
      ensures load >= 0.0 || !enabled
    {
      if !enabled {
        return;
      }
      isGrounded := hasHit;
      if hasHit {
        hitLocalPoint := hitPoint;
        hitNormal := normal;
      }
      dt := timeDelta;
      UpdateSpringAndDamper(asin, cos, forceCurve);
    }

    /** `OnFixedUpdate`: one `Step` when `AutoSimulate` is set, nothing otherwise. */
    method OnFixedUpdate(enabled: bool, hasHit: bool, hitPoint: Vec3, normal: Vec3, timeDelta: real,
                         asin: real -> real, cos: real -> real, forceCurve: real -> real)
      requires timeDelta > 0.0
      modifies this`isGrounded, this`hitLocalPoint, this`hitNormal, this`dt, this`load, this`suspensionForce
      modifies spring`prevLength, spring`length, spring`state, spring`compressionVelocity
      modifies spring`compression, spring`force, damper`force, wheel`localPosition
      ensures !autoSimulate || !enabled ==> unchanged(this, spring, damper, wheel)
      ensures autoSimulate && enabled ==> dt == timeDelta
      ensures autoSimulate && enabled && hasHit ==> hitLocalPoint == hitPoint && hitNormal == normal
      ensures autoSimulate && enabled && !hasHit ==> hitLocalPoint == old(hitLocalPoint) && hitNormal == old(hitNormal)
      ensures autoSimulate && enabled ==>
                Settled(hasHit, old(wheel.localPosition), old(spring.length), asin, cos, forceCurve)
      ensures autoSimulate && enabled ==> isGrounded == (hasHit && spring.state != OverExtended)
      ensures autoSimulate && enabled ==> load >= 0.0
    {
      if autoSimulate {
        Step(enabled, hasHit, hitPoint, normal, timeDelta, asin, cos, forceCurve);
      }
    }
  }
}
