/**
 * `Vehicle.Wheel`: the wheel record of the newer wheel controller. Its
 * `Mass`, `Radius` and `Width` setters and `UpdateProperties` each overwrite
 * `Inertia`, and only the `Mass` setter and `UpdateProperties` compute the
 * disc inertia of the current mass and radius:
 *
 *  - the `Radius` setter multiplies the NEW radius by the OLD radius squared
 *    and never looks at the mass;
 *  - the `Width` setter puts the width where the mass belongs.
 *
 * The class keeps the setters as written; `SetRadiusCorrected` and
 * `SetWidthCorrected` are the setters that keep the inertia current.
 */
module VehicleWheels {
  import opened Common

  /** The factor `RPM` multiplies the angular velocity (rad/s) by. */
  const RpmPerRadPerSecond: real := 9.5493

  /** A solid disc: half the mass times the radius squared. */
  function DiscInertia(mass: real, radius: real): real
  {
    0.5 * (mass * radius * radius)
  }

  /** What the `Radius` setter stores: the new radius times the old radius squared, halved. */
  function InertiaAfterRadiusSet(oldRadius: real, value: real): real
  {
    0.5 * (value * oldRadius * oldRadius)
  }

  /** What the `Width` setter stores: the width times the radius squared, halved. */
  function InertiaAfterWidthSet(radius: real, value: real): real
  {
    0.5 * (value * radius * radius)
  }

  /**
   * The `Radius` setter's inertia ignores the mass, and on a 1 kg wheel going
   * from radius 1 to radius 2 it stores 1 where the disc has 2.
   */
  lemma RadiusSetterMissesInertia()
    ensures InertiaAfterRadiusSet(1.0, 2.0) == 1.0 && DiscInertia(1.0, 2.0) == 2.0
  {
  }

  /** On a 20 kg wheel of radius 1, setting the width to 0.3 stores 0.15 where the disc has 10. */
  lemma WidthSetterMissesInertia()
    ensures InertiaAfterWidthSet(1.0, 0.3) == 0.15 && DiscInertia(20.0, 1.0) == 10.0
  {
  }

  class Wheel {
    var angularVelocity: real
    var inertia: real
    var mass: real
    var radius: real
    var width: real
    /** Position relative to the wheel controller; the suspension moves its `z`. */
    var localPosition: Vec3
    var axleAngle: real
    var prevAngularVelocity: real
    var prevWidth: real
    var prevRadius: real

    /** `Inertia` is the disc inertia of the current mass and radius. */
    predicate InertiaCurrent()
      reads this
    {
      inertia == DiscInertia(mass, radius)
    }

    constructor()
      ensures angularVelocity == 0.0 && inertia == 0.0 && mass == 0.0 && radius == 0.0 && width == 0.0
      ensures localPosition == Vec3(0.0, 0.0, 0.0) && axleAngle == 0.0
      ensures prevAngularVelocity == 0.0 && prevWidth == 0.0 && prevRadius == 0.0
      ensures InertiaCurrent()
    {
      angularVelocity := 0.0;
      inertia := 0.0;
      mass := 0.0;
      radius := 0.0;
      width := 0.0;
      localPosition := Vec3(0.0, 0.0, 0.0);
      axleAngle := 0.0;
      prevAngularVelocity := 0.0;
      prevWidth := 0.0;
      prevRadius := 0.0;
    }

    /** `RPM`: has the sign of the angular velocity and converts back to it. */
    function Rpm(): (r: real)
      reads this
      ensures Sign(r) == Sign(angularVelocity)
      ensures r / RpmPerRadPerSecond == angularVelocity
    {
      angularVelocity * RpmPerRadPerSecond
    }

    /** The `Mass` setter: the disc inertia of the new mass at the current radius. */
    method SetMass(value: real)
      modifies this`mass, this`inertia
      ensures mass == value && radius == old(radius)
      ensures InertiaCurrent()
    {
      inertia := 0.5 * (value * radius * radius);
      mass := value;
    }

    /** The `Radius` setter as written: the inertia is computed before the radius is stored. */
    method SetRadius(value: real)
      modifies this`radius, this`inertia
      ensures radius == value && mass == old(mass)
      ensures inertia == InertiaAfterRadiusSet(old(radius), value)
    {
      inertia := 0.5 * (value * radius * radius);
      radius := value;
    }

    /** The `Width` setter as written: the width takes the place of the mass. */
    method SetWidth(value: real)
      modifies this`width, this`inertia
      ensures width == value && mass == old(mass) && radius == old(radius)
      ensures inertia == InertiaAfterWidthSet(radius, value)
    {
      inertia := 0.5 * (value * radius * radius);
      width := value;
    }

    /**
     * `UpdateProperties`: recomputes the disc inertia. It repairs whatever a
     * setter left, and a second call changes nothing.
     */
    method UpdateProperties()
      modifies this`inertia
      ensures InertiaCurrent()
      ensures old(InertiaCurrent()) ==> inertia == old(inertia)
    {
      inertia := 0.5 * (mass * radius * radius);
    }

    /** The `Radius` setter as intended: the inertia follows the new radius and the mass. */
    method SetRadiusCorrected(value: real)
      modifies this`radius, this`inertia
      ensures radius == value && mass == old(mass)
      ensures InertiaCurrent()
    {
      radius := value;
      inertia := 0.5 * (mass * radius * radius);
    }

    /** The `Width` setter as intended: a disc's inertia does not depend on its width. */
    method SetWidthCorrected(value: real)
      modifies this`width
      ensures width == value && inertia == old(inertia)
      ensures old(InertiaCurrent()) ==> InertiaCurrent()
    {
      width := value;
    }
  }
}

/**
 * `Vehicle.WheelAPI`: the slip getters. `LongitudinalSlip`, `LateralSlip`
 * and `CounterTorque` are get-only auto-properties that nothing assigns, so
 * they always read 0 and neither skid predicate can hold.
 */
module WheelApis {
  import opened Common

  /** Above this normalised slip a wheel counts as skidding. */
  const SkidThreshold: real := 0.35
  const DefaultFrictionCircleShape: real := 0.9
  const DefaultFrictionCircleStrength: real := 1.0

  /**
   * `NormalizedLongitudinalSlip` / `NormalizedLateralSlip`: the absolute
   * slip, clamped to [0, 1].
   */
  function NormalizedSlip(slip: real): (n: real)
    ensures 0.0 <= n <= 1.0
    ensures n == Min(Abs(slip), 1.0)
  {
    var absSlip := if slip < 0.0 then -slip else slip;
    if absSlip < 0.0 then 0.0 else if absSlip > 1.0 then 1.0 else absSlip
  }

  /** The normalised slip ignores the direction of the slip. */
  lemma NormalizedSlipIsEven(slip: real)
    ensures NormalizedSlip(-slip) == NormalizedSlip(slip)
  {
  }

  /** `IsSkiddingLongitudinally` / `IsSkiddingLaterally`. */
  predicate IsSkidding(slip: real)
  {
    NormalizedSlip(slip) > SkidThreshold
  }

  /** A wheel skids exactly when the slip is more than 0.35 in either direction. */
  lemma SkiddingIffSlipAboveThreshold(slip: real)
    ensures IsSkidding(slip) <==> slip > SkidThreshold || slip < -SkidThreshold
  {
  }

  /** The slips and counter torque of the API, which nothing ever assigns. */
  const LongitudinalSlip: real := 0.0
  const LateralSlip: real := 0.0
  const CounterTorque: real := 0.0

  /** Since the slips are never assigned, no wheel reports a skid. */
  lemma NeverSkids()
    ensures NormalizedSlip(LongitudinalSlip) == 0.0 && NormalizedSlip(LateralSlip) == 0.0
    ensures !IsSkidding(LongitudinalSlip) && !IsSkidding(LateralSlip)
  {
  }
}
