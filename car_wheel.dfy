/**
 * The state half of the car's `Wheel` component (`Car.Wheel`): the setters
 * that keep `Inertia` current, `RPM`, the defaults, the friction preset the
 * wheel drives through, and the motor torque the differential pushes in.
 * The trace and force half of the component is not part of this model.
 *
 * `MathX.InchToMeter` is a parameter. `FrictionPreset.Presets`, a mutable
 * static dictionary, is passed to the operation that reads it.
 */
module CarWheels {
  import opened Common
  import opened MagicFormula
  import opened FrictionPresets

  /** The factor `RPM` multiplies the angular velocity (rad/s) by. */
  const RpmPerRadPerSecond: real := 9.55
  const DefaultLoadContribution: real := 0.25
  const DefaultLoadRating: real := 5400.0
  const DefaultSuspensionExtensionSpeedCoeff: real := 6.0

  /**
   * `CalcInertia`: half the mass times the squared radius, where the squared
   * radius (in square inches) goes through the inch-to-metre conversion once.
   */
  function WheelInertia(mass: real, radius: real, inchToMeter: real -> real): real
  {
    0.5 * (mass * inchToMeter(radius * radius))
  }

  /**
   * For a linear conversion by `k` metres per inch, the inertia carries the
   * factor `k` once, not `k * k`: it is `0.5 * mass * k * radius^2`.
   */
  lemma WheelInertiaConvertsOnce(mass: real, radius: real, k: real, inchToMeter: real -> real)
    requires forall x :: inchToMeter(x) == k * x
    ensures WheelInertia(mass, radius, inchToMeter) == 0.5 * k * mass * (radius * radius)
  {
    assert inchToMeter(radius * radius) == k * (radius * radius);
  }

  /**
   * With 0.0254 m per inch, a 20 kg wheel of radius 10 in gets inertia 25.4
   * from `CalcInertia`, where a disc of radius 0.254 m has 0.64516.
   */
  lemma InertiaOfTenInchWheel(inchToMeter: real -> real)
    requires forall x :: inchToMeter(x) == 0.0254 * x
    ensures WheelInertia(20.0, 10.0, inchToMeter) == 25.4
    ensures WheelInertiaCorrected(20.0, 10.0, inchToMeter) == 0.64516
    ensures WheelInertia(20.0, 10.0, inchToMeter) != WheelInertiaCorrected(20.0, 10.0, inchToMeter)
  {
    assert inchToMeter(100.0) == 2.54;
    assert inchToMeter(10.0) == 0.254;
  }

  /** The inertia of a solid disc: half the mass times the squared radius, converted to metres first. */
  function WheelInertiaCorrected(mass: real, radius: real, inchToMeter: real -> real): (r: real)
    ensures mass >= 0.0 ==> r >= 0.0
    ensures mass == 0.0 || inchToMeter(radius) == 0.0 ==> r == 0.0
  {
    var m := inchToMeter(radius);
    assert mass >= 0.0 ==> mass * (m * m) >= 0.0 by {
      assert m * m >= 0.0;
      if mass >= 0.0 {
        MulNonNegative(mass, m * m);
      }
    }
    0.5 * (mass * (m * m))
  }

  /** For a linear conversion by `k`, the corrected inertia carries `k * k`, as a squared length must. */
  lemma WheelInertiaCorrectedScales(mass: real, radius: real, k: real, inchToMeter: real -> real)
    requires forall x :: inchToMeter(x) == k * x
    ensures WheelInertiaCorrected(mass, radius, inchToMeter) == 0.5 * (k * k) * mass * (radius * radius)
  {
    assert inchToMeter(radius) == k * radius;
  }

  class Wheel {
    var steerAngle: real
    var motorTorque: real
    var isPower: bool
    var brakeTorque: real
    var counterTorque: real
    var angularVelocity: real
    var prevAngularVelocity: real
    var rollingResistanceTorque: real
    var load: real
    var loadContribution: real
    var loadRating: real
    var activePresetEnum: PresetsEnum
    /** The preset object the wheel reads its friction from (shared, not copied). */
    var frictionPreset: FrictionPreset
    /** Radius and width in inches, mass in kg. */
    var radius: real
    var mass: real
    var width: real
    var inertia: real
    var suspensionExtensionSpeedCoeff: real
    var antiSquat: real
    var axleAngle: real
    /** `_motorTorque`, which `ApplyMotorTorque` writes. */
    var appliedMotorTorque: real

    /** `Inertia` is the one `CalcInertia` gives for the current mass and radius. */
    predicate InertiaCurrent(inchToMeter: real -> real)
      reads this
    {
      inertia == WheelInertia(mass, radius, inchToMeter)
    }

    /**
     * A new wheel: Asphalt is the active name and the shared Asphalt object
     * is the preset; radius, mass and inertia start at 0 (no setter has run).
     */
    constructor(asphalt: FrictionPreset)
      ensures frictionPreset == asphalt && activePresetEnum == Asphalt
      ensures loadContribution == DefaultLoadContribution && loadRating == DefaultLoadRating
      ensures suspensionExtensionSpeedCoeff == DefaultSuspensionExtensionSpeedCoeff
      ensures radius == 0.0 && mass == 0.0 && width == 0.0 && inertia == 0.0
      ensures steerAngle == 0.0 && motorTorque == 0.0 && !isPower && brakeTorque == 0.0
      ensures counterTorque == 0.0 && angularVelocity == 0.0 && prevAngularVelocity == 0.0
      ensures rollingResistanceTorque == 0.0 && load == 0.0 && antiSquat == 0.0 && axleAngle == 0.0
      ensures appliedMotorTorque == 0.0
    {
      frictionPreset := asphalt;
      activePresetEnum := Asphalt;
      loadContribution := DefaultLoadContribution;
      loadRating := DefaultLoadRating;
      suspensionExtensionSpeedCoeff := DefaultSuspensionExtensionSpeedCoeff;
      radius := 0.0;
      mass := 0.0;
      width := 0.0;
      inertia := 0.0;
      steerAngle := 0.0;
      motorTorque := 0.0;
      isPower := false;
      brakeTorque := 0.0;
      counterTorque := 0.0;
      angularVelocity := 0.0;
      prevAngularVelocity := 0.0;
      rollingResistanceTorque := 0.0;
      load := 0.0;
      antiSquat := 0.0;
      axleAngle := 0.0;
      appliedMotorTorque := 0.0;
    }

    /** `RPM`: has the sign of the angular velocity and converts back to it. */
    function Rpm(): (r: real)
      reads this
      ensures Sign(r) == Sign(angularVelocity)
      ensures r / RpmPerRadPerSecond == angularVelocity
    {
      angularVelocity * RpmPerRadPerSecond
    }

    /** The `Radius` setter: stores the radius and recomputes the inertia. */
    method SetRadius(value: real, inchToMeter: real -> real)
      modifies this`radius, this`inertia
      ensures radius == value && mass == old(mass)
      ensures InertiaCurrent(inchToMeter)
    {
      radius := value;
      inertia := WheelInertia(mass, radius, inchToMeter);
    }

    /** The `Mass` setter: stores the mass and recomputes the inertia. */
    method SetMass(value: real, inchToMeter: real -> real)
      modifies this`mass, this`inertia
      ensures mass == value && radius == old(radius)
      ensures InertiaCurrent(inchToMeter)
    {
      mass := value;
      inertia := WheelInertia(mass, radius, inchToMeter);
    }

    /** The `Width` setter: a plain field; the inertia is left alone. */
    method SetWidth(value: real)
      modifies this`width
      ensures width == value && inertia == old(inertia)
    {
      width := value;
    }

    /** `ApplyMotorTorque`: the torque the force step will push with. */
    method ApplyMotorTorque(value: real)
      modifies this`appliedMotorTorque
      ensures appliedMotorTorque == value
    {
      appliedMotorTorque := value;
    }

    /**
     * The `ActivePresetEnum` setter: records the name and copies the named
     * preset's four parameters into the preset object this wheel holds, in
     * place. Every other holder of that object sees the change.
     */
    method SetActivePresetEnum(value: PresetsEnum, presets: map<PresetsEnum, FrictionPreset>)
      requires value in presets
      modifies this`activePresetEnum, frictionPreset
      ensures activePresetEnum == value && frictionPreset == old(frictionPreset)
      ensures frictionPreset.Shape() == old(presets[value].Shape()) && frictionPreset.Valid()
      ensures forall p :: p in presets && presets[p] == frictionPreset ==>
                presets[p].Shape() == old(presets[value].Shape())
    {
      activePresetEnum := value;
      frictionPreset.To(presets[value]);
    }
  }

  /**
   * A new wheel holds the shared Asphalt object, so choosing Ice on it
   * rewrites the Asphalt entry of the table to the Ice parameters, while the
   * Ice entry keeps them.
   */
  method ChoosingIceRewritesSharedAsphalt(presets: map<PresetsEnum, FrictionPreset>) returns (wheel: Wheel)
    requires Asphalt in presets && Ice in presets && presets[Asphalt] != presets[Ice]
    requires presets[Ice].Shape() == PresetShape(Ice)
    modifies presets[Asphalt]
    ensures wheel.frictionPreset == presets[Asphalt]
    ensures presets[Asphalt].Shape() == PresetShape(Ice) && presets[Ice].Shape() == PresetShape(Ice)
    ensures presets[Asphalt].Shape() != PresetShape(Asphalt)
  {
    wheel := new Wheel(presets[Asphalt]);
    wheel.SetActivePresetEnum(Ice, presets);
    PresetShapesDistinct();
  }
}
