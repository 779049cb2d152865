/**
 * `PacejkaCurve`: the same Magic Formula parameter set as
 * `Ground.FrictionPreset`, over the host's `AltCurve`, with an even
 * `Evaluate` and `Apply` in place of `To`. Its preset table has twelve
 * names; the `Street` preset exists as an object but is not in the table.
 */
module PacejkaCurves {
  import opened Common
  import opened MagicFormula

  datatype PresetsEnum =
    Asphalt | AsphaltWet | Generic | Grass | Dirt | Gravel | Ice | Rock | Sand | Snow | Tracks | Arcade

  /** The parameters the `Presets` table maps each name to. */
  function PresetShape(p: PresetsEnum): Shape
  {
    match p
    case Asphalt => Shape(9.0, 2.15, 0.933, 0.871)
    case AsphaltWet => Shape(9.0, 2.35, 0.82, 0.907)
    case Generic => Shape(8.0, 1.9, 0.8, 0.99)
    case Grass => Shape(7.38, 1.1, 0.538, 1.0)
    case Dirt => Shape(7.38, 1.1, 0.538, 1.0)
    case Gravel => Shape(5.39, 1.03, 0.634, 1.0)
    case Ice => Shape(1.2, 2.0, 0.16, 1.0)
    case Rock => Shape(7.24, 2.11, 0.59, 1.0)
    case Sand => Shape(5.13, 1.2, 0.443, 0.5)
    case Snow => Shape(8.5, 1.1, 0.4, 0.9)
    case Tracks => Shape(0.1, 2.0, 2.0, 1.0)
    case Arcade => Shape(7.09, 0.87, 2.0, 0.5)
  }

  /** The `Street` preset object, which no table name reaches. */
  const StreetShape: Shape := Shape(9.0, 1.87, 1.0, 0.6)

  /**
   * Grass and Dirt are the only two names that share parameters, and no
   * name maps to the Street parameters.
   */
  lemma PresetTable()
    ensures PresetShape(Grass) == PresetShape(Dirt)
    ensures forall p: PresetsEnum, q: PresetsEnum :: p != q && PresetShape(p) == PresetShape(q) ==> {p, q} == {Grass, Dirt}
    ensures forall p: PresetsEnum :: PresetShape(p) != StreetShape
  {
  }

  class PacejkaCurve {
    var stiffness: real
    var shapeFactor: real
    var peakValue: real
    var curvatureFactor: real
    var peakSlip: real
    var curve: seq<Key>
    const host: Host

    function Shape(): Shape
      reads this
    {
      MagicFormula.Shape(stiffness, shapeFactor, peakValue, curvatureFactor)
    }

    /** The curve and the peak slip are the ones the current parameters generate. */
    predicate Valid()
      reads this
    {
      curve == Keys(Shape(), host) && peakSlip == PeakSlipOf(curve, host)
    }

    /** The parameterless constructor: default parameters, curve generated. */
    constructor Default(host: Host)
      ensures this.host == host && Shape() == DefaultShape && Valid()
    {
      this.host := host;
      stiffness := DefaultShape.stiffness;
      shapeFactor := DefaultShape.shapeFactor;
      peakValue := DefaultShape.peakValue;
      curvatureFactor := DefaultShape.curvatureFactor;
      new;
      UpdateFrictionCurve();
    }

    /** The four-parameter constructor: each setter runs in turn, then one more regeneration. */
    constructor (host: Host, stiffness: real, shapeFactor: real, peakValue: real, curvatureFactor: real)
      ensures this.host == host && Valid()
      ensures Shape() == MagicFormula.Shape(stiffness, shapeFactor, peakValue, curvatureFactor)
    {
      this.host := host;
      this.stiffness := DefaultShape.stiffness;
      this.shapeFactor := DefaultShape.shapeFactor;
      this.peakValue := DefaultShape.peakValue;
      this.curvatureFactor := DefaultShape.curvatureFactor;
      new;
      SetStiffness(stiffness);
      SetShapeFactor(shapeFactor);
      SetPeakValue(peakValue);
      SetCurvatureFactor(curvatureFactor);
      UpdateFrictionCurve();
    }

    /** `UpdateFrictionCurve`: regenerate the 20 keys, then the peak slip. */
    method UpdateFrictionCurve()
      modifies this`curve, this`peakSlip
      ensures Valid()
    {
      curve := BuildCurve(Shape(), host);
      peakSlip := ScanPeakSlip(curve, host);
    }

    /** `Evaluate(time)`: the curve at |time|. */
    function Evaluate(time: real): real
      reads this
    {
      host.evaluate(curve, Abs(time))
    }

    /** `Evaluate` is even in its argument. */
    lemma EvaluateIsEven(time: real)
      ensures Evaluate(-time) == Evaluate(time)
    {
      assert Abs(-time) == Abs(time);
    }

    /** The `Stiffnes` (B) setter. */
    method SetStiffness(value: real)
      modifies this
      ensures Shape() == old(Shape()).(stiffness := value) && Valid()
    {
      stiffness := value;
      UpdateFrictionCurve();
    }

    /** The `ShapeFactor` (C) setter. */
    method SetShapeFactor(value: real)
      modifies this
      ensures Shape() == old(Shape()).(shapeFactor := value) && Valid()
    {
      shapeFactor := value;
      UpdateFrictionCurve();
    }

    /** The `PeakValue` (D) setter. */
    method SetPeakValue(value: real)
      modifies this
      ensures Shape() == old(Shape()).(peakValue := value) && Valid()
    {
      peakValue := value;
      UpdateFrictionCurve();
    }

    /** The `CurvatureFactor` (E) setter. */
    method SetCurvatureFactor(value: real)
      modifies this
      ensures Shape() == old(Shape()).(curvatureFactor := value) && Valid()
    {
      curvatureFactor := value;
      UpdateFrictionCurve();
    }

    /** `Apply(preset)`: take over exactly the four parameters of `preset` and regenerate. */
    method Apply(preset: PacejkaCurve)
      modifies this
      ensures Shape() == old(preset.Shape()) && Valid()
    {
      stiffness := preset.stiffness;
      shapeFactor := preset.shapeFactor;
      peakValue := preset.peakValue;
      curvatureFactor := preset.curvatureFactor;
      UpdateFrictionCurve();
    }
  }
}
