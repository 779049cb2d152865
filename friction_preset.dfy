/**
 * `Ground.FrictionPreset`: a Magic Formula parameter set that keeps its
 * sampled curve and peak slip up to date. Every parameter setter, both
 * constructors and `To` regenerate them; `Valid` says they are current.
 *
 * `Presets` is a mutable static dictionary from the preset names to shared
 * preset objects; it is passed to the operations that read it.
 */
module FrictionPresets {
  import opened Common
  import opened MagicFormula

  datatype PresetsEnum = Asphalt | AsphaltWet | Generic | Grass | Gravel | Ice | Rock | Sand | Snow | Tracks | Arcade

  /** The parameters of the eleven shared presets, in declaration order. */
  function PresetShape(p: PresetsEnum): Shape
  {
    match p
    case Asphalt => Shape(9.0, 2.15, 0.933, 0.871)
    case AsphaltWet => Shape(9.0, 2.35, 0.82, 0.907)
    case Generic => Shape(8.0, 1.9, 0.8, 0.99)
    case Grass => Shape(7.38, 1.1, 0.538, 1.0)
    case Gravel => Shape(5.39, 1.03, 0.634, 1.0)
    case Ice => Shape(1.2, 2.0, 0.16, 1.0)
    case Rock => Shape(7.24, 2.11, 0.59, 1.0)
    case Sand => Shape(5.13, 1.2, 0.443, 0.5)
    case Snow => Shape(8.5, 1.1, 0.4, 0.9)
    case Tracks => Shape(0.1, 2.0, 2.0, 1.0)
    case Arcade => Shape(7.09, 0.87, 2.0, 0.5)
  }

  /** The eleven names, each with its own parameters. */
  lemma PresetShapesDistinct()
    ensures forall p: PresetsEnum, q: PresetsEnum :: p != q ==> PresetShape(p) != PresetShape(q)
  {
  }

  class FrictionPreset {
    var stiffness: real
    var shapeFactor: real
    var peakValue: real
    var curvatureFactor: real
    var peakSlip: real
    var curve: seq<Key>
    const host: Host

    function Shape(): Shape
      reads this
    {
      MagicFormula.Shape(stiffness, shapeFactor, peakValue, curvatureFactor)
    }

    /** The curve and the peak slip are the ones the current parameters generate. */
    predicate Valid()
      reads this
    {
      curve == Keys(Shape(), host) && peakSlip == PeakSlipOf(curve, host)
    }

    /** The parameterless constructor: default parameters, curve generated. */
    constructor Default(host: Host)
      ensures this.host == host && Shape() == DefaultShape && Valid()
    {
      this.host := host;
      stiffness := DefaultShape.stiffness;
      shapeFactor := DefaultShape.shapeFactor;
      peakValue := DefaultShape.peakValue;
      curvatureFactor := DefaultShape.curvatureFactor;
      new;
      UpdateFrictionCurve();
    }

    /** The four-parameter constructor: each setter runs in turn, then one more regeneration. */
    constructor (host: Host, stiffness: real, shapeFactor: real, peakValue: real, curvatureFactor: real)
      ensures this.host == host && Valid()
      ensures Shape() == MagicFormula.Shape(stiffness, shapeFactor, peakValue, curvatureFactor)
    {
      this.host := host;
      this.stiffness := DefaultShape.stiffness;
      this.shapeFactor := DefaultShape.shapeFactor;
      this.peakValue := DefaultShape.peakValue;
      this.curvatureFactor := DefaultShape.curvatureFactor;
      new;
      SetStiffness(stiffness);
      SetShapeFactor(shapeFactor);
      SetPeakValue(peakValue);
      SetCurvatureFactor(curvatureFactor);
      UpdateFrictionCurve();
    }

    /** `UpdateFrictionCurve`: regenerate the 20 keys, then the peak slip. */
    method UpdateFrictionCurve()
      modifies this`curve, this`peakSlip
      ensures Valid()
    {
      curve := BuildCurve(Shape(), host);
      peakSlip := ScanPeakSlip(curve, host);
    }

    /** The `Stiffnes` (B) setter. */
    method SetStiffness(value: real)
      modifies this
      ensures Shape() == old(Shape()).(stiffness := value) && Valid()
    {
      stiffness := value;
      UpdateFrictionCurve();
    }

    /** The `ShapeFactor` (C) setter. */
    method SetShapeFactor(value: real)
      modifies this
      ensures Shape() == old(Shape()).(shapeFactor := value) && Valid()
    {
      shapeFactor := value;
      UpdateFrictionCurve();
    }

    /** The `PeakValue` (D) setter. */
    method SetPeakValue(value: real)
      modifies this
      ensures Shape() == old(Shape()).(peakValue := value) && Valid()
    {
      peakValue := value;
      UpdateFrictionCurve();
    }

    /** The `CurvatureFactor` (E) setter. */
    method SetCurvatureFactor(value: real)
      modifies this
      ensures Shape() == old(Shape()).(curvatureFactor := value) && Valid()
    {
      curvatureFactor := value;
      UpdateFrictionCurve();
    }

    /**
     * `To(preset)`: take over the four parameters of `preset` (possibly this
     * very object) and regenerate.
     */
    method To(preset: FrictionPreset)
      modifies this
      ensures Shape() == old(preset.Shape()) && Valid()
    {
      stiffness := preset.stiffness;
      shapeFactor := preset.shapeFactor;
      peakValue := preset.peakValue;
      curvatureFactor := preset.curvatureFactor;
      UpdateFrictionCurve();
    }
  }
}
