/**
 * `WheelFrictionInfo`: a piecewise-linear friction curve. Up to the extremum
 * slip the value rises on the line from (0, 0) to the extremum; beyond it the
 * value follows the line through the extremum and the asymptote, without
 * levelling off at the asymptote. The result, scaled by the stiffness, is
 * clamped to [0, float.MaxValue]. The struct's `value` field is scratch
 * space and is not modelled.
 */
module FrictionInfos {
  import opened Common

  /** `float.MaxValue`. */
  const FloatMax: real := 340282346638528859811704183484516925440.0

  datatype FrictionInfo = FrictionInfo(
    extremumSlip: real, extremumValue: real, asymptoteSlip: real, asymptoteValue: real, stiffness: real)

  const DefaultFrictionInfo: FrictionInfo := FrictionInfo(1.0, 20000.0, 2.0, 10000.0, 1.0)

  /** The value before stiffness and clamping, at a non-negative slip. */
  function RawValue(info: FrictionInfo, slip: real): real
  {
    if slip <= info.extremumSlip then Div(slip, info.extremumSlip) * info.extremumValue
    else info.extremumValue - Div(slip - info.extremumSlip, info.asymptoteSlip - info.extremumSlip)
                              * (info.extremumValue - info.asymptoteValue)
  }

  /** `Evaluate`: the raw value at |slip|, times the stiffness, clamped to [0, float.MaxValue]. */
  function Evaluate(info: FrictionInfo, slip: real): (r: real)
    ensures 0.0 <= r <= FloatMax
  {
    Scaled(info, Abs(slip))
  }

  /** The raw value at a non-negative slip, times the stiffness, clamped. */
  function Scaled(info: FrictionInfo, slip: real): (r: real)
    ensures 0.0 <= r <= FloatMax
  {
    Clamp(RawValue(info, slip) * info.stiffness, 0.0, FloatMax)
  }

  /** The sign of the slip does not matter. */
  lemma EvaluateIsEven(info: FrictionInfo, slip: real)
    ensures Evaluate(info, -slip) == Evaluate(info, slip)
  {
    assert Abs(-slip) == Abs(slip);
  }

  /**
   * Up to the extremum slip the raw value is on the line from (0, 0) to
   * (ExtremumSlip, ExtremumValue): 0 at rest and ExtremumValue at the extremum.
   */
  lemma RisesLinearlyToExtremum(info: FrictionInfo, slip: real)
    requires 0.0 <= slip <= info.extremumSlip
    ensures info.extremumSlip != 0.0 ==> RawValue(info, slip) == slip / info.extremumSlip * info.extremumValue
    ensures RawValue(info, 0.0) == 0.0
    ensures info.extremumSlip > 0.0 ==> RawValue(info, info.extremumSlip) == info.extremumValue
  {
  }

  /**
   * Beyond the extremum the raw value is on the line through the extremum and
   * the asymptote, reaching AsymptoteValue at AsymptoteSlip and carrying on
   * past it: it does not stay at AsymptoteValue.
   */
  lemma FollowsLineBeyondExtremum(info: FrictionInfo, slip: real)
    requires info.extremumSlip < slip && info.extremumSlip < info.asymptoteSlip
    ensures RawValue(info, slip)
            == info.extremumValue + (slip - info.extremumSlip) / (info.asymptoteSlip - info.extremumSlip)
                                    * (info.asymptoteValue - info.extremumValue)
    ensures RawValue(info, info.asymptoteSlip) == info.asymptoteValue
    ensures info.asymptoteSlip < slip && info.extremumValue != info.asymptoteValue ==>
              RawValue(info, slip) != info.asymptoteValue
  {
    var d := info.asymptoteSlip - info.extremumSlip;
    var f := (slip - info.extremumSlip) / d;
    assert f * d == slip - info.extremumSlip;
    if info.asymptoteSlip < slip && info.extremumValue != info.asymptoteValue {
      assert f != 1.0;
      var ev := info.extremumValue;
      var av := info.asymptoteValue;
      assert RawValue(info, slip) == ev - f * (ev - av);
      var a := 1.0 - f;
      var b := ev - av;
      assert RawValue(info, slip) - av == a * b;
      MulNonZero(a, b);
    }
  }

  /**
   * With the default settings: 0 at rest, 20000 at slip 1, 10000 at slip 2,
   * and 0 from slip 3 on, where the line would go negative.
   */
  lemma DefaultCurve()
    ensures Evaluate(DefaultFrictionInfo, 0.0) == 0.0
    ensures Evaluate(DefaultFrictionInfo, 1.0) == 20000.0
    ensures Evaluate(DefaultFrictionInfo, -2.0) == 10000.0
    ensures Evaluate(DefaultFrictionInfo, 3.5) == 0.0
  {
  }
}
