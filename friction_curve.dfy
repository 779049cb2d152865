/**
 * `WheelFrictionCurve`: a friction curve kept as two 50-point tables, one
 * from the origin to the extremum and one from the extremum to the
 * asymptote, each sampled from a cubic Hermite segment. A slip is looked up
 * by a binary search for the bracketing samples and linear interpolation
 * between them; past the asymptote the curve is flat.
 */
module WheelFrictionCurves {
  import opened Common

  datatype Vec2 = Vec2(x: real, y: real)
  {
    function Add(o: Vec2): Vec2 { Vec2(x + o.x, y + o.y) }
    function Scale(k: real): Vec2 { Vec2(k * x, k * y) }
  }

  /** A table entry: the Hermite parameter and the (slip, force) point it gives. */
  datatype CurvePoint = CurvePoint(tValue: real, slipForcePoint: Vec2)

  const ArraySize: nat := 50

  /** The settings a new curve starts with. */
  const DefaultExtremumSlip: real := 0.4
  const DefaultExtremumValue: real := 1.0
  const DefaultAsymptoteSlip: real := 0.8
  const DefaultAsymptoteValue: real := 0.5
  const DefaultStiffness: real := 1.0

  /** The four Hermite basis weights at `t`, for p0, m0, p1 and m1. */
  datatype Weights = Weights(h00: real, h10: real, h01: real, h11: real)

  function HermiteWeights(t: real): Weights
  {
    var t2 := t * t;
    var t3 := t2 * t;
    Weights(2.0 * t3 - 3.0 * t2 + 1.0, t3 - 2.0 * t2 + t, -2.0 * t3 + 3.0 * t2, t3 - t2)
  }

  /** The cubic Hermite segment from `p0` (tangent `m0`) to `p1` (tangent `m1`) at `t`. */
  function Hermite(t: real, p0: Vec2, p1: Vec2, m0: Vec2, m1: Vec2): Vec2
  {
    var w := HermiteWeights(t);
    p0.Scale(w.h00).Add(m0.Scale(w.h10)).Add(p1.Scale(w.h01)).Add(m1.Scale(w.h11))
  }

  /** The segment starts at `p0` and ends at `p1`. */
  lemma HermiteEnds(p0: Vec2, p1: Vec2, m0: Vec2, m1: Vec2)
    ensures Hermite(0.0, p0, p1, m0, m1) == p0
    ensures Hermite(1.0, p0, p1, m0, m1) == p1
  {
    assert HermiteWeights(0.0) == Weights(1.0, 0.0, 0.0, 0.0);
    assert HermiteWeights(1.0) == Weights(0.0, 0.0, 1.0, 0.0);
    var z := Vec2(0.0, 0.0);
    assert p0.Scale(1.0) == p0 && p1.Scale(1.0) == p1;
    assert p0.Scale(0.0) == m0.Scale(0.0) == p1.Scale(0.0) == m1.Scale(0.0) == z;
    assert Hermite(1.0, p0, p1, m0, m1) == z.Add(z).Add(p1).Add(z);
    assert z.Add(z) == z;
    assert z.Add(p1) == p1;
    assert p1.Add(z) == p1;
  }

  /** Entry `i` of the extremum table: origin to extremum, flat tangent at the origin. */
  function ExtremePoint(i: nat, extremumSlip: real, extremumValue: real): CurvePoint
  {
    var t := i as real / ArraySize as real;
    CurvePoint(t, Hermite(t, Vec2(0.0, 0.0), Vec2(extremumSlip, extremumValue),
                          Vec2(0.0, 0.0), Vec2(extremumSlip * 0.5 + 1.0, 0.0)))
  }

  /** Entry `i` of the asymptote table: extremum to asymptote. */
  function AsymptotePoint(i: nat, extremumSlip: real, extremumValue: real,
                          asymptoteSlip: real, asymptoteValue: real): CurvePoint
  {
    var t := i as real / ArraySize as real;
    var tangent := Vec2((asymptoteSlip - extremumSlip) * 0.5 + 1.0, 0.0);
    CurvePoint(t, Hermite(t, Vec2(extremumSlip, extremumValue), Vec2(asymptoteSlip, asymptoteValue),
                          tangent, tangent))
  }

  /** The extremum table starts at the origin; every table's parameters are i/50. */
  lemma TableEnds(extremumSlip: real, extremumValue: real, asymptoteSlip: real, asymptoteValue: real)
    ensures ExtremePoint(0, extremumSlip, extremumValue).slipForcePoint == Vec2(0.0, 0.0)
    ensures AsymptotePoint(0, extremumSlip, extremumValue, asymptoteSlip, asymptoteValue).slipForcePoint
            == Vec2(extremumSlip, extremumValue)
    ensures forall i: nat :: ExtremePoint(i, extremumSlip, extremumValue).tValue == i as real / 50.0
  {
    HermiteEnds(Vec2(0.0, 0.0), Vec2(extremumSlip, extremumValue), Vec2(0.0, 0.0), Vec2(extremumSlip * 0.5 + 1.0, 0.0));
    var tangent := Vec2((asymptoteSlip - extremumSlip) * 0.5 + 1.0, 0.0);
    HermiteEnds(Vec2(extremumSlip, extremumValue), Vec2(asymptoteSlip, asymptoteValue), tangent, tangent);
  }

  /**
   * The binary search of the private `Evaluate`, from the bracket
   * (bottom, top): it halves the bracket, moving `bottom` up to a sample at
   * or below the slip and `top` down to one above it, until the two are
   * neighbours, and yields the final `bottom`.
   */
  function Search(points: seq<CurvePoint>, slip: real, bottom: nat, top: nat): (b: nat)
    requires bottom < top < |points|
    ensures bottom <= b && b + 1 <= top
    ensures b == bottom || points[b].slipForcePoint.x <= slip
    ensures b + 1 == top || points[b + 1].slipForcePoint.x > slip
    decreases top - bottom
  {
    if top - bottom > 1 then
      var index := (top + bottom) / 2;
      if points[index].slipForcePoint.x <= slip then Search(points, slip, index, top)
      else Search(points, slip, bottom, index)
    else bottom
  }

  /**
   * Whatever the table holds, a slip between the first and the last sample
   * ends up between two neighbouring samples.
   */
  lemma SearchBrackets(points: seq<CurvePoint>, slip: real)
    requires |points| >= 2
    requires points[0].slipForcePoint.x <= slip < points[|points| - 1].slipForcePoint.x
    ensures var b := Search(points, slip, 0, |points| - 1);
            points[b].slipForcePoint.x <= slip < points[b + 1].slipForcePoint.x
  {
  }

  /** Linear interpolation between two samples, by the slip's fraction of the way. */
  function Interpolate(slip: real, lo: Vec2, hi: Vec2): (r: real)
    ensures slip == lo.x ==> r == lo.y
    ensures slip == hi.x && hi.x != lo.x ==> r == hi.y
  {
    var slipFraction := Div(slip - lo.x, hi.x - lo.x);
    lo.y * (1.0 - slipFraction) + hi.y * slipFraction
  }

  /** The private `Evaluate`: interpolate between the two samples the search settles on. */
  function CurveAt(points: seq<CurvePoint>, slip: real): real
    requires |points| >= 2
  {
    var b := Search(points, slip, 0, |points| - 1);
    Interpolate(slip, points[b].slipForcePoint, points[b + 1].slipForcePoint)
  }

  /** The public `Evaluate`, over the two tables and the settings. */
  function EvaluateCurve(extreme: seq<CurvePoint>, asymptote: seq<CurvePoint>, extremumSlip: real,
                         asymptoteSlip: real, asymptoteValue: real, stiffness: real, slip: real): real
    requires |extreme| >= 2 && |asymptote| >= 2
  {
    ScaledAt(extreme, asymptote, extremumSlip, asymptoteSlip, asymptoteValue, stiffness, Abs(slip))
  }

  /** The public `Evaluate` at a non-negative slip. */
  function ScaledAt(extreme: seq<CurvePoint>, asymptote: seq<CurvePoint>, extremumSlip: real,
                    asymptoteSlip: real, asymptoteValue: real, stiffness: real, slip: real): real
    requires |extreme| >= 2 && |asymptote| >= 2
  {
    if slip < extremumSlip then CurveAt(extreme, slip) * stiffness
    else if slip < asymptoteSlip then CurveAt(asymptote, slip) * stiffness
    else asymptoteValue * stiffness
  }

  /**
   * The curve ignores the sign of the slip, is proportional to the
   * stiffness, and is AsymptoteValue * Stiffness from the asymptote on.
   */
  lemma EvaluateCurveProperties(extreme: seq<CurvePoint>, asymptote: seq<CurvePoint>, extremumSlip: real,
                                asymptoteSlip: real, asymptoteValue: real, stiffness: real, slip: real)
    requires |extreme| >= 2 && |asymptote| >= 2
    ensures EvaluateCurve(extreme, asymptote, extremumSlip, asymptoteSlip, asymptoteValue, stiffness, -slip)
            == EvaluateCurve(extreme, asymptote, extremumSlip, asymptoteSlip, asymptoteValue, stiffness, slip)
    ensures EvaluateCurve(extreme, asymptote, extremumSlip, asymptoteSlip, asymptoteValue, stiffness, slip)
            == stiffness * EvaluateCurve(extreme, asymptote, extremumSlip, asymptoteSlip, asymptoteValue, 1.0, slip)
    ensures Abs(slip) >= asymptoteSlip && Abs(slip) >= extremumSlip ==>
              EvaluateCurve(extreme, asymptote, extremumSlip, asymptoteSlip, asymptoteValue, stiffness, slip)
              == asymptoteValue * stiffness
  {
    assert Abs(-slip) == Abs(slip);
  }

  /** The 50-entry tables `UpdateArrays` generates. */
  function ExtremeTable(extremumSlip: real, extremumValue: real): seq<CurvePoint>
  {
    seq(ArraySize, i requires 0 <= i < ArraySize => ExtremePoint(i, extremumSlip, extremumValue))
  }

  function AsymptoteTable(extremumSlip: real, extremumValue: real, asymptoteSlip: real, asymptoteValue: real)
    : seq<CurvePoint>
  {
    seq(ArraySize, i requires 0 <= i < ArraySize =>
          AsymptotePoint(i, extremumSlip, extremumValue, asymptoteSlip, asymptoteValue))
  }

  class WheelFrictionCurve {
    var extremumSlip: real
    var extremumValue: real
    var asymptoteSlip: real
    var asymptoteValue: real
    var stiffness: real
    const extremePoints: array<CurvePoint>
    const asymptotePoints: array<CurvePoint>

    /** Two separate 50-entry tables, generated from the current shape settings. */
    predicate Valid()
      reads this, extremePoints, asymptotePoints
    {
      && extremePoints != asymptotePoints
      && extremePoints.Length == ArraySize && asymptotePoints.Length == ArraySize
      && extremePoints[..] == ExtremeTable(extremumSlip, extremumValue)
      && asymptotePoints[..] == AsymptoteTable(extremumSlip, extremumValue, asymptoteSlip, asymptoteValue)
    }

    /** The parameterless constructor: default settings, tables generated. */
    constructor()
      ensures Valid() && fresh(extremePoints) && fresh(asymptotePoints)
      ensures extremumSlip == DefaultExtremumSlip && extremumValue == DefaultExtremumValue
      ensures asymptoteSlip == DefaultAsymptoteSlip && asymptoteValue == DefaultAsymptoteValue
      ensures stiffness == DefaultStiffness
    {
      extremumSlip := DefaultExtremumSlip;
      extremumValue := DefaultExtremumValue;
      asymptoteSlip := DefaultAsymptoteSlip;
      asymptoteValue := DefaultAsymptoteValue;
      stiffness := DefaultStiffness;
      extremePoints := new CurvePoint[ArraySize](i => CurvePoint(0.0, Vec2(0.0, 0.0)));
      asymptotePoints := new CurvePoint[ArraySize](i => CurvePoint(0.0, Vec2(0.0, 0.0)));
      new;
      UpdateArrays();
    }

    /** `UpdateArrays`: refill both tables from the current shape settings. */
    method UpdateArrays()
      requires extremePoints != asymptotePoints
      requires extremePoints.Length == ArraySize && asymptotePoints.Length == ArraySize
      modifies extremePoints, asymptotePoints
      ensures Valid()
    {
      for i := 0 to ArraySize
        invariant forall k :: 0 <= k < i ==> extremePoints[k] == ExtremePoint(k, extremumSlip, extremumValue)
        invariant forall k :: 0 <= k < i ==>
                    asymptotePoints[k] == AsymptotePoint(k, extremumSlip, extremumValue, asymptoteSlip, asymptoteValue)
      {
        var t := i as real / ArraySize as real;
        extremePoints[i] := CurvePoint(t, Hermite(t, Vec2(0.0, 0.0), Vec2(extremumSlip, extremumValue),
                                                  Vec2(0.0, 0.0), Vec2(extremumSlip * 0.5 + 1.0, 0.0)));
        var tangent := Vec2((asymptoteSlip - extremumSlip) * 0.5 + 1.0, 0.0);
        asymptotePoints[i] := CurvePoint(t, Hermite(t, Vec2(extremumSlip, extremumValue),
                                                    Vec2(asymptoteSlip, asymptoteValue), tangent, tangent));
      }
    }

    /** The `ExtremumSlip` setter: store and regenerate. */
    method SetExtremumSlip(value: real)
      requires Valid()
      modifies this`extremumSlip, extremePoints, asymptotePoints
      ensures extremumSlip == value && Valid()
    {
      extremumSlip := value;
      UpdateArrays();
    }

    /** The `ExtremumValue` setter: store and regenerate. */
    method SetExtremumValue(value: real)
      requires Valid()
      modifies this`extremumValue, extremePoints, asymptotePoints
      ensures extremumValue == value && Valid()
    {
      extremumValue := value;
      UpdateArrays();
    }

    /** The `AsymptoteSlip` setter: store and regenerate. */
    method SetAsymptoteSlip(value: real)
      requires Valid()
      modifies this`asymptoteSlip, extremePoints, asymptotePoints
      ensures asymptoteSlip == value && Valid()
    {
      asymptoteSlip := value;
      UpdateArrays();
    }

    /** The `AsymptoteValue` setter: store and regenerate. */
    method SetAsymptoteValue(value: real)
      requires Valid()
      modifies this`asymptoteValue, extremePoints, asymptotePoints
      ensures asymptoteValue == value && Valid()
    {
      asymptoteValue := value;
      UpdateArrays();
    }

    /** The `Stiffness` setter: a plain store; the tables do not depend on it and stay as they were. */
    method SetStiffness(value: real)
      requires Valid()
      modifies this`stiffness
      ensures stiffness == value && Valid()
    {
      stiffness := value;
    }

    /**
     * The private `Evaluate(slip, curvePoints)`: a binary search from the
     * whole table down to two neighbouring samples, then interpolation.
     * While the bracket is wider than one step, `index` lies strictly inside it.
     */
    method EvaluateIn(slip: real, curvePoints: array<CurvePoint>) returns (r: real)
      requires curvePoints.Length == ArraySize
      ensures r == CurveAt(curvePoints[..], slip)
    {
      ghost var points := curvePoints[..];
      var top := ArraySize - 1;
      var bottom := 0;
      var index := (top + bottom) / 2;
      var result := curvePoints[index];
      while top != bottom && top - bottom > 1
        invariant 0 <= bottom < top < ArraySize
        invariant index == (top + bottom) / 2 && result == points[index]
        invariant top - bottom > 1 ==> bottom < index < top
        invariant Search(points, slip, bottom, top) == Search(points, slip, 0, ArraySize - 1)
        decreases top - bottom
      {
        if result.slipForcePoint.x <= slip {
          bottom := index;
        } else if result.slipForcePoint.x >= slip {
          top := index;
        }
        index := (top + bottom) / 2;
        result := curvePoints[index];
      }
      assert top == bottom + 1;
      var slip1 := curvePoints[bottom].slipForcePoint.x;
      var slip2 := curvePoints[top].slipForcePoint.x;
      var force1 := curvePoints[bottom].slipForcePoint.y;
      var force2 := curvePoints[top].slipForcePoint.y;
      var slipFraction := Div(slip - slip1, slip2 - slip1);
      r := force1 * (1.0 - slipFraction) + force2 * slipFraction;
    }

    /**
     * The public `Evaluate`: the extremum table below the extremum slip, the
     * asymptote table below the asymptote slip, and the flat asymptote value
     * beyond, all scaled by the stiffness.
     */
    method Evaluate(slip: real) returns (r: real)
      requires extremePoints.Length == ArraySize && asymptotePoints.Length == ArraySize
      ensures r == EvaluateCurve(extremePoints[..], asymptotePoints[..], extremumSlip, asymptoteSlip,
                                 asymptoteValue, stiffness, slip)
    {
      var s := Abs(slip);
      if s < extremumSlip {
        r := EvaluateIn(s, extremePoints);
        r := r * stiffness;
      } else if s < asymptoteSlip {
        r := EvaluateIn(s, asymptotePoints);
        r := r * stiffness;
      } else {
        r := asymptoteValue * stiffness;
      }
    }
  }
}
