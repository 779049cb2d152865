/**
 * What `PacejkaCurve` and `Ground.FrictionPreset` share: Pacejka's simplified
 * Magic Formula `D * sin(C * atan(B*t - E*(B*t - atan(B*t))))` with t = |slip|,
 * sampled on a fixed 20-key grid, and the scan for the slip of greatest
 * friction over the samples 0, 0.01, ... below 1.
 *
 * `MathF.Sin`, `MathF.Atan` and the curve's `Evaluate` belong to the host and
 * are carried in a `Host` value. The float counters of the two loops are
 * idealised: the grid and the scan positions are exact decimals.
 */
module MagicFormula {
  import opened Common

  /** The four parameters: B (stiffness), C (shape), D (peak) and E (curvature). */
  datatype Shape = Shape(stiffness: real, shapeFactor: real, peakValue: real, curvatureFactor: real)

  /** A curve key: slip and friction. */
  datatype Key = Key(time: real, value: real)

  /** The host's sine, arc tangent and curve sampling. */
  datatype Host = Host(sin: real -> real, atan: real -> real, evaluate: (seq<Key>, real) -> real)

  /** The parameters a curve object starts with before any preset is applied. */
  const DefaultShape: Shape := Shape(12.5, 2.05, 0.925, 0.97)

  const KeyCount: nat := 20
  const PeakScanCount: nat := 100

  /** The Magic Formula at a non-negative slip `t`. */
  function Formula(shape: Shape, t: real, host: Host): real
  {
    var bt := shape.stiffness * t;
    shape.peakValue * host.sin(shape.shapeFactor * host.atan(bt - shape.curvatureFactor * (bt - host.atan(bt))))
  }

  /** `GetFrictionValue`: the Magic Formula at |slip|. */
  function FrictionValue(shape: Shape, slip: real, host: Host): real
  {
    Formula(shape, Abs(slip), host)
  }

  /** The formula ignores the sign of the slip. */
  lemma FrictionValueIsEven(shape: Shape, slip: real, host: Host)
    ensures FrictionValue(shape, -slip, host) == FrictionValue(shape, slip, host)
  {
    assert Abs(-slip) == Abs(slip);
  }

  /** At slip 0 the formula gives 0 whenever the host's sine and arc tangent vanish at 0. */
  lemma FrictionValueZeroAtRest(shape: Shape, host: Host)
    requires host.sin(0.0) == 0.0 && host.atan(0.0) == 0.0
    ensures FrictionValue(shape, 0.0, host) == 0.0
  {
    var bt := shape.stiffness * Abs(0.0);
    assert bt == 0.0;
    var inner := bt - shape.curvatureFactor * (bt - host.atan(bt));
    assert inner == 0.0;
    var arg := shape.shapeFactor * host.atan(inner);
    assert arg == 0.0;
    assert FrictionValue(shape, 0.0, host) == shape.peakValue * host.sin(arg);
  }

  /**
   * Slip of key `i`: 0.02 apart for the first twelve keys, then 0.1 apart.
   * The generating loop adds 0.02 after keys 0..10 and 0.1 after the rest.
   */
  function GridTime(i: nat): real
  {
    if i <= 11 then 0.02 * i as real else 0.22 + 0.1 * (i - 11) as real
  }

  /**
   * The grid starts at 0, has its twelfth key at 0.22 and its last at 1.02,
   * and rises strictly, with the step the generating loop adds after key `i`.
   */
  lemma GridShape()
    ensures GridTime(0) == 0.0 && GridTime(11) == 0.22 && GridTime(KeyCount - 1) == 1.02
    ensures forall i: nat :: GridTime(i + 1) == GridTime(i) + (if i <= 10 then 0.02 else 0.1)
    ensures forall i: nat, j: nat :: i < j ==> GridTime(i) < GridTime(j)
  {
  }

  /** The 20 keys of a generated curve. */
  function Keys(shape: Shape, host: Host): seq<Key>
  {
    seq(KeyCount, i requires 0 <= i < KeyCount => Key(GridTime(i), FrictionValue(shape, GridTime(i), host)))
  }

  /**
   * `UpdateFrictionCurve`'s loop: 20 keys, key `i` at `GridTime(i)` holding
   * the Magic Formula there.
   */
  method BuildCurve(shape: Shape, host: Host) returns (curve: seq<Key>)
    ensures |curve| == KeyCount
    ensures forall i :: 0 <= i < |curve| ==>
              curve[i].time == GridTime(i) && curve[i].value == FrictionValue(shape, GridTime(i), host)
    ensures curve == Keys(shape, host)
  {
    var frames := new Key[KeyCount];
    var t := 0.0;
    for i := 0 to frames.Length
      invariant t == GridTime(i)
      invariant forall k :: 0 <= k < i ==> frames[k] == Key(GridTime(k), FrictionValue(shape, GridTime(k), host))
    {
      var v := FrictionValue(shape, t, host);
      frames[i] := Key(t, v);
      if i <= 10 {
        t := t + 0.02;
      } else {
        t := t + 0.1;
      }
    }
    curve := frames[..];
  }

  /** The samples `GetPeakSlip` reads: the curve at 0, 0.01, ..., 0.99. */
  function PeakSamples(curve: seq<Key>, host: Host): seq<real>
  {
    seq(PeakScanCount, k requires 0 <= k < PeakScanCount => host.evaluate(curve, 0.01 * k as real))
  }

  /** Slip of a scan position, -1 for none. */
  function SlipOf(peak: Option<nat>): real
  {
    if peak.None? then -1.0 else 0.01 * peak.value as real
  }

  /** `GetPeakSlip`'s result. */
  function PeakSlipOf(curve: seq<Key>, host: Host): real
  {
    SlipOf(FirstPeak(PeakSamples(curve, host)))
  }

  /**
   * The peak slip is -1 exactly when no sample is positive; otherwise it is
   * the slip of a positive sample that no sample exceeds and that every
   * earlier sample stays strictly below.
   */
  lemma PeakSlipIsFirstMaximum(curve: seq<Key>, host: Host)
    ensures var ys := PeakSamples(curve, host);
            PeakSlipOf(curve, host) == -1.0 <==> forall k :: 0 <= k < |ys| ==> ys[k] <= 0.0
    ensures var ys := PeakSamples(curve, host);
            PeakSlipOf(curve, host) != -1.0 ==>
              exists j :: 0 <= j < |ys| && PeakSlipOf(curve, host) == 0.01 * j as real
                && ys[j] > 0.0
                && (forall k :: 0 <= k < |ys| ==> ys[k] <= ys[j])
                && (forall k :: 0 <= k < j ==> ys[k] < ys[j])
  {
    var ys := PeakSamples(curve, host);
    FirstPeakIsFirstMaximum(ys);
  }

  /**
   * `GetPeakSlip`'s loop: a running maximum from 0 that moves only on a
   * strictly larger sample, reporting -1 until it first moves.
   */
  method ScanPeakSlip(curve: seq<Key>, host: Host) returns (peakSlip: real)
    ensures peakSlip == PeakSlipOf(curve, host)
  {
    ghost var ys := PeakSamples(curve, host);
    peakSlip := -1.0;
    var yMax := 0.0;
    var i := 0.0;
    ghost var k: nat := 0;
    while i < 1.0
      invariant k <= PeakScanCount && i == 0.01 * k as real
      invariant yMax == PeakValue(ys[..k], FirstPeak(ys[..k]))
      invariant peakSlip == SlipOf(FirstPeak(ys[..k]))
      decreases PeakScanCount - k
    {
      var y := host.evaluate(curve, i);
      assert y == ys[k];
      FirstPeakStep(ys, k);
      if y > yMax {
        yMax := y;
        peakSlip := i;
      }
      i := i + 0.01;
      k := k + 1;
    }
    assert ys[..k] == ys;
  }
}
