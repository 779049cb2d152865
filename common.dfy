/**
 * Shared vocabulary of the car model: optional values (C# null), three-component
 * vectors, and the float helpers the simulator uses (Math.Clamp, Math.Abs,
 * Math.Sign, Math.Max/Min, MathF.PI). Floats are modelled as `real`.
 */
module Common {

  /** A C# reference or nullable value that may be null. */
  datatype Option<T> = None | Some(value: T)

  /** A `Vector3` reduced to its three components. */
  datatype Vec3 = Vec3(x: real, y: real, z: real)
  {
    function Add(o: Vec3): Vec3 { Vec3(x + o.x, y + o.y, z + o.z) }
    function Sub(o: Vec3): Vec3 { Vec3(x - o.x, y - o.y, z - o.z) }
    function Scale(k: real): Vec3 { Vec3(k * x, k * y, k * z) }
    function Dot(o: Vec3): real { x * o.x + y * o.y + z * o.z }
    function Cross(o: Vec3): Vec3 { Vec3(y * o.z - z * o.y, z * o.x - x * o.z, x * o.y - y * o.x) }
    function LengthSquared(): real { Dot(this) }
  }

  /** `MathF.PI` as a single-precision float holds it. */
  const PI: real := 3.1415927410125732

  function Abs(x: real): real { if x < 0.0 then -x else x }

  function Max(a: real, b: real): real { if a >= b then a else b }

  function Min(a: real, b: real): real { if a <= b then a else b }

  /** `Math.Sign`/`MathF.Sign`: -1, 0 or 1. */
  function Sign(x: real): int { if x < 0.0 then -1 else if x > 0.0 then 1 else 0 }

  /** `Math.Sign` on an `int`. */
  function IntSign(x: int): int { if x < 0 then -1 else if x > 0 then 1 else 0 }

  /**
   * `Math.Clamp(v, lo, hi)` for `lo <= hi` (the .NET method throws otherwise;
   * callers that can pass `lo > hi` model that case themselves).
   */
  function Clamp(v: real, lo: real, hi: real): real
    requires lo <= hi
  {
    if v < lo then lo else if v > hi then hi else v
  }

  /**
   * Float division where the denominator may be 0. IEEE division by zero gives
   * an infinity or NaN; the model does not represent those and yields 0 instead.
   */
  function Div(a: real, b: real): real { if b == 0.0 then 0.0 else a / b }

  /** Scaling by a non-negative factor keeps every sample at or below the peak. */
  lemma ScaledBelowPeak(ys: seq<real>, k: nat, c: real)
    requires k < |ys| && c >= 0.0
    ensures ys[k] * c <= PeakValue(ys, FirstPeak(ys)) * c
  {
    FirstPeakIsFirstMaximum(ys);
    MulMonotone(ys[k], PeakValue(ys, FirstPeak(ys)), c);
  }

  /** A non-empty sequence is its front followed by its last element. */
  lemma FrontLast<T>(s: seq<T>)
    requires s != []
    ensures s[..|s| - 1] + [s[|s| - 1]] == s
  {
  }

  lemma MulNonNegative(a: real, b: real)
    requires a >= 0.0 && b >= 0.0
    ensures a * b >= 0.0
  {
  }

  lemma MulPositive(a: real, b: real)
    requires a > 0.0 && b > 0.0
    ensures a * b > 0.0
  {
  }

  lemma MulNonZero(a: real, b: real)
    requires a != 0.0 && b != 0.0
    ensures a * b != 0.0
  {
    assert (a * b) / b == a;
  }

  lemma MulMonotone(a: real, b: real, c: real)
    requires a <= b && c >= 0.0
    ensures a * c <= b * c
  {
    MulNonNegative(b - a, c);
  }

  lemma ClampBounds(v: real, lo: real, hi: real)
    requires lo <= hi
    ensures lo <= Clamp(v, lo, hi) <= hi
    ensures lo <= v <= hi ==> Clamp(v, lo, hi) == v
  {
  }

  /**
   * Where a running-maximum scan settles when it starts from a best value of 0
   * and only moves on a strictly larger sample (`if (y > maxY)`): the index of
   * the winning sample, or None when no sample is positive.
   */
  function FirstPeak(ys: seq<real>): (r: Option<nat>)
    ensures r.Some? ==> r.value < |ys|
  {
    if ys == [] then None
    else
      var prev := FirstPeak(ys[..|ys| - 1]);
      if ys[|ys| - 1] > PeakValue(ys[..|ys| - 1], prev) then Some(|ys| - 1) else prev
  }

  /** The running maximum that goes with a scan position: 0 before any positive sample. */
  function PeakValue(ys: seq<real>, r: Option<nat>): real
  {
    if r.None? || r.value >= |ys| then 0.0 else ys[r.value]
  }

  /** One more sample: the scan moves to it exactly when it beats the running maximum. */
  lemma FirstPeakStep(ys: seq<real>, k: nat)
    requires k < |ys|
    ensures var prev := FirstPeak(ys[..k]);
            FirstPeak(ys[..k + 1]) == if ys[k] > PeakValue(ys[..k], prev) then Some(k) else prev
    ensures PeakValue(ys[..k + 1], FirstPeak(ys[..k + 1]))
            == if ys[k] > PeakValue(ys[..k], FirstPeak(ys[..k])) then ys[k] else PeakValue(ys[..k], FirstPeak(ys[..k]))
  {
    assert ys[..k + 1][..k] == ys[..k];
  }

  /**
   * The scan finds nothing exactly when no sample is positive; otherwise it
   * finds the first sample of greatest value, and that value is positive.
   */
  lemma {:induction false} FirstPeakIsFirstMaximum(ys: seq<real>)
    ensures FirstPeak(ys).None? <==> forall k :: 0 <= k < |ys| ==> ys[k] <= 0.0
    ensures FirstPeak(ys).Some? ==>
              var j := FirstPeak(ys).value;
              && ys[j] > 0.0
              && (forall k :: 0 <= k < |ys| ==> ys[k] <= ys[j])
              && (forall k :: 0 <= k < j ==> ys[k] < ys[j])
  {
    if ys != [] {
      var front := ys[..|ys| - 1];
      FirstPeakIsFirstMaximum(front);
      assert forall k :: 0 <= k < |front| ==> front[k] == ys[k];
    }
  }
}
