/**
 * `EngineComponent`: the head of the drivetrain chain. Its own node (inertia,
 * output link, output angular velocity, output torque) lives in the
 * `Drivetrain` array at `index`; the engine-only state is held here.
 *
 * `UnitConverter.RPMToAngularVelocity`, the power curve and the torque
 * delegate are parameters of the operations that use them.
 */
module Engines {
  import opened Common
  import opened WheelComponents
  import opened Powertrain
  import opened CarInputs

  datatype EngineType = ICE | Electric

  /** How far a fixed update got before it returned. */
  datatype StepOutcome =
    | NoRevLimiter   // the rev-limiter angular velocity is 0
    | NoOutput       // nothing is connected to the engine
    | NoInertia      // engine plus drivetrain inertia is 0
    | Stepped        // the physics update ran to the end

  /**
   * Inertia-weighted blend of the engine's own velocity and the drivetrain's
   * (`targetAngularVelocity`).
   */
  function TargetAngularVelocity(inertia: real, drivetrainInertia: real, own: real, drivetrain: real): real
    requires inertia + drivetrainInertia != 0.0
  {
    inertia / (inertia + drivetrainInertia) * own + drivetrainInertia / (inertia + drivetrainInertia) * drivetrain
  }

  /**
   * The two weights add up to 1; with non-negative inertias the target lies
   * between the two velocities.
   */
  lemma TargetIsWeightedAverage(inertia: real, drivetrainInertia: real, own: real, drivetrain: real)
    requires inertia + drivetrainInertia != 0.0
    ensures inertia / (inertia + drivetrainInertia) + drivetrainInertia / (inertia + drivetrainInertia) == 1.0
    ensures inertia >= 0.0 && drivetrainInertia >= 0.0 ==>
              Min(own, drivetrain) <= TargetAngularVelocity(inertia, drivetrainInertia, own, drivetrain) <= Max(own, drivetrain)
  {
    var s := inertia + drivetrainInertia;
    var a := inertia / s;
    var b := drivetrainInertia / s;
    assert a + b == (inertia + drivetrainInertia) / s;
    if inertia >= 0.0 && drivetrainInertia >= 0.0 {
      assert s > 0.0;
      assert 0.0 <= a && 0.0 <= b;
      var t := TargetAngularVelocity(inertia, drivetrainInertia, own, drivetrain);
      assert t == a * own + b * drivetrain;
      assert t == own + b * (drivetrain - own);
      assert t == drivetrain + a * (own - drivetrain);
      if own <= drivetrain {
        MulNonNegative(b, drivetrain - own);
        MulNonNegative(a, drivetrain - own);
      } else {
        MulNonNegative(b, own - drivetrain);
        MulNonNegative(a, own - drivetrain);
      }
    }
  }

  /** The power-curve samples `GetPeakPower` reads: x = 0, 0.05, ..., 0.95. */
  function PowerSamples(powerCurve: real -> real): (ys: seq<real>)
    ensures |ys| == 20
    ensures forall k :: 0 <= k < 20 ==> ys[k] == powerCurve(0.05 * k as real)
  {
    seq(20, k => powerCurve(0.05 * k as real))
  }

  /**
   * The torque `GetPeakTorque` computes at x = 0.05·(k + 1): P·1000/ω at that
   * RPM, or 0 where the RPM is below idle (such samples are skipped, and a
   * skipped sample can never beat a running maximum that starts at 0).
   */
  function TorqueSample(powerCurve: real -> real, rpmToAngularVelocity: real -> real,
                        maxPower: real, revLimiterRPM: real, idleRPM: real, k: nat): real
  {
    var rpm := SampleRpm(k, revLimiterRPM);
    if rpm < idleRPM then 0.0 else Div(powerCurve(TorquePoint(k)) * maxPower * 1000.0, rpmToAngularVelocity(rpm))
  }

  /** The RPM of torque sample `k`: 0.05·(k + 1)·`RevLimiterRPM`. */
  function SampleRpm(k: nat, revLimiterRPM: real): real
  {
    if k == 0 then 0.05 * revLimiterRPM else SampleRpm(k - 1, revLimiterRPM) + 0.05 * revLimiterRPM
  }

  /** `SampleRpm` is the sample position times `RevLimiterRPM`. */
  lemma {:induction false} SampleRpmIsProduct(k: nat, revLimiterRPM: real)
    ensures SampleRpm(k, revLimiterRPM) == TorquePoint(k) * revLimiterRPM
  {
    if k > 0 {
      SampleRpmIsProduct(k - 1, revLimiterRPM);
      assert TorquePoint(k) == TorquePoint(k - 1) + 0.05;
    }
  }

  /** The curve position of torque sample `k`: 0.05·(k + 1). */
  function TorquePoint(k: int): real
  {
    0.05 * (k + 1) as real
  }

  function TorqueSamples(powerCurve: real -> real, rpmToAngularVelocity: real -> real,
                         maxPower: real, revLimiterRPM: real, idleRPM: real): (ts: seq<real>)
    ensures |ts| == 19
    ensures forall k :: 0 <= k < 19 ==>
              ts[k] == TorqueSample(powerCurve, rpmToAngularVelocity, maxPower, revLimiterRPM, idleRPM, k)
  {
    seq(19, (k: int) requires 0 <= k => TorqueSample(powerCurve, rpmToAngularVelocity, maxPower, revLimiterRPM, idleRPM, k))
  }

  /** Sample `k` of `TorqueSamples`, spelled out as `GetPeakTorque` computes it. */
  lemma TorqueSampleAt(powerCurve: real -> real, rpmToAngularVelocity: real -> real,
                       maxPower: real, revLimiterRPM: real, idleRPM: real, k: nat)
    requires k < 19
    ensures var rpm := SampleRpm(k, revLimiterRPM);
            TorqueSamples(powerCurve, rpmToAngularVelocity, maxPower, revLimiterRPM, idleRPM)[k]
            == if rpm < idleRPM then 0.0 else Div(powerCurve(TorquePoint(k)) * maxPower * 1000.0, rpmToAngularVelocity(rpm))
  {
  }

  /** What `GetPeakPower` yields: (peak power, RPM of the peak). */
  function PeakPowerOf(powerCurve: real -> real, maxPower: real, revLimiterRPM: real): (real, real)
  {
    var ys := PowerSamples(powerCurve);
    match FirstPeak(ys)
    case None => (0.0, revLimiterRPM)
    case Some(j) => (ys[j] * maxPower, 0.05 * j as real * revLimiterRPM)
  }

  /** The result of a finished power scan, in the terms `PeakPowerOf` uses. */
  lemma PeakPowerOfScan(powerCurve: real -> real, maxPower: real, revLimiterRPM: real,
                        peak: Option<nat>, maxY: real, maxX: real)
    requires peak == FirstPeak(PowerSamples(powerCurve)) && maxY == PeakValue(PowerSamples(powerCurve), peak)
    requires peak.None? ==> maxX == 1.0
    requires peak.Some? ==> maxX == 0.05 * peak.value as real
    ensures PeakPowerOf(powerCurve, maxPower, revLimiterRPM).0 == maxY * maxPower
    ensures PeakPowerOf(powerCurve, maxPower, revLimiterRPM).1 == maxX * revLimiterRPM
  {
    var ys := PowerSamples(powerCurve);
    match peak
    case None =>
      assert maxY * maxPower == 0.0;
    case Some(j) =>
      assert FirstPeak(ys) == Some(j);
      assert maxY == ys[j];
      assert maxX * revLimiterRPM == 0.05 * j as real * revLimiterRPM;
  }

  /** What `GetPeakTorque` yields: (peak torque, RPM of the peak). */
  function PeakTorqueOf(powerCurve: real -> real, rpmToAngularVelocity: real -> real,
                        maxPower: real, revLimiterRPM: real, idleRPM: real): (real, real)
  {
    var ts := TorqueSamples(powerCurve, rpmToAngularVelocity, maxPower, revLimiterRPM, idleRPM);
    match FirstPeak(ts)
    case None => (0.0, 0.0)
    case Some(j) => (ts[j], SampleRpm(j, revLimiterRPM))
  }

  /** With no positive sample, the peak is 0 at the rev-limiter RPM. */
  lemma PeakPowerWithoutPositiveSample(powerCurve: real -> real, maxPower: real, revLimiterRPM: real)
    requires forall k :: 0 <= k < 20 ==> PowerSamples(powerCurve)[k] <= 0.0
    ensures PeakPowerOf(powerCurve, maxPower, revLimiterRPM).0 == 0.0
    ensures PeakPowerOf(powerCurve, maxPower, revLimiterRPM).1 == revLimiterRPM
  {
    FirstPeakIsFirstMaximum(PowerSamples(powerCurve));
  }

  /** For a non-negative `MaxPower`, no sample's power exceeds the peak. */
  lemma PeakPowerIsMaximum(powerCurve: real -> real, maxPower: real, revLimiterRPM: real)
    requires maxPower >= 0.0
    ensures forall k :: 0 <= k < 20 ==> PowerSamples(powerCurve)[k] * maxPower <= PeakPowerOf(powerCurve, maxPower, revLimiterRPM).0
  {
    var ys := PowerSamples(powerCurve);
    assert PeakPowerOf(powerCurve, maxPower, revLimiterRPM).0 == PeakValue(ys, FirstPeak(ys)) * maxPower;
    forall k | 0 <= k < 20 ensures ys[k] * maxPower <= PeakValue(ys, FirstPeak(ys)) * maxPower {
      ScaledBelowPeak(ys, k, maxPower);
    }
  }

  /** Peak torque is never negative, and no sample above idle beats it. */
  lemma PeakTorqueIsMaximum(powerCurve: real -> real, rpmToAngularVelocity: real -> real,
                            maxPower: real, revLimiterRPM: real, idleRPM: real)
    ensures var (torque, rpm) := PeakTorqueOf(powerCurve, rpmToAngularVelocity, maxPower, revLimiterRPM, idleRPM);
            && torque >= 0.0
            && (forall k :: 0 <= k < 19 ==> TorqueSample(powerCurve, rpmToAngularVelocity, maxPower, revLimiterRPM, idleRPM, k) <= torque)
            && (torque == 0.0 ==> rpm == 0.0)
  {
    FirstPeakIsFirstMaximum(TorqueSamples(powerCurve, rpmToAngularVelocity, maxPower, revLimiterRPM, idleRPM));
  }

  /** The torque that takes a shaft of `inertia` from `from` to `to` in `dt` (`reactionTorque`). */
  function ReactionTorque(to: real, from: real, inertia: real, dt: real): real
    requires dt != 0.0
  {
    (to - from) * inertia / dt
  }

  /** One explicit Euler step: `av` driven by `torque` against `inertia` for `dt`. */
  function Integrate(av: real, torque: real, inertia: real, dt: real): real
    requires inertia != 0.0
  {
    av + torque / inertia * dt
  }

  /** What one physics step of the engine leaves behind. */
  datatype EngineStepResult = EngineStepResult(
    nodes: seq<Node>,          // the drivetrain after the step
    angularVelocity: real,     // the engine's new output angular velocity
    generatedPower: real,      // kW
    rpmPercent: real,
    load: real)

  /**
   * The engine node `index` takes part in the physics step: it is a shaft
   * with an output, and it and the drivetrain behind it have some inertia.
   */
  ghost predicate Steps(ns: seq<Node>, index: nat, dt: real, inchToMeter: real -> real, rank: seq<nat>)
  {
    && index < |ns| && Ranked(ns, rank) && ns[index].kind.Shaft? && ns[index].outputNameHash != 0
    && ns[index].inertia + QueryInertiaOf(ns, ns[index].output.value, dt, inchToMeter, rank) != 0.0
  }

  /**
   * The first half of the physics part of `OnFixedUpdate` on the drivetrain
   * `ns`: query the drivetrain's velocity (which writes the chain's cached
   * velocities) and blend it with the engine's by inertia; the reaction
   * torque is what it takes to move the engine to that blend in `dt`.
   * Returns the drivetrain after the query and the reaction torque.
   */
  function EngineReaction(ns: seq<Node>, index: nat, dt: real, inchToMeter: real -> real,
                          ghost rank: seq<nat>): (r: (seq<Node>, real))
    requires Steps(ns, index, dt, inchToMeter, rank) && dt > 0.0
    ensures SameLinks(ns, r.0) && Ranked(r.0, rank)
  {
    var n := ns[index];
    var drivetrainInertia := QueryInertiaOf(ns, n.output.value, dt, inchToMeter, rank);
    var own := n.outputAngularVelocity;
    var q := QueryAngularVelocityOf(ns, index, own, rank);
    QueryAngularVelocityFrame(ns, index, own, rank);
    RankedSameLinks(ns, q.0, rank);
    var target := TargetAngularVelocity(n.inertia, drivetrainInertia, own, q.1);
    (q.0, ReactionTorque(target, own, n.inertia, dt))
  }

  /**
   * The second half of the physics step, on the drivetrain `queried` left by
   * `EngineReaction`: send the generated torque minus the reaction torque
   * down the chain, and integrate the generated, returned and reaction
   * torques into the engine's velocity `own`, clamped to 0 .. 1.05 times the
   * rev limiter.
   */
  function EngineDrive(queried: seq<Node>, index: nat, own: real, inertiaSum: real, reactionTorque: real,
                       dt: real, revLimiterAngularVelocity: real, maxPower: real,
                       calculateTorque: (real, real) -> real, wheelUpdate: WheelState -> WheelState,
                       ghost rank: seq<nat>): (r: EngineStepResult)
    requires index < |queried| && Ranked(queried, rank) && inertiaSum != 0.0 && revLimiterAngularVelocity > 0.0
    ensures |r.nodes| == |queried| && SameLinks(queried, r.nodes)
    ensures r.nodes[index].outputAngularVelocity == r.angularVelocity
    ensures 0.0 <= r.angularVelocity <= revLimiterAngularVelocity * 1.05
    ensures 0.0 <= r.rpmPercent <= 1.0 && 0.0 <= r.load <= 1.0
    ensures r.generatedPower == TorqueToPowerInKW(own, calculateTorque(own, dt))
    ensures r.rpmPercent == Clamp(r.angularVelocity / revLimiterAngularVelocity, 0.0, 1.0)
    ensures r.load == Clamp(Div(r.generatedPower, maxPower), 0.0, 1.0)
  {
    var generatedTorque := calculateTorque(own, dt);
    var power := TorqueToPowerInKW(own, generatedTorque);
    var outputTorque := generatedTorque - reactionTorque;
    var ns1 := queried[index := queried[index].(outputTorque := outputTorque)];
    RankedSameLinks(queried, ns1, rank);
    var f := ForwardStepOf(ns1, index, outputTorque, 0.0, wheelUpdate, rank);
    ForwardStepFrame(ns1, index, outputTorque, 0.0, wheelUpdate, rank);
    var av := Clamp(Integrate(own, generatedTorque + f.1 + reactionTorque, inertiaSum, dt),
                    0.0, revLimiterAngularVelocity * 1.05);
    EngineStepResult(f.0[index := f.0[index].(outputAngularVelocity := av)], av, power,
                     Clamp(av / revLimiterAngularVelocity, 0.0, 1.0), Clamp(Div(power, maxPower), 0.0, 1.0))
  }

  /**
   * The physics part of `OnFixedUpdate` on the drivetrain `ns`:
   * `EngineReaction`, then `EngineDrive` with the engine's inertia plus the
   * drivetrain's.
   */
  function EngineStep(ns: seq<Node>, index: nat, dt: real, revLimiterAngularVelocity: real, maxPower: real,
                      calculateTorque: (real, real) -> real, inchToMeter: real -> real,
                      wheelUpdate: WheelState -> WheelState, ghost rank: seq<nat>): (r: EngineStepResult)
    requires Steps(ns, index, dt, inchToMeter, rank) && dt > 0.0 && revLimiterAngularVelocity > 0.0
    ensures |r.nodes| == |ns| && SameLinks(ns, r.nodes)
    ensures r.nodes[index].outputAngularVelocity == r.angularVelocity
    ensures 0.0 <= r.angularVelocity <= revLimiterAngularVelocity * 1.05
    ensures 0.0 <= r.rpmPercent <= 1.0 && 0.0 <= r.load <= 1.0
    ensures r.generatedPower == TorqueToPowerInKW(ns[index].outputAngularVelocity,
                                                  calculateTorque(ns[index].outputAngularVelocity, dt))
  {
    var n := ns[index];
    var reaction := EngineReaction(ns, index, dt, inchToMeter, rank);
    EngineDrive(reaction.0, index, n.outputAngularVelocity,
                n.inertia + QueryInertiaOf(ns, n.output.value, dt, inchToMeter, rank), reaction.1,
                dt, revLimiterAngularVelocity, maxPower, calculateTorque, wheelUpdate, rank)
  }

  class Engine {
    const train: Drivetrain
    const index: nat
    var engineType: EngineType
    var autoStartOnThrottle: bool
    var idleRPM: real
    var maxPower: real
    var flyingStartEnabled: bool
    var ignition: bool
    var revLimiterCutoffDuration: real
    var revLimiterRPM: real
    var stallingEnabled: bool
    var starterActive: bool
    var startDuration: real
    var starterTorque: real
    var rpmPercent: real
    var throttlePosition: real
    var userThrottleInput: real
    var isRunning: bool
    var idleAngularVelocity: real
    var stallAngularVelocity: real
    var revLimiterAngularVelocity: real
    var load: real
    var generatedPower: real
    var peakPower: real
    var peakPowerRpm: real
    var peakTorque: real
    var peakTorqueRpm: real

    /** The engine's node exists and is a plain component. */
    predicate Valid()
      reads this, train
    {
      index < train.nodes.Length
    }

    /** The engine with its property defaults, heading the chain at `index`. */
    constructor (train: Drivetrain, index: nat)
      requires index < train.nodes.Length
      ensures this.train == train && this.index == index && Valid()
      ensures engineType == ICE && autoStartOnThrottle && ignition && stallingEnabled && !starterActive
      ensures idleRPM == 900.0 && maxPower == 120.0 && revLimiterRPM == 4700.0 && startDuration == 0.5
      ensures revLimiterCutoffDuration == 0.0 && !flyingStartEnabled && !isRunning
    {
      this.train := train;
      this.index := index;
      engineType := ICE;
      autoStartOnThrottle := true;
      idleRPM := 900.0;
      maxPower := 120.0;
      flyingStartEnabled := false;
      ignition := true;
      revLimiterCutoffDuration := 0.0;
      revLimiterRPM := 4700.0;
      stallingEnabled := true;
      starterActive := false;
      startDuration := 0.5;
      starterTorque := 0.0;
      rpmPercent := 0.0;
      throttlePosition := 0.0;
      userThrottleInput := 0.0;
      isRunning := false;
      idleAngularVelocity := 0.0;
      stallAngularVelocity := 0.0;
      revLimiterAngularVelocity := 0.0;
      load := 0.0;
      generatedPower := 0.0;
      peakPower := 0.0;
      peakPowerRpm := 0.0;
      peakTorque := 0.0;
      peakTorqueRpm := 0.0;
    }

    /** `OutputAngularVelocity`, stored on the engine's node. */
    function OutputAngularVelocity(): real
      requires Valid()
      reads this, train, train.nodes
    {
      train.nodes[index].outputAngularVelocity
    }

    /**
     * `IsStalled`: an ICE engine with stalling enabled whose output velocity is
     * below 40% of the cached idle velocity.
     */
    predicate IsStalled()
      requires Valid()
      reads this, train, train.nodes
      ensures IsStalled() ==> engineType == ICE && stallingEnabled
      ensures engineType == ICE && stallingEnabled && OutputAngularVelocity() < idleAngularVelocity * 0.4 ==> IsStalled()
    {
      engineType != Electric && stallingEnabled && OutputAngularVelocity() < idleAngularVelocity * 0.4
    }

    /** `OnStart`: an electric motor switches off stalling, idle and the starter. */
    method OnStart()
      modifies this`stallingEnabled, this`idleRPM, this`flyingStartEnabled, this`starterActive,
               this`startDuration, this`revLimiterCutoffDuration
      ensures old(engineType) == Electric ==>
                !stallingEnabled && idleRPM == 0.0 && flyingStartEnabled && !starterActive
                && startDuration == 0.001 && revLimiterCutoffDuration == 0.0
      ensures old(engineType) == ICE ==>
                stallingEnabled == old(stallingEnabled) && idleRPM == old(idleRPM)
                && flyingStartEnabled == old(flyingStartEnabled) && starterActive == old(starterActive)
                && startDuration == old(startDuration) && revLimiterCutoffDuration == old(revLimiterCutoffDuration)
    {
      if engineType == Electric {
        stallingEnabled := false;
        idleRPM := 0.0;
        flyingStartEnabled := true;
        starterActive := false;
        startDuration := 0.001;
        revLimiterCutoffDuration := 0.0;
      }
    }

    /** `StopEngine`: the ignition goes off; nothing else changes. */
    method StopEngine()
      modifies this`ignition
      ensures !ignition
    {
      ignition := false;
    }

    /**
     * `StartEngine`: the ignition goes on. An ICE engine then either jumps to
     * idle speed (flying start) or, when no starter is running and the car has
     * a controller, engages the starter. Only the synchronous first part of the
     * starter coroutine is modelled.
     */
    method StartEngine(hasController: bool, rpmToAngularVelocity: real -> real)
      requires Valid()
      modifies this`ignition, this`starterActive, this`startDuration, this`starterTorque, train.nodes
      ensures ignition
      ensures old(engineType) == ICE && old(flyingStartEnabled) ==>
                !starterActive && OutputAngularVelocity() == rpmToAngularVelocity(idleRPM)
      ensures old(engineType) == ICE && !old(flyingStartEnabled) && !old(starterActive) && hasController ==>
                starterActive && startDuration == Max(old(startDuration), 0.1)
                && starterTorque == (idleAngularVelocity - OutputAngularVelocity()) * train.nodes[index].inertia
                                    / startDuration
      ensures !(old(engineType) == ICE && old(flyingStartEnabled)) ==> OutputAngularVelocity() == old(OutputAngularVelocity())
      ensures OutputAngularVelocity() == old(OutputAngularVelocity()) || OutputAngularVelocity() == rpmToAngularVelocity(idleRPM)
      ensures old(engineType) == Electric ==> starterActive == old(starterActive)
      ensures SameLinks(old(train.nodes[..]), train.nodes[..])
      ensures forall k :: 0 <= k < train.nodes.Length && k != index ==> train.nodes[k] == old(train.nodes[k])
      ensures train.nodes[index].kind == old(train.nodes[index].kind)
      ensures train.nodes[..] == old(train.nodes[..])[index := old(train.nodes[index]).(outputAngularVelocity := OutputAngularVelocity())]
    {
      ignition := true;
      if engineType != Electric {
        if flyingStartEnabled {
          // FlyingStart
          ignition := true;
          starterActive := false;
          train.nodes[index] := train.nodes[index].(outputAngularVelocity := rpmToAngularVelocity(idleRPM));
        } else if !starterActive && hasController {
          // StarterCoroutine up to its first await
          starterActive := true;
          if startDuration < 0.1 {
            startDuration := 0.1;
          }
          starterTorque := (idleAngularVelocity - train.nodes[index].outputAngularVelocity) * train.nodes[index].inertia
                           / startDuration;
        }
      }
    }

    /** `StartStopEngine`: a running engine is stopped, otherwise it is started. */
    method StartStopEngine(hasController: bool, rpmToAngularVelocity: real -> real)
      requires Valid()
      modifies this`ignition, this`starterActive, this`startDuration, this`starterTorque, train.nodes
      ensures old(isRunning) ==> !ignition && train.nodes[..] == old(train.nodes[..])
      ensures !old(isRunning) ==> ignition
      ensures OutputAngularVelocity() == old(OutputAngularVelocity()) || OutputAngularVelocity() == rpmToAngularVelocity(idleRPM)
      ensures SameLinks(old(train.nodes[..]), train.nodes[..])
      ensures forall k :: 0 <= k < train.nodes.Length && k != index ==> train.nodes[k] == old(train.nodes[k])
      ensures train.nodes[index].kind == old(train.nodes[index].kind)
      ensures train.nodes[..] == old(train.nodes[..])[index := old(train.nodes[index]).(outputAngularVelocity := OutputAngularVelocity())]
    {
      if isRunning {
        StopEngine();
      } else {
        StartEngine(hasController, rpmToAngularVelocity);
      }
    }

    /**
     * `ApplyICEIdleCorrection`: near or below idle with the ignition on, the
     * throttle is raised to keep the engine turning.
     */
    method ApplyICEIdleCorrection()
      requires Valid()
      modifies this`throttlePosition
      ensures ignition && OutputAngularVelocity() < idleAngularVelocity * 1.1 ==>
                throttlePosition == Max(userThrottleInput,
                  Clamp(Max(idleAngularVelocity * 1.08 - OutputAngularVelocity(), 0.0) * 0.01, 0.0, 1.0))
      ensures !(ignition && OutputAngularVelocity() < idleAngularVelocity * 1.1) ==>
                throttlePosition == old(throttlePosition)
      ensures ignition && OutputAngularVelocity() < idleAngularVelocity * 1.1 ==>
                throttlePosition >= userThrottleInput && (userThrottleInput <= 1.0 ==> throttlePosition <= 1.0)
    {
      var av := train.nodes[index].outputAngularVelocity;
      if ignition && av < idleAngularVelocity * 1.1 {
        var idleCorrection := idleAngularVelocity * 1.08 - av;
        idleCorrection := if idleCorrection < 0.0 then 0.0 else idleCorrection;
        var idleThrottlePosition := Clamp(idleCorrection * 0.01, 0.0, 1.0);
        throttlePosition := Max(userThrottleInput, idleThrottlePosition);
      }
    }

    /**
     * `GetPeakPower`: scans the power curve at x = 0, 0.05, ..., 0.95 with a
     * running maximum; power is that maximum times `MaxPower`, at x times
     * `RevLimiterRPM` (x = 1 when no sample is positive).
     */
    method GetPeakPower(powerCurve: real -> real) returns (power: real, rpm: real)
      ensures power == PeakPowerOf(powerCurve, maxPower, revLimiterRPM).0
      ensures rpm == PeakPowerOf(powerCurve, maxPower, revLimiterRPM).1
    {
      ghost var ys := PowerSamples(powerCurve);
      var maxY := 0.0;
      var maxX := 1.0;
      var k := 0;
      ghost var peak: Option<nat> := None;
      while k < 20
        invariant 0 <= k <= 20
        invariant peak == FirstPeak(ys[..k])
        invariant maxY == PeakValue(ys[..k], peak)
        invariant peak.None? ==> maxX == 1.0
        invariant peak.Some? ==> maxX == 0.05 * peak.value as real
      {
        var x := 0.05 * k as real;
        var y := powerCurve(x);
        assert y == ys[k];
        FirstPeakStep(ys, k);
        if y > maxY {
          maxY := y;
          maxX := x;
          peak := Some(k);
        }
        k := k + 1;
      }
      assert ys[..20] == ys;
      PeakPowerOfScan(powerCurve, maxPower, revLimiterRPM, peak, maxY, maxX);
      power := maxY * maxPower;
      rpm := maxX * revLimiterRPM;
    }

    /**
     * `GetPeakTorque`: scans x = 0.05, ..., 0.95, skipping RPMs below idle, for
     * the greatest torque P·1000/ω; 0 at RPM 0 when nothing beats 0.
     */
    method GetPeakTorque(powerCurve: real -> real, rpmToAngularVelocity: real -> real) returns (torque: real, rpm: real)
      ensures (torque, rpm) == PeakTorqueOf(powerCurve, rpmToAngularVelocity, maxPower, revLimiterRPM, idleRPM)
    {
      ghost var ts := TorqueSamples(powerCurve, rpmToAngularVelocity, maxPower, revLimiterRPM, idleRPM);
      torque := 0.0;
      rpm := 0.0;
      var k := 0;
      ghost var peak: Option<nat> := None;
      while k < 19
        invariant 0 <= k <= 19
        invariant peak == FirstPeak(ts[..k])
        invariant torque == PeakValue(ts[..k], peak)
        invariant torque >= 0.0
        invariant peak.None? ==> rpm == 0.0
        invariant peak.Some? ==> rpm == SampleRpm(peak.value, revLimiterRPM)
      {
        var sampleRpm := SampleRpm(k, revLimiterRPM);
        FirstPeakStep(ts, k);
        TorqueSampleAt(powerCurve, rpmToAngularVelocity, maxPower, revLimiterRPM, idleRPM, k);
        if sampleRpm >= idleRPM {
          var t := TorqueAt(powerCurve, rpmToAngularVelocity, k);
          if t > torque {
            torque := t;
            rpm := sampleRpm;
            peak := Some(k);
          }
        }
        k := k + 1;
      }
      assert ts[..19] == ts;
      assert FirstPeak(ts) == peak;
      if peak.Some? {
        assert torque == ts[peak.value];
        assert PeakTorqueOf(powerCurve, rpmToAngularVelocity, maxPower, revLimiterRPM, idleRPM).1
               == SampleRpm(peak.value, revLimiterRPM);
      }
    }

    /** The torque P·1000/ω of scan sample `k` (one above idle), as `TorqueSamples` has it. */
    method TorqueAt(powerCurve: real -> real, rpmToAngularVelocity: real -> real, k: nat) returns (t: real)
      requires k < 19 && SampleRpm(k, revLimiterRPM) >= idleRPM
      ensures t == TorqueSamples(powerCurve, rpmToAngularVelocity, maxPower, revLimiterRPM, idleRPM)[k]
    {
      var x := TorquePoint(k);
      var sampleRpm := SampleRpm(k, revLimiterRPM);
      var p := powerCurve(x) * maxPower;
      var w := rpmToAngularVelocity(sampleRpm);
      t := Div(p * 1000.0, w);
      TorqueSampleAt(powerCurve, rpmToAngularVelocity, maxPower, revLimiterRPM, idleRPM, k);
    }

    /** `UpdatePeakPowerAndTorque`: caches both scans. */
    method UpdatePeakPowerAndTorque(powerCurve: real -> real, rpmToAngularVelocity: real -> real)
      modifies this`peakPower, this`peakPowerRpm, this`peakTorque, this`peakTorqueRpm
      ensures (peakPower, peakPowerRpm) == PeakPowerOf(powerCurve, maxPower, revLimiterRPM)
      ensures (peakTorque, peakTorqueRpm) == PeakTorqueOf(powerCurve, rpmToAngularVelocity, maxPower, revLimiterRPM, idleRPM)
    {
      peakPower, peakPowerRpm := GetPeakPower(powerCurve);
      peakTorque, peakTorqueRpm := GetPeakTorque(powerCurve, rpmToAngularVelocity);
    }

    /**
     * `OnFixedUpdate`: refresh the cached velocities, handle auto-start,
     * the start/stop button and stalling, then blend the engine with the
     * drivetrain, apply the generated torque, and clamp the results.
     * `calculateTorque` is the torque delegate (ICE or electric).
     */
    method OnFixedUpdate(dt: real, throttleInput: real, input: CarInputHandler, hasController: bool,
                         rpmToAngularVelocity: real -> real, calculateTorque: (real, real) -> real,
                         inchToMeter: real -> real, wheelUpdate: WheelState -> WheelState,
                         ghost rank: seq<nat>) returns (outcome: StepOutcome, ghost started: real)
      requires Valid() && Ranked(train.nodes[..], rank) && train.nodes[index].kind.Shaft?
      requires dt > 0.0 && rpmToAngularVelocity(revLimiterRPM) >= 0.0
      modifies this`userThrottleInput, this`throttlePosition, this`idleAngularVelocity, this`stallAngularVelocity,
               this`revLimiterAngularVelocity, this`isRunning, this`ignition, this`starterActive,
               this`startDuration, this`starterTorque, this`generatedPower, this`rpmPercent, this`load, train.nodes,
               input`states
      ensures && userThrottleInput == throttleInput
              && idleAngularVelocity == rpmToAngularVelocity(idleRPM)
              && revLimiterAngularVelocity == rpmToAngularVelocity(revLimiterRPM)
              && stallAngularVelocity == (if stallingEnabled then idleAngularVelocity * 0.4 else -1e10)
      ensures outcome == NoRevLimiter <==> revLimiterAngularVelocity == 0.0
      ensures outcome == NoRevLimiter ==>
                unchanged(train.nodes) && isRunning == old(isRunning) && ignition == old(ignition)
      ensures outcome != NoRevLimiter ==> (isRunning ==> ignition) && (old(isRunning) && !isRunning ==> !ignition)
      ensures outcome == NoRevLimiter ==> input.states == old(input.states)
      ensures outcome != NoRevLimiter ==> input.states == old(input.states).(engineStartStop := false)
      ensures outcome == NoOutput ==> train.nodes[index].outputNameHash == 0
      ensures outcome == NoOutput || outcome == NoInertia ==>
                OutputAngularVelocity() == old(OutputAngularVelocity())
                || OutputAngularVelocity() == rpmToAngularVelocity(idleRPM)
      ensures started == old(OutputAngularVelocity()) || started == rpmToAngularVelocity(idleRPM)
      ensures outcome == Stepped ==>
                var ns := old(train.nodes[..])[index := old(train.nodes[index]).(outputAngularVelocity := started)];
                && Steps(ns, index, dt, inchToMeter, rank)
                && var r := EngineStep(ns, index, dt, revLimiterAngularVelocity, maxPower,
                                       calculateTorque, inchToMeter, wheelUpdate, rank);
                   && train.nodes[..] == r.nodes && OutputAngularVelocity() == r.angularVelocity
                   && generatedPower == r.generatedPower && rpmPercent == r.rpmPercent && load == r.load
      ensures outcome == Stepped ==>
                && 0.0 <= OutputAngularVelocity() <= revLimiterAngularVelocity * 1.05
                && 0.0 <= rpmPercent <= 1.0
                && 0.0 <= load <= 1.0
    {
      started := OutputAngularVelocity();
      CacheValues(throttleInput, rpmToAngularVelocity);
      if revLimiterAngularVelocity == 0.0 {
        outcome := NoRevLimiter;
        return;
      }

      UpdateRunning(input, hasController, rpmToAngularVelocity, rank);
      started := OutputAngularVelocity();
      outcome := PhysicsUpdate(dt, calculateTorque, inchToMeter, wheelUpdate, rank);
    }

    /** The cached values `OnFixedUpdate` refreshes first. */
    method CacheValues(throttleInput: real, rpmToAngularVelocity: real -> real)
      modifies this`userThrottleInput, this`throttlePosition, this`idleAngularVelocity, this`stallAngularVelocity,
               this`revLimiterAngularVelocity
      ensures userThrottleInput == throttleInput && throttlePosition == throttleInput
      ensures idleAngularVelocity == rpmToAngularVelocity(idleRPM)
      ensures revLimiterAngularVelocity == rpmToAngularVelocity(revLimiterRPM)
      ensures stallAngularVelocity == (if stallingEnabled then idleAngularVelocity * 0.4 else -1e10)
    {
      userThrottleInput := throttleInput;
      throttlePosition := userThrottleInput;
      idleAngularVelocity := rpmToAngularVelocity(idleRPM);
      stallAngularVelocity := if stallingEnabled then idleAngularVelocity * 0.4 else -1e10;
      revLimiterAngularVelocity := rpmToAngularVelocity(revLimiterRPM);
    }

    /**
     * The start/stop half of `OnFixedUpdate`: auto-start on more than 20%
     * throttle, the start/stop button, then the stall check; an engine found
     * stalled loses its ignition. A press of the button is consumed: the
     * input's flag is cleared, so one press toggles the engine once.
     */
    method UpdateRunning(input: CarInputHandler, hasController: bool, rpmToAngularVelocity: real -> real,
                         ghost rank: seq<nat>)
      requires Valid() && Ranked(train.nodes[..], rank)
      modifies this`isRunning, this`ignition, this`starterActive, this`startDuration, this`starterTorque, train.nodes,
               input`states
      ensures input.states == old(input.states).(engineStartStop := false)
      ensures isRunning ==> ignition
      ensures old(isRunning) && !isRunning ==> !ignition
      ensures OutputAngularVelocity() == old(OutputAngularVelocity()) || OutputAngularVelocity() == rpmToAngularVelocity(idleRPM)
      ensures Ranked(train.nodes[..], rank) && train.nodes[index].kind == old(train.nodes[index].kind)
      ensures train.nodes[..] == old(train.nodes[..])[index := old(train.nodes[index]).(outputAngularVelocity := OutputAngularVelocity())]
    {
      // Start on throttle, then the start/stop button.
      if !isRunning && !starterActive && autoStartOnThrottle && throttlePosition > 0.2 {
        StartEngine(hasController, rpmToAngularVelocity);
      }
      if input.states.engineStartStop {
        StartStopEngine(hasController, rpmToAngularVelocity);
        input.states := input.states.(engineStartStop := false);
      }

      // Stall check.
      var wasRunning := isRunning;
      isRunning := ignition && !IsStalled();
      if wasRunning && !isRunning {
        StopEngine();
      }
      RankedSameLinks(old(train.nodes[..]), train.nodes[..], rank);
    }

    /**
     * The physics half of `OnFixedUpdate`: blend the engine with the drivetrain
     * by inertia, apply generated, reaction and returned torque, and clamp the
     * angular velocity to [0, 1.05·rev-limiter ω]; gives up without an output
     * or with zero total inertia.
     */
    method PhysicsUpdate(dt: real, calculateTorque: (real, real) -> real,
                         inchToMeter: real -> real, wheelUpdate: WheelState -> WheelState,
                         ghost rank: seq<nat>) returns (outcome: StepOutcome)
      requires Valid() && Ranked(train.nodes[..], rank) && train.nodes[index].kind.Shaft?
      requires dt > 0.0 && revLimiterAngularVelocity > 0.0
      modifies this`generatedPower, this`rpmPercent, this`load, train.nodes
      ensures outcome != NoRevLimiter
      ensures outcome == NoOutput ==> train.nodes[index].outputNameHash == 0
      ensures outcome == NoOutput || outcome == NoInertia ==> train.nodes[..] == old(train.nodes[..])
      ensures outcome == Stepped <==> Steps(old(train.nodes[..]), index, dt, inchToMeter, rank)
      ensures outcome == Stepped ==>
                var r := EngineStep(old(train.nodes[..]), index, dt, revLimiterAngularVelocity, maxPower,
                                    calculateTorque, inchToMeter, wheelUpdate, rank);
                && train.nodes[..] == r.nodes && OutputAngularVelocity() == r.angularVelocity
                && generatedPower == r.generatedPower && rpmPercent == r.rpmPercent && load == r.load
      ensures outcome == Stepped ==>
                && 0.0 <= OutputAngularVelocity() <= revLimiterAngularVelocity * 1.05
                && 0.0 <= rpmPercent <= 1.0
                && 0.0 <= load <= 1.0
    {
      var node := train.nodes[index];
      if node.outputNameHash == 0 {
        return NoOutput;
      }

      var drivetrainInertia := train.QueryInertia(node.output.value, dt, inchToMeter, rank);
      var inertiaSum := node.inertia + drivetrainInertia;
      if inertiaSum == 0.0 {
        return NoInertia;
      }

      StepPhysics(dt, calculateTorque, inchToMeter, wheelUpdate, rank);
      return Stepped;
    }

    /** The rest of `PhysicsUpdate` once the engine is known to take part (`Steps`). */
    method StepPhysics(dt: real, calculateTorque: (real, real) -> real, inchToMeter: real -> real,
                       wheelUpdate: WheelState -> WheelState, ghost rank: seq<nat>)
      requires Valid() && Steps(train.nodes[..], index, dt, inchToMeter, rank)
      requires dt > 0.0 && revLimiterAngularVelocity > 0.0
      modifies this`generatedPower, this`rpmPercent, this`load, train.nodes
      ensures var r := EngineStep(old(train.nodes[..]), index, dt, revLimiterAngularVelocity, maxPower,
                                  calculateTorque, inchToMeter, wheelUpdate, rank);
              && train.nodes[..] == r.nodes && OutputAngularVelocity() == r.angularVelocity
              && generatedPower == r.generatedPower && rpmPercent == r.rpmPercent && load == r.load
    {
      var node := train.nodes[index];
      var drivetrainInertia := train.QueryInertia(node.output.value, dt, inchToMeter, rank);
      var inertiaSum := node.inertia + drivetrainInertia;
      var own := node.outputAngularVelocity;
      ghost var before := train.nodes[..];
      var drivetrainAngularVelocity := train.QueryAngularVelocity(index, own, rank);
      ghost var q := QueryAngularVelocityOf(before, index, own, rank);
      assert train.nodes[..] == q.0 && drivetrainAngularVelocity == q.1;
      var targetAngularVelocity := TargetAngularVelocity(node.inertia, drivetrainInertia, own, drivetrainAngularVelocity);
      var reactionTorque := ReactionTorque(targetAngularVelocity, own, node.inertia, dt);
      assert (train.nodes[..], reactionTorque) == EngineReaction(before, index, dt, inchToMeter, rank);
      Drive(own, inertiaSum, reactionTorque, dt, calculateTorque, wheelUpdate, rank);
    }

    /** `EngineDrive` on the drivetrain array. */
    method Drive(own: real, inertiaSum: real, reactionTorque: real, dt: real,
                 calculateTorque: (real, real) -> real, wheelUpdate: WheelState -> WheelState, ghost rank: seq<nat>)
      requires Valid() && Ranked(train.nodes[..], rank) && inertiaSum != 0.0 && revLimiterAngularVelocity > 0.0
      modifies this`generatedPower, this`rpmPercent, this`load, train.nodes
      ensures var r := EngineDrive(old(train.nodes[..]), index, own, inertiaSum, reactionTorque, dt,
                                   revLimiterAngularVelocity, maxPower, calculateTorque, wheelUpdate, rank);
              && train.nodes[..] == r.nodes && OutputAngularVelocity() == r.angularVelocity
              && generatedPower == r.generatedPower && rpmPercent == r.rpmPercent && load == r.load
    {
      ghost var before := train.nodes[..];
      var generatedTorque := calculateTorque(own, dt);
      generatedPower := TorqueToPowerInKW(own, generatedTorque);
      var outputTorque := generatedTorque - reactionTorque;
      train.nodes[index] := train.nodes[index].(outputTorque := outputTorque);
      ghost var ns1 := train.nodes[..];
      assert ns1 == before[index := before[index].(outputTorque := outputTorque)];
      RankedSameLinks(before, ns1, rank);
      var returnTorque := train.ForwardStep(index, outputTorque, 0.0, wheelUpdate, rank);
      ghost var f := ForwardStepOf(ns1, index, outputTorque, 0.0, wheelUpdate, rank);
      assert train.nodes[..] == f.0 && returnTorque == f.1;
      var totalTorque := generatedTorque + returnTorque + reactionTorque;
      var av := Integrate(own, totalTorque, inertiaSum, dt);

      av := Clamp(av, 0.0, revLimiterAngularVelocity * 1.05);
      train.nodes[index] := train.nodes[index].(outputAngularVelocity := av);
      assert train.nodes[..] == f.0[index := f.0[index].(outputAngularVelocity := av)];
      rpmPercent := Clamp(av / revLimiterAngularVelocity, 0.0, 1.0);
      load := Clamp(Div(generatedPower, maxPower), 0.0, 1.0);
    }
  }
}
