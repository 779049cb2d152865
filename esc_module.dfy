/**
 * `ESCModule`: electronic stability control. When the car slides (its
 * velocity points more than 2 degrees away from where it is heading, after
 * allowing for half the steering input) and it moves forward fast enough, it
 * adds brake torque to every grounded powered wheel, on one side more than
 * the other, to turn the car back into line.
 *
 * The powered wheels are drivetrain nodes (`Powertrain.Drivetrain`); each is
 * listed with whether its collider touches the ground and the x coordinate
 * of its world position. The signed angle between velocity and heading, the
 * local velocity and the rev limiter are passed in.
 */
module ESCModules {
  import opened Common
  import opened WheelComponents
  import opened Powertrain

  /** One entry of the car's powered wheel list. */
  datatype EscWheel = EscWheel(node: nat, grounded: bool, worldX: real)

  /** The extra brake torque asked of a wheel: minus the angle, signed by the wheel's side, times 50 and the intensity. */
  function Correction(angle: real, worldX: real, intensity: real): real
  {
    -angle * Sign(worldX) as real * 50.0 * intensity
  }

  /** The slip angle the module acts on: the velocity's angle less half the steering input. */
  function SlipAngle(signedAngle: real, steering: real): real
  {
    signedAngle - steering * 0.5
  }

  /** When the module acts: moving forward at the threshold or faster, no rev limiter, and a slip angle of 2 or more. */
  predicate Engages(localVelocityX: real, lowerSpeedThreshold: real, signedAngle: real, steering: real,
                    revLimiterActive: bool)
  {
    && localVelocityX >= lowerSpeedThreshold
    && !revLimiterActive
    && Abs(SlipAngle(signedAngle, steering)) >= 2.0
  }

  /** Every listed wheel is a wheel node of the chain. */
  predicate WheelsInChain(ns: seq<Node>, ws: seq<EscWheel>)
  {
    forall k :: 0 <= k < |ws| ==> ws[k].node < |ns| && ns[ws[k].node].kind.WheelEnd?
  }

  /** Some grounded entry of the list names node `k`. */
  predicate GroundedEntryFor(ws: seq<EscWheel>, k: nat)
  {
    exists j :: 0 <= j < |ws| && ws[j].node == k && ws[j].grounded
  }

  /** One entry: `AddBrakeTorque` on a grounded wheel, nothing on one in the air. */
  function BrakeOne(ns: seq<Node>, w: EscWheel, angle: real, intensity: real, maxBrakeTorque: real): seq<Node>
    requires w.node < |ns| && ns[w.node].kind.WheelEnd?
  {
    if !w.grounded then ns
    else
      var wheel := ns[w.node].kind.wheel;
      ns[w.node := WithWheel(ns[w.node], wheel.(brakeTorque := BrakeTorqueAfterAdd(wheel.brakeTorque,
                                                   Correction(angle, w.worldX, intensity), maxBrakeTorque)))]
  }

  /**
   * The chain after the loop has handled the entries of `ws` in order. Only
   * the nodes of grounded entries change, and every node keeps its kind.
   */
  function Braked(ns: seq<Node>, ws: seq<EscWheel>, angle: real, intensity: real, maxBrakeTorque: real)
    : (r: seq<Node>)
    requires WheelsInChain(ns, ws)
    ensures |r| == |ns|
    ensures forall k :: 0 <= k < |ns| ==> r[k].kind.WheelEnd? == ns[k].kind.WheelEnd?
    ensures forall k :: 0 <= k < |ns| && !GroundedEntryFor(ws, k) ==> r[k] == ns[k]
    decreases |ws|
  {
    if ws == [] then ns
    else
      var front := ws[..|ws| - 1];
      var prev := Braked(ns, front, angle, intensity, maxBrakeTorque);
      assert forall j :: 0 <= j < |front| ==> front[j] == ws[j];
      BrakeOne(prev, ws[|ws| - 1], angle, intensity, maxBrakeTorque)
  }

  /**
   * With each wheel listed once, every grounded wheel ends with exactly one
   * `AddBrakeTorque` of its correction applied to its old brake torque.
   */
  lemma {:induction false} BrakedAddsEachCorrectionOnce(ns: seq<Node>, ws: seq<EscWheel>, angle: real,
                                                        intensity: real, maxBrakeTorque: real, j: nat)
    requires WheelsInChain(ns, ws)
    requires forall a, b :: 0 <= a < b < |ws| ==> ws[a].node != ws[b].node
    requires j < |ws| && ws[j].grounded
    ensures var r := Braked(ns, ws, angle, intensity, maxBrakeTorque);
            var old_ := ns[ws[j].node].kind.wheel;
            r[ws[j].node].kind.wheel ==
              old_.(brakeTorque := BrakeTorqueAfterAdd(old_.brakeTorque, Correction(angle, ws[j].worldX, intensity),
                                                       maxBrakeTorque))
    decreases |ws|
  {
    var front := ws[..|ws| - 1];
    var prev := Braked(ns, front, angle, intensity, maxBrakeTorque);
    var k := ws[j].node;
    if j == |ws| - 1 {
      assert forall i :: 0 <= i < |front| ==> front[i] == ws[i] && front[i].node != k;
      assert prev[k] == ns[k];
    } else {
      assert front[j] == ws[j];
      BrakedAddsEachCorrectionOnce(ns, front, angle, intensity, maxBrakeTorque, j);
      assert ws[|ws| - 1].node != k;
    }
  }

  /** The loop's step: one more entry is one more `BrakeOne`. */
  lemma BrakedStep(ns: seq<Node>, ws: seq<EscWheel>, angle: real, intensity: real, maxBrakeTorque: real, k: nat)
    requires WheelsInChain(ns, ws) && k < |ws|
    ensures WheelsInChain(ns, ws[..k]) && WheelsInChain(ns, ws[..k + 1])
    ensures var prev := Braked(ns, ws[..k], angle, intensity, maxBrakeTorque);
            && ws[k].node < |prev| && prev[ws[k].node].kind.WheelEnd?
            && Braked(ns, ws[..k + 1], angle, intensity, maxBrakeTorque)
               == BrakeOne(prev, ws[k], angle, intensity, maxBrakeTorque)
  {
    assert ws[..k + 1][..k] == ws[..k] && ws[..k + 1][k] == ws[k];
  }

  class ESCModule {
    var intensity: real
    var lowerSpeedThreshold: real

    constructor()
      ensures intensity == 0.4 && lowerSpeedThreshold == 4.0
    {
      intensity := 0.4;
      lowerSpeedThreshold := 4.0;
    }

    /** The loop of `OnFixedUpdate`: `AddBrakeTorque` on each grounded wheel, in list order. */
    method BrakeWheels(drivetrain: Drivetrain, wheels: seq<EscWheel>, angle: real, maxBrakeTorque: real)
      requires WheelsInChain(drivetrain.nodes[..], wheels)
      modifies drivetrain.nodes
      ensures drivetrain.nodes[..] == Braked(old(drivetrain.nodes[..]), wheels, angle, intensity, maxBrakeTorque)
    {
      ghost var ns0 := drivetrain.nodes[..];
      for k := 0 to |wheels|
        invariant drivetrain.nodes[..] == Braked(ns0, wheels[..k], angle, intensity, maxBrakeTorque)
      {
        BrakedStep(ns0, wheels, angle, intensity, maxBrakeTorque, k);
        var w := wheels[k];
        if !w.grounded {
          continue;
        }
        var additionalBrakeTorque := Correction(angle, w.worldX, intensity);
        drivetrain.AddBrakeTorque(w.node, additionalBrakeTorque, maxBrakeTorque);
      }
      assert wheels[..|wheels|] == wheels;
    }

    /**
     * `OnFixedUpdate`: when the module engages, each grounded wheel in the
     * list gets its correction through `AddBrakeTorque`; otherwise nothing
     * changes.
     */
    method OnFixedUpdate(drivetrain: Drivetrain, wheels: seq<EscWheel>, localVelocityX: real, signedAngle: real,
                         steering: real, revLimiterActive: bool, maxBrakeTorque: real)
      requires WheelsInChain(drivetrain.nodes[..], wheels)
      modifies drivetrain.nodes
      ensures !Engages(localVelocityX, lowerSpeedThreshold, signedAngle, steering, revLimiterActive) ==>
                drivetrain.nodes[..] == old(drivetrain.nodes[..])
      ensures Engages(localVelocityX, lowerSpeedThreshold, signedAngle, steering, revLimiterActive) ==>
                drivetrain.nodes[..] == Braked(old(drivetrain.nodes[..]), wheels, SlipAngle(signedAngle, steering),
                                               intensity, maxBrakeTorque)
    {
      if localVelocityX < lowerSpeedThreshold {
        return;
      }
      var angle := signedAngle;
      angle := angle - steering * 0.5;
      var absAngle := if angle < 0.0 then -angle else angle;
      if revLimiterActive || absAngle < 2.0 {
        return;
      }
      BrakeWheels(drivetrain, wheels, angle, maxBrakeTorque);
    }
  }
}
