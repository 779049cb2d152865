/**
 * The drivetrain as a chain of `PowertrainComponent` nodes. Every node sits in
 * one array; a node's `Output` is the index of the next node. A node ends the
 * chain when its `OutputNameHash` is 0, and a `WheelComponent` always ends it.
 *
 * The three chain operations (`QueryInertia`, `QueryAngularVelocity`,
 * `ForwardStep`) recurse down the links. They are specified by functions over
 * `seq<Node>` that return the rewritten nodes together with the result. A ghost
 * `rank` that strictly decreases along every link witnesses that the chain is
 * acyclic; the source itself would recurse forever on a cycle.
 */
module Powertrain {
  import opened Common
  import opened WheelComponents

  /** A plain component, or a wheel with the values `OnStart` cached from it. */
  datatype NodeKind =
    | Shaft
    | WheelEnd(wheel: WheelState, initialRollingResistance: real, initialWheelInertia: real)

  datatype Node = Node(
    kind: NodeKind,
    inertia: real,
    input: Option<nat>,
    inputNameHash: int,
    output: Option<nat>,
    outputNameHash: int,
    inputTorque: real,
    outputTorque: real,
    inputAngularVelocity: real,
    outputAngularVelocity: real,
    inputInertia: real,
    outputInertia: real,
    damage: real)

  /** Node `n`, a wheel, with its wheel state replaced by `w`; the cached values stay. */
  function WithWheel(n: Node, w: WheelState): (r: Node)
    requires n.kind.WheelEnd?
    ensures r.kind.WheelEnd? && r.kind.wheel == w
  {
    n.(kind := WheelEnd(w, n.kind.initialRollingResistance, n.kind.initialWheelInertia))
  }

  /** A fresh plain component: `Inertia` defaults to 0.05 and no links are set. */
  function NewShaft(): (n: Node)
    ensures n.kind.Shaft? && n.inertia == 0.05 && n.output.None? && n.outputNameHash == 0
  {
    Node(Shaft, 0.05, None, 0, None, 0, 0.0, 0.0, 0.0, 0.0, 0.0, 0.0, 0.0)
  }

  /** The node reached from `i`, or None where the chain ends at `i`. */
  function Next(ns: seq<Node>, i: nat): Option<nat>
    requires i < |ns|
  {
    if ns[i].kind.WheelEnd? || ns[i].outputNameHash == 0 then None else ns[i].output
  }

  /**
   * Every link leads to a node of the array, and `rank` strictly decreases
   * along each one: following `Output` always stops.
   */
  ghost predicate Ranked(ns: seq<Node>, rank: seq<nat>)
  {
    |rank| == |ns|
    && forall i :: 0 <= i < |ns| && !ns[i].kind.WheelEnd? && ns[i].outputNameHash != 0 ==>
         ns[i].output.Some? && ns[i].output.value < |ns| && rank[ns[i].output.value] < rank[i]
  }

  /** Same link structure: same kinds of node, same outputs and output hashes. */
  ghost predicate SameLinks(a: seq<Node>, b: seq<Node>)
  {
    |a| == |b|
    && forall k :: 0 <= k < |a| ==>
         a[k].kind.WheelEnd? == b[k].kind.WheelEnd? && a[k].output == b[k].output
         && a[k].outputNameHash == b[k].outputNameHash
  }

  lemma RankedSameLinks(a: seq<Node>, b: seq<Node>, rank: seq<nat>)
    requires Ranked(a, rank) && SameLinks(a, b)
    ensures Ranked(b, rank)
  {
  }

  /** The nodes visited from `i` to the end of the chain, `i` first. */
  ghost function Path(ns: seq<Node>, i: nat, rank: seq<nat>): (p: seq<nat>)
    requires i < |ns| && Ranked(ns, rank)
    ensures |p| >= 1 && p[0] == i
    ensures forall k :: 0 <= k < |p| ==> p[k] < |ns|
    decreases rank[i]
  {
    match Next(ns, i)
    case None => [i]
    case Some(j) => [i] + Path(ns, j, rank)
  }

  /** Sum of the `Inertia` of the listed nodes. */
  ghost function SumInertia(ns: seq<Node>, p: seq<nat>): real
    requires forall k :: 0 <= k < |p| ==> p[k] < |ns|
  {
    if p == [] then 0.0 else ns[p[0]].inertia + SumInertia(ns, p[1..])
  }

  /** What the last node of a chain answers to `QueryInertia` on its own. */
  function OwnInertia(n: Node, timeDelta: real, inchToMeter: real -> real): real
  {
    match n.kind
    case WheelEnd(w, _, _) => WheelQueryInertia(w, timeDelta, inchToMeter)
    case Shaft => n.inertia
  }

  // ---------------------------------------------------------------------------
  // QueryInertia

  /** `QueryInertia` on node `i` (it writes nothing). */
  function QueryInertiaOf(ns: seq<Node>, i: nat, timeDelta: real, inchToMeter: real -> real,
                          ghost rank: seq<nat>): real
    requires i < |ns| && Ranked(ns, rank)
    decreases rank[i]
  {
    match Next(ns, i)
    case None => OwnInertia(ns[i], timeDelta, inchToMeter)
    case Some(j) => ns[i].inertia + QueryInertiaOf(ns, j, timeDelta, inchToMeter, rank)
  }

  /**
   * `QueryInertia` adds up `Inertia` along the chain; the last node contributes
   * its own answer (its `Inertia`, or a wheel's inertia estimate).
   */
  lemma {:induction false} QueryInertiaIsSum(ns: seq<Node>, i: nat, timeDelta: real, inchToMeter: real -> real,
                                             rank: seq<nat>)
    requires i < |ns| && Ranked(ns, rank)
    ensures var p := Path(ns, i, rank);
            QueryInertiaOf(ns, i, timeDelta, inchToMeter, rank)
            == SumInertia(ns, p[..|p| - 1]) + OwnInertia(ns[p[|p| - 1]], timeDelta, inchToMeter)
    decreases rank[i]
  {
    var p := Path(ns, i, rank);
    match Next(ns, i)
    case None =>
      assert p == [i];
      assert p[..0] == [];
    case Some(j) =>
      QueryInertiaIsSum(ns, j, timeDelta, inchToMeter, rank);
      var q := Path(ns, j, rank);
      assert p == [i] + q;
      assert p[..|p| - 1] == [i] + q[..|q| - 1];
      assert ([i] + q[..|q| - 1])[1..] == q[..|q| - 1];
  }

  /** On a chain made only of plain components the answer is exactly the sum of their inertias. */
  lemma ShaftChainInertiaIsSum(ns: seq<Node>, i: nat, timeDelta: real, inchToMeter: real -> real, rank: seq<nat>)
    requires i < |ns| && Ranked(ns, rank)
    ensures (forall k :: 0 <= k < |ns| ==> ns[k].kind.Shaft?) ==>
              QueryInertiaOf(ns, i, timeDelta, inchToMeter, rank) == SumInertia(ns, Path(ns, i, rank))
  {
    QueryInertiaIsSum(ns, i, timeDelta, inchToMeter, rank);
    var p := Path(ns, i, rank);
    SumInertiaSnoc(ns, p);
  }

  lemma {:induction false} SumInertiaSnoc(ns: seq<Node>, p: seq<nat>)
    requires |p| >= 1 && forall k :: 0 <= k < |p| ==> p[k] < |ns|
    ensures SumInertia(ns, p) == SumInertia(ns, p[..|p| - 1]) + ns[p[|p| - 1]].inertia
  {
    if |p| > 1 {
      SumInertiaSnoc(ns, p[1..]);
      assert p[1..][..|p| - 2] == p[..|p| - 1][1..];
    }
  }

  // ---------------------------------------------------------------------------
  // QueryAngularVelocity

  /**
   * `QueryAngularVelocity(av)` on node `i`: the new nodes and the answer. A wheel
   * ignores `av` and answers its own angular velocity.
   */
  function QueryAngularVelocityOf(ns: seq<Node>, i: nat, av: real, ghost rank: seq<nat>): (r: (seq<Node>, real))
    requires i < |ns| && Ranked(ns, rank)
    ensures |r.0| == |ns|
    decreases rank[i]
  {
    match ns[i].kind
    case WheelEnd(w, _, _) =>
      (ns[i := ns[i].(inputAngularVelocity := w.angularVelocity, outputAngularVelocity := w.angularVelocity)],
       w.angularVelocity)
    case Shaft =>
      if ns[i].outputNameHash == 0 then
        (ns[i := ns[i].(inputAngularVelocity := av)], av)
      else
        var ns' := ns[i := ns[i].(inputAngularVelocity := av, outputAngularVelocity := av)];
        RankedSameLinks(ns, ns', rank);
        QueryAngularVelocityOf(ns', ns[i].output.value, av, rank)
  }

  /** What the last node of the chain answers: a wheel's velocity, else the value passed in. */
  function TerminalVelocity(n: Node, av: real): real
  {
    match n.kind
    case WheelEnd(w, _, _) => w.angularVelocity
    case Shaft => av
  }

  /**
   * `QueryAngularVelocity` leaves the link structure alone and writes only the
   * nodes on the chain.
   */
  lemma {:induction false} QueryAngularVelocityFrame(ns: seq<Node>, i: nat, av: real, rank: seq<nat>)
    requires i < |ns| && Ranked(ns, rank)
    ensures SameLinks(ns, QueryAngularVelocityOf(ns, i, av, rank).0)
    ensures forall k :: 0 <= k < |ns| && k !in Path(ns, i, rank) ==>
              QueryAngularVelocityOf(ns, i, av, rank).0[k] == ns[k]
    decreases rank[i]
  {
    if ns[i].kind.Shaft? && ns[i].outputNameHash != 0 {
      var j := ns[i].output.value;
      var ns1 := ns[i := ns[i].(inputAngularVelocity := av, outputAngularVelocity := av)];
      RankedSameLinks(ns, ns1, rank);
      QueryAngularVelocityFrame(ns1, j, av, rank);
      PathSameLinks(ns, ns1, j, rank);
      PathStep(ns, i, rank);
    }
  }

  /** Unfolds one plain link of `QueryAngularVelocityOf`. */
  lemma QueryAngularVelocityStep(ns: seq<Node>, i: nat, av: real, rank: seq<nat>)
    requires i < |ns| && Ranked(ns, rank) && Next(ns, i).Some?
    ensures var ns1 := ns[i := ns[i].(inputAngularVelocity := av, outputAngularVelocity := av)];
            && Ranked(ns1, rank) && SameLinks(ns, ns1)
            && QueryAngularVelocityOf(ns, i, av, rank) == QueryAngularVelocityOf(ns1, Next(ns, i).value, av, rank)
            && Path(ns, i, rank) == [i] + Path(ns1, Next(ns, i).value, rank)
            && i !in Path(ns1, Next(ns, i).value, rank)
  {
    var ns1 := ns[i := ns[i].(inputAngularVelocity := av, outputAngularVelocity := av)];
    RankedSameLinks(ns, ns1, rank);
    PathSameLinks(ns, ns1, Next(ns, i).value, rank);
    PathStep(ns, i, rank);
  }

  /** `QueryAngularVelocity` answers what the last node of the chain answers. */
  lemma {:induction false} QueryAngularVelocityAnswer(ns: seq<Node>, i: nat, av: real, rank: seq<nat>)
    requires i < |ns| && Ranked(ns, rank)
    ensures var p := Path(ns, i, rank);
            QueryAngularVelocityOf(ns, i, av, rank).1 == TerminalVelocity(ns[p[|p| - 1]], av)
    decreases rank[i]
  {
    var p := Path(ns, i, rank);
    if Next(ns, i).None? {
      assert p == [i];
    } else {
      var j := Next(ns, i).value;
      var ns1 := ns[i := ns[i].(inputAngularVelocity := av, outputAngularVelocity := av)];
      QueryAngularVelocityStep(ns, i, av, rank);
      QueryAngularVelocityAnswer(ns1, j, av, rank);
      var q := Path(ns1, j, rank);
      assert p[|p| - 1] == q[|q| - 1];
      assert ns1[q[|q| - 1]] == ns[q[|q| - 1]];
    }
  }

  /** Every plain node on the chain records the value passed in as its input velocity. */
  lemma {:induction false} QueryAngularVelocityPassesThrough(ns: seq<Node>, i: nat, av: real, rank: seq<nat>)
    requires i < |ns| && Ranked(ns, rank)
    ensures forall k :: k in Path(ns, i, rank) && ns[k].kind.Shaft? ==>
              QueryAngularVelocityOf(ns, i, av, rank).0[k].inputAngularVelocity == av
    decreases rank[i]
  {
    if Next(ns, i).Some? {
      var j := Next(ns, i).value;
      var ns1 := ns[i := ns[i].(inputAngularVelocity := av, outputAngularVelocity := av)];
      QueryAngularVelocityStep(ns, i, av, rank);
      QueryAngularVelocityPassesThrough(ns1, j, av, rank);
      QueryAngularVelocityFrame(ns1, j, av, rank);
    }
  }

  /** The path only depends on the link structure. */
  lemma {:induction false} PathSameLinks(a: seq<Node>, b: seq<Node>, i: nat, rank: seq<nat>)
    requires i < |a| && Ranked(a, rank) && SameLinks(a, b)
    ensures Ranked(b, rank) && Path(a, i, rank) == Path(b, i, rank)
    decreases rank[i]
  {
    RankedSameLinks(a, b, rank);
    assert Next(a, i) == Next(b, i);
    if Next(a, i).Some? {
      PathSameLinks(a, b, Next(a, i).value, rank);
    }
  }

  /** Ranks strictly decrease along a path. */
  lemma {:induction false} PathRanks(ns: seq<Node>, i: nat, rank: seq<nat>)
    requires i < |ns| && Ranked(ns, rank)
    ensures forall k :: 1 <= k < |Path(ns, i, rank)| ==> rank[Path(ns, i, rank)[k]] < rank[i]
    decreases rank[i]
  {
    if Next(ns, i).Some? {
      var j := Next(ns, i).value;
      assert rank[j] < rank[i];
      PathRanks(ns, j, rank);
      var p := Path(ns, i, rank);
      var q := Path(ns, j, rank);
      assert p == [i] + q;
      forall k | 1 <= k < |p| ensures rank[p[k]] < rank[i] {
        assert p[k] == q[k - 1];
        if k > 1 {
          assert rank[q[k - 1]] < rank[j];
        }
      }
    }
  }

  /** One step along the chain: the path from `i` is `i` then the path from the next node, which never returns to `i`. */
  lemma PathStep(ns: seq<Node>, i: nat, rank: seq<nat>)
    requires i < |ns| && Ranked(ns, rank) && Next(ns, i).Some?
    ensures Next(ns, i).value < |ns|
    ensures Path(ns, i, rank) == [i] + Path(ns, Next(ns, i).value, rank)
    ensures i !in Path(ns, Next(ns, i).value, rank)
  {
    var j := Next(ns, i).value;
    var p := Path(ns, i, rank);
    var q := Path(ns, j, rank);
    assert p == [i] + q;
    PathRanks(ns, i, rank);
    forall m | 0 <= m < |q| ensures q[m] != i {
      assert q[m] == p[m + 1];
      assert rank[p[m + 1]] < rank[i];
    }
  }

  // ---------------------------------------------------------------------------
  // ForwardStep

  /**
   * `ForwardStep(torque, inertiaSum)` on node `i`: the new nodes and the answer.
   * A wheel takes the torque as motor torque and its cached inertia plus the
   * accumulated inertia as its inertia, lets the wheel update itself
   * (`wheelUpdate`, outside this model), and answers |CounterTorque|.
   */
  function ForwardStepOf(ns: seq<Node>, i: nat, torque: real, inertiaSum: real,
                         wheelUpdate: WheelState -> WheelState, ghost rank: seq<nat>): (r: (seq<Node>, real))
    requires i < |ns| && Ranked(ns, rank)
    ensures |r.0| == |ns|
    decreases rank[i]
  {
    var n := ns[i].(inputTorque := torque, inputInertia := inertiaSum);
    match n.kind
    case WheelEnd(w, rr0, inertia0) =>
      var outInertia := inertia0 + inertiaSum;
      var w' := wheelUpdate(w.(motorTorque := torque, inertia := outInertia, autoSimulate := false));
      (ns[i := n.(outputTorque := torque, outputInertia := outInertia, kind := WheelEnd(w', rr0, inertia0))],
       Abs(w'.counterTorque))
    case Shaft =>
      if n.outputNameHash == 0 then
        (ns[i := n], torque)
      else
        var ns' := ns[i := n.(outputTorque := torque, outputInertia := inertiaSum + n.inertia)];
        RankedSameLinks(ns, ns', rank);
        ForwardStepOf(ns', n.output.value, torque, inertiaSum + n.inertia, wheelUpdate, rank)
  }

  /** `ForwardStep` leaves the link structure alone and writes only the nodes on the chain. */
  lemma {:induction false} ForwardStepFrame(ns: seq<Node>, i: nat, torque: real, inertiaSum: real,
                                            wheelUpdate: WheelState -> WheelState, rank: seq<nat>)
    requires i < |ns| && Ranked(ns, rank)
    ensures SameLinks(ns, ForwardStepOf(ns, i, torque, inertiaSum, wheelUpdate, rank).0)
    ensures forall k :: 0 <= k < |ns| && k !in Path(ns, i, rank) ==>
              ForwardStepOf(ns, i, torque, inertiaSum, wheelUpdate, rank).0[k] == ns[k]
    decreases rank[i]
  {
    if Next(ns, i).Some? {
      var n := ns[i].(inputTorque := torque, inputInertia := inertiaSum);
      var ns1 := ns[i := n.(outputTorque := torque, outputInertia := inertiaSum + n.inertia)];
      RankedSameLinks(ns, ns1, rank);
      ForwardStepFrame(ns1, Next(ns, i).value, torque, inertiaSum + n.inertia, wheelUpdate, rank);
      PathSameLinks(ns, ns1, Next(ns, i).value, rank);
      PathStep(ns, i, rank);
    }
  }

  /** Unfolds one plain link of `ForwardStepOf`. */
  lemma ForwardStepStep(ns: seq<Node>, i: nat, torque: real, inertiaSum: real,
                        wheelUpdate: WheelState -> WheelState, rank: seq<nat>)
    requires i < |ns| && Ranked(ns, rank) && Next(ns, i).Some?
    ensures var ns1 := ns[i := ns[i].(inputTorque := torque, inputInertia := inertiaSum,
                                      outputTorque := torque, outputInertia := inertiaSum + ns[i].inertia)];
            && Ranked(ns1, rank) && SameLinks(ns, ns1)
            && ForwardStepOf(ns, i, torque, inertiaSum, wheelUpdate, rank)
               == ForwardStepOf(ns1, Next(ns, i).value, torque, inertiaSum + ns[i].inertia, wheelUpdate, rank)
            && Path(ns, i, rank) == [i] + Path(ns1, Next(ns, i).value, rank)
            && i !in Path(ns1, Next(ns, i).value, rank)
  {
    var ns1 := ns[i := ns[i].(inputTorque := torque, inputInertia := inertiaSum,
                              outputTorque := torque, outputInertia := inertiaSum + ns[i].inertia)];
    RankedSameLinks(ns, ns1, rank);
    PathSameLinks(ns, ns1, Next(ns, i).value, rank);
    PathStep(ns, i, rank);
  }

  /** A plain last node answers the torque itself; a wheel answers a value that is never negative. */
  lemma {:induction false} ForwardStepAnswer(ns: seq<Node>, i: nat, torque: real, inertiaSum: real,
                                             wheelUpdate: WheelState -> WheelState, rank: seq<nat>)
    requires i < |ns| && Ranked(ns, rank)
    ensures var p := Path(ns, i, rank);
            var r := ForwardStepOf(ns, i, torque, inertiaSum, wheelUpdate, rank).1;
            (ns[p[|p| - 1]].kind.Shaft? ==> r == torque) && (ns[p[|p| - 1]].kind.WheelEnd? ==> r >= 0.0)
    decreases rank[i]
  {
    var p := Path(ns, i, rank);
    if Next(ns, i).None? {
      assert p == [i];
    } else {
      var j := Next(ns, i).value;
      var ns1 := ns[i := ns[i].(inputTorque := torque, inputInertia := inertiaSum,
                                outputTorque := torque, outputInertia := inertiaSum + ns[i].inertia)];
      ForwardStepStep(ns, i, torque, inertiaSum, wheelUpdate, rank);
      ForwardStepAnswer(ns1, j, torque, inertiaSum + ns[i].inertia, wheelUpdate, rank);
      var q := Path(ns1, j, rank);
      assert p[|p| - 1] == q[|q| - 1];
      assert ns1[q[|q| - 1]] == ns[q[|q| - 1]];
    }
  }

  /** `ForwardStep` hands the same torque to every node on the chain. */
  lemma {:induction false} ForwardStepTorque(ns: seq<Node>, i: nat, torque: real, inertiaSum: real,
                                             wheelUpdate: WheelState -> WheelState, rank: seq<nat>)
    requires i < |ns| && Ranked(ns, rank)
    ensures forall k :: k in Path(ns, i, rank) ==>
              ForwardStepOf(ns, i, torque, inertiaSum, wheelUpdate, rank).0[k].inputTorque == torque
    decreases rank[i]
  {
    if Next(ns, i).Some? {
      var j := Next(ns, i).value;
      var ns1 := ns[i := ns[i].(inputTorque := torque, inputInertia := inertiaSum,
                                outputTorque := torque, outputInertia := inertiaSum + ns[i].inertia)];
      ForwardStepStep(ns, i, torque, inertiaSum, wheelUpdate, rank);
      ForwardStepTorque(ns1, j, torque, inertiaSum + ns[i].inertia, wheelUpdate, rank);
      ForwardStepFrame(ns1, j, torque, inertiaSum + ns[i].inertia, wheelUpdate, rank);
    }
  }

  /**
   * The last node of the chain receives `inertiaSum` plus the inertias of all
   * nodes before it; a wheel there takes its own cached inertia on top as its
   * output inertia.
   */
  lemma {:induction false} ForwardStepAccumulates(ns: seq<Node>, i: nat, torque: real, inertiaSum: real,
                                                  wheelUpdate: WheelState -> WheelState, rank: seq<nat>)
    requires i < |ns| && Ranked(ns, rank)
    ensures var ns' := ForwardStepOf(ns, i, torque, inertiaSum, wheelUpdate, rank).0;
            var p := Path(ns, i, rank);
            var last := p[|p| - 1];
            && ns'[last].inputInertia == inertiaSum + SumInertia(ns, p[..|p| - 1])
            && (ns[last].kind.WheelEnd? ==>
                  ns'[last].outputInertia == ns[last].kind.initialWheelInertia + ns'[last].inputInertia)
    decreases rank[i]
  {
    var p := Path(ns, i, rank);
    if Next(ns, i).None? {
      assert p == [i];
      assert p[..0] == [];
    } else {
      var j := Next(ns, i).value;
      var ns1 := ns[i := ns[i].(inputTorque := torque, inputInertia := inertiaSum,
                                outputTorque := torque, outputInertia := inertiaSum + ns[i].inertia)];
      ForwardStepStep(ns, i, torque, inertiaSum, wheelUpdate, rank);
      ForwardStepAccumulates(ns1, j, torque, inertiaSum + ns[i].inertia, wheelUpdate, rank);
      var q := Path(ns1, j, rank);
      var front := q[..|q| - 1];
      assert p[|p| - 1] == q[|q| - 1];
      assert p[..|p| - 1] == [i] + front;
      assert ([i] + front)[1..] == front;
      assert SumInertia(ns, p[..|p| - 1]) == ns[i].inertia + SumInertia(ns, front);
      assert i !in front;
      SumInertiaSameNodes(ns, ns1, front, i);
      assert ns1[q[|q| - 1]] == ns[q[|q| - 1]];
    }
  }

  /** `ForwardStep` writes torques and inertias only: no node's angular velocities change. */
  lemma {:induction false} ForwardStepKeepsVelocities(ns: seq<Node>, i: nat, torque: real, inertiaSum: real,
                                                      wheelUpdate: WheelState -> WheelState, rank: seq<nat>)
    requires i < |ns| && Ranked(ns, rank)
    ensures var ns' := ForwardStepOf(ns, i, torque, inertiaSum, wheelUpdate, rank).0;
            forall k :: 0 <= k < |ns| ==>
              ns'[k].outputAngularVelocity == ns[k].outputAngularVelocity
              && ns'[k].inputAngularVelocity == ns[k].inputAngularVelocity
    decreases rank[i]
  {
    if Next(ns, i).Some? {
      var ns1 := ns[i := ns[i].(inputTorque := torque, inputInertia := inertiaSum,
                                outputTorque := torque, outputInertia := inertiaSum + ns[i].inertia)];
      ForwardStepStep(ns, i, torque, inertiaSum, wheelUpdate, rank);
      ForwardStepKeepsVelocities(ns1, Next(ns, i).value, torque, inertiaSum + ns[i].inertia, wheelUpdate, rank);
    }
  }

  /** Changing a node that is not listed does not change the sum over the list. */
  lemma {:induction false} SumInertiaSameNodes(a: seq<Node>, b: seq<Node>, p: seq<nat>, changed: nat)
    requires |a| == |b| && forall k :: 0 <= k < |p| ==> p[k] < |a|
    requires changed !in p
    requires forall k :: 0 <= k < |a| && k != changed ==> a[k] == b[k]
    ensures SumInertia(a, p) == SumInertia(b, p)
  {
    if p != [] {
      SumInertiaSameNodes(a, b, p[1..], changed);
    }
  }

  // ---------------------------------------------------------------------------
  // Power and torque conversions

  /** `TorqueToPowerInKW(angularVelocity, torque)`: torque·ω in kW. */
  function TorqueToPowerInKW(angularVelocity: real, torque: real): real
  {
    torque * angularVelocity / 1000.0
  }

  /** `GetPowerInKW(torque, angularVelocity)`: the same quantity, arguments swapped. */
  function GetPowerInKW(torque: real, angularVelocity: real): (r: real)
    ensures r == TorqueToPowerInKW(angularVelocity, torque)
  {
    torque * angularVelocity / 1000.0
  }

  /**
   * `PowerInKWToTorque`: power divided by ω, except that for |ω| < 1 it divides
   * by 1 (the test `absAngVel > -1f` always holds).
   */
  function PowerInKWToTorque(angularVelocity: real, powerInKW: real): real
  {
    var powerInWatts := powerInKW * 1000.0;
    var absAngVel := Abs(angularVelocity);
    var clamped := if absAngVel > -1.0 && absAngVel < 1.0 then 1.0 else angularVelocity;
    powerInWatts / clamped
  }

  /** For |ω| >= 1 the two conversions are inverse to each other. */
  lemma PowerTorqueRoundTrip(angularVelocity: real, torque: real)
    requires Abs(angularVelocity) >= 1.0
    ensures PowerInKWToTorque(angularVelocity, TorqueToPowerInKW(angularVelocity, torque)) == torque
  {
    var p := TorqueToPowerInKW(angularVelocity, torque);
    assert p * 1000.0 == torque * angularVelocity;
  }

  /** For |ω| < 1 the torque is power·1000 whatever ω is. */
  lemma PowerToTorqueNearStandstill(angularVelocity: real, powerInKW: real)
    requires Abs(angularVelocity) < 1.0
    ensures PowerInKWToTorque(angularVelocity, powerInKW) == powerInKW * 1000.0
  {
  }

  // ---------------------------------------------------------------------------
  // The chain as objects

  class Drivetrain {
    var nodes: array<Node>

    constructor (initial: seq<Node>)
      ensures nodes[..] == initial && fresh(nodes)
    {
      nodes := new Node[|initial|](i requires 0 <= i < |initial| => initial[i]);
    }

    /** The `Input` setter of node `i`: null or self leaves no link and hash 0. */
    method SetInput(i: nat, value: Option<nat>, nameHash: nat -> int)
      requires i < nodes.Length
      modifies nodes
      ensures value.None? || value == Some(i) ==>
                nodes[..] == old(nodes[..])[i := old(nodes[i]).(input := None, inputNameHash := 0)]
      ensures value.Some? && value != Some(i) ==>
                nodes[..] == old(nodes[..])[i := old(nodes[i]).(input := value, inputNameHash := nameHash(value.value))]
    {
      if value.None? || value == Some(i) {
        nodes[i] := nodes[i].(input := None, inputNameHash := 0);
      } else {
        nodes[i] := nodes[i].(input := value, inputNameHash := nameHash(value.value));
      }
    }

    /**
     * The `Output` setter of node `i`: self is refused (no output, hash 0);
     * another node is linked and gets `i` as its input; null unlinks.
     */
    method SetOutput(i: nat, value: Option<nat>, nameHash: nat -> int)
      requires i < nodes.Length
      requires value.Some? ==> value.value < nodes.Length
      modifies nodes
      ensures value == Some(i) ==>
                nodes[..] == old(nodes[..])[i := old(nodes[i]).(output := None, outputNameHash := 0)]
      ensures value.None? ==>
                nodes[..] == old(nodes[..])[i := old(nodes[i]).(output := None, outputNameHash := 0)]
      ensures value.Some? && value != Some(i) ==>
                var j := value.value;
                nodes[..] == old(nodes[..])[j := old(nodes[j]).(input := Some(i), inputNameHash := nameHash(i))]
                                           [i := old(nodes[i]).(output := value, outputNameHash := nameHash(j))]
    {
      if value == Some(i) {
        nodes[i] := nodes[i].(outputNameHash := 0, output := None);
      } else {
        nodes[i] := nodes[i].(output := value);
        if value.Some? {
          SetInput(value.value, Some(i), nameHash);
          nodes[i] := nodes[i].(outputNameHash := nameHash(value.value));
        } else {
          nodes[i] := nodes[i].(outputNameHash := 0);
        }
      }
    }

    /** The `Damage` setter: the stored value is clamped to [0, 1]. */
    method SetDamage(i: nat, value: real)
      requires i < nodes.Length
      modifies nodes
      ensures nodes[..] == old(nodes[..])[i := old(nodes[i]).(damage := Clamp(value, 0.0, 1.0))]
      ensures 0.0 <= nodes[i].damage <= 1.0
    {
      nodes[i] := nodes[i].(damage := Clamp(value, 0.0, 1.0));
    }

    /** `QueryInertia` on node `i`. */
    function QueryInertia(i: nat, timeDelta: real, inchToMeter: real -> real, ghost rank: seq<nat>): (r: real)
      requires i < nodes.Length && Ranked(nodes[..], rank)
      reads this, nodes
      ensures (forall k :: 0 <= k < nodes.Length ==> nodes[k].kind.Shaft?) ==>
                r == SumInertia(nodes[..], Path(nodes[..], i, rank))
    {
      ShaftChainInertiaIsSum(nodes[..], i, timeDelta, inchToMeter, rank);
      QueryInertiaOf(nodes[..], i, timeDelta, inchToMeter, rank)
    }

    /** `QueryAngularVelocity(av)` on node `i`, recursing down the chain. */
    method QueryAngularVelocity(i: nat, av: real, ghost rank: seq<nat>) returns (r: real)
      requires i < nodes.Length && Ranked(nodes[..], rank)
      modifies nodes
      ensures (nodes[..], r) == QueryAngularVelocityOf(old(nodes[..]), i, av, rank)
      decreases rank[i]
    {
      var n := nodes[i];
      match n.kind {
        case WheelEnd(w, _, _) =>
          nodes[i] := n.(inputAngularVelocity := w.angularVelocity, outputAngularVelocity := w.angularVelocity);
          return w.angularVelocity;
        case Shaft =>
          if n.outputNameHash == 0 {
            nodes[i] := n.(inputAngularVelocity := av);
            return av;
          }
          nodes[i] := n.(inputAngularVelocity := av, outputAngularVelocity := av);
          ghost var s1 := nodes[..];
          assert s1 == old(nodes[..])[i := n.(inputAngularVelocity := av, outputAngularVelocity := av)];
          RankedSameLinks(old(nodes[..]), s1, rank);
          r := QueryAngularVelocity(n.output.value, av, rank);
          assert (nodes[..], r) == QueryAngularVelocityOf(s1, n.output.value, av, rank);
      }
    }

    /** `ForwardStep(torque, inertiaSum)` on node `i`, recursing down the chain. */
    method ForwardStep(i: nat, torque: real, inertiaSum: real, wheelUpdate: WheelState -> WheelState,
                       ghost rank: seq<nat>) returns (r: real)
      requires i < nodes.Length && Ranked(nodes[..], rank)
      modifies nodes
      ensures (nodes[..], r) == ForwardStepOf(old(nodes[..]), i, torque, inertiaSum, wheelUpdate, rank)
      decreases rank[i]
    {
      var n := nodes[i].(inputTorque := torque, inputInertia := inertiaSum);
      match n.kind {
        case WheelEnd(w, rr0, inertia0) =>
          var outInertia := inertia0 + inertiaSum;
          var w' := wheelUpdate(w.(motorTorque := torque, inertia := outInertia, autoSimulate := false));
          nodes[i] := n.(outputTorque := torque, outputInertia := outInertia, kind := WheelEnd(w', rr0, inertia0));
          r := Abs(w'.counterTorque);
        case Shaft =>
          if n.outputNameHash == 0 {
            nodes[i] := n;
            return torque;
          }
          nodes[i] := n.(outputTorque := torque, outputInertia := inertiaSum + n.inertia);
          ghost var s1 := nodes[..];
          assert s1 == old(nodes[..])[i := n.(outputTorque := torque, outputInertia := inertiaSum + n.inertia)];
          RankedSameLinks(old(nodes[..]), s1, rank);
          r := ForwardStep(n.output.value, torque, inertiaSum + n.inertia, wheelUpdate, rank);
          assert (nodes[..], r) == ForwardStepOf(s1, n.output.value, torque, inertiaSum + n.inertia, wheelUpdate, rank);
      }
    }

    /** `WheelComponent.OnStart`: remember the wheel's rolling resistance and inertia. */
    method WheelOnStart(i: nat)
      requires i < nodes.Length && nodes[i].kind.WheelEnd?
      modifies nodes
      ensures var w := old(nodes[i]).kind.wheel;
              nodes[..] == old(nodes[..])[i := old(nodes[i]).(kind := WheelEnd(w, w.rollingResistanceTorque, w.inertia))]
    {
      var w := nodes[i].kind.wheel;
      nodes[i] := nodes[i].(kind := WheelEnd(w, w.rollingResistanceTorque, w.inertia));
    }

    /** `WheelComponent.AddBrakeTorque`. */
    method AddBrakeTorque(i: nat, torque: real, maxBrakeTorque: real)
      requires i < nodes.Length && nodes[i].kind.WheelEnd?
      modifies nodes
      ensures var w := old(nodes[i]).kind.wheel;
              nodes[..] == old(nodes[..])[i := WithWheel(old(nodes[i]),
                w.(brakeTorque := BrakeTorqueAfterAdd(w.brakeTorque, torque, maxBrakeTorque)))]
      ensures nodes[i].kind.wheel.brakeTorque >= maxBrakeTorque && nodes[i].kind.wheel.brakeTorque >= 0.0
    {
      var w := nodes[i].kind.wheel;
      var brakeTorque := w.brakeTorque;
      if torque > 0.0 {
        brakeTorque := brakeTorque + torque;
      }
      brakeTorque := Max(brakeTorque, maxBrakeTorque);
      if brakeTorque < 0.0 {
        brakeTorque := 0.0;
      }
      nodes[i] := WithWheel(nodes[i], w.(brakeTorque := brakeTorque));
    }

    /** `ApplyRollingResistanceMultiplier`: the cached initial value times `m`, whatever came before. */
    method ApplyRollingResistanceMultiplier(i: nat, m: real)
      requires i < nodes.Length && nodes[i].kind.WheelEnd?
      modifies nodes
      ensures var n := old(nodes[i]);
              nodes[i] == WithWheel(n, n.kind.wheel.(rollingResistanceTorque := n.kind.initialRollingResistance * m))
      ensures forall k :: 0 <= k < nodes.Length && k != i ==> nodes[k] == old(nodes[k])
    {
      var n := nodes[i];
      nodes[i] := WithWheel(n, n.kind.wheel.(rollingResistanceTorque := n.kind.initialRollingResistance * m));
    }
  }
}
