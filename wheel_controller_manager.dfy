/**
 * `Vehicle.WheelControllerManager`: the registry wheel controllers join when
 * enabled and leave when disabled. It keeps the list of wheels, a separate
 * count of them, and the combined load of the first `count` wheels.
 */
module WheelControllerManagers {
  import opened Registries
  import opened WheelControllers

  /**
   * The wheels' `Load` values, in list order. This and `LoadsWithout` repeat
   * the `WheelManagers` pair on purpose: the two wheel classes are unrelated
   * and share no type that both `load` fields could be read through.
   */
  function Loads(ws: seq<WheelController>): (ls: seq<real>)
    reads ws
    ensures |ls| == |ws|
  {
    seq(|ws|, i requires 0 <= i < |ws| reads ws => ws[i].load)
  }

  /** Loads follow the list through cutting out one wheel. */
  lemma LoadsWithout(ws: seq<WheelController>, i: nat)
    requires i < |ws|
    ensures Loads(ws[..i] + ws[i + 1..]) == Loads(ws)[..i] + Loads(ws)[i + 1..]
  {
  }

  class WheelControllerManager {
    var combinedLoad: real
    var wheels: seq<WheelController>
    /** `_wheelCount`, kept beside the list rather than read from it. */
    var wheelCount: int

    /** The count matches the list, and no wheel is listed twice. */
    predicate Valid()
      reads this
    {
      wheelCount == |wheels| && NoDuplicates(wheels)
    }

    constructor()
      ensures wheels == [] && wheelCount == 0 && combinedLoad == 0.0
      ensures Valid()
    {
      wheels := [];
      wheelCount := 0;
      combinedLoad := 0.0;
    }

    /**
     * `UpdateCombinedLoad`: the sum of `Load` over the first `wheelCount`
     * wheels (none when the count is negative). Indexing past the list's end
     * throws, so the count may not exceed the list.
     */
    method UpdateCombinedLoad()
      requires wheelCount <= |wheels|
      modifies this`combinedLoad
      ensures combinedLoad == Sum(Loads(wheels[..if wheelCount < 0 then 0 else wheelCount]))
      ensures Valid() ==> combinedLoad == Sum(Loads(wheels))
    {
      combinedLoad := 0.0;
      var i := 0;
      while i < wheelCount
        invariant 0 <= i && (if wheelCount < 0 then i == 0 else i <= wheelCount)
        invariant i <= |wheels|
        invariant combinedLoad == Sum(Loads(wheels[..i]))
      {
        var wheel := wheels[i];
        assert Loads(wheels[..i + 1])[..i] == Loads(wheels[..i]);
        combinedLoad := combinedLoad + wheel.load;
        i := i + 1;
      }
      assert wheels[..|wheels|] == wheels;
    }

    /** `OnFixedUpdate`: refresh the combined load. */
    method OnFixedUpdate()
      requires wheelCount <= |wheels|
      modifies this`combinedLoad
      ensures combinedLoad == Sum(Loads(wheels[..if wheelCount < 0 then 0 else wheelCount]))
    {
      UpdateCombinedLoad();
    }

    /** `Register`: append a wheel that is not listed yet and count it; a listed wheel changes nothing. */
    method Register(wheel: WheelController)
      modifies this`wheels, this`wheelCount
      ensures wheel in wheels
      ensures old(wheel in wheels) ==> wheels == old(wheels) && wheelCount == old(wheelCount)
      ensures old(wheel !in wheels) ==> wheels == old(wheels) + [wheel] && wheelCount == old(wheelCount) + 1
      ensures old(Valid()) ==> Valid()
    {
      if wheel !in wheels {
        if Valid() {
          AppendDistinct(wheels, wheel);
        }
        wheels := wheels + [wheel];
        wheelCount := wheelCount + 1;
      }
    }

    /**
     * `Deregister`: remove a listed wheel and uncount it, taking its load out
     * of the list's total; an absent wheel changes nothing.
     */
    method Deregister(wheel: WheelController)
      modifies this`wheels, this`wheelCount
      ensures wheels == RemoveFirst(old(wheels), wheel)
      ensures wheelCount == if old(wheel in wheels) then old(wheelCount) - 1 else old(wheelCount)
      ensures old(wheel in wheels) ==> Sum(Loads(wheels)) == old(Sum(Loads(wheels))) - wheel.load
      ensures old(Valid()) ==> Valid() && wheel !in wheels
    {
      RemoveFirstCutsAtIndex(wheels, wheel);
      if wheel in wheels {
        var i := IndexOf(wheels, wheel);
        LoadsWithout(wheels, i);
        SumWithout(Loads(wheels), i);
        if Valid() {
          RemoveFirstFromDistinct(wheels, wheel);
        }
        wheels := RemoveFirst(wheels, wheel);
        wheelCount := wheelCount - 1;
      }
    }
  }
}
