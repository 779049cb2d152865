/**
 * `WheelManager`: the registry of the older wheel colliders. `OnStart`
 * replaces the list with the colliders found below the car; `Register` and
 * `UnRegister` keep a separate count beside the list, and every fixed step
 * sums the `Load` of the first `count` wheels.
 */
module WheelManagers {
  import opened Registries
  import opened WheelColliders

  /** The wheels' `Load` values, in list order. */
  function Loads(ws: seq<WheelCollider>): (ls: seq<real>)
    reads ws
    ensures |ls| == |ws|
  {
    seq(|ws|, i requires 0 <= i < |ws| reads ws => ws[i].load)
  }

  /** Loads follow the list through cutting out one wheel. */
  lemma LoadsWithout(ws: seq<WheelCollider>, i: nat)
    requires i < |ws|
    ensures Loads(ws[..i] + ws[i + 1..]) == Loads(ws)[..i] + Loads(ws)[i + 1..]
  {
  }

  class WheelManager {
    var combinedLoad: real
    var wheels: seq<WheelCollider>
    /** `_wheelCount`, kept beside the list rather than read from it. */
    var wheelCount: int

    /** The count matches the list, and no wheel is listed twice. */
    predicate Valid()
      reads this
    {
      wheelCount == |wheels| && NoDuplicates(wheels)
    }

    constructor()
      ensures wheels == [] && wheelCount == 0 && combinedLoad == 0.0
      ensures Valid()
    {
      wheels := [];
      wheelCount := 0;
      combinedLoad := 0.0;
    }

    /** `OnStart`: the discovered wheels become the list, and the count its length. */
    method OnStart(discovered: seq<WheelCollider>)
      modifies this`wheels, this`wheelCount
      ensures wheels == discovered && wheelCount == |discovered|
      ensures NoDuplicates(discovered) ==> Valid()
    {
      wheels := discovered;
      wheelCount := |wheels|;
    }

    /**
     * `OnFixedUpdate`: the sum of `Load` over the first `wheelCount` wheels
     * (none when the count is negative). Indexing past the list's end throws,
     * so the count may not exceed the list.
     */
    method OnFixedUpdate()
      requires wheelCount <= |wheels|
      modifies this`combinedLoad
      ensures combinedLoad == Sum(Loads(wheels[..if wheelCount < 0 then 0 else wheelCount]))
      ensures Valid() ==> combinedLoad == Sum(Loads(wheels))
    {
      combinedLoad := 0.0;
      var i := 0;
      while i < wheelCount
        invariant 0 <= i && (if wheelCount < 0 then i == 0 else i <= wheelCount)
        invariant i <= |wheels|
        invariant combinedLoad == Sum(Loads(wheels[..i]))
      {
        var wheel := wheels[i];
        assert Loads(wheels[..i + 1])[..i] == Loads(wheels[..i]);
        combinedLoad := combinedLoad + wheel.load;
        i := i + 1;
      }
      assert wheels[..|wheels|] == wheels;
    }

    /** `Register`: append a wheel that is not listed yet and count it; a listed wheel changes nothing. */
    method Register(wheel: WheelCollider)
      modifies this`wheels, this`wheelCount
      ensures wheel in wheels
      ensures old(wheel in wheels) ==> wheels == old(wheels) && wheelCount == old(wheelCount)
      ensures old(wheel !in wheels) ==> wheels == old(wheels) + [wheel] && wheelCount == old(wheelCount) + 1
      ensures old(Valid()) ==> Valid()
    {
      if wheel !in wheels {
        if Valid() {
          AppendDistinct(wheels, wheel);
        }
        wheels := wheels + [wheel];
        wheelCount := wheelCount + 1;
      }
    }

    /**
     * `UnRegister`: remove a listed wheel and uncount it, taking its load out
     * of the list's total; an absent wheel changes nothing.
     */
    method UnRegister(wheel: WheelCollider)
      modifies this`wheels, this`wheelCount
      ensures wheels == RemoveFirst(old(wheels), wheel)
      ensures wheelCount == if old(wheel in wheels) then old(wheelCount) - 1 else old(wheelCount)
      ensures old(wheel in wheels) ==> Sum(Loads(wheels)) == old(Sum(Loads(wheels))) - wheel.load
      ensures old(Valid()) ==> Valid() && wheel !in wheels
    {
      RemoveFirstCutsAtIndex(wheels, wheel);
      if wheel in wheels {
        var i := IndexOf(wheels, wheel);
        LoadsWithout(wheels, i);
        SumWithout(Loads(wheels), i);
        if Valid() {
          RemoveFirstFromDistinct(wheels, wheel);
        }
        wheels := RemoveFirst(wheels, wheel);
        wheelCount := wheelCount - 1;
      }
    }
  }
}
