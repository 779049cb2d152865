/**
 * `WheelTuning`: a tuning piece whose outer slot, hidden body groups and
 * category are fixed by its getters, and what that means for the outfit.
 */
module WheelTunings {
  import opened Common
  import opened CarTunings

  /** A new `WheelTuning`: radius and width default to 1. */
  function NewWheelTuning(id: nat, slotsUnder: Mask, tags: Option<string>,
                          models: Option<map<string, string>>, model: Option<string>): (t: CarTuning)
    ensures t.kind == WheelPiece(1.0, 1.0)
    ensures SlotsOver(t) == SLOT_WHEEL && Category(t) == WheelCategory
  {
    CarTuning(id, WheelPiece(1.0, 1.0), {}, slotsUnder, NoCategory, {}, tags, models, model)
  }

  /** Whatever was assigned to the stored fields, two wheel pieces read the same three getters. */
  lemma WheelGettersIgnoreFields(t: CarTuning, u: CarTuning)
    requires t.kind.WheelPiece? && u.kind.WheelPiece?
    ensures SlotsOver(t) == SlotsOver(u) == SLOT_WHEEL
    ensures HideBody(t) == HideBody(u) == BG_FL + BG_FR + BG_RR + BG_RL
    ensures Category(t) == Category(u) == WheelCategory
  {
  }

  /** Two wheel pieces are never compatible: their outer slots overlap. */
  lemma TwoWheelsClash(a: CarTuning, b: CarTuning)
    requires a.kind.WheelPiece? && b.kind.WheelPiece?
    ensures !CanBeWornWith(a, b) && !CanBeWornWith(b, a)
  {
    assert 2 in SlotsOver(a) * SlotsOver(b);
  }

  /** A list holding a wheel piece hides the four wheel-arch groups rl, rr, fl and fr. */
  lemma WheelHidesArches(list: seq<CarTuning>, k: nat)
    requires k < |list| && list[k].kind.WheelPiece?
    ensures GetBodyGroups(list)[1] == ("rl", 1)
    ensures GetBodyGroups(list)[2] == ("rr", 1)
    ensures GetBodyGroups(list)[3] == ("fl", 1)
    ensures GetBodyGroups(list)[4] == ("fr", 1)
  {
    forall i | 1 <= i < 5 ensures GetBodyGroups(list)[i].1 == 1 {
      assert i in HideBody(list[k]) * BodyGroupFlag(i);
      BodyGroupValue(list, i);
    }
  }
}
