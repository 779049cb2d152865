/**
 * Car tuning definitions (outfit pieces): slot bit flags, compatibility of two
 * pieces, the conditional-model lookup by tag and the body-group mask.
 *
 * A `CarTuning` resource is a value here; two resources are the same object
 * exactly when they are equal, and the `id` field keeps distinct resources with
 * equal settings apart. A `WheelTuning` is the kind `WheelPiece`, whose getters
 * for `SlotsOver`, `HideBody` and `Category` ignore the stored fields.
 */
module CarTunings {
  import opened Common

  /**
   * A `[Flags]` enum value, as the set of its bit positions: `a & b != 0` is
   * `a * b != {}` and `a | b` is `a + b`.
   */
  type Mask = set<nat>

  /** `CarTuning.Slots` flags: Body = 1, BrakeDisk = 2, Wheel = 4. */
  const SLOT_BODY: Mask := {0}
  const SLOT_BRAKE_DISK: Mask := {1}
  const SLOT_WHEEL: Mask := {2}

  /** `CarTuning.BodyGroups` flags: Root = 1, RL = 2, RR = 4, FL = 8, FR = 0x10, Spoiler = 0x20, BrakeDisk = 0x40. */
  const BG_ROOT: Mask := {0}
  const BG_RL: Mask := {1}
  const BG_RR: Mask := {2}
  const BG_FL: Mask := {3}
  const BG_FR: Mask := {4}
  const BG_SPOILER: Mask := {5}
  const BG_BRAKE_DISK: Mask := {6}

  datatype TuningCategory = NoCategory | BrakeDiskCategory | WheelCategory

  /** A plain `CarTuning` or a `WheelTuning` with its own radius and width. */
  datatype TuningKind = PlainPiece | WheelPiece(radius: real, width: real)

  datatype CarTuning = CarTuning(
    id: nat,
    kind: TuningKind,
    slotsOverField: Mask,
    slotsUnder: Mask,
    categoryField: TuningCategory,
    hideBodyField: Mask,
    tags: Option<string>,
    conditionalModels: Option<map<string, string>>,
    model: Option<string>)

  /** The `SlotsOver` getter as dispatched on the runtime kind. */
  function SlotsOver(t: CarTuning): (r: Mask)
    ensures t.kind.WheelPiece? ==> r == SLOT_WHEEL
    ensures t.kind.PlainPiece? ==> r == t.slotsOverField
  {
    match t.kind
    case PlainPiece => t.slotsOverField
    case WheelPiece(_, _) => SLOT_WHEEL
  }

  /** The `HideBody` getter as dispatched on the runtime kind. */
  function HideBody(t: CarTuning): (r: Mask)
    ensures t.kind.WheelPiece? ==> r == BG_FL + BG_FR + BG_RR + BG_RL
    ensures t.kind.PlainPiece? ==> r == t.hideBodyField
  {
    match t.kind
    case PlainPiece => t.hideBodyField
    case WheelPiece(_, _) => BG_FL + BG_FR + BG_RR + BG_RL
  }

  /** The `Category` getter as dispatched on the runtime kind. */
  function Category(t: CarTuning): (r: TuningCategory)
    ensures t.kind.WheelPiece? ==> r == WheelCategory
    ensures t.kind.PlainPiece? ==> r == t.categoryField
  {
    match t.kind
    case PlainPiece => t.categoryField
    case WheelPiece(_, _) => WheelCategory
  }

  /**
   * `self.CanBeWornWith(target)`: a piece is never worn with itself, and two
   * pieces clash when their outer or their inner slot masks overlap.
   */
  function CanBeWornWith(self: CarTuning, target: CarTuning): (r: bool)
    ensures r <==> target != self
                   && SlotsOver(target) * SlotsOver(self) == {}
                   && target.slotsUnder * self.slotsUnder == {}
  {
    if target == self then false
    else if SlotsOver(target) * SlotsOver(self) != {} then false
    else if target.slotsUnder * self.slotsUnder != {} then false
    else true
  }

  lemma NotWornWithItself(t: CarTuning)
    ensures !CanBeWornWith(t, t)
  {
  }

  lemma CanBeWornWithSymmetric(a: CarTuning, b: CarTuning)
    ensures CanBeWornWith(a, b) == CanBeWornWith(b, a)
  {
  }

  // ---------------------------------------------------------------------------
  // Tags and conditional models

  /**
   * `s.Split(" ")` with a one-character separator: every separator ends a piece,
   * so empty pieces are kept and the result is never empty.
   */
  function Split(s: string, sep: char): (r: seq<string>)
    ensures |r| >= 1
    ensures forall i :: 0 <= i < |r| ==> sep !in r[i]
    decreases |s|
  {
    if |s| == 0 then [""]
    else
      var rest := Split(s[1..], sep);
      if s[0] == sep then [""] + rest
      else [[s[0]] + rest[0]] + rest[1..]
  }

  /** Inverse of `Split`: the pieces glued back together with the separator. */
  function Join(pieces: seq<string>, sep: char): string
    requires |pieces| >= 1
    decreases |pieces|
  {
    if |pieces| == 1 then pieces[0] else pieces[0] + [sep] + Join(pieces[1..], sep)
  }

  lemma {:induction false} JoinSplit(s: string, sep: char)
    ensures Join(Split(s, sep), sep) == s
    decreases |s|
  {
    if |s| > 0 {
      var rest := Split(s[1..], sep);
      JoinSplit(s[1..], sep);
      if s[0] == sep {
        assert Split(s, sep) == [""] + rest;
        assert ([""] + rest)[1..] == rest;
        assert s == [sep] + s[1..];
      } else {
        var r := [[s[0]] + rest[0]] + rest[1..];
        assert Split(s, sep) == r;
        if |rest| == 1 {
          assert s == [s[0]] + s[1..];
        } else {
          assert r[1..] == rest[1..];
          assert Join(rest, sep) == rest[0] + [sep] + Join(rest[1..], sep);
          assert s == [s[0]] + s[1..];
        }
      }
    }
  }

  /** The tag keys a piece contributes: none when `Tags` is null or empty. */
  function TagKeys(t: CarTuning): seq<string>
  {
    match t.tags
    case None => []
    case Some(s) => if s == "" then [] else Split(s, ' ')
  }

  /** Every tag key of the list, pieces in list order, keys in split order. */
  function AllKeys(list: seq<CarTuning>): seq<string>
  {
    if list == [] then [] else TagKeys(list[0]) + AllKeys(list[1..])
  }

  /** The inner loop of `GetModel`: the first key that the dictionary holds. */
  function LookupKeys(models: Option<map<string, string>>, keys: seq<string>): (r: Option<string>)
    ensures r.Some? ==> models.Some? && exists k :: k in keys && k in models.value && models.value[k] == r.value
    ensures r.None? ==> models.None? || forall k :: k in keys ==> k !in models.value
  {
    if keys == [] then None
    else if models.Some? && keys[0] in models.value then Some(models.value[keys[0]])
    else LookupKeys(models, keys[1..])
  }

  /**
   * `self.GetModel(tuningList)`: the outer loop skips pieces without tags and
   * returns on the first key hit; when nothing hits, the piece's own model.
   */
  function GetModel(self: CarTuning, tuningList: seq<CarTuning>): Option<string>
  {
    if tuningList == [] then self.model
    else
      match LookupKeys(self.conditionalModels, TagKeys(tuningList[0]))
      case Some(v) => Some(v)
      case None => GetModel(self, tuningList[1..])
  }

  lemma {:induction false} LookupKeysAppend(models: Option<map<string, string>>, a: seq<string>, b: seq<string>)
    ensures LookupKeys(models, a + b) ==
            (if LookupKeys(models, a).Some? then LookupKeys(models, a) else LookupKeys(models, b))
  {
    if a != [] {
      assert (a + b)[0] == a[0];
      assert (a + b)[1..] == a[1..] + b;
      LookupKeysAppend(models, a[1..], b);
    } else {
      assert a + b == b;
    }
  }

  /**
   * `GetModel` is the first hit of the flat key sequence (pieces in list order,
   * keys in split order), falling back to `Model`.
   */
  lemma {:induction false} GetModelFirstHit(self: CarTuning, list: seq<CarTuning>)
    ensures GetModel(self, list) ==
            (match LookupKeys(self.conditionalModels, AllKeys(list))
             case Some(v) => Some(v)
             case None => self.model)
  {
    if list != [] {
      GetModelFirstHit(self, list[1..]);
      LookupKeysAppend(self.conditionalModels, TagKeys(list[0]), AllKeys(list[1..]));
    }
  }

  /** A null `ConditionalModels` always yields `Model`. */
  lemma {:induction false} GetModelWithoutConditionalModels(self: CarTuning, list: seq<CarTuning>)
    requires self.conditionalModels.None?
    ensures GetModel(self, list) == self.model
  {
    if list != [] {
      GetModelWithoutConditionalModels(self, list[1..]);
    }
  }

  /** Pieces whose `Tags` is null or empty are skipped. */
  lemma GetModelSkipsUntagged(self: CarTuning, t: CarTuning, list: seq<CarTuning>)
    requires t.tags.None? || t.tags == Some("")
    ensures GetModel(self, [t] + list) == GetModel(self, list)
  {
    assert ([t] + list)[1..] == list;
  }

  // ---------------------------------------------------------------------------
  // Body groups

  /** The `Aggregate` of `HideBody` with `|`, 0 for an empty list. */
  function HideMask(list: seq<CarTuning>): Mask
  {
    if list == [] then {} else HideMask(list[..|list| - 1]) + HideBody(list[|list| - 1])
  }

  function FlagValue(mask: Mask, flag: Mask): int
  {
    if mask * flag != {} then 1 else 0
  }

  /** `GetBodyGroups`: five (name, 0/1) pairs read off the aggregated mask. */
  function GetBodyGroups(list: seq<CarTuning>): (r: seq<(string, int)>)
    ensures |r| == 5
    ensures r[0].0 == "root" && r[1].0 == "rl" && r[2].0 == "rr" && r[3].0 == "fl" && r[4].0 == "fr"
    ensures forall i :: 0 <= i < 5 ==> r[i].1 == 0 || r[i].1 == 1
  {
    var mask := HideMask(list);
    [("root", FlagValue(mask, BG_ROOT)), ("rl", FlagValue(mask, BG_RL)), ("rr", FlagValue(mask, BG_RR)),
     ("fl", FlagValue(mask, BG_FL)), ("fr", FlagValue(mask, BG_FR))]
  }

  /** The flag of the i-th pair of `GetBodyGroups`. */
  function BodyGroupFlag(i: nat): Mask
    requires i < 5
  {
    [BG_ROOT, BG_RL, BG_RR, BG_FL, BG_FR][i]
  }

  /** Some piece of the list hides a group of `flag`. */
  predicate SomeHides(list: seq<CarTuning>, flag: Mask)
  {
    exists j :: 0 <= j < |list| && HideBody(list[j]) * flag != {}
  }

  lemma {:induction false} HideMaskHas(list: seq<CarTuning>, flag: Mask)
    ensures HideMask(list) * flag != {} <==> SomeHides(list, flag)
  {
    if list != [] {
      var n := |list| - 1;
      var init := list[..n];
      HideMaskHas(init, flag);
      if SomeHides(list, flag) {
        var j :| 0 <= j < |list| && HideBody(list[j]) * flag != {};
        if j < n {
          assert init[j] == list[j];
        }
      }
      if SomeHides(init, flag) {
        var j :| 0 <= j < n && HideBody(init[j]) * flag != {};
        assert init[j] == list[j];
      }
    }
  }

  /**
   * A pair's value is 1 exactly when some piece hides that group; an empty list
   * yields all zeros.
   */
  lemma BodyGroupValue(list: seq<CarTuning>, i: nat)
    requires i < 5
    ensures GetBodyGroups(list)[i].1 == 1 <==> SomeHides(list, BodyGroupFlag(i))
    ensures list == [] ==> GetBodyGroups(list)[i].1 == 0
  {
    HideMaskHas(list, BodyGroupFlag(i));
  }

  /** The Spoiler and BrakeDisk groups never reach the output pairs. */
  lemma BodyGroupsIgnoreSpoilerAndBrakeDisk(a: seq<CarTuning>, b: seq<CarTuning>)
    requires HideMask(a) + BG_SPOILER + BG_BRAKE_DISK == HideMask(b) + BG_SPOILER + BG_BRAKE_DISK
    ensures GetBodyGroups(a) == GetBodyGroups(b)
  {
    var ma, mb := HideMask(a), HideMask(b);
    forall k | k in {0, 1, 2, 3, 4} ensures k in ma <==> k in mb {
      assert k in ma <==> k in ma + BG_SPOILER + BG_BRAKE_DISK;
    }
    assert ma * BG_ROOT == mb * BG_ROOT;
    assert ma * BG_RL == mb * BG_RL;
    assert ma * BG_RR == mb * BG_RR;
    assert ma * BG_FL == mb * BG_FL;
    assert ma * BG_FR == mb * BG_FR;
  }
}
