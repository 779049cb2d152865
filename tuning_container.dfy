/**
 * `TuningContainer`: the outfit of a car, a list of tuning entries that evicts
 * clashing pieces whenever a piece is added, plus its (de)serialised form.
 *
 * `TuningEntry` objects are held as values: the only in-place write to an entry
 * in this file (`Add(tuning).Tint = …` right after the append) is folded into
 * the append. JSON text itself is not parsed here: `Deserialize` receives the
 * outcome of `JsonNode.Parse` as a `JsonNode` value.
 */
module TuningContainers {
  import opened Common
  import opened CarTunings

  /** `TuningContainer.TuningEntry`: a piece and the optional tint picked for it. */
  datatype TuningEntry = TuningEntry(tuning: CarTuning, tint: Option<real>)

  /** `TuningContainer.Entry`: the serialised form, resource id and tint. */
  datatype Entry = Entry(id: int, tint: Option<real>)

  /** An array node; `entries` is None when `Deserialize<Entry[]>` throws on it. */
  datatype EntryArray = EntryArray(entries: Option<seq<Entry>>)

  /**
   * What `JsonNode.Parse` produced: it threw, an array, an object (whose
   * "Items" member, read `as JsonArray`, may be missing), or anything else.
   */
  datatype JsonNode = Malformed | ArrayNode(elements: EntryArray) | ObjectNode(items: Option<EntryArray>) | OtherNode

  // ---------------------------------------------------------------------------
  // Specification of the list operations

  predicate HasIn(entries: seq<TuningEntry>, t: CarTuning)
  {
    exists i :: 0 <= i < |entries| && entries[i].tuning == t
  }

  /** `RemoveAll(x => x.CarTuning == t)`. */
  function WithoutTuning(entries: seq<TuningEntry>, t: CarTuning): (r: seq<TuningEntry>)
    ensures forall e :: e in r <==> e in entries && e.tuning != t
    ensures |r| <= |entries|
  {
    if entries == [] then []
    else (if entries[0].tuning == t then [] else [entries[0]]) + WithoutTuning(entries[1..], t)
  }

  /** `RemoveAll(x => !x.CarTuning.CanBeWornWith(t))`. */
  function Wearable(entries: seq<TuningEntry>, t: CarTuning): (r: seq<TuningEntry>)
    ensures forall e :: e in r <==> e in entries && CanBeWornWith(e.tuning, t)
    ensures |r| <= |entries|
  {
    if entries == [] then []
    else (if CanBeWornWith(entries[0].tuning, t) then [entries[0]] else []) + Wearable(entries[1..], t)
  }

  /** The list after `Add(t)` whose new entry got the tint `tint`. */
  function AddedList(entries: seq<TuningEntry>, t: CarTuning, tint: Option<real>): seq<TuningEntry>
  {
    Wearable(entries, t) + [TuningEntry(t, tint)]
  }

  /** No two pieces of the outfit clash (which also rules out a piece twice). */
  predicate Compatible(entries: seq<TuningEntry>)
  {
    forall i, j :: 0 <= i < j < |entries| ==> CanBeWornWith(entries[i].tuning, entries[j].tuning)
  }

  function CountOf(entries: seq<TuningEntry>, t: CarTuning): nat
  {
    if entries == [] then 0 else (if entries[0].tuning == t then 1 else 0) + CountOf(entries[1..], t)
  }

  /** `FindEntry`: the first entry for `t`, or null. */
  function FindEntryIn(entries: seq<TuningEntry>, t: CarTuning): Option<TuningEntry>
  {
    if entries == [] then None
    else if entries[0].tuning == t then Some(entries[0])
    else FindEntryIn(entries[1..], t)
  }

  /** `FindEntry` gives the first entry for `t`, and null exactly when there is none. */
  lemma {:induction false} FindEntryFirst(entries: seq<TuningEntry>, t: CarTuning)
    ensures FindEntryIn(entries, t).None? <==> !HasIn(entries, t)
    ensures FindEntryIn(entries, t).Some? ==>
              exists i :: 0 <= i < |entries| && entries[i] == FindEntryIn(entries, t).value
                          && entries[i].tuning == t
                          && forall j :: 0 <= j < i ==> entries[j].tuning != t
  {
    if entries != [] && entries[0].tuning != t {
      var tail := entries[1..];
      FindEntryFirst(tail, t);
      if HasIn(entries, t) {
        var i :| 0 <= i < |entries| && entries[i].tuning == t;
        assert tail[i - 1].tuning == t;
      }
      var r := FindEntryIn(tail, t);
      if r.Some? {
        var i :| 0 <= i < |tail| && tail[i] == r.value && tail[i].tuning == t
                 && forall j :: 0 <= j < i ==> tail[j].tuning != t;
        assert entries[i + 1] == r.value;
        forall j | 0 <= j < i + 1 ensures entries[j].tuning != t {
          if j > 0 { assert entries[j] == tail[j - 1]; }
        }
      }
    }
  }

  /** `GetSerialized`: one `Entry` per list entry, in order. */
  function Serialized(entries: seq<TuningEntry>): (r: seq<Entry>)
    ensures |r| == |entries|
    ensures forall i :: 0 <= i < |r| ==> r[i] == Entry(entries[i].tuning.id, entries[i].tint)
  {
    if entries == [] then [] else [Entry(entries[0].tuning.id, entries[0].tint)] + Serialized(entries[1..])
  }

  /** One iteration of `ParseEntries`: unknown ids are skipped, known ones added with their tint. */
  function ParseStep(entries: seq<TuningEntry>, e: Entry, library: map<int, CarTuning>): seq<TuningEntry>
  {
    if e.id in library then AddedList(entries, library[e.id], e.tint) else entries
  }

  /** `ParseEntries` over the first `|arr|` serialised entries. */
  function ParseAll(entries: seq<TuningEntry>, arr: seq<Entry>, library: map<int, CarTuning>): seq<TuningEntry>
  {
    if arr == [] then entries
    else ParseStep(ParseAll(entries, arr[..|arr| - 1], library), arr[|arr| - 1], library)
  }

  /** The whole of `Deserialize`: the list always starts out cleared. */
  function Deserialized(json: Option<string>, node: JsonNode, library: map<int, CarTuning>): seq<TuningEntry>
  {
    if IsNullOrWhiteSpace(json) then []
    else match node
      case ArrayNode(EntryArray(Some(arr))) => ParseAll([], arr, library)
      case ObjectNode(Some(EntryArray(Some(arr)))) => ParseAll([], arr, library)
      case _ => []
  }

  /**
   * `char.IsWhiteSpace`: the Unicode space separators, the line and
   * paragraph separators, U+0009 to U+000D, U+0085 and U+00A0.
   */
  predicate IsWhiteSpace(c: char)
  {
    || ('\U{0009}' <= c <= '\U{000D}') || c == ' ' || c == '\U{0085}' || c == '\U{00A0}'
    || c == '\U{1680}' || ('\U{2000}' <= c <= '\U{200A}') || c == '\U{2028}' || c == '\U{2029}'
    || c == '\U{202F}' || c == '\U{205F}' || c == '\U{3000}'
  }

  predicate IsNullOrWhiteSpace(s: Option<string>)
  {
    s.None? || forall i :: 0 <= i < |s.value| ==> IsWhiteSpace(s.value[i])
  }

  // ---------------------------------------------------------------------------
  // Properties of the specification

  lemma {:induction false} WithoutTuningRemovesOnlyT(entries: seq<TuningEntry>, t: CarTuning, u: CarTuning)
    requires u != t
    ensures !HasIn(WithoutTuning(entries, t), t)
    ensures CountOf(WithoutTuning(entries, t), u) == CountOf(entries, u)
  {
    var r := WithoutTuning(entries, t);
    forall i | 0 <= i < |r| ensures r[i].tuning != t {
      assert r[i] in r;
    }
    if entries != [] {
      WithoutTuningRemovesOnlyT(entries[1..], t, u);
      var rest := WithoutTuning(entries[1..], t);
      if entries[0].tuning == t {
        assert WithoutTuning(entries, t) == rest;
      } else {
        assert WithoutTuning(entries, t) == [entries[0]] + rest;
        assert ([entries[0]] + rest)[1..] == rest;
      }
    }
  }

  lemma {:induction false} CountZeroIffAbsent(entries: seq<TuningEntry>, t: CarTuning)
    ensures CountOf(entries, t) == 0 <==> !HasIn(entries, t)
  {
    if entries != [] {
      CountZeroIffAbsent(entries[1..], t);
      if HasIn(entries, t) && entries[0].tuning != t {
        var i :| 0 <= i < |entries| && entries[i].tuning == t;
        assert entries[1..][i - 1].tuning == t;
      }
      if HasIn(entries[1..], t) {
        var i :| 0 <= i < |entries[1..]| && entries[1..][i].tuning == t;
        assert entries[i + 1].tuning == t;
      }
    }
  }

  lemma {:induction false} CountAppend(a: seq<TuningEntry>, b: seq<TuningEntry>, t: CarTuning)
    ensures CountOf(a + b, t) == CountOf(a, t) + CountOf(b, t)
  {
    if a == [] {
      assert a + b == b;
    } else {
      assert (a + b)[1..] == a[1..] + b;
      CountAppend(a[1..], b, t);
    }
  }

  /** After `Add(t)` exactly one entry refers to `t`, and it is the last one. */
  lemma AddLeavesExactlyOne(entries: seq<TuningEntry>, t: CarTuning, tint: Option<real>)
    ensures CountOf(AddedList(entries, t, tint), t) == 1
    ensures AddedList(entries, t, tint)[|AddedList(entries, t, tint)| - 1] == TuningEntry(t, tint)
  {
    var kept := Wearable(entries, t);
    assert !HasIn(kept, t) by {
      if HasIn(kept, t) {
        var i :| 0 <= i < |kept| && kept[i].tuning == t;
        assert kept[i] in kept;
        NotWornWithItself(t);
      }
    }
    CountZeroIffAbsent(kept, t);
    CountAppend(kept, [TuningEntry(t, tint)], t);
    assert [TuningEntry(t, tint)][1..] == [];
  }

  /** `Add` keeps the outfit free of clashes. */
  lemma AddKeepsCompatible(entries: seq<TuningEntry>, t: CarTuning, tint: Option<real>)
    requires Compatible(entries)
    ensures Compatible(AddedList(entries, t, tint))
  {
    var kept := Wearable(entries, t);
    WearableSubsequence(entries, t);
    var r := AddedList(entries, t, tint);
    forall i, j | 0 <= i < j < |r| ensures CanBeWornWith(r[i].tuning, r[j].tuning) {
      if j == |kept| {
        assert r[i] == kept[i] && kept[i] in kept;
      } else {
        assert r[i] == kept[i] && r[j] == kept[j];
      }
    }
  }

  /** Pieces that survive the eviction stay in their relative order. */
  lemma {:induction false} WearableSubsequence(entries: seq<TuningEntry>, t: CarTuning)
    requires Compatible(entries)
    ensures Compatible(Wearable(entries, t))
  {
    if entries != [] {
      var rest := Wearable(entries[1..], t);
      assert Compatible(entries[1..]) by {
        forall i, j | 0 <= i < j < |entries[1..]|
          ensures CanBeWornWith(entries[1..][i].tuning, entries[1..][j].tuning)
        {
          assert entries[1..][i] == entries[i + 1] && entries[1..][j] == entries[j + 1];
        }
      }
      WearableSubsequence(entries[1..], t);
      if CanBeWornWith(entries[0].tuning, t) {
        var r := [entries[0]] + rest;
        forall i, j | 0 <= i < j < |r| ensures CanBeWornWith(r[i].tuning, r[j].tuning) {
          if i == 0 {
            assert r[j] in rest;
            var k :| 0 <= k < |entries| && entries[k] == r[j] && k > 0 by {
              assert r[j] in entries[1..];
              var k' :| 0 <= k' < |entries[1..]| && entries[1..][k'] == r[j];
              assert entries[k' + 1] == r[j];
            }
          } else {
            assert r[i] == rest[i - 1] && r[j] == rest[j - 1];
          }
        }
      }
    }
  }

  /** When every piece is wearable with `t`, the eviction removes nothing. */
  lemma {:induction false} WearableKeepsAll(entries: seq<TuningEntry>, t: CarTuning)
    requires forall i :: 0 <= i < |entries| ==> CanBeWornWith(entries[i].tuning, t)
    ensures Wearable(entries, t) == entries
  {
    if entries != [] {
      WearableKeepsAll(entries[1..], t);
      assert [entries[0]] + entries[1..] == entries;
    }
  }

  /** Dropping the last piece of a clash-free outfit leaves one the last piece can be worn with. */
  lemma CompatibleInit(entries: seq<TuningEntry>)
    requires Compatible(entries) && entries != []
    ensures Compatible(entries[..|entries| - 1])
    ensures Wearable(entries[..|entries| - 1], entries[|entries| - 1].tuning) == entries[..|entries| - 1]
  {
    var n := |entries| - 1;
    var init := entries[..n];
    forall i, j | 0 <= i < j < n ensures CanBeWornWith(init[i].tuning, init[j].tuning) {
      assert init[i] == entries[i] && init[j] == entries[j];
    }
    forall i | 0 <= i < n ensures CanBeWornWith(init[i].tuning, entries[n].tuning) {
      assert init[i] == entries[i];
    }
    WearableKeepsAll(init, entries[n].tuning);
  }

  /** Every piece's resource id resolves, in `library`, to that piece. */
  predicate Resolves(entries: seq<TuningEntry>, library: map<int, CarTuning>)
  {
    forall i :: 0 <= i < |entries| ==> entries[i].tuning.id in library && library[entries[i].tuning.id] == entries[i].tuning
  }

  lemma ResolvesInit(entries: seq<TuningEntry>, library: map<int, CarTuning>)
    requires Resolves(entries, library) && entries != []
    ensures Resolves(entries[..|entries| - 1], library)
    ensures var last := entries[|entries| - 1]; last.tuning.id in library && library[last.tuning.id] == last.tuning
  {
    var init := entries[..|entries| - 1];
    assert forall i :: 0 <= i < |init| ==> init[i] == entries[i];
  }

  lemma SerializedInit(entries: seq<TuningEntry>)
    requires entries != []
    ensures var n := |entries| - 1;
            Serialized(entries)[..n] == Serialized(entries[..n])
            && Serialized(entries)[n] == Entry(entries[n].tuning.id, entries[n].tint)
  {
    var n := |entries| - 1;
    assert Serialized(entries)[..n] == Serialized(entries[..n]);
  }

  /** The last serialised entry re-adds the last piece onto the parsed rest. */
  lemma ParseSerializedSnoc(entries: seq<TuningEntry>, library: map<int, CarTuning>)
    requires entries != []
    requires var n := |entries| - 1;
             ParseAll([], Serialized(entries[..n]), library) == entries[..n]
             && Wearable(entries[..n], entries[n].tuning) == entries[..n]
             && entries[n].tuning.id in library && library[entries[n].tuning.id] == entries[n].tuning
    ensures ParseAll([], Serialized(entries), library) == entries
  {
    var n := |entries| - 1;
    var init, last := entries[..n], entries[n];
    var ser := Serialized(entries);
    SerializedInit(entries);
    calc {
      ParseAll([], ser, library);
      ParseStep(ParseAll([], ser[..n], library), ser[n], library);
      AddedList(init, last.tuning, last.tint);
      init + [last];
      { FrontLast(entries); }
      entries;
    }
  }

  /**
   * Round trip: parsing the serialised form of a clash-free outfit whose ids the
   * resource library resolves gives the outfit back, tints included.
   */
  lemma {:induction false} ParseSerializedRoundTrip(entries: seq<TuningEntry>, library: map<int, CarTuning>)
    requires Compatible(entries) && Resolves(entries, library)
    ensures ParseAll([], Serialized(entries), library) == entries
  {
    if entries != [] {
      CompatibleInit(entries);
      ResolvesInit(entries, library);
      ParseSerializedRoundTrip(entries[..|entries| - 1], library);
      ParseSerializedSnoc(entries, library);
    }
  }

  /** `Deserialize` always yields a clash-free outfit. */
  lemma {:induction false} ParseAllCompatible(entries: seq<TuningEntry>, arr: seq<Entry>, library: map<int, CarTuning>)
    requires Compatible(entries)
    ensures Compatible(ParseAll(entries, arr, library))
  {
    if arr != [] {
      var n := |arr| - 1;
      ParseAllCompatible(entries, arr[..n], library);
      var before := ParseAll(entries, arr[..n], library);
      if arr[n].id in library {
        AddKeepsCompatible(before, library[arr[n].id], arr[n].tint);
      }
    }
  }

  /** Null or whitespace input leaves the container empty. */
  lemma DeserializeBlank(json: Option<string>, node: JsonNode, library: map<int, CarTuning>)
    requires IsNullOrWhiteSpace(json)
    ensures Deserialized(json, node, library) == []
  {
  }

  // ---------------------------------------------------------------------------
  // The container

  class TuningContainer {
    /** The public `CarTuning` list. */
    var carTuning: seq<TuningEntry>

    constructor ()
      ensures carTuning == []
    {
      carTuning := [];
    }

    /** `Has`: some entry refers to `t`. */
    predicate Has(t: CarTuning)
      reads this
    {
      HasIn(carTuning, t)
    }

    /** `Remove`: every entry for `t` goes, and nothing else. */
    method Remove(t: CarTuning)
      modifies this
      ensures carTuning == WithoutTuning(old(carTuning), t)
      ensures !Has(t)
    {
      carTuning := WithoutTuning(carTuning, t);
      WithoutTuningRemovesOnlyT(old(carTuning), t, t.(id := t.id + 1));
    }

    /** `Add`: evict what cannot be worn with `t`, then append a fresh entry for it. */
    method Add(t: CarTuning) returns (entry: TuningEntry)
      modifies this
      ensures entry == TuningEntry(t, None)
      ensures carTuning == AddedList(old(carTuning), t, None)
      ensures Has(t) && CountOf(carTuning, t) == 1
    {
      carTuning := Wearable(carTuning, t) + [TuningEntry(t, None)];
      entry := TuningEntry(t, None);
      AddLeavesExactlyOne(old(carTuning), t, None);
      assert carTuning[|carTuning| - 1].tuning == t;
    }

    /** `Toggle`: remove `t` if present, add it otherwise, so membership flips. */
    method Toggle(t: CarTuning)
      modifies this
      ensures old(Has(t)) ==> carTuning == WithoutTuning(old(carTuning), t)
      ensures !old(Has(t)) ==> carTuning == AddedList(old(carTuning), t, None)
      ensures Has(t) == !old(Has(t))
    {
      if Has(t) {
        Remove(t);
      } else {
        var _ := Add(t);
      }
    }

    /** `TryAdd`: false and no change when `t` is present, else add it and say true. */
    method TryAdd(t: CarTuning) returns (added: bool)
      modifies this
      ensures added == !old(Has(t))
      ensures !added ==> carTuning == old(carTuning)
      ensures added ==> carTuning == AddedList(old(carTuning), t, None)
      ensures Has(t)
    {
      if Has(t) {
        return false;
      }
      var _ := Add(t);
      return true;
    }

    /** `FindEntry`: the first entry for `t`, or null. */
    function FindEntry(t: CarTuning): (r: Option<TuningEntry>)
      reads this
      ensures r.None? <==> !Has(t)
      ensures r.Some? ==> r.value.tuning == t && r.value in carTuning
    {
      FindEntryFirst(carTuning, t);
      FindEntryIn(carTuning, t)
    }

    /** `GetSerialized`. */
    function GetSerialized(): (r: seq<Entry>)
      reads this
      ensures |r| == |carTuning|
      ensures forall i :: 0 <= i < |r| ==> r[i].id == carTuning[i].tuning.id && r[i].tint == carTuning[i].tint
    {
      Serialized(carTuning)
    }

    /** `ParseEntries`: add every entry whose id the library resolves, with its tint. */
    method ParseEntries(node: Option<EntryArray>, library: map<int, CarTuning>)
      modifies this
      ensures node.None? || node.value.entries.None? ==> carTuning == old(carTuning)
      ensures node.Some? && node.value.entries.Some? ==>
                carTuning == ParseAll(old(carTuning), node.value.entries.value, library)
    {
      if node.None? {
        return;
      }
      if node.value.entries.None? {
        return;
      }
      var arr := node.value.entries.value;
      var i := 0;
      while i < |arr|
        invariant 0 <= i <= |arr|
        invariant carTuning == ParseAll(old(carTuning), arr[..i], library)
      {
        assert arr[..i + 1][..i] == arr[..i];
        var entry := arr[i];
        if entry.id in library {
          var _ := Add(library[entry.id]);
          carTuning := carTuning[|carTuning| - 1 := TuningEntry(library[entry.id], entry.tint)];
        }
        i := i + 1;
      }
      assert arr[..i] == arr;
    }

    /** `Deserialize`: clear, stop on blank input, then parse the array or the object's "Items". */
    method Deserialize(json: Option<string>, node: JsonNode, library: map<int, CarTuning>)
      modifies this
      ensures carTuning == Deserialized(json, node, library)
      ensures Compatible(carTuning)
    {
      carTuning := [];
      if IsNullOrWhiteSpace(json) {
        return;
      }
      match node {
        case ArrayNode(items) =>
          ParseEntries(Some(items), library);
        case ObjectNode(items) =>
          ParseEntries(items, library);
        case _ =>
      }
      if carTuning != [] {
        var arr :| (node.ArrayNode? && node.elements.entries == Some(arr))
                   || (node.ObjectNode? && node.items == Some(EntryArray(Some(arr))));
        ParseAllCompatible([], arr, library);
      }
    }
  }
}
