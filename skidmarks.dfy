/**
 * `Skidmarks`: the ring buffer of skid mark sections shared by every wheel.
 * A skidding wheel calls `AddSkidMark` with where it touches the ground and
 * the index of the section it added last (-1 when it starts a new mark). The
 * new section is written at `markIndex`, linked to the wheel's last section
 * unless that one is too far away (another wheel may have overwritten it),
 * and `markIndex` moves on: backwards when a new mark starts, forwards
 * otherwise, wrapping at `MaxMarks`.
 *
 * Sections are values in an array; the source's `lastSection` reference is
 * the slot `lastIndex`, read again after the new section is written, so
 * when both are the same slot the second read sees the new section, as the
 * shared object does in the source. Normalising a vector needs a square
 * root and is passed in as `unit`.
 */
module SkidmarkBuffers {
  import opened Common

  const MaxMarks: int := 2048
  const MarkWidth: real := 0.35
  /** Height of a section above the ground. */
  const GroundOffset: real := 0.02
  const MinDistance: real := 0.25
  const MinSqrDistance: real := MinDistance * MinDistance
  const MaxOpacity: real := 1.0

  newtype byte = x: int | 0 <= x < 256

  datatype Vec4 = Vec4(x: real, y: real, z: real, w: real)
  datatype Colour32 = Colour32(r: byte, g: byte, b: byte, a: byte)

  datatype MarkSection = MarkSection(pos: Vec3, normal: Vec3, tangent: Vec4, posl: Vec3, posr: Vec3,
                                     colour: Colour32, lastIndex: int)

  /** What a call leaves behind: the sections, the next write slot and the index returned to the wheel. */
  datatype AddOutcome = AddOutcome(marks: seq<MarkSection>, markIndex: int, index: int)

  /** `(byte)(a * MAX_OPACITY)`: with full opacity the alpha is kept. */
  function Opacity(a: byte): (r: byte)
    ensures r == a
  {
    ((a as real * MaxOpacity).Floor % 256) as byte
  }

  /** Every section links to nothing (-1) or to a slot of the buffer, so the mesh update can follow the link. */
  predicate LinksInRange(marks: seq<MarkSection>)
  {
    forall k :: 0 <= k < |marks| ==> marks[k].lastIndex == -1 || 0 <= marks[k].lastIndex < MaxMarks
  }

  /** Where a section is placed: just above the ground point along the normal. */
  function Lifted(pos: Vec3, normal: Vec3): Vec3
  {
    pos.Add(normal.Scale(GroundOffset))
  }

  /** The offset of the section's sides from its centre, half a mark width along the unit side direction `x`. */
  function HalfWidth(x: Vec3): Vec3
  {
    x.Scale(MarkWidth * 0.5)
  }

  /** The next write slot: one back when a new mark starts, one on otherwise, modulo `MaxMarks`. */
  function NextSlot(markIndex: int, link: int): (r: int)
    requires 0 <= markIndex < MaxMarks
    ensures 0 <= r < MaxMarks
    ensures link == -1 ==> (r + 1) % MaxMarks == markIndex
    ensures link != -1 ==> r == (if markIndex == MaxMarks - 1 then 0 else markIndex + 1)
  {
    if link == -1 then (markIndex - 1 + MaxMarks) % MaxMarks else (markIndex + 1) % MaxMarks
  }

  /** The squared distance from the new position to the section at `lastIndex`. */
  function SqrDistance(marks: seq<MarkSection>, lastIndex: nat, newPos: Vec3): real
    requires lastIndex < |marks|
  {
    newPos.Sub(marks[lastIndex].pos).LengthSquared()
  }

  /**
   * The slot the new section links to: the wheel's last section when there
   * is one and it lies no further than `sqrt(10)` times `MinDistance`, -1
   * otherwise.
   */
  function Link(marks: seq<MarkSection>, lastIndex: int, newPos: Vec3): (r: int)
    requires lastIndex == -1 || 0 <= lastIndex < |marks|
    ensures r == -1 || r == lastIndex
    ensures r != -1 <==> lastIndex != -1 && SqrDistance(marks, lastIndex, newPos) <= MinSqrDistance * 10.0
  {
    if lastIndex != -1 && SqrDistance(marks, lastIndex, newPos) <= MinSqrDistance * 10.0 then lastIndex else -1
  }

  /**
   * The whole effect of `AddSkidMark` on the buffer `marks` with write slot
   * `markIndex`.
   */
  function Added(marks: seq<MarkSection>, markIndex: int, pos: Vec3, normal: Vec3, colour: Colour32,
                 lastIndex: int, unit: Vec3 -> Vec3): (o: AddOutcome)
    requires |marks| == MaxMarks && 0 <= markIndex < MaxMarks
    requires lastIndex == -1 || 0 <= lastIndex < MaxMarks
    ensures |o.marks| == MaxMarks && 0 <= o.markIndex < MaxMarks
    ensures LinksInRange(marks) ==> LinksInRange(o.marks)
  {
    var newPos := Lifted(pos, normal);
    if lastIndex != -1 && SqrDistance(marks, lastIndex, newPos) < MinSqrDistance then
      AddOutcome(marks, markIndex, lastIndex)
    else
      var link := Link(marks, lastIndex, newPos);
      var written := marks[markIndex].(pos := newPos, normal := normal,
                                       colour := colour.(a := Opacity(colour.a)), lastIndex := link);
      if link == -1 then
        AddOutcome(marks[markIndex := written], NextSlot(markIndex, link), markIndex)
      else
        var x := unit(newPos.Sub(marks[link].pos).Cross(normal));
        var cur := written.(posl := newPos.Add(HalfWidth(x)), posr := newPos.Sub(HalfWidth(x)),
                            tangent := Vec4(x.x, x.y, x.z, 1.0));
        var marks1 := marks[markIndex := cur];
        var last := marks1[link];
        var marks2 := if last.lastIndex == -1
                      then marks1[link := last.(tangent := cur.tangent, posl := cur.posl, posr := cur.posr)]
                      else marks1;
        AddOutcome(marks2, NextSlot(markIndex, link), markIndex)
  }

  /** Too close to the wheel's last section: nothing is written and the wheel keeps its last index. */
  lemma CloseCallChangesNothing(marks: seq<MarkSection>, markIndex: int, pos: Vec3, normal: Vec3,
                                colour: Colour32, lastIndex: int, unit: Vec3 -> Vec3)
    requires |marks| == MaxMarks && 0 <= markIndex < MaxMarks && 0 <= lastIndex < MaxMarks
    requires SqrDistance(marks, lastIndex, Lifted(pos, normal)) < MinSqrDistance
    ensures Added(marks, markIndex, pos, normal, colour, lastIndex, unit)
            == AddOutcome(marks, markIndex, lastIndex)
  {
  }

  /**
   * Otherwise the call returns the old write slot, the section there holds
   * the lifted position, the normal, the colour with its alpha kept and the
   * link, and the write slot moves back for a new mark and on for a linked
   * one. A link, when made, is to the wheel's last section at a squared
   * distance between `MinSqrDistance` and ten times that.
   */
  lemma WrittenSection(marks: seq<MarkSection>, markIndex: int, pos: Vec3, normal: Vec3,
                       colour: Colour32, lastIndex: int, unit: Vec3 -> Vec3)
    requires |marks| == MaxMarks && 0 <= markIndex < MaxMarks
    requires lastIndex == -1 || 0 <= lastIndex < MaxMarks
    requires lastIndex != -1 ==> SqrDistance(marks, lastIndex, Lifted(pos, normal)) >= MinSqrDistance
    ensures var o := Added(marks, markIndex, pos, normal, colour, lastIndex, unit);
            var s := o.marks[markIndex];
            && o.index == markIndex
            && s.pos == Lifted(pos, normal) && s.normal == normal && s.colour == colour
            && (s.lastIndex == -1 || s.lastIndex == lastIndex)
            && (s.lastIndex != -1 ==>
                  MinSqrDistance <= SqrDistance(marks, lastIndex, s.pos) <= MinSqrDistance * 10.0)
            && (lastIndex != -1 && SqrDistance(marks, lastIndex, s.pos) <= MinSqrDistance * 10.0 ==>
                  s.lastIndex == lastIndex)
            && o.markIndex == NextSlot(markIndex, s.lastIndex)
  {
  }

  /**
   * Nothing else changes: every slot other than the write slot and the
   * linked one keeps its section, and the linked one changes only in its
   * tangent and sides, and only when it starts its own mark and is not the
   * write slot itself.
   */
  lemma OnlyLinkedSectionTouched(marks: seq<MarkSection>, markIndex: int, pos: Vec3, normal: Vec3,
                                 colour: Colour32, lastIndex: int, unit: Vec3 -> Vec3, k: int)
    requires |marks| == MaxMarks && 0 <= markIndex < MaxMarks
    requires lastIndex == -1 || 0 <= lastIndex < MaxMarks
    requires 0 <= k < MaxMarks && k != markIndex
    ensures var o := Added(marks, markIndex, pos, normal, colour, lastIndex, unit);
            && (k != lastIndex ==> o.marks[k] == marks[k])
            && o.marks[k].pos == marks[k].pos && o.marks[k].normal == marks[k].normal
            && o.marks[k].colour == marks[k].colour && o.marks[k].lastIndex == marks[k].lastIndex
            && (marks[k].lastIndex != -1 ==> o.marks[k] == marks[k])
  {
  }

  /**
   * The section a new link reaches, when it starts its own mark, takes the
   * new section's tangent and sides.
   */
  lemma FirstSectionGetsSides(marks: seq<MarkSection>, markIndex: int, pos: Vec3, normal: Vec3,
                              colour: Colour32, lastIndex: int, unit: Vec3 -> Vec3)
    requires |marks| == MaxMarks && 0 <= markIndex < MaxMarks
    requires 0 <= lastIndex < MaxMarks && lastIndex != markIndex && marks[lastIndex].lastIndex == -1
    requires MinSqrDistance <= SqrDistance(marks, lastIndex, Lifted(pos, normal)) <= MinSqrDistance * 10.0
    ensures var o := Added(marks, markIndex, pos, normal, colour, lastIndex, unit);
            && o.marks[lastIndex].tangent == o.marks[markIndex].tangent
            && o.marks[lastIndex].posl == o.marks[markIndex].posl
            && o.marks[lastIndex].posr == o.marks[markIndex].posr
            && o.marks[markIndex].tangent.w == 1.0
  {
  }

  /**
   * A wheel that keeps calling with the index it was given back never
   * gets the same slot twice in a row while it draws a linked mark: a
   * linked write moves the slot on, so the next call writes elsewhere.
   */
  lemma LinkedWritesAdvance(marks: seq<MarkSection>, markIndex: int, pos: Vec3, normal: Vec3,
                            colour: Colour32, lastIndex: int, unit: Vec3 -> Vec3)
    requires |marks| == MaxMarks && 0 <= markIndex < MaxMarks && 0 <= lastIndex < MaxMarks
    requires MinSqrDistance <= SqrDistance(marks, lastIndex, Lifted(pos, normal)) <= MinSqrDistance * 10.0
    ensures var o := Added(marks, markIndex, pos, normal, colour, lastIndex, unit);
            o.index == markIndex && o.markIndex != markIndex && o.marks[markIndex].lastIndex == lastIndex
  {
    WrittenSection(marks, markIndex, pos, normal, colour, lastIndex, unit);
  }

  class Skidmarks {
    /** The next slot to write. */
    var markIndex: int
    const skidmarks: array<MarkSection>

    predicate Valid()
      reads this, skidmarks
    {
      skidmarks.Length == MaxMarks && 0 <= markIndex < MaxMarks && LinksInRange(skidmarks[..])
    }

    /** A buffer of `MaxMarks` unlinked sections, writing from slot 0. */
    constructor(blank: MarkSection)
      requires blank.lastIndex == -1
      ensures Valid() && markIndex == 0 && fresh(skidmarks)
      ensures forall k :: 0 <= k < MaxMarks ==> skidmarks[k] == blank
    {
      markIndex := 0;
      skidmarks := new MarkSection[MaxMarks](_ => blank);
    }

    /**
     * `AddSkidMark`, step by step: the distance checks against the wheel's
     * last section, the write at `markIndex`, the sides of both sections and
     * the move of `markIndex`; its whole effect is `Added`.
     */
    method AddSkidMark(pos: Vec3, normal: Vec3, colour: Colour32, lastIndex: int, unit: Vec3 -> Vec3)
      returns (r: int)
      requires Valid()
      requires lastIndex == -1 || 0 <= lastIndex < MaxMarks
      modifies this`markIndex, skidmarks
      ensures Valid()
      ensures var o := Added(old(skidmarks[..]), old(markIndex), pos, normal, colour, lastIndex, unit);
              skidmarks[..] == o.marks && markIndex == o.markIndex && r == o.index
    {
      ghost var marks := skidmarks[..];
      var link := lastIndex;
      var hasLast := false;
      var distAndDirection := Vec3(0.0, 0.0, 0.0);
      var newPos := pos.Add(normal.Scale(GroundOffset));
      if link != -1 {
        hasLast := true;
        distAndDirection := newPos.Sub(skidmarks[link].pos);
        if distAndDirection.LengthSquared() < MinSqrDistance {
          return link;
        }
        if distAndDirection.LengthSquared() > MinSqrDistance * 10.0 {
          link := -1;
          hasLast := false;
        }
      }
      assert hasLast <==> link != -1;
      assert link == Link(marks, lastIndex, newPos);
      var c := colour.(a := Opacity(colour.a));
      var cur := skidmarks[markIndex].(pos := newPos, normal := normal, colour := c, lastIndex := link);
      skidmarks[markIndex] := cur;
      if hasLast {
        var x := unit(distAndDirection.Cross(normal));
        cur := cur.(posl := cur.pos.Add(x.Scale(MarkWidth * 0.5)), posr := cur.pos.Sub(x.Scale(MarkWidth * 0.5)),
                    tangent := Vec4(x.x, x.y, x.z, 1.0));
        skidmarks[markIndex] := cur;
        var lastSection := skidmarks[link];
        if lastSection.lastIndex == -1 {
          skidmarks[link] := lastSection.(tangent := cur.tangent, posl := cur.pos.Add(x.Scale(MarkWidth * 0.5)),
                                          posr := cur.pos.Sub(x.Scale(MarkWidth * 0.5)));
        }
      }
      r := markIndex;
      if link == -1 {
        markIndex := (markIndex - 1 + MaxMarks) % MaxMarks;
      } else {
        markIndex := (markIndex + 1) % MaxMarks;
      }
    }
  }
}
