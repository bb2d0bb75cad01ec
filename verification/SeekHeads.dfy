/** The SeekHead: six entries of one length, whatever they hold, so that each can be set in place. */
module SeekHeads {
  import opened Bytes
  import opened Ebml
  import opened Ids
  import opened Elements
  import opened Voids

  const SEEK_ENTRY_LENGTH: nat := 21
  const SEEK_POSITION_OFFSET: nat := 13
  const SEEK_HEAD_HEADER_LENGTH: nat := 5
  const SEEK_HEAD_LENGTH: nat := 131

  datatype Slot = Unset | At(pos: nat) | Voided

  function SeekEntry(id: nat, pos: nat): Elem {
    Master(SEEK, [Bin(SEEK_ID, BE(id, 4)), Bin(SEEK_POSITION, BE(pos, 8))])
  }

  function VoidSeekEntry(): Elem {
    Void(SEEK_ENTRY_LENGTH)
  }

  function SlotElem(id: nat, slot: Slot): Elem {
    match slot
    case Unset => SeekEntry(id, 0)
    case At(pos) => SeekEntry(id, pos)
    case Voided => VoidSeekEntry()
  }

  function SlotElems(ids: seq<nat>, slots: seq<Slot>): (es: seq<Elem>)
    requires |ids| == |slots|
    ensures |es| == |ids| && forall i :: 0 <= i < |es| ==> es[i] == SlotElem(ids[i], slots[i])
  {
    if ids == [] then [] else [SlotElem(ids[0], slots[0])] + SlotElems(ids[1..], slots[1..])
  }

  function SeekIds(): (ids: seq<nat>)
    ensures |ids| == 6
  {
    [INFO, TRACKS, CHAPTERS, ATTACHMENTS, TAGS, CUES]
  }

  function SeekHead(slots: seq<Slot>): Elem
    requires |slots| == 6
  {
    Master(SEEK_HEAD, SlotElems(SeekIds(), slots))
  }

  /** The 13 bytes of a Seek entry in front of its position. */
  function SeekPrefix(id: nat): seq<byte> {
    [0x4D, 0xBB, 0x92, 0x53, 0xAB, 0x84] + BE(id, 4) + [0x53, 0xAC, 0x88]
  }

  lemma SeekIdBytes()
    ensures IdBytes(SEEK) == [0x4D, 0xBB] && IdBytes(SEEK_ID) == [0x53, 0xAB] && IdBytes(SEEK_POSITION) == [0x53, 0xAC]
  {
    TwoByteId(SEEK);
    TwoByteId(SEEK_ID);
    TwoByteId(SEEK_POSITION);
  }

  lemma TwoByteId(id: nat)
    requires 0x100 <= id < 0x1_0000
    ensures IdBytes(id) == [id / 256, id % 256]
  {
    assert BE(id, 2) == BE(id / 256, 1) + [id % 256];
    assert BE(id / 256, 1) == BE(id / 256 / 256, 0) + [id / 256 % 256];
  }

  lemma SeekEntryBytes(id: nat, pos: nat)
    ensures Ser(SeekEntry(id, pos)) == SeekPrefix(id) + BE(pos, 8)
    ensures |SeekPrefix(id)| == SEEK_POSITION_OFFSET && |Ser(SeekEntry(id, pos))| == SEEK_ENTRY_LENGTH
  {
    var x, y := Bin(SEEK_ID, BE(id, 4)), Bin(SEEK_POSITION, BE(pos, 8));
    SeekIdBytes();
    OneByteHeader(0, 4);
    OneByteHeader(0, 8);
    OneByteHeader(0, 18);
    hide BE, IdBytes, Vint;
    assert Ser(x) == [0x53, 0xAB, 0x84] + BE(id, 4);
    assert Ser(y) == [0x53, 0xAC, 0x88] + BE(pos, 8);
    SerOne(x);
    SerSnoc([x], y);
    assert [x] + [y] == [x, y];
  }

  lemma SlotSize(id: nat, slot: Slot)
    ensures |Ser(SlotElem(id, slot))| == SEEK_ENTRY_LENGTH
  {
    hide Ser, SeekEntry, VoidSeekEntry;
    match slot
    case Unset => SeekEntryBytes(id, 0);
    case At(pos) => SeekEntryBytes(id, pos);
    case Voided => VoidFillsExactly(SEEK_ENTRY_LENGTH, []); VoidSeekIs();
  }

  lemma VoidSeekIs()
    ensures VoidSeekEntry() == Void(SEEK_ENTRY_LENGTH)
  {
  }

  lemma {:induction false} SlotsSize(ids: seq<nat>, slots: seq<Slot>)
    requires |ids| == |slots|
    ensures |SerAll(SlotElems(ids, slots))| == SEEK_ENTRY_LENGTH * |ids|
  {
    hide Ser, SlotElem;
    if ids != [] {
      SlotSize(ids[0], slots[0]);
      SlotsSize(ids[1..], slots[1..]);
    }
  }

  /** Slot `i` lies at 21 times `i`. */
  lemma SlotSplit(ids: seq<nat>, slots: seq<Slot>, i: nat) returns (before: seq<byte>, after: seq<byte>)
    requires |ids| == |slots| && i < |ids|
    ensures |before| == SEEK_ENTRY_LENGTH * i
    ensures forall slot :: SerAll(SlotElems(ids, slots[i := slot])) == before + Ser(SlotElem(ids[i], slot)) + after
  {
    hide Ser, SlotElem, SerAll;
    before := SerAll(SlotElems(ids[..i], slots[..i]));
    after := SerAll(SlotElems(ids[i + 1..], slots[i + 1..]));
    SlotsSize(ids[..i], slots[..i]);
    forall slot
      ensures SerAll(SlotElems(ids, slots[i := slot])) == before + Ser(SlotElem(ids[i], slot)) + after
    {
      var all := SlotElems(ids, slots[i := slot]);
      SerSplit(all, i);
      assert all[..i] == SlotElems(ids[..i], slots[..i]);
      assert all[i + 1..] == SlotElems(ids[i + 1..], slots[i + 1..]);
    }
  }

  lemma SeekHeadBytes(slots: seq<Slot>)
    requires |slots| == 6
    ensures Ser(SeekHead(slots)) == (IdBytes(SEEK_HEAD) + [0xFE]) + SerAll(SlotElems(SeekIds(), slots))
    ensures |IdBytes(SEEK_HEAD) + [0xFE]| == SEEK_HEAD_HEADER_LENGTH
    ensures |Ser(SeekHead(slots))| == SEEK_HEAD_LENGTH
  {
    hide SlotElems, BE;
    SlotsSize(SeekIds(), slots);
    OneByteHeader(0, 126);
  }

  lemma PatchMiddle(a: seq<byte>, b: seq<byte>, c: seq<byte>, off: nat, x: seq<byte>)
    requires off + |x| <= |b|
    ensures PatchAt(a + b + c, |a| + off, x) == a + PatchAt(b, off, x) + c
  {
  }

  /** The SeekHead around entry `i`. */
  lemma SlotInHead(slots: seq<Slot>, i: nat) returns (front: seq<byte>, after: seq<byte>)
    requires |slots| == 6 && i < 6
    ensures |front| == SEEK_HEAD_HEADER_LENGTH + SEEK_ENTRY_LENGTH * i
    ensures forall slot :: Ser(SeekHead(slots[i := slot])) == front + Ser(SlotElem(SeekIds()[i], slot)) + after
  {
    hide Ser, SerAll, SlotElems, IdBytes, SlotElem, SeekHead;
    var before, rest := SlotSplit(SeekIds(), slots, i);
    front := IdBytes(SEEK_HEAD) + [0xFE] + before;
    after := rest;
    forall slot
      ensures Ser(SeekHead(slots[i := slot])) == front + Ser(SlotElem(SeekIds()[i], slot)) + after
    {
      SeekHeadBytes(slots[i := slot]);
    }
    SeekHeadBytes(slots);
  }

  /** `write_u64_be_at` into entry `i` sets its position and nothing else. */
  lemma PatchPosition(slots: seq<Slot>, i: nat, pos: nat)
    requires |slots| == 6 && i < 6 && !slots[i].Voided?
    ensures SEEK_HEAD_HEADER_LENGTH + SEEK_ENTRY_LENGTH * i + SEEK_POSITION_OFFSET + 8 <= |Ser(SeekHead(slots))|
    ensures PatchAt(Ser(SeekHead(slots)), SEEK_HEAD_HEADER_LENGTH + SEEK_ENTRY_LENGTH * i + SEEK_POSITION_OFFSET,
                    BE(pos, 8))
         == Ser(SeekHead(slots[i := At(pos)]))
  {
    hide Ser, BE, PatchAt, SeekPrefix, SeekHead, SeekEntry;
    var front, after := SlotInHead(slots, i);
    var id := SeekIds()[i];
    var was := if slots[i].Unset? then 0 else slots[i].pos;
    assert slots[i := slots[i]] == slots;
    SeekEntryBytes(id, was);
    SeekEntryBytes(id, pos);
    PatchMiddle(front, Ser(SeekEntry(id, was)), after, SEEK_POSITION_OFFSET, BE(pos, 8));
    PatchTail(SeekPrefix(id), BE(was, 8), BE(pos, 8));
    assert Ser(SeekHead(slots)) == front + Ser(SlotElem(id, slots[i])) + after;
    assert Ser(SeekHead(slots[i := At(pos)])) == front + Ser(SlotElem(id, At(pos))) + after;
  }

  lemma PatchTail(a: seq<byte>, b: seq<byte>, x: seq<byte>)
    requires |b| == |x|
    ensures PatchAt(a + b, |a|, x) == a + x
  {
  }

  /** A whole entry rewritten as a Void. */
  lemma PatchVoid(slots: seq<Slot>, i: nat)
    requires |slots| == 6 && i < 6
    ensures |Ser(VoidSeekEntry())| == SEEK_ENTRY_LENGTH
    ensures SEEK_HEAD_HEADER_LENGTH + SEEK_ENTRY_LENGTH * i + SEEK_ENTRY_LENGTH <= |Ser(SeekHead(slots))|
    ensures PatchAt(Ser(SeekHead(slots)), SEEK_HEAD_HEADER_LENGTH + SEEK_ENTRY_LENGTH * i, Ser(VoidSeekEntry()))
         == Ser(SeekHead(slots[i := Voided]))
  {
    hide Ser, PatchAt, VoidSeekEntry, SeekHead, SeekEntry;
    var front, after := SlotInHead(slots, i);
    var id := SeekIds()[i];
    assert slots[i := slots[i]] == slots;
    SlotSize(id, slots[i]);
    SlotSize(id, Voided);
    PatchMiddle(front, Ser(SlotElem(id, slots[i])), after, 0, Ser(VoidSeekEntry()));
    PatchWhole(Ser(SlotElem(id, slots[i])), Ser(VoidSeekEntry()));
    assert Ser(SeekHead(slots)) == front + Ser(SlotElem(id, slots[i])) + after;
    assert Ser(SeekHead(slots[i := Voided])) == front + Ser(SlotElem(id, Voided)) + after;
  }

  lemma PatchWhole(b: seq<byte>, x: seq<byte>)
    requires |b| == |x|
    ensures PatchAt(b, 0, x) == x
  {
  }
}
