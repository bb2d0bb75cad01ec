/**
 * Patching in place: each seek-and-overwrite of the trailer turns the bytes of one layout into
 * the bytes of the next, and touches nothing outside its slot.
 */
module FilePatches {
  import opened Wrappers
  import opened Bytes
  import opened Ebml
  import opened Crc32
  import opened Ids
  import opened Elements
  import opened SeekHeads
  import opened Tags
  import opened Muxer
  import opened MuxerFile

  /** Everything up to the Segment's data: what was in the file before, the EBML header, the Segment's header. */
  function Opening(l: Setup, base: seq<byte>): seq<byte> {
    base + Ser(HeaderElem(l)) + (IdBytes(SEGMENT) + [0xFF])
  }

  /** The whole file: the opening, the head, the Clusters, and an index behind them. */
  function FileBytes(l: Setup, base: seq<byte>, p: Patches, items: seq<Item>, end: seq<Elem>): seq<byte>
    requires ValidSetup(l)
  {
    Opening(l, base) + SerAll(SegmentHead(l, p)) + (ItemBytes(items) + SerAll(end))
  }

  // ----- where the slots are, from the start of the file -----

  function CuesEntryAt(l: Setup, base: seq<byte>): nat {
    |Opening(l, base)| + SEEK_HEAD_HEADER_LENGTH + 5 * SEEK_ENTRY_LENGTH
  }

  function InfoHeaderLength(l: Setup): nat {
    |IdBytes(INFO)| + |Vint(|SerAll(InfoKids(l, None))| + (if l.strict then 0 else 6), 0)|
  }

  function InfoBodyAt(l: Setup, base: seq<byte>): nat {
    |Opening(l, base)| + InfoAt(l) + InfoHeaderLength(l) + if l.strict then 0 else 6
  }

  function DurationAt(l: Setup, base: seq<byte>): nat {
    InfoBodyAt(l, base) + |SerAll(InfoStart(l))|
  }

  /** The four payload bytes of the Info CRC-32 child. */
  function InfoCrcAt(l: Setup, base: seq<byte>): nat {
    |Opening(l, base)| + InfoAt(l) + InfoHeaderLength(l) + 2
  }

  function SlotAt(l: Setup, base: seq<byte>): nat
    requires ValidSetup(l)
  {
    |Opening(l, base)| + FrontAt(l)
  }

  // ----- the Cues entry -----

  lemma CuesSlots(l: Setup, cues: Slot, now: Slot)
    requires ValidSetup(l)
    ensures Slots(l, cues)[5 := now] == Slots(l, now)
  {
    hide InfoAt, TracksAt, ChaptersAt, AttachmentsAt, TagsAt;
  }

  /** The file around its SeekHead. */
  lemma AroundSeekHead(l: Setup, base: seq<byte>, p: Patches, items: seq<Item>, end: seq<Elem>)
    returns (after: seq<byte>)
    requires ValidSetup(l) && !l.live
    ensures forall cues :: FileBytes(l, base, p.(cues := cues), items, end)
                        == Opening(l, base) + Ser(SeekHead(Slots(l, cues))) + after
  {
    hide Ser, SerAll, SeekHead, Slots, Opening, ItemBytes, TracksElem, InfoElem, Part, ExpansionPart, ValidSetup;
    var rest := ExpansionPart(l) + [InfoElem(l, p.duration)] + [TracksElem(l)]
                + Part(CHAPTERS, ChapterKids(l), l.strict)
                + Part(ATTACHMENTS, l.attachments, false) + Part(TAGS, TagElems(l.tags), l.strict) + p.front;
    after := SerAll(rest) + (ItemBytes(items) + SerAll(end));
    forall cues
      ensures FileBytes(l, base, p.(cues := cues), items, end) == Opening(l, base) + Ser(SeekHead(Slots(l, cues)))
              + after
    {
      var head := SeekHead(Slots(l, cues));
      SevenMore([head], ExpansionPart(l), [InfoElem(l, p.duration)], [TracksElem(l)],
                Part(CHAPTERS, ChapterKids(l), l.strict),
                Part(ATTACHMENTS, l.attachments, false), Part(TAGS, TagElems(l.tags), l.strict), p.front);
      assert SegmentHead(l, p.(cues := cues)) == [head] + rest;
      SerAppend([head], rest);
      SerOne(head);
    }
  }

  lemma SevenMore(x: seq<Elem>, a: seq<Elem>, b: seq<Elem>, c: seq<Elem>, d: seq<Elem>, e: seq<Elem>, f: seq<Elem>,
                  g: seq<Elem>)
    ensures x + a + b + c + d + e + f + g == x + (a + b + c + d + e + f + g)
  {
  }

  lemma PatchCuesPosition(l: Setup, base: seq<byte>, p: Patches, items: seq<Item>, end: seq<Elem>, pos: nat)
    requires ValidSetup(l) && !l.live && p.cues == Unset
    ensures CuesEntryAt(l, base) + SEEK_POSITION_OFFSET + 8 <= |FileBytes(l, base, p, items, end)|
    ensures PatchAt(FileBytes(l, base, p, items, end), CuesEntryAt(l, base) + SEEK_POSITION_OFFSET, BE(pos, 8))
         == FileBytes(l, base, p.(cues := At(pos)), items, end)
  {
    hide Ser, SeekHead, Slots, Opening, FileBytes, BE, PatchAt;
    var after := AroundSeekHead(l, base, p, items, end);
    assert p.(cues := Unset) == p;
    var off := SEEK_HEAD_HEADER_LENGTH + SEEK_ENTRY_LENGTH * 5 + SEEK_POSITION_OFFSET;
    CuesSlots(l, Unset, At(pos));
    assert Slots(l, Unset)[5] == Unset by { LastSlot(l, Unset); }
    PatchPosition(Slots(l, Unset), 5, pos);
    PatchMiddle(Opening(l, base), Ser(SeekHead(Slots(l, Unset))), after, off, BE(pos, 8));
    assert FileBytes(l, base, p.(cues := At(pos)), items, end) == Opening(l, base) + Ser(SeekHead(Slots(l, At(pos))))
           + after;
  }

  lemma LastSlot(l: Setup, cues: Slot)
    requires ValidSetup(l)
    ensures Slots(l, cues)[5] == cues
  {
    hide InfoAt, TracksAt, ChaptersAt, AttachmentsAt, TagsAt;
  }

  lemma PatchCuesVoid(l: Setup, base: seq<byte>, p: Patches, items: seq<Item>, end: seq<Elem>)
    requires ValidSetup(l) && !l.live && p.cues == Unset
    ensures |Ser(VoidSeekEntry())| == SEEK_ENTRY_LENGTH
    ensures CuesEntryAt(l, base) + SEEK_ENTRY_LENGTH <= |FileBytes(l, base, p, items, end)|
    ensures PatchAt(FileBytes(l, base, p, items, end), CuesEntryAt(l, base), Ser(VoidSeekEntry()))
         == FileBytes(l, base, p.(cues := Voided), items, end)
  {
    hide Ser, SeekHead, Slots, Opening, FileBytes, PatchAt, VoidSeekEntry;
    var after := AroundSeekHead(l, base, p, items, end);
    assert p.(cues := Unset) == p;
    var off := SEEK_HEAD_HEADER_LENGTH + SEEK_ENTRY_LENGTH * 5;
    CuesSlots(l, Unset, Voided);
    PatchVoid(Slots(l, Unset), 5);
    PatchMiddle(Opening(l, base), Ser(SeekHead(Slots(l, Unset))), after, off, Ser(VoidSeekEntry()));
    assert FileBytes(l, base, p.(cues := Voided), items, end) == Opening(l, base) + Ser(SeekHead(Slots(l, Voided)))
           + after;
  }

  // ----- the Duration and the Info CRC-32 -----

  /** The Info element around its Duration slot; without strict WebM, `crc` covers the body. */
  lemma InfoBytes(l: Setup, d: Option<seq<byte>>)
    requires l.finalize && (d.Some? ==> |d.value| == 8)
    ensures var before, slot, after := SerAll(InfoStart(l)), Ser(DurationElem(d)), SerAll(InfoEnd(l));
            var size := Vint(|SerAll(InfoKids(l, None))| + (if l.strict then 0 else 6), 0);
            && SerAll(InfoKids(l, d)) == before + slot + after
            && Ser(InfoElem(l, d)) == IdBytes(INFO) + size
               + (if l.strict then [] else [0xBF, 0x84] + LE4(Crc(before + slot + after))) + (before + slot + after)
  {
    hide Ser, SerAll, InfoStart, DurationElem, InfoKids, IdBytes, Vint, Crc, LE4, TopLevel;
    InfoKidsBytes(l, d);
    InfoKidsSize(l, d);
    TopLevelBytes(INFO, InfoKids(l, d), l.strict);
  }

  /** The cached body with the Duration copied over its slot. */
  lemma PatchedBody(l: Setup, d: seq<byte>)
    requires l.finalize && |d| == 8
    ensures |SerAll(InfoStart(l))| + DURATION_SLOT_LENGTH <= |SerAll(InfoKids(l, None))|
    ensures |Ser(DurationElem(Some(d)))| == DURATION_SLOT_LENGTH
    ensures PatchAt(SerAll(InfoKids(l, None)), |SerAll(InfoStart(l))|, Ser(DurationElem(Some(d))))
         == SerAll(InfoKids(l, Some(d)))
  {
    hide Ser, SerAll, InfoStart, DurationElem, InfoKids;
    InfoKidsBytes(l, None);
    InfoKidsBytes(l, Some(d));
    DurationSize(None);
    DurationSize(Some(d));
    PatchMiddle(SerAll(InfoStart(l)), Ser(DurationElem(None)), SerAll(InfoEnd(l)), 0, Ser(DurationElem(Some(d))));
    PatchWhole(Ser(DurationElem(None)), Ser(DurationElem(Some(d))));
  }

  /** The file around its Info element. */
  lemma AroundInfo(l: Setup, base: seq<byte>, p: Patches, items: seq<Item>, end: seq<Elem>)
    returns (before: seq<byte>, after: seq<byte>)
    requires ValidSetup(l)
    ensures |before| == |Opening(l, base)| + InfoAt(l)
    ensures forall d :: FileBytes(l, base, p.(duration := d), items, end) == before + Ser(InfoElem(l, d)) + after
  {
    hide Ser, SerAll, SeekPart, Opening, ItemBytes, TracksElem, InfoElem, Part, InfoAt;
    var seek := SeekPart(l, p.cues);
    var rest := [TracksElem(l)] + Part(CHAPTERS, ChapterKids(l), l.strict)
                + Part(ATTACHMENTS, l.attachments, false) + Part(TAGS, TagElems(l.tags), l.strict) + p.front;
    SeekPartSize(l, p.cues);
    before := Opening(l, base) + SerAll(seek);
    after := SerAll(rest) + (ItemBytes(items) + SerAll(end));
    forall d
      ensures FileBytes(l, base, p.(duration := d), items, end) == before + Ser(InfoElem(l, d)) + after
    {
      var info := InfoElem(l, d);
      assert SegmentHead(l, p.(duration := d)) == seek + [info] + rest;
      SerAppend(seek + [info], rest);
      SerSnoc(seek, info);
    }
  }

  /** The two writes of `patch_info_duration`. */
  function DurationPatched(l: Setup, base: seq<byte>, file: seq<byte>, d: seq<byte>): seq<byte>
    requires DurationAt(l, base) + DURATION_SLOT_LENGTH <= |file|
             && |Ser(DurationElem(Some(d)))| == DURATION_SLOT_LENGTH
    requires !l.strict ==> InfoCrcAt(l, base) + 4 <= |file|
  {
    CrcIsFour(SerAll(InfoKids(l, Some(d))));
    var first := PatchAt(file, DurationAt(l, base), Ser(DurationElem(Some(d))));
    if l.strict then first else PatchAt(first, InfoCrcAt(l, base), LE4(Crc(SerAll(InfoKids(l, Some(d))))))
  }

  lemma PatchLater(top: seq<byte>, a: seq<byte>, mid: seq<byte>, b: seq<byte>, after: seq<byte>, y: seq<byte>)
    requires |b| == |y|
    ensures PatchAt(top + a + mid + b + after, |top| + |a| + |mid|, y) == top + a + mid + y + after
  {
    hide PatchAt;
    PatchOne(top + a + mid, b, after, y);
  }

  lemma PatchEarlier(top: seq<byte>, a: seq<byte>, mid: seq<byte>, y: seq<byte>, after: seq<byte>, x: seq<byte>)
    requires |a| == |x|
    ensures PatchAt(top + a + mid + y + after, |top|, x) == top + x + mid + y + after
  {
    hide PatchAt;
    Regroup(top, a, mid, y, after);
    Regroup(top, x, mid, y, after);
    PatchOne(top, a, mid + y + after, x);
  }

  /** Overwriting one of two neighbouring pieces, and then the other. */
  lemma PatchTwo(top: seq<byte>, a: seq<byte>, mid: seq<byte>, b: seq<byte>, after: seq<byte>, x: seq<byte>,
                 y: seq<byte>)
    requires |a| == |x| && |b| == |y|
    ensures var file := top + a + mid + b + after;
            var once := PatchAt(file, |top| + |a| + |mid|, y);
            && once == top + a + mid + y + after
            && PatchAt(once, |top|, x) == top + x + mid + y + after
  {
    hide PatchAt;
    PatchLater(top, a, mid, b, after, y);
    PatchEarlier(top, a, mid, y, after, x);
  }

  lemma PatchOne(a: seq<byte>, b: seq<byte>, c: seq<byte>, x: seq<byte>)
    requires |b| == |x|
    ensures PatchAt(a + b + c, |a|, x) == a + x + c
  {
    PatchMiddle(a, b, c, 0, x);
    PatchWhole(b, x);
  }

  lemma Regroup(top: seq<byte>, a: seq<byte>, mid: seq<byte>, b: seq<byte>, after: seq<byte>)
    ensures top + a + mid + b + after == top + a + (mid + b + after)
  {
  }

  /** The file with its Info element taken apart. */
  lemma AroundDuration(l: Setup, base: seq<byte>, p: Patches, items: seq<Item>, end: seq<Elem>)
    returns (top: seq<byte>, after: seq<byte>)
    requires ValidSetup(l) && l.finalize
    ensures |top| == if l.strict then DurationAt(l, base) - |SerAll(InfoStart(l))| else InfoCrcAt(l, base)
    ensures forall d: Option<seq<byte>> :: (d.Some? ==> |d.value| == 8) ==>
              var body := SerAll(InfoStart(l)) + Ser(DurationElem(d)) + SerAll(InfoEnd(l));
              FileBytes(l, base, p.(duration := d), items, end)
              == top + (if l.strict then [] else LE4(Crc(body))) + SerAll(InfoStart(l)) + Ser(DurationElem(d)) + after
  {
    hide Ser, SerAll, InfoStart, DurationElem, InfoKids, InfoElem, IdBytes, Vint, Crc, LE4, Opening, FileBytes, InfoAt;
    var before, rest := AroundInfo(l, base, p, items, end);
    var head := before + (IdBytes(INFO) + Vint(|SerAll(InfoKids(l, None))| + (if l.strict then 0 else 6), 0));
    top := if l.strict then head else head + [0xBF, 0x84];
    after := SerAll(InfoEnd(l)) + rest;
    forall d: Option<seq<byte>> | d.Some? ==> |d.value| == 8
      ensures var body := SerAll(InfoStart(l)) + Ser(DurationElem(d)) + SerAll(InfoEnd(l));
              FileBytes(l, base, p.(duration := d), items, end)
              == top + (if l.strict then [] else LE4(Crc(body))) + SerAll(InfoStart(l)) + Ser(DurationElem(d)) + after
    {
      InfoBytes(l, d);
    }
  }

  lemma PatchDuration(l: Setup, base: seq<byte>, p: Patches, items: seq<Item>, end: seq<Elem>, d: seq<byte>)
    requires ValidSetup(l) && l.finalize && p.duration == None && |d| == 8
    ensures var file := FileBytes(l, base, p, items, end);
            && DurationAt(l, base) + DURATION_SLOT_LENGTH <= |file|
            && |Ser(DurationElem(Some(d)))| == DURATION_SLOT_LENGTH
            && (!l.strict ==> InfoCrcAt(l, base) + 4 <= |file|)
            && DurationPatched(l, base, file, d) == FileBytes(l, base, p.(duration := Some(d)), items, end)
  {
    hide Ser, SerAll, InfoStart, DurationElem, InfoKids, IdBytes, Vint, Crc, LE4, Opening, FileBytes, PatchAt, InfoAt,
      ValidSetup, InfoHeaderLength;
    var top, after := AroundDuration(l, base, p, items, end);
    assert p.(duration := None) == p;
    DurationSize(None);
    DurationSize(Some(d));
    InfoKidsBytes(l, Some(d));
    var start, gap, fill := SerAll(InfoStart(l)), Ser(DurationElem(None)), Ser(DurationElem(Some(d)));
    var bodyGap, bodyFill := start + gap + SerAll(InfoEnd(l)), start + fill + SerAll(InfoEnd(l));
    CrcIsFour(bodyGap);
    CrcIsFour(bodyFill);
    if l.strict {
      PatchTwo(top, [], start, gap, after, [], fill);
    } else {
      PatchTwo(top, LE4(Crc(bodyGap)), start, gap, after, LE4(Crc(bodyFill)), fill);
    }
  }

  // ----- the reserved slot -----

  /** The file around the reserved slot. */
  lemma AroundSlot(l: Setup, base: seq<byte>, p: Patches, items: seq<Item>, end: seq<Elem>)
    returns (before: seq<byte>, after: seq<byte>)
    requires ValidSetup(l) && ValidPatches(l, p)
    ensures |before| == SlotAt(l, base)
    ensures forall front :: FileBytes(l, base, p.(front := front), items, end) == before + SerAll(front) + after
  {
    hide Ser, SerAll, SeekPart, Opening, ItemBytes, TracksElem, InfoElem, Part, FrontAt, ValidPatches, TagsAt,
      AttachmentsAt, ChaptersAt, TracksAt, InfoAt;
    HeadLayout(l, p);
    var most := SeekPart(l, p.cues) + [InfoElem(l, p.duration)] + [TracksElem(l)]
                + Part(CHAPTERS, ChapterKids(l), l.strict)
                + Part(ATTACHMENTS, l.attachments, false) + Part(TAGS, TagElems(l.tags), l.strict);
    before, after := Opening(l, base) + SerAll(most), ItemBytes(items) + SerAll(end);
    forall front
      ensures FileBytes(l, base, p.(front := front), items, end) == before + SerAll(front) + after
    {
      SerAppend(most, front);
      assert SegmentHead(l, p.(front := front)) == most + front;
    }
  }

  lemma PatchFront(l: Setup, base: seq<byte>, p: Patches, items: seq<Item>, end: seq<Elem>, front: seq<Elem>)
    requires ValidSetup(l) && ValidPatches(l, p) && |SerAll(front)| == |SerAll(p.front)|
    ensures SlotAt(l, base) + |SerAll(front)| <= |FileBytes(l, base, p, items, end)|
    ensures PatchAt(FileBytes(l, base, p, items, end), SlotAt(l, base), SerAll(front))
         == FileBytes(l, base, p.(front := front), items, end)
  {
    hide SerAll, PatchAt, FileBytes, SlotAt, ValidSetup, ValidPatches;
    var before, after := AroundSlot(l, base, p, items, end);
    assert p.(front := p.front) == p;
    PatchOne(before, SerAll(p.front), after, SerAll(front));
  }
}
