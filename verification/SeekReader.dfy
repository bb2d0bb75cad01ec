/** The SeekHead as a reader finds it in the bytes of a finished file, and where its entries lead. */
module SeekReader {
  import opened Wrappers
  import opened Bytes
  import opened Ebml
  import opened Ids
  import opened Elements
  import opened Splitter
  import opened TreeReader
  import opened Voids
  import opened FrontCues
  import opened SeekHeads
  import opened Tags
  import opened Muxer
  import opened MuxerRun
  import opened MuxerFile
  import opened Trailer
  import opened EndToEnd
  import opened FileReader
  import opened SeekHeadTruth

  // ----- a reader -----

  /** SeekID and SeekPosition of one entry. */
  function ReadSeek(body: seq<byte>): (nat, nat) {
    (FromBE(BytesIn(Kids(body), 0x53AB, [])), FromBE(BytesIn(Kids(body), 0x53AC, [])))
  }

  function ReadSeeks(bodies: seq<seq<byte>>): seq<(nat, nat)> {
    if bodies == [] then [] else [ReadSeek(bodies[0])] + ReadSeeks(bodies[1..])
  }

  /** The entries in the data of a SeekHead; fillers are no entries. */
  function ReadSeekHead(body: seq<byte>): seq<(nat, nat)> {
    ReadSeeks(All(Kids(body), 0x4DBB))
  }

  // ----- what it finds -----

  function EntriesTold(ids: seq<nat>, slots: seq<Slot>): seq<(nat, nat)>
    requires |ids| == |slots|
  {
    if ids == [] then []
    else
      (match slots[0]
       case At(pos) => [(ids[0], pos)]
       case Unset => [(ids[0], 0)]
       case Voided => [])
      + EntriesTold(ids[1..], slots[1..])
  }

  predicate Small(ids: seq<nat>, slots: seq<Slot>) {
    (forall i :: 0 <= i < |ids| ==> ids[i] < TWO_TO_THE_32)
    && forall i :: 0 <= i < |slots| ==> slots[i].At? ==> slots[i].pos < TWO_TO_THE_64
  }

  lemma SeekReads(id: nat, pos: nat)
    requires id < TWO_TO_THE_32 && pos < TWO_TO_THE_64 && Fits(SeekEntry(id, pos))
    ensures ReadSeek(Body(SeekEntry(id, pos))) == (id, pos)
  {
    hide BE, Fits, FitAll, Kids, Find, FromBE;
    var a, b := Bin(SEEK_ID, BE(id, 4)), Bin(SEEK_POSITION, BE(pos, 8));
    assert [a, b] == [a] + [b];
    MasterKids(SEEK, [a, b]);
    FieldSum([a], [b], 0x53AB);
    FieldSum([a], [b], 0x53AC);
    FieldOne(a, 0x53AB);
    FieldOne(a, 0x53AC);
    FieldOne(b, 0x53AC);
    Powers();
    BEInverse(id, 4);
    BEInverse(pos, 8);
  }

  lemma Powers()
    ensures Pow256(4) == TWO_TO_THE_32 && Pow256(8) == TWO_TO_THE_64
  {
    assert Pow256(2) == 0x1_0000;
    assert Pow256(4) == 0x1_0000_0000;
    assert Pow256(6) == 0x1_0000_0000_0000;
  }

  lemma SlotKinds(id: nat, slot: Slot)
    ensures !SlotElem(id, slot).Open? && SlotElem(id, slot).id == if slot.Voided? then 0xEC else 0x4DBB
  {
    hide VoidWidth, BE;
  }

  lemma {:induction false} SlotsRead(ids: seq<nat>, slots: seq<Slot>)
    requires |ids| == |slots| && Small(ids, slots) && FitAll(SlotElems(ids, slots))
    ensures Sized(SlotElems(ids, slots))
    ensures ReadSeeks(Fields(SlotElems(ids, slots), 0x4DBB)) == EntriesTold(ids, slots)
  {
    hide ReadSeek, SlotElem, Fits, Body, Find;
    if ids == [] {
      NothingThere(0x4DBB);
    } else {
      var first, rest := SlotElem(ids[0], slots[0]), SlotElems(ids[1..], slots[1..]);
      assert SlotElems(ids, slots) == [first] + rest;
      FitAppend([first], rest);
      FitAt([first], 0);
      SlotKinds(ids[0], slots[0]);
      assert forall i :: 0 <= i < |slots| - 1 ==> slots[1..][i] == slots[i + 1];
      SlotsRead(ids[1..], slots[1..]);
      FieldSum([first], rest, 0x4DBB);
      FieldOne(first, 0x4DBB);
      FirstSlot(ids[0], slots[0]);
      if slots[0].Voided? {
        assert [] + Fields(rest, 0x4DBB) == Fields(rest, 0x4DBB);
      } else {
        assert ([Body(first)] + Fields(rest, 0x4DBB))[1..] == Fields(rest, 0x4DBB);
      }
    }
  }

  lemma FirstSlot(id: nat, slot: Slot)
    requires id < TWO_TO_THE_32 && (slot.At? ==> slot.pos < TWO_TO_THE_64) && Fits(SlotElem(id, slot))
    ensures slot.At? ==> ReadSeek(Body(SlotElem(id, slot))) == (id, slot.pos)
    ensures slot.Unset? ==> ReadSeek(Body(SlotElem(id, slot))) == (id, 0)
  {
    hide ReadSeek, SeekEntry, Fits, Body, VoidWidth;
    if slot.At? {
      SeekReads(id, slot.pos);
    } else if slot.Unset? {
      SeekReads(id, 0);
    }
  }

  /** The SeekHead is the first child of a Segment that is no live stream. */
  lemma SeekHeadIsFirst(l: Setup, p: Patches, rest: seq<Elem>)
    requires ValidSetup(l) && !l.live && FitAll(SegmentHead(l, p) + rest)
    ensures Field(SegmentHead(l, p) + rest, 0x114D9B74) == Some(Body(SeekHead(Slots(l, p.cues))))
    ensures FitAll(SlotElems(SeekIds(), Slots(l, p.cues)))
  {
    hide Field, Fields, FitAll, Fits, InfoElem, TracksElem, Part, ChapterKids, TagElems, Slots, SlotElems, UsesV5,
      Numbered, FourccsOk, ExpansionPart, Body;
    var head := SeekHead(Slots(l, p.cues));
    var more := ExpansionPart(l) + [InfoElem(l, p.duration)] + [TracksElem(l)]
                + Part(CHAPTERS, ChapterKids(l), l.strict) + Part(ATTACHMENTS, l.attachments, false)
                + Part(TAGS, TagElems(l.tags), l.strict) + p.front + rest;
    HeadFirst(head, ExpansionPart(l), [InfoElem(l, p.duration)], [TracksElem(l)],
              Part(CHAPTERS, ChapterKids(l), l.strict), Part(ATTACHMENTS, l.attachments, false),
              Part(TAGS, TagElems(l.tags), l.strict), p.front, rest);
    assert SegmentHead(l, p) + rest == [head] + more;
    FieldSum([head], more, 0x114D9B74);
    FieldOne(head, 0x114D9B74);
    FitAppend([head], more);
    FitAt([head], 0);
    KidsFit(head);
  }

  lemma KidsFit(e: Elem)
    requires Fits(e) && e.Node?
    ensures FitAll(e.kids)
  {
  }

  lemma HeadFirst(head: Elem, x: seq<Elem>, i: seq<Elem>, t: seq<Elem>, a: seq<Elem>, b: seq<Elem>, g: seq<Elem>,
                  f: seq<Elem>, rest: seq<Elem>)
    ensures ([head] + x) + i + t + a + b + g + f + rest == [head] + (x + i + t + a + b + g + f + rest)
  {
  }

  lemma FieldIffPresent(es: seq<Elem>, id: nat)
    ensures Field(es, id).Some? <==> !Without(es, id)
  {
    if es != [] {
      assert es == [es[0]] + es[1..];
      FieldIffPresent(es[1..], id);
      FieldSum([es[0]], es[1..], id);
      FieldOne(es[0], id);
      WithoutMore(es, id);
    } else {
      NothingThere(id);
    }
  }

  lemma WithoutMore(es: seq<Elem>, id: nat)
    requires es != []
    ensures Without(es, id) <==> es[0].id != id && Without(es[1..], id)
  {
    assert forall i :: 0 <= i < |es| - 1 ==> es[1..][i] == es[i + 1];
    assert forall i :: 1 <= i < |es| ==> es[i] == es[1..][i - 1];
  }

  // ----- where the entries lead -----

  /** At this position of the Segment's data there is the header of an element with this ID. */
  predicate LeadsTo(segment: seq<byte>, id: nat, pos: nat) {
    pos <= |segment| && DecodeHeader(segment[pos..]).Success? && DecodeHeader(segment[pos..]).value.id == id
  }

  predicate Lists(entries: seq<(nat, nat)>, id: nat) {
    exists k :: 0 <= k < |entries| && entries[k].0 == id
  }

  /** The entry is that of one of the slots. */
  predicate FromSlot(entry: (nat, nat), ids: seq<nat>, slots: seq<Slot>)
    requires |ids| == |slots|
  {
    exists i :: 0 <= i < |ids| && ids[i] == entry.0 && slots[i] == At(entry.1)
  }

  lemma FromLaterSlot(entry: (nat, nat), ids: seq<nat>, slots: seq<Slot>)
    requires |ids| == |slots| > 0 && FromSlot(entry, ids[1..], slots[1..])
    ensures FromSlot(entry, ids, slots)
  {
    var i :| 0 <= i < |ids[1..]| && ids[1..][i] == entry.0 && slots[1..][i] == At(entry.1);
    assert ids[i + 1] == entry.0 && slots[i + 1] == At(entry.1);
  }

  lemma {:induction false} EntriesAreFromSlots(ids: seq<nat>, slots: seq<Slot>)
    requires |ids| == |slots| && forall i :: 0 <= i < |slots| ==> !slots[i].Unset?
    ensures forall entry :: entry in EntriesTold(ids, slots) ==> FromSlot(entry, ids, slots)
  {
    hide FromSlot;
    if ids != [] {
      EntriesAreFromSlots(ids[1..], slots[1..]);
      forall entry | entry in EntriesTold(ids, slots)
        ensures FromSlot(entry, ids, slots)
      {
        if entry in EntriesTold(ids[1..], slots[1..]) {
          FromLaterSlot(entry, ids, slots);
        } else {
          FromFirstSlot(entry, ids, slots);
        }
      }
    }
  }

  lemma FromFirstSlot(entry: (nat, nat), ids: seq<nat>, slots: seq<Slot>)
    requires |ids| == |slots| > 0 && slots[0] == At(entry.1) && ids[0] == entry.0
    ensures FromSlot(entry, ids, slots)
  {
  }

  lemma {:induction false} SlotsAreTold(ids: seq<nat>, slots: seq<Slot>, i: nat)
    requires |ids| == |slots| && i < |ids| && slots[i].At? && forall j :: 0 <= j < |slots| ==> !slots[j].Unset?
    ensures (ids[i], slots[i].pos) in EntriesTold(ids, slots)
  {
    if i > 0 {
      SlotsAreTold(ids[1..], slots[1..], i - 1);
    }
  }

  /** Every slot that is no filler is one entry, and there are no others. */
  lemma ToldEntries(ids: seq<nat>, slots: seq<Slot>, segment: seq<byte>)
    requires |ids| == |slots|
    requires forall i :: 0 <= i < |slots| ==>
               !slots[i].Unset? && (slots[i].At? ==> LeadsTo(segment, ids[i], slots[i].pos))
    ensures var entries := EntriesTold(ids, slots);
            && (forall k :: 0 <= k < |entries| ==>
                  LeadsTo(segment, entries[k].0, entries[k].1) && FromSlot(entries[k], ids, slots))
            && (forall i :: 0 <= i < |ids| && slots[i].At? ==> Lists(entries, ids[i]))
  {
    hide LeadsTo, EntriesTold;
    var entries := EntriesTold(ids, slots);
    EntriesAreFromSlots(ids, slots);
    forall k | 0 <= k < |entries|
      ensures LeadsTo(segment, entries[k].0, entries[k].1) && FromSlot(entries[k], ids, slots)
    {
      assert entries[k] in entries;
      var i :| 0 <= i < |ids| && ids[i] == entries[k].0 && slots[i] == At(entries[k].1);
    }
    forall i | 0 <= i < |ids| && slots[i].At?
      ensures Lists(entries, ids[i])
    {
      SlotsAreTold(ids, slots, i);
    }
  }

  lemma IdsAreSmall()
    ensures forall i :: 0 <= i < 6 ==> SeekIds()[i] < TWO_TO_THE_32
  {
  }

  lemma FoundLeads(children: seq<Elem>, id: nat, pos: nat)
    requires Found(children, id, pos) && FitAll(children)
    ensures LeadsTo(SerAll(children), id, pos)
  {
    hide SerAll, DecodeHeader, FitAll, Found;
    FoundBytes(children, id, pos, []);
    assert [] + SerAll(children) == SerAll(children);
  }

  /** One of the six: Info, Tracks, Chapters, Attachments, Tags, Cues. */
  predicate Seekable(id: nat) {
    id == 0x1549A966 || id == 0x1654AE6B || id == 0x1043A770 || id == 0x1941A469 || id == 0x1254C367 || id == 0x1C53BB6B
  }

  lemma SeekableIsListed(id: nat)
    requires Seekable(id)
    ensures exists i :: 0 <= i < 6 && SeekIds()[i] == id
  {
    assert SeekIds()[0] == 0x1549A966 && SeekIds()[1] == 0x1654AE6B && SeekIds()[2] == 0x1043A770;
    assert SeekIds()[3] == 0x1941A469 && SeekIds()[4] == 0x1254C367 && SeekIds()[5] == 0x1C53BB6B;
  }

  /** Slot by slot: no filler where there is an element, and a position that leads to it. */
  lemma SlotLeads(l: Setup, calls: seq<Call>, i: nat)
    requires ValidSetup(l) && ValidConfig(ConfigOf(l)) && RunFrom(ConfigOf(l), calls).outcome != Halted
    requires !l.live && i < 6 && InnerLength(FlushedState(l, calls).cues, l.strict) < SIZE_LIMIT
    requires var s := FlushedState(l, calls); FitAll(Children(l, s, Finished(l, s)))
    ensures var s := FlushedState(l, calls);
            var f := Finished(l, s);
            var children, slot := Children(l, s, f), Slots(l, f.patches.cues)[i];
            && !slot.Unset? && (slot.At? <==> !Without(children, SeekIds()[i]))
            && (slot.At? ==> LeadsTo(SerAll(children), SeekIds()[i], slot.pos))
  {
    hide FlushedState, Slots, SeekIds, Finished, Children, Without, Found, ValidSetup, InnerLength, Inv, Sound, RunFrom,
      ConfigOf, ValidConfig, LeadsTo, FitAll, SerAll;
    SeekHeadIsComplete(l, calls, i);
    var s := FlushedState(l, calls);
    var f := Finished(l, s);
    var slot := Slots(l, f.patches.cues)[i];
    if slot.At? {
      FoundLeads(Children(l, s, f), SeekIds()[i], slot.pos);
    }
  }

  /** The entries as they are read, and where they lead. */
  lemma SeekHeadEntries(l: Setup, calls: seq<Call>)
    requires ValidSetup(l) && ValidConfig(ConfigOf(l)) && RunFrom(ConfigOf(l), calls).outcome != Halted
    requires !l.live && InnerLength(FlushedState(l, calls).cues, l.strict) < SIZE_LIMIT
    requires var s := FlushedState(l, calls);
             var f := Finished(l, s);
             && FitAll(Children(l, s, f)) && |SerAll(Children(l, s, f))| < TWO_TO_THE_64
             && FitAll(SlotElems(SeekIds(), Slots(l, f.patches.cues)))
    ensures var s := FlushedState(l, calls);
            var f := Finished(l, s);
            var children, entries := Children(l, s, f), ReadSeekHead(Body(SeekHead(Slots(l, f.patches.cues))));
            && (forall k :: 0 <= k < |entries| ==>
                  Seekable(entries[k].0) && LeadsTo(SerAll(children), entries[k].0, entries[k].1))
            && (forall id :: Seekable(id) ==> (Lists(entries, id) <==> Field(children, id).Some?))
  {
    hide FlushedState, Slots, Finished, Children, ValidSetup, InnerLength, Inv, Sound, RunFrom, ConfigOf, ValidConfig,
      LeadsTo, FitAll, SerAll, Field, SlotElems, ReadSeeks, Kids, EntriesTold, Without, SeekIds, Seekable, Lists;
    var s := FlushedState(l, calls);
    var f := Finished(l, s);
    var children, slots := Children(l, s, f), Slots(l, f.patches.cues);
    forall i | 0 <= i < 6
      ensures !slots[i].Unset? && (slots[i].At? <==> !Without(children, SeekIds()[i]))
      ensures slots[i].At? ==> LeadsTo(SerAll(children), SeekIds()[i], slots[i].pos)
      ensures slots[i].At? ==> slots[i].pos < TWO_TO_THE_64
    {
      SlotLeads(l, calls, i);
      if slots[i].At? {
        LeadsInside(SerAll(children), SeekIds()[i], slots[i].pos);
      }
    }
    IdsAreSmall();
    SlotsRead(SeekIds(), slots);
    KidsRead(SlotElems(SeekIds(), slots));
    ToldEntries(SeekIds(), slots, SerAll(children));
    EntriesMatch(children, slots, EntriesTold(SeekIds(), slots));
  }

  lemma LeadsInside(segment: seq<byte>, id: nat, pos: nat)
    requires LeadsTo(segment, id, pos)
    ensures pos <= |segment|
  {
  }

  lemma EntriesMatch(children: seq<Elem>, slots: seq<Slot>, entries: seq<(nat, nat)>)
    requires |slots| == 6
    requires forall i :: 0 <= i < 6 ==> (slots[i].At? <==> !Without(children, SeekIds()[i]))
    requires forall k :: 0 <= k < |entries| ==> FromSlot(entries[k], SeekIds(), slots)
    requires forall i :: 0 <= i < 6 && slots[i].At? ==> Lists(entries, SeekIds()[i])
    ensures forall k :: 0 <= k < |entries| ==> Seekable(entries[k].0)
    ensures forall id :: Seekable(id) ==> (Lists(entries, id) <==> Field(children, id).Some?)
  {
    hide Without, Field;
    forall id | Seekable(id)
      ensures Lists(entries, id) <==> Field(children, id).Some?
    {
      FieldIffPresent(children, id);
      SeekableIsListed(id);
      var i :| 0 <= i < 6 && SeekIds()[i] == id;
      if Lists(entries, id) {
        var k :| 0 <= k < |entries| && entries[k].0 == id;
        var j :| 0 <= j < 6 && SeekIds()[j] == entries[k].0 && slots[j] == At(entries[k].1);
        assert SeekIds()[j] == id;
      }
    }
  }

  /**
   * A reader of the finished bytes finds a SeekHead, except in a live stream; each of its entries
   * leads to the header of an element with the entry's ID, and of the six kinds of elements that it can
   * list it lists exactly those that the Segment has.
   */
  lemma SeekHeadReadsBack(l: Setup, calls: seq<Call>)
    requires ValidSetup(l) && ValidConfig(ConfigOf(l)) && RunFrom(ConfigOf(l), calls).outcome != Halted && !l.live
    requires FinishedFits(l, FlushedState(l, calls))
    requires var d := ReadDocument(FinishedBytes(l, FlushedState(l, calls)));
             d.Some? ==> |d.value.1| < TWO_TO_THE_64
    ensures var d := ReadDocument(FinishedBytes(l, FlushedState(l, calls)));
            && d.Some?
            && var seek := FindTop(d.value.1, 0x114D9B74);
               && seek.Some?
               && var entries := ReadSeekHead(seek.value);
                  && (forall k :: 0 <= k < |entries| ==>
                        Seekable(entries[k].0) && LeadsTo(d.value.1, entries[k].0, entries[k].1))
                  && (forall id :: Seekable(id) ==> (Lists(entries, id) <==> FindTop(d.value.1, id).Some?))
  {
    hide Slots, SeekIds, ValidSetup, InnerLength, Inv, Sound, RunFrom, ConfigOf, ValidConfig, LeadsTo, FitAll, SerAll,
      ReadDocument, FinishedFits, FinishedBytes, FindTop, Field, Segmented, HeaderElem, FlushedState, Seekable;
    var s := FlushedState(l, calls);
    FitsInner(l, s);
    var f := Finished(l, s);
    var children, slots := Children(l, s, f), Slots(l, f.patches.cues);
    FinishedReads(l, s);
    TopIsFound(children, 0x114D9B74);
    SeekHeadIsFirst(l, f.patches, ItemElems(s.items) + f.end);
    SeekHeadEntries(l, calls);
    TopsAreFields(children);
  }

  lemma TopsAreFields(children: seq<Elem>)
    requires Segmented(children) && FitAll(children)
    ensures forall id :: FindTop(SerAll(children), id) == Field(children, id)
  {
    hide Segmented, FitAll, FindTop, SerAll, Field;
    forall id: nat
      ensures FindTop(SerAll(children), id) == Field(children, id)
    {
      TopIsFound(children, id);
    }
  }
}
