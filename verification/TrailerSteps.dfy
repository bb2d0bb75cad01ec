/** The steps of `write_trailer`, seen from the file: where the index goes, and the three patches. */
module TrailerSteps {
  import opened Wrappers
  import opened Bytes
  import opened Ebml
  import opened Ids
  import opened Elements
  import opened Voids
  import opened Cues
  import opened FrontCues
  import opened SeekHeads
  import opened Tags
  import opened TagWriter
  import opened Muxer
  import opened MuxerRun
  import opened MuxerFile
  import opened FilePatches
  import opened Trailer
  import opened MuxerSteps

  /** The index, if there is one, overflows nothing. */
  predicate CanIndex(l: Setup, s: State) {
    && ValidSetup(l)
    && AllNarrow(s.cues) && Fits(CuesElem(s.cues, l.strict, 0)) && InnerLength(s.cues, l.strict) < SIZE_LIMIT
  }

  /** Where the index is, from the start of the Segment's data. */
  function Placement(l: Setup, s: State): Option<nat>
    requires CanIndex(l, s)
  {
    if l.live || s.cues == [] then None
    else if InSlot(l, s.cues).Some? then Some(FrontAt(l))
    else Some(Cursor(ConfigOf(l), s))
  }

  function SlotKids(l: Setup, s: State): seq<Elem>
    requires CanIndex(l, s)
  {
    if InSlot(l, s.cues).Some? then InSlot(l, s.cues).value else Unpatched(l).front
  }

  function AppendedIndex(l: Setup, s: State): seq<Elem>
    requires CanIndex(l, s)
  {
    if l.live || s.cues == [] || InSlot(l, s.cues).Some? then [] else [CuesElem(s.cues, l.strict, 0)]
  }

  /** The index is written, and nothing is patched yet but its slot. */
  predicate IsIndexed(l: Setup, base: seq<byte>, s: State, rel: Option<nat>, output: seq<byte>) {
    && CanIndex(l, s) && rel == Placement(l, s)
    && IsFile(l, base, Patches(Unset, None, SlotKids(l, s)), s.items, AppendedIndex(l, s), output)
  }

  function CuesSlot(l: Setup, rel: Option<nat>): Slot {
    if l.live then Unset else if rel.Some? then At(rel.value) else Voided
  }

  /** The Cues entry of the SeekHead is set, too. */
  predicate IsSought(l: Setup, base: seq<byte>, s: State, output: seq<byte>) {
    && CanIndex(l, s)
    && IsFile(l, base, Patches(CuesSlot(l, Placement(l, s)), None, SlotKids(l, s)), s.items, AppendedIndex(l, s),
              output)
  }

  /** The finished file. */
  predicate IsComplete(l: Setup, base: seq<byte>, s: State, output: seq<byte>) {
    && CanIndex(l, s)
    && var f := Finished(l, s);
       IsFile(l, base, f.patches, s.items, f.end, output)
  }

  /** What the trailer leaves of a run: nothing pending, and the finished file. */
  predicate IsEnded(l: Setup, base: seq<byte>, s: State, t: State, output: seq<byte>) {
    && ValidSetup(l) && Ready(ConfigOf(l), s) && t == FlushAll(ConfigOf(l), s)
    && IsComplete(l, base, t, output)
  }

  predicate CanFinish(l: Setup, s: State) {
    && ValidSetup(l) && Ready(ConfigOf(l), s)
    && var t := FlushAll(ConfigOf(l), s);
       AllEncodable(t.items) && CanIndex(l, t)
  }

  // ----- the index -----

  lemma StillUnpatched(l: Setup, base: seq<byte>, s: State, output: seq<byte>)
    requires FileIs(l, base, output, s)
    ensures IsFile(l, base, Unpatched(l), s.items, [], output)
  {
    NoItems();
    hide Opening, SegmentHead, ItemBytes, SerAll, ValidSetup;
    assert ItemBytes(s.items) + [] == ItemBytes(s.items);
  }

  lemma NoIndex(l: Setup, base: seq<byte>, s: State, output: seq<byte>)
    requires FileIs(l, base, output, s) && CanIndex(l, s) && (l.live || s.cues == [])
    ensures IsIndexed(l, base, s, None, output)
  {
    hide FileIs, IsFile, CanIndex;
    StillUnpatched(l, base, s, output);
    NoSlotWithout(l, s);
  }

  lemma NoSlotWithout(l: Setup, s: State)
    requires CanIndex(l, s) && (l.live || s.cues == [])
    ensures InSlot(l, s.cues).None?
  {
    hide SlotContent, AllNarrow, Fits, Numbered, FourccsOk;
  }

  lemma IndexAtEnd(l: Setup, base: seq<byte>, s: State, output: seq<byte>)
    requires FileIs(l, base, output, s) && CanIndex(l, s) && !l.live && s.cues != [] && InSlot(l, s.cues).None?
    ensures IsIndexed(l, base, s, Some(Cursor(ConfigOf(l), s)), output + Ser(CuesElem(s.cues, l.strict, 0)))
  {
    hide FileIs, IsFile, ValidSetup, AllNarrow, Fits, InnerLength, InSlot, CuesElem, Cursor, Ser;
    StillUnpatched(l, base, s, output);
    EndGrows(l, base, Unpatched(l), s.items, CuesElem(s.cues, l.strict, 0), output);
  }

  lemma EndGrows(l: Setup, base: seq<byte>, p: Patches, items: seq<Item>, e: Elem, output: seq<byte>)
    requires IsFile(l, base, p, items, [], output)
    ensures IsFile(l, base, p, items, [e], output + Ser(e))
  {
    hide Opening, SegmentHead, ItemBytes, Ser, SerAll, ValidSetup;
    NoItems();
    SerOne(e);
    var head, body := Opening(l, base) + SerAll(SegmentHead(l, p)), ItemBytes(items);
    assert body + [] == body;
    Assoc(head, body, Ser(e));
  }

  lemma IndexInSlot(l: Setup, base: seq<byte>, s: State, output: seq<byte>)
    requires FileIs(l, base, output, s) && CanIndex(l, s) && !l.live && s.cues != [] && InSlot(l, s.cues).Some?
    ensures var es := InSlot(l, s.cues).value;
            && SlotAt(l, base) + |SerAll(es)| <= |output|
            && IsIndexed(l, base, s, Some(FrontAt(l)), PatchAt(output, SlotAt(l, base), SerAll(es)))
  {
    hide FileIs, ValidSetup, AllNarrow, Fits, InnerLength, InSlot, SlotAt, SerAll, FileBytes, PatchAt, FrontAt,
      ValidPatches, Cursor;
    var es := InSlot(l, s.cues).value;
    StillUnpatched(l, base, s, output);
    UnpatchedIsValid(l);
    SlotSizes(l, s);
    PatchFront(l, base, Unpatched(l), s.items, [], es);
  }

  lemma SlotIsSmall(l: Setup)
    requires ValidSetup(l)
    ensures l.front.Some? ==> l.front.value < TWO_TO_THE_32
  {
    hide Numbered, FourccsOk;
  }

  lemma SlotSizes(l: Setup, s: State)
    requires CanIndex(l, s) && InSlot(l, s.cues).Some?
    ensures l.front.Some? && |SerAll(InSlot(l, s.cues).value)| == |SerAll(Unpatched(l).front)| == l.front.value
  {
    hide SerAll, SlotContent, OneShort, VintWidth, Void, AllNarrow, Fits, Numbered, FourccsOk;
    SlotIsTiled(s.cues, l.strict, l.front.value);
    UnpatchedIsValid(l);
  }

  // ----- the patches -----

  lemma SeekPatched(l: Setup, base: seq<byte>, s: State, rel: Option<nat>, output: seq<byte>)
    requires IsIndexed(l, base, s, rel, output) && !l.live
    ensures |Ser(VoidSeekEntry())| == SEEK_ENTRY_LENGTH && CuesEntryAt(l, base) + SEEK_ENTRY_LENGTH <= |output|
    ensures match rel
            case Some(pos) => IsSought(l, base, s,
                                       PatchAt(output, CuesEntryAt(l, base) + SEEK_POSITION_OFFSET, BE(pos, 8)))
            case None => IsSought(l, base, s, PatchAt(output, CuesEntryAt(l, base), Ser(VoidSeekEntry())))
  {
    hide CanIndex, Placement, SlotKids, AppendedIndex, FileBytes, PatchAt, BE, Ser, VoidSeekEntry, CuesEntryAt;
    var p := Patches(Unset, None, SlotKids(l, s));
    PatchCuesVoid(l, base, p, s.items, AppendedIndex(l, s));
    if rel.Some? {
      PatchCuesPosition(l, base, p, s.items, AppendedIndex(l, s), rel.value);
    }
  }

  lemma NothingToSeek(l: Setup, base: seq<byte>, s: State, rel: Option<nat>, output: seq<byte>)
    requires IsIndexed(l, base, s, rel, output) && l.live
    ensures IsSought(l, base, s, output)
  {
    hide CanIndex, IsFile, SlotKids, AppendedIndex;
  }

  /** What the patches and the index make together is what `Finished` says. */
  lemma FinishedParts(l: Setup, s: State)
    requires CanIndex(l, s)
    ensures var f := Finished(l, s);
            && f.patches.cues == CuesSlot(l, Placement(l, s))
            && f.patches.front == SlotKids(l, s)
            && f.patches.duration == (if l.finalize && s.maxEnd.Some? then Some(MeasuredEnd(s.maxEnd.value)) else None)
            && f.end == AppendedIndex(l, s)
  {
    if l.live || s.cues == [] {
      NoSlotWithout(l, s);
    }
    hide SlotContent, AllNarrow, Fits, CuesElem, Cursor, FrontAt, Numbered, FourccsOk;
  }

  lemma CompleteWithout(l: Setup, base: seq<byte>, s: State, output: seq<byte>)
    requires IsSought(l, base, s, output) && !(l.finalize && s.maxEnd.Some?)
    ensures IsComplete(l, base, s, output)
  {
    hide ValidSetup, AllNarrow, Fits, InnerLength, IsFile, Placement, SlotKids, AppendedIndex, Finished;
    FinishedParts(l, s);
    var f := Finished(l, s);
    assert f.patches == Patches(CuesSlot(l, Placement(l, s)), None, SlotKids(l, s));
  }

  lemma DurationFilled(l: Setup, base: seq<byte>, s: State, output: seq<byte>)
    requires IsSought(l, base, s, output) && l.finalize && s.maxEnd.Some?
    ensures DurationAt(l, base) + DURATION_SLOT_LENGTH <= |output|
    ensures |Ser(DurationElem(Some(MeasuredEnd(s.maxEnd.value))))| == DURATION_SLOT_LENGTH
    ensures !l.strict ==> InfoCrcAt(l, base) + 4 <= |output|
    ensures IsComplete(l, base, s, DurationPatched(l, base, output, MeasuredEnd(s.maxEnd.value)))
  {
    hide ValidSetup, AllNarrow, Fits, InnerLength, FileBytes, Placement, SlotKids, AppendedIndex, Finished,
      DurationAt, InfoCrcAt, DurationPatched, Ser, DurationElem, MeasuredEnd;
    var float := MeasuredEnd(s.maxEnd.value);
    FinishedParts(l, s);
    var p := Patches(CuesSlot(l, Placement(l, s)), None, SlotKids(l, s));
    PatchDuration(l, base, p, s.items, AppendedIndex(l, s), float);
    assert p.(duration := Some(float)) == Finished(l, s).patches;
  }

  /** The eleven bytes of the Duration element. */
  lemma DurationBytes(float: seq<byte>)
    requires |float| == 8
    ensures Ser(DurationElem(Some(float))) == IdBytes(DURATION) + [0x88] + float
  {
    DurationSize(Some(float));
    TwoByteId(DURATION);
    hide Ser, IdBytes;
  }

  // ----- Tags between Clusters -----

  predicate IsTagged(c: Config, s: State, tags: seq<Tag>, ok: bool, t: State) {
    Ready(c, s) && OnlyOnePending(c, s) && WriteLiveTags(c, s, tags) == Step(t, if ok then Accepted else Rejected)
  }

  predicate CanTag(c: Config, s: State, tags: seq<Tag>) {
    && Ready(c, s) && OnlyOnePending(c, s) && TagsFit(tags) && |SerAll(TagElems(tags))| + 6 < SIZE_LIMIT
    && AllEncodable(FlushAll(c, s).items)
  }

  /** What the flush and the Tags make of a run. */
  lemma TagsFollow(c: Config, s: State, tags: seq<Tag>, t: State)
    requires Inv(c, s) && CanTag(c, s, tags) && TagsAdmitted(c, tags)
    requires t == FlushAll(c, s).(open := false, items := FlushAll(c, s).items
                                  + [Fixed(TopLevel(TAGS, TagElems(tags), c.strict))])
    ensures Inv(c, t) && IsTagged(c, s, tags, true, t)
  {
    hide Inv, FlushAll, AllEncodable, TopLevel, SerAll, TagsFit, TagsAdmitted;
    WriteLiveTagsKeeps(c, s, tags);
  }
}
