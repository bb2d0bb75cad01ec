/**
 * What else a reader that has nothing but the bytes gets out of a finished file: its header, its
 * tracks, its tags and chapters, its index, and a SeekHead that leads to all of them.
 */
module FileContents {
  import opened Wrappers
  import opened Bytes
  import opened Ebml
  import opened Ids
  import opened Elements
  import opened Splitter
  import opened TreeReader
  import opened Voids
  import opened Cues
  import opened FrontCues
  import opened Tags
  import opened TagWriter
  import opened TagReader
  import opened Muxer
  import opened MuxerProfile
  import opened MuxerRun
  import opened MuxerIndex
  import opened MuxerFile
  import opened Trailer
  import opened Setters
  import opened HeaderReader
  import opened EndToEnd
  import opened FileReader

  // ----- finding an element in front of the Clusters -----

  lemma PartField(own: nat, kids: seq<Elem>, strict: bool, id: nat)
    ensures Field(Part(own, kids, strict), id)
         == if kids != [] && own == id then Some(Body(TopLevel(own, kids, strict))) else None
  {
    hide TopLevel, Body, Field, Fields;
    TopLevelId(own, kids, strict);
    if kids != [] {
      FieldOne(TopLevel(own, kids, strict), id);
    } else {
      NothingThere(id);
    }
  }

  lemma SevenParts(a: seq<Elem>, b: seq<Elem>, c: seq<Elem>, d: seq<Elem>, e: seq<Elem>, f: seq<Elem>, g: seq<Elem>,
                   id: nat)
    ensures Field(a + b + c + d + e + f + g, id)
         == First(First(First(First(First(First(Field(a, id), Field(b, id)), Field(c, id)), Field(d, id)),
                              Field(e, id)),
                        Field(f, id)), Field(g, id))
  {
    hide Field, Fields;
    FieldSum(a + b + c + d + e + f, g, id);
    FieldSum(a + b + c + d + e, f, id);
    FieldSum(a + b + c + d, e, id);
    FieldSum(a + b + c, d, id);
    FieldSum(a + b, c, id);
    FieldSum(a, b, id);
  }

  /** What a reader finds under a Top-Level ID in front of the Clusters. */
  function HeadData(l: Setup, p: Patches, id: nat): Option<seq<byte>>
    requires ValidSetup(l)
  {
    if id == INFO then Some(Body(InfoElem(l, p.duration)))
    else if id == TRACKS then Some(Body(TracksElem(l)))
    else if id == CHAPTERS && l.chapters != [] then Some(Body(TopLevel(CHAPTERS, ChapterKids(l), l.strict)))
    else if id == ATTACHMENTS && l.attachments != [] then Some(Body(TopLevel(ATTACHMENTS, l.attachments, false)))
    else if id == TAGS && l.tags != [] then Some(Body(TopLevel(TAGS, TagElems(l.tags), l.strict)))
    else if id == CUES then Field(p.front, CUES)
    else None
  }

  predicate TopId(id: nat) {
    id == INFO || id == TRACKS || id == CHAPTERS || id == ATTACHMENTS || id == TAGS || id == CUES
  }

  lemma HeadField(l: Setup, p: Patches, id: nat)
    requires ValidSetup(l) && ValidPatches(l, p) && TopId(id)
    ensures Field(SegmentHead(l, p), id) == HeadData(l, p, id)
  {
    hide Field, Fields, SeekPart, InfoElem, TracksElem, Part, Body, ValidPatches, UsesV5, Numbered, FourccsOk,
      ChapterKids, TagElems, TopLevel, Without;
    var seek, info, tracks := SeekPart(l, p.cues), [InfoElem(l, p.duration)], [TracksElem(l)];
    SevenParts(seek, info, tracks, Part(CHAPTERS, ChapterKids(l), l.strict),
               Part(ATTACHMENTS, l.attachments, false), Part(TAGS, TagElems(l.tags), l.strict), p.front, id);
    SeekPartWithout(l, p.cues, id);
    NoField(seek, id);
    MasterIds(l, p);
    FieldOne(info[0], id);
    FieldOne(tracks[0], id);
    PartField(CHAPTERS, ChapterKids(l), l.strict, id);
    PartField(ATTACHMENTS, l.attachments, false, id);
    PartField(TAGS, TagElems(l.tags), l.strict, id);
    if id != CUES {
      FrontWithout(l, p, id);
      NoField(p.front, id);
    }
  }

  /** Behind the head there are Clusters and Tags, and the index if it is at the end. */
  lemma RestField(strict: bool, items: seq<Item>, end: seq<Elem>, id: nat)
    requires TopId(id) && id != TAGS && forall k :: 0 <= k < |items| ==> ProperItem(strict, items[k])
    ensures Field(ItemElems(items) + end, id) == Field(end, id)
  {
    hide Field, Fields, ProperItem;
    ItemsHaveIds(strict, items, id);
    NoField(ItemElems(items), id);
    FieldSum(ItemElems(items), end, id);
  }

  lemma ItemsHaveIds(strict: bool, items: seq<Item>, id: nat)
    requires forall k :: 0 <= k < |items| ==> ProperItem(strict, items[k])
    requires id != CLUSTER && id != TAGS
    ensures Without(ItemElems(items), id)
  {
    hide Proper, ProperKids, ProperBlock, BlockElems;
    forall k | 0 <= k < |ItemElems(items)|
      ensures ItemElems(items)[k].id != id
    {
      assert ProperItem(strict, items[k]);
    }
  }

  lemma EndIsIndex(l: Setup, s: State, id: nat)
    requires ValidSetup(l) && InnerLength(s.cues, l.strict) < SIZE_LIMIT && id != CUES
    ensures Field(Finished(l, s).end, id) == None
  {
    hide Field, Fields, Finished, InnerLength;
    EndIsCues(l, s);
    OtherThanCues(Finished(l, s).end, id);
    NoField(Finished(l, s).end, id);
  }

  /** What a reader finds under a Top-Level ID in the finished file's bytes. */
  lemma TopReads(l: Setup, s: State, id: nat)
    requires ValidSetup(l) && Sound(ConfigOf(l), s) && FinishedFits(l, s) && TopId(id)
    ensures InnerLength(s.cues, l.strict) < SIZE_LIMIT
    ensures var d, f := ReadDocument(FinishedBytes(l, s)), Finished(l, s);
            && d.Some?
            && FindTop(d.value.1, id) == First(HeadData(l, f.patches, id), Field(ItemElems(s.items) + f.end, id))
            && (id != TAGS ==> Field(ItemElems(s.items) + f.end, id) == Field(f.end, id))
            && (id != TAGS && id != CUES ==> FindTop(d.value.1, id) == HeadData(l, f.patches, id))
  {
    hide Field, Fields, Finished, InnerLength, ValidSetup, ConfigOf, Sound, SegmentHead, ItemElems, FitAll, Segmented,
      ReadDocument, FinishedFits, FinishedBytes, SerAll, FindTop, HeadData, ValidPatches, TopId, HeaderElem;
    FitsInner(l, s);
    var f := Finished(l, s);
    FinishedReads(l, s);
    TopIsFound(Children(l, s, f), id);
    FinishedIsValid(l, s);
    HeadField(l, f.patches, id);
    FieldSum(SegmentHead(l, f.patches), ItemElems(s.items) + f.end, id);
    SoundIsProper(ConfigOf(l), s);
    if id != TAGS {
      RestField(ConfigOf(l).strict, s.items, f.end, id);
      if id != CUES {
        EndIsIndex(l, s, id);
      }
    }
  }

  // ----- header, Info and Tracks -----

  /** Every hint is a sized tree that cannot be taken for a field of the muxer's own. */
  predicate HintsAreClear(l: Setup)
    requires ValidSetup(l)
  {
    && Clear(l) && Sized(l.extensions) && Sized(l.linking) && Sized(l.info) && Sized(l.chapters)
    && forall i :: 0 <= i < |l.streams| ==> StreamIsClear(l, i)
  }

  lemma ConfiguredHints(webm: bool, streams: seq<Stream>, setters: seq<Setter>)
    requires ProperSetters(setters)
    ensures HintsAreClear(Configured(webm, streams, setters))
  {
    hide Clear, Guarded, Configured, AllProper, Sized;
    var l := Configured(webm, streams, setters);
    ConfiguredIsClear(webm, streams, setters);
    GuardedIsSized(l);
  }

  lemma GuardedIsSized(l: Setup)
    requires ValidSetup(l) && Guarded(l) && Clear(l)
    ensures HintsAreClear(l)
  {
    hide AllProper, Sized, OldHints, AllWebmTargets, ClearOf, HoldsDuration, UsesV5, Numbered, FourccsOk;
    ProperIsSized(l.strict, l.extensions);
    ProperIsSized(l.strict, l.linking);
    ProperIsSized(l.strict, l.info);
    ProperIsSized(l.strict, l.chapters);
    forall i | 0 <= i < |l.streams|
      ensures StreamIsClear(l, i)
    {
      ProperIsSized(l.strict, l.trackKids[i]);
      ProperIsSized(l.strict, l.videoKids[i]);
    }
  }

  lemma HeadFits(l: Setup, p: Patches, rest: seq<Elem>)
    requires ValidSetup(l) && FitAll(SegmentHead(l, p) + rest)
    ensures Fits(InfoElem(l, p.duration)) && Fits(TracksElem(l))
    ensures l.chapters != [] ==> Fits(TopLevel(CHAPTERS, ChapterKids(l), l.strict))
    ensures l.tags != [] ==> Fits(TopLevel(TAGS, TagElems(l.tags), l.strict))
    ensures l.attachments != [] ==> Fits(TopLevel(ATTACHMENTS, l.attachments, false))
  {
    hide FitAll, Fits, SeekPart, InfoElem, TracksElem, ChapterKids, TagElems, TopLevel, UsesV5, Numbered, FourccsOk;
    var seek, info, tracks := SeekPart(l, p.cues), [InfoElem(l, p.duration)], [TracksElem(l)];
    var a, b, t := Part(CHAPTERS, ChapterKids(l), l.strict), Part(ATTACHMENTS, l.attachments, false),
                   Part(TAGS, TagElems(l.tags), l.strict);
    FitAppend(seek + info + tracks + a + b + t + p.front, rest);
    FitAppend(seek + info + tracks + a + b + t, p.front);
    FitAppend(seek + info + tracks + a + b, t);
    FitAppend(seek + info + tracks + a, b);
    FitAppend(seek + info + tracks, a);
    FitAppend(seek + info, tracks);
    FitAppend(seek, info);
    FitAt(info, 0);
    FitAt(tracks, 0);
    if a != [] {
      FitAt(a, 0);
    }
    if b != [] {
      FitAt(b, 0);
    }
    if t != [] {
      FitAt(t, 0);
    }
  }

  lemma FinishedParts(l: Setup, s: State)
    requires ValidSetup(l) && Sound(ConfigOf(l), s) && FinishedFits(l, s)
    ensures InnerLength(s.cues, l.strict) < SIZE_LIMIT && Fits(HeaderElem(l))
    ensures var d := ReadDocument(FinishedBytes(l, s)); d.Some? && d.value.0 == Body(HeaderElem(l))
    ensures Fits(InfoElem(l, Finished(l, s).patches.duration)) && Fits(TracksElem(l))
    ensures l.chapters != [] ==> Fits(TopLevel(CHAPTERS, ChapterKids(l), l.strict))
    ensures l.tags != [] ==> Fits(TopLevel(TAGS, TagElems(l.tags), l.strict))
    ensures l.attachments != [] ==> Fits(TopLevel(ATTACHMENTS, l.attachments, false))
  {
    hide Finished, InnerLength, ValidSetup, ConfigOf, Sound, SegmentHead, ItemElems, FitAll, Segmented, ReadDocument,
      FinishedFits, FinishedBytes, SerAll, HeaderElem, Fits, InfoElem, TracksElem, TopLevel, ChapterKids, TagElems,
      Body;
    FitsInner(l, s);
    FinishedReads(l, s);
    var f := Finished(l, s);
    HeadFits(l, f.patches, ItemElems(s.items) + f.end);
  }

  /**
   * A reader of the finished bytes gets the EBML header with its DocType and versions; Info with its
   * scale, its two applications and the measured Duration; and of every stream its number, UID, type,
   * FlagLacing, CodecID, CodecPrivate and FourCC.
   */
  lemma HeaderReadsBack(l: Setup, s: State)
    requires ValidSetup(l) && HintsAreClear(l) && |l.streams| < TWO_TO_THE_64
    requires Sound(ConfigOf(l), s) && FinishedFits(l, s)
    ensures InnerLength(s.cues, l.strict) < SIZE_LIMIT
    ensures var d := ReadDocument(FinishedBytes(l, s));
            && d.Some? && ReadHeader(d.value.0) == HeaderTold(l)
            && var info, tracks := FindTop(d.value.1, 0x1549A966), FindTop(d.value.1, 0x1654AE6B);
               && info.Some? && ReadInfo(info.value) == InfoTold(l, Finished(l, s).patches.duration)
               && tracks.Some? && ReadTracks(tracks.value) == TracksTold(l, |l.streams|)
  {
    hide Finished, InnerLength, ValidSetup, ConfigOf, Sound, ReadDocument, FinishedFits, FinishedBytes, HeaderElem,
      Fits, InfoElem, TracksElem, TopLevel, ChapterKids, TagElems, Body, FindTop, Field, ItemElems, ReadHeader,
      ReadInfo, ReadTracks, HeaderTold, InfoTold, TracksTold, StreamIsClear, Sized, ClearOf;
    FinishedParts(l, s);
    var duration := Finished(l, s).patches.duration;
    TopReads(l, s, INFO);
    TopReads(l, s, TRACKS);
    HeaderReads(l);
    InfoReads(l, duration);
    TracksRead(l);
  }

  /** So do the queued chapters' edition and the queued tags; live Tags come in their own element. */
  lemma TagsReadBack(l: Setup, s: State)
    requires ValidSetup(l) && HintsAreClear(l) && TypedTags(l.tags)
    requires Sound(ConfigOf(l), s) && FinishedFits(l, s)
    ensures InnerLength(s.cues, l.strict) < SIZE_LIMIT
    ensures var d := ReadDocument(FinishedBytes(l, s));
            && d.Some?
            && var tags, chapters := FindTop(d.value.1, 0x1254C367), FindTop(d.value.1, 0x1043A770);
               && (l.tags != [] ==> tags.Some? && ReadTags(tags.value) == TagsTold(l.tags))
               && (chapters.Some? <==> l.chapters != [])
               && (chapters.Some? ==>
                     ReadChapters(chapters.value) == EditionRead(if l.strict then None else Some(1), l.editions))
  {
    hide Finished, InnerLength, ValidSetup, ConfigOf, Sound, ReadDocument, FinishedFits, FinishedBytes, HeaderElem,
      Fits, InfoElem, TracksElem, TopLevel, ChapterKids, TagElems, Body, FindTop, Field, ItemElems, ReadChapters,
      ReadTags, StreamIsClear, Sized, ClearOf, TypedTags, TagsTold;
    FinishedParts(l, s);
    TopReads(l, s, TAGS);
    TopReads(l, s, CHAPTERS);
    if l.tags != [] {
      TagsElementReads(l.tags, l.strict);
    }
    if l.chapters != [] {
      ChaptersRead(l);
    }
  }

  /** A Tags element, queued or live, gives its tags back. */
  lemma {:induction false} TagsElementReads(tags: seq<Tag>, strict: bool)
    requires TypedTags(tags) && Fits(TopLevel(TAGS, TagElems(tags), strict))
    ensures ReadTags(Body(TopLevel(TAGS, TagElems(tags), strict))) == TagsTold(tags)
  {
    hide Fits, FitAll, Kids, Body, TopLevel, Find, TagElem, ReadTagList, TagsTold, TypedTargets, Sized;
    TagElemsSized(tags);
    TopLevelFields(TAGS, TagElems(tags), strict, 0x7373);
    TagsRead(tags);
  }

  lemma TagElemsSized(tags: seq<Tag>)
    ensures Sized(TagElems(tags))
  {
    hide TagKids;
  }

  // ----- the index -----

  lemma IndexField(l: Setup, s: State)
    requires ValidSetup(l) && InnerLength(s.cues, l.strict) < SIZE_LIMIT
    ensures var f := Finished(l, s);
            First(Field(f.patches.front, CUES), Field(f.end, CUES)) ==
            if l.live || s.cues == [] then None else Some(SerAll(CuesKids(s.cues, l.strict)))
  {
    hide Field, Fields, SlotContent, CuesKids, Cursor, ConfigOf, FrontAt, VoidWidth, SerAll, InnerLength, UsesV5,
      Numbered, FourccsOk;
    var f := Finished(l, s);
    var cues := CuesElem(s.cues, l.strict, 0);
    FrontField(l, s);
    NothingThere(CUES);
    FieldOne(cues, CUES);
    assert Body(cues) == SerAll(CuesKids(s.cues, l.strict));
  }

  lemma FrontField(l: Setup, s: State)
    requires ValidSetup(l) && InnerLength(s.cues, l.strict) < SIZE_LIMIT
    ensures Field(Unpatched(l).front, CUES) == None
    ensures var slot := InSlot(l, s.cues);
            slot.Some? ==> Field(slot.value, CUES) == Some(SerAll(CuesKids(s.cues, l.strict)))
    ensures l.live ==> l.front.None?
  {
    hide Field, Fields, SlotContent, CuesKids, Void, SerAll, InnerLength, UsesV5, Numbered, FourccsOk;
    NothingThere(CUES);
    if l.front.Some? {
      FillerIsVoid(l.front.value);
      FieldOne(Void(l.front.value), CUES);
      if s.cues != [] {
        SlotIsTiled(s.cues, l.strict, l.front.value);
        var slot := InSlot(l, s.cues);
        if slot.Some? {
          assert slot.value == [slot.value[0]] + slot.value[1..];
          FieldSum([slot.value[0]], slot.value[1..], CUES);
          FieldOne(slot.value[0], CUES);
        }
      }
    }
  }

  /**
   * In the finished bytes of a run that is no live stream the index lists exactly the Blocks that
   * have to be indexed, grouped by time; a live stream and a file without such Blocks have none.
   */
  lemma FileIndexReadsBack(l: Setup, calls: seq<Call>)
    requires ValidSetup(l) && ValidConfig(ConfigOf(l)) && RunFrom(ConfigOf(l), calls).outcome != Halted
    requires FinishedFits(l, FlushedState(l, calls)) && AllNarrow(FlushedState(l, calls).cues)
    ensures var s := FlushedState(l, calls);
            var d, cues := ReadDocument(FinishedBytes(l, s)), AllCues(ConfigOf(l), s.items);
            && d.Some?
            && var index := FindTop(d.value.1, 0x1C53BB6B);
               if l.live || cues == [] then index == None
               else index.Some? && ReadIndex(index.value) == Some(Grouped(cues))
  {
    hide InnerLength, ValidSetup, ConfigOf, Sound, ReadDocument, FinishedFits, FinishedBytes, Inv, RunFrom, FlushAll,
      ValidConfig, FindTop, Field, AllCues, Grouped, ReadIndex, AllNarrow, CuesKids, SerAll, ItemElems, Finished;
    var c, s := ConfigOf(l), FlushedState(l, calls);
    FlushedIndexIsExact(c, calls);
    TopReads(l, s, CUES);
    IndexField(l, s);
    if !l.live && s.cues != [] {
      IndexFits(l, s);
      IndexReadsBack(s.cues, l.strict);
    }
  }

  /** The children of the index fit, wherever it is. */
  lemma IndexFits(l: Setup, s: State)
    requires ValidSetup(l) && Sound(ConfigOf(l), s) && FinishedFits(l, s) && !l.live && s.cues != []
    ensures FitAll(CuesKids(s.cues, l.strict))
  {
    hide InnerLength, ConfigOf, Sound, ReadDocument, FinishedFits, FinishedBytes, SerAll, ItemElems, SegmentHead,
      FitAll, HeaderElem, CuesKids, Segmented, SlotContent, Cursor, FrontAt, UsesV5, Numbered, FourccsOk;
    FitsInner(l, s);
    var f := Finished(l, s);
    FinishedReads(l, s);
    FitAppend(SegmentHead(l, f.patches), ItemElems(s.items) + f.end);
    FitAppend(ItemElems(s.items), f.end);
    if InSlot(l, s.cues).Some? {
      FrontFits(l, f.patches);
      SlotIsTiled(s.cues, l.strict, l.front.value);
      FitAt(f.patches.front, 0);
      NodeFits(f.patches.front[0]);
    } else {
      FitAt(f.end, 0);
      NodeFits(f.end[0]);
    }
  }

  lemma NodeFits(e: Elem)
    requires Fits(e) && e.Node?
    ensures FitAll(e.kids)
  {
  }

  lemma FrontFits(l: Setup, p: Patches)
    requires ValidSetup(l) && FitAll(SegmentHead(l, p))
    ensures FitAll(p.front)
  {
    hide FitAll, SeekPart, InfoElem, TracksElem, ChapterKids, TagElems, Part, UsesV5, Numbered, FourccsOk;
    FitAppend(SeekPart(l, p.cues) + [InfoElem(l, p.duration)] + [TracksElem(l)]
              + Part(CHAPTERS, ChapterKids(l), l.strict) + Part(ATTACHMENTS, l.attachments, false)
              + Part(TAGS, TagElems(l.tags), l.strict), p.front);
  }
}
