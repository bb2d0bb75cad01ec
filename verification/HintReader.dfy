/** The queued hints in a finished file: each place holds its trees as its children, in the order of the setters. */
module HintReader {
  import opened Wrappers
  import opened Bytes
  import opened Ebml
  import opened Crc32
  import opened Ids
  import opened Elements
  import opened Splitter
  import opened TreeReader
  import opened Voids
  import opened Scanner
  import opened FrontCues
  import opened Tags
  import opened Muxer
  import opened MuxerRun
  import opened MuxerFile
  import opened Trailer
  import opened HeaderReader
  import opened FileReader
  import opened FileContents

  /** Somewhere among the children in these data are the trees, one behind the other. */
  predicate Holds(body: seq<byte>, trees: seq<Elem>) {
    exists i :: 0 <= i <= |Kids(body)| - |trees| && Kids(body)[i..][..|trees|] == RawsOf(trees)
  }

  lemma KidsHold(a: seq<Elem>, trees: seq<Elem>, b: seq<Elem>)
    requires Sized(a) && Sized(trees) && Sized(b) && FitAll(a + trees + b)
    ensures Holds(SerAll(a + trees + b), trees)
  {
    hide Kids, SerAll, FitAll, RawsOf;
    SizedSum(a, trees);
    SizedSum(a + trees, b);
    KidsRead(a + trees + b);
    RawsAppend(a + trees, b);
    RawsAppend(a, trees);
    var raws := RawsOf(a) + RawsOf(trees) + RawsOf(b);
    assert raws[|a|..][..|trees|] == RawsOf(trees);
  }

  lemma MasterHolds(id: nat, a: seq<Elem>, trees: seq<Elem>, b: seq<Elem>)
    requires Sized(a) && Sized(trees) && Sized(b) && Fits(Master(id, a + trees + b))
    ensures Holds(Body(Master(id, a + trees + b)), trees)
  {
    assert FitAll(a + trees + b);
    hide Holds, FitAll, Sized, SerAll;
    KidsHold(a, trees, b);
  }

  lemma TopLevelHolds(id: nat, a: seq<Elem>, trees: seq<Elem>, b: seq<Elem>, strict: bool)
    requires Sized(a) && Sized(trees) && Sized(b) && Fits(TopLevel(id, a + trees + b, strict))
    ensures Holds(Body(TopLevel(id, a + trees + b, strict)), trees)
  {
    hide Fits, Body, Sized, SerAll, Holds, CrcChild;
    if strict {
      MasterHolds(id, a, trees, b);
    } else {
      var crc := CrcChild(SerAll(a + trees + b));
      CrcIsSized(SerAll(a + trees + b));
      SizedSum([crc], a);
      assert [crc] + (a + trees + b) == ([crc] + a) + trees + b;
      MasterHolds(id, [crc] + a, trees, b);
    }
  }

  lemma CrcIsSized(data: seq<byte>)
    ensures Sized([CrcChild(data)])
  {
    hide Crc;
  }

  // ----- place by place -----

  lemma HeaderHolds(l: Setup)
    requires Fits(HeaderElem(l)) && Sized(l.extensions)
    ensures Holds(Body(HeaderElem(l)), l.extensions)
  {
    hide Fits, Body, Holds, UsesV5, UintBytes;
    var own := HeaderKids(if l.webm then WEBM_TEXT else MATROSKA_TEXT, DocTypeVersion(l), []);
    assert HeaderElem(l) == Master(EBML_HEADER, own + l.extensions + []);
    SevenSized(if l.webm then WEBM_TEXT else MATROSKA_TEXT, DocTypeVersion(l), []);
    MasterHolds(EBML_HEADER, own, l.extensions, []);
  }

  lemma InfoHolds(l: Setup, d: Option<seq<byte>>)
    requires Fits(InfoElem(l, d)) && Sized(l.linking) && Sized(l.info)
    ensures Holds(Body(InfoElem(l, d)), l.linking) && Holds(Body(InfoElem(l, d)), l.info)
  {
    hide Fits, Body, Holds, TopLevel, VoidWidth, UintBytes;
    InfoSized(l, d);
    var slot := Maybe(l.finalize, DurationElem(d));
    var scale, apps := [Uint(TIMECODE_SCALE, 1000000)], [Bin(MUXING_APP, OXIDEAV_TEXT), Bin(WRITING_APP, OXIDEAV_TEXT)];
    assert InfoKids(l, d) == [] + l.linking + (scale + slot + l.info + apps);
    TopLevelHolds(INFO, [], l.linking, scale + slot + l.info + apps, l.strict);
    assert InfoKids(l, d) == (l.linking + scale + slot) + l.info + apps;
    TopLevelHolds(INFO, l.linking + scale + slot, l.info, apps, l.strict);
  }

  lemma TrackHolds(l: Setup, i: nat)
    requires ValidSetup(l) && i < |l.streams| && StreamIsClear(l, i) && Fits(TrackEntry(l, i))
    ensures Holds(Body(TrackEntry(l, i)), l.trackKids[i])
  {
    hide Fits, Body, Holds, UsesV5, Numbered, FourccsOk, FirstFour, VideoElem, CodecKids, ClearOf, Sized;
    EntryParts(l, i);
    EntrySized(l, i);
    FirstFourReads(l, i, 0);
    CodecField(l.streams[i], 0);
    VideoId(l, i);
    var video := Maybe(l.streams[i].media == VideoMedia, VideoElem(l, i));
    MaybeSized(l.streams[i].media == VideoMedia, VideoElem(l, i));
    SizedSum(CodecKids(l.streams[i]), video);
    var a, b := FirstFour(l, i), CodecKids(l.streams[i]) + video;
    assert a + l.trackKids[i] + CodecKids(l.streams[i]) + video == a + l.trackKids[i] + b;
    MasterHolds(TRACK_ENTRY, a, l.trackKids[i], b);
  }

  /** The Video master of an entry holds the picture's hints. */
  lemma VideoHolds(l: Setup, i: nat)
    requires ValidSetup(l) && i < |l.streams| && StreamIsClear(l, i) && Fits(TrackEntry(l, i))
    requires l.streams[i].media == VideoMedia
    ensures Holds(BytesIn(Kids(Body(TrackEntry(l, i))), 0xE0, []), l.videoKids[i])
  {
    hide Fits, FitAll, Kids, Body, Holds, UsesV5, Numbered, FourccsOk, FirstFour, VideoElem, CodecKids, ClearOf, Sized;
    var a := FirstFour(l, i) + l.trackKids[i] + CodecKids(l.streams[i]);
    var kids := a + Maybe(true, VideoElem(l, i));
    EntryParts(l, i);
    EntrySized(l, i);
    MasterKids(TRACK_ENTRY, kids);
    EntryField(l, i, 0xE0);
    VideoId(l, i);
    FieldMaybe(true, VideoElem(l, i), 0xE0);
    LastFits(a, true, VideoElem(l, i));
    VideoMaster(l, i);
  }

  lemma VideoMaster(l: Setup, i: nat)
    requires ValidSetup(l) && i < |l.streams| && Sized(l.videoKids[i]) && Fits(VideoElem(l, i))
    ensures Holds(Body(VideoElem(l, i)), l.videoKids[i])
  {
    hide Fits, Body, Holds, UsesV5, Numbered, FourccsOk;
    var own := Maybe(l.fourccs[i].Some?, Bin(UNCOMPRESSED_FOURCC, BytesOr(l.fourccs[i])));
    assert VideoElem(l, i) == Master(VIDEO, [] + l.videoKids[i] + own);
    MasterHolds(VIDEO, [], l.videoKids[i], own);
  }

  lemma EditionHolds(l: Setup)
    requires l.chapters != [] && Sized(l.chapters) && Fits(TopLevel(CHAPTERS, ChapterKids(l), l.strict))
    ensures var edition := Find(Kids(Body(TopLevel(CHAPTERS, ChapterKids(l), l.strict))), 0x45B9);
            edition.Some? && Holds(edition.value, l.chapters)
  {
    hide DisplayElems, Fits, FitAll, Kids, Body, Holds, Find, Uint, TopLevel, Sized, EditionKids;
    var edition := Master(EDITION_ENTRY, EditionKids(l));
    OneSized(edition);
    TopLevelFields(CHAPTERS, [edition], l.strict, 0x45B9);
    FieldOne(edition, 0x45B9);
    FitAt([edition], 0);
    EditionMaster(l);
  }

  lemma EditionMaster(l: Setup)
    requires Sized(l.chapters) && Fits(Master(EDITION_ENTRY, EditionKids(l)))
    ensures Holds(Body(Master(EDITION_ENTRY, EditionKids(l))), l.chapters)
  {
    hide DisplayElems, Fits, FitAll, Body, Holds, Uint, Sized;
    var own := Maybe(!l.strict, Uint(EDITION_UID, 1)) + DisplayElems(l.editions);
    assert EditionKids(l) == own + l.chapters + [];
    UintsAreLeaves(EDITION_UID, 1);
    MaybeSized(!l.strict, Uint(EDITION_UID, 1));
    KidsFit(EDITION_ENTRY, own + l.chapters);
    FitAppend(own, l.chapters);
    FitAppend(Maybe(!l.strict, Uint(EDITION_UID, 1)), DisplayElems(l.editions));
    DisplaysRead(l.editions);
    SizedSum(Maybe(!l.strict, Uint(EDITION_UID, 1)), DisplayElems(l.editions));
    assert Sized([]) by { NothingIsSized(); }
    assert own + l.chapters + [] == own + l.chapters;
    MasterHolds(EDITION_ENTRY, own, l.chapters, []);
  }

  lemma NothingIsSized()
    ensures Sized([])
  {
  }

  lemma AttachmentsHold(trees: seq<Elem>)
    requires Sized(trees) && Fits(TopLevel(ATTACHMENTS, trees, false))
    ensures Holds(Body(TopLevel(ATTACHMENTS, trees, false)), trees)
  {
    hide Fits, Body, Holds, TopLevel;
    assert [] + trees + [] == trees;
    TopLevelHolds(ATTACHMENTS, [], trees, [], false);
  }

  // ----- the file -----

  lemma {:induction false} EntryBodies(l: Setup, n: nat)
    requires ValidSetup(l) && n <= |l.streams|
    ensures var bodies := Fields(TrackEntries(l, n), 0xAE);
            |bodies| == n && forall i :: 0 <= i < n ==> bodies[i] == Body(TrackEntry(l, i))
  {
    hide Fields, Field, Body, TrackEntry, UsesV5, Numbered, FourccsOk;
    if n == 0 {
      NothingThere(0xAE);
    } else {
      EntryBodies(l, n - 1);
      FieldSum(TrackEntries(l, n - 1), [TrackEntry(l, n - 1)], 0xAE);
      FieldOne(TrackEntry(l, n - 1), 0xAE);
      EntryId(l, n - 1);
    }
  }

  /** The entries of the tracks hold the hints of their streams, and those on the picture in their Video master. */
  predicate TracksHold(l: Setup, body: seq<byte>)
    requires ValidSetup(l)
  {
    var entries := All(Kids(body), 0xAE);
    |entries| == |l.streams| &&
    forall i :: 0 <= i < |entries| ==>
      && Holds(entries[i], l.trackKids[i])
      && (l.streams[i].media == VideoMedia ==> Holds(BytesIn(Kids(entries[i]), 0xE0, []), l.videoKids[i]))
  }

  lemma AllTracksHold(l: Setup)
    requires ValidSetup(l) && HintsAreClear(l) && Fits(TracksElem(l))
    ensures TracksHold(l, Body(TracksElem(l)))
  {
    hide Fits, FitAll, Kids, Body, Holds, UsesV5, Numbered, FourccsOk, TrackEntry, TrackEntries, TopLevel, Clear,
      StreamIsClear, Fields, All;
    var n := |l.streams|;
    EntriesOf(l, n);
    TopLevelFields(TRACKS, TrackEntries(l, n), l.strict, 0xAE);
    EntryBodies(l, n);
    forall i | 0 <= i < n
      ensures var body := Body(TrackEntry(l, i));
              && Holds(body, l.trackKids[i])
              && (l.streams[i].media == VideoMedia ==> Holds(BytesIn(Kids(body), 0xE0, []), l.videoKids[i]))
    {
      FitAt(TrackEntries(l, n), i);
      TrackHolds(l, i);
      if l.streams[i].media == VideoMedia {
        VideoHolds(l, i);
      }
    }
  }

  /** A Top-Level Element with this ID holds the trees, if there are any. */
  predicate TopHolds(data: Option<seq<byte>>, trees: seq<Elem>) {
    trees != [] ==> data.Some? && Holds(data.value, trees)
  }

  function Edition(chapters: Option<seq<byte>>): Option<seq<byte>> {
    if chapters.Some? then Find(Kids(chapters.value), 0x45B9) else None
  }

  /**
   * A reader of the finished bytes finds every queued hint where it belongs, in the order of the
   * setters: in the EBML header, Info, the entry or the Video master of its own track, the edition
   * of Chapters, or Attachments.
   */
  lemma HintsReadBack(l: Setup, s: State)
    requires ValidSetup(l) && HintsAreClear(l) && Sized(l.attachments)
    requires Sound(ConfigOf(l), s) && FinishedFits(l, s)
    ensures InnerLength(s.cues, l.strict) < SIZE_LIMIT
    ensures var d := ReadDocument(FinishedBytes(l, s));
            && d.Some? && Holds(d.value.0, l.extensions)
            && var info, tracks := FindTop(d.value.1, 0x1549A966), FindTop(d.value.1, 0x1654AE6B);
               && info.Some? && Holds(info.value, l.linking) && Holds(info.value, l.info)
               && tracks.Some? && TracksHold(l, tracks.value)
               && TopHolds(Edition(FindTop(d.value.1, 0x1043A770)), l.chapters)
               && TopHolds(FindTop(d.value.1, 0x1941A469), l.attachments)
  {
    hide Finished, InnerLength, ValidSetup, ConfigOf, Sound, ReadDocument, FinishedFits, FinishedBytes, HeaderElem,
      Fits, InfoElem, TracksElem, TopLevel, ChapterKids, TagElems, Body, FindTop, Field, ItemElems, Holds, TracksHold,
      StreamIsClear, Sized, ClearOf, Find, Kids;
    FinishedParts(l, s);
    TopReads(l, s, INFO);
    TopReads(l, s, TRACKS);
    TopReads(l, s, CHAPTERS);
    TopReads(l, s, ATTACHMENTS);
    HeaderHolds(l);
    InfoHolds(l, Finished(l, s).patches.duration);
    AllTracksHold(l);
    if l.chapters != [] {
      EditionHolds(l);
    }
    if l.attachments != [] {
      AttachmentsHold(l.attachments);
    }
  }
}
