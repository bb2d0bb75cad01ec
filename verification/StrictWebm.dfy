/** The end-to-end theorem: strict WebM output is conformant, at every moment, exactly without a FourCC. */
module StrictWebm {
  import opened Wrappers
  import opened Bytes
  import opened Ebml
  import opened Ids
  import opened Elements
  import opened Voids
  import opened WebmProfile
  import opened Scanner
  import opened ScannerInverts
  import opened Cues
  import opened SeekHeads
  import opened Tags
  import opened TagRules
  import opened Muxer
  import opened MuxerProfile
  import opened MuxerFile
  import opened FilePatches
  import opened Setters
  import opened Conformance

  // ----- proper trees are well-formed and, in the profile, untainted -----

  lemma {:induction false} ProperIsWellFormed(strict: bool, e: Elem)
    requires Proper(strict, e) && Fits(e)
    ensures WellFormed(e)
    decreases e, 1
  {
    hide OffProfile, IsMaster, SerAll;
    if e.Node? {
      ProperAreWellFormed(strict, e.kids);
    }
  }

  lemma {:induction false} ProperAreWellFormed(strict: bool, es: seq<Elem>)
    requires AllProper(strict, es) && FitAll(es)
    ensures WellFormedAll(es)
    decreases es, 0
  {
    hide Proper, Fits, WellFormed;
    if es != [] {
      ProperTail(strict, es);
      ProperIsWellFormed(strict, es[0]);
      ProperAreWellFormed(strict, es[1..]);
      BoundedProper(strict, es[0]);
    }
  }

  lemma BoundedProper(strict: bool, e: Elem)
    requires Proper(strict, e)
    ensures !e.Open?
  {
    hide OffProfile, IsMaster;
  }

  lemma ProperTail(strict: bool, es: seq<Elem>)
    requires AllProper(strict, es) && es != []
    ensures Proper(strict, es[0]) && AllProper(strict, es[1..])
  {
    hide Proper;
    assert forall i :: 0 <= i < |es| - 1 ==> es[1..][i] == es[i + 1];
  }

  lemma {:induction false} ProperIsUntainted(e: Elem, depth: nat)
    requires Proper(true, e)
    ensures !Tainted(e, depth)
    decreases e, 1
  {
    hide OffProfile, IsMaster;
    if e.Node? {
      ProperAreUntainted(e.kids, depth + 1);
    }
  }

  lemma {:induction false} ProperAreUntainted(es: seq<Elem>, depth: nat)
    requires AllProper(true, es)
    ensures !TaintedAll(es, depth)
    decreases es, 0
  {
    hide Proper, Tainted;
    if es != [] {
      ProperTail(true, es);
      ProperIsUntainted(es[0], depth);
      ProperAreUntainted(es[1..], depth);
    }
  }

  lemma {:induction false} TaintedAppend(a: seq<Elem>, b: seq<Elem>, depth: nat)
    ensures TaintedAll(a + b, depth) <==> TaintedAll(a, depth) || TaintedAll(b, depth)
  {
    hide Tainted;
    if a == [] {
      assert a + b == b;
    } else {
      assert (a + b)[1..] == a[1..] + b;
      TaintedAppend(a[1..], b, depth);
    }
  }

  lemma TaintedOne(e: Elem, depth: nat)
    ensures TaintedAll([e], depth) <==> Tainted(e, depth)
  {
    hide Tainted;
    assert [e][1..] == [];
  }

  // ----- the parts that the muxer writes itself -----

  lemma UintIsProper(strict: bool, id: nat, v: int)
    requires ValidId(id) && !IsMaster(id) && (strict ==> !OffProfile(id))
    ensures Proper(strict, Uint(id, v)) && AllProper(strict, [Uint(id, v)])
  {
    hide OffProfile, IsMaster, UintBytes;
  }

  lemma BinIsProper(strict: bool, id: nat, v: seq<byte>)
    requires ValidId(id) && !IsMaster(id) && (strict ==> !OffProfile(id))
    ensures Proper(strict, Bin(id, v)) && AllProper(strict, [Bin(id, v)])
  {
    hide OffProfile, IsMaster;
  }

  lemma VoidIsProper(strict: bool, n: nat)
    requires VoidSize(n)
    ensures Proper(strict, Void(n)) && Void(n).id == VOID
  {
    assert !OffProfile(VOID) && !IsMaster(VOID);
    hide OffProfile, IsMaster;
  }

  lemma PairIsProper(strict: bool, a: Elem, b: Elem)
    requires Proper(strict, a) && Proper(strict, b)
    ensures AllProper(strict, [a, b])
  {
    hide Proper;
  }

  lemma TopLevelIsProper(strict: bool, id: nat, kids: seq<Elem>)
    requires ValidId(id) && !OffProfile(id) && AllProper(strict, kids)
    ensures Proper(strict, TopLevel(id, kids, strict)) && TopLevel(id, kids, strict).id == id
  {
    hide OffProfile, Proper, CrcChild;
    if !strict {
      CrcIsProper(SerAll(kids));
      ProperAppend(false, [CrcChild(SerAll(kids))], kids);
      MasterIsProper(false, id, [CrcChild(SerAll(kids))] + kids);
    } else {
      MasterIsProper(true, id, kids);
    }
  }

  lemma FieldIds()
    ensures !OffProfile(CUE_TRACK) && !OffProfile(CUE_CLUSTER_POSITION) && !OffProfile(CUE_RELATIVE_POSITION)
    ensures !OffProfile(CUE_DURATION) && !OffProfile(CUE_BLOCK_NUMBER)
    ensures !IsMaster(CUE_TRACK) && !IsMaster(CUE_CLUSTER_POSITION) && !IsMaster(CUE_RELATIVE_POSITION)
    ensures !IsMaster(CUE_DURATION) && !IsMaster(CUE_BLOCK_NUMBER)
  {
  }

  lemma FieldsAreProper(strict: bool, c: CueRecord)
    ensures AllProper(strict, PositionFields(c))
  {
    hide OffProfile, IsMaster, Proper, Uint;
    FieldIds();
    UintIsProper(strict, CUE_TRACK, c.track);
    UintIsProper(strict, CUE_CLUSTER_POSITION, c.clusterOffset);
    UintIsProper(strict, CUE_RELATIVE_POSITION, c.relative);
    UintIsProper(strict, CUE_BLOCK_NUMBER, c.block);
    if c.duration.Some? {
      UintIsProper(strict, CUE_DURATION, c.duration.value);
    }
  }

  lemma {:induction false} PositionsAreProper(strict: bool, entries: seq<CueRecord>)
    ensures AllProper(strict, Positions(entries))
  {
    hide Proper, PositionFields, OffProfile;
    if entries != [] {
      FieldsAreProper(strict, entries[0]);
      CuesIdsInProfile();
      MasterIsProper(strict, CUE_TRACK_POSITIONS, PositionFields(entries[0]));
      PositionsAreProper(strict, entries[1..]);
    }
  }

  lemma CuesIdsInProfile()
    ensures !OffProfile(CUE_TRACK_POSITIONS) && !OffProfile(CUE_POINT) && !OffProfile(CUES) && !OffProfile(CUE_TIME)
    ensures !IsMaster(CUE_TIME)
  {
  }

  lemma {:induction false} PointsAreProper(strict: bool, groups: seq<Group>)
    ensures AllProper(strict, Points(groups))
  {
    hide Proper, Positions, OffProfile, IsMaster, Uint;
    if groups != [] {
      var g := groups[0];
      CuesIdsInProfile();
      UintIsProper(strict, CUE_TIME, g.time);
      PositionsAreProper(strict, g.entries);
      ProperAppend(strict, [Uint(CUE_TIME, g.time)], Positions(g.entries));
      MasterIsProper(strict, CUE_POINT, PointKids(g));
      PointsAreProper(strict, groups[1..]);
    }
  }

  lemma CuesAreProper(cues: seq<CueRecord>, strict: bool, width: nat)
    ensures Proper(strict, CuesElem(cues, strict, width)) && CuesElem(cues, strict, width).id == CUES
  {
    hide Points, Grouped, OffProfile, CrcChild, AllProper;
    var points := Points(Grouped(cues));
    CuesIdsInProfile();
    PointsAreProper(strict, Grouped(cues));
    if !strict {
      CrcIsProper(SerAll(points));
      ProperAppend(false, [CrcChild(SerAll(points))], points);
    }
    CuesKidsProper(cues, strict, width);
  }

  lemma CuesKidsProper(cues: seq<CueRecord>, strict: bool, width: nat)
    requires AllProper(strict, CuesKids(cues, strict))
    ensures Proper(strict, CuesElem(cues, strict, width))
  {
    assert !OffProfile(CUES);
    hide OffProfile, CuesKids;
  }

  // ----- the head -----

  lemma SeekEntryIsProper(strict: bool, id: nat, slot: Slot)
    ensures Proper(strict, SlotElem(id, slot))
  {
    assert !OffProfile(SEEK) && !OffProfile(SEEK_ID) && !OffProfile(SEEK_POSITION);
    assert !IsMaster(SEEK_ID) && !IsMaster(SEEK_POSITION);
    hide OffProfile, IsMaster, BE, Proper;
    VoidIsProper(strict, SEEK_ENTRY_LENGTH);
    if !slot.Voided? {
      var pos := if slot.Unset? then 0 else slot.pos;
      BinIsProper(strict, SEEK_ID, BE(id, 4));
      BinIsProper(strict, SEEK_POSITION, BE(pos, 8));
      PairIsProper(strict, Bin(SEEK_ID, BE(id, 4)), Bin(SEEK_POSITION, BE(pos, 8)));
      MasterIsProper(strict, SEEK, [Bin(SEEK_ID, BE(id, 4)), Bin(SEEK_POSITION, BE(pos, 8))]);
    }
  }

  lemma SeekHeadIsProper(strict: bool, slots: seq<Slot>)
    requires |slots| == 6
    ensures Proper(strict, SeekHead(slots))
  {
    assert !OffProfile(SEEK_HEAD);
    hide OffProfile, Proper, SlotElem;
    var entries := SlotElems(SeekIds(), slots);
    forall i | 0 <= i < |entries|
      ensures Proper(strict, entries[i])
    {
      SeekEntryIsProper(strict, SeekIds()[i], slots[i]);
    }
    MasterIsProper(strict, SEEK_HEAD, entries);
  }

  lemma SeekPartIsProper(l: Setup, cues: Slot)
    requires ValidSetup(l)
    ensures AllProper(l.strict, SeekPart(l, cues))
  {
    hide Proper, Slots, Void, SeekHead;
    if !l.live {
      SeekHeadIsProper(l.strict, Slots(l, cues));
      if l.expansion.Some? {
        VoidIsProper(l.strict, l.expansion.value);
      }
    }
  }

  lemma InfoIsProper(l: Setup, d: Option<seq<byte>>)
    requires Guarded(l)
    ensures Proper(l.strict, InfoElem(l, d))
  {
    hide OffProfile, IsMaster, Proper, AllProper, TopLevel, DurationElem, Uint, AllKidsProper;
    InfoIds();
    var strict := l.strict;
    UintIsProper(strict, TIMECODE_SCALE, 1000000);
    ProperAppend(strict, l.linking, [Uint(TIMECODE_SCALE, 1000000)]);
    DurationIsProper(strict, d);
    NothingIsProper(strict);
    var slot := if l.finalize then [DurationElem(d)] else [];
    ProperAppend(strict, InfoStart(l), slot);
    InfoEndIsProper(l);
    ProperAppend(strict, InfoStart(l) + slot, InfoEnd(l));
    TopLevelIsProper(strict, INFO, InfoKids(l, d));
  }

  lemma InfoEndIsProper(l: Setup)
    requires Guarded(l)
    ensures AllProper(l.strict, InfoEnd(l))
  {
    assert !OffProfile(MUXING_APP) && !OffProfile(WRITING_APP) && !IsMaster(MUXING_APP) && !IsMaster(WRITING_APP);
    hide OffProfile, IsMaster, Proper, AllKidsProper;
    BinIsProper(l.strict, MUXING_APP, OXIDEAV_TEXT);
    BinIsProper(l.strict, WRITING_APP, OXIDEAV_TEXT);
    PairIsProper(l.strict, Bin(MUXING_APP, OXIDEAV_TEXT), Bin(WRITING_APP, OXIDEAV_TEXT));
    ProperAppend(l.strict, l.info, [Bin(MUXING_APP, OXIDEAV_TEXT), Bin(WRITING_APP, OXIDEAV_TEXT)]);
  }

  lemma InfoIds()
    ensures !OffProfile(TIMECODE_SCALE) && !OffProfile(DURATION) && !OffProfile(INFO)
    ensures !IsMaster(TIMECODE_SCALE) && !IsMaster(DURATION)
  {
  }

  lemma DurationIsProper(strict: bool, d: Option<seq<byte>>)
    ensures AllProper(strict, [DurationElem(d)])
  {
    hide OffProfile, IsMaster, Proper, AllProper, Void;
    InfoIds();
    VoidIsProper(strict, DURATION_SLOT_LENGTH);
    if d.Some? {
      BinIsProper(strict, DURATION, d.value);
    }
    OneIsProper(strict, DurationElem(d));
  }

  predicate NoFourcc(l: Setup) {
    forall i :: 0 <= i < |l.fourccs| ==> l.fourccs[i].None?
  }

  lemma EntryIds()
    ensures !OffProfile(TRACK_NUMBER) && !OffProfile(TRACK_UID) && !OffProfile(TRACK_TYPE) && !OffProfile(FLAG_LACING)
    ensures !IsMaster(TRACK_NUMBER) && !IsMaster(TRACK_UID) && !IsMaster(TRACK_TYPE) && !IsMaster(FLAG_LACING)
  {
  }

  lemma EntryStartIsProper(l: Setup, i: nat)
    requires ValidSetup(l) && Guarded(l) && i < |l.streams|
    ensures AllProper(l.strict, EntryStart(l, i))
  {
    hide OffProfile, IsMaster, Proper, Uint, ValidSetup, LacingFlag, CodecKids;
    EntryIds();
    assert i < |l.trackKids| && i < |l.flagLacing| by { KidsAt(l, i); }
    var t, strict := l.streams[i], l.strict;
    UintIsProper(strict, TRACK_NUMBER, t.number);
    UintIsProper(strict, TRACK_UID, t.number);
    UintIsProper(strict, TRACK_TYPE, TrackType(t.media));
    UintIsProper(strict, FLAG_LACING, LacingFlag(l, i));
    assert AllProper(strict, l.trackKids[i]);
    CodecIsProper(strict, t);
    var fields := [Uint(TRACK_NUMBER, t.number), Uint(TRACK_UID, t.number), Uint(TRACK_TYPE, TrackType(t.media)),
                   Uint(FLAG_LACING, LacingFlag(l, i))];
    ProperAppend(strict, fields, l.trackKids[i]);
    ProperAppend(strict, fields + l.trackKids[i], CodecKids(t));
  }

  lemma CodecIsProper(strict: bool, t: Track)
    ensures AllProper(strict, CodecKids(t))
  {
    assert !OffProfile(CODEC_ID) && !OffProfile(CODEC_PRIVATE) && !IsMaster(CODEC_ID) && !IsMaster(CODEC_PRIVATE);
    hide OffProfile, IsMaster, Proper;
    BinIsProper(strict, CODEC_ID, t.codecId);
    BinIsProper(strict, CODEC_PRIVATE, t.codecPrivate);
  }

  /** The Video master is in the profile but for the FourCC. */
  lemma VideoIsProper(l: Setup, i: nat)
    requires ValidSetup(l) && Guarded(l) && i < |l.streams|
    ensures Proper(false, VideoElem(l, i))
    ensures l.strict && l.fourccs[i].None? ==> Proper(true, VideoElem(l, i))
    ensures l.fourccs[i].Some? ==> Tainted(VideoElem(l, i), 3)
  {
    assert !OffProfile(VIDEO) && !IsMaster(UNCOMPRESSED_FOURCC) && IsMaster(VIDEO) && OffProfile(UNCOMPRESSED_FOURCC);
    hide OffProfile, IsMaster, Proper, AllProper, ValidSetup;
    assert AllProper(l.strict, l.videoKids[i]) by { KidsAt(l, i); }
    LenientAll(l.strict, l.videoKids[i]);
    if l.fourccs[i].Some? {
      var f := Bin(UNCOMPRESSED_FOURCC, l.fourccs[i].value);
      BinIsProper(false, UNCOMPRESSED_FOURCC, l.fourccs[i].value);
      ProperAppend(false, l.videoKids[i], [f]);
      MasterIsProper(false, VIDEO, l.videoKids[i] + [f]);
      TaintedAppend(l.videoKids[i], [f], 4);
      TaintedOne(f, 4);
    } else {
      assert l.videoKids[i] + [] == l.videoKids[i];
      MasterIsProper(false, VIDEO, l.videoKids[i]);
      if l.strict {
        MasterIsProper(true, VIDEO, l.videoKids[i]);
      }
    }
  }

  lemma KidsAt(l: Setup, i: nat)
    requires ValidSetup(l) && Guarded(l) && i < |l.streams|
    ensures i < |l.trackKids| && i < |l.videoKids| && i < |l.fourccs| && i < |l.flagLacing|
            && AllProper(l.strict, l.videoKids[i])
  {
    hide AllProper;
  }

  lemma EntryIsProper(l: Setup, i: nat)
    requires ValidSetup(l) && Guarded(l) && i < |l.streams|
    ensures Proper(false, TrackEntry(l, i))
    ensures l.strict && l.fourccs[i].None? ==> Proper(true, TrackEntry(l, i))
    ensures l.fourccs[i].Some? ==> Tainted(TrackEntry(l, i), 2)
  {
    assert !OffProfile(TRACK_ENTRY) && IsMaster(TRACK_ENTRY);
    hide OffProfile, IsMaster, Proper, AllProper, VideoElem, Guarded, Uint, EntryStart;
    EntryStartIsProper(l, i);
    VideoIsProper(l, i);
    LenientAll(l.strict, EntryStart(l, i));
    NothingIsProper(false);
    NothingIsProper(true);
    var video := if l.streams[i].media == VideoMedia then [VideoElem(l, i)] else [];
    assert TrackEntry(l, i) == Master(TRACK_ENTRY, EntryStart(l, i) + video);
    OneIsProper(false, VideoElem(l, i));
    ProperAppend(false, EntryStart(l, i), video);
    MasterIsProper(false, TRACK_ENTRY, EntryStart(l, i) + video);
    if l.fourccs[i].Some? {
      TaintedAppend(EntryStart(l, i), video, 3);
      TaintedOne(VideoElem(l, i), 3);
    } else if l.strict {
      OneIsProper(true, VideoElem(l, i));
      ProperAppend(true, EntryStart(l, i), video);
      MasterIsProper(true, TRACK_ENTRY, EntryStart(l, i) + video);
    }
  }

  lemma {:induction false} TaintedAt(es: seq<Elem>, k: nat, depth: nat)
    requires k < |es| && Tainted(es[k], depth)
    ensures TaintedAll(es, depth)
  {
    hide Tainted;
    if k > 0 {
      TaintedAt(es[1..], k - 1, depth);
    }
  }

  /** Tracks is in the profile exactly without a FourCC. */
  lemma TracksAreProper(l: Setup)
    requires ValidSetup(l) && Guarded(l)
    ensures Proper(false, TracksElem(l))
    ensures l.strict ==> (Tainted(TracksElem(l), 1) <==> !NoFourcc(l))
  {
    assert !OffProfile(TRACKS) && IsMaster(TRACKS);
    hide OffProfile, IsMaster, Proper, TrackEntry, Guarded, CrcChild;
    var n := |l.streams|;
    var entries := TrackEntries(l, n);
    forall i | 0 <= i < n
      ensures Proper(false, entries[i])
    {
      EntryIsProper(l, i);
    }
    if l.strict {
      MasterIsProper(false, TRACKS, entries);
      if NoFourcc(l) {
        forall i | 0 <= i < n
          ensures Proper(true, entries[i])
        {
          EntryIsProper(l, i);
        }
        MasterIsProper(true, TRACKS, entries);
        ProperIsUntainted(TracksElem(l), 1);
      } else {
        var i :| 0 <= i < |l.fourccs| && l.fourccs[i].Some?;
        EntryIsProper(l, i);
        TaintedAt(entries, i, 2);
      }
    } else {
      TopLevelIsProper(false, TRACKS, entries);
    }
  }

  lemma HeaderIsProper(l: Setup)
    requires Guarded(l)
    ensures Proper(l.strict, HeaderElem(l))
  {
    hide OffProfile, IsMaster, Proper, Uint, AllProper, AllKidsProper, DocTypeVersion;
    HeaderIdsInProfile();
    HeaderIdsAreLeaves();
    var strict, docType := l.strict, if l.webm then WEBM_TEXT else MATROSKA_TEXT;
    UintIsProper(strict, EBML_VERSION, 1);
    UintIsProper(strict, EBML_READ_VERSION, 1);
    UintIsProper(strict, EBML_MAX_ID_LENGTH, 4);
    UintIsProper(strict, EBML_MAX_SIZE_LENGTH, 8);
    BinIsProper(strict, EBML_DOC_TYPE, docType);
    UintIsProper(strict, EBML_DOC_TYPE_VERSION, DocTypeVersion(l));
    UintIsProper(strict, EBML_DOC_TYPE_READ_VERSION, 2);
    var a, b := [Uint(EBML_VERSION, 1)] + [Uint(EBML_READ_VERSION, 1)], [Uint(EBML_MAX_ID_LENGTH, 4)]
                + [Uint(EBML_MAX_SIZE_LENGTH, 8)];
    var d := [Uint(EBML_DOC_TYPE_VERSION, DocTypeVersion(l))] + [Uint(EBML_DOC_TYPE_READ_VERSION, 2)];
    ProperAppend(strict, [Uint(EBML_VERSION, 1)], [Uint(EBML_READ_VERSION, 1)]);
    ProperAppend(strict, [Uint(EBML_MAX_ID_LENGTH, 4)], [Uint(EBML_MAX_SIZE_LENGTH, 8)]);
    ProperAppend(strict, [Uint(EBML_DOC_TYPE_VERSION, DocTypeVersion(l))], [Uint(EBML_DOC_TYPE_READ_VERSION, 2)]);
    ProperAppend(strict, a, b);
    ProperAppend(strict, a + b, [Bin(EBML_DOC_TYPE, docType)]);
    ProperAppend(strict, a + b + [Bin(EBML_DOC_TYPE, docType)], d);
    ProperAppend(strict, a + b + [Bin(EBML_DOC_TYPE, docType)] + d, l.extensions);
    assert HeaderKids(docType, DocTypeVersion(l), l.extensions) == a + b + [Bin(EBML_DOC_TYPE, docType)] + d
           + l.extensions;
    MasterIsProper(strict, EBML_HEADER, HeaderKids(docType, DocTypeVersion(l), l.extensions));
  }

  lemma HeaderIdsInProfile()
    ensures !OffProfile(EBML_VERSION) && !OffProfile(EBML_READ_VERSION) && !OffProfile(EBML_MAX_ID_LENGTH)
    ensures !OffProfile(EBML_MAX_SIZE_LENGTH) && !OffProfile(EBML_DOC_TYPE) && !OffProfile(EBML_DOC_TYPE_VERSION)
    ensures !OffProfile(EBML_DOC_TYPE_READ_VERSION) && !OffProfile(EBML_HEADER)
  {
    FirstHeaderIds();
    assert !OffProfile(EBML_DOC_TYPE) && !OffProfile(EBML_DOC_TYPE_VERSION);
    assert !OffProfile(EBML_DOC_TYPE_READ_VERSION) && !OffProfile(EBML_HEADER);
    hide OffProfile;
  }

  lemma FirstHeaderIds()
    ensures !OffProfile(EBML_VERSION) && !OffProfile(EBML_READ_VERSION) && !OffProfile(EBML_MAX_ID_LENGTH)
    ensures !OffProfile(EBML_MAX_SIZE_LENGTH)
  {
  }

  lemma HeaderIdsAreLeaves()
    ensures !IsMaster(EBML_VERSION) && !IsMaster(EBML_READ_VERSION) && !IsMaster(EBML_MAX_ID_LENGTH)
    ensures !IsMaster(EBML_MAX_SIZE_LENGTH) && !IsMaster(EBML_DOC_TYPE) && !IsMaster(EBML_DOC_TYPE_VERSION)
    ensures !IsMaster(EBML_DOC_TYPE_READ_VERSION)
  {
  }

  lemma PartIsProper(strict: bool, id: nat, kids: seq<Elem>)
    requires ValidId(id) && !OffProfile(id) && AllProper(strict, kids)
    ensures AllProper(strict, Part(id, kids, strict))
  {
    hide OffProfile, Proper, TopLevel;
    TopLevelIsProper(strict, id, kids);
  }

  /** What the trailer puts into the reserved slot is proper: Cues and Voids. */
  predicate ProperFront(strict: bool, p: Patches) {
    AllProper(strict, p.front) && forall i :: 0 <= i < |p.front| ==> p.front[i].id != SEGMENT
  }

  /** The head around Tracks is proper; Tracks decides. */
  lemma HeadIsProper(l: Setup, p: Patches)
    requires ValidSetup(l) && Guarded(l) && ProperFront(l.strict, p)
    ensures AllProper(false, SegmentHead(l, p))
    ensures l.strict ==> (TaintedAll(SegmentHead(l, p), 1) <==> !NoFourcc(l))
  {
    hide OffProfile, IsMaster, Proper, AllProper, SeekPart, InfoElem, TracksElem, Part, TaintedAll, Tainted,
      AllKidsProper, NoFourcc, ValidSetup;
    PartIds();
    var before := SeekPart(l, p.cues) + [InfoElem(l, p.duration)];
    SeekPartIsProper(l, p.cues);
    InfoIsProper(l, p.duration);
    OneIsProper(l.strict, InfoElem(l, p.duration));
    ProperAppend(l.strict, SeekPart(l, p.cues), [InfoElem(l, p.duration)]);
    var a, b, t := Part(CHAPTERS, ChapterKids(l), l.strict), Part(ATTACHMENTS, l.attachments, false),
                   Part(TAGS, TagElems(l.tags), l.strict);
    ChaptersAreProper(l);
    PartIsProper(l.strict, CHAPTERS, ChapterKids(l));
    AttachmentsAreProper(l);
    TagsAreProper(l.strict, l.tags);
    PartIsProper(l.strict, TAGS, TagElems(l.tags));
    ProperAppend(l.strict, a, b);
    ProperAppend(l.strict, a + b, t);
    ProperAppend(l.strict, a + b + t, p.front);
    var after := a + b + t + p.front;
    TracksAreProper(l);
    var tracks := TracksElem(l);
    assert SegmentHead(l, p) == before + [tracks] + after;
    LenientAll(l.strict, before);
    LenientAll(l.strict, after);
    OneIsProper(false, tracks);
    ProperAppend(false, before, [tracks]);
    ProperAppend(false, before + [tracks], after);
    if l.strict {
      TaintedAppend(before, [tracks], 1);
      TaintedAppend(before + [tracks], after, 1);
      TaintedOne(tracks, 1);
      ProperAreUntainted(before, 1);
      ProperAreUntainted(after, 1);
    }
  }

  lemma {:induction false} LanguagesAreProper(languages: seq<seq<byte>>)
    ensures AllProper(false, LanguageElems(languages))
  {
    assert !IsMaster(EDITION_LANGUAGE_IETF);
    hide Proper, IsMaster;
    if languages != [] {
      LanguagesAreProper(languages[1..]);
      BinIsProper(false, EDITION_LANGUAGE_IETF, languages[0]);
      ProperAppend(false, [Bin(EDITION_LANGUAGE_IETF, languages[0])], LanguageElems(languages[1..]));
    }
  }

  lemma DisplaysAreProper(ds: seq<Display>)
    ensures AllProper(false, DisplayElems(ds))
  {
    assert !IsMaster(EDITION_STRING);
    hide Proper, IsMaster;
    forall i | 0 <= i < |ds|
      ensures Proper(false, DisplayElem(ds[i]))
    {
      var d := ds[i];
      LanguagesAreProper(d.languages);
      BinIsProper(false, EDITION_STRING, d.text);
      ProperAppend(false, [Bin(EDITION_STRING, d.text)], LanguageElems(d.languages));
      MasterIsProper(false, EDITION_DISPLAY, [Bin(EDITION_STRING, d.text)] + LanguageElems(d.languages));
    }
  }

  /** A strict muxer has no displays, and leaves the edition's UID out. */
  lemma ChaptersAreProper(l: Setup)
    requires ValidSetup(l) && Guarded(l)
    ensures AllProper(l.strict, ChapterKids(l))
  {
    assert !OffProfile(EDITION_ENTRY) && !IsMaster(EDITION_UID);
    assert l.strict ==> l.editions == [];
    hide OffProfile, IsMaster, Proper, Uint, ValidSetup, AllKidsProper;
    DisplaysAreProper(l.editions);
    UintIsProper(false, EDITION_UID, 1);
    var uid := if l.strict then [] else [Uint(EDITION_UID, 1)];
    ProperAppend(l.strict, uid, DisplayElems(l.editions));
    ProperAppend(l.strict, uid + DisplayElems(l.editions), l.chapters);
    MasterIsProper(l.strict, EDITION_ENTRY, EditionKids(l));
  }

  lemma PartIds()
    ensures !OffProfile(CHAPTERS) && !OffProfile(TAGS)
  {
  }

  lemma AttachmentsAreProper(l: Setup)
    requires ValidSetup(l) && Guarded(l)
    ensures AllProper(l.strict, Part(ATTACHMENTS, l.attachments, false))
  {
    hide Proper, OffProfile, CrcChild;
    if l.attachments != [] {
      CrcIsProper(SerAll(l.attachments));
      ProperAppend(false, [CrcChild(SerAll(l.attachments))], l.attachments);
      MasterIsProper(false, ATTACHMENTS, [CrcChild(SerAll(l.attachments))] + l.attachments);
    }
  }

  // ----- the Clusters -----

  lemma ClusterIsWellFormed(strict: bool, item: Item)
    requires ProperItem(strict, item) && item.Cluster? && Fits(ItemElem(item))
    ensures WellFormed(ItemElem(item)) && ItemElem(item).id == CLUSTER
    ensures strict ==> !Tainted(ItemElem(item), 1)
  {
    hide Proper, IsTopLevel, BlockElem, OffProfile, ProperBlock, SerAll, Fits;
    var kids := item.lead + BlockElems(item.blocks);
    forall j | 0 <= j < |kids|
      ensures Proper(strict, kids[j]) && !IsTopLevel(kids[j].id)
    {
      if j >= |item.lead| {
        BlockElemIsProper(strict, item.blocks[j - |item.lead|]);
      }
    }
    OpenFits(CLUSTER, kids);
    ProperAreWellFormed(strict, kids);
    NoneTopLevel(kids);
    OpenWellFormed(kids);
    if strict {
      ProperAreUntainted(kids, 2);
      ClusterUntainted(kids);
    }
  }

  lemma OpenFits(id: nat, kids: seq<Elem>)
    requires Fits(Open(id, kids))
    ensures FitAll(kids)
  {
  }

  lemma ClusterUntainted(kids: seq<Elem>)
    requires !TaintedAll(kids, 2)
    ensures !Tainted(Open(CLUSTER, kids), 1)
  {
  }

  lemma OpenWellFormed(kids: seq<Elem>)
    requires NoneEnds(AtTopLevel, kids) && WellFormedAll(kids)
    ensures WellFormed(Open(CLUSTER, kids))
  {
  }

  lemma {:induction false} NoneTopLevel(es: seq<Elem>)
    requires forall j :: 0 <= j < |es| ==> !IsTopLevel(es[j].id)
    ensures NoneEnds(AtTopLevel, es)
  {
    hide IsTopLevel;
    if es != [] {
      assert forall j :: 0 <= j < |es| - 1 ==> es[1..][j] == es[j + 1];
      NoneTopLevel(es[1..]);
    }
  }

  /** A Top-Level Element that may follow a Cluster: it ends the Cluster and not the Segment. */
  predicate Closing(e: Elem) {
    e.id == CLUSTER || e.id == TAGS || e.id == CUES
  }

  predicate AllClosing(es: seq<Elem>) {
    forall i :: 0 <= i < |es| ==> Closing(es[i])
  }

  lemma {:induction false} ItemsAreWellFormed(strict: bool, items: seq<Item>)
    requires forall k :: 0 <= k < |items| ==> ProperItem(strict, items[k])
    requires FitAll(ItemElems(items))
    ensures AllClosing(ItemElems(items))
    ensures forall k :: 0 <= k < |items| ==>
              WellFormed(ItemElem(items[k])) && (items[k].Cluster? || !ItemElem(items[k]).Open?)
    ensures strict ==> !TaintedAll(ItemElems(items), 1)
  {
    hide Proper, ProperKids, ProperBlock, Fits, WellFormed, Tainted, BlockElem;
    if items != [] {
      var item := items[0];
      var rest := items[1..];
      assert forall k :: 0 <= k < |rest| ==> rest[k] == items[k + 1];
      ItemElemsCons(items);
      ItemsAreWellFormed(strict, rest);
      if item.Cluster? {
        ClusterIsWellFormed(strict, item);
      } else {
        ProperIsWellFormed(strict, item.elem);
        BoundedProper(strict, item.elem);
        if strict {
          ProperIsUntainted(item.elem, 1);
        }
      }
      forall k | 0 <= k < |items|
        ensures WellFormed(ItemElem(items[k])) && (items[k].Cluster? || !ItemElem(items[k]).Open?)
      {
        if k > 0 {
          assert items[k] == rest[k - 1];
        }
      }
    }
  }

  lemma ItemElemsCons(items: seq<Item>)
    requires items != []
    ensures ItemElems(items) == [ItemElem(items[0])] + ItemElems(items[1..])
    ensures ItemElems(items)[0] == ItemElem(items[0]) && ItemElems(items)[1..] == ItemElems(items[1..])
  {
    hide ItemElem;
  }

  /** Top-Level Elements in a row: each unknown-size Cluster is ended by the next one. */
  lemma {:induction false} ClosingAreWellFormed(es: seq<Elem>)
    requires AllClosing(es) && forall i :: 0 <= i < |es| ==> WellFormed(es[i])
    requires forall i :: 0 <= i < |es| && es[i].Open? ==> es[i].id == CLUSTER
    ensures WellFormedAll(es) && NoneEnds(AtSegment, es)
  {
    hide WellFormed;
    if es != [] {
      assert forall i :: 0 <= i < |es| - 1 ==> es[1..][i] == es[i + 1];
      ClosingAreWellFormed(es[1..]);
    }
  }

  /** A bounded list in front of them changes nothing. */
  lemma {:induction false} PrependWellFormed(a: seq<Elem>, b: seq<Elem>)
    requires WellFormedAll(a) && WellFormedAll(b) && forall i :: 0 <= i < |a| ==> !a[i].Open?
    ensures WellFormedAll(a + b)
  {
    hide WellFormed;
    if a == [] {
      assert a + b == b;
    } else {
      assert (a + b)[1..] == a[1..] + b;
      assert forall i :: 0 <= i < |a| - 1 ==> a[1..][i] == a[i + 1];
      PrependWellFormed(a[1..], b);
    }
  }

  lemma {:induction false} NoSegmentInside(es: seq<Elem>)
    requires forall i :: 0 <= i < |es| ==> es[i].id != SEGMENT
    ensures NoneEnds(AtSegment, es)
  {
    if es != [] {
      assert forall i :: 0 <= i < |es| - 1 ==> es[1..][i] == es[i + 1];
      NoSegmentInside(es[1..]);
    }
  }

  // ----- the document -----

  /** The whole file as two elements: the EBML header and the Segment, which nothing follows. */
  function Document(l: Setup, p: Patches, items: seq<Item>, end: seq<Elem>): seq<Elem>
    requires ValidSetup(l)
  {
    [HeaderElem(l), Open(SEGMENT, SegmentHead(l, p) + (ItemElems(items) + end))]
  }

  lemma DocumentBytes(l: Setup, p: Patches, items: seq<Item>, end: seq<Elem>)
    requires ValidSetup(l)
    ensures SerAll(Document(l, p, items, end)) == FileBytes(l, [], p, items, end)
  {
    hide HeaderElem, SegmentHead, ItemElems, IdBytes, Ser, SerAll, ValidSetup;
    var header, head, es := HeaderElem(l), SegmentHead(l, p), ItemElems(items);
    SerAppend(head, es + end);
    SerAppend(es, end);
    SegmentBytes(head + (es + end));
    TwoBytes(header, Open(SEGMENT, head + (es + end)));
    FourPieces(Ser(header), IdBytes(SEGMENT) + [0xFF], SerAll(head), SerAll(es) + SerAll(end));
  }

  lemma TwoBytes(a: Elem, b: Elem)
    ensures SerAll([a, b]) == Ser(a) + Ser(b)
  {
    hide Ser, SerAll;
    SerOne(a);
    SerSnoc([a], b);
    assert [a] + [b] == [a, b];
  }

  lemma FourPieces(a: seq<byte>, b: seq<byte>, c: seq<byte>, d: seq<byte>)
    ensures a + (b + (c + d)) == [] + a + b + c + d
  {
  }

  lemma SegmentBytes(kids: seq<Elem>)
    ensures Ser(Open(SEGMENT, kids)) == (IdBytes(SEGMENT) + [0xFF]) + SerAll(kids)
  {
    hide IdBytes;
  }

  /** What `write_cues` may append. */
  predicate ProperEnd(strict: bool, end: seq<Elem>) {
    AllProper(strict, end) && forall i :: 0 <= i < |end| ==> end[i].id == CUES
  }

  lemma HeadHasNoSegment(l: Setup, p: Patches)
    requires ValidSetup(l) && ProperFront(l.strict, p)
    ensures forall i :: 0 <= i < |SegmentHead(l, p)| ==> SegmentHead(l, p)[i].id != SEGMENT
  {
    hide SegmentHead, ValidSetup, AllProper;
    HeadWithout(l, p, SEGMENT);
  }

  /** The Segment's children, as the scan wants them. */
  lemma ChildrenAreWellFormed(l: Setup, p: Patches, items: seq<Item>, end: seq<Elem>)
    requires ValidSetup(l) && Guarded(l) && ProperFront(l.strict, p) && ProperEnd(l.strict, end)
    requires forall k :: 0 <= k < |items| ==> ProperItem(l.strict, items[k])
    requires FitAll(SegmentHead(l, p) + (ItemElems(items) + end))
    ensures WellFormedAll(SegmentHead(l, p) + (ItemElems(items) + end))
    ensures NoneEnds(AtSegment, SegmentHead(l, p) + (ItemElems(items) + end))
    ensures l.strict ==> (TaintedAll(SegmentHead(l, p) + (ItemElems(items) + end), 1) <==> !NoFourcc(l))
  {
    hide Proper, ProperItem, SegmentHead, FitAll, Guarded, ValidSetup, TaintedAll, WellFormed, WellFormedAll,
      NoneEnds, NoFourcc, ItemElem, AllProper;
    var head, es := SegmentHead(l, p), ItemElems(items);
    var tail := es + end;
    FitAppend(head, tail);
    FitAppend(es, end);
    HeadIsProper(l, p);
    HeadHasNoSegment(l, p);
    ProperAreWellFormed(false, head);
    ItemsAreWellFormed(l.strict, items);
    EndIsWellFormed(l.strict, end);
    TailIsClosing(items, end);
    ClosingAreWellFormed(tail);
    HeadIsBounded(false, head);
    PrependWellFormed(head, tail);
    AllButSegment(head, tail);
    if l.strict {
      TaintedAppend(head, tail, 1);
      TaintedAppend(es, end, 1);
      ProperAreUntainted(end, 1);
    }
  }

  lemma HeadIsBounded(strict: bool, es: seq<Elem>)
    requires AllProper(strict, es)
    ensures forall i :: 0 <= i < |es| ==> !es[i].Open?
  {
    hide Proper;
    forall i | 0 <= i < |es|
      ensures !es[i].Open?
    {
      BoundedProper(strict, es[i]);
    }
  }

  lemma EndIsWellFormed(strict: bool, end: seq<Elem>)
    requires ProperEnd(strict, end) && FitAll(end)
    ensures forall i :: 0 <= i < |end| ==> WellFormed(end[i]) && !end[i].Open?
  {
    hide Proper, Fits, WellFormed;
    forall i | 0 <= i < |end|
      ensures WellFormed(end[i]) && !end[i].Open?
    {
      FitAt(end, i);
      ProperIsWellFormed(strict, end[i]);
      BoundedProper(strict, end[i]);
    }
  }

  lemma TailIsClosing(items: seq<Item>, end: seq<Elem>)
    requires AllClosing(ItemElems(items)) && forall i :: 0 <= i < |end| ==> end[i].id == CUES
    requires forall k :: 0 <= k < |items| ==>
               WellFormed(ItemElem(items[k])) && (items[k].Cluster? || !ItemElem(items[k]).Open?)
    requires forall i :: 0 <= i < |end| ==> WellFormed(end[i]) && !end[i].Open?
    ensures AllClosing(ItemElems(items) + end)
    ensures forall i :: 0 <= i < |ItemElems(items) + end| ==> WellFormed((ItemElems(items) + end)[i])
    ensures forall i :: 0 <= i < |ItemElems(items) + end| && (ItemElems(items) + end)[i].Open? ==>
              (ItemElems(items) + end)[i].id == CLUSTER
  {
    hide WellFormed, BlockElems;
  }

  lemma AllButSegment(head: seq<Elem>, tail: seq<Elem>)
    requires forall i :: 0 <= i < |head| ==> head[i].id != SEGMENT
    requires AllClosing(tail)
    ensures NoneEnds(AtSegment, head + tail)
  {
    hide NoneEnds;
    NoSegmentInside(head + tail);
  }

  lemma DocumentIsWellFormed(l: Setup, p: Patches, items: seq<Item>, end: seq<Elem>)
    requires ValidSetup(l) && Guarded(l) && ProperFront(l.strict, p) && ProperEnd(l.strict, end)
    requires forall k :: 0 <= k < |items| ==> ProperItem(l.strict, items[k])
    requires FitAll(Document(l, p, items, end))
    ensures WellFormedAll(Document(l, p, items, end))
    ensures l.strict ==> (TaintedAll(Document(l, p, items, end), 0) <==> !NoFourcc(l))
  {
    hide Proper, ProperItem, SegmentHead, ItemElems, HeaderElem, Guarded, ValidSetup, AllProper, ProperFront,
      ProperEnd, NoFourcc;
    var header, kids := HeaderElem(l), SegmentHead(l, p) + (ItemElems(items) + end);
    HeaderIsProper(l);
    TwoFit(header, Open(SEGMENT, kids));
    OpenFits(SEGMENT, kids);
    ProperIsWellFormed(l.strict, header);
    BoundedProper(l.strict, header);
    ChildrenAreWellFormed(l, p, items, end);
    if l.strict {
      ProperIsUntainted(header, 0);
    }
    TwoElements(header, kids);
  }

  lemma TwoFit(a: Elem, b: Elem)
    requires FitAll([a, b])
    ensures Fits(a) && Fits(b)
  {
    hide Fits;
    assert [a, b][1..] == [b];
  }

  lemma TwoElements(header: Elem, kids: seq<Elem>)
    requires WellFormed(header) && !header.Open? && WellFormedAll(kids) && NoneEnds(AtSegment, kids)
    ensures WellFormedAll([header, Open(SEGMENT, kids)])
    ensures !Tainted(header, 0) ==> (TaintedAll([header, Open(SEGMENT, kids)], 0) <==> TaintedAll(kids, 1))
  {
    hide WellFormed, Tainted;
    var segment := Open(SEGMENT, kids);
    SegmentAlone(kids);
    assert [header, segment][1..] == [segment];
    assert [segment][1..] == [];
    assert WellFormedAll([segment]);
    assert TaintedAll([segment], 0) <==> Tainted(segment, 0);
  }

  lemma SegmentAlone(kids: seq<Elem>)
    requires WellFormedAll(kids) && NoneEnds(AtSegment, kids)
    ensures WellFormed(Open(SEGMENT, kids))
    ensures Tainted(Open(SEGMENT, kids), 0) <==> TaintedAll(kids, 1)
  {
    SegmentInProfile();
    hide OffProfile, IsMaster;
  }

  lemma SegmentInProfile()
    ensures !OffProfile(SEGMENT)
  {
  }

  /** The scan finds no damage in any file the muxer writes from offset 0. */
  lemma FileScansClean(l: Setup, p: Patches, items: seq<Item>, end: seq<Elem>)
    requires ValidSetup(l) && Guarded(l) && ProperFront(l.strict, p) && ProperEnd(l.strict, end)
    requires forall k :: 0 <= k < |items| ==> ProperItem(l.strict, items[k])
    requires FitAll(Document(l, p, items, end))
    ensures ScanReport(FileBytes(l, [], p, items, end)).stoppedAt.None?
    ensures l.strict ==> (IsConformant(ScanReport(FileBytes(l, [], p, items, end))) <==> NoFourcc(l))
  {
    hide Document, FileBytes, WellFormedAll, FitAll, Guarded, ValidSetup, ProperFront, ProperEnd, ProperItem,
      NoFourcc, TaintedAll, ScanReport, FirstText, IsConformant;
    DocumentIsWellFormed(l, p, items, end);
    DocumentBytes(l, p, items, end);
    var doc := Document(l, p, items, end);
    ScanInvertsSerialiser(doc);
    if l.strict {
      VerdictOn(doc);
      assert l.webm by { StrictIsWebm(l); }
      DocumentText(l, p, items, end, |SerAll(doc)|);
    }
  }

  lemma StrictIsWebm(l: Setup)
    requires ValidSetup(l) && l.strict
    ensures l.webm
  {
  }

  lemma DocumentText(l: Setup, p: Patches, items: seq<Item>, end: seq<Elem>, limit: nat)
    requires ValidSetup(l) && l.webm
    ensures FirstText(EventsAll(Document(l, p, items, end), 0, 0, limit)) == Some(WEBM_TEXT)
  {
    hide HeaderElem, SegmentHead, ItemElems, Events, Ser, FirstText;
    var doc := Document(l, p, items, end);
    HeaderText(l, 0, limit, EventsAll(doc[1..], |Ser(doc[0])|, 0, limit));
  }
}
