/** The input that breaks the strict-WebM promise: one video stream and one setter. */
module FourccWitness {
  import opened Wrappers
  import opened Bytes
  import opened Ebml
  import opened Ids
  import opened Elements
  import opened Sizes
  import opened SeekHeads
  import opened Scanner
  import opened Muxer
  import opened MuxerRun
  import opened MuxerFile
  import opened FilePatches
  import opened Setters
  import opened StrictWebm
  import opened EndToEnd

  /** A WebM muxer for one stream, after one call of the FourCC setter. */
  function Tainted(stream: Stream, fourcc: seq<byte>): Setup {
    Configured(true, [stream], [FourCC(0, fourcc)])
  }

  lemma TaintedIs(stream: Stream, fourcc: seq<byte>)
    requires stream.media == VideoMedia && |fourcc| == 4
    ensures Tainted(stream, fourcc) == New(true, [stream]).(fourccs := [Some(fourcc)])
    ensures Tainted(stream, fourcc).strict && !NoFourcc(Tainted(stream, fourcc))
    ensures ValidSetup(Tainted(stream, fourcc))
  {
    var setters := [FourCC(0, fourcc)];
    assert setters[1..] == [];
    var l := New(true, [stream]);
    assert l.fourccs[0 := Some(fourcc)] == [Some(fourcc)];
    assert Configure(l.(fourccs := [Some(fourcc)]), []) == l.(fourccs := [Some(fourcc)]);
    assert Configure(l, setters) == l.(fourccs := [Some(fourcc)]);
    assert l.(fourccs := [Some(fourcc)]).fourccs[0] == Some(fourcc);
  }

  // ----- the document is small -----

  lemma SmallSlot(id: nat, slot: Slot)
    ensures Light(SlotElem(id, slot), 48)
  {
    assert ValidId(SEEK) && ValidId(SEEK_ID) && ValidId(SEEK_POSITION);
    hide ValidId, BE, Light, AllLight;
    if slot.Voided? {
      SmallVoid();
    } else {
      var pos := if slot.Unset? then 0 else slot.pos;
      LightLeaf(SEEK_ID, BE(id, 4));
      LightLeaf(SEEK_POSITION, BE(pos, 8));
      LightAppend([Bin(SEEK_ID, BE(id, 4))], 16, [Bin(SEEK_POSITION, BE(pos, 8))], 20);
      assert [Bin(SEEK_ID, BE(id, 4))] + [Bin(SEEK_POSITION, BE(pos, 8))]
             == [Bin(SEEK_ID, BE(id, 4)), Bin(SEEK_POSITION, BE(pos, 8))];
      LightMaster(SEEK, [Bin(SEEK_ID, BE(id, 4)), Bin(SEEK_POSITION, BE(pos, 8))], 36);
    }
  }

  lemma SmallVoid()
    ensures Light(VoidSeekEntry(), 48)
  {
  }

  lemma {:induction false} SmallSlots(ids: seq<nat>, slots: seq<Slot>)
    requires |ids| == |slots|
    ensures AllLight(SlotElems(ids, slots), 48 * |ids|)
  {
    hide Light, AllLight, SlotElem;
    LightNone();
    if ids != [] {
      SmallSlot(ids[0], slots[0]);
      LightOne(SlotElem(ids[0], slots[0]), 48);
      SmallSlots(ids[1..], slots[1..]);
      LightAppend([SlotElem(ids[0], slots[0])], 48, SlotElems(ids[1..], slots[1..]), 48 * |ids[1..]|);
    }
  }

  lemma SmallHeader(l: Setup)
    requires l.extensions == [] && l.webm
    ensures Light(HeaderElem(l), 200)
  {
    assert ValidId(EBML_VERSION) && ValidId(EBML_READ_VERSION) && ValidId(EBML_MAX_ID_LENGTH)
           && ValidId(EBML_MAX_SIZE_LENGTH);
    assert ValidId(EBML_DOC_TYPE) && ValidId(EBML_DOC_TYPE_VERSION) && ValidId(EBML_DOC_TYPE_READ_VERSION)
           && ValidId(EBML_HEADER);
    hide ValidId, Light, AllLight, Uint, DocTypeVersion;
    var a, b, c, d := Uint(EBML_VERSION, 1), Uint(EBML_READ_VERSION, 1), Uint(EBML_MAX_ID_LENGTH, 4),
                      Uint(EBML_MAX_SIZE_LENGTH, 8);
    var e, f, g := Bin(EBML_DOC_TYPE, WEBM_TEXT), Uint(EBML_DOC_TYPE_VERSION, DocTypeVersion(l)),
                   Uint(EBML_DOC_TYPE_READ_VERSION, 2);
    LightUint(EBML_VERSION, 1);
    LightUint(EBML_READ_VERSION, 1);
    LightUint(EBML_MAX_ID_LENGTH, 4);
    LightUint(EBML_MAX_SIZE_LENGTH, 8);
    LightLeaf(EBML_DOC_TYPE, WEBM_TEXT);
    LightUint(EBML_DOC_TYPE_VERSION, DocTypeVersion(l));
    LightUint(EBML_DOC_TYPE_READ_VERSION, 2);
    SmallFour(a, b, c, d);
    LightAppend([a, b, c, d], 80, [e], 16);
    LightAppend([a, b, c, d] + [e], 96, [f], 20);
    LightAppend([a, b, c, d] + [e] + [f], 116, [g], 20);
    assert [a, b, c, d] + [e] + [f] + [g] == [a, b, c, d, e, f, g] + [];
    LightMaster(EBML_HEADER, [a, b, c, d, e, f, g] + [], 136);
    Lighter(HeaderElem(l), 148, 200);
  }

  lemma Lighter(e: Elem, m: nat, n: nat)
    requires Light(e, m) && m <= n
    ensures Light(e, n)
  {
    hide Regular, Weight;
  }

  lemma SmallFour(a: Elem, b: Elem, c: Elem, d: Elem)
    requires Light(a, 20) && Light(b, 20) && Light(c, 20) && Light(d, 20)
    ensures AllLight([a, b, c, d], 80)
  {
    hide Light, AllLight;
    LightOne(a, 20);
    LightOne(b, 20);
    LightOne(c, 20);
    LightOne(d, 20);
    LightAppend([a], 20, [b], 20);
    LightAppend([a] + [b], 40, [c], 20);
    LightAppend([a] + [b] + [c], 60, [d], 20);
    assert [a] + [b] + [c] + [d] == [a, b, c, d];
  }

  lemma SmallInfo(l: Setup)
    requires l.strict && l.linking == [] && l.info == [] && !l.finalize
    ensures Light(InfoElem(l, None), 100)
  {
    assert ValidId(TIMECODE_SCALE) && ValidId(MUXING_APP) && ValidId(WRITING_APP) && ValidId(INFO);
    hide ValidId, Light, AllLight, Uint;
    var a, b, c := Uint(TIMECODE_SCALE, 1000000), Bin(MUXING_APP, OXIDEAV_TEXT), Bin(WRITING_APP, OXIDEAV_TEXT);
    LightUint(TIMECODE_SCALE, 1000000);
    LightLeaf(MUXING_APP, OXIDEAV_TEXT);
    LightLeaf(WRITING_APP, OXIDEAV_TEXT);
    LightAppend([a], 20, [b], 19);
    LightAppend([a] + [b], 39, [c], 19);
    assert InfoKids(l, None) == [a] + [b] + [c];
    LightMaster(INFO, InfoKids(l, None), 58);
    Lighter(InfoElem(l, None), 70, 100);
  }

  lemma SmallEntry(l: Setup, n: nat)
    requires ValidSetup(l) && |l.streams| == 1 && l.trackKids[0] == [] && l.videoKids[0] == []
             && l.streams[0].media == VideoMedia
    requires l.fourccs[0].Some? && |l.streams[0].codecId| + |l.streams[0].codecPrivate| <= n
    ensures Light(TrackEntry(l, 0), 200 + n)
  {
    assert ValidId(TRACK_NUMBER) && ValidId(TRACK_UID) && ValidId(TRACK_TYPE) && ValidId(FLAG_LACING)
           && ValidId(CODEC_ID);
    assert ValidId(CODEC_PRIVATE) && ValidId(VIDEO) && ValidId(UNCOMPRESSED_FOURCC) && ValidId(TRACK_ENTRY);
    assert |l.fourccs[0].value| == 4;
    hide ValidId, Light, AllLight, Uint, LacingFlag, UsesV5;
    var t := l.streams[0];
    var a, b, c, d := Uint(TRACK_NUMBER, t.number), Uint(TRACK_UID, t.number), Uint(TRACK_TYPE, TrackType(t.media)),
                      Uint(FLAG_LACING, LacingFlag(l, 0));
    LightUint(TRACK_NUMBER, t.number);
    LightUint(TRACK_UID, t.number);
    LightUint(TRACK_TYPE, TrackType(t.media));
    LightUint(FLAG_LACING, LacingFlag(l, 0));
    SmallFour(a, b, c, d);
    SmallCodec(t);
    assert [a, b, c, d] + [] == [a, b, c, d];
    assert EntryStart(l, 0) == [a, b, c, d] + CodecKids(t);
    LightAppend([a, b, c, d], 80, CodecKids(t), 24 + |t.codecId| + |t.codecPrivate|);
    var four := Bin(UNCOMPRESSED_FOURCC, l.fourccs[0].value);
    LightLeaf(UNCOMPRESSED_FOURCC, l.fourccs[0].value);
    assert [] + [four] == [four];
    LightMaster(VIDEO, [four], 16);
    LightAppend(EntryStart(l, 0), 104 + |t.codecId| + |t.codecPrivate|, [VideoElem(l, 0)], 28);
    LightMaster(TRACK_ENTRY, EntryStart(l, 0) + [VideoElem(l, 0)], 132 + |t.codecId| + |t.codecPrivate|);
    Lighter(TrackEntry(l, 0), 144 + |t.codecId| + |t.codecPrivate|, 200 + n);
  }

  lemma SmallCodec(t: Track)
    ensures AllLight(CodecKids(t), 24 + |t.codecId| + |t.codecPrivate|)
  {
    assert ValidId(CODEC_ID) && ValidId(CODEC_PRIVATE);
    hide ValidId, Weight, Regular;
    LightLeaf(CODEC_ID, t.codecId);
    LightLeaf(CODEC_PRIVATE, t.codecPrivate);
    WeightAppend([Bin(CODEC_ID, t.codecId)], if t.codecPrivate == [] then [] else [Bin(CODEC_PRIVATE, t.codecPrivate)]);
  }

  lemma SmallTracks(l: Setup, n: nat)
    requires ValidSetup(l) && |l.streams| == 1 && l.strict && l.trackKids[0] == [] && l.videoKids[0] == []
    requires l.streams[0].media == VideoMedia && l.fourccs[0].Some?
    requires |l.streams[0].codecId| + |l.streams[0].codecPrivate| <= n
    ensures Light(TracksElem(l), 212 + n)
  {
    assert ValidId(TRACKS);
    SmallEntry(l, n);
    hide ValidId, Light, AllLight, TrackEntry, UsesV5;
    assert TrackEntries(l, 0) == [];
    assert TrackEntries(l, 1) == [] + [TrackEntry(l, 0)];
    assert [] + [TrackEntry(l, 0)] == [TrackEntry(l, 0)];
    LightOne(TrackEntry(l, 0), 200 + n);
    LightMaster(TRACKS, [TrackEntry(l, 0)], 200 + n);
  }

  lemma SmallSegment(l: Setup, n: nat)
    requires ValidSetup(l) && |l.streams| == 1 && l.strict && !l.live && l.trackKids[0] == [] && l.videoKids[0] == []
    requires l.streams[0].media == VideoMedia && l.fourccs[0].Some? && l.linking == [] && l.info == [] && !l.finalize
    requires l.expansion.None? && l.front.None? && l.chapters == [] && l.attachments == [] && l.tags == []
    requires |l.streams[0].codecId| + |l.streams[0].codecPrivate| <= n
    ensures AllLight(SegmentHead(l, Unpatched(l)), 700 + n)
  {
    assert ValidId(SEEK_HEAD);
    SmallInfo(l);
    SmallTracks(l, n);
    hide ValidId, Light, AllLight, SlotElems, Slots, InfoElem, TracksElem, UsesV5;
    var head := SeekHead(Slots(l, Unset));
    SmallSlots(SeekIds(), Slots(l, Unset));
    LightMaster(SEEK_HEAD, SlotElems(SeekIds(), Slots(l, Unset)), 288);
    LightOne(InfoElem(l, None), 100);
    LightOne(TracksElem(l), 212 + n);
    LightAppend([head], 300, [InfoElem(l, None)], 100);
    LightAppend([head] + [InfoElem(l, None)], 400, [TracksElem(l)], 212 + n);
    ThreeOnly(l, head);
    HeavierAll(SegmentHead(l, Unpatched(l)), 612 + n, 700 + n);
  }

  lemma HeavierAll(es: seq<Elem>, m: nat, n: nat)
    requires AllLight(es, m) && m <= n
    ensures AllLight(es, n)
  {
    hide AllRegular, WeightAll;
  }

  lemma ThreeOnly(l: Setup, head: Elem)
    requires ValidSetup(l) && !l.live && l.expansion.None? && l.front.None? && l.chapters == [] && l.attachments == []
             && l.tags == []
    requires head == SeekHead(Slots(l, Unset))
    ensures SegmentHead(l, Unpatched(l)) == [head] + [InfoElem(l, None)] + [TracksElem(l)]
  {
    hide SeekHead, Slots, InfoElem, TracksElem, UsesV5;
  }

  lemma SmallDocument(l: Setup, n: nat)
    requires ValidSetup(l) && Light(HeaderElem(l), 200) && AllLight(SegmentHead(l, Unpatched(l)), 700 + n)
             && n < TWO_TO_THE_32
    ensures FitAll(Document(l, Unpatched(l), [], []))
  {
    assert ValidId(SEGMENT);
    hide ValidId, Weight, Regular, WeightAll, AllRegular, HeaderElem, SegmentHead, ValidSetup;
    var kids := SegmentHead(l, Unpatched(l));
    assert kids + ([] + []) == kids;
    LightFits(HeaderElem(l));
    LightAllFit(kids);
    PairFits(HeaderElem(l), kids);
  }

  lemma PairFits(header: Elem, kids: seq<Elem>)
    requires Fits(header) && FitAll(kids)
    ensures FitAll([header, Open(SEGMENT, kids)])
  {
    hide Fits, FitAll;
    OpenIsFit(kids);
    OneFits(header);
    OneFits(Open(SEGMENT, kids));
    FitAppend([header], [Open(SEGMENT, kids)]);
    assert [header] + [Open(SEGMENT, kids)] == [header, Open(SEGMENT, kids)];
  }

  lemma OneFits(e: Elem)
    requires Fits(e)
    ensures FitAll([e])
  {
    hide Fits;
    assert [e][1..] == [];
  }

  lemma OpenIsFit(kids: seq<Elem>)
    requires FitAll(kids)
    ensures Fits(Open(SEGMENT, kids))
  {
  }

  /**
   * A strict muxer for one video stream of any admitted codec, one call of `set_video_uncompressed_fourcc`
   * that returns no error, and not a packet yet: the file that the header makes is not conformant.
   */
  lemma StrictFileIsNotConformant(stream: Stream, fourcc: seq<byte>)
    requires stream.media == VideoMedia && AdmittedByWebm(stream.codec) && |fourcc| == 4
    requires |stream.codecId| + |stream.codecPrivate| < TWO_TO_THE_32
    ensures Acceptable(true, [stream])
    ensures var l := Tainted(stream, fourcc);
            && l.strict && ValidSetup(l)
            && FitAll(Document(l, Unpatched(l), StateAfter(l, []).items, []))
            && !IsConformant(ScanReport(FileBytes(l, [], Unpatched(l), StateAfter(l, []).items, [])))
  {
    hide Document, ScanReport, IsConformant, FileBytes, StateAfter, Unpatched, Configured, New, ValidSetup, NoFourcc,
      ConfigOf, Sound, ValidConfig, ProperSetters, FitAll, Guarded;
    OneSetter(fourcc);
    TaintedIs(stream, fourcc);
    var l := Tainted(stream, fourcc);
    NoCalls(l);
    TaintedFits(stream, fourcc);
    OutputScansClean(true, [stream], [FourCC(0, fourcc)], []);
  }

  lemma OneSetter(fourcc: seq<byte>)
    ensures ProperSetters([FourCC(0, fourcc)])
  {
  }

  lemma TaintedFits(stream: Stream, fourcc: seq<byte>)
    requires stream.media == VideoMedia && |fourcc| == 4 && |stream.codecId| + |stream.codecPrivate| < TWO_TO_THE_32
    ensures ValidSetup(Tainted(stream, fourcc))
    ensures FitAll(Document(Tainted(stream, fourcc), Unpatched(Tainted(stream, fourcc)), [], []))
  {
    TaintedIs(stream, fourcc);
    hide Document, Unpatched, Tainted, Light, AllLight, FitAll, HeaderElem, SegmentHead;
    var l := Tainted(stream, fourcc);
    var n := |stream.codecId| + |stream.codecPrivate|;
    SmallHeader(l);
    SmallSegment(l, n);
    SmallDocument(l, n);
  }

  lemma NoCalls(l: Setup)
    requires ValidSetup(l)
    ensures StateAfter(l, []).items == []
  {
    hide ConfigOf, UsesV5;
    ConfigIsValid(l);
    hide Inv, Sound;
  }
}
