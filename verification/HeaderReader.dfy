/**
 * Reading the header of a finished file back: the EBML header, Info and Tracks, with IDs and codes
 * straight from RFC 8794 and RFC 9559.
 */
module HeaderReader {
  import opened Wrappers
  import opened Bytes
  import opened Ebml
  import opened Crc32
  import opened Ids
  import opened Elements
  import opened Splitter
  import opened TreeReader
  import opened Voids
  import opened Lacing
  import opened Scanner
  import opened TreeRules
  import opened HintGuards
  import opened Muxer
  import opened MuxerProfile
  import opened MuxerFile
  import opened Setters
  import opened EndToEnd

  // ----- a reader -----

  /** EBMLVersion, EBMLReadVersion, EBMLMaxIDLength, EBMLMaxSizeLength, DocType and its two versions. */
  datatype HeaderRead = HeaderRead(
    version: Option<nat>, readVersion: Option<nat>, maxId: Option<nat>, maxSize: Option<nat>,
    docType: Option<seq<byte>>, typeVersion: Option<nat>, typeReadVersion: Option<nat>)

  function ReadHeader(body: seq<byte>): HeaderRead {
    var raws := Kids(body);
    HeaderRead(NatIn(raws, 0x4286), NatIn(raws, 0x42F7), NatIn(raws, 0x42F2), NatIn(raws, 0x42F3), Find(raws, 0x4282),
               NatIn(raws, 0x4287), NatIn(raws, 0x4285))
  }

  /** TimestampScale, MuxingApp, WritingApp and Duration. */
  datatype InfoRead = InfoRead(
    scale: Option<nat>, muxingApp: Option<seq<byte>>, writingApp: Option<seq<byte>>, duration: Option<seq<byte>>)

  function ReadInfo(body: seq<byte>): InfoRead {
    var raws := Kids(body);
    InfoRead(NatIn(raws, 0x2AD7B1), Find(raws, 0x4D80), Find(raws, 0x5741), Find(raws, 0x4489))
  }

  /** TrackNumber, TrackUID, TrackType, FlagLacing (1 if absent), CodecID, CodecPrivate, UncompressedFourCC. */
  datatype TrackRead = TrackRead(
    number: Option<nat>, uid: Option<nat>, kind: Option<nat>, lacing: nat, codecId: Option<seq<byte>>,
    codecPrivate: seq<byte>, fourcc: Option<seq<byte>>)

  function ReadTrack(body: seq<byte>): TrackRead {
    var raws := Kids(body);
    TrackRead(NatIn(raws, 0xD7), NatIn(raws, 0x73C5), NatIn(raws, 0x83), NatOr(raws, 0x9C, 1), Find(raws, 0x86),
              BytesIn(raws, 0x63A2, []), Find(Kids(BytesIn(raws, 0xE0, [])), 0x2EB524))
  }

  function ReadTrackList(bodies: seq<seq<byte>>): seq<TrackRead> {
    if bodies == [] then [] else ReadTrackList(bodies[..|bodies| - 1]) + [ReadTrack(bodies[|bodies| - 1])]
  }

  function ReadTracks(body: seq<byte>): seq<TrackRead> {
    ReadTrackList(All(Kids(body), 0xAE))
  }

  // ----- what it should find -----

  /** Section 5.1.4.1.3 of RFC 9559; what is neither video nor audio counts as a subtitle. */
  function TypeCode(media: Media): nat {
    match media
    case VideoMedia => 1
    case AudioMedia => 2
    case SubtitleMedia => 17
    case OtherMedia => 17
  }

  function TrackTold(l: Setup, i: nat): TrackRead
    requires i < |l.streams| && i < |l.flagLacing| && i < |l.fourccs|
  {
    var t := l.streams[i];
    TrackRead(Some(i + 1), Some(i + 1), Some(TypeCode(t.media)),
              if l.flagLacing[i] == Some(true) || (l.flagLacing[i] == None && l.mode != NoLacing) then 1 else 0,
              Some(t.codecId), t.codecPrivate, if t.media == VideoMedia then l.fourccs[i] else None)
  }

  function TracksTold(l: Setup, n: nat): (ts: seq<TrackRead>)
    requires n <= |l.streams| && n <= |l.flagLacing| && n <= |l.fourccs|
    ensures |ts| == n && forall i :: 0 <= i < n ==> ts[i] == TrackTold(l, i)
  {
    if n == 0 then [] else TracksTold(l, n - 1) + [TrackTold(l, n - 1)]
  }

  /** "oxideav". */
  const APP: seq<byte> := [0x6F, 0x78, 0x69, 0x64, 0x65, 0x61, 0x76]

  /** "webm" or "matroska". */
  function TypeTold(webm: bool): seq<byte> {
    if webm then [0x77, 0x65, 0x62, 0x6D] else [0x6D, 0x61, 0x74, 0x72, 0x6F, 0x73, 0x6B, 0x61]
  }

  // ----- hints leave these fields alone -----

  predicate Reserved(place: HintPlace, id: nat) {
    match place
    case InHeader =>
      id == 0x4286 || id == 0x42F7 || id == 0x42F2 || id == 0x42F3 || id == 0x4282 || id == 0x4287 || id == 0x4285
    case BeforeScale => id == 0x2AD7B1 || id == 0x4D80 || id == 0x5741 || id == 0x4489
    case InInfo => id == 0x2AD7B1 || id == 0x4D80 || id == 0x5741
    case InTrack(_) =>
      id == 0xD7 || id == 0x73C5 || id == 0x83 || id == 0x9C || id == 0x86 || id == 0x63A2 || id == 0xE0
    case InVideo(_) => id == 0x2EB524
    case InEdition => id == 0x45BC || id == 0x4520
    case InAttachments => false
  }

  predicate ClearOf(es: seq<Elem>, place: HintPlace) {
    forall i :: 0 <= i < |es| ==> !Reserved(place, es[i].id)
  }

  /** No queued hint can be mistaken for a field of the muxer's own. */
  predicate Clear(l: Setup) {
    && ClearOf(l.extensions, InHeader) && ClearOf(l.linking, BeforeScale) && ClearOf(l.info, InInfo)
    && ClearOf(l.chapters, InEdition)
    && (l.finalize ==> !HoldsDuration(l.info))
    && (forall i :: 0 <= i < |l.trackKids| ==> ClearOf(l.trackKids[i], InTrack(i)))
    && (forall i :: 0 <= i < |l.videoKids| ==> ClearOf(l.videoKids[i], InVideo(i)))
  }

  lemma TrackHintIsClear(kind: HintKind, i: nat, id: nat)
    requires MayWrite(kind, id) && PlaceOf(kind, i).InTrack?
    ensures !Reserved(InTrack(i), id)
  {
  }

  lemma VideoHintIsClear(kind: HintKind, i: nat, id: nat)
    requires MayWrite(kind, id) && PlaceOf(kind, i).InVideo? && kind != Fourcc
    ensures !Reserved(InVideo(i), id)
  {
  }

  lemma OtherHintIsClear(kind: HintKind, i: nat, id: nat)
    requires kind.DocTypeExtensions? || kind.Linking? || kind.KnownDuration? || kind.DateUtc? || kind.Title?
             || kind.Chapters? || kind.Attachments?
    requires MayWrite(kind, id)
    ensures !Reserved(PlaceOf(kind, i), id)
  {
  }

  lemma HintIsClear(kind: HintKind, i: nat, id: nat)
    requires MayWrite(kind, id) && kind != Fourcc
    ensures !Reserved(PlaceOf(kind, i), id)
  {
    hide MayWrite, Reserved;
    var place := PlaceOf(kind, i);
    if place.InTrack? {
      TrackHintIsClear(kind, i, id);
    } else if place.InVideo? {
      VideoHintIsClear(kind, i, id);
    } else {
      OtherHintIsClear(kind, i, id);
    }
  }

  lemma DurationHint(kind: HintKind, id: nat)
    requires MayWrite(kind, id) && id == 0x4489
    ensures kind == KnownDuration
  {
  }

  lemma BuiltId(kind: HintKind, tree: Elem)
    requires Built(kind, tree, false)
    ensures MayWrite(kind, tree.id)
  {
    hide MayWrite;
  }

  lemma QueuedIsClear(l: Setup, place: HintPlace, tree: Elem)
    requires Clear(l) && PlaceExists(l, place) && !Reserved(place, tree.id)
    requires place.InInfo? && l.finalize ==> tree.id != 0x4489
    ensures Clear(Queued(l, place, tree))
  {
    hide Reserved;
    var m := Queued(l, place, tree);
    SamePlace(place, tree.id);
    if place.InTrack? {
      assert ClearOf(l.trackKids[place.stream], InTrack(place.stream));
    } else if place.InVideo? {
      assert ClearOf(l.videoKids[place.stream], InVideo(place.stream));
    }
  }

  lemma SamePlace(place: HintPlace, id: nat)
    ensures place.InTrack? ==> forall i :: Reserved(InTrack(i), id) == Reserved(place, id)
    ensures place.InVideo? ==> forall i :: Reserved(InVideo(i), id) == Reserved(place, id)
  {
  }

  lemma SetKeepsClear(l: Setup, s: Setter)
    requires Clear(l) && ProperSetter(s) && Set(l, s).Some?
    ensures Clear(Set(l, s).value)
  {
    hide ClearOf, Built, Proper, Refuses, MayWrite, TagAdmitted, HasV5, PrintableLanguages;
    if s.Hint? {
      BuiltId(s.kind, s.tree);
      HintIsClear(s.kind, s.stream, s.tree.id);
      if s.tree.id == 0x4489 {
        DurationHint(s.kind, s.tree.id);
      }
      hide Clear, Queued, Reserved;
      QueuedIsClear(l, PlaceOf(s.kind, s.stream), s.tree);
    }
  }

  lemma {:induction false} ConfigureKeepsClear(l: Setup, setters: seq<Setter>)
    requires Clear(l) && ProperSetters(setters)
    ensures Clear(Configure(l, setters))
    decreases |setters|
  {
    hide Clear, Set, ProperSetter;
    if setters != [] {
      assert forall i :: 0 <= i < |setters| - 1 ==> setters[1..][i] == setters[i + 1];
      match Set(l, setters[0])
      case None => ConfigureKeepsClear(l, setters[1..]);
      case Some(m) =>
        SetKeepsClear(l, setters[0]);
        ConfigureKeepsClear(m, setters[1..]);
    }
  }

  lemma NewIsClear(webm: bool, streams: seq<Stream>)
    ensures Clear(New(webm, streams))
  {
  }

  lemma ConfiguredIsClear(webm: bool, streams: seq<Stream>, setters: seq<Setter>)
    requires ProperSetters(setters)
    ensures Clear(Configured(webm, streams, setters))
  {
    hide Clear, Guarded, ValidSetup;
    NewIsClear(webm, streams);
    NewIsGuarded(webm, streams);
    ConfiguredIsGuarded(New(webm, streams), setters);
    ConfigureKeepsClear(New(webm, streams), setters);
  }

  // ----- reading one track -----

  lemma FieldFour(a: Elem, b: Elem, c: Elem, d: Elem, id: nat)
    ensures Field([a, b, c, d], id)
         == if a.id == id then Some(Body(a)) else if b.id == id then Some(Body(b))
            else if c.id == id then Some(Body(c)) else if d.id == id then Some(Body(d)) else None
  {
    hide Field, Fields, Body;
    assert [a, b, c, d] == [a] + [b] + [c] + [d];
    FieldSum([a] + [b] + [c], [d], id);
    FieldSum([a] + [b], [c], id);
    FieldSum([a], [b], id);
    FieldOne(a, id);
    FieldOne(b, id);
    FieldOne(c, id);
    FieldOne(d, id);
  }

  lemma NatReads(raws: seq<Raw>, id: nat, v: nat)
    requires Find(raws, id) == Some(Body(Uint(id, v))) && v < TWO_TO_THE_64
    ensures NatIn(raws, id) == Some(v)
  {
    hide Uint, Body, UintBody, Find;
    UintBodyReads(id, v);
  }

  lemma CodecField(t: Track, id: nat)
    ensures Field(CodecKids(t), id)
         == if id == CODEC_ID then Some(t.codecId)
            else if id == CODEC_PRIVATE && t.codecPrivate != [] then Some(t.codecPrivate) else None
    ensures Sized(CodecKids(t))
  {
    var a, b := [Bin(CODEC_ID, t.codecId)], Maybe(t.codecPrivate != [], Bin(CODEC_PRIVATE, t.codecPrivate));
    assert CodecKids(t) == a + b;
    FieldSum(a, b, id);
    FieldOne(a[0], id);
    FieldMaybe(t.codecPrivate != [], Bin(CODEC_PRIVATE, t.codecPrivate), id);
  }

  /** The four fields of its own that a TrackEntry starts with. */
  function FirstFour(l: Setup, i: nat): seq<Elem>
    requires i < |l.streams| && i < |l.flagLacing|
  {
    var t := l.streams[i];
    [Uint(TRACK_NUMBER, t.number), Uint(TRACK_UID, t.number), Uint(TRACK_TYPE, TrackType(t.media)),
     Uint(FLAG_LACING, LacingFlag(l, i))]
  }

  lemma FirstFourReads(l: Setup, i: nat, id: nat)
    requires ValidSetup(l) && i < |l.streams|
    ensures var t := l.streams[i];
            Field(FirstFour(l, i), id) ==
            if id == TRACK_NUMBER then Some(Body(Uint(TRACK_NUMBER, t.number)))
            else if id == TRACK_UID then Some(Body(Uint(TRACK_UID, t.number)))
            else if id == TRACK_TYPE then Some(Body(Uint(TRACK_TYPE, TrackType(t.media))))
            else if id == FLAG_LACING then Some(Body(Uint(FLAG_LACING, LacingFlag(l, i)))) else None
    ensures Sized(FirstFour(l, i))
  {
    hide Uint, Body, TrackType, LacingFlag, UsesV5, Numbered, FourccsOk;
    var t := l.streams[i];
    UintsAreLeaves(TRACK_NUMBER, t.number);
    UintsAreLeaves(TRACK_UID, t.number);
    UintsAreLeaves(TRACK_TYPE, TrackType(t.media));
    UintsAreLeaves(FLAG_LACING, LacingFlag(l, i));
    FieldFour(Uint(TRACK_NUMBER, t.number), Uint(TRACK_UID, t.number), Uint(TRACK_TYPE, TrackType(t.media)),
              Uint(FLAG_LACING, LacingFlag(l, i)), id);
  }

  lemma ProperIsSized(strict: bool, es: seq<Elem>)
    requires AllProper(strict, es)
    ensures Sized(es)
  {
    forall i | 0 <= i < |es|
      ensures !es[i].Open?
    {
      assert Proper(strict, es[i]);
    }
  }

  lemma EntryParts(l: Setup, i: nat)
    requires ValidSetup(l) && i < |l.streams|
    ensures var video := Maybe(l.streams[i].media == VideoMedia, VideoElem(l, i));
            TrackEntry(l, i) == Master(TRACK_ENTRY, FirstFour(l, i) + l.trackKids[i] + CodecKids(l.streams[i]) + video)
  {
    hide VideoElem, CodecKids, Uint, TrackType, LacingFlag;
  }

  lemma VideoReads(l: Setup, i: nat)
    requires ValidSetup(l) && i < |l.streams| && Fits(VideoElem(l, i)) && Sized(l.videoKids[i])
    requires ClearOf(l.videoKids[i], InVideo(i))
    ensures Find(Kids(Body(VideoElem(l, i))), 0x2EB524) == l.fourccs[i]
  {
    hide Fits, FitAll, Kids, Body, UsesV5, Numbered, FourccsOk;
    var own := Maybe(l.fourccs[i].Some?, Bin(UNCOMPRESSED_FOURCC, BytesOr(l.fourccs[i])));
    var kids := l.videoKids[i] + own;
    assert VideoElem(l, i) == Master(VIDEO, kids);
    SizedSum(l.videoKids[i], own);
    MasterKids(VIDEO, kids);
    FieldSum(l.videoKids[i], own, 0x2EB524);
    NoField(l.videoKids[i], 0x2EB524);
    FieldMaybe(l.fourccs[i].Some?, Bin(UNCOMPRESSED_FOURCC, BytesOr(l.fourccs[i])), 0x2EB524);
    assert Body(Bin(UNCOMPRESSED_FOURCC, BytesOr(l.fourccs[i]))) == BytesOr(l.fourccs[i]) by { BinBody(l, i); }
  }

  lemma BinBody(l: Setup, i: nat)
    requires i < |l.fourccs|
    ensures Body(Bin(UNCOMPRESSED_FOURCC, BytesOr(l.fourccs[i]))) == BytesOr(l.fourccs[i])
  {
  }

  /** Where the fields of an entry are found. */
  lemma EntryField(l: Setup, i: nat, id: nat)
    requires ValidSetup(l) && i < |l.streams| && ClearOf(l.trackKids[i], InTrack(i)) && Reserved(InTrack(i), id)
    ensures var video := Maybe(l.streams[i].media == VideoMedia, VideoElem(l, i));
            Field(FirstFour(l, i) + l.trackKids[i] + CodecKids(l.streams[i]) + video, id) ==
            if id == 0xD7 || id == 0x73C5 || id == 0x83 || id == 0x9C then Field(FirstFour(l, i), id)
            else if id == 0xE0 then Field(video, id) else Field(CodecKids(l.streams[i]), id)
  {
    hide FirstFour, VideoElem, CodecKids, Field, Fields, UsesV5, Numbered, FourccsOk, Body, Uint;
    var video := Maybe(l.streams[i].media == VideoMedia, VideoElem(l, i));
    var a, b, c := FirstFour(l, i), l.trackKids[i], CodecKids(l.streams[i]);
    FieldSum(a + b + c, video, id);
    FieldSum(a + b, c, id);
    FieldSum(a, b, id);
    NoField(b, id);
    FirstFourReads(l, i, id);
    CodecField(l.streams[i], id);
    VideoId(l, i);
    FieldMaybe(l.streams[i].media == VideoMedia, VideoElem(l, i), id);
  }

  lemma VideoId(l: Setup, i: nat)
    requires ValidSetup(l) && i < |l.streams|
    ensures VideoElem(l, i).id == 0xE0 && !VideoElem(l, i).Open?
  {
  }

  lemma LastFits(x: seq<Elem>, present: bool, e: Elem)
    requires FitAll(x + Maybe(present, e))
    ensures present ==> Fits(e)
  {
    hide Fits;
    FitAppend(x, Maybe(present, e));
    if present {
      FitAt([e], 0);
    }
  }

  lemma FlagIsTold(l: Setup, i: nat)
    requires ValidSetup(l) && i < |l.streams|
    ensures LacingFlag(l, i)
         == if l.flagLacing[i] == Some(true) || (l.flagLacing[i] == None && l.mode != NoLacing) then 1 else 0
    ensures TrackType(l.streams[i].media) == TypeCode(l.streams[i].media) < 18
    ensures l.streams[i].number == i + 1
  {
  }

  /** The hints of one stream are trees that can be told from the muxer's own fields. */
  predicate StreamIsClear(l: Setup, i: nat)
    requires ValidSetup(l) && i < |l.streams|
  {
    && Sized(l.trackKids[i]) && Sized(l.videoKids[i])
    && ClearOf(l.trackKids[i], InTrack(i)) && ClearOf(l.videoKids[i], InVideo(i))
  }

  lemma TrackReads(l: Setup, i: nat)
    requires ValidSetup(l) && i < |l.streams| < TWO_TO_THE_64 && StreamIsClear(l, i) && Fits(TrackEntry(l, i))
    ensures ReadTrack(Body(TrackEntry(l, i))) == TrackTold(l, i)
  {
    hide Fits, FitAll, Kids, Body, UsesV5, Numbered, FourccsOk, FirstFour, VideoElem, CodecKids, Uint, LacingFlag,
      TrackType, TypeCode, Find, UintBody, Reserved, Sized, ClearOf;
    var t := l.streams[i];
    var video := Maybe(t.media == VideoMedia, VideoElem(l, i));
    var kids := FirstFour(l, i) + l.trackKids[i] + CodecKids(t) + video;
    EntryParts(l, i);
    FirstFourReads(l, i, 0);
    CodecField(t, 0);
    VideoId(l, i);
    EntrySized(l, i);
    MasterKids(TRACK_ENTRY, kids);
    ReservedTracks(i);
    EntryField(l, i, 0xD7);
    EntryField(l, i, 0x73C5);
    EntryField(l, i, 0x83);
    EntryField(l, i, 0x9C);
    EntryField(l, i, 0x86);
    EntryField(l, i, 0x63A2);
    EntryField(l, i, 0xE0);
    FirstFourReads(l, i, 0xD7);
    FirstFourReads(l, i, 0x73C5);
    FirstFourReads(l, i, 0x83);
    FirstFourReads(l, i, 0x9C);
    FlagIsTold(l, i);
    NatReads(RawsOf(kids), 0xD7, t.number);
    NatReads(RawsOf(kids), 0x73C5, t.number);
    NatReads(RawsOf(kids), 0x83, TrackType(t.media));
    NatReads(RawsOf(kids), 0x9C, LacingFlag(l, i));
    CodecField(t, 0x86);
    CodecField(t, 0x63A2);
    FieldMaybe(t.media == VideoMedia, VideoElem(l, i), 0xE0);
    LastFits(FirstFour(l, i) + l.trackKids[i] + CodecKids(t), t.media == VideoMedia, VideoElem(l, i));
    if t.media == VideoMedia {
      VideoReads(l, i);
    } else {
      NoKids();
    }
  }

  lemma NoKids()
    ensures Find(Kids([]), 0x2EB524) == None
  {
  }

  lemma ReservedTracks(i: nat)
    ensures Reserved(InTrack(i), 0xD7) && Reserved(InTrack(i), 0x73C5) && Reserved(InTrack(i), 0x83)
    ensures Reserved(InTrack(i), 0x9C) && Reserved(InTrack(i), 0x86) && Reserved(InTrack(i), 0x63A2)
    ensures Reserved(InTrack(i), 0xE0)
  {
  }

  lemma EntrySized(l: Setup, i: nat)
    requires ValidSetup(l) && i < |l.streams| && Sized(l.trackKids[i])
    ensures Sized(FirstFour(l, i) + l.trackKids[i] + CodecKids(l.streams[i])
                  + Maybe(l.streams[i].media == VideoMedia, VideoElem(l, i)))
  {
    hide UsesV5, Numbered, FourccsOk, FirstFour, VideoElem, CodecKids, Sized;
    var a, b, c := FirstFour(l, i), l.trackKids[i], CodecKids(l.streams[i]);
    FirstFourReads(l, i, 0);
    CodecField(l.streams[i], 0);
    VideoId(l, i);
    MaybeSized(l.streams[i].media == VideoMedia, VideoElem(l, i));
    SizedSum(a, b);
    SizedSum(a + b, c);
    SizedSum(a + b + c, Maybe(l.streams[i].media == VideoMedia, VideoElem(l, i)));
  }

  lemma MaybeSized(present: bool, e: Elem)
    requires !e.Open?
    ensures Sized(Maybe(present, e))
  {
  }

  // ----- all tracks -----

  lemma EntriesOf(l: Setup, n: nat)
    requires ValidSetup(l) && n <= |l.streams|
    ensures Only(TrackEntries(l, n), 0xAE) && Sized(TrackEntries(l, n))
  {
    hide EntryStart, VideoElem;
  }

  lemma {:induction false} TrackListReads(l: Setup, n: nat)
    requires ValidSetup(l) && n <= |l.streams| < TWO_TO_THE_64 && FitAll(TrackEntries(l, n))
    requires forall i :: 0 <= i < n ==> StreamIsClear(l, i)
    ensures ReadTrackList(Fields(TrackEntries(l, n), 0xAE)) == TracksTold(l, n)
  {
    hide ReadTrack, Fits, Body, TrackEntry, UsesV5, Numbered, FourccsOk, TrackTold, StreamIsClear, FitAll;
    if n == 0 {
      NothingThere(0xAE);
    } else {
      var e := TrackEntry(l, n - 1);
      assert TrackEntries(l, n) == TrackEntries(l, n - 1) + [e];
      FitAppend(TrackEntries(l, n - 1), [e]);
      FitAt([e], 0);
      TrackListReads(l, n - 1);
      TrackReads(l, n - 1);
      FieldSum(TrackEntries(l, n - 1), [e], 0xAE);
      FieldOne(e, 0xAE);
      EntryId(l, n - 1);
      ReadOneMore(Fields(TrackEntries(l, n - 1), 0xAE), Body(e));
    }
  }

  lemma EntryId(l: Setup, i: nat)
    requires ValidSetup(l) && i < |l.streams|
    ensures TrackEntry(l, i).id == 0xAE
  {
  }

  lemma ReadOneMore(bodies: seq<seq<byte>>, body: seq<byte>)
    ensures ReadTrackList(bodies + [body]) == ReadTrackList(bodies) + [ReadTrack(body)]
  {
    assert (bodies + [body])[..|bodies + [body]| - 1] == bodies;
  }

  /** The children of a Top-Level master; the CRC-32 in front of them is in the way of none. */
  lemma TopLevelFields(id: nat, kids: seq<Elem>, strict: bool, field: nat)
    requires Fits(TopLevel(id, kids, strict)) && Sized(kids) && field != 0xBF
    ensures FitAll(kids)
    ensures var raws := Kids(Body(TopLevel(id, kids, strict)));
            Find(raws, field) == Field(kids, field) && All(raws, field) == Fields(kids, field)
  {
    var crc := CrcChild(SerAll(kids));
    assert crc.id == 0xBF && !crc.Open?;
    assert FitAll(if strict then kids else [crc] + kids);
    hide CrcChild, Fits, FitAll, Kids, Body, Sized, Crc;
    if strict {
      MasterKids(id, kids);
    } else {
      FitAppend([crc], kids);
      OneSized(crc);
      SizedSum([crc], kids);
      MasterKids(id, [crc] + kids);
      FieldSum([crc], kids, field);
      FieldOne(crc, field);
      assert [] + Fields(kids, field) == Fields(kids, field);
    }
  }

  lemma OneSized(e: Elem)
    requires !e.Open?
    ensures Sized([e])
  {
  }

  /** The Tracks element gives back every stream. */
  lemma TracksRead(l: Setup)
    requires ValidSetup(l) && |l.streams| < TWO_TO_THE_64 && Fits(TracksElem(l))
    requires forall i :: 0 <= i < |l.streams| ==> StreamIsClear(l, i)
    ensures ReadTracks(Body(TracksElem(l))) == TracksTold(l, |l.streams|)
  {
    hide TrackEntries, ReadTrackList, UsesV5, Numbered, FourccsOk, Fits, FitAll, Kids, Body, TopLevel, StreamIsClear,
      TracksTold;
    EntriesOf(l, |l.streams|);
    TopLevelFields(TRACKS, TrackEntries(l, |l.streams|), l.strict, 0xAE);
    TrackListReads(l, |l.streams|);
  }

  // ----- Info -----

  function InfoTold(l: Setup, duration: Option<seq<byte>>): InfoRead {
    InfoRead(Some(1000000), Some(APP), Some(APP), if l.finalize then duration else Field(l.info, 0x4489))
  }

  /** Where the fields of Info are found. */
  lemma InfoField(l: Setup, d: Option<seq<byte>>, id: nat)
    requires id == 0x2AD7B1 || id == 0x4D80 || id == 0x5741 || id == 0x4489
    requires ClearOf(l.linking, BeforeScale) && ClearOf(l.info, InInfo) && (l.finalize ==> !HoldsDuration(l.info))
    ensures Field(InfoKids(l, d), id)
         == if id == 0x2AD7B1 then Some(Body(Uint(TIMECODE_SCALE, 1000000)))
            else if id != 0x4489 then Some(APP)
            else if l.finalize then d else Field(l.info, id)
  {
    hide Uint, Body, Field, Fields, VoidWidth;
    var scale := [Uint(TIMECODE_SCALE, 1000000)];
    var middle := Maybe(l.finalize, DurationElem(d));
    var apps := [Bin(MUXING_APP, OXIDEAV_TEXT)] + [Bin(WRITING_APP, OXIDEAV_TEXT)];
    assert InfoKids(l, d) == l.linking + scale + middle + (l.info + apps);
    FieldSum(l.linking + scale + middle, l.info + apps, id);
    FieldSum(l.linking + scale, middle, id);
    FieldSum(l.linking, scale, id);
    FieldSum(l.info, apps, id);
    FieldSum([Bin(MUXING_APP, OXIDEAV_TEXT)], [Bin(WRITING_APP, OXIDEAV_TEXT)], id);
    NoField(l.linking, id);
    if id != 0x4489 || l.finalize {
      NoField(l.info, id);
    }
    UintsAreLeaves(TIMECODE_SCALE, 1000000);
    FieldOne(scale[0], id);
    FieldMaybe(l.finalize, DurationElem(d), id);
    FieldOne(Bin(MUXING_APP, OXIDEAV_TEXT), id);
    FieldOne(Bin(WRITING_APP, OXIDEAV_TEXT), id);
    BinBodies(d);
  }

  lemma BinBodies(d: Option<seq<byte>>)
    ensures Body(Bin(MUXING_APP, OXIDEAV_TEXT)) == APP && Body(Bin(WRITING_APP, OXIDEAV_TEXT)) == APP
    ensures d.Some? ==> Body(DurationElem(d)) == d.value && DurationElem(d).id == 0x4489
    ensures d.None? ==> DurationElem(d).id == 0xEC
  {
    hide VoidWidth;
  }

  lemma InfoSized(l: Setup, d: Option<seq<byte>>)
    requires Sized(l.linking) && Sized(l.info)
    ensures Sized(InfoKids(l, d))
  {
    hide UintBytes, VoidWidth;
  }

  lemma InfoReads(l: Setup, d: Option<seq<byte>>)
    requires Fits(InfoElem(l, d)) && Sized(l.linking) && Sized(l.info)
    requires ClearOf(l.linking, BeforeScale) && ClearOf(l.info, InInfo) && (l.finalize ==> !HoldsDuration(l.info))
    ensures ReadInfo(Body(InfoElem(l, d))) == InfoTold(l, d)
  {
    hide Fits, FitAll, Kids, Body, InfoKids, TopLevel, Find, UintBody, Uint, ClearOf;
    InfoSized(l, d);
    TopLevelFields(INFO, InfoKids(l, d), l.strict, 0x2AD7B1);
    TopLevelFields(INFO, InfoKids(l, d), l.strict, 0x4D80);
    TopLevelFields(INFO, InfoKids(l, d), l.strict, 0x5741);
    TopLevelFields(INFO, InfoKids(l, d), l.strict, 0x4489);
    InfoField(l, d, 0x2AD7B1);
    InfoField(l, d, 0x4D80);
    InfoField(l, d, 0x5741);
    InfoField(l, d, 0x4489);
    NatReads(Kids(Body(InfoElem(l, d))), 0x2AD7B1, 1000000);
  }

  // ----- the EBML header -----

  function HeaderTold(l: Setup): HeaderRead {
    HeaderRead(Some(1), Some(1), Some(4), Some(8), Some(TypeTold(l.webm)), Some(DocTypeVersion(l)), Some(2))
  }

  lemma FieldSeven(a: Elem, b: Elem, c: Elem, d: Elem, e: Elem, f: Elem, g: Elem, rest: seq<Elem>, id: nat)
    ensures Field([a, b, c, d, e, f, g] + rest, id)
         == if a.id == id then Some(Body(a)) else if b.id == id then Some(Body(b))
            else if c.id == id then Some(Body(c)) else if d.id == id then Some(Body(d))
            else if e.id == id then Some(Body(e)) else if f.id == id then Some(Body(f))
            else if g.id == id then Some(Body(g)) else Field(rest, id)
  {
    hide Field, Fields, Body;
    assert [a, b, c, d, e, f, g] + rest == [a, b, c, d] + ([e] + ([f] + ([g] + rest)));
    FieldSum([a, b, c, d], [e] + ([f] + ([g] + rest)), id);
    FieldSum([e], [f] + ([g] + rest), id);
    FieldSum([f], [g] + rest, id);
    FieldSum([g], rest, id);
    FieldFour(a, b, c, d, id);
    FieldOne(e, id);
    FieldOne(f, id);
    FieldOne(g, id);
  }

  lemma SevenSized(docType: seq<byte>, version: nat, extensions: seq<Elem>)
    requires Sized(extensions)
    ensures Sized(HeaderKids(docType, version, extensions))
  {
    hide UintBytes;
  }

  lemma HeaderField(docType: seq<byte>, version: nat, extensions: seq<Elem>, id: nat)
    ensures Field(HeaderKids(docType, version, extensions), id)
         == if id == 0x4286 then Some(Body(Uint(id, 1))) else if id == 0x42F7 then Some(Body(Uint(id, 1)))
            else if id == 0x42F2 then Some(Body(Uint(id, 4))) else if id == 0x42F3 then Some(Body(Uint(id, 8)))
            else if id == 0x4282 then Some(docType) else if id == 0x4287 then Some(Body(Uint(id, version)))
            else if id == 0x4285 then Some(Body(Uint(id, 2))) else Field(extensions, id)
  {
    hide Uint, Field, Body;
    UintsAreLeaves(0x4286, 1);
    UintsAreLeaves(0x42F7, 1);
    UintsAreLeaves(0x42F2, 4);
    UintsAreLeaves(0x42F3, 8);
    UintsAreLeaves(0x4287, version);
    UintsAreLeaves(0x4285, 2);
    FieldSeven(Uint(EBML_VERSION, 1), Uint(EBML_READ_VERSION, 1), Uint(EBML_MAX_ID_LENGTH, 4),
               Uint(EBML_MAX_SIZE_LENGTH, 8), Bin(EBML_DOC_TYPE, docType), Uint(EBML_DOC_TYPE_VERSION, version),
               Uint(EBML_DOC_TYPE_READ_VERSION, 2), extensions, id);
    assert Body(Bin(EBML_DOC_TYPE, docType)) == docType by { PlainBody(EBML_DOC_TYPE, docType); }
  }

  lemma PlainBody(id: nat, s: seq<byte>)
    ensures Body(Bin(id, s)) == s
  {
  }

  lemma TypeIsTold(webm: bool)
    ensures (if webm then WEBM_TEXT else MATROSKA_TEXT) == TypeTold(webm)
  {
  }

  lemma HeaderReads(l: Setup)
    requires Fits(HeaderElem(l)) && Sized(l.extensions)
    ensures ReadHeader(Body(HeaderElem(l))) == HeaderTold(l)
  {
    hide Fits, FitAll, Kids, Body, HeaderKids, Find, UintBody, Uint, UsesV5;
    var docType := if l.webm then WEBM_TEXT else MATROSKA_TEXT;
    var version := DocTypeVersion(l);
    TypeIsTold(l.webm);
    var kids := HeaderKids(docType, version, l.extensions);
    SevenSized(docType, version, l.extensions);
    MasterKids(EBML_HEADER, kids);
    HeaderField(docType, version, l.extensions, 0x4286);
    HeaderField(docType, version, l.extensions, 0x42F7);
    HeaderField(docType, version, l.extensions, 0x42F2);
    HeaderField(docType, version, l.extensions, 0x42F3);
    HeaderField(docType, version, l.extensions, 0x4282);
    HeaderField(docType, version, l.extensions, 0x4287);
    HeaderField(docType, version, l.extensions, 0x4285);
    NatReads(RawsOf(kids), 0x4286, 1);
    NatReads(RawsOf(kids), 0x42F7, 1);
    NatReads(RawsOf(kids), 0x42F2, 4);
    NatReads(RawsOf(kids), 0x42F3, 8);
    NatReads(RawsOf(kids), 0x4287, version);
    NatReads(RawsOf(kids), 0x4285, 2);
  }

  // ----- Chapters -----

  /** EditionUID, and the names of the edition: EditionString with its EditionLanguageIETF. */
  datatype EditionRead = EditionRead(uid: Option<nat>, displays: seq<Display>)

  function ReadDisplay(body: seq<byte>): Display {
    Display(BytesIn(Kids(body), 0x4521, []), All(Kids(body), 0x45E4))
  }

  function ReadDisplays(bodies: seq<seq<byte>>): seq<Display> {
    if bodies == [] then [] else [ReadDisplay(bodies[0])] + ReadDisplays(bodies[1..])
  }

  function ReadEdition(body: seq<byte>): EditionRead {
    EditionRead(NatIn(Kids(body), 0x45BC), ReadDisplays(All(Kids(body), 0x4520)))
  }

  /** The one edition in the data of Chapters. */
  function ReadChapters(body: seq<byte>): EditionRead {
    ReadEdition(BytesIn(Kids(body), 0x45B9, []))
  }

  lemma {:induction false} LanguagesRead(languages: seq<seq<byte>>)
    ensures Sized(LanguageElems(languages)) && Only(LanguageElems(languages), 0x45E4)
    ensures Fields(LanguageElems(languages), 0x45E4) == languages
  {
    if languages == [] {
      NothingThere(0x45E4);
    } else {
      var first := Bin(EDITION_LANGUAGE_IETF, languages[0]);
      LanguagesRead(languages[1..]);
      FieldSum([first], LanguageElems(languages[1..]), 0x45E4);
      FieldOne(first, 0x45E4);
      PlainBody(EDITION_LANGUAGE_IETF, languages[0]);
    }
  }

  lemma DisplayReads(d: Display)
    requires Fits(DisplayElem(d))
    ensures ReadDisplay(Body(DisplayElem(d))) == d
  {
    hide LanguageElems, Fits, FitAll, Kids, Body, Find, All, Sized;
    var text := [Bin(EDITION_STRING, d.text)];
    LanguagesRead(d.languages);
    OneSized(text[0]);
    SizedSum(text, LanguageElems(d.languages));
    MasterKids(EDITION_DISPLAY, text + LanguageElems(d.languages));
    FieldSum(text, LanguageElems(d.languages), 0x4521);
    FieldSum(text, LanguageElems(d.languages), 0x45E4);
    FieldOne(text[0], 0x4521);
    FieldOne(text[0], 0x45E4);
    PlainBody(EDITION_STRING, d.text);
    assert [] + Fields(LanguageElems(d.languages), 0x45E4) == d.languages;
  }

  lemma {:induction false} DisplaysRead(ds: seq<Display>)
    requires FitAll(DisplayElems(ds))
    ensures Sized(DisplayElems(ds)) && Only(DisplayElems(ds), 0x4520)
    ensures ReadDisplays(Fields(DisplayElems(ds), 0x4520)) == ds
  {
    hide ReadDisplay, Fits, Find, LanguageElems;
    if ds == [] {
      NothingThere(0x4520);
    } else {
      var first, rest := DisplayElem(ds[0]), DisplayElems(ds[1..]);
      assert DisplayElems(ds) == [first] + rest;
      FitAppend([first], rest);
      FitAt([first], 0);
      DisplayReads(ds[0]);
      DisplaysRead(ds[1..]);
      FieldSum([first], rest, 0x4520);
      FieldOne(first, 0x4520);
      assert ([Body(first)] + Fields(rest, 0x4520))[1..] == Fields(rest, 0x4520);
    }
  }

  lemma EditionReads(l: Setup)
    requires Sized(l.chapters) && ClearOf(l.chapters, InEdition) && Fits(Master(EDITION_ENTRY, EditionKids(l)))
    ensures ReadEdition(Body(Master(EDITION_ENTRY, EditionKids(l))))
         == EditionRead(if l.strict then None else Some(1), l.editions)
  {
    hide DisplayElems, Fits, FitAll, Kids, Body, Find, All, Uint, UintBody, Sized;
    var uid, displays := Maybe(!l.strict, Uint(EDITION_UID, 1)), DisplayElems(l.editions);
    var kids := uid + displays + l.chapters;
    assert EditionKids(l) == kids;
    UintsAreLeaves(EDITION_UID, 1);
    assert FitAll(kids) by { KidsFit(EDITION_ENTRY, kids); }
    FitAppend(uid + displays, l.chapters);
    FitAppend(uid, displays);
    DisplaysRead(l.editions);
    MaybeSized(!l.strict, Uint(EDITION_UID, 1));
    SizedSum(uid, displays);
    SizedSum(uid + displays, l.chapters);
    MasterKids(EDITION_ENTRY, kids);
    EditionField(l, uid, displays, 0x45BC);
    EditionField(l, uid, displays, 0x4520);
    FieldMaybe(!l.strict, Uint(EDITION_UID, 1), 0x45BC);
    FieldMaybe(!l.strict, Uint(EDITION_UID, 1), 0x4520);
    UintBodyReads(EDITION_UID, 1);
    assert [] + Fields(displays, 0x4520) == Fields(displays, 0x4520);
  }

  lemma KidsFit(id: nat, kids: seq<Elem>)
    requires Fits(Master(id, kids))
    ensures FitAll(kids)
  {
  }

  lemma EditionField(l: Setup, uid: seq<Elem>, displays: seq<Elem>, id: nat)
    requires ClearOf(l.chapters, InEdition) && (id == 0x45BC || id == 0x4520) && Only(displays, 0x4520)
    ensures var kids := uid + displays + l.chapters;
            && Field(kids, id) == First(Field(uid, id), Field(displays, id))
            && Fields(kids, id) == Fields(uid, id) + Fields(displays, id)
            && (id == 0x45BC ==> Field(displays, id) == None)
  {
    hide Field, Fields;
    FieldSum(uid + displays, l.chapters, id);
    FieldSum(uid, displays, id);
    NoField(l.chapters, id);
    OnlyField(displays, 0x4520, id);
    assert Fields(uid, id) + Fields(displays, id) + [] == Fields(uid, id) + Fields(displays, id);
  }

  /** Chapters gives back the names of its edition, and the UID that strict WebM leaves out. */
  lemma ChaptersRead(l: Setup)
    requires l.chapters != [] && Sized(l.chapters) && ClearOf(l.chapters, InEdition)
    requires Fits(TopLevel(CHAPTERS, ChapterKids(l), l.strict))
    ensures ReadChapters(Body(TopLevel(CHAPTERS, ChapterKids(l), l.strict)))
         == EditionRead(if l.strict then None else Some(1), l.editions)
  {
    hide EditionKids, Fits, FitAll, Kids, Body, Find, TopLevel, ReadEdition, Sized;
    var edition := Master(EDITION_ENTRY, EditionKids(l));
    assert ChapterKids(l) == [edition];
    OneSized(edition);
    TopLevelFields(CHAPTERS, [edition], l.strict, 0x45B9);
    FieldOne(edition, 0x45B9);
    FitAt([edition], 0);
    EditionReads(l);
  }
}
