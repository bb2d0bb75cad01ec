/**
 * The file around the Clusters: what `write_header` lays out, where it is, and what
 * `write_trailer` fills in afterwards.
 */
module MuxerFile {
  import opened Wrappers
  import opened Bytes
  import opened Ebml
  import opened Crc32
  import opened Ids
  import opened Elements
  import opened Voids
  import opened Lacing
  import opened Scanner
  import opened SeekHeads
  import opened TreeRules
  import opened Tags
  import opened Muxer

  const DURATION_SLOT_LENGTH: nat := 11

  /** The name of an edition, and the languages it is in. */
  datatype Display = Display(text: seq<byte>, languages: seq<seq<byte>>)

  /**
   * The queued state that the header is made of. Hints are trees that the setters have built;
   * `linking` comes before TimestampScale and `info` behind the Duration slot. `flagLacing` holds
   * the FlagLacing of the identity hints.
   */
  datatype Setup = Setup(
    webm: bool, strict: bool, extensions: seq<Elem>,
    live: bool, hints: bool, mode: LacingMode, maxMs: nat, maxBytes: nat, streams: seq<Track>,
    expansion: Option<nat>, finalize: bool, front: Option<nat>,
    linking: seq<Elem>, info: seq<Elem>,
    trackKids: seq<seq<Elem>>, videoKids: seq<seq<Elem>>, fourccs: seq<Option<seq<byte>>>,
    flagLacing: seq<Option<bool>>,
    editions: seq<Display>, chapters: seq<Elem>, attachments: seq<Elem>, tags: seq<Tag>)

  /** The ranges and conflicts that the setters enforce. */
  predicate ValidSetup(l: Setup) {
    && (l.strict ==> l.webm && l.attachments == [])
    && (l.live ==> l.expansion.None? && !l.finalize && l.front.None?)
    && (l.expansion.Some? ==> 2 <= l.expansion.value < TWO_TO_THE_32)
    && (l.front.Some? ==> 32 <= l.front.value < TWO_TO_THE_32)
    && 1 <= l.maxMs <= 0x7FFF && l.maxBytes >= 1024
    && |l.trackKids| == |l.videoKids| == |l.fourccs| == |l.flagLacing| == |l.streams|
    && (l.webm ==> !UsesV5(l))
    && Numbered(l.streams) && FourccsOk(l.streams, l.fourccs)
  }

  /** Track numbers are assigned in order, from 1. */
  predicate Numbered(streams: seq<Track>) {
    forall i :: 0 <= i < |streams| ==> streams[i].number == i + 1
  }

  predicate FourccsOk(streams: seq<Track>, fourccs: seq<Option<seq<byte>>>) {
    forall i :: 0 <= i < |streams| && i < |fourccs| && fourccs[i].Some? ==>
      streams[i].media == VideoMedia && |fourccs[i].value| == 4
  }

  // ----- the EBML header -----

  const MATROSKA_TEXT: seq<byte> := [0x6D, 0x61, 0x74, 0x72, 0x6F, 0x73, 0x6B, 0x61]

  function HeaderKids(docType: seq<byte>, version: nat, extensions: seq<Elem>): seq<Elem> {
    [Uint(EBML_VERSION, 1), Uint(EBML_READ_VERSION, 1), Uint(EBML_MAX_ID_LENGTH, 4), Uint(EBML_MAX_SIZE_LENGTH, 8),
     Bin(EBML_DOC_TYPE, docType), Uint(EBML_DOC_TYPE_VERSION, version), Uint(EBML_DOC_TYPE_READ_VERSION, 2)]
       + extensions
  }

  predicate AnyKidsV5(kids: seq<seq<Elem>>) {
    exists i :: 0 <= i < |kids| && AnyV5(kids[i])
  }

  /** Some queued state needs an element of version 5. */
  predicate UsesV5(l: Setup) {
    l.editions != [] || AnyV5(l.chapters) || AnyKidsV5(l.trackKids) || SomeTagNeedsV5(l.tags)
  }

  function DocTypeVersion(l: Setup): nat {
    if UsesV5(l) then 5 else 4
  }

  function HeaderElem(l: Setup): Elem {
    Master(EBML_HEADER, HeaderKids(if l.webm then WEBM_TEXT else MATROSKA_TEXT, DocTypeVersion(l), l.extensions))
  }

  // ----- Info and Tracks -----

  /** The Duration, or the filler of its length that stands in for it. */
  function DurationElem(d: Option<seq<byte>>): Elem {
    if d.Some? then Bin(DURATION, d.value) else Void(DURATION_SLOT_LENGTH)
  }

  /** The children in front of the Duration slot. */
  function InfoStart(l: Setup): seq<Elem> {
    l.linking + [Uint(TIMECODE_SCALE, 1000000)]
  }

  const OXIDEAV_TEXT: seq<byte> := [0x6F, 0x78, 0x69, 0x64, 0x65, 0x61, 0x76]

  /** The children behind it. */
  function InfoEnd(l: Setup): seq<Elem> {
    l.info + [Bin(MUXING_APP, OXIDEAV_TEXT), Bin(WRITING_APP, OXIDEAV_TEXT)]
  }

  function InfoKids(l: Setup, d: Option<seq<byte>>): seq<Elem> {
    InfoStart(l) + (if l.finalize then [DurationElem(d)] else []) + InfoEnd(l)
  }

  function InfoElem(l: Setup, d: Option<seq<byte>>): Elem {
    TopLevel(INFO, InfoKids(l, d), l.strict)
  }

  function TrackType(media: Media): nat {
    match media
    case VideoMedia => 1
    case AudioMedia => 2
    case _ => 17
  }

  /** An explicit flag wins over the one that the lacing mode suggests. */
  function LacingFlag(l: Setup, i: nat): (flag: nat)
    requires i < |l.flagLacing|
    ensures flag <= 1
  {
    match l.flagLacing[i]
    case Some(flag) => if flag then 1 else 0
    case None => if l.mode == NoLacing then 0 else 1
  }

  function CodecKids(t: Track): seq<Elem> {
    [Bin(CODEC_ID, t.codecId)] + if t.codecPrivate == [] then [] else [Bin(CODEC_PRIVATE, t.codecPrivate)]
  }

  /** The Video master: the FourCC is written whatever the profile. */
  function VideoElem(l: Setup, i: nat): Elem
    requires i < |l.videoKids| && i < |l.fourccs|
  {
    Master(VIDEO, l.videoKids[i] + if l.fourccs[i].Some? then [Bin(UNCOMPRESSED_FOURCC, l.fourccs[i].value)] else [])
  }

  /** The four leading fields of a TrackEntry, its hints and its codec. */
  function EntryStart(l: Setup, i: nat): seq<Elem>
    requires ValidSetup(l) && i < |l.streams|
  {
    var t := l.streams[i];
    [Uint(TRACK_NUMBER, t.number), Uint(TRACK_UID, t.number), Uint(TRACK_TYPE, TrackType(t.media)),
     Uint(FLAG_LACING, LacingFlag(l, i))] + l.trackKids[i] + CodecKids(t)
  }

  function TrackEntry(l: Setup, i: nat): Elem
    requires ValidSetup(l) && i < |l.streams|
  {
    Master(TRACK_ENTRY, EntryStart(l, i) + if l.streams[i].media == VideoMedia then [VideoElem(l, i)] else [])
  }

  function TrackEntries(l: Setup, n: nat): (es: seq<Elem>)
    requires ValidSetup(l) && n <= |l.streams|
    ensures |es| == n && forall i :: 0 <= i < n ==> es[i] == TrackEntry(l, i)
  {
    if n == 0 then [] else TrackEntries(l, n - 1) + [TrackEntry(l, n - 1)]
  }

  function TracksElem(l: Setup): Elem
    requires ValidSetup(l)
  {
    TopLevel(TRACKS, TrackEntries(l, |l.streams|), l.strict)
  }

  // ----- Chapters -----

  function LanguageElems(languages: seq<seq<byte>>): seq<Elem> {
    if languages == [] then [] else [Bin(EDITION_LANGUAGE_IETF, languages[0])] + LanguageElems(languages[1..])
  }

  function DisplayElem(d: Display): Elem {
    Master(EDITION_DISPLAY, [Bin(EDITION_STRING, d.text)] + LanguageElems(d.languages))
  }

  function DisplayElems(ds: seq<Display>): (es: seq<Elem>)
    ensures |es| == |ds| && forall i :: 0 <= i < |es| ==> es[i] == DisplayElem(ds[i])
  {
    if ds == [] then [] else [DisplayElem(ds[0])] + DisplayElems(ds[1..])
  }

  /** The one edition; strict WebM leaves its UID out. */
  function EditionKids(l: Setup): seq<Elem> {
    (if l.strict then [] else [Uint(EDITION_UID, 1)]) + DisplayElems(l.editions) + l.chapters
  }

  function ChapterKids(l: Setup): (es: seq<Elem>)
    ensures es == [] <==> l.chapters == []
  {
    if l.chapters == [] then [] else [Master(EDITION_ENTRY, EditionKids(l))]
  }

  // ----- the layout -----

  /** An optional Top-Level master. */
  function Part(id: nat, kids: seq<Elem>, strict: bool): seq<Elem> {
    if kids == [] then [] else [TopLevel(id, kids, strict)]
  }

  function ExpansionPart(l: Setup): seq<Elem>
    requires ValidSetup(l)
  {
    if l.expansion.Some? then [Void(l.expansion.value)] else []
  }

  function InfoAt(l: Setup): nat {
    if l.live then 0 else SEEK_HEAD_LENGTH + if l.expansion.Some? then l.expansion.value else 0
  }

  function TracksAt(l: Setup): nat {
    InfoAt(l) + |Ser(InfoElem(l, None))|
  }

  function ChaptersAt(l: Setup): nat
    requires ValidSetup(l)
  {
    TracksAt(l) + |Ser(TracksElem(l))|
  }

  function AttachmentsAt(l: Setup): nat
    requires ValidSetup(l)
  {
    ChaptersAt(l) + |SerAll(Part(CHAPTERS, ChapterKids(l), l.strict))|
  }

  function TagsAt(l: Setup): nat
    requires ValidSetup(l)
  {
    AttachmentsAt(l) + |SerAll(Part(ATTACHMENTS, l.attachments, false))|
  }

  function FrontAt(l: Setup): nat
    requires ValidSetup(l)
  {
    TagsAt(l) + |SerAll(Part(TAGS, TagElems(l.tags), l.strict))|
  }

  function HeadLength(l: Setup): nat
    requires ValidSetup(l)
  {
    FrontAt(l) + if l.front.Some? then l.front.value else 0
  }

  function ConfigOf(l: Setup): Config
    requires ValidSetup(l)
  {
    Config(l.strict, l.live, l.hints, l.mode, l.maxMs, l.maxBytes, l.streams, HeadLength(l), DocTypeVersion(l))
  }

  function SlotIf(present: bool, pos: nat): Slot {
    if present then At(pos) else Voided
  }

  function Slots(l: Setup, cues: Slot): (s: seq<Slot>)
    requires ValidSetup(l)
    ensures |s| == 6
  {
    [At(InfoAt(l)), At(TracksAt(l)), SlotIf(l.chapters != [], ChaptersAt(l)),
     SlotIf(l.attachments != [], AttachmentsAt(l)),
     SlotIf(l.tags != [], TagsAt(l)), cues]
  }

  /** What the trailer may still change: the Cues entry, the Duration, the reserved slot. */
  datatype Patches = Patches(cues: Slot, duration: Option<seq<byte>>, front: seq<Elem>)

  predicate ValidPatches(l: Setup, p: Patches) {
    && (p.duration.Some? ==> |p.duration.value| == 8)
    && |SerAll(p.front)| == (if l.front.Some? then l.front.value else 0)
    && forall i :: 0 <= i < |p.front| ==> p.front[i].id == CUES || p.front[i].id == VOID
  }

  function Unpatched(l: Setup): Patches
    requires ValidSetup(l)
  {
    Patches(Unset, None, if l.front.Some? then [Void(l.front.value)] else [])
  }

  function SeekPart(l: Setup, cues: Slot): seq<Elem>
    requires ValidSetup(l)
  {
    if l.live then [] else [SeekHead(Slots(l, cues))] + ExpansionPart(l)
  }

  /** The Segment's children in front of the first Cluster. */
  function SegmentHead(l: Setup, p: Patches): seq<Elem>
    requires ValidSetup(l)
  {
    SeekPart(l, p.cues) + [InfoElem(l, p.duration)] + [TracksElem(l)] + Part(CHAPTERS, ChapterKids(l), l.strict)
    + Part(ATTACHMENTS, l.attachments, false) + Part(TAGS, TagElems(l.tags), l.strict) + p.front
  }

  lemma SeekPartSize(l: Setup, cues: Slot)
    requires ValidSetup(l)
    ensures |SerAll(SeekPart(l, cues))| == InfoAt(l)
  {
    hide Ser, SeekHead, Void, Slots;
    if !l.live {
      SeekHeadBytes(Slots(l, cues));
      SerOne(SeekHead(Slots(l, cues)));
      if l.expansion.Some? {
        VoidFillsExactly(l.expansion.value, []);
        SerSnoc([SeekHead(Slots(l, cues))], Void(l.expansion.value));
      } else {
        assert [SeekHead(Slots(l, cues))] + [] == [SeekHead(Slots(l, cues))];
      }
    }
  }

  lemma DurationSize(d: Option<seq<byte>>)
    requires d.Some? ==> |d.value| == 8
    ensures |Ser(DurationElem(d))| == DURATION_SLOT_LENGTH
    ensures d.Some? ==> Ser(DurationElem(d)) == [0x44, 0x89, 0x88] + d.value
  {
    VoidFillsExactly(DURATION_SLOT_LENGTH, []);
    TwoByteId(DURATION);
    OneByteHeader(0, 8);
    hide IdBytes, Vint, Void;
  }

  lemma InfoKidsSize(l: Setup, d: Option<seq<byte>>)
    requires d.Some? ==> |d.value| == 8
    ensures |SerAll(InfoKids(l, d))| == |SerAll(InfoKids(l, None))|
  {
    hide Ser, DurationElem, InfoStart;
    if l.finalize {
      InfoKidsBytes(l, d);
      InfoKidsBytes(l, None);
      DurationSize(d);
      DurationSize(None);
    }
  }

  lemma InfoKidsBytes(l: Setup, d: Option<seq<byte>>)
    requires l.finalize
    ensures SerAll(InfoKids(l, d)) == SerAll(InfoStart(l)) + Ser(DurationElem(d)) + SerAll(InfoEnd(l))
  {
    hide Ser, DurationElem, InfoStart;
    SerSnoc(InfoStart(l), DurationElem(d));
    SerAppend(InfoStart(l) + [DurationElem(d)], InfoEnd(l));
  }

  /** The bytes of a Top-Level master: header, CRC-32 child, body. */
  lemma TopLevelBytes(id: nat, kids: seq<Elem>, strict: bool)
    ensures Ser(TopLevel(id, kids, strict))
         == IdBytes(id) + Vint(|SerAll(kids)| + (if strict then 0 else 6), 0)
            + (if strict then [] else [0xBF, 0x84] + LE4(Crc(SerAll(kids)))) + SerAll(kids)
  {
    hide IdBytes, Vint, Crc, LE4, Ser, SerAll, TopLevel;
    if strict {
      StrictBytes(id, kids);
    } else {
      LenientBytes(id, kids);
    }
  }

  lemma StrictBytes(id: nat, kids: seq<Elem>)
    ensures Ser(TopLevel(id, kids, true)) == IdBytes(id) + Vint(|SerAll(kids)| + 0, 0) + [] + SerAll(kids)
  {
    hide IdBytes, Vint, SerAll;
  }

  lemma LenientBytes(id: nat, kids: seq<Elem>)
    ensures Ser(TopLevel(id, kids, false))
         == IdBytes(id) + Vint(|SerAll(kids)| + 6, 0) + ([0xBF, 0x84] + LE4(Crc(SerAll(kids)))) + SerAll(kids)
  {
    hide IdBytes, Vint, Crc, LE4, CrcChild, SerAll;
    var crc, body := CrcChild(SerAll(kids)), SerAll(kids);
    CrcChildBytes(body);
    CrcIsFour(body);
    SerAppend([crc], kids);
    SerOne(crc);
    Assoc(IdBytes(id) + Vint(|body| + 6, 0), Ser(crc), body);
  }

  lemma InfoSize(l: Setup, d: Option<seq<byte>>)
    requires d.Some? ==> |d.value| == 8
    ensures |Ser(InfoElem(l, d))| == |Ser(InfoElem(l, None))|
  {
    hide InfoKids, IdBytes, Vint, Crc, LE4, TopLevel, Ser, SerAll;
    InfoKidsSize(l, d);
    TopLevelBytes(INFO, InfoKids(l, d), l.strict);
    TopLevelBytes(INFO, InfoKids(l, None), l.strict);
    CrcIsFour(SerAll(InfoKids(l, d)));
    CrcIsFour(SerAll(InfoKids(l, None)));
  }

  lemma CrcIsFour(data: seq<byte>)
    ensures |LE4(Crc(data))| == 4
  {
    hide Crc;
  }

  /** Every part lies at its offset, and the whole has the length that the Clusters start at. */
  lemma HeadLayout(l: Setup, p: Patches)
    requires ValidSetup(l) && ValidPatches(l, p)
    ensures var seek, info, tracks := SeekPart(l, p.cues), InfoElem(l, p.duration), TracksElem(l);
            var a, b, t := Part(CHAPTERS, ChapterKids(l), l.strict), Part(ATTACHMENTS, l.attachments, false),
                           Part(TAGS, TagElems(l.tags), l.strict);
            && |SerAll(seek)| == InfoAt(l)
            && |SerAll(seek + [info])| == TracksAt(l)
            && |SerAll(seek + [info] + [tracks])| == ChaptersAt(l)
            && |SerAll(seek + [info] + [tracks] + a)| == AttachmentsAt(l)
            && |SerAll(seek + [info] + [tracks] + a + b)| == TagsAt(l)
            && |SerAll(seek + [info] + [tracks] + a + b + t)| == FrontAt(l)
            && |SerAll(SegmentHead(l, p))| == HeadLength(l)
  {
    hide Ser, SerAll, SeekPart, InfoElem, TracksElem, Part, InfoAt;
    var seek, info, tracks := SeekPart(l, p.cues), InfoElem(l, p.duration), TracksElem(l);
    var a, b, t := Part(CHAPTERS, ChapterKids(l), l.strict), Part(ATTACHMENTS, l.attachments, false),
                   Part(TAGS, TagElems(l.tags), l.strict);
    SeekPartSize(l, p.cues);
    InfoSize(l, p.duration);
    SerSnoc(seek, info);
    SerSnoc(seek + [info], tracks);
    SerAppend(seek + [info] + [tracks], a);
    SerAppend(seek + [info] + [tracks] + a, b);
    SerAppend(seek + [info] + [tracks] + a + b, t);
    SerAppend(seek + [info] + [tracks] + a + b + t, p.front);
  }

  lemma FillerIsVoid(n: nat)
    requires VoidSize(n)
    ensures Void(n).id == VOID
  {
    hide VoidWidth;
  }

  lemma UnpatchedIsValid(l: Setup)
    requires ValidSetup(l)
    ensures ValidPatches(l, Unpatched(l))
  {
    hide Void, Ser;
    if l.front.Some? {
      FillerIsVoid(l.front.value);
      VoidFillsExactly(l.front.value, []);
      SerOne(Void(l.front.value));
    }
  }

  // ----- Seek entries -----

  /** A Top-Level Element with this ID starts at this position. */
  predicate Found(children: seq<Elem>, id: nat, pos: nat) {
    exists k :: 0 <= k < |children| && children[k].id == id && |SerAll(children[..k])| == pos
  }

  lemma FoundAt(a: seq<Elem>, e: Elem, b: seq<Elem>)
    ensures Found(a + [e] + b, e.id, |SerAll(a)|)
  {
    var children := a + [e] + b;
    assert children[..|a|] == a && children[|a|] == e;
  }

  lemma TopLevelId(id: nat, kids: seq<Elem>, strict: bool)
    ensures TopLevel(id, kids, strict).id == id
  {
  }

  lemma PartOne(id: nat, kids: seq<Elem>, strict: bool)
    ensures kids != [] ==> Part(id, kids, strict) == [TopLevel(id, kids, strict)] && TopLevel(id, kids, strict).id == id
  {
    hide CrcChild;
  }

  lemma WithoutAppend(a: seq<Elem>, b: seq<Elem>, id: nat)
    requires Without(a, id) && Without(b, id)
    ensures Without(a + b, id)
  {
  }

  lemma PartWithout(own: nat, kids: seq<Elem>, strict: bool, id: nat)
    requires kids == [] || own != id
    ensures Without(Part(own, kids, strict), id)
  {
    hide CrcChild;
  }

  /** What is not among the parts is not in the head. */
  lemma HeadIsWithout(l: Setup, p: Patches, id: nat)
    requires ValidSetup(l) && Without(p.front, id) && id !in {SEEK_HEAD, VOID, INFO, TRACKS}
    requires l.chapters == [] || id != CHAPTERS
    requires l.attachments == [] || id != ATTACHMENTS
    requires l.tags == [] || id != TAGS
    ensures Without(SegmentHead(l, p), id)
  {
    hide ValidSetup, SeekPart, InfoElem, TracksElem, Part, Without;
    MasterIds(l, p);
    SeekPartWithout(l, p.cues, id);
    HaveOtherIds(InfoElem(l, p.duration), TracksElem(l), id);
    PartWithout(CHAPTERS, ChapterKids(l), l.strict, id);
    PartWithout(ATTACHMENTS, l.attachments, false, id);
    PartWithout(TAGS, TagElems(l.tags), l.strict, id);
    var a, b, t := Part(CHAPTERS, ChapterKids(l), l.strict), Part(ATTACHMENTS, l.attachments, false),
                   Part(TAGS, TagElems(l.tags), l.strict);
    var seek, info, tracks := SeekPart(l, p.cues), [InfoElem(l, p.duration)], [TracksElem(l)];
    WithoutAppend(seek, info, id);
    WithoutAppend(seek + info, tracks, id);
    WithoutAppend(seek + info + tracks, a, id);
    WithoutAppend(seek + info + tracks + a, b, id);
    WithoutAppend(seek + info + tracks + a + b, t, id);
    WithoutAppend(seek + info + tracks + a + b + t, p.front, id);
  }

  lemma VoidedPart(l: Setup, cues: Slot, i: nat)
    requires ValidSetup(l) && i < 5 && Slots(l, cues)[i].Voided?
    ensures (i == 2 && l.chapters == []) || (i == 3 && l.attachments == []) || (i == 4 && l.tags == [])
  {
    hide InfoAt, TracksAt, ChaptersAt, AttachmentsAt, TagsAt;
  }

  lemma FrontWithout(l: Setup, p: Patches, id: nat)
    requires ValidPatches(l, p) && id != CUES && id != VOID
    ensures Without(p.front, id)
  {
  }

  /** In front of the first Cluster there is nothing with the ID of a voided entry. */
  lemma VoidedIsAbsent(l: Setup, p: Patches, i: nat)
    requires ValidSetup(l) && ValidPatches(l, p) && i < 5 && Slots(l, p.cues)[i].Voided?
    ensures Without(SegmentHead(l, p), SeekIds()[i])
  {
    hide ValidSetup, ValidPatches, SegmentHead, Without, Slots;
    VoidedPart(l, p.cues, i);
    FrontWithout(l, p, SeekIds()[i]);
    HeadIsWithout(l, p, SeekIds()[i]);
  }

  lemma HaveOtherIds(info: Elem, tracks: Elem, id: nat)
    requires info.id != id && tracks.id != id
    ensures Without([info], id) && Without([tracks], id)
  {
  }

  /** Each of the first five entries points at its element, or is a Void because there is none. */
  lemma SeekEntriesResolve(l: Setup, p: Patches, rest: seq<Elem>, i: nat)
    requires ValidSetup(l) && ValidPatches(l, p) && i < 5
    ensures match Slots(l, p.cues)[i]
            case At(pos) => Found(SegmentHead(l, p) + rest, SeekIds()[i], pos)
            case Voided => Without(SegmentHead(l, p), SeekIds()[i])
            case Unset => false
  {
    hide ValidSetup, ValidPatches, SegmentHead, Without, Slots, SeekIds, Found;
    if Slots(l, p.cues)[i].Voided? {
      VoidedIsAbsent(l, p, i);
    } else {
      PresentIsFound(l, p, rest, i);
    }
  }

  lemma PresentIsFound(l: Setup, p: Patches, rest: seq<Elem>, i: nat)
    requires ValidSetup(l) && ValidPatches(l, p) && i < 5 && !Slots(l, p.cues)[i].Voided?
    ensures Slots(l, p.cues)[i].At? && Found(SegmentHead(l, p) + rest, SeekIds()[i], Slots(l, p.cues)[i].pos)
  {
    hide SerAll, SeekPart, TracksElem, InfoElem, Part, TopLevel, Found, InfoAt, TracksAt, ChaptersAt, AttachmentsAt,
      TagsAt, FrontAt, ValidPatches, ValidSetup;
    HeadLayout(l, p);
    var seek, info, tracks := SeekPart(l, p.cues), InfoElem(l, p.duration), TracksElem(l);
    var a, b, t := Part(CHAPTERS, ChapterKids(l), l.strict), Part(ATTACHMENTS, l.attachments, false),
                   Part(TAGS, TagElems(l.tags), l.strict);
    var all := SegmentHead(l, p) + rest;
    PartOne(CHAPTERS, ChapterKids(l), l.strict);
    PartOne(ATTACHMENTS, l.attachments, false);
    PartOne(TAGS, TagElems(l.tags), l.strict);
    MasterIds(l, p);
    Regrouped(seek, info, tracks, a, b, t + p.front + rest);
    assert all == seek + [info] + [tracks] + a + b + t + p.front + rest;
    assert all == seek + [info] + [tracks] + a + b + (t + p.front + rest);
    if i == 0 {
      FoundAt(seek, info, [tracks] + a + b + (t + p.front + rest));
    } else if i == 1 {
      FoundAt(seek + [info], tracks, a + b + (t + p.front + rest));
    } else if i == 2 && l.chapters != [] {
      FoundAt(seek + [info] + [tracks], a[0], b + (t + p.front + rest));
    } else if i == 3 && l.attachments != [] {
      FoundAt(seek + [info] + [tracks] + a, b[0], t + p.front + rest);
    } else if i == 4 && l.tags != [] {
      FoundAt(seek + [info] + [tracks] + a + b, t[0], p.front + rest);
      LastGroup(seek + [info] + [tracks] + a + b, t, p.front, rest);
    }
  }

  lemma Regrouped(seek: seq<Elem>, info: Elem, tracks: Elem, a: seq<Elem>, b: seq<Elem>, rest: seq<Elem>)
    ensures var all := seek + [info] + [tracks] + a + b + rest;
            && all == seek + [info] + ([tracks] + a + b + rest)
            && all == seek + [info] + [tracks] + (a + b + rest)
            && all == seek + [info] + [tracks] + a + (b + rest)
  {
  }

  lemma LastGroup(before: seq<Elem>, t: seq<Elem>, front: seq<Elem>, rest: seq<Elem>)
    ensures before + (t + front + rest) == before + t + (front + rest)
  {
  }

  lemma MasterIds(l: Setup, p: Patches)
    requires ValidSetup(l)
    ensures InfoElem(l, p.duration).id == INFO && TracksElem(l).id == TRACKS
  {
    hide CrcChild, InfoKids;
  }

  /** The IDs in front of the first Cluster. */
  lemma HeadWithout(l: Setup, p: Patches, id: nat)
    requires ValidSetup(l) && Without(p.front, id)
    requires id !in {SEEK_HEAD, VOID, INFO, TRACKS, CHAPTERS, ATTACHMENTS, TAGS}
    ensures Without(SegmentHead(l, p), id)
  {
    hide SegmentHead, Without, ValidSetup;
    HeadIsWithout(l, p, id);
  }

  lemma SeekPartWithout(l: Setup, cues: Slot, id: nat)
    requires ValidSetup(l) && id != SEEK_HEAD && id != VOID
    ensures Without(SeekPart(l, cues), id)
  {
    hide Slots, SlotElems, VoidWidth;
  }
}
