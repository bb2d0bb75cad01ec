/** `write_header`, in place: one buffer, built front to back and then patched. */
module HeaderWriter {
  import opened Wrappers
  import opened Bytes
  import opened Ebml
  import opened Crc32
  import opened Ids
  import opened Elements
  import opened Voids
  import opened Scanner
  import opened SeekHeads
  import opened Tags
  import opened TagWriter
  import opened Muxer
  import opened MuxerFile
  import opened FilePatches

  // ----- the SeekHead -----

  function AllUnset(): (s: seq<Slot>)
    ensures |s| == 6
  {
    [Unset, Unset, Unset, Unset, Unset, Unset]
  }

  method BuildSeekEntry(id: nat, position: nat) returns (out: seq<byte>)
    requires 0x1000_0000 <= id < TWO_TO_THE_32
    ensures out == Ser(SeekEntry(id, position)) && |out| == SEEK_ENTRY_LENGTH
  {
    hide BE, Ser, SerAll;
    SeekEntryBytes(id, position);
    BEIsFour(id);
    ghost var x, y := Bin(SEEK_ID, BE(id, 4)), Bin(SEEK_POSITION, BE(position, 8));
    var idBytes := WriteElementId(id);
    var body := WriteBytesElement([], SEEK_ID, idBytes);
    var positionBytes := PushBE(position, 8);
    body := WriteBytesElement(body, SEEK_POSITION, positionBytes);
    SerOne(x);
    SerSnoc([x], y);
    assert [x] + [y] == [x, y];
    assert |body| < SIZE_LIMIT by { SeekBodySize(id, position); }
    out := WriteMasterElement([], SEEK, body, [x, y]);
  }

  lemma BEIsFour(id: nat)
    requires 0x1000_0000 <= id < TWO_TO_THE_32
    ensures IdBytes(id) == BE(id, 4)
  {
  }

  lemma SeekBodySize(id: nat, position: nat)
    ensures |SerAll([Bin(SEEK_ID, BE(id, 4)), Bin(SEEK_POSITION, BE(position, 8))])| < 100
  {
    hide BE;
    SeekEntryBytes(id, position);
    SerIsHeadThenBody(SeekEntry(id, position));
    hide Ser, SerAll;
  }

  method BuildInitialSeekHead() returns (out: seq<byte>)
    ensures out == Ser(SeekHead(AllUnset())) && |out| == SEEK_HEAD_LENGTH
  {
    hide Ser, SerAll, SeekEntry;
    var ids := SeekIds();
    var body: seq<byte> := [];
    NoSlots();
    for i := 0 to 6
      invariant body == SerAll(SlotElems(ids[..i], AllUnset()[..i]))
      invariant |body| == SEEK_ENTRY_LENGTH * i
    {
      SlotsGrow(ids, AllUnset(), i);
      var entry := BuildSeekEntry(ids[i], 0);
      body := body + entry;
    }
    assert ids[..6] == ids && AllUnset()[..6] == AllUnset();
    SeekHeadBytes(AllUnset());
    out := WriteMasterElement([], SEEK_HEAD, body, SlotElems(SeekIds(), AllUnset()));
  }

  lemma NoSlots()
    ensures SerAll(SlotElems(SeekIds()[..0], AllUnset()[..0])) == []
  {
  }

  lemma SlotsGrow(ids: seq<nat>, slots: seq<Slot>, i: nat)
    requires |ids| == |slots| && i < |ids|
    ensures SerAll(SlotElems(ids[..i + 1], slots[..i + 1]))
         == SerAll(SlotElems(ids[..i], slots[..i])) + Ser(SlotElem(ids[i], slots[i]))
  {
    hide Ser, SerAll, SlotElem;
    var more := SlotElems(ids[..i + 1], slots[..i + 1]);
    assert more == SlotElems(ids[..i], slots[..i]) + [SlotElem(ids[i], slots[i])];
    SerSnoc(SlotElems(ids[..i], slots[..i]), SlotElem(ids[i], slots[i]));
  }

  /** `write_u64_be_at` for entry `i` of the SeekHead behind `before`. */
  method SetSeekPosition(all: seq<byte>, seekHeadStart: nat, i: nat, position: nat,
                         ghost before: seq<byte>, ghost slots: seq<Slot>, ghost after: seq<byte>)
    returns (out: seq<byte>)
    requires |slots| == 6 && i < 6 && !slots[i].Voided? && seekHeadStart == |before|
    requires all == before + Ser(SeekHead(slots)) + after
    ensures out == before + Ser(SeekHead(slots[i := At(position)])) + after
  {
    hide Ser, SeekHead, BE, PatchAt;
    PatchPosition(slots, i, position);
    var payload := PushBE(position, 8);
    var at := seekHeadStart + SEEK_HEAD_HEADER_LENGTH + SEEK_ENTRY_LENGTH * i + SEEK_POSITION_OFFSET;
    PatchMiddle(before, Ser(SeekHead(slots)), after, at - seekHeadStart, payload);
    out := PatchAt(all, at, payload);
  }

  /** Entry `i` rewritten as a Void. */
  method VoidSeekSlot(all: seq<byte>, seekHeadStart: nat, i: nat,
                      ghost before: seq<byte>, ghost slots: seq<Slot>, ghost after: seq<byte>)
    returns (out: seq<byte>)
    requires |slots| == 6 && i < 6 && seekHeadStart == |before|
    requires all == before + Ser(SeekHead(slots)) + after
    ensures out == before + Ser(SeekHead(slots[i := Voided])) + after
  {
    hide Ser, SeekHead, PatchAt, Void;
    PatchVoid(slots, i);
    VoidSeekIs();
    var filler := BuildVoidSeekEntry();
    var at := seekHeadStart + SEEK_HEAD_HEADER_LENGTH + SEEK_ENTRY_LENGTH * i;
    PatchMiddle(before, Ser(SeekHead(slots)), after, at - seekHeadStart, filler);
    out := PatchAt(all, at, filler);
  }

  method BuildVoidSeekEntry() returns (out: seq<byte>)
    ensures out == Ser(VoidSeekEntry()) && |out| == SEEK_ENTRY_LENGTH
  {
    HandWrittenVoids();
    VoidSeekIs();
    hide Ser, Void;
    out := [VOID, 0x93] + Zeroes(SEEK_ENTRY_LENGTH - 2);
  }

  /** Where the Top-Level masters ended up in the buffer, from the start of the Segment's data. */
  datatype Offsets = Offsets(info: nat, tracks: nat, chapters: nat, attachments: nat, tags: nat, front: nat)

  predicate Measured(l: Setup, o: Offsets)
    requires ValidSetup(l)
  {
    && o.info == InfoAt(l) && o.tracks == TracksAt(l) && o.chapters == ChaptersAt(l)
    && o.attachments == AttachmentsAt(l)
    && o.tags == TagsAt(l) && o.front == FrontAt(l)
  }

  /** The five patches of the header, in the order of the entries; the Cues entry stays unset. */
  method FillSeekHead(l: Setup, o: Offsets, all: seq<byte>, seekHeadStart: nat, ghost before: seq<byte>,
                      ghost after: seq<byte>)
    returns (out: seq<byte>)
    requires ValidSetup(l) && Measured(l, o) && seekHeadStart == |before|
    requires all == before + Ser(SeekHead(AllUnset())) + after
    ensures out == before + Ser(SeekHead(Slots(l, Unset))) + after
  {
    hide Ser, SeekHead, InfoAt, TracksAt, ChaptersAt, AttachmentsAt, TagsAt, FrontAt;
    ghost var slots := AllUnset();
    out := SetSeekPosition(all, seekHeadStart, 0, o.info, before, slots, after);
    slots := slots[0 := At(o.info)];
    out := SetSeekPosition(out, seekHeadStart, 1, o.tracks, before, slots, after);
    slots := slots[1 := At(o.tracks)];
    if l.chapters != [] {
      out := SetSeekPosition(out, seekHeadStart, 2, o.chapters, before, slots, after);
    } else {
      out := VoidSeekSlot(out, seekHeadStart, 2, before, slots, after);
    }
    slots := slots[2 := SlotIf(l.chapters != [], o.chapters)];
    if l.attachments != [] {
      out := SetSeekPosition(out, seekHeadStart, 3, o.attachments, before, slots, after);
    } else {
      out := VoidSeekSlot(out, seekHeadStart, 3, before, slots, after);
    }
    slots := slots[3 := SlotIf(l.attachments != [], o.attachments)];
    if l.tags != [] {
      out := SetSeekPosition(out, seekHeadStart, 4, o.tags, before, slots, after);
    } else {
      out := VoidSeekSlot(out, seekHeadStart, 4, before, slots, after);
    }
    slots := slots[4 := SlotIf(l.tags != [], o.tags)];
    assert slots == Slots(l, Unset);
  }

  // ----- the masters; hints are written as the trees that were queued -----

  method WriteEbmlHeader(l: Setup) returns (out: seq<byte>)
    requires |SerAll(HeaderElem(l).kids)| < SIZE_LIMIT
    ensures out == Ser(HeaderElem(l))
  {
    hide Ser, SerAll, Uint, UsesV5;
    var docType := if l.webm then WEBM_TEXT else MATROSKA_TEXT;
    var version := if UsesV5(l) then 5 else 4;
    assert |docType| < SIZE_LIMIT && version == DocTypeVersion(l);
    HeaderBytes(docType, version, l.extensions);
    var body := WriteUintElement([], EBML_VERSION, 1);
    body := WriteUintElement(body, EBML_READ_VERSION, 1);
    body := WriteUintElement(body, EBML_MAX_ID_LENGTH, 4);
    body := WriteUintElement(body, EBML_MAX_SIZE_LENGTH, 8);
    body := WriteBytesElement(body, EBML_DOC_TYPE, docType);
    body := WriteUintElement(body, EBML_DOC_TYPE_VERSION, version);
    body := WriteUintElement(body, EBML_DOC_TYPE_READ_VERSION, 2);
    body := body + SerAll(l.extensions);
    out := WriteMasterElement([], EBML_HEADER, body, HeaderKids(docType, version, l.extensions));
  }

  lemma HeaderBytes(docType: seq<byte>, version: nat, extensions: seq<Elem>)
    ensures SerAll(HeaderKids(docType, version, extensions))
         == [] + Ser(Uint(EBML_VERSION, 1)) + Ser(Uint(EBML_READ_VERSION, 1)) + Ser(Uint(EBML_MAX_ID_LENGTH, 4))
            + Ser(Uint(EBML_MAX_SIZE_LENGTH, 8)) + Ser(Bin(EBML_DOC_TYPE, docType))
            + Ser(Uint(EBML_DOC_TYPE_VERSION, version))
            + Ser(Uint(EBML_DOC_TYPE_READ_VERSION, 2)) + SerAll(extensions)
  {
    hide Ser, SerAll, Uint;
    var a, b, c, d := Uint(EBML_VERSION, 1), Uint(EBML_READ_VERSION, 1), Uint(EBML_MAX_ID_LENGTH, 4),
                      Uint(EBML_MAX_SIZE_LENGTH, 8);
    var e, f, g := Bin(EBML_DOC_TYPE, docType), Uint(EBML_DOC_TYPE_VERSION, version),
                   Uint(EBML_DOC_TYPE_READ_VERSION, 2);
    SevenBytes(a, b, c, d, e, f, g);
    SerAppend([a, b, c, d, e, f, g], extensions);
  }

  lemma SevenBytes(a: Elem, b: Elem, c: Elem, d: Elem, e: Elem, f: Elem, g: Elem)
    ensures SerAll([a, b, c, d, e, f, g]) == [] + Ser(a) + Ser(b) + Ser(c) + Ser(d) + Ser(e) + Ser(f) + Ser(g)
  {
    hide Ser, SerAll;
    NoBytes();
    SerSnoc([], a);
    SerSnoc([a], b);
    SerSnoc([a, b], c);
    SerSnoc([a, b, c], d);
    SerSnoc([a, b, c, d], e);
    SerSnoc([a, b, c, d, e], f);
    SerSnoc([a, b, c, d, e, f], g);
    assert [] + [a] == [a] && [a] + [b] == [a, b] && [a, b] + [c] == [a, b, c] && [a, b, c] + [d] == [a, b, c, d];
    assert [a, b, c, d] + [e] == [a, b, c, d, e] && [a, b, c, d, e] + [f] == [a, b, c, d, e, f];
    assert [a, b, c, d, e, f] + [g] == [a, b, c, d, e, f, g];
  }

  lemma NoBytes()
    ensures SerAll([]) == []
  {
  }

  /** A Top-Level master, with its CRC-32 unless WebM is strict. */
  method WriteTopLevel(buf: seq<byte>, id: nat, body: seq<byte>, strict: bool, ghost kids: seq<Elem>)
    returns (out: seq<byte>)
    requires ValidId(id) && |body| + (if strict then 0 else 6) < SIZE_LIMIT && body == SerAll(kids)
    ensures out == buf + Ser(TopLevel(id, kids, strict))
  {
    hide Ser, SerAll;
    if strict {
      out := WriteMasterElement(buf, id, body, kids);
    } else {
      out := WriteMasterElementWithCrc(buf, id, body, kids);
    }
  }

  /** The Info body, with a Void of its exact size where the Duration will go. */
  method BuildInfoBody(l: Setup) returns (body: seq<byte>, slot: nat)
    ensures body == SerAll(InfoKids(l, None))
    ensures slot == |SerAll(InfoStart(l))|
  {
    hide Ser, SerAll, Uint, Void;
    HandWrittenVoids();
    SerSnoc(l.linking, Uint(TIMECODE_SCALE, 1000000));
    body := SerAll(l.linking);
    body := WriteUintElement(body, TIMECODE_SCALE, 1000000);
    slot := |body|;
    SerAppend(InfoStart(l), InfoEnd(l));
    InfoEndBytes(l);
    if l.finalize {
      InfoKidsBytes(l, None);
      body := body + ([VOID, 0x89] + Zeroes(DURATION_SLOT_LENGTH - 2));
    } else {
      assert InfoStart(l) + [] == InfoStart(l);
    }
    ghost var front := body;
    body := body + SerAll(l.info);
    body := WriteBytesElement(body, MUXING_APP, OXIDEAV_TEXT);
    body := WriteBytesElement(body, WRITING_APP, OXIDEAV_TEXT);
    FourTail(front, SerAll(l.info), Ser(Bin(MUXING_APP, OXIDEAV_TEXT)), Ser(Bin(WRITING_APP, OXIDEAV_TEXT)));
  }

  lemma FourTail(a: seq<byte>, b: seq<byte>, c: seq<byte>, d: seq<byte>)
    ensures a + b + c + d == a + (b + c + d)
  {
  }

  lemma InfoEndBytes(l: Setup)
    ensures SerAll(InfoEnd(l))
         == SerAll(l.info) + Ser(Bin(MUXING_APP, OXIDEAV_TEXT)) + Ser(Bin(WRITING_APP, OXIDEAV_TEXT))
  {
    hide Ser, SerAll;
    var a, b := Bin(MUXING_APP, OXIDEAV_TEXT), Bin(WRITING_APP, OXIDEAV_TEXT);
    assert InfoEnd(l) == l.info + [a] + [b];
    SerSnoc(l.info, a);
    SerSnoc(l.info + [a], b);
  }

  method BuildTracksBody(l: Setup) returns (body: seq<byte>)
    requires ValidSetup(l) && FitAll(TrackEntries(l, |l.streams|)) && |l.streams| < TWO_TO_THE_63
    ensures body == SerAll(TrackEntries(l, |l.streams|))
  {
    hide Ser, SerAll, TrackEntry, Fits, FitAll;
    body := [];
    NoBytes();
    for i := 0 to |l.streams|
      invariant body == SerAll(TrackEntries(l, i))
    {
      FitAt(TrackEntries(l, |l.streams|), i);
      SerSnoc(TrackEntries(l, i), TrackEntry(l, i));
      body := WriteTrackEntry(l, i, body);
    }
  }

  method WriteTrackEntry(l: Setup, i: nat, buf: seq<byte>) returns (out: seq<byte>)
    requires ValidSetup(l) && i < |l.streams| < TWO_TO_THE_63 && Fits(TrackEntry(l, i))
    ensures out == buf + Ser(TrackEntry(l, i))
  {
    hide Ser, SerAll, Uint, FitAll, LacingFlag, UsesV5;
    var t := l.streams[i];
    EntryBytes(l, i);
    EntryParts(l, i);
    var body := WriteUintElement([], TRACK_NUMBER, t.number);
    body := WriteUintElement(body, TRACK_UID, t.number);
    body := WriteUintElement(body, TRACK_TYPE, TrackType(t.media));
    body := WriteUintElement(body, FLAG_LACING, LacingFlag(l, i));
    body := body + SerAll(l.trackKids[i]);
    body := WriteBytesElement(body, CODEC_ID, t.codecId);
    if t.codecPrivate != [] {
      body := WriteBytesElement(body, CODEC_PRIVATE, t.codecPrivate);
    }
    if t.media == VideoMedia {
      var video := SerAll(l.videoKids[i]);
      if l.fourccs[i].Some? {
        SerSnoc(l.videoKids[i], Bin(UNCOMPRESSED_FOURCC, l.fourccs[i].value));
        video := WriteBytesElement(video, UNCOMPRESSED_FOURCC, l.fourccs[i].value);
      } else {
        assert l.videoKids[i] + [] == l.videoKids[i];
      }
      body := WriteMasterElement(body, VIDEO, video, VideoElem(l, i).kids);
    }
    out := WriteMasterElement(buf, TRACK_ENTRY, body, TrackEntry(l, i).kids);
  }

  lemma EntryParts(l: Setup, i: nat)
    requires ValidSetup(l) && i < |l.streams| && Fits(TrackEntry(l, i))
    ensures |SerAll(TrackEntry(l, i).kids)| < SIZE_LIMIT
    ensures |l.streams[i].codecId| < SIZE_LIMIT && |l.streams[i].codecPrivate| < SIZE_LIMIT
    ensures l.streams[i].media == VideoMedia ==> |SerAll(VideoElem(l, i).kids)| < SIZE_LIMIT
  {
    hide SerAll, VideoElem, Uint, EntryStart, UsesV5, FitAll;
    var kids := TrackEntry(l, i).kids;
    MasterFitsSize(TRACK_ENTRY, kids);
    FitAppend(EntryStart(l, i), if l.streams[i].media == VideoMedia then [VideoElem(l, i)] else []);
    CodecFits(l, i);
    if l.streams[i].media == VideoMedia {
      assert kids[|kids| - 1] == VideoElem(l, i);
      FitAt(kids, |kids| - 1);
      VideoIsMaster(l, i);
      MasterFitsSize(VIDEO, VideoElem(l, i).kids);
    }
  }

  lemma CodecFits(l: Setup, i: nat)
    requires ValidSetup(l) && i < |l.streams| && FitAll(EntryStart(l, i))
    ensures |l.streams[i].codecId| < SIZE_LIMIT && |l.streams[i].codecPrivate| < SIZE_LIMIT
  {
    hide FitAll, Fits, Uint, UsesV5, LacingFlag;
    var t := l.streams[i];
    var fields := [Uint(TRACK_NUMBER, t.number), Uint(TRACK_UID, t.number), Uint(TRACK_TYPE, TrackType(t.media)),
                   Uint(FLAG_LACING, LacingFlag(l, i))] + l.trackKids[i];
    FitAppend(fields, CodecKids(t));
    FitAt(CodecKids(t), 0);
    LeafSize(CODEC_ID, t.codecId);
    if t.codecPrivate != [] {
      FitAt(CodecKids(t), 1);
      LeafSize(CODEC_PRIVATE, t.codecPrivate);
    }
  }

  lemma VideoIsMaster(l: Setup, i: nat)
    requires i < |l.videoKids| && i < |l.fourccs|
    ensures VideoElem(l, i).Node? && VideoElem(l, i) == Master(VIDEO, VideoElem(l, i).kids)
  {
  }

  lemma MasterFitsSize(id: nat, kids: seq<Elem>)
    requires Fits(Master(id, kids))
    ensures |SerAll(kids)| < SIZE_LIMIT && FitAll(kids)
  {
  }

  lemma EntryBytes(l: Setup, i: nat)
    requires ValidSetup(l) && i < |l.streams|
    ensures SerAll(TrackEntry(l, i).kids)
         == [] + Ser(Uint(TRACK_NUMBER, l.streams[i].number)) + Ser(Uint(TRACK_UID, l.streams[i].number))
            + Ser(Uint(TRACK_TYPE, TrackType(l.streams[i].media)))
            + Ser(Uint(FLAG_LACING, LacingFlag(l, i))) + SerAll(l.trackKids[i])
            + Ser(Bin(CODEC_ID, l.streams[i].codecId))
            + (if l.streams[i].codecPrivate == [] then [] else Ser(Bin(CODEC_PRIVATE, l.streams[i].codecPrivate)))
            + (if l.streams[i].media == VideoMedia then Ser(VideoElem(l, i)) else [])
  {
    hide Ser, SerAll, Uint, VideoElem, Numbered, FourccsOk, CodecKids, LacingFlag, UsesV5;
    var t := l.streams[i];
    var a, b, c, d := Uint(TRACK_NUMBER, t.number), Uint(TRACK_UID, t.number), Uint(TRACK_TYPE, TrackType(t.media)),
                      Uint(FLAG_LACING, LacingFlag(l, i));
    FourBytes(a, b, c, d);
    var hinted := [a, b, c, d] + l.trackKids[i];
    SerAppend([a, b, c, d], l.trackKids[i]);
    CodecBytes(hinted, t);
    var start := EntryStart(l, i);
    assert start == hinted + CodecKids(t);
    if t.media == VideoMedia {
      SerSnoc(start, VideoElem(l, i));
    } else {
      assert start + [] == start;
    }
  }

  lemma CodecBytes(before: seq<Elem>, t: Track)
    ensures SerAll(before + CodecKids(t))
         == SerAll(before) + Ser(Bin(CODEC_ID, t.codecId))
            + (if t.codecPrivate == [] then [] else Ser(Bin(CODEC_PRIVATE, t.codecPrivate)))
  {
    hide Ser, SerAll;
    var id, private := Bin(CODEC_ID, t.codecId), Bin(CODEC_PRIVATE, t.codecPrivate);
    SerSnoc(before, id);
    if t.codecPrivate == [] {
      assert before + CodecKids(t) == before + [id];
    } else {
      assert before + CodecKids(t) == before + [id] + [private];
      SerSnoc(before + [id], private);
    }
  }

  lemma FourBytes(a: Elem, b: Elem, c: Elem, d: Elem)
    ensures SerAll([a, b, c, d]) == [] + Ser(a) + Ser(b) + Ser(c) + Ser(d)
  {
    hide Ser, SerAll;
    NoBytes();
    SerSnoc([], a);
    SerSnoc([a], b);
    SerSnoc([a, b], c);
    SerSnoc([a, b, c], d);
    assert [] + [a] == [a] && [a] + [b] == [a, b] && [a, b] + [c] == [a, b, c] && [a, b, c] + [d] == [a, b, c, d];
  }

  // ----- the whole header -----

  /** No size in the header overflows its VINT. */
  predicate HeaderFits(l: Setup)
    requires ValidSetup(l)
  {
    |l.streams| < TWO_TO_THE_63 && |SerAll(HeaderElem(l).kids)| < SIZE_LIMIT && TypedTags(l.tags)
    && FitAll(SegmentHead(l, Unpatched(l)))
  }

  lemma TopLevelFits(id: nat, kids: seq<Elem>, strict: bool)
    requires Fits(TopLevel(id, kids, strict))
    ensures |SerAll(kids)| + (if strict then 0 else 6) < SIZE_LIMIT && FitAll(kids)
  {
    hide SerAll, FitAll, Crc, LE4;
    if !strict {
      var crc := CrcChild(SerAll(kids));
      CrcChildBytes(SerAll(kids));
      CrcIsFour(SerAll(kids));
      SerAppend([crc], kids);
      SerOne(crc);
      FitAppend([crc], kids);
    }
  }

  lemma HeaderParts(l: Setup)
    requires ValidSetup(l) && HeaderFits(l)
    ensures |SerAll(InfoKids(l, None))| + (if l.strict then 0 else 6) < SIZE_LIMIT
    ensures |SerAll(TrackEntries(l, |l.streams|))| + (if l.strict then 0 else 6) < SIZE_LIMIT
    ensures FitAll(TrackEntries(l, |l.streams|))
    ensures l.chapters != [] ==>
              |SerAll(ChapterKids(l))| + (if l.strict then 0 else 6) < SIZE_LIMIT && FitAll(ChapterKids(l))
    ensures l.attachments != [] ==> |SerAll(l.attachments)| + 6 < SIZE_LIMIT
    ensures l.tags != [] ==> |SerAll(TagElems(l.tags))| + (if l.strict then 0 else 6) < SIZE_LIMIT && TagsFit(l.tags)
  {
    hide SeekPart, TopLevel, InfoKids, TrackEntries, SerAll, FitAll, Fits, Void;
    var p := Unpatched(l);
    var a, b, t := Part(CHAPTERS, ChapterKids(l), l.strict), Part(ATTACHMENTS, l.attachments, false),
                   Part(TAGS, TagElems(l.tags), l.strict);
    var seek, info, tracks := SeekPart(l, p.cues), InfoElem(l, None), TracksElem(l);
    FitAppend(seek + [info] + [tracks] + a + b + t, p.front);
    FitAppend(seek + [info] + [tracks] + a + b, t);
    FitAppend(seek + [info] + [tracks] + a, b);
    FitAppend(seek + [info] + [tracks], a);
    FitAppend(seek + [info], [tracks]);
    FitAppend(seek, [info]);
    FitAt([info], 0);
    FitAt([tracks], 0);
    TopLevelFits(INFO, InfoKids(l, None), l.strict);
    TopLevelFits(TRACKS, TrackEntries(l, |l.streams|), l.strict);
    if l.chapters != [] {
      FitAt(a, 0);
      TopLevelFits(CHAPTERS, ChapterKids(l), l.strict);
    }
    if l.attachments != [] {
      FitAt(b, 0);
      TopLevelFits(ATTACHMENTS, l.attachments, false);
    }
    if l.tags != [] {
      FitAt(t, 0);
      TopLevelFits(TAGS, TagElems(l.tags), l.strict);
    }
  }

  /** One optional Top-Level master. */
  method WritePart(buf: seq<byte>, id: nat, kids: seq<Elem>, strict: bool) returns (out: seq<byte>)
    requires ValidId(id) && (kids != [] ==> |SerAll(kids)| + (if strict then 0 else 6) < SIZE_LIMIT)
    ensures out == buf + SerAll(Part(id, kids, strict))
  {
    hide Ser, SerAll, TopLevel;
    NoBytes();
    if kids == [] {
      assert buf + [] == buf;
      return buf;
    }
    out := WriteTopLevel(buf, id, SerAll(kids), strict, kids);
    SerOne(TopLevel(id, kids, strict));
  }

  /** The SeekHead with every position still to be filled in, and the filler behind it. */
  method WriteSeekPart(l: Setup, buf: seq<byte>) returns (out: seq<byte>)
    requires ValidSetup(l) && !l.live
    ensures out == buf + Ser(SeekHead(AllUnset())) + SerAll(ExpansionPart(l))
    ensures |Ser(SeekHead(AllUnset()))| + |SerAll(ExpansionPart(l))| == InfoAt(l)
  {
    hide Ser, SerAll, SeekHead, Void;
    NoBytes();
    SeekHeadBytes(AllUnset());
    var seekHead := BuildInitialSeekHead();
    out := buf + seekHead;
    if l.expansion.Some? {
      VoidFillsExactly(l.expansion.value, []);
      SerOne(Void(l.expansion.value));
      var filler := MakeVoid(l.expansion.value);
      out := out + filler;
    } else {
      assert out + [] == out;
    }
  }

  method WriteInfo(l: Setup, buf: seq<byte>) returns (out: seq<byte>, infoBody: seq<byte>, slot: nat)
    requires ValidSetup(l) && HeaderFits(l)
    ensures out == buf + Ser(InfoElem(l, None))
    ensures infoBody == SerAll(InfoKids(l, None)) && slot == |SerAll(InfoStart(l))|
  {
    hide Ser, SerAll, TopLevel, InfoKids, InfoStart, HeaderFits;
    HeaderParts(l);
    infoBody, slot := BuildInfoBody(l);
    out := WriteTopLevel(buf, INFO, infoBody, l.strict, InfoKids(l, None));
  }

  method WriteTracks(l: Setup, buf: seq<byte>) returns (out: seq<byte>)
    requires ValidSetup(l) && HeaderFits(l)
    ensures out == buf + Ser(TracksElem(l))
  {
    HeaderParts(l);
    assert |l.streams| < TWO_TO_THE_63;
    hide Ser, SerAll, TopLevel, TrackEntries, HeaderFits;
    var body := BuildTracksBody(l);
    out := WriteTopLevel(buf, TRACKS, body, l.strict, TrackEntries(l, |l.streams|));
  }

  /** The optional masters and the reservation, as bytes. */
  function OptionalBytes(l: Setup): seq<byte>
    requires ValidSetup(l)
  {
    SerAll(Part(CHAPTERS, ChapterKids(l), l.strict))
    + (SerAll(Part(ATTACHMENTS, l.attachments, false))
       + (SerAll(Part(TAGS, TagElems(l.tags), l.strict)) + ReservationBytes(l)))
  }

  method WriteOptional(l: Setup, buf: seq<byte>, start: nat)
    returns (out: seq<byte>, attachmentsAt: nat, tagsAt: nat, frontAt: nat)
    requires ValidSetup(l) && HeaderFits(l) && |buf| == start + ChaptersAt(l)
    ensures out == buf + OptionalBytes(l)
    ensures attachmentsAt == AttachmentsAt(l) && tagsAt == TagsAt(l) && frontAt == FrontAt(l)
  {
    HeaderParts(l);
    hide SerAll, Part, ChaptersAt, HeaderFits, ValidSetup, OptionalBytes, TagsAndSlot;
    ghost var x, y := SerAll(Part(CHAPTERS, ChapterKids(l), l.strict)), SerAll(Part(ATTACHMENTS, l.attachments, false));
    var a := WriteChapters(l, buf);
    attachmentsAt := |a| - start;
    var b := WritePart(a, ATTACHMENTS, l.attachments, false);
    tagsAt := |b| - start;
    out, frontAt := WriteTagsAndSlot(l, b, start);
    OptionalIs(l, x, y);
    ThreePieces(buf, x, y, TagsAndSlot(l));
  }

  /** The displays of the edition, one by one. */
  method BuildDisplays(ds: seq<Display>, buf: seq<byte>) returns (out: seq<byte>)
    requires FitAll(DisplayElems(ds))
    ensures out == buf + SerAll(DisplayElems(ds))
  {
    hide Ser, SerAll, DisplayElem, Fits;
    NoBytes();
    out := buf;
    assert buf + [] == buf;
    for i := 0 to |ds|
      invariant out == buf + SerAll(DisplayElems(ds[..i]))
    {
      FitAt(DisplayElems(ds), i);
      assert ds[..i + 1] == ds[..i] + [ds[i]];
      DisplaysSnoc(ds[..i], ds[i]);
      SerSnoc(DisplayElems(ds[..i]), DisplayElem(ds[i]));
      ghost var before := out;
      out := WriteDisplay(ds[i], out);
      Assoc(buf, SerAll(DisplayElems(ds[..i])), Ser(DisplayElem(ds[i])));
    }
    assert ds[..|ds|] == ds;
  }

  lemma {:induction false} DisplaysSnoc(ds: seq<Display>, d: Display)
    ensures DisplayElems(ds + [d]) == DisplayElems(ds) + [DisplayElem(d)]
  {
    hide DisplayElem;
  }

  method WriteDisplay(d: Display, buf: seq<byte>) returns (out: seq<byte>)
    requires Fits(DisplayElem(d))
    ensures out == buf + Ser(DisplayElem(d))
  {
    var kids := [Bin(EDITION_STRING, d.text)] + LanguageElems(d.languages);
    MasterFitsSize(EDITION_DISPLAY, kids);
    hide Ser, SerAll, Fits, FitAll;
    FitAt(kids, 0);
    LeafSize(EDITION_STRING, d.text);
    var body := WriteBytesElement([], EDITION_STRING, d.text);
    assert [] + Ser(Bin(EDITION_STRING, d.text)) == Ser(Bin(EDITION_STRING, d.text));
    SerOne(Bin(EDITION_STRING, d.text));
    ghost var first := [Bin(EDITION_STRING, d.text)];
    assert first + [] == first;
    for i := 0 to |d.languages|
      invariant body == SerAll(first + LanguageElems(d.languages[..i]))
    {
      LanguagesAt(d.languages, i);
      FitAt(kids, i + 1);
      LeafSize(EDITION_LANGUAGE_IETF, d.languages[i]);
      var language := Bin(EDITION_LANGUAGE_IETF, d.languages[i]);
      body := WriteBytesElement(body, EDITION_LANGUAGE_IETF, d.languages[i]);
      SerSnoc(first + LanguageElems(d.languages[..i]), language);
      assert first + LanguageElems(d.languages[..i]) + [language] == first + LanguageElems(d.languages[..i + 1]);
    }
    assert d.languages[..|d.languages|] == d.languages;
    out := WriteMasterElement(buf, EDITION_DISPLAY, body, kids);
  }

  lemma LeafSize(id: nat, value: seq<byte>)
    requires Fits(Bin(id, value))
    ensures |value| < SIZE_LIMIT
  {
  }

  lemma {:induction false} LanguagesAt(languages: seq<seq<byte>>, i: nat)
    requires i < |languages|
    ensures |LanguageElems(languages)| == |languages|
    ensures LanguageElems(languages)[i] == Bin(EDITION_LANGUAGE_IETF, languages[i])
    ensures LanguageElems(languages[..i + 1]) == LanguageElems(languages[..i])
            + [Bin(EDITION_LANGUAGE_IETF, languages[i])]
    decreases |languages|
  {
    if i == 0 {
      var one := languages[..1];
      assert one == [languages[0]] && one[1..] == [];
      if |languages| > 1 {
        LanguagesAt(languages[1..], 0);
      }
    } else {
      assert languages[..i + 1][1..] == languages[1..][..i] && languages[..i][1..] == languages[1..][..i - 1];
      LanguagesAt(languages[1..], i - 1);
    }
  }

  /** Chapters: the one edition with its UID, its displays and the chapters. */
  method WriteChapters(l: Setup, buf: seq<byte>) returns (out: seq<byte>)
    requires ValidSetup(l) && HeaderFits(l)
    ensures out == buf + SerAll(Part(CHAPTERS, ChapterKids(l), l.strict))
  {
    HeaderParts(l);
    NoBytes();
    hide Ser, SerAll, ValidSetup, HeaderFits, TopLevel, FitAll, Fits, EditionKids, Uint;
    if l.chapters == [] {
      assert buf + [] == buf;
      return buf;
    }
    var kids := EditionKids(l);
    FitAt(ChapterKids(l), 0);
    MasterFitsSize(EDITION_ENTRY, kids);
    var edition := BuildEdition(l);
    var body := WriteMasterElement([], EDITION_ENTRY, edition, kids);
    assert [] + Ser(Master(EDITION_ENTRY, kids)) == Ser(Master(EDITION_ENTRY, kids));
    SerOne(Master(EDITION_ENTRY, kids));
    out := WriteTopLevel(buf, CHAPTERS, body, l.strict, ChapterKids(l));
    SerOne(TopLevel(CHAPTERS, ChapterKids(l), l.strict));
  }

  method BuildEdition(l: Setup) returns (body: seq<byte>)
    requires FitAll(EditionKids(l))
    ensures body == SerAll(EditionKids(l))
  {
    hide Ser, SerAll, Uint, Fits, FitAll, DisplayElem;
    NoBytes();
    var uid := if l.strict then [] else [Uint(EDITION_UID, 1)];
    FitAppend(uid + DisplayElems(l.editions), l.chapters);
    FitAppend(uid, DisplayElems(l.editions));
    SerAppend(uid + DisplayElems(l.editions), l.chapters);
    SerAppend(uid, DisplayElems(l.editions));
    body := [];
    if !l.strict {
      SerOne(Uint(EDITION_UID, 1));
      body := WriteUintElement([], EDITION_UID, 1);
      assert [] + Ser(Uint(EDITION_UID, 1)) == Ser(Uint(EDITION_UID, 1));
    }
    body := BuildDisplays(l.editions, body);
    body := body + SerAll(l.chapters);
  }

  function TagsAndSlot(l: Setup): seq<byte>
    requires ValidSetup(l)
  {
    SerAll(Part(TAGS, TagElems(l.tags), l.strict)) + ReservationBytes(l)
  }

  method WriteTagsAndSlot(l: Setup, buf: seq<byte>, start: nat) returns (out: seq<byte>, frontAt: nat)
    requires ValidSetup(l) && HeaderFits(l) && |buf| == start + TagsAt(l)
    ensures out == buf + TagsAndSlot(l)
    ensures frontAt == FrontAt(l)
  {
    HeaderParts(l);
    hide SerAll, Part, HeaderFits, ValidSetup, TagsAt, ReservationBytes;
    var t := WriteTags(buf, l.tags, l.strict);
    frontAt := |t| - start;
    out := WriteReservation(l, t);
    Assoc(buf, SerAll(Part(TAGS, TagElems(l.tags), l.strict)), ReservationBytes(l));
  }

  method WriteTags(buf: seq<byte>, tags: seq<Tag>, strict: bool) returns (out: seq<byte>)
    requires tags != [] ==> |SerAll(TagElems(tags))| + (if strict then 0 else 6) < SIZE_LIMIT && TagsFit(tags)
    ensures out == buf + SerAll(Part(TAGS, TagElems(tags), strict))
  {
    hide Ser, SerAll, Part, TagsFit, TagElem;
    if tags == [] {
      NoPart(TAGS, strict);
      assert buf + [] == buf;
      return buf;
    }
    var body := BuildTags(tags);
    out := WriteTopLevel(buf, TAGS, body, strict, TagElems(tags));
    PartIsOne(TAGS, TagElems(tags), strict);
  }

  lemma PartIsOne(id: nat, kids: seq<Elem>, strict: bool)
    requires kids != []
    ensures SerAll(Part(id, kids, strict)) == Ser(TopLevel(id, kids, strict))
  {
    hide Ser, SerAll, TopLevel;
    SerOne(TopLevel(id, kids, strict));
  }

  lemma NoPart(id: nat, strict: bool)
    ensures SerAll(Part(id, [], strict)) == []
  {
  }

  lemma OptionalIs(l: Setup, x: seq<byte>, y: seq<byte>)
    requires ValidSetup(l)
    requires x == SerAll(Part(CHAPTERS, ChapterKids(l), l.strict))
             && y == SerAll(Part(ATTACHMENTS, l.attachments, false))
    ensures OptionalBytes(l) == x + (y + TagsAndSlot(l))
  {
    hide SerAll, Part, ReservationBytes;
  }

  lemma FivePieces(buf: seq<byte>, a: seq<byte>, b: seq<byte>, t: seq<byte>, f: seq<byte>)
    ensures buf + a + b + t + f == buf + (a + (b + (t + f)))
  {
  }

  /** Info, Tracks and the optional masters behind them, with their offsets from `start`. */
  method WriteMasters(l: Setup, buf: seq<byte>, start: nat)
    returns (out: seq<byte>, o: Offsets, infoBody: seq<byte>, slot: nat)
    requires ValidSetup(l) && HeaderFits(l) && |buf| == start + InfoAt(l)
    ensures out == buf + SerAll(MasterElems(l))
    ensures Measured(l, o)
    ensures infoBody == SerAll(InfoKids(l, None)) && slot == |SerAll(InfoStart(l))|
  {
    MastersBytes(l);
    hide Ser, SerAll, InfoElem, TracksElem, InfoKids, InfoStart, MasterElems, InfoAt, HeaderFits, Numbered, FourccsOk,
      OptionalBytes, AttachmentsAt, TagsAt, FrontAt;
    var infoAt := |buf| - start;
    var withInfo;
    withInfo, infoBody, slot := WriteInfo(l, buf);
    var tracksAt := |withInfo| - start;
    var withTracks := WriteTracks(l, withInfo);
    var chaptersAt := |withTracks| - start;
    var attachmentsAt, tagsAt, frontAt;
    out, attachmentsAt, tagsAt, frontAt := WriteOptional(l, withTracks, start);
    o := Offsets(infoAt, tracksAt, chaptersAt, attachmentsAt, tagsAt, frontAt);
    ThreePieces(buf, Ser(InfoElem(l, None)), Ser(TracksElem(l)), OptionalBytes(l));
  }

  lemma ThreePieces(buf: seq<byte>, x: seq<byte>, y: seq<byte>, z: seq<byte>)
    ensures buf + x + y + z == buf + (x + y + z)
    ensures buf + x + y + z == buf + x + (y + z)
    ensures buf + x + (y + z) == buf + (x + (y + z))
  {
  }

  /** The head behind the SeekHead, not yet patched. */
  function MasterElems(l: Setup): seq<Elem>
    requires ValidSetup(l)
  {
    [InfoElem(l, None)] + [TracksElem(l)] + Part(CHAPTERS, ChapterKids(l), l.strict)
    + Part(ATTACHMENTS, l.attachments, false) + Part(TAGS, TagElems(l.tags), l.strict) + Unpatched(l).front
  }

  function ReservationBytes(l: Setup): seq<byte>
    requires ValidSetup(l)
  {
    if l.front.Some? then Ser(Void(l.front.value)) else []
  }

  method WriteReservation(l: Setup, buf: seq<byte>) returns (out: seq<byte>)
    requires ValidSetup(l)
    ensures out == buf + ReservationBytes(l)
  {
    hide Ser, Void;
    if l.front.Some? {
      var filler := MakeVoid(l.front.value);
      out := buf + filler;
    } else {
      out := buf;
    }
  }

  lemma MastersBytes(l: Setup)
    requires ValidSetup(l)
    ensures SerAll(MasterElems(l)) == Ser(InfoElem(l, None)) + Ser(TracksElem(l)) + OptionalBytes(l)
  {
    hide Ser, SerAll, InfoElem, TracksElem, Part, Void;
    var info, tracks := InfoElem(l, None), TracksElem(l);
    var a, b, t := Part(CHAPTERS, ChapterKids(l), l.strict), Part(ATTACHMENTS, l.attachments, false),
                   Part(TAGS, TagElems(l.tags), l.strict);
    NoBytes();
    SerOne(info);
    SerSnoc([info], tracks);
    SerAppend([info] + [tracks], a);
    SerAppend([info] + [tracks] + a, b);
    SerAppend([info] + [tracks] + a + b, t);
    SerAppend([info] + [tracks] + a + b + t, Unpatched(l).front);
    if l.front.Some? {
      SerOne(Void(l.front.value));
    }
    FivePieces(SerAll([info] + [tracks]), SerAll(a), SerAll(b), SerAll(t), SerAll(Unpatched(l).front));
  }

  /** Everything that `write_header` writes, and what it remembers for the trailer. */
  method BuildHeader(l: Setup)
    returns (all: seq<byte>, start: nat, seekHeadStart: nat, o: Offsets, infoBody: seq<byte>, slot: nat)
    requires ValidSetup(l) && HeaderFits(l)
    ensures all == Opening(l, []) + SerAll(SegmentHead(l, Unpatched(l)))
    ensures start == seekHeadStart == |Opening(l, [])|
    ensures Measured(l, o) && infoBody == SerAll(InfoKids(l, None)) && slot == |SerAll(InfoStart(l))|
  {
    HeadParts(l);
    hide Ser, SerAll, HeaderElem, SegmentHead, MasterElems, InfoKids, InfoStart, InfoAt, Measured, ExpansionPart,
      SeekHead, Slots, Opening, IdBytes, Numbered, FourccsOk;
    assert |SerAll(HeaderElem(l).kids)| < SIZE_LIMIT;
    var header := WriteEbmlHeader(l);
    var segmentId := WriteElementId(SEGMENT);
    var unknown := WriteVint(UNKNOWN_SIZE, 0);
    var opening := header + (segmentId + unknown);
    OpeningBytes(l);
    start := |opening|;
    seekHeadStart := start;
    var buf := opening;
    if !l.live {
      buf := WriteSeekPart(l, opening);
    }
    all, o, infoBody, slot := WriteMasters(l, buf, start);
    if !l.live {
      ghost var expansion, masters := SerAll(ExpansionPart(l)), SerAll(MasterElems(l));
      ThreePieces(opening, Ser(SeekHead(AllUnset())), expansion, masters);
      all := FillSeekHead(l, o, all, seekHeadStart, opening, expansion + masters);
      ThreePieces(opening, Ser(SeekHead(Slots(l, Unset))), expansion, masters);
    }
  }

  lemma OpeningBytes(l: Setup)
    ensures Opening(l, []) == Ser(HeaderElem(l)) + (IdBytes(SEGMENT) + [0xFF])
  {
    hide Ser, IdBytes, HeaderElem;
    assert [] + Ser(HeaderElem(l)) == Ser(HeaderElem(l));
  }

  lemma HeadSplit(l: Setup)
    requires ValidSetup(l)
    ensures SegmentHead(l, Unpatched(l)) == SeekPart(l, Unset) + MasterElems(l)
  {
    hide InfoElem, TracksElem, Part, SeekPart, ValidSetup;
    SixMore(SeekPart(l, Unset), [InfoElem(l, None)], [TracksElem(l)], Part(CHAPTERS, ChapterKids(l), l.strict),
            Part(ATTACHMENTS, l.attachments, false), Part(TAGS, TagElems(l.tags), l.strict), Unpatched(l).front);
  }

  lemma SixMore(x: seq<Elem>, a: seq<Elem>, b: seq<Elem>, c: seq<Elem>, d: seq<Elem>, e: seq<Elem>, f: seq<Elem>)
    ensures x + a + b + c + d + e + f == x + (a + b + c + d + e + f)
  {
  }

  lemma HeadParts(l: Setup)
    requires ValidSetup(l)
    ensures l.live ==> InfoAt(l) == 0 && SerAll(SegmentHead(l, Unpatched(l))) == SerAll(MasterElems(l))
    ensures !l.live ==>
              SerAll(SegmentHead(l, Unpatched(l)))
              == Ser(SeekHead(Slots(l, Unset))) + (SerAll(ExpansionPart(l)) + SerAll(MasterElems(l)))
  {
    hide Ser, SerAll, InfoElem, TracksElem, Part, SeekHead, Slots, ExpansionPart, ValidSetup;
    HeadSplit(l);
    hide SegmentHead, MasterElems, Unpatched;
    if l.live {
      assert [] + MasterElems(l) == MasterElems(l);
    } else {
      var head := SeekHead(Slots(l, Unset));
      SerAppend([head] + ExpansionPart(l), MasterElems(l));
      SerAppend([head], ExpansionPart(l));
      SerOne(head);
    }
  }
}
