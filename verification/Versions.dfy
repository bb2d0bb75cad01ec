/**
 * DocTypeVersion 5 and the elements that need it: the EBML header declares it exactly if the file
 * holds such an element, at every moment of every run.
 */
module Versions {
  import opened Wrappers
  import opened Bytes
  import opened Ids
  import opened Elements
  import opened Voids
  import opened SeekHeads
  import opened TreeRules
  import opened Tags
  import opened TagRules
  import opened Muxer
  import opened MuxerRun
  import opened MuxerVersions
  import opened MuxerFile
  import opened Setters
  import opened StrictWebm
  import opened EndToEnd

  // ----- the head -----

  lemma VoidV5(n: nat)
    requires VoidSize(n)
    ensures !HasV5(Void(n))
  {
    hide VoidWidth;
  }

  lemma SeekEntryV5(id: nat, slot: Slot)
    ensures !HasV5(SlotElem(id, slot))
  {
    assert !IsV5(SEEK) && !IsV5(SEEK_ID) && !IsV5(SEEK_POSITION);
    hide IsV5, HasV5, AnyV5, BE;
    VoidV5(SEEK_ENTRY_LENGTH);
    if !slot.Voided? {
      var pos := if slot.Unset? then 0 else slot.pos;
      var x, y := Bin(SEEK_ID, BE(id, 4)), Bin(SEEK_POSITION, BE(pos, 8));
      PlainV5(SEEK_ID, x.body);
      PlainV5(SEEK_POSITION, y.body);
      V5One(x);
      V5Snoc([x], y);
      assert [x] + [y] == [x, y];
      V5Node(Master(SEEK, [x, y]));
    }
  }

  lemma {:induction false} SlotsV5(ids: seq<nat>, slots: seq<Slot>)
    requires |ids| == |slots|
    ensures !AnyV5(SlotElems(ids, slots))
  {
    hide HasV5, SlotElem;
    if ids != [] {
      SeekEntryV5(ids[0], slots[0]);
      SlotsV5(ids[1..], slots[1..]);
    }
  }

  lemma SeekPartV5(l: Setup, cues: Slot)
    requires ValidSetup(l)
    ensures !AnyV5(SeekPart(l, cues))
  {
    assert !IsV5(SEEK_HEAD);
    hide IsV5, HasV5, AnyV5, Slots, SlotElems, ExpansionPart, ValidSetup;
    V5None();
    if !l.live {
      var head := SeekHead(Slots(l, cues));
      SlotsV5(SeekIds(), Slots(l, cues));
      V5Node(head);
      V5One(head);
      ExpansionV5(l);
      V5Append([head], ExpansionPart(l));
    }
  }

  lemma ExpansionV5(l: Setup)
    requires ValidSetup(l)
    ensures !AnyV5(ExpansionPart(l))
  {
    hide HasV5, AnyV5, Void, UsesV5;
    V5None();
    if l.expansion.Some? {
      VoidV5(l.expansion.value);
      V5One(Void(l.expansion.value));
    }
  }

  lemma InfoV5(l: Setup, d: Option<seq<byte>>)
    requires OldHints(l)
    ensures !HasV5(InfoElem(l, d))
  {
    assert !IsV5(INFO) && !IsV5(TIMECODE_SCALE) && !IsV5(DURATION) && !IsV5(MUXING_APP) && !IsV5(WRITING_APP);
    hide IsV5, HasV5, AnyV5, TopLevel, Void, AnyKidsV5;
    V5None();
    var scale, a, b := Uint(TIMECODE_SCALE, 1000000), Bin(MUXING_APP, OXIDEAV_TEXT), Bin(WRITING_APP, OXIDEAV_TEXT);
    PlainV5(TIMECODE_SCALE, scale.body);
    PlainV5(MUXING_APP, a.body);
    PlainV5(WRITING_APP, b.body);
    V5Snoc(l.linking, scale);
    VoidV5(DURATION_SLOT_LENGTH);
    if d.Some? {
      PlainV5(DURATION, d.value);
    }
    V5One(DurationElem(d));
    var slot := if l.finalize then [DurationElem(d)] else [];
    V5Append(InfoStart(l), slot);
    assert InfoEnd(l) == l.info + [a] + [b];
    V5Snoc(l.info, a);
    V5Snoc(l.info + [a], b);
    V5Append(InfoStart(l) + slot, InfoEnd(l));
    TopLevelV5(INFO, InfoKids(l, d), l.strict);
  }

  lemma EntryV5(l: Setup, i: nat)
    requires ValidSetup(l) && OldHints(l) && i < |l.streams|
    ensures HasV5(TrackEntry(l, i)) <==> AnyV5(l.trackKids[i])
  {
    EntryStartV5(l, i);
    VideoV5(l, i);
    assert !IsV5(TRACK_ENTRY);
    hide IsV5, HasV5, AnyV5, AnyKidsV5, EntryStart, VideoElem, UsesV5;
    V5None();
    V5One(VideoElem(l, i));
    var video := if l.streams[i].media == VideoMedia then [VideoElem(l, i)] else [];
    V5Append(EntryStart(l, i), video);
    V5Node(TrackEntry(l, i));
  }

  lemma EntryStartV5(l: Setup, i: nat)
    requires ValidSetup(l) && i < |l.streams|
    ensures AnyV5(EntryStart(l, i)) <==> AnyV5(l.trackKids[i])
  {
    assert !IsV5(TRACK_NUMBER) && !IsV5(TRACK_UID) && !IsV5(TRACK_TYPE) && !IsV5(FLAG_LACING) && !IsV5(CODEC_ID);
    assert !IsV5(CODEC_PRIVATE);
    hide IsV5, HasV5, AnyV5, LacingFlag, UsesV5;
    V5None();
    var t := l.streams[i];
    var a, b, c, d := Uint(TRACK_NUMBER, t.number), Uint(TRACK_UID, t.number), Uint(TRACK_TYPE, TrackType(t.media)),
                      Uint(FLAG_LACING, LacingFlag(l, i));
    PlainV5(TRACK_NUMBER, a.body);
    PlainV5(TRACK_UID, b.body);
    PlainV5(TRACK_TYPE, c.body);
    PlainV5(FLAG_LACING, d.body);
    PlainV5(CODEC_ID, t.codecId);
    PlainV5(CODEC_PRIVATE, t.codecPrivate);
    FourV5(a, b, c, d);
    V5Append([a, b, c, d], l.trackKids[i]);
    V5One(Bin(CODEC_ID, t.codecId));
    V5One(Bin(CODEC_PRIVATE, t.codecPrivate));
    V5Append([Bin(CODEC_ID, t.codecId)], if t.codecPrivate == [] then [] else [Bin(CODEC_PRIVATE, t.codecPrivate)]);
    V5Append([a, b, c, d] + l.trackKids[i], CodecKids(t));
  }

  lemma FourV5(a: Elem, b: Elem, c: Elem, d: Elem)
    requires !HasV5(a) && !HasV5(b) && !HasV5(c) && !HasV5(d)
    ensures !AnyV5([a, b, c, d])
  {
    hide HasV5, AnyV5;
    V5One(a);
    V5Snoc([a], b);
    V5Snoc([a] + [b], c);
    V5Snoc([a] + [b] + [c], d);
    assert [a] + [b] + [c] + [d] == [a, b, c, d];
  }

  lemma VideoV5(l: Setup, i: nat)
    requires ValidSetup(l) && OldHints(l) && i < |l.streams|
    ensures !HasV5(VideoElem(l, i))
  {
    assert !IsV5(VIDEO) && !IsV5(UNCOMPRESSED_FOURCC);
    assert !AnyV5(l.videoKids[i]);
    hide IsV5, HasV5, AnyV5, AnyKidsV5, UsesV5;
    V5None();
    if l.fourccs[i].Some? {
      PlainV5(UNCOMPRESSED_FOURCC, l.fourccs[i].value);
      V5Snoc(l.videoKids[i], Bin(UNCOMPRESSED_FOURCC, l.fourccs[i].value));
    } else {
      assert l.videoKids[i] + [] == l.videoKids[i];
    }
    V5Node(VideoElem(l, i));
  }

  lemma {:induction false} EntriesV5(l: Setup, n: nat)
    requires ValidSetup(l) && OldHints(l) && n <= |l.streams|
    ensures AnyV5(TrackEntries(l, n)) <==> exists i :: 0 <= i < n && AnyV5(l.trackKids[i])
  {
    hide HasV5, AnyV5, TrackEntry, ValidSetup, OldHints;
    V5None();
    assert n <= |l.trackKids| by { KidsAsMany(l); }
    if n > 0 {
      EntriesV5(l, n - 1);
      EntryV5(l, n - 1);
      V5Snoc(TrackEntries(l, n - 1), TrackEntry(l, n - 1));
    }
  }

  lemma KidsAsMany(l: Setup)
    requires ValidSetup(l)
    ensures |l.trackKids| == |l.streams|
  {
  }

  lemma TracksV5(l: Setup)
    requires ValidSetup(l) && OldHints(l)
    ensures HasV5(TracksElem(l)) <==> AnyKidsV5(l.trackKids)
  {
    assert !IsV5(TRACKS);
    KidsAsMany(l);
    hide IsV5, HasV5, AnyV5, TrackEntries, TopLevel, ValidSetup, OldHints;
    EntriesV5(l, |l.streams|);
    TopLevelV5(TRACKS, TrackEntries(l, |l.streams|), l.strict);
  }

  lemma DisplaysV5(ds: seq<Display>)
    ensures AnyV5(DisplayElems(ds)) <==> ds != []
  {
    assert IsV5(EDITION_DISPLAY);
    hide LanguageElems, IsV5;
  }

  lemma ChaptersV5(l: Setup)
    requires l.editions == [] || l.chapters != []
    ensures AnyV5(ChapterKids(l)) <==> l.editions != [] || AnyV5(l.chapters)
  {
    assert !IsV5(EDITION_ENTRY) && !IsV5(EDITION_UID);
    hide IsV5, HasV5, AnyV5, DisplayElems;
    V5None();
    var uid := if l.strict then [] else [Uint(EDITION_UID, 1)];
    PlainV5(EDITION_UID, Uint(EDITION_UID, 1).body);
    V5One(Uint(EDITION_UID, 1));
    DisplaysV5(l.editions);
    V5Append(uid, DisplayElems(l.editions));
    V5Append(uid + DisplayElems(l.editions), l.chapters);
    if l.chapters != [] {
      V5Node(Master(EDITION_ENTRY, EditionKids(l)));
      V5One(Master(EDITION_ENTRY, EditionKids(l)));
    }
  }

  lemma PartV5(id: nat, kids: seq<Elem>, strict: bool)
    requires !IsV5(id)
    ensures AnyV5(Part(id, kids, strict)) <==> AnyV5(kids)
  {
    hide IsV5, HasV5, AnyV5, TopLevel;
    V5None();
    TopLevelV5(id, kids, strict);
    V5One(TopLevel(id, kids, strict));
  }

  lemma SevenV5(a: seq<Elem>, b: seq<Elem>, c: seq<Elem>, d: seq<Elem>, e: seq<Elem>, f: seq<Elem>, g: seq<Elem>)
    ensures AnyV5(a + b + c + d + e + f + g)
       <==> AnyV5(a) || AnyV5(b) || AnyV5(c) || AnyV5(d) || AnyV5(e) || AnyV5(f) || AnyV5(g)
  {
    hide AnyV5;
    V5Append(a, b);
    V5Append(a + b, c);
    V5Append(a + b + c, d);
    V5Append(a + b + c + d, e);
    V5Append(a + b + c + d + e, f);
    V5Append(a + b + c + d + e + f, g);
  }

  /** The head holds an element of version 5 exactly if the queued state says so. */
  lemma HeadV5(l: Setup, p: Patches)
    requires ValidSetup(l) && OldHints(l) && !AnyV5(p.front) && (l.editions == [] || l.chapters != [])
    ensures AnyV5(SegmentHead(l, p)) <==> UsesV5(l)
  {
    assert !IsV5(CHAPTERS) && !IsV5(ATTACHMENTS) && !IsV5(TAGS);
    assert !AnyV5(l.attachments);
    hide IsV5, HasV5, AnyV5, AnyKidsV5, SeekPart, InfoElem, TracksElem, Part, ChapterKids, TagElems, ValidSetup,
      OldHints, SomeTagNeedsV5;
    SeekPartV5(l, p.cues);
    InfoV5(l, p.duration);
    V5One(InfoElem(l, p.duration));
    TracksV5(l);
    V5One(TracksElem(l));
    ChaptersV5(l);
    PartV5(CHAPTERS, ChapterKids(l), l.strict);
    PartV5(ATTACHMENTS, l.attachments, false);
    TagsV5(l.tags);
    PartV5(TAGS, TagElems(l.tags), l.strict);
    SevenV5(SeekPart(l, p.cues), [InfoElem(l, p.duration)], [TracksElem(l)], Part(CHAPTERS, ChapterKids(l), l.strict),
            Part(ATTACHMENTS, l.attachments, false), Part(TAGS, TagElems(l.tags), l.strict), p.front);
  }

  // ----- the document -----

  lemma HeaderV5(l: Setup)
    requires OldHints(l)
    ensures !HasV5(HeaderElem(l))
  {
    HeaderStartV5(l);
    HeaderIs(l);
    assert !IsV5(EBML_HEADER);
    hide IsV5, HasV5, AnyV5, AnyKidsV5, HeaderStart, HeaderElem;
    V5Append(HeaderStart(l), l.extensions);
    V5Node(HeaderElem(l));
  }

  function HeaderStart(l: Setup): seq<Elem> {
    [Uint(EBML_VERSION, 1), Uint(EBML_READ_VERSION, 1), Uint(EBML_MAX_ID_LENGTH, 4), Uint(EBML_MAX_SIZE_LENGTH, 8),
     Bin(EBML_DOC_TYPE, if l.webm then Scanner.WEBM_TEXT else MATROSKA_TEXT),
     Uint(EBML_DOC_TYPE_VERSION, DocTypeVersion(l)),
     Uint(EBML_DOC_TYPE_READ_VERSION, 2)]
  }

  lemma HeaderIs(l: Setup)
    ensures HeaderElem(l) == Master(EBML_HEADER, HeaderStart(l) + l.extensions)
    ensures HeaderElem(l).kids[5] == Uint(EBML_DOC_TYPE_VERSION, DocTypeVersion(l))
  {
    hide Uint, DocTypeVersion;
  }

  lemma HeaderStartV5(l: Setup)
    ensures !AnyV5(HeaderStart(l))
  {
    assert !IsV5(EBML_VERSION) && !IsV5(EBML_READ_VERSION) && !IsV5(EBML_MAX_ID_LENGTH) && !IsV5(EBML_MAX_SIZE_LENGTH);
    assert !IsV5(EBML_DOC_TYPE) && !IsV5(EBML_DOC_TYPE_VERSION) && !IsV5(EBML_DOC_TYPE_READ_VERSION);
    hide IsV5, HasV5, AnyV5, DocTypeVersion;
    var docType := if l.webm then Scanner.WEBM_TEXT else MATROSKA_TEXT;
    var a, b, c, d := Uint(EBML_VERSION, 1), Uint(EBML_READ_VERSION, 1), Uint(EBML_MAX_ID_LENGTH, 4),
                      Uint(EBML_MAX_SIZE_LENGTH, 8);
    var e, f, g := Bin(EBML_DOC_TYPE, docType), Uint(EBML_DOC_TYPE_VERSION, DocTypeVersion(l)),
                   Uint(EBML_DOC_TYPE_READ_VERSION, 2);
    PlainV5(EBML_VERSION, a.body);
    PlainV5(EBML_READ_VERSION, b.body);
    PlainV5(EBML_MAX_ID_LENGTH, c.body);
    PlainV5(EBML_MAX_SIZE_LENGTH, d.body);
    PlainV5(EBML_DOC_TYPE, docType);
    PlainV5(EBML_DOC_TYPE_VERSION, f.body);
    PlainV5(EBML_DOC_TYPE_READ_VERSION, g.body);
    SevenOld(a, b, c, d, e, f, g);
  }

  lemma SevenOld(a: Elem, b: Elem, c: Elem, d: Elem, e: Elem, f: Elem, g: Elem)
    requires !HasV5(a) && !HasV5(b) && !HasV5(c) && !HasV5(d) && !HasV5(e) && !HasV5(f) && !HasV5(g)
    ensures !AnyV5([a, b, c, d, e, f, g])
  {
    hide HasV5, AnyV5;
    FourV5(a, b, c, d);
    V5Snoc([a, b, c, d], e);
    V5Snoc([a, b, c, d] + [e], f);
    V5Snoc([a, b, c, d] + [e] + [f], g);
    assert [a, b, c, d] + [e] + [f] + [g] == [a, b, c, d, e, f, g];
  }

  lemma DocumentV5(l: Setup, p: Patches, items: seq<Item>, end: seq<Elem>)
    requires ValidSetup(l) && OldHints(l) && !AnyV5(p.front) && !AnyV5(end) && (l.editions == [] || l.chapters != [])
    requires AnyV5(ItemElems(items)) ==> UsesV5(l)
    ensures AnyV5(Document(l, p, items, end)) <==> UsesV5(l)
  {
    assert !IsV5(SEGMENT);
    hide IsV5, HasV5, AnyV5, SegmentHead, ItemElems, HeaderElem, ValidSetup, OldHints, UsesV5;
    HeaderV5(l);
    HeadV5(l, p);
    var kids := SegmentHead(l, p) + (ItemElems(items) + end);
    V5Append(ItemElems(items), end);
    V5Append(SegmentHead(l, p), ItemElems(items) + end);
    V5Node(Open(SEGMENT, kids));
    PairV5(HeaderElem(l), Open(SEGMENT, kids));
  }

  lemma PairV5(a: Elem, b: Elem)
    ensures AnyV5([a, b]) <==> HasV5(a) || HasV5(b)
  {
    hide HasV5, AnyV5;
    V5One(a);
    V5Snoc([a], b);
    assert [a] + [b] == [a, b];
  }

  lemma RunItemsV5(l: Setup, calls: seq<Call>)
    requires ValidSetup(l)
    ensures AnyV5(ItemElems(StateAfter(l, calls).items)) ==> UsesV5(l)
  {
    ConfigIsValid(l);
    var c := ConfigOf(l);
    VersionOf(l);
    hide UsesV5, ValidSetup, AnyV5, RunFrom, Sound, OldItems, ConfigOf;
    if !UsesV5(l) {
      RunFromOld(c, calls);
      ItemsOld(RunFrom(c, calls).state.items);
    }
  }

  lemma VersionOf(l: Setup)
    requires ValidSetup(l)
    ensures ConfigOf(l).version == DocTypeVersion(l)
  {
    hide HeadLength;
  }

  lemma UnpatchedV5(l: Setup)
    requires ValidSetup(l)
    ensures !AnyV5(Unpatched(l).front)
  {
    hide Void, HasV5;
    if l.front.Some? {
      VoidV5(l.front.value);
      V5One(Void(l.front.value));
    }
  }

  /**
   * Whatever the setters have queued and the run has written, with names of editions or without:
   * the EBML header says version 5 exactly if there is an element in the file that needs it, and
   * never in WebM, lenient or not.
   */
  lemma VersionIsHonest(webm: bool, streams: seq<Stream>, setters: seq<Setter>, calls: seq<Call>)
    requires ProperSetters(setters)
    requires var l := Configured(webm, streams, setters); l.editions == [] || l.chapters != []
    ensures var l := Configured(webm, streams, setters);
            && (AnyV5(Document(l, Unpatched(l), StateAfter(l, calls).items, [])) <==> DocTypeVersion(l) == 5)
            && HeaderElem(l).kids[5] == Uint(EBML_DOC_TYPE_VERSION, DocTypeVersion(l))
            && (webm ==> DocTypeVersion(l) == 4)
  {
    KeepsDocType(New(webm, streams), setters);
    ConfiguredKeeps(webm, streams, setters);
    hide Configured, ValidSetup, Guarded, AnyV5, Document, StateAfter, ProperSetters, HeaderElem, DocTypeVersion,
      Configure;
    FileVersion(Configured(webm, streams, setters), calls);
  }

  lemma ConfiguredKeeps(webm: bool, streams: seq<Stream>, setters: seq<Setter>)
    requires ProperSetters(setters)
    ensures Configured(webm, streams, setters).webm == Configure(New(webm, streams), setters).webm
    ensures New(webm, streams).webm == webm
  {
  }

  lemma FileVersion(l: Setup, calls: seq<Call>)
    requires ValidSetup(l) && Guarded(l) && (l.editions == [] || l.chapters != [])
    ensures AnyV5(Document(l, Unpatched(l), StateAfter(l, calls).items, [])) <==> DocTypeVersion(l) == 5
    ensures HeaderElem(l).kids[5] == Uint(EBML_DOC_TYPE_VERSION, DocTypeVersion(l))
    ensures l.webm ==> DocTypeVersion(l) == 4
  {
    assert OldHints(l);
    assert l.webm ==> !UsesV5(l);
    hide OldHints, ValidSetup, Guarded, UsesV5, AnyV5, Document, StateAfter, HeaderElem, Unpatched;
    HeaderIs(l);
    UnpatchedV5(l);
    V5None();
    RunItemsV5(l, calls);
    DocumentV5(l, Unpatched(l), StateAfter(l, calls).items, []);
  }

  /** The DocType is chosen once. */
  lemma {:induction false} KeepsDocType(l: Setup, setters: seq<Setter>)
    ensures Setters.Configure(l, setters).webm == l.webm
    decreases |setters|
  {
    hide Set;
    if setters != [] {
      if Set(l, setters[0]).Some? {
        SetKeepsDocType(l, setters[0]);
        KeepsDocType(Set(l, setters[0]).value, setters[1..]);
      } else {
        KeepsDocType(l, setters[1..]);
      }
    }
  }

  lemma SetKeepsDocType(l: Setup, s: Setter)
    requires Set(l, s).Some?
    ensures Set(l, s).value.webm == l.webm
  {
    hide HintGuards.Refuses, HasV5, TagAdmitted, PrintableLanguages;
    match s
    case Hint(kind, i, tree) => QueuedKeepsDocType(l, PlaceOf(kind, i), tree);
    case _ =>
  }

  lemma QueuedKeepsDocType(l: Setup, place: HintPlace, tree: Elem)
    requires PlaceExists(l, place)
    ensures Queued(l, place, tree).webm == l.webm
  {
  }
}
