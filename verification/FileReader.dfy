/**
 * A reader that has nothing but the bytes of a file: it walks the Segment and ends an unknown-size
 * Cluster at the next Top-Level Element. In a finished file it finds every accepted frame.
 */
module FileReader {
  import opened Wrappers
  import opened Bytes
  import opened Ebml
  import opened Ids
  import opened Elements
  import opened Splitter
  import opened TreeReader
  import opened Lacing
  import opened Scanner
  import opened ScannerInverts
  import opened Cues
  import opened Voids
  import opened SeekHeads
  import opened FrontCues
  import opened Tags
  import opened Muxer
  import opened BlockGroups
  import opened MuxerCues
  import opened MuxerFrames
  import opened MuxerBudget
  import opened MuxerChain
  import opened MuxerProfile
  import opened MuxerRun
  import opened MuxerTheorems
  import opened MuxerFile
  import opened FilePatches
  import opened Trailer
  import opened StrictWebm
  import opened EndToEnd
  import opened ReadBack

  // ----- the reader -----

  /** How many bytes belong to an unknown-size Cluster whose data start here. */
  function ClusterLength(s: seq<byte>): (r: Option<nat>)
    ensures r.Some? ==> r.value <= |s|
    decreases |s|
  {
    if s == [] then Some(0)
    else
      match DecodeHeader(s)
      case Failure(_) => None
      case Success(h) =>
        if IsTopLevel(h.id) then Some(0)
        else if h.length + h.size > |s| then None
        else
          var more :- ClusterLength(s[h.length + h.size..]);
          Some(h.length + h.size + more)
  }

  /** The data of the element at the front, and what is behind it. */
  function TakeElement(s: seq<byte>): (r: Option<(nat, seq<byte>, seq<byte>)>)
    ensures r.Some? ==> |r.value.2| < |s|
  {
    match DecodeHeader(s)
    case Failure(_) => None
    case Success(h) =>
      if h.size == UNKNOWN_SIZE && h.id == 0x1F43B675 && h.length <= |s| then
        var n :- ClusterLength(s[h.length..]);
        Some((h.id, s[h.length..][..n], s[h.length..][n..]))
      else if h.length + h.size > |s| then None
      else Some((h.id, s[h.length..h.length + h.size], s[h.length + h.size..]))
  }

  /** The Blocks of all Clusters in the data of a Segment. */
  function ReadSegment(s: seq<byte>): Option<seq<Stamped>>
    decreases |s|
  {
    if s == [] then Some([])
    else
      var (id, body, more) :- TakeElement(s);
      var rest :- ReadSegment(more);
      if id != 0x1F43B675 then Some(rest)
      else
        var blocks :- ReadCluster(body);
        Some(blocks + rest)
  }

  /** An EBML header, and a Segment of unknown size up to the end of the file: the data of both. */
  function ReadDocument(s: seq<byte>): Option<(seq<byte>, seq<byte>)> {
    var (id, header, more) :- TakeElement(s);
    if id != 0x1A45DFA3 then None
    else
      match DecodeHeader(more)
      case Failure(_) => None
      case Success(h) =>
        if h.id != 0x18538067 || h.size != UNKNOWN_SIZE || h.length > |more| then None
        else Some((header, more[h.length..]))
  }

  /** The Blocks of a file. */
  function ReadFile(s: seq<byte>): Option<seq<Stamped>> {
    var (_, segment) :- ReadDocument(s);
    ReadSegment(segment)
  }

  /** The data of the first Top-Level Element with an ID, in the data of a Segment. */
  function FindTop(s: seq<byte>, id: nat): Option<seq<byte>>
    decreases |s|
  {
    if s == [] then None
    else
      var (found, body, more) :- TakeElement(s);
      if found == id then Some(body) else FindTop(more, id)
  }

  // ----- where a Cluster ends -----

  /** Nothing follows, or a Top-Level Element. */
  predicate EndsCluster(s: seq<byte>) {
    s == [] || (DecodeHeader(s).Success? && IsTopLevel(DecodeHeader(s).value.id))
  }

  predicate Plain(e: Elem) {
    !e.Open? && !IsTopLevel(e.id)
  }

  predicate AllPlain(es: seq<Elem>) {
    forall i :: 0 <= i < |es| ==> Plain(es[i])
  }

  lemma {:induction false} ClusterEnds(kids: seq<Elem>, tail: seq<byte>)
    requires AllPlain(kids) && FitAll(kids) && EndsCluster(tail)
    ensures ClusterLength(SerAll(kids) + tail) == Some(|SerAll(kids)|)
  {
    hide DecodeHeader, Ser, Fits, IsTopLevel, Head, Body;
    if kids == [] {
      assert SerAll(kids) + tail == tail;
    } else {
      var e, rest := kids[0], kids[1..];
      ClusterEnds(rest, tail);
      Assoc(Ser(e), SerAll(rest), tail);
      BoundedHead(e, SerAll(rest) + tail);
      SliceAt([], Ser(e), SerAll(rest) + tail);
      assert [] + Ser(e) + (SerAll(rest) + tail) == Ser(e) + (SerAll(rest) + tail);
    }
  }

  lemma TakeBounded(e: Elem, tail: seq<byte>)
    requires !e.Open? && Fits(e)
    ensures TakeElement(Ser(e) + tail) == Some((e.id, Body(e), tail))
  {
    hide DecodeHeader, Head, Ser, SerAll, FitAll, ClusterLength;
    BoundedHead(e, tail);
    SliceAt(Head(e), Body(e), tail);
    assert Ser(e) + tail == [] + Ser(e) + tail;
    SliceAt([], Ser(e), tail);
    BodyFits(e);
  }

  lemma BodyFits(e: Elem)
    requires !e.Open? && Fits(e)
    ensures |Body(e)| < SIZE_LIMIT
  {
  }

  lemma TakeCluster(kids: seq<Elem>, tail: seq<byte>)
    requires AllPlain(kids) && FitAll(kids) && EndsCluster(tail)
    ensures TakeElement(Ser(Open(CLUSTER, kids)) + tail) == Some((CLUSTER, SerAll(kids), tail))
  {
    hide DecodeHeader, Ser, SerAll, FitAll, ClusterLength, EndsCluster, IdBytes, AllPlain;
    OpenBytes(kids);
    var h := IdBytes(CLUSTER) + [0xFF];
    Assoc(h, SerAll(kids), tail);
    UnknownHeader(CLUSTER, SerAll(kids) + tail);
    ClusterHeaderLength();
    assert IdLength(CLUSTER) == 4;
    ClusterEnds(kids, tail);
    SliceAt(h, SerAll(kids), tail);
    SliceAt([], SerAll(kids), tail);
    assert [] + SerAll(kids) + tail == SerAll(kids) + tail;
    var s := h + (SerAll(kids) + tail);
    assert s[5..] == SerAll(kids) + tail;
  }

  // ----- the Segment -----

  /** Bounded elements, and Clusters that a Top-Level Element or the end follows. */
  predicate Segmented(es: seq<Elem>) {
    forall i :: 0 <= i < |es| && es[i].Open? ==>
      && es[i].id == CLUSTER && AllPlain(es[i].kids)
      && (i + 1 < |es| ==> IsTopLevel(es[i + 1].id))
  }

  lemma NextEnds(es: seq<Elem>)
    requires FitAll(es) && (es != [] ==> IsTopLevel(es[0].id))
    ensures EndsCluster(SerAll(es))
  {
    hide DecodeHeader, Ser, IsTopLevel, Head, Body, Fits;
    if es != [] {
      FitsHead(es[0]);
      SerIsHeadThenBody(es[0]);
      HeaderDecodes(es[0], Body(es[0]) + SerAll(es[1..]));
      Assoc(Head(es[0]), Body(es[0]), SerAll(es[1..]));
    }
  }

  /** Reading the bytes finds what reading the elements finds. */
  lemma {:induction false} SegmentReads(es: seq<Elem>)
    requires Segmented(es) && FitAll(es)
    ensures ReadSegment(SerAll(es)) == ReadClusters(es)
  {
    hide ReadCluster, Ser, Fits, TakeElement, AllPlain, EndsCluster, IsTopLevel, Body;
    if es != [] {
      var e, rest := es[0], es[1..];
      assert forall i :: 0 <= i < |rest| ==> rest[i] == es[i + 1];
      SegmentReads(rest);
      TakeFirst(es);
      SomeBytes(e, SerAll(rest));
    }
  }

  /** Looking for a Top-Level Element finds the first of its kind. */
  lemma {:induction false} TopIsFound(es: seq<Elem>, id: nat)
    requires Segmented(es) && FitAll(es)
    ensures FindTop(SerAll(es), id) == Field(es, id)
  {
    hide Ser, Fits, TakeElement, AllPlain, EndsCluster, IsTopLevel, Body, Field;
    if es == [] {
      assert Field([], id) == None by { NothingThere(id); }
    } else {
      var e, rest := es[0], es[1..];
      assert forall i :: 0 <= i < |rest| ==> rest[i] == es[i + 1];
      TopIsFound(rest, id);
      TakeFirst(es);
      SomeBytes(e, SerAll(rest));
      assert es == [e] + rest;
      FieldSum([e], rest, id);
      FieldOne(e, id);
    }
  }

  lemma TakeFirst(es: seq<Elem>)
    requires Segmented(es) && FitAll(es) && es != []
    ensures TakeElement(Ser(es[0]) + SerAll(es[1..])) == Some((es[0].id, Body(es[0]), SerAll(es[1..])))
  {
    hide Ser, SerAll, TakeElement, EndsCluster, IsTopLevel;
    var e := es[0];
    if e.Open? {
      NextEnds(es[1..]);
      TakeCluster(e.kids, SerAll(es[1..]));
    } else {
      TakeBounded(e, SerAll(es[1..]));
    }
  }

  lemma SomeBytes(e: Elem, tail: seq<byte>)
    ensures Ser(e) + tail != []
  {
    hide IdBytes, Vint;
    assert |IdBytes(e.id)| > 0 by { IdHasBytes(e.id); }
  }

  lemma IdHasBytes(id: nat)
    ensures |IdBytes(id)| > 0
  {
  }

  // ----- the muxer's Segment -----

  /** The elements in front of the first Cluster carry their sizes. */
  predicate Closed(es: seq<Elem>) {
    forall i :: 0 <= i < |es| ==> !es[i].Open?
  }

  lemma HeadIsClosed(l: Setup, p: Patches)
    requires ValidSetup(l) && Closed(p.front)
    ensures Closed(SegmentHead(l, p))
  {
    hide SeekPart, InfoElem, TracksElem, Part, ValidSetup, Closed;
    var a, b, t := Part(CHAPTERS, ChapterKids(l), l.strict), Part(ATTACHMENTS, l.attachments, false),
                   Part(TAGS, TagElems(l.tags), l.strict);
    var start := SeekPart(l, p.cues) + [InfoElem(l, p.duration)] + [TracksElem(l)];
    StartIsClosed(l, p);
    PartIsClosed(CHAPTERS, ChapterKids(l), l.strict);
    PartIsClosed(ATTACHMENTS, l.attachments, false);
    PartIsClosed(TAGS, TagElems(l.tags), l.strict);
    ClosedAppend(start, a);
    ClosedAppend(start + a, b);
    ClosedAppend(start + a + b, t);
    ClosedAppend(start + a + b + t, p.front);
  }

  lemma ClosedAppend(a: seq<Elem>, b: seq<Elem>)
    requires Closed(a) && Closed(b)
    ensures Closed(a + b)
  {
  }

  lemma PartIsClosed(id: nat, kids: seq<Elem>, strict: bool)
    ensures Closed(Part(id, kids, strict))
  {
    hide CrcChild;
  }

  lemma StartIsClosed(l: Setup, p: Patches)
    requires ValidSetup(l)
    ensures Closed(SeekPart(l, p.cues) + [InfoElem(l, p.duration)] + [TracksElem(l)])
  {
    hide Slots, SlotElems, VoidWidth, ValidSetup, CrcChild, InfoKids, TrackEntries;
  }

  lemma FinishedIsClosed(l: Setup, s: State)
    requires ValidSetup(l) && InnerLength(s.cues, l.strict) < SIZE_LIMIT
    ensures var f := Finished(l, s); Closed(f.patches.front) && Closed(f.end) && AllClosing(f.end)
  {
    hide SlotContent, OneShort, Cursor, VintWidth, FrontAt, ConfigOf, SerAll, CuesKids, Numbered, FourccsOk, Zeroes,
      VoidWidth;
    if l.front.Some? && s.cues != [] {
      SlotIsTiled(s.cues, l.strict, l.front.value);
    }
  }

  lemma KidsArePlain(strict: bool, cl: Item)
    requires ProperItem(strict, cl) && cl.Cluster?
    ensures AllPlain(ItemElem(cl).kids)
  {
    hide Proper, IsTopLevel, BlockElem, ProperBlock;
    var kids := cl.lead + BlockElems(cl.blocks);
    forall j | 0 <= j < |kids|
      ensures Plain(kids[j])
    {
      if j >= |cl.lead| {
        BlockElemIsProper(strict, cl.blocks[j - |cl.lead|]);
      }
      BoundedProper(strict, kids[j]);
    }
  }

  /** Closing elements in a row, of which the Clusters have plain children. */
  predicate InRow(es: seq<Elem>) {
    AllClosing(es) && forall i :: 0 <= i < |es| ==> OpenCluster(es[i])
  }

  predicate OpenCluster(e: Elem) {
    e.Open? ==> e.id == CLUSTER && AllPlain(e.kids)
  }

  lemma RowIsSegmented(head: seq<Elem>, es: seq<Elem>)
    requires Closed(head) && InRow(es)
    ensures Segmented(head + es)
  {
    hide AllPlain;
    var all := head + es;
    forall i | 0 <= i < |all| && all[i].Open?
      ensures all[i].id == CLUSTER && AllPlain(all[i].kids) && (i + 1 < |all| ==> IsTopLevel(all[i + 1].id))
    {
      assert all[i] == es[i - |head|];
      if i + 1 < |all| {
        assert Closing(es[i + 1 - |head|]);
      }
    }
  }

  lemma {:induction false} ItemsInRow(strict: bool, items: seq<Item>)
    requires FitAll(ItemElems(items)) && forall k :: 0 <= k < |items| ==> ProperItem(strict, items[k])
    ensures InRow(ItemElems(items))
  {
    hide ProperItem, FitAll, WellFormed, OpenCluster, Closing, ItemElem, AllClosing;
    ItemsAreWellFormed(strict, items);
    var es := ItemElems(items);
    forall k | 0 <= k < |es|
      ensures OpenCluster(es[k])
    {
      ItemIsRow(strict, items[k]);
    }
  }

  lemma ItemIsRow(strict: bool, item: Item)
    requires ProperItem(strict, item)
    ensures OpenCluster(ItemElem(item))
  {
    hide AllPlain, Proper, ProperKids, ProperBlock;
    if item.Cluster? {
      KidsArePlain(strict, item);
    } else {
      BoundedProper(strict, item.elem);
    }
  }

  lemma RowAppend(a: seq<Elem>, b: seq<Elem>)
    requires InRow(a) && AllClosing(b) && Closed(b)
    ensures InRow(a + b)
  {
    hide AllPlain, Closing;
  }

  lemma ChildrenAreSegmented(strict: bool, head: seq<Elem>, items: seq<Item>, end: seq<Elem>)
    requires Closed(head) && Closed(end) && AllClosing(end) && FitAll(ItemElems(items))
    requires forall k :: 0 <= k < |items| ==> ProperItem(strict, items[k])
    ensures Segmented(head + (ItemElems(items) + end))
  {
    hide ProperItem, FitAll, InRow, Segmented, Closed, AllClosing, ItemElems;
    ItemsInRow(strict, items);
    RowAppend(ItemElems(items), end);
    RowIsSegmented(head, ItemElems(items) + end);
  }

  /** No number passes 64 bits, and no frame is too long for its lace. */
  predicate InRange(items: seq<Item>) {
    forall k :: 0 <= k < |items| && items[k].Cluster? ==>
      && items[k].time < TWO_TO_THE_64
      && forall j :: 0 <= j < |items[k].blocks| ==> BlockInRange(items[k].blocks[j])
  }

  predicate BlockInRange(r: BlockRec) {
    LaceInRange(r.block) && forall i :: 0 <= i < |r.sources| ==> IsTyped(r.sources[i])
  }

  predicate LaceInRange(b: Block) {
    b.mode == EbmlSizes ==> EbmlSizesFit(StatedSizes(b.frames))
  }

  lemma FiledIsReadable(c: Config, time: int, r: BlockRec)
    requires ValidConfig(c) && |c.tracks| < SIZE_LIMIT && Filed(c, time, r) && BlockInRange(r)
    ensures ReadableBlock(r)
  {
    hide EbmlSizesFit, StatedSizes, EqualSizes, SiblingsOf, IsTyped;
    assert c.tracks[r.sources[0].stream].number == r.block.track;
  }

  lemma SoundIsReadable(c: Config, s: State)
    requires ValidConfig(c) && |c.tracks| < SIZE_LIMIT && Sound(c, s) && InRange(s.items) && FitAll(ItemElems(s.items))
    ensures Readable(s.items)
  {
    hide FitAll, ItemElems, CuesTrue, Conserved, ClustersWithin, Chained, ProperItems, Filed, ReadableBlock,
      BlockInRange;
    forall k, j | 0 <= k < |s.items| && s.items[k].Cluster? && 0 <= j < |s.items[k].blocks|
      ensures ReadableBlock(s.items[k].blocks[j])
    {
      FiledIsReadable(c, s.items[k].time, s.items[k].blocks[j]);
    }
  }

  // ----- the file -----

  lemma DocumentReads(header: Elem, kids: seq<Elem>)
    requires FitAll([header, Open(SEGMENT, kids)]) && !header.Open? && header.id == EBML_HEADER
    ensures ReadDocument(SerAll([header, Open(SEGMENT, kids)])) == Some((Body(header), SerAll(kids)))
    ensures FitAll(kids) && Fits(header)
  {
    hide Ser, SerAll, Fits, TakeElement, DecodeHeader, Segmented, IdBytes, Body;
    TwoFit(header, Open(SEGMENT, kids));
    TwoBytes(header, Open(SEGMENT, kids));
    TakeBounded(header, Ser(Open(SEGMENT, kids)));
    SegmentBytes(kids);
    UnknownHeader(SEGMENT, SerAll(kids));
    OpenFits(SEGMENT, kids);
    var h := IdBytes(SEGMENT) + [0xFF];
    SegmentHeaderLength();
    assert (h + SerAll(kids))[|h|..] == SerAll(kids);
  }

  lemma SegmentHeaderLength()
    ensures |IdBytes(SEGMENT) + [0xFF]| == IdLength(SEGMENT) + 1
  {
  }

  /** No size in the finished file overflows its VINT. */
  predicate FinishedFits(l: Setup, s: State)
    requires ValidSetup(l)
  {
    InnerLength(s.cues, l.strict) < SIZE_LIMIT &&
    var f := Finished(l, s);
    FitAll(Document(l, f.patches, s.items, f.end))
  }

  /** The finished file. */
  function FinishedBytes(l: Setup, s: State): seq<byte>
    requires ValidSetup(l) && InnerLength(s.cues, l.strict) < SIZE_LIMIT
  {
    var f := Finished(l, s);
    FileBytes(l, [], f.patches, s.items, f.end)
  }

  /** Its bytes are the EBML header and the Segment's children. */
  lemma FinishedReads(l: Setup, s: State)
    requires ValidSetup(l) && Sound(ConfigOf(l), s) && FinishedFits(l, s)
    ensures var kids := Children(l, s, Finished(l, s));
            && ReadDocument(FinishedBytes(l, s)) == Some((Body(HeaderElem(l)), SerAll(kids)))
            && Segmented(kids) && FitAll(kids) && Fits(HeaderElem(l)) && FitAll(ItemElems(s.items))
  {
    hide Finished, InnerLength, ValidSetup, ConfigOf, Sound, SegmentHead, ItemElems, FileBytes, FitAll, HeaderElem,
      Segmented, ReadDocument, Fits, SerAll;
    var c, f := ConfigOf(l), Finished(l, s);
    var head := SegmentHead(l, f.patches);
    FinishedIsClosed(l, s);
    HeadIsClosed(l, f.patches);
    DocumentFits(HeaderElem(l), head, ItemElems(s.items), f.end);
    SoundIsProper(c, s);
    ChildrenAreSegmented(c.strict, head, s.items, f.end);
    HeaderIs(l);
    DocumentReads(HeaderElem(l), head + (ItemElems(s.items) + f.end));
    DocumentBytes(l, f.patches, s.items, f.end);
  }

  /** Its Blocks are those of the Clusters. */
  lemma FinishedBlocks(l: Setup, s: State)
    requires ValidSetup(l) && ValidConfig(ConfigOf(l)) && Sound(ConfigOf(l), s) && FinishedFits(l, s)
    requires InRange(s.items) && |l.streams| < SIZE_LIMIT
    ensures ReadFile(FinishedBytes(l, s)) == Some(AllStamps(s.items))
  {
    hide Finished, InnerLength, ValidSetup, ConfigOf, Sound, SegmentHead, ItemElems, FileBytes, FitAll, HeaderElem,
      Segmented, ReadDocument, ReadSegment, ReadClusters, Fits, SerAll, InRange, Readable, AllStamps, ValidConfig,
      Without, FinishedFits, FinishedBytes;
    FitsInner(l, s);
    var c, f := ConfigOf(l), Finished(l, s);
    FinishedReads(l, s);
    SegmentReads(Children(l, s, f));
    FinishedIsClusterFree(l, s);
    HeadWithout(l, f.patches, CLUSTER);
    TracksOf(l);
    SoundIsReadable(c, s);
    ChildrenReadBack(c, s, SegmentHead(l, f.patches), f.end);
  }

  lemma FitsInner(l: Setup, s: State)
    requires ValidSetup(l) && FinishedFits(l, s)
    ensures InnerLength(s.cues, l.strict) < SIZE_LIMIT
  {
  }

  /**
   * A reader of the finished file's bytes gets every accepted frame, in the order of the calls, out
   * of Blocks that carry the tracks, flags and times they were written with.
   */
  lemma FramesReadBack(l: Setup, calls: seq<Call>)
    requires ValidSetup(l)
    requires ValidConfig(ConfigOf(l)) && RunFrom(ConfigOf(l), calls).outcome != Halted && |l.streams| < SIZE_LIMIT
    requires InRange(FlushedState(l, calls).items) && FinishedFits(l, FlushedState(l, calls))
    ensures Inv(ConfigOf(l), Initial(ConfigOf(l)))
    ensures var c, s := ConfigOf(l), FlushedState(l, calls);
            var blocks := ReadFile(FinishedBytes(l, s));
            && blocks == Some(AllStamps(s.items))
            && FramesOf(blocks.value) == Datas(AcceptedFrames(c, Initial(c), calls))
  {
    hide InnerLength, ValidSetup, ConfigOf, Sound, Inv, AcceptedFrames, FramesOf, AllStamps, Written, Run, FlushAll,
      Initial, Datas, InRange, ReadFile, FinishedFits, FinishedBytes, ValidConfig;
    var c, s := ConfigOf(l), FlushedState(l, calls);
    InitialInv(c);
    TrailerLosesNothing(c, calls);
    FinishedBlocks(l, s);
    assert AllFiled(c, s.items) by { SoundFiled(c, s); }
    hide AllFiled;
    AllStampFrames(c, s.items);
  }

  lemma DocumentFits(header: Elem, head: seq<Elem>, es: seq<Elem>, end: seq<Elem>)
    requires FitAll([header, Open(SEGMENT, head + (es + end))])
    ensures FitAll(es)
  {
    TwoFit(header, Open(SEGMENT, head + (es + end)));
    OpenFits(SEGMENT, head + (es + end));
    hide FitAll;
    FitAppend(head, es + end);
    FitAppend(es, end);
  }

  lemma TracksOf(l: Setup)
    requires ValidSetup(l)
    ensures ConfigOf(l).tracks == l.streams
  {
    hide HeadLength;
  }

  lemma HeaderIs(l: Setup)
    ensures HeaderElem(l).id == EBML_HEADER && !HeaderElem(l).Open?
  {
    hide HeaderKids;
  }
}
