/**
 * The steps of the muxer object, seen from the file: what each of them does to the bytes, when it
 * overflows nothing, and the relations between states that the object's methods ensure.
 */
module MuxerSteps {
  import opened Wrappers
  import opened Bytes
  import opened Ebml
  import opened Ids
  import opened Elements
  import opened Lacing
  import opened SeekHeads
  import opened Muxer
  import opened MuxerLayout
  import opened MuxerFrames
  import opened MuxerBudget
  import opened MuxerChain
  import opened MuxerProfile
  import opened MuxerRun
  import opened MuxerFile
  import opened FilePatches
  import opened Setters
  import opened HeaderWriter
  import opened BlockGroups

  // ----- what must not overflow -----

  /** The Block can be written: no size overflows its VINT. */
  predicate Encodable(r: BlockRec) {
    ValidBlock(r.block) && Fits(BlockElem(r))
  }

  predicate AllEncodable(items: seq<Item>) {
    forall k, j :: 0 <= k < |items| && items[k].Cluster? && 0 <= j < |items[k].blocks| ==> Encodable(items[k].blocks[j])
  }

  lemma EncodableBefore(c: Config, a: seq<Item>, b: seq<Item>)
    requires Extends(c, a, b) && AllEncodable(b)
    ensures AllEncodable(a)
  {
    hide Encodable, ItemAt;
    forall k, j | 0 <= k < |a| && a[k].Cluster? && 0 <= j < |a[k].blocks|
      ensures Encodable(a[k].blocks[j])
    {
      assert SameItem(a[k], b[k]);
      assert a[k].blocks[j] == b[k].blocks[j];
    }
  }

  lemma PutEncodable(items: seq<Item>, r: BlockRec)
    requires Last(items) && AllEncodable(Put(items, r))
    ensures Encodable(r)
  {
    hide Encodable;
    var more := Put(items, r);
    var n := |items| - 1;
    assert more[n].Cluster? && more[n].blocks[|items[n].blocks|] == r;
  }

  lemma ExtendsTrans(c: Config, x: seq<Item>, y: seq<Item>, z: seq<Item>)
    requires Extends(c, x, y) && Extends(c, y, z)
    ensures Extends(c, x, z)
  {
    hide ItemAt;
    forall k | 0 <= k < |x|
      ensures SameItem(x[k], z[k]) && ItemAt(c, x, k) == ItemAt(c, z, k)
    {
      assert SameItem(x[k], y[k]) && SameItem(y[k], z[k]);
    }
  }

  /** A Block's bytes go behind everything else. */
  lemma PutBytes(items: seq<Item>, r: BlockRec)
    requires Last(items)
    ensures ItemBytes(Put(items, r)) == ItemBytes(items) + Ser(BlockElem(r))
  {
    hide BlockElem, IdBytes, Ser;
    var n := |items| - 1;
    var init, cl := items[..n], items[n];
    var more := cl.(blocks := cl.blocks + [r]);
    assert items == init + [cl];
    hide ItemBytes, ItemElem;
    ItemBytesSnoc(init, cl);
    ItemBytesSnoc(init, more);
    ClusterGrows(cl, r);
    Assoc(ItemBytes(init), Ser(ItemElem(cl)), Ser(BlockElem(r)));
  }

  lemma ClusterGrows(cl: Item, r: BlockRec)
    requires cl.Cluster?
    ensures Ser(ItemElem(cl.(blocks := cl.blocks + [r]))) == Ser(ItemElem(cl)) + Ser(BlockElem(r))
  {
    hide BlockElem, IdBytes;
    var kids := cl.lead + BlockElems(cl.blocks);
    BlockElemsAppend(cl.blocks, [r]);
    assert BlockElems([r]) == [BlockElem(r)];
    assert cl.lead + BlockElems(cl.blocks + [r]) == kids + [BlockElem(r)];
    SerSnoc(kids, BlockElem(r));
    OpenIs(kids);
    OpenIs(kids + [BlockElem(r)]);
    hide Ser, SerAll;
    Assoc(IdBytes(CLUSTER) + [0xFF], SerAll(kids), Ser(BlockElem(r)));
  }

  lemma OpenIs(kids: seq<Elem>)
    ensures Ser(Open(CLUSTER, kids)) == (IdBytes(CLUSTER) + [0xFF]) + SerAll(kids)
  {
    hide IdBytes;
  }

  /** The absolute offsets that the header fixes and the run only reads. */
  datatype Layout = Layout(
    segmentDataStart: nat, seekHeadWritten: bool, seekCuesEntryOffset: nat, frontCuesSlotAbs: Option<nat>,
    durationPatchAbs: Option<nat>, infoCrcPayloadAbs: Option<nat>, durationPatchInBody: nat, infoBodyCache: seq<byte>)

  /** What they have to be. */
  function LayoutOf(l: Setup, base: seq<byte>): Layout
    requires ValidSetup(l)
  {
    Layout(|Opening(l, base)|, !l.live, if l.live then 0 else CuesEntryAt(l, base),
           if l.front.Some? then Some(SlotAt(l, base)) else None,
           if l.finalize then Some(DurationAt(l, base)) else None,
           if l.finalize && !l.strict then Some(InfoCrcAt(l, base)) else None,
           if l.finalize then |SerAll(InfoStart(l))| else 0,
           if l.finalize then SerAll(InfoKids(l, None)) else [])
  }

  /** Everything in front of the first Cluster. */
  function Prelude(l: Setup, base: seq<byte>): seq<byte>
    requires ValidSetup(l)
  {
    Opening(l, base) + SerAll(SegmentHead(l, Unpatched(l)))
  }

  lemma PreludeLength(l: Setup, base: seq<byte>)
    requires ValidSetup(l)
    ensures |Prelude(l, base)| == |Opening(l, base)| + HeadLength(l)
  {
    hide Opening, SegmentHead, HeadLength, SerAll;
    UnpatchedIsValid(l);
    HeadLayout(l, Unpatched(l));
  }

  lemma OutputGrows(prelude: seq<byte>, items: seq<Item>, r: BlockRec)
    requires Last(items)
    ensures prelude + ItemBytes(items) + Ser(BlockElem(r)) == prelude + ItemBytes(Put(items, r))
  {
    hide Ser, BlockElem, ItemBytes, Put;
    PutBytes(items, r);
    Assoc(prelude, ItemBytes(items), Ser(BlockElem(r)));
  }

  lemma EncodableSimple(r: BlockRec)
    requires Encodable(r) && r.siblings.None?
    ensures ValidBlock(r.block) && |BlockBody(r.block)| < SIZE_LIMIT && BlockElem(r) == SimpleBlock(r.block)
  {
    hide Laceable, BlockBody;
  }

  lemma InvReady(c: Config, s: State)
    requires Inv(c, s)
    ensures Ready(c, s) && OnlyOnePending(c, s) && Tracked(c, s) && s.prevAt == PrevAt(c, s.items, |s.items|)
  {
    hide OpenIsLast, FramesOk, Budgeted, Chained, ProperItems, Conserved, PrevAt;
  }

  // ----- the header on disk -----

  /** The run before the first packet: only the number of tracks matters. */
  function Empty(n: nat): State {
    State([], false, 0, 0, 0, 0, 0, None, seq(n, _ => LaceBuffer(0, false, [])), [], seq(n, _ => false),
          seq(n, _ => None), seq(n, _ => 0), None, [], [], [])
  }

  lemma EmptyIsInitial(l: Setup)
    requires ValidSetup(l)
    ensures Initial(ConfigOf(l)) == Empty(|l.streams|)
  {
    hide HeadLength, ValidSetup;
  }

  lemma SetKeepsStreams(l: Setup, s: Setter)
    requires Set(l, s).Some?
    ensures Set(l, s).value.streams == l.streams
  {
    if s.Hint? {
      QueuedKeepsStreams(l, PlaceOf(s.kind, s.stream), s.tree);
      hide Queued, PlaceExists;
    }
  }

  lemma {:induction false} QueuedKeepsStreams(l: Setup, place: HintPlace, tree: Elem)
    requires PlaceExists(l, place)
    ensures Queued(l, place, tree).streams == l.streams
  {
    hide ValidSetup;
    match place
    case InTrack(i) =>
    case InVideo(i) =>
    case _ =>
  }

  /** The length of the Info element's ID and size. */
  method InfoHeader(l: Setup, infoBody: seq<byte>) returns (n: nat)
    requires ValidSetup(l) && HeaderFits(l) && infoBody == SerAll(InfoKids(l, None))
    ensures n == InfoHeaderLength(l)
  {
    HeaderParts(l);
    hide HeaderFits, SerAll, InfoKids, IdBytes, Vint;
    var inner := |infoBody| + if l.strict then 0 else 6;
    var id := WriteElementId(INFO);
    var size := WriteVint(inner, 0);
    n := |id| + |size|;
  }

  lemma OpeningShift(l: Setup, base: seq<byte>)
    ensures Opening(l, base) == base + Opening(l, [])
  {
    hide Ser, HeaderElem, IdBytes;
    var h, t := Ser(HeaderElem(l)), IdBytes(SEGMENT) + [0xFF];
    Assoc(base, h, t);
    assert [] + h == h;
  }

  lemma LayoutMeasured(l: Setup, base: seq<byte>, o: Offsets, start: nat, infoHeader: nat, slot: nat,
                       infoBody: seq<byte>, y: Layout)
    requires ValidSetup(l) && Measured(l, o) && start == |Opening(l, [])|
    requires infoHeader == InfoHeaderLength(l) && slot == |SerAll(InfoStart(l))|
             && infoBody == SerAll(InfoKids(l, None))
    requires y == Layout(
      |base| + start, !l.live,
      if l.live then 0 else |base| + start + SEEK_HEAD_HEADER_LENGTH + 5 * SEEK_ENTRY_LENGTH,
      if l.front.Some? then Some(|base| + start + o.front) else None,
      if l.finalize then Some(|base| + start + o.info + infoHeader + (if l.strict then 0 else 6) + slot) else None,
      if l.finalize && !l.strict then Some(|base| + start + o.info + infoHeader + 2) else None,
      if l.finalize then slot else 0,
      if l.finalize then infoBody else [])
    ensures y == LayoutOf(l, base)
  {
    hide Opening, InfoAt, TracksAt, ChaptersAt, AttachmentsAt, TagsAt, FrontAt, InfoHeaderLength, SerAll, InfoStart,
      InfoKids, ValidSetup;
    OpeningShift(l, base);
  }

  predicate IsHeader(l: Setup, all: seq<byte>) {
    ValidSetup(l) && all == Opening(l, []) + SerAll(SegmentHead(l, Unpatched(l)))
  }

  predicate IsFile(l: Setup, base: seq<byte>, p: Patches, items: seq<Item>, end: seq<Elem>, output: seq<byte>) {
    ValidSetup(l) && output == FileBytes(l, base, p, items, end)
  }

  /** The header's bytes, and the offsets that the trailer will need, for a file with `basePos` bytes before it. */
  method LayOut(l: Setup, ghost base: seq<byte>, basePos: nat)
    returns (all: seq<byte>, y: Layout, c: Config)
    requires ValidSetup(l) && HeaderFits(l) && basePos == |base|
    ensures IsHeader(l, all) && y == LayoutOf(l, base) && c == ConfigOf(l)
  {
    hide ValidSetup, HeaderFits, SerAll, SegmentHead, InfoKids, InfoStart, Opening, LayoutOf, Measured,
      InfoHeaderLength;
    var start, seekHeadStart, o, infoBody, slot;
    all, start, seekHeadStart, o, infoBody, slot := BuildHeader(l);
    var infoHeader := InfoHeader(l, infoBody);
    var segmentDataStart := basePos + start;
    var bodyStart := segmentDataStart + o.info + infoHeader;
    y := Layout(
      segmentDataStart, !l.live,
      if l.live then 0 else basePos + seekHeadStart + SEEK_HEAD_HEADER_LENGTH + 5 * SEEK_ENTRY_LENGTH,
      if l.front.Some? then Some(segmentDataStart + o.front) else None,
      if l.finalize then Some(bodyStart + (if l.strict then 0 else 6) + slot) else None,
      if l.finalize && !l.strict then Some(bodyStart + 2) else None,
      if l.finalize then slot else 0,
      if l.finalize then infoBody else []);
    LayoutMeasured(l, base, o, start, infoHeader, slot, infoBody, y);
    c := ConfigOf(l);
  }

  /** The header is on disk, the offsets are right, and of the run only the silent tracks may be set. */
  predicate IsStart(l: Setup, base: seq<byte>, output: seq<byte>, y: Layout, c: Config, s: State) {
    && ValidSetup(l) && c == ConfigOf(l) && y == LayoutOf(l, base)
    && FileIs(l, base, output, s) && Inv(c, s) && s == Initial(c).(silent := s.silent)
  }

  lemma FirstState(l: Setup, base: seq<byte>, all: seq<byte>, y: Layout, c: Config, s: State)
    requires IsHeader(l, all) && y == LayoutOf(l, base) && c == ConfigOf(l) && s.(silent := []) == Empty(|l.streams|)
    ensures IsStart(l, base, base + all, y, c, s)
  {
    hide Inv, FileIs, IsFile, Initial, ConfigOf, LayoutOf, Unpatched;
    HeaderOnDisk(l, base, all);
    EmptyIsInitial(l);
    InitialInv(c);
    SilenceOnly(s, Initial(c));
    SameFile(l, base, base + all, Initial(c), s);
    UnrelatedFields(c, Initial(c), s);
  }

  lemma SilenceOnly(s: State, t: State)
    requires s.(silent := []) == t
    ensures s == t.(silent := s.silent) && t == t.(silent := []) && s.items == t.items && s.streamPts == t.streamPts
    ensures s == t.(streamPts := s.streamPts, maxEnd := s.maxEnd, silent := s.silent)
  {
  }

  lemma HeaderOnDisk(l: Setup, base: seq<byte>, all: seq<byte>)
    requires IsHeader(l, all)
    ensures FileIs(l, base, base + all, Empty(|l.streams|))
  {
    NoItems();
    hide Opening, SegmentHead, SerAll, ValidSetup, ItemBytes;
    OpeningShift(l, base);
    Assoc(base, Opening(l, []), SerAll(SegmentHead(l, Unpatched(l))));
    assert Prelude(l, base) + [] == Prelude(l, base);
  }

  lemma NoItems()
    ensures ItemBytes([]) == [] && SerAll([]) == []
  {
  }

  // ----- the steps of the state machine, as relations that are always defined -----

  predicate IsCued(c: Config, s: State, i: nat, ms: int, duration: Option<nat>, t: State) {
    Ready(c, s) && s.open && i < |c.tracks| && t == AddCue(c, s, i, ms, duration)
  }

  predicate IsBlockWritten(s: State, r: BlockRec, t: State) {
    Last(s.items) && t == WriteBlock(s, r)
  }

  predicate IsFlushed(c: Config, s: State, i: nat, t: State) {
    Ready(c, s) && i < |c.tracks| && t == FlushLace(c, s, i)
  }

  predicate IsAllFlushed(c: Config, s: State, t: State) {
    Ready(c, s) && t == FlushAll(c, s)
  }

  predicate IsFlushedFrom(c: Config, s: State, i: nat, keep: Option<nat>, t: State) {
    Ready(c, s) && i <= |c.tracks| && t == FlushFrom(c, s, i, keep)
  }

  /** Flushing the lace of track `i` overflows no size. */
  predicate CanFlush(c: Config, s: State, i: nat) {
    i < |c.tracks| && i < |s.laces| && (s.laces[i].frames != [] ==> Encodable(LaceBlock(c, i, s.laces[i])))
  }

  /** What is in the file while the run goes on: the prelude and the items. */
  predicate FileIs(l: Setup, base: seq<byte>, output: seq<byte>, s: State) {
    ValidSetup(l) && output == Prelude(l, base) + ItemBytes(s.items)
  }

  lemma CursorHere(l: Setup, base: seq<byte>, output: seq<byte>, s: State)
    requires FileIs(l, base, output, s)
    ensures |output| == |Opening(l, base)| + Cursor(ConfigOf(l), s)
  {
    hide Opening, SegmentHead, HeadLength, ItemBytes, SerAll, Prelude, ValidSetup;
    PreludeLength(l, base);
  }

  lemma BlockGoesToDisk(l: Setup, base: seq<byte>, output: seq<byte>, s: State, r: BlockRec)
    requires FileIs(l, base, output, s) && Last(s.items)
    ensures FileIs(l, base, output + Ser(BlockElem(r)), WriteBlock(s, r))
  {
    hide Prelude, ItemBytes, Put, BlockElem, Ser, ValidSetup;
    OutputGrows(Prelude(l, base), s.items, r);
  }

  // ----- encodability, step by step -----

  lemma {:induction false} FlushFromExtends(c: Config, s: State, i: nat, keep: Option<nat>)
    requires Inv(c, s) && Ready(c, s) && i <= |c.tracks|
    ensures Extends(c, s.items, FlushFrom(c, s, i, keep).items)
    decreases |c.tracks| - i
  {
    hide Inv, Extends, FlushLace;
    ExtendsSelf(c, s.items);
    if i < |c.tracks| {
      InvReady(c, s);
      var t := if keep == Some(i) then s else FlushLace(c, s, i);
      if keep != Some(i) {
        FlushLaceKeeps(c, s, i);
        FlushLaceTracks(c, s, i);
      }
      InvReady(c, t);
      FlushFromExtends(c, t, i + 1, keep);
      ExtendsTrans(c, s.items, t.items, FlushFrom(c, t, i + 1, keep).items);
    }
  }

  /** If everything that a flush leads to is encodable, so is the flushed Block. */
  lemma FlushEncodable(c: Config, s: State, i: nat, later: seq<Item>)
    requires Inv(c, s) && Ready(c, s) && i < |c.tracks|
    requires Extends(c, FlushLace(c, s, i).items, later) && AllEncodable(later)
    ensures CanFlush(c, s, i)
  {
    hide Inv, Extends, FlushLace, AllEncodable, LaceBlock, Put, Encodable;
    EncodableBefore(c, FlushLace(c, s, i).items, later);
    if s.laces[i].frames != [] {
      FlushLaceItems(c, s, i);
      PutEncodable(s.items, LaceBlock(c, i, s.laces[i]));
    }
  }

  /** One step of a flush of several laces. */
  lemma FlushNext(c: Config, s: State, i: nat, keep: Option<nat>, t: State)
    requires Inv(c, s) && i < |c.tracks| && IsFlushedFrom(c, s, i, keep, t) && AllEncodable(t.items)
    ensures keep == Some(i) ==> IsFlushedFrom(c, s, i + 1, keep, t)
    ensures keep != Some(i) ==> CanFlush(c, s, i) && IsFlushedFrom(c, FlushLace(c, s, i), i + 1, keep, t)
  {
    hide Inv, Extends, FlushLace, AllEncodable;
    InvReady(c, s);
    if keep != Some(i) {
      var u := FlushLace(c, s, i);
      FlushLaceKeeps(c, s, i);
      InvReady(c, u);
      FlushFromExtends(c, u, i + 1, keep);
      FlushEncodable(c, s, i, t.items);
    }
  }

  // ----- a Cluster's first bytes -----

  lemma UintWraps(id: nat, v: int)
    ensures Uint(id, U64(v)) == Uint(id, v)
  {
    hide UintBytes;
  }

  /** Timestamp and hints, in the order they are written. */
  method BuildLead(c: Config, ms: int, at: nat, prev: Option<nat>) returns (out: seq<byte>)
    ensures out == SerAll(Lead(c, ms, at, prev))
  {
    hide Ser, SerAll, Uint;
    UintWraps(TIMECODE, NonNegative(ms));
    var time := Uint(TIMECODE, NonNegative(ms));
    out := WriteUintElement([], TIMECODE, U64(NonNegative(ms)));
    SerOne(time);
    ghost var done := [time];
    if c.hints {
      if !c.strict {
        var pos := if c.live then 0 else at;
        UintWraps(POSITION, pos);
        SerSnoc(done, Uint(POSITION, pos));
        out := WriteUintElement(out, POSITION, U64(pos));
        done := done + [Uint(POSITION, pos)];
      }
      if prev.Some? {
        var size := if at > prev.value then at - prev.value else 0;
        UintWraps(PREV_SIZE, size);
        SerSnoc(done, Uint(PREV_SIZE, size));
        out := WriteUintElement(out, PREV_SIZE, U64(size));
        done := done + [Uint(PREV_SIZE, size)];
      }
    }
    assert done == Lead(c, ms, at, prev);
  }

  lemma {:induction false} SilentAppend(a: seq<nat>, b: seq<nat>)
    ensures SilentElems(a + b) == SilentElems(a) + SilentElems(b)
  {
    hide Uint;
    if a == [] {
      assert a + b == b;
    } else {
      assert (a + b)[1..] == a[1..] + b;
      SilentAppend(a[1..], b);
    }
  }

  lemma SilentSnoc(numbers: seq<nat>, i: nat)
    requires i < |numbers|
    ensures SilentElems(numbers[..i + 1]) == SilentElems(numbers[..i]) + [Uint(SILENT_TRACK_NUMBER, numbers[i])]
  {
    hide Uint;
    assert numbers[..i + 1] == numbers[..i] + [numbers[i]];
    SilentAppend(numbers[..i], [numbers[i]]);
    assert [numbers[i]][1..] == [];
  }

  lemma NoSilence()
    ensures SerAll(SilentElems([])) == []
  {
  }

  method BuildSilentTracks(numbers: seq<nat>) returns (out: seq<byte>)
    requires |SerAll(SilentElems(numbers))| < SIZE_LIMIT
    ensures out == Ser(Master(SILENT_TRACKS, SilentElems(numbers)))
  {
    hide Ser, SerAll, Uint, SilentElems;
    var body: seq<byte> := [];
    NoSilence();
    for i := 0 to |numbers|
      invariant body == SerAll(SilentElems(numbers[..i]))
    {
      SilentSnoc(numbers, i);
      UintWraps(SILENT_TRACK_NUMBER, numbers[i]);
      SerSnoc(SilentElems(numbers[..i]), Uint(SILENT_TRACK_NUMBER, numbers[i]));
      body := WriteUintElement(body, SILENT_TRACK_NUMBER, U64(numbers[i]));
    }
    assert numbers[..|numbers|] == numbers;
    out := WriteMasterElement([], SILENT_TRACKS, body, SilentElems(numbers));
    assert [] + Ser(Master(SILENT_TRACKS, SilentElems(numbers))) == Ser(Master(SILENT_TRACKS, SilentElems(numbers)));
  }

  /** A Cluster without Blocks behind everything else. */
  lemma ClusterGoesToDisk(l: Setup, base: seq<byte>, output: seq<byte>, s: State, t: State, time: nat, lead: seq<Elem>)
    requires FileIs(l, base, output, s) && t.items == s.items + [Cluster(time, lead, [])]
    ensures FileIs(l, base, output + ((IdBytes(CLUSTER) + [0xFF]) + SerAll(lead)), t)
  {
    hide Prelude, Ser, SerAll, ValidSetup, IdBytes;
    var cl := Cluster(time, lead, []);
    assert lead + BlockElems([]) == lead;
    OpenIs(lead);
    hide ItemBytes;
    ItemBytesSnoc(s.items, cl);
    Assoc(Prelude(l, base), ItemBytes(s.items), Ser(ItemElem(cl)));
  }

  lemma FixedGoesToDisk(l: Setup, base: seq<byte>, output: seq<byte>, s: State, t: State, e: Elem)
    requires FileIs(l, base, output, s) && t.items == s.items + [Fixed(e)]
    ensures FileIs(l, base, output + Ser(e), t)
  {
    hide Prelude, Ser, SerAll, ValidSetup, IdBytes, ItemBytes;
    ItemBytesSnoc(s.items, Fixed(e));
    Assoc(Prelude(l, base), ItemBytes(s.items), Ser(e));
  }

  predicate IsStarted(c: Config, s: State, ms: int, t: State) {
    Ready(c, s) && NothingPending(s) && t == StartCluster(c, s, ms)
  }

  predicate IsAppended(c: Config, s: State, i: nat, offset: int, f: Frame, t: State) {
    Ready(c, s) && s.open && i < |c.tracks| && t == AppendToLace(c, s, i, offset, f)
  }

  predicate IsPlaced(c: Config, s: State, f: Frame, t: State) {
    Ready(c, s) && s.open && f.stream < |c.tracks| && t == Place(c, s, f)
  }

  // ----- one packet -----

  /** Placing the packet overflows nothing. */
  predicate CanPlace(c: Config, s: State, f: Frame) {
    && Ready(c, s) && s.open && f.stream < |c.tracks|
    && AllEncodable(Muxer.Place(c, s, f).items)
  }

  lemma PlaceEncodable(c: Config, s: State, f: Frame)
    requires Inv(c, s) && CanPlace(c, s, f)
    ensures if f.group.None? && c.mode != NoLacing then MustFlush(c, s.laces[f.stream], f) ==> CanFlush(c, s, f.stream)
            else Encodable(UnlacedBlock(c, s, f))
  {
    hide Inv, AllEncodable, FlushLace, UnlacedBlock, Put, Encodable, LaceBlock, CanFlush, Extends;
    PlaceItems(c, s, f);
    if f.group.None? && c.mode != NoLacing {
      if MustFlush(c, s.laces[f.stream], f) {
        ExtendsSelf(c, FlushLace(c, s, f.stream).items);
        FlushEncodable(c, s, f.stream, FlushLace(c, s, f.stream).items);
      }
    } else {
      PutEncodable(s.items, UnlacedBlock(c, s, f));
    }
  }

  lemma EncodableGroup(r: BlockRec)
    requires Encodable(r) && r.siblings.Some?
    ensures ValidBlock(r.block)
    ensures Fits(Master(BLOCK_GROUP, [Bin(BLOCK, BlockBody(r.block))] + r.siblings.value))
    ensures BlockElem(r) == Master(BLOCK_GROUP, [Bin(BLOCK, BlockBody(r.block))] + r.siblings.value)
  {
    hide Laceable, BlockBody, Fits;
  }

  predicate IsWritten(c: Config, s: State, p: Packet, wrap: Wrap, outcome: Outcome, t: State) {
    Ready(c, s) && OnlyOnePending(c, s) && WritePacket(c, s, p, wrap) == Step(t, outcome)
  }

  /** Writing the packet overflows nothing: neither its own Block nor a lace that it pushes out. */
  predicate CanWrite(c: Config, s: State, p: Packet, wrap: Wrap) {
    && Ready(c, s) && OnlyOnePending(c, s)
    && AllEncodable(WritePacket(c, s, p, wrap).state.items)
    && |SerAll(SilentElems(s.silent))| < SIZE_LIMIT
    && (Admitted(c, p, wrap) && p.stream < |c.tracks| ==> IsTyped(FrameOf(c, s, p, Admit(c, p.stream, wrap).value)))
  }

  /** The states a packet goes through on its way. */
  function SettledState(c: Config, s: State, p: Packet, group: Option<GroupOptions>): (t: State)
    requires Ready(c, s) && p.stream < |c.tracks|
    ensures Ready(c, t)
  {
    Settled(c, Timed(c, s, p), p, group)
  }

  /** From the settled state on: what the rest of the step makes of it. */
  predicate GoesOn(c: Config, u: State, f: Frame, r: Step) {
    Ready(c, u) && f.stream < |c.tracks| &&
    if NeedsCluster(c, u, f.ms) then
      var ended := EndLace(c, u, f.stream);
      NothingPending(ended) &&
      (if SilentBlocked(c, ended) then r == Step(Aborted(c, ended, f.ms), Halted)
       else r == Muxer.Placed(c, StartCluster(c, ended, f.ms), f))
    else r == Muxer.Placed(c, u, f)
  }

  lemma PacketGoesOn(c: Config, s: State, p: Packet, wrap: Wrap)
    requires Inv(c, s) && Ready(c, s) && OnlyOnePending(c, s) && Admitted(c, p, wrap) && p.stream < |c.tracks|
    ensures var group := Admit(c, p.stream, wrap).value;
            GoesOn(c, SettledState(c, s, p, group), FrameOf(c, s, p, group), WritePacket(c, s, p, wrap))
  {
    hide Inv, Admit, Timed, Settled, EndLace, StartCluster, Aborted, PtsToMs, EffectivePts;
    var group := Admit(c, p.stream, wrap).value;
    SettledKeeps(c, s, p, group);
  }

  /** What is placed into a Cluster was already in it, or is the packet's own Block. */
  lemma PlacedExtends(c: Config, u: State, f: Frame)
    requires Inv(c, u) && Ready(c, u) && u.open && f.stream < |c.tracks|
    ensures Extends(c, u.items, Muxer.Placed(c, u, f).state.items)
  {
    hide Inv, Extends, Muxer.Place;
    InvReady(c, u);
    ExtendsSelf(c, u.items);
    PlaceTracks(c, u, f);
  }

  lemma AbortedExtends(c: Config, u: State, ms: int)
    ensures Extends(c, u.items, Aborted(c, u, ms).items)
  {
    hide Extends, Lead;
    SnocExtends(c, u.items, Cluster(NonNegative(ms), Lead(c, ms, Cursor(c, u), u.prevAt), []));
  }

  /** Everything on the way is encodable if the end is. */
  lemma OnTheWay(c: Config, u: State, f: Frame, r: Step)
    requires Inv(c, u) && GoesOn(c, u, f, r) && AllEncodable(r.state.items)
    ensures AllEncodable(u.items)
    ensures NeedsCluster(c, u, f.ms) ==> c.mode == NoLacing || CanFlush(c, u, f.stream)
  {
    hide Inv, Extends, FlushLace, AllEncodable, CanFlush, StartCluster, Aborted, Muxer.Placed, SilentBlocked;
    InvReady(c, u);
    if NeedsCluster(c, u, f.ms) {
      var ended := EndLace(c, u, f.stream);
      ExtendsSelf(c, u.items);
      if c.mode != NoLacing {
        FlushLaceKeeps(c, u, f.stream);
        FlushLaceTracks(c, u, f.stream);
      }
      if SilentBlocked(c, ended) {
        AbortedExtends(c, ended, f.ms);
      } else {
        StartClusterKeeps(c, ended, f.ms);
        StartClusterTracks(c, ended, f.ms);
        var started := StartCluster(c, ended, f.ms);
        PlacedExtends(c, started, f);
        ExtendsTrans(c, ended.items, started.items, r.state.items);
      }
      ExtendsTrans(c, u.items, ended.items, r.state.items);
      if c.mode != NoLacing {
        FlushEncodable(c, u, f.stream, r.state.items);
      }
    } else {
      OpenUnlessNeeded(c, u, f.ms);
      PlacedExtends(c, u, f);
    }
    EncodableBefore(c, u.items, r.state.items);
  }

  lemma EndLaceOthers(c: Config, s: State, i: nat)
    requires Ready(c, s) && i < |c.tracks|
    ensures EndLace(c, s, i).lastPts == s.lastPts && EndLace(c, s, i).silent == s.silent
  {
    FlushLaceOthers(c, s, i);
    hide FlushLace;
  }

  lemma StartClusterOthers(c: Config, s: State, ms: int)
    requires Ready(c, s) && NothingPending(s)
    ensures StartCluster(c, s, ms).lastPts == s.lastPts && StartCluster(c, s, ms).open
  {
    hide FullLead, Cursor;
  }

  lemma {:induction false} FlushFromOthers(c: Config, s: State, i: nat, keep: Option<nat>)
    requires Ready(c, s) && i <= |c.tracks|
    ensures FlushFrom(c, s, i, keep).lastPts == s.lastPts && FlushFrom(c, s, i, keep).silent == s.silent
    decreases |c.tracks| - i
  {
    hide FlushLace;
    if i < |c.tracks| {
      if keep != Some(i) {
        FlushLaceOthers(c, s, i);
      }
      FlushFromOthers(c, if keep == Some(i) then s else FlushLace(c, s, i), i + 1, keep);
    }
  }

  lemma SettledOthers(c: Config, s: State, p: Packet, group: Option<GroupOptions>)
    requires Ready(c, s) && p.stream < |c.tracks|
    ensures SettledState(c, s, p, group).lastPts == s.lastPts && SettledState(c, s, p, group).silent == s.silent
  {
    hide FlushFrom, PtsToMs;
    FlushFromOthers(c, Timed(c, s, p), 0, if group.Some? then None else Some(p.stream));
  }

  /** Everything that the steps of an admitted packet ask for. */
  predicate IsOnTheWay(c: Config, s: State, p: Packet, f: Frame, r: Step) {
    Ready(c, s) && f.stream == p.stream < |c.tracks| &&
    var u := SettledState(c, s, p, OptionsOf(f));
    && GoesOn(c, u, f, r) && AllEncodable(r.state.items) && AllEncodable(u.items)
    && (NeedsCluster(c, u, f.ms) ==> c.mode == NoLacing || CanFlush(c, u, p.stream))
    && IsTyped(f) && |SerAll(SilentElems(u.silent))| < SIZE_LIMIT
  }

  lemma PacketOnTheWay(c: Config, s: State, p: Packet, wrap: Wrap)
    requires Inv(c, s) && Ready(c, s) && Admitted(c, p, wrap) && CanWrite(c, s, p, wrap) && p.stream < |c.tracks|
    ensures IsOnTheWay(c, s, p, FrameOf(c, s, p, Admit(c, p.stream, wrap).value), WritePacket(c, s, p, wrap))
  {
    hide Inv, Admit, AllEncodable, WritePacket, Typed, SerAll, SilentElems, GoesOn, NeedsCluster, CanFlush,
      SettledState, PtsToMs, ReferencesOf, DurationMs;
    var group := Admit(c, p.stream, wrap).value;
    var f := FrameOf(c, s, p, group);
    SettledKeeps(c, s, p, group);
    PacketGoesOn(c, s, p, wrap);
    var u := SettledState(c, s, p, group);
    assert Inv(c, u) by { SettledInv(c, s, p, group); }
    OnTheWay(c, u, f, WritePacket(c, s, p, wrap));
    SettledOthers(c, s, p, group);
  }

  lemma SettledInv(c: Config, s: State, p: Packet, group: Option<GroupOptions>)
    requires Inv(c, s) && Ready(c, s) && p.stream < |c.tracks|
    ensures Inv(c, SettledState(c, s, p, group))
  {
    hide Inv, Settled, Timed;
    SettledKeeps(c, s, p, group);
  }

  predicate IsUnlaced(c: Config, s: State, f: Frame, t: State) {
    Ready(c, s) && s.open && f.stream < |c.tracks|
      && t == WriteBlock(CueFor(c, s, f), UnlacedBlock(c, s, f))
  }

  predicate IsTimed(c: Config, s: State, p: Packet, t: State) {
    Ready(c, s) && p.stream < |c.tracks| && t == Timed(c, s, p)
  }

  lemma TimedIs(c: Config, s: State, p: Packet, t: State)
    requires Ready(c, s) && p.stream < |c.tracks| && |t.streamPts| == |s.streamPts|
    requires t == s.(streamPts := t.streamPts, maxEnd := t.maxEnd)
    requires var eff, ticks := EffectivePts(s, p), Ticks(p, c.tracks[p.stream]);
             t.streamPts == if ticks.Some? then s.streamPts[p.stream := eff + ticks.value]
                            else if p.pts.Some? then s.streamPts[p.stream := eff] else s.streamPts
    requires var d := DurationMs(p, c.tracks[p.stream]);
             var end := SaturatingAdd(PtsToMs(EffectivePts(s, p), c.tracks[p.stream]), if d.Some? then d.value else 0);
             t.maxEnd == if s.maxEnd.Some? && end <= s.maxEnd.value then s.maxEnd else Some(end)
    ensures IsTimed(c, s, p, t)
  {
    hide PtsToMs, SaturatingAdd, Ticks, DurationMs, EffectivePts;
    assert s.streamPts[p.stream := s.streamPts[p.stream]] == s.streamPts;
  }

  predicate IsSettled(c: Config, s: State, p: Packet, group: Option<GroupOptions>, t: State) {
    Ready(c, s) && p.stream < |c.tracks| && t == Settled(c, s, p, group)
  }

  predicate IsLaceEnded(c: Config, s: State, i: nat, t: State) {
    Ready(c, s) && i < |c.tracks| && t == EndLace(c, s, i)
  }

  lemma OpenUnlessNeeded(c: Config, u: State, ms: int)
    requires !NeedsCluster(c, u, ms)
    ensures u.open
  {
  }

  /** A SimpleBlock or a BlockGroup of one frame. */
  method BuildUnlaced(r: BlockRec, f: Frame) returns (out: seq<byte>)
    requires Encodable(r) && r.block.mode == NoLacing && |r.block.frames| == 1
    requires r.siblings == SiblingsOf(f)
    requires (f.group.Some? ==> !r.block.key) && IsTyped(f)
    ensures out == Ser(BlockElem(r))
  {
    hide Ser, Fits, Siblings, Typed, BlockBody, Laceable, BlockElem, Encodable;
    match f.group {
      case None =>
        EncodableSimple(r);
        out := BuildSimpleBlock(r.block);
      case Some(g) =>
        EncodableGroup(r);
        out := BuildBlockGroup(r.block, g.options, g.references, f.length);
    }
  }

  lemma FlushDone(c: Config, s: State, keep: Option<nat>)
    requires Ready(c, s)
    ensures FlushFrom(c, s, |c.tracks|, keep) == s
  {
  }

  lemma ClusterHeader()
    ensures |IdBytes(CLUSTER) + [0xFF]| == 5
  {
  }

  lemma LeadIsFull(c: Config, s: State, ms: int)
    ensures FullLead(c, s, ms)
         == Lead(c, ms, Cursor(c, s), s.prevAt) + if s.silent == [] then []
           else [Master(SILENT_TRACKS, SilentElems(s.silent))]
  {
  }

  lemma SameFile(l: Setup, base: seq<byte>, output: seq<byte>, s: State, t: State)
    requires FileIs(l, base, output, s) && t.items == s.items
    ensures FileIs(l, base, output, t)
  {
  }

  lemma LayoutStart(l: Setup, base: seq<byte>)
    requires ValidSetup(l)
    ensures LayoutOf(l, base).segmentDataStart == |Opening(l, base)|
  {
  }
}
