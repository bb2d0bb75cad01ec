/** Setters, header, packets, trailer, scan: the guarantees of a whole life of a muxer. */
module EndToEnd {
  import opened Wrappers
  import opened Bytes
  import opened Ebml
  import opened Ids
  import opened Elements
  import opened Voids
  import opened Scanner
  import opened Cues
  import opened FrontCues
  import opened Lacing
  import opened Muxer
  import opened MuxerLayout
  import opened MuxerCues
  import opened MuxerProfile
  import opened MuxerRun
  import opened MuxerFile
  import opened FilePatches
  import opened Trailer
  import opened Setters
  import opened StrictWebm

  /** A muxer as its setters left it. */
  function Configured(webm: bool, streams: seq<Stream>, setters: seq<Setter>): (l: Setup)
    requires ProperSetters(setters)
    ensures ValidSetup(l) && Guarded(l)
  {
    NewIsGuarded(webm, streams);
    ConfiguredIsGuarded(New(webm, streams), setters);
    Configure(New(webm, streams), setters)
  }

  lemma ConfigIsValid(l: Setup)
    requires ValidSetup(l)
    ensures ValidConfig(ConfigOf(l)) && ConfigOf(l).strict == l.strict
  {
    hide HeadLength;
  }

  lemma UnpatchedIsProper(l: Setup)
    requires ValidSetup(l)
    ensures ProperFront(l.strict, Unpatched(l))
  {
    hide Void, Proper;
    if l.front.Some? {
      VoidIsProper(l.strict, l.front.value);
      OneIsProper(l.strict, Void(l.front.value));
    }
  }

  /** The state a run of calls ends in, cut short or not. */
  ghost function StateAfter(l: Setup, calls: seq<Call>): (s: State)
    requires ValidSetup(l)
    ensures ValidConfig(ConfigOf(l)) && Sound(ConfigOf(l), s)
  {
    ConfigIsValid(l);
    RunFrom(ConfigOf(l), calls).state
  }

  lemma SoundIsProper(c: Config, s: State)
    requires Sound(c, s)
    ensures forall k :: 0 <= k < |s.items| ==> ProperItem(c.strict, s.items[k])
  {
    hide ProperItem;
  }

  /**
   * At every moment of every run from offset 0, trailer or no trailer, even where the SilentTracks
   * guard cuts it short: the scan finds no damage, and a muxer that is still strict has written a
   * conformant file if and only if no FourCC was queued.
   */
  lemma OutputScansClean(webm: bool, streams: seq<Stream>, setters: seq<Setter>, calls: seq<Call>)
    requires ProperSetters(setters)
    requires var l := Configured(webm, streams, setters);
             FitAll(Document(l, Unpatched(l), StateAfter(l, calls).items, []))
    ensures var l := Configured(webm, streams, setters);
            var report := ScanReport(FileBytes(l, [], Unpatched(l), StateAfter(l, calls).items, []));
            report.stoppedAt.None? && (l.strict ==> (IsConformant(report) <==> NoFourcc(l)))
  {
    hide Document, FileBytes, Guarded, ValidSetup, Sound, StateAfter, Configured, NoFourcc, ScanReport, IsConformant,
      ProperFront, ProperItem, Unpatched;
    var l := Configured(webm, streams, setters);
    var s := StateAfter(l, calls);
    ConfigIsValid(l);
    SoundIsProper(ConfigOf(l), s);
    UnpatchedIsProper(l);
    NoEnd(l.strict);
    FileScansClean(l, Unpatched(l), s.items, []);
  }

  lemma NoEnd(strict: bool)
    ensures ProperEnd(strict, [])
  {
  }

  /** The state that `write_trailer` works on: every lace flushed. */
  ghost function FlushedState(l: Setup, calls: seq<Call>): (s: State)
    requires ValidSetup(l) && ValidConfig(ConfigOf(l)) && RunFrom(ConfigOf(l), calls).outcome != Halted
    ensures Inv(ConfigOf(l), s) && Sound(ConfigOf(l), s)
  {
    var c := ConfigOf(l);
    FlushAllKeeps(c, RunFrom(c, calls).state);
    InvIsSound(c, FlushAll(c, RunFrom(c, calls).state));
    FlushAll(c, RunFrom(c, calls).state)
  }

  lemma FinishedIsProper(l: Setup, s: State)
    requires ValidSetup(l) && InnerLength(s.cues, l.strict) < SIZE_LIMIT
    ensures ProperFront(l.strict, Finished(l, s).patches) && ProperEnd(l.strict, Finished(l, s).end)
  {
    hide Proper, AllProper, SlotContent, OneShort, Cursor, VintWidth, Void, FrontAt, CuesElem, ConfigOf, SerAll;
    UnpatchedIsProper(l);
    NoEnd(l.strict);
    CuesAreProper(s.cues, l.strict, 0);
    OneIsProper(l.strict, CuesElem(s.cues, l.strict, 0));
    if l.front.Some? && s.cues != [] {
      SlotIsTiled(s.cues, l.strict, l.front.value);
      SlotIsProper(s.cues, l.strict, l.front.value);
    }
  }

  lemma SlotIsProper(cues: seq<CueRecord>, strict: bool, reserved: nat)
    requires InnerLength(cues, strict) < SIZE_LIMIT && reserved < TWO_TO_THE_32
    ensures SlotContent(cues, strict, reserved).Some? ==>
              && AllProper(strict, SlotContent(cues, strict, reserved).value)
              && forall i :: 0 <= i < |SlotContent(cues, strict, reserved).value| ==>
                   SlotContent(cues, strict, reserved).value[i].id != SEGMENT
  {
    hide Proper, SlotContent, OneShort, VintWidth, Void, CuesKids, SerAll;
    SlotIsTiled(cues, strict, reserved);
    var s := SlotContent(cues, strict, reserved);
    if s.Some? {
      var width := s.value[0].width;
      CuesAreProper(cues, strict, width);
      assert s.value[0] == CuesElem(cues, strict, width);
      if |s.value| == 2 {
        var n :| VoidSize(n) && s.value[1] == Void(n);
        VoidIsProper(strict, n);
      }
    }
  }

  /** The same after the trailer. */
  lemma FinishedOutputScansClean(webm: bool, streams: seq<Stream>, setters: seq<Setter>, calls: seq<Call>)
    requires ProperSetters(setters)
    requires var l := Configured(webm, streams, setters);
             && ValidConfig(ConfigOf(l)) && RunFrom(ConfigOf(l), calls).outcome != Halted
             && var s := FlushedState(l, calls);
                && InnerLength(s.cues, l.strict) < SIZE_LIMIT
                && var f := Finished(l, s);
                   FitAll(Document(l, f.patches, s.items, f.end))
    ensures var l := Configured(webm, streams, setters);
            var s := FlushedState(l, calls);
            var f := Finished(l, s);
            var report := ScanReport(FileBytes(l, [], f.patches, s.items, f.end));
            report.stoppedAt.None? && (l.strict ==> (IsConformant(report) <==> NoFourcc(l)))
  {
    hide Document, FileBytes, Guarded, ValidSetup, Sound, Inv, FlushedState, Configured, NoFourcc, ScanReport,
      IsConformant, ProperFront, ProperEnd, ProperItem, Finished, InnerLength;
    var l := Configured(webm, streams, setters);
    var s := FlushedState(l, calls);
    ConfigIsValid(l);
    SoundIsProper(ConfigOf(l), s);
    FinishedIsProper(l, s);
    var f := Finished(l, s);
    FileScansClean(l, f.patches, s.items, f.end);
  }

  // ----- cues, in the bytes of the finished file -----

  /** Seeking by a cue: a Cluster header at its offset, and at its relative position a Block of its track. */
  predicate SeeksTo(file: seq<byte>, dataStart: nat, cue: CueRecord) {
    var at := dataStart + cue.clusterOffset;
    && at + 5 + cue.relative <= |file|
    && DecodeHeader(file[at..]) == Success(Header(CLUSTER, UNKNOWN_SIZE, 5))
    && match DecodeHeader(file[at + 5 + cue.relative..])
       case Failure(_) => false
       case Success(h) =>
         && at + 5 + cue.relative + h.length + h.size <= |file|
         && var body := file[at + 5 + cue.relative + h.length..at + 5 + cue.relative + h.length + h.size];
            if h.id == SIMPLE_BLOCK then BlockOfTrack(body, cue.track)
            else h.id == BLOCK_GROUP && GroupOfTrack(body, cue.track)
  }

  predicate BlockOfTrack(body: seq<byte>, track: nat) {
    DecodeVint(body, false).Success? && DecodeVint(body, false).value.0 == track
  }

  /** The first child of the group is a Block of the track. */
  predicate GroupOfTrack(body: seq<byte>, track: nat) {
    match DecodeHeader(body)
    case Failure(_) => false
    case Success(h) => h.id == BLOCK && h.length <= |body| && BlockOfTrack(body[h.length..], track)
  }

  lemma SliceAt(a: seq<byte>, b: seq<byte>, c: seq<byte>)
    ensures (a + b + c)[|a|..|a| + |b|] == b
    ensures (a + b + c)[|a|..] == b + c
  {
  }

  lemma BlockBodyTrack(b: Block, rest: seq<byte>)
    requires b.track < SIZE_LIMIT
    ensures BlockOfTrack(BlockBody(b) + rest, b.track)
  {
    hide Vint, Lace, OffsetBytes, DecodeVint;
    var more := OffsetBytes(b.offset) + [FlagsByte(b.key, b.mode)] + Lace(b.mode, b.frames) + rest;
    assert BlockBody(b) + rest == Vint(b.track, 0) + more;
    VintRoundTrip(b.track, 0, more);
  }

  /** What a reader of the Block's element finds. */
  lemma BlockElemReads(r: BlockRec, rest: seq<byte>)
    requires Fits(BlockElem(r)) && r.block.track < SIZE_LIMIT
    ensures var e := BlockElem(r);
            && DecodeHeader(Ser(e) + rest) == Success(Header(e.id, |Body(e)|, |Head(e)|))
            && |Head(e)| + |Body(e)| == |Ser(e)| && (Ser(e) + rest)[|Head(e)|..|Ser(e)|] == Body(e)
            && (if r.siblings.None? then e.id == SIMPLE_BLOCK && BlockOfTrack(Body(e), r.block.track)
                else e.id == BLOCK_GROUP && GroupOfTrack(Body(e), r.block.track))
  {
    hide DecodeHeader, Head, Ser, Fits, BlockBody, BlockOfTrack;
    var e := BlockElem(r);
    SerIsHeadThenBody(e);
    FitsHead(e);
    BlockIsBounded(r);
    HeaderDecodes(e, Body(e) + rest);
    assert Ser(e) + rest == Head(e) + (Body(e) + rest);
    SliceAt(Head(e), Body(e), rest);
    BlockBodyTrack(r.block, []);
    assert BlockBody(r.block) + [] == BlockBody(r.block);
    if r.siblings.Some? {
      GroupReads(r);
    }
  }

  lemma BlockIsBounded(r: BlockRec)
    ensures !BlockElem(r).Open?
    ensures SizeField(BlockElem(r)) == |Body(BlockElem(r))|
  {
    hide BlockBody;
  }

  lemma GroupReads(r: BlockRec)
    requires Fits(BlockElem(r)) && r.block.track < SIZE_LIMIT && r.siblings.Some?
    ensures GroupOfTrack(Body(BlockElem(r)), r.block.track)
  {
    hide DecodeHeader, BlockBody, BlockOfTrack, Head, Ser, Fits;
    var block := Bin(BLOCK, BlockBody(r.block));
    var rest := SerAll(r.siblings.value);
    FitsKids(BLOCK_GROUP, [block] + r.siblings.value);
    SerAppend([block], r.siblings.value);
    SerOne(block);
    FitAppend([block], r.siblings.value);
    FitAt([block], 0);
    SerIsHeadThenBody(block);
    FitsHead(block);
    HeaderDecodes(block, Body(block) + rest);
    assert Ser(block) + rest == Head(block) + (Body(block) + rest);
    BlockBodyTrack(r.block, rest);
  }

  lemma FitsKids(id: nat, kids: seq<Elem>)
    requires Fits(Master(id, kids))
    ensures FitAll(kids)
  {
  }

  /** A Cluster's bytes around one of its Blocks. */
  lemma ClusterPieces(cl: Item, j: nat) returns (x: seq<byte>, z: seq<byte>)
    requires cl.Cluster? && j < |cl.blocks|
    ensures |x| == BlockAt(cl, j)
    ensures Ser(ItemElem(cl)) == (IdBytes(CLUSTER) + [0xFF]) + (x + (Ser(BlockElem(cl.blocks[j])) + z))
  {
    hide Ser, SerAll, BlockElem, IdBytes;
    var kids := cl.lead + BlockElems(cl.blocks);
    OpenBytes(kids);
    KidsTake(cl, j);
    SerSplit(kids, |cl.lead| + j);
    x, z := SerAll(kids[..|cl.lead| + j]), SerAll(kids[|cl.lead| + j + 1..]);
  }

  /** The items' bytes around one of them. */
  lemma ItemPieces(c: Config, items: seq<Item>, k: nat) returns (b: seq<byte>, after: seq<byte>)
    requires k < |items|
    ensures c.head + |b| == ItemAt(c, items, k)
    ensures ItemBytes(items) == b + (Ser(ItemElem(items[k])) + after)
  {
    hide Ser, SerAll, ItemElem;
    ItemsTake(items, k);
    SerSplit(ItemElems(items), k);
    b, after := SerAll(ItemElems(items)[..k]), SerAll(ItemElems(items)[k + 1..]);
  }

  /** The bytes from a Cluster on, and from one of its Blocks on. */
  lemma BytesFrom(l: Setup, base: seq<byte>, p: Patches, items: seq<Item>, end: seq<Elem>, k: nat, j: nat)
    returns (behind: seq<byte>, rest: seq<byte>)
    requires ValidSetup(l) && |SerAll(SegmentHead(l, p))| == HeadLength(l)
    requires k < |items| && items[k].Cluster? && j < |items[k].blocks|
    ensures var file := FileBytes(l, base, p, items, end);
            var at := |Opening(l, base)| + ItemAt(ConfigOf(l), items, k);
            && at + 5 + BlockAt(items[k], j) + |Ser(BlockElem(items[k].blocks[j]))| <= |file|
            && file[at..] == IdBytes(CLUSTER) + [0xFF] + behind
            && file[at + 5 + BlockAt(items[k], j)..] == Ser(BlockElem(items[k].blocks[j])) + rest
  {
    hide Ser, SerAll, SegmentHead, Opening, BlockElem, HeadLength, IdBytes, ItemBytes, ItemElem, BlockAt, ItemAt,
      ValidSetup;
    var x, z := ClusterPieces(items[k], j);
    var b, after := ItemPieces(ConfigOf(l), items, k);
    ClusterHeaderLength();
    var block := Ser(BlockElem(items[k].blocks[j]));
    behind := (x + (block + z)) + (after + SerAll(end));
    rest := z + (after + SerAll(end));
    Nested(Opening(l, base) + SerAll(SegmentHead(l, p)), b, IdBytes(CLUSTER) + [0xFF], x, block, z, after, SerAll(end));
  }

  /** Where the pieces of a nested concatenation begin. */
  lemma Nested(a: seq<byte>, b: seq<byte>, h: seq<byte>, x: seq<byte>, y: seq<byte>, z: seq<byte>, c: seq<byte>,
               d: seq<byte>)
    ensures var file := a + ((b + ((h + (x + (y + z))) + c)) + d);
            && |a| + |b| + |h| + |x| + |y| <= |file|
            && file[|a| + |b|..] == h + ((x + (y + z)) + (c + d))
            && file[|a| + |b| + |h| + |x|..] == y + (z + (c + d))
  {
    var file := a + ((b + ((h + (x + (y + z))) + c)) + d);
    var flat := a + b + (h + ((x + (y + z)) + (c + d)));
    assert file == flat;
    assert flat[|a + b|..] == h + ((x + (y + z)) + (c + d));
    var deep := (a + b + h + x) + (y + (z + (c + d)));
    assert flat == deep;
    assert deep[|a + b + h + x|..] == y + (z + (c + d));
  }

  lemma ClusterHeaderLength()
    ensures |IdBytes(CLUSTER) + [0xFF]| == 5
  {
  }

  lemma OpenBytes(kids: seq<Elem>)
    ensures Ser(Open(CLUSTER, kids)) == (IdBytes(CLUSTER) + [0xFF]) + SerAll(kids)
  {
    hide IdBytes;
  }

  lemma ItemsTake(items: seq<Item>, k: nat)
    requires k < |items|
    ensures ItemElems(items)[..k] == ItemElems(items[..k])
  {
    hide ItemElem;
  }

  lemma KidsTake(cl: Item, j: nat)
    requires cl.Cluster? && j < |cl.blocks|
    ensures var kids := cl.lead + BlockElems(cl.blocks);
            && kids[..|cl.lead| + j] == cl.lead + BlockElems(cl.blocks[..j])
            && kids[|cl.lead| + j] == BlockElem(cl.blocks[j])
  {
    hide BlockElem;
  }

  /** A cue that resolves in the items can be followed in the bytes of the file. */
  lemma ResolvedCueSeeks(l: Setup, base: seq<byte>, p: Patches, items: seq<Item>, end: seq<Elem>, cue: CueRecord,
                         k: nat)
    requires ValidSetup(l) && |SerAll(SegmentHead(l, p))| == HeadLength(l)
    requires Resolves(ConfigOf(l), items, cue, k) && cue.track < SIZE_LIMIT
    requires Fits(BlockElem(items[k].blocks[cue.block - 1]))
    ensures SeeksTo(FileBytes(l, base, p, items, end), |Opening(l, base)|, cue)
  {
    hide Ser, SerAll, SegmentHead, Opening, BlockElem, HeadLength, FileBytes, ItemAt, BlockAt, DecodeHeader, Fits,
      BlockOfTrack, GroupOfTrack, Head, Body, ValidSetup, IdBytes;
    var r := items[k].blocks[cue.block - 1];
    var behind, rest := BytesFrom(l, base, p, items, end, k, cue.block - 1);
    UnknownHeader(CLUSTER, behind);
    BlockElemReads(r, rest);
    ClusterHeaderLength();
    assert IdLength(CLUSTER) == 4;
    var file := FileBytes(l, base, p, items, end);
    var at := |Opening(l, base)| + cue.clusterOffset + 5 + cue.relative;
    TailSlice(file, at, |Head(BlockElem(r))|, |Ser(BlockElem(r))|);
  }

  lemma TailSlice(file: seq<byte>, at: nat, from: nat, to: nat)
    requires from <= to && at + to <= |file|
    ensures file[at..][from..to] == file[at + from..at + to]
  {
  }

  /** In the finished file every cue of the index leads to its Cluster and its Block. */
  lemma CuesSeekInFinishedFile(l: Setup, base: seq<byte>, calls: seq<Call>, n: nat)
    requires ValidSetup(l)
    requires ValidConfig(ConfigOf(l)) && RunFrom(ConfigOf(l), calls).outcome != Halted
    requires var s := FlushedState(l, calls);
             && n < |s.cues| && s.cues[n].track < SIZE_LIMIT
             && InnerLength(s.cues, l.strict) < SIZE_LIMIT
             && forall k, j :: 0 <= k < |s.items| && s.items[k].Cluster? && 0 <= j < |s.items[k].blocks| ==>
                  Fits(BlockElem(s.items[k].blocks[j]))
    ensures var s := FlushedState(l, calls);
            var f := Finished(l, s);
            SeeksTo(FileBytes(l, base, f.patches, s.items, f.end), |Opening(l, base)|, s.cues[n])
  {
    var s := FlushedState(l, calls);
    FinishedIsValid(l, s);
    assert CuesTrue(ConfigOf(l), s) by { SoundCues(ConfigOf(l), s); }
    assert Resolves(ConfigOf(l), s.items, s.cues[n], s.cueAt[n]);
    hide FlushedState, Resolves, FileBytes, Finished, ValidSetup, SeeksTo, BlockElem, Fits, InnerLength, Sound, Inv;
    ResolvedFits(ConfigOf(l), s.items, s.cues[n], s.cueAt[n]);
    var f := Finished(l, s);
    ResolvedCueSeeks(l, base, f.patches, s.items, f.end, s.cues[n], s.cueAt[n]);
  }

  lemma SoundCues(c: Config, s: State)
    requires Sound(c, s)
    ensures CuesTrue(c, s)
  {
  }

  lemma ResolvedFits(c: Config, items: seq<Item>, cue: CueRecord, k: nat)
    requires Resolves(c, items, cue, k)
    requires forall k, j :: 0 <= k < |items| && items[k].Cluster? && 0 <= j < |items[k].blocks| ==>
               Fits(BlockElem(items[k].blocks[j]))
    ensures k < |items| && items[k].Cluster? && 1 <= cue.block <= |items[k].blocks|
            && Fits(BlockElem(items[k].blocks[cue.block - 1]))
  {
    hide Fits, BlockElem;
  }
}
