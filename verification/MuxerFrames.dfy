/** No frame is lost, invented or reordered, and every Block has the time of its first frame. */
module MuxerFrames {
  import opened Wrappers
  import opened Elements
  import opened Lacing
  import opened Muxer
  import opened MuxerLayout

  function BlockSources(rs: seq<BlockRec>): seq<Frame> {
    if rs == [] then [] else rs[0].sources + BlockSources(rs[1..])
  }

  /** The packets of all Blocks, in file order. */
  function Written(items: seq<Item>): seq<Frame> {
    if items == [] then []
    else (if items[0].Cluster? then BlockSources(items[0].blocks) else []) + Written(items[1..])
  }

  function Pending(laces: seq<LaceBuffer>): seq<Frame> {
    if laces == [] then [] else laces[0].frames + Pending(laces[1..])
  }

  /** What was accepted is on disk, in order, but for the end of it, which is in the lace buffer. */
  predicate Conserved(s: State) {
    s.accepted == Written(s.items) + Pending(s.laces)
  }

  lemma {:induction false} BlockSourcesAppend(a: seq<BlockRec>, b: seq<BlockRec>)
    ensures BlockSources(a + b) == BlockSources(a) + BlockSources(b)
  {
    if a == [] {
      assert a + b == b;
    } else {
      assert (a + b)[1..] == a[1..] + b;
      BlockSourcesAppend(a[1..], b);
    }
  }

  lemma {:induction false} WrittenAppend(a: seq<Item>, b: seq<Item>)
    ensures Written(a + b) == Written(a) + Written(b)
  {
    if a == [] {
      assert a + b == b;
    } else {
      assert (a + b)[1..] == a[1..] + b;
      WrittenAppend(a[1..], b);
    }
  }

  lemma {:induction false} WrittenOne(item: Item)
    ensures Written([item]) == if item.Cluster? then BlockSources(item.blocks) else []
  {
    assert [item][1..] == [];
  }

  lemma {:induction false} WrittenPut(items: seq<Item>, r: BlockRec)
    requires Last(items)
    ensures Written(Put(items, r)) == Written(items) + r.sources
  {
    hide Written, BlockSources;
    var n := |items| - 1;
    var init, cl := items[..n], items[n];
    var more := cl.(blocks := cl.blocks + [r]);
    assert items == init + [cl];
    WrittenAppend(init, [cl]);
    WrittenAppend(init, [more]);
    WrittenOne(cl);
    WrittenOne(more);
    BlockSourcesAppend(cl.blocks, [r]);
    OneSource(r);
  }

  lemma {:induction false} OneSource(r: BlockRec)
    ensures BlockSources([r]) == r.sources
  {
    assert [r][1..] == [];
  }

  lemma {:induction false} NonePending(laces: seq<LaceBuffer>)
    requires forall i :: 0 <= i < |laces| ==> laces[i].frames == []
    ensures Pending(laces) == []
  {
    if laces != [] {
      NonePending(laces[1..]);
    }
  }

  /** With every other buffer empty, what is pending is one buffer. */
  lemma {:induction false} OnePending(laces: seq<LaceBuffer>, i: nat)
    requires i < |laces| && forall j :: 0 <= j < |laces| && j != i ==> laces[j].frames == []
    ensures Pending(laces) == laces[i].frames
  {
    if i == 0 {
      NonePending(laces[1..]);
    } else {
      OnePending(laces[1..], i - 1);
    }
  }

  // ----- what is in a Block -----

  predicate SameTrack(c: Config, sources: seq<Frame>, number: nat) {
    forall i :: 0 <= i < |sources| ==> sources[i].stream < |c.tracks| && c.tracks[sources[i].stream].number == number
  }

  predicate SameKey(sources: seq<Frame>, key: bool) {
    forall i :: 0 <= i < |sources| ==> sources[i].key == key
  }

  predicate Ungrouped(sources: seq<Frame>) {
    forall i :: 0 <= i < |sources| ==> sources[i].group.None?
  }

  /** The offset is the exact distance of the first frame from the Cluster's time, and fits its 16 bits. */
  predicate OnTime(c: Config, time: int, offset: int, first: Frame) {
    && time + offset == first.ms
    && -0x8000 <= offset <= 0x7FFF
    && (first.ms >= 0 ==> 0 <= offset <= c.maxMs)
  }

  /** A Block carries exactly its packets' frames, unlaced if there is one and laced if there are more. */
  predicate Filed(c: Config, time: int, r: BlockRec) {
    && 1 <= |r.sources| <= MAX_FRAMES_PER_LACE
    && r.block.frames == Datas(r.sources)
    && SameTrack(c, r.sources, r.block.track)
    && r.siblings == SiblingsOf(r.sources[0]) && (|r.sources| > 1 ==> Ungrouped(r.sources))
    && (r.siblings.None? ==> SameKey(r.sources, r.block.key))
    && (r.siblings.Some? ==> !r.block.key)
    && OnTime(c, time, r.block.offset, r.sources[0])
    && (if |r.sources| == 1 then r.block.mode == NoLacing else r.block.mode == c.mode != NoLacing)
    && (r.block.mode == FixedSize ==> EqualSizes(r.block.frames))
  }

  predicate AllFiled(c: Config, items: seq<Item>) {
    forall k, j :: 0 <= k < |items| && items[k].Cluster? && 0 <= j < |items[k].blocks| ==>
      Filed(c, items[k].time, items[k].blocks[j])
  }

  predicate LaceOk(c: Config, time: int, i: nat, l: LaceBuffer) {
    && 1 <= |l.frames| <= MAX_FRAMES_PER_LACE
    && c.mode != NoLacing && Ungrouped(l.frames)
    && SameKey(l.frames, l.key)
    && (forall j :: 0 <= j < |l.frames| ==> l.frames[j].stream == i)
    && OnTime(c, time, l.offset, l.frames[0])
    && (c.mode == FixedSize ==> EqualSizes(Datas(l.frames)))
  }

  predicate LacesOk(c: Config, s: State) {
    forall i :: 0 <= i < |s.laces| && s.laces[i].frames != [] ==> LaceOk(c, s.tc, i, s.laces[i])
  }

  predicate FramesOk(c: Config, s: State) {
    AllFiled(c, s.items) && LacesOk(c, s)
  }

  lemma LaceIsFiled(c: Config, time: int, i: nat, l: LaceBuffer)
    requires i < |c.tracks| && LaceOk(c, time, i, l)
    ensures Filed(c, time, LaceBlock(c, i, l))
  {
  }

  lemma WriteBlockFiles(c: Config, s: State, r: BlockRec)
    requires OpenIsLast(c, s) && AllFiled(c, s.items) && Filed(c, s.tc, r)
    ensures AllFiled(c, WriteBlock(s, r).items)
  {
    hide Filed, BlockElem, Ser, ItemAt, BlockBytes;
    var t := WriteBlock(s, r);
    forall k, j | 0 <= k < |t.items| && t.items[k].Cluster? && 0 <= j < |t.items[k].blocks|
      ensures Filed(c, t.items[k].time, t.items[k].blocks[j])
    {
      if k < |s.items| - 1 || j < |s.items[k].blocks| {
        assert Filed(c, s.items[k].time, s.items[k].blocks[j]);
      }
    }
  }

  lemma FlushLaceFrames(c: Config, s: State, i: nat)
    requires Ready(c, s) && i < |c.tracks| && Tracked(c, s) && FramesOk(c, s)
    ensures FramesOk(c, FlushLace(c, s, i))
    ensures FlushLace(c, s, i).accepted == s.accepted
    ensures Written(FlushLace(c, s, i).items) == Written(s.items) + s.laces[i].frames
  {
    hide Filed, WriteBlock, LaceOk, Written, LaceBlock, AllFiled, ItemAt, BlockBytes, Cursor, Indexable;
    var l := s.laces[i];
    if l.frames != [] {
      var taken := s.(laces := s.laces[i := l.(frames := [])]);
      var cued := if !s.seen[i] && Indexable(c.tracks[i].media, l.key) then AddCue(c, taken, i, s.tc + l.offset, None)
                  else taken;
      LaceIsFiled(c, s.tc, i, l);
      WriteBlockFiles(c, cued, LaceBlock(c, i, l));
      WrittenPut(cued.items, LaceBlock(c, i, l));
      WriteBlockItems(cued, LaceBlock(c, i, l));
      LaceBlockSources(c, i, l);
    }
  }

  lemma LaceBlockSources(c: Config, i: nat, l: LaceBuffer)
    requires i < |c.tracks|
    ensures LaceBlock(c, i, l).sources == l.frames
  {
  }

  lemma WriteBlockItems(s: State, r: BlockRec)
    requires Last(s.items)
    ensures var t := WriteBlock(s, r);
            t.items == Put(s.items, r) && t.laces == s.laces && t.accepted == s.accepted && t.tc == s.tc
  {
  }

  /** Flushing one buffer moves its frames from the buffer to the file. */
  lemma FlushLaceConserves(c: Config, s: State, i: nat)
    requires Ready(c, s) && i < |c.tracks| && Tracked(c, s) && FramesOk(c, s) && OnlyOnePending(c, s)
    ensures OnlyOnePending(c, FlushLace(c, s, i))
    ensures Conserved(s) ==> Conserved(FlushLace(c, s, i))
  {
    hide FlushLace, Written, Pending, AllFiled, LaceOk, OpenIsLast;
    FlushLaceFrames(c, s, i);
    var t := FlushLace(c, s, i);
    if s.laces[i].frames != [] {
      OnePending(s.laces, i);
      NonePending(t.laces);
    } else {
      assert t.laces == s.laces;
    }
  }

  lemma StartClusterFrames(c: Config, s: State, ms: int)
    requires Ready(c, s) && NothingPending(s) && FramesOk(c, s)
    ensures FramesOk(c, StartCluster(c, s, ms))
    ensures Conserved(s) ==> Conserved(StartCluster(c, s, ms))
  {
    hide Filed, FullLead, Written, Pending, Cursor;
    var cl := Cluster(NonNegative(ms), FullLead(c, s, ms), []);
    WrittenAppend(s.items, [cl]);
    WrittenOne(cl);
    NoSources();
    assert Written(s.items) + [] == Written(s.items);
  }

  lemma NoSources()
    ensures BlockSources([]) == []
  {
  }

  lemma {:induction false} DatasSnoc(frames: seq<Frame>, f: Frame)
    ensures Datas(frames + [f]) == Datas(frames) + [f.data]
  {
  }

  /** One more frame in the lace, after the flush that makes room for it. */
  lemma PushFrames(c: Config, s: State, i: nat, f: Frame)
    requires Ready(c, s) && s.open && i < |c.tracks| && c.mode != NoLacing
    requires FramesOk(c, s) && f.stream == i && f.group.None? && OnTime(c, s.tc, f.ms - s.tc, f)
    requires !MustFlush(c, s.laces[i], f)
    requires forall j :: 0 <= j < |s.laces| && j != i ==> s.laces[j].frames == []
    ensures var l := s.laces[i];
            var seeded := if l.frames == [] then l.(offset := f.ms - s.tc, key := f.key) else l;
            var t := s.(laces := s.laces[i := seeded.(frames := l.frames + [f])]);
            && FramesOk(c, t) && OnlyOnePending(c, t)
            && Pending(t.laces) == Pending(s.laces) + [f]
  {
    hide Filed, AllFiled, Pending;
    var l := s.laces[i];
    var seeded := if l.frames == [] then l.(offset := f.ms - s.tc, key := f.key) else l;
    var t := s.(laces := s.laces[i := seeded.(frames := l.frames + [f])]);
    DatasSnoc(l.frames, f);
    OnePending(s.laces, i);
    OnePending(t.laces, i);
    if l.frames != [] {
      assert LaceOk(c, s.tc, i, l);
    }
    assert LaceOk(c, t.tc, i, t.laces[i]);
  }

  lemma AppendToLaceFrames(c: Config, s: State, i: nat, f: Frame)
    requires Ready(c, s) && s.open && i < |c.tracks| && c.mode != NoLacing && Tracked(c, s)
    requires FramesOk(c, s) && f.stream == i && f.group.None? && OnTime(c, s.tc, f.ms - s.tc, f)
    requires forall j :: 0 <= j < |s.laces| && j != i ==> s.laces[j].frames == []
    ensures var t := AppendToLace(c, s, i, f.ms - s.tc, f);
            && FramesOk(c, t) && OnlyOnePending(c, t)
            && t.accepted == s.accepted
            && (Conserved(s) ==> s.accepted + [f] == Written(t.items) + Pending(t.laces))
  {
    hide FlushLace, FramesOk, Written, Pending, OnTime, OpenIsLast;
    if MustFlush(c, s.laces[i], f) {
      FlushLaceFrames(c, s, i);
      FlushLaceConserves(c, s, i);
      FlushLaceTracks(c, s, i);
      PushFrames(c, FlushLace(c, s, i), i, f);
    } else {
      PushFrames(c, s, i, f);
    }
  }

  lemma UnlacedIsFiled(c: Config, s: State, f: Frame)
    requires f.stream < |c.tracks| && f.stream < |s.lastPts|
    requires OnTime(c, s.tc, f.ms - s.tc, f)
    ensures Filed(c, s.tc, UnlacedBlock(c, s, f)) && UnlacedBlock(c, s, f).sources == [f]
  {
    hide OnTime, Siblings, ReferencesOf, DurationMs;
    DatasSnoc([], f);
    assert [] + [f] == [f] && Datas([]) == [];
  }

  /** An accepted packet is appended to the log, and to the file or its buffer. */
  lemma PlaceFrames(c: Config, s: State, f: Frame)
    requires Ready(c, s) && s.open && f.stream < |c.tracks| && Tracked(c, s) && FramesOk(c, s)
    requires OnTime(c, s.tc, f.ms - s.tc, f)
    requires forall j :: 0 <= j < |s.laces| && (f.group.Some? || c.mode == NoLacing || j != f.stream) ==>
               s.laces[j].frames == []
    ensures var t := Place(c, s, f);
            FramesOk(c, t) && OnlyOnePending(c, t) && (Conserved(s) ==> Conserved(t))
  {
    hide WriteBlock, AppendToLace, UnlacedBlock, OnTime, AllFiled, LaceOk, Written, Pending, Filed, OpenIsLast,
      DurationMs, Cursor, Indexable, Tracked;
    if f.group.None? && c.mode != NoLacing {
      AppendToLaceFrames(c, s, f.stream, f);
    } else {
      var cued := CueFor(c, s, f);
      var r := UnlacedBlock(c, s, f);
      UnlacedIsFiled(c, s, f);
      CueKeepsOpen(c, s, cued);
      WriteBlockItems(cued, r);
      WriteWhole(c, cued, r, f);
    }
  }

  /** A Block of one packet, with nothing pending. */
  lemma WriteWhole(c: Config, s: State, r: BlockRec, f: Frame)
    requires OpenIsLast(c, s) && FramesOk(c, s) && Filed(c, s.tc, r) && r.sources == [f]
    requires NothingPending(s)
    ensures var t := WriteBlock(s, r).(accepted := s.accepted + [f]);
            FramesOk(c, t) && NothingPending(t) && (Conserved(s) ==> Conserved(t))
  {
    hide WriteBlock, AllFiled, LaceOk, Written, Pending, Filed, ItemAt, BlockBytes;
    WriteBlockFiles(c, s, r);
    WriteBlockItems(s, r);
    WrittenPut(s.items, r);
    NonePending(s.laces);
    assert Written(s.items) + [] == Written(s.items);
  }

  lemma CueKeepsOpen(c: Config, s: State, t: State)
    requires Tracked(c, s) && s.open && t.items == s.items && t.tc == s.tc && t.count == s.count && t.bytes == s.bytes
    requires t.clusterAt == s.clusterAt && t.bodyAt == s.bodyAt
    ensures OpenIsLast(c, t)
  {
  }
}
