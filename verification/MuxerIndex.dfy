/**
 * The index is exact: which Blocks of a file have a cue, told from the Blocks alone, and that the
 * recorded cues are these and no others, in file order.
 */
module MuxerIndex {
  import opened Wrappers
  import opened Elements
  import opened Lacing
  import opened Cues
  import opened Tags
  import opened Muxer
  import opened MuxerLayout
  import opened MuxerFrames
  import opened MuxerRun
  import opened MuxerTheorems

  // ----- which Blocks an index has to list -----

  /** A Block of the stream that was opened by a random access point: of video, a key frame. */
  predicate Entry(c: Config, r: BlockRec, stream: nat) {
    && r.sources != [] && r.sources[0].stream == stream < |c.tracks|
    && (c.tracks[stream].media == VideoMedia ==> r.sources[0].key)
  }

  /** A Block that did not wait in a lace. */
  predicate Alone(c: Config, r: BlockRec) {
    c.mode == NoLacing || (r.sources != [] && r.sources[0].group.Some?)
  }

  /**
   * The first entry point of its stream in the Cluster is indexed; of subtitles, every Block that did
   * not wait in a lace.
   */
  predicate Indexed(c: Config, before: seq<BlockRec>, r: BlockRec) {
    && r.sources != [] && Entry(c, r, r.sources[0].stream)
    && ((forall i :: 0 <= i < |before| ==> !Entry(c, before[i], r.sources[0].stream))
        || (c.tracks[r.sources[0].stream].media == SubtitleMedia && Alone(c, r)))
  }

  /** The cue of a Block behind others of a Cluster at position `at`. */
  function CueOf(c: Config, lead: seq<Elem>, before: seq<BlockRec>, r: BlockRec, at: nat): CueRecord
    requires r.sources != []
  {
    var f := r.sources[0];
    CueRecord(f.stream + 1, if f.ms > 0 then f.ms else 0, at, |SerAll(lead + BlockElems(before))|, |before| + 1,
              if Alone(c, r) then f.length else None)
  }

  function ClusterCues(c: Config, lead: seq<Elem>, blocks: seq<BlockRec>, at: nat): seq<CueRecord> {
    if blocks == [] then []
    else
      var before, r := blocks[..|blocks| - 1], blocks[|blocks| - 1];
      ClusterCues(c, lead, before, at) + if Indexed(c, before, r) then [CueOf(c, lead, before, r, at)] else []
  }

  /** The cues of all Clusters, in file order. */
  function AllCues(c: Config, items: seq<Item>): seq<CueRecord> {
    if items == [] then []
    else
      var before, item := items[..|items| - 1], items[|items| - 1];
      AllCues(c, before)
      + if item.Cluster? then ClusterCues(c, item.lead, item.blocks, c.head + |ItemBytes(before)|) else []
  }

  // ----- the muxer keeps it -----

  /** What the muxer remembers of the open Cluster: which streams have an entry point in it. */
  predicate SeenRight(c: Config, s: State) {
    s.open ==>
      && Last(s.items) && |s.seen| == |c.tracks|
      && forall i :: 0 <= i < |c.tracks| ==> (s.seen[i] <==> HasEntry(c, s.items[|s.items| - 1].blocks, i))
  }

  predicate HasEntry(c: Config, blocks: seq<BlockRec>, i: nat) {
    exists j :: 0 <= j < |blocks| && Entry(c, blocks[j], i)
  }

  predicate Indexing(c: Config, s: State) {
    s.cues == AllCues(c, s.items) && SeenRight(c, s)
  }

  lemma ClusterCuesSnoc(c: Config, lead: seq<Elem>, blocks: seq<BlockRec>, r: BlockRec, at: nat)
    ensures ClusterCues(c, lead, blocks + [r], at)
         == ClusterCues(c, lead, blocks, at) + if Indexed(c, blocks, r) then [CueOf(c, lead, blocks, r, at)] else []
  {
    hide Indexed, CueOf;
    assert (blocks + [r])[..|blocks + [r]| - 1] == blocks;
  }

  lemma AllCuesSnoc(c: Config, items: seq<Item>, item: Item)
    ensures AllCues(c, items + [item])
         == AllCues(c, items)
            + if item.Cluster? then ClusterCues(c, item.lead, item.blocks, c.head + |ItemBytes(items)|) else []
  {
    hide ClusterCues, ItemBytes;
    assert (items + [item])[..|items + [item]| - 1] == items;
  }

  /** One more Block in the last Cluster. */
  lemma PutCues(c: Config, items: seq<Item>, r: BlockRec)
    requires Last(items)
    ensures var cl, at := items[|items| - 1], ItemAt(c, items, |items| - 1);
            AllCues(c, Put(items, r))
            == AllCues(c, items) + if Indexed(c, cl.blocks, r) then [CueOf(c, cl.lead, cl.blocks, r, at)] else []
  {
    hide AllCues, ClusterCues, ItemBytes, Indexed, CueOf;
    var n := |items| - 1;
    var init, cl := items[..n], items[n];
    assert items == init + [cl];
    AllCuesSnoc(c, init, cl);
    AllCuesSnoc(c, init, cl.(blocks := cl.blocks + [r]));
    ClusterCuesSnoc(c, cl.lead, cl.blocks, r, ItemAt(c, items, n));
  }

  lemma EntriesGrow(c: Config, blocks: seq<BlockRec>, r: BlockRec, i: nat)
    ensures HasEntry(c, blocks + [r], i) <==> HasEntry(c, blocks, i) || Entry(c, r, i)
  {
    hide Entry;
    var more := blocks + [r];
    if HasEntry(c, blocks, i) {
      var j :| 0 <= j < |blocks| && Entry(c, blocks[j], i);
      assert more[j] == blocks[j];
    }
    assert more[|blocks|] == r;
  }

  /** What the muxer does before it writes a Block: a cue if the Block is indexed. */
  predicate CuedFor(c: Config, s: State, r: BlockRec, t: State)
    requires OpenIsLast(c, s) && r.sources != []
  {
    var i, cl := r.sources[0].stream, s.items[|s.items| - 1];
    && t.items == s.items && t.open == s.open && t.bytes == s.bytes && t.count == s.count && i < |s.seen|
    && t.seen == (if Entry(c, r, i) then s.seen[i := true] else s.seen)
    && t.cues == s.cues + if Indexed(c, cl.blocks, r) then [CueOf(c, cl.lead, cl.blocks, r, s.clusterAt)] else []
  }

  lemma CuedBlockIndexes(c: Config, s: State, r: BlockRec, t: State)
    requires OpenIsLast(c, s) && Indexing(c, s) && s.open && r.sources != [] && CuedFor(c, s, r, t)
    ensures Indexing(c, WriteBlock(t, r))
  {
    hide AllCues, Indexed, CueOf, Entry, BlockElem, ItemBytes, BlockBytes, HasEntry;
    PutCues(c, s.items, r);
    var cl, i := s.items[|s.items| - 1], r.sources[0].stream;
    forall j | 0 <= j < |c.tracks|
      ensures WriteBlock(t, r).seen[j] <==> HasEntry(c, cl.blocks + [r], j)
    {
      EntriesGrow(c, cl.blocks, r, j);
      OneStream(c, r, j);
    }
  }

  lemma OneStream(c: Config, r: BlockRec, j: nat)
    ensures Entry(c, r, j) ==> r.sources != [] && r.sources[0].stream == j
  {
  }

  /** The cue itself, as the muxer makes it at the end of the open Cluster. */
  lemma CueIsOf(c: Config, s: State, i: nat, ms: int, duration: Option<nat>, r: BlockRec)
    requires ValidConfig(c) && Ready(c, s) && s.open && OpenIsLast(c, s) && i < |c.tracks|
    requires r.sources != [] && r.sources[0].stream == i && r.sources[0].ms == ms
    requires duration == if Alone(c, r) then r.sources[0].length else None
    ensures var cl, t := s.items[|s.items| - 1], AddCue(c, s, i, ms, duration);
            && t.cues == s.cues + [CueOf(c, cl.lead, cl.blocks, r, s.clusterAt)] && t.seen == s.seen[i := true]
            && t.items == s.items && t.open == s.open && t.bytes == s.bytes && t.count == s.count
  {
    hide BlockBytes, ItemBytes, BlockElems, SerAll, Alone, Cursor;
    CursorIsBlockAt(c, s);
    var cl := s.items[|s.items| - 1];
    assert cl.blocks[..|cl.blocks|] == cl.blocks;
  }

  lemma LaceBlockIs(c: Config, time: int, i: nat, l: LaceBuffer)
    requires i < |c.tracks| && LaceOk(c, time, i, l)
    ensures var r := LaceBlock(c, i, l);
            && r.sources == l.frames && r.sources != [] && r.sources[0].stream == i && r.sources[0].key == l.key
            && r.sources[0].ms == time + l.offset && r.sources[0].group.None? && !Alone(c, r)
  {
    hide EqualSizes, Datas;
  }

  lemma FlushLaceIndexes(c: Config, s: State, i: nat)
    requires ValidConfig(c) && Inv(c, s) && Indexing(c, s) && i < |c.tracks|
    ensures Indexing(c, FlushLace(c, s, i))
  {
    hide Indexing, CuedFor, LaceOk, LaceBlock, WriteBlock, Indexed, CueOf, AddCue, AllFiled, Conserved, Entry;
    var l := s.laces[i];
    if l.frames != [] {
      OpenLace(c, s, i);
      LaceBlockIs(c, s.tc, i, l);
      var r, taken := LaceBlock(c, i, l), s.(laces := s.laces[i := l.(frames := [])]);
      SameIndex(c, s, taken);
      LaceCue(c, taken, i, l, r);
    }
  }

  lemma OpenLace(c: Config, s: State, i: nat)
    requires Inv(c, s) && i < |c.tracks| && s.laces[i].frames != []
    ensures s.open && OpenIsLast(c, s) && LaceOk(c, s.tc, i, s.laces[i])
  {
    hide OpenIsLast, LaceOk, AllFiled, Conserved;
  }

  lemma SameIndex(c: Config, s: State, t: State)
    requires Indexing(c, s) && t.cues == s.cues && t.items == s.items && t.seen == s.seen && t.open == s.open
    ensures Indexing(c, t)
  {
    hide AllCues, HasEntry;
  }

  lemma LaceCue(c: Config, s: State, i: nat, l: LaceBuffer, r: BlockRec)
    requires ValidConfig(c) && Ready(c, s) && s.open && OpenIsLast(c, s) && Indexing(c, s) && i < |c.tracks|
    requires r.sources != [] && r.sources[0].stream == i && r.sources[0].key == l.key && !Alone(c, r)
             && r.sources[0].ms == s.tc + l.offset
    ensures var cued := if !s.seen[i] && Indexable(c.tracks[i].media, l.key) then AddCue(c, s, i, s.tc + l.offset, None)
                        else s;
            Indexing(c, WriteBlock(cued, r))
  {
    hide AllCues, CueOf, BlockElem, ItemBytes, BlockBytes, WriteBlock, AddCue, Alone, Cursor;
    CueIsOf(c, s, i, s.tc + l.offset, None, r);
    var cued := if !s.seen[i] && Indexable(c.tracks[i].media, l.key) then AddCue(c, s, i, s.tc + l.offset, None) else s;
    SeenMeans(c, s, i);
    assert s.seen[i := true][i] && (s.seen[i] ==> s.seen[i := true] == s.seen);
    assert CuedFor(c, s, r, cued);
    CuedBlockIndexes(c, s, r, cued);
  }

  lemma SeenMeans(c: Config, s: State, i: nat)
    requires Indexing(c, s) && s.open && i < |c.tracks| && Last(s.items)
    ensures var blocks := s.items[|s.items| - 1].blocks;
            |s.seen| == |c.tracks|
            && (s.seen[i] <==> exists j :: 0 <= j < |blocks| && Entry(c, blocks[j], i))
  {
    hide AllCues, Entry;
  }

  lemma {:induction false} FlushFromIndexes(c: Config, s: State, i: nat, keep: Option<nat>)
    requires ValidConfig(c) && Inv(c, s) && Indexing(c, s) && i <= |c.tracks|
    ensures Indexing(c, FlushFrom(c, s, i, keep))
    decreases |c.tracks| - i
  {
    hide Inv, FlushLace, Indexing, Ready;
    assert Ready(c, s) by { InvReady(c, s); }
    if i < |c.tracks| {
      if keep != Some(i) {
        FlushLaceIndexes(c, s, i);
        FlushLaceKeeps(c, s, i);
      }
      FlushFromIndexes(c, if keep == Some(i) then s else FlushLace(c, s, i), i + 1, keep);
    }
  }

  lemma StartClusterIndexes(c: Config, s: State, ms: int)
    requires Ready(c, s) && NothingPending(s) && Indexing(c, s)
    ensures Indexing(c, StartCluster(c, s, ms)) && Aborted(c, s, ms).cues == AllCues(c, Aborted(c, s, ms).items)
  {
    hide FullLead, Lead, Cursor, AllCues, ItemBytes;
    AllCuesSnoc(c, s.items, Cluster(NonNegative(ms), FullLead(c, s, ms), []));
    AllCuesSnoc(c, s.items, Cluster(NonNegative(ms), Lead(c, ms, Cursor(c, s), s.prevAt), []));
    assert s.cues + [] == s.cues;
  }

  lemma UnlacedIndexes(c: Config, s: State, f: Frame)
    requires ValidConfig(c) && Ready(c, s) && s.open && OpenIsLast(c, s) && Indexing(c, s) && f.stream < |c.tracks|
    requires f.group.Some? || c.mode == NoLacing
    ensures Indexing(c, WriteBlock(CueFor(c, s, f), UnlacedBlock(c, s, f)))
  {
    hide AllCues, CueOf, BlockElem, ItemBytes, BlockBytes, WriteBlock, AddCue, Cursor, SiblingsOf;
    var i, t, r := f.stream, c.tracks[f.stream], UnlacedBlock(c, s, f);
    CueIsOf(c, s, i, f.ms, f.length, r);
    SeenMeans(c, s, i);
    var cued := CueFor(c, s, f);
    assert s.seen[i] ==> s.seen[i := true] == s.seen;
    assert CuedFor(c, s, r, cued);
    CuedBlockIndexes(c, s, r, cued);
  }

  lemma PlaceIndexes(c: Config, s: State, f: Frame)
    requires ValidConfig(c) && Inv(c, s) && Ready(c, s) && Indexing(c, s) && s.open && f.stream < |c.tracks|
    ensures Indexing(c, Placed(c, s, f).state)
  {
    hide Inv, FlushLace, Indexing, CueFor, UnlacedBlock, WriteBlock;
    if f.group.None? && c.mode != NoLacing {
      var flushed := if MustFlush(c, s.laces[f.stream], f) then FlushLace(c, s, f.stream) else s;
      if MustFlush(c, s.laces[f.stream], f) {
        FlushLaceIndexes(c, s, f.stream);
      }
      if Placed(c, s, f).outcome == Accepted {
        SameIndex(c, flushed, Placed(c, s, f).state);
      }
    } else {
      assert OpenIsLast(c, s) by { InvTracks(c, s); }
      UnlacedIndexes(c, s, f);
      if Placed(c, s, f).outcome == Accepted {
        SameIndex(c, WriteBlock(CueFor(c, s, f), UnlacedBlock(c, s, f)), Placed(c, s, f).state);
      }
    }
  }

  lemma InvTracks(c: Config, s: State)
    requires Inv(c, s) && s.open
    ensures OpenIsLast(c, s)
  {
    hide OpenIsLast, FramesOk, Conserved;
  }

  lemma SettledIndexes(c: Config, s: State, p: Packet, group: Option<GroupOptions>)
    requires ValidConfig(c) && Inv(c, s) && Ready(c, s) && Indexing(c, s) && p.stream < |c.tracks|
    ensures Indexing(c, Settled(c, s, p, group)) && Indexing(c, EndLace(c, s, p.stream))
  {
    hide Inv, FlushLace, FlushFrom, Indexing;
    FlushLaceIndexes(c, s, p.stream);
    FlushFromIndexes(c, s, 0, if group.Some? then None else Some(p.stream));
  }

  lemma TimedIndexes(c: Config, s: State, p: Packet)
    requires Inv(c, s) && Ready(c, s) && p.stream < |c.tracks| && Indexing(c, s)
    ensures Inv(c, Timed(c, s, p)) && Ready(c, Timed(c, s, p)) && Indexing(c, Timed(c, s, p))
  {
    hide Inv, PtsToMs, EffectivePts, DurationMs, Indexing;
    UnrelatedFields(c, s, Timed(c, s, p));
    SameIndex(c, s, Timed(c, s, p));
  }

  lemma WriteIndexes(c: Config, s: State, p: Packet, wrap: Wrap)
    requires ValidConfig(c) && Inv(c, s) && Ready(c, s) && OnlyOnePending(c, s) && Indexing(c, s)
    requires Admitted(c, p, wrap) && p.stream < |c.tracks|
    ensures var r := WritePacket(c, s, p, wrap);
            r.state.cues == AllCues(c, r.state.items) && (r.outcome != Halted ==> Indexing(c, r.state))
  {
    hide Inv, PtsToMs, EffectivePts, Admit, Timed, FrameData, Placed, Settled, Ready, OnlyOnePending, SilentBlocked,
      StartCluster, EndLace, Aborted, DurationMs, Indexing, AllCues;
    var group := Admit(c, p.stream, wrap).value;
    var timed := Timed(c, s, p);
    TimedFields(c, s, p);
    OnePendingStays(c, s, timed);
    TimedIndexes(c, s, p);
    SettledIndexes(c, timed, p, group);
    SettledIsSettled(c, timed, p, group);
    SettledKeeps(c, s, p, group);
    var settled := Settled(c, timed, p, group);
    var f := FrameOf(c, s, p, group);
    if !NeedsCluster(c, settled, f.ms) {
      PlaceIndexes(c, settled, f);
      IndexingCues(c, Placed(c, settled, f).state);
    } else {
      var ended := EndLace(c, settled, p.stream);
      SettledIndexes(c, settled, p, group);
      StartClusterIndexes(c, ended, f.ms);
      if !SilentBlocked(c, ended) {
        StartClusterKeeps(c, ended, f.ms);
        PlaceIndexes(c, StartCluster(c, ended, f.ms), f);
        IndexingCues(c, Placed(c, StartCluster(c, ended, f.ms), f).state);
      }
    }
  }

  lemma IndexingCues(c: Config, s: State)
    requires Indexing(c, s)
    ensures s.cues == AllCues(c, s.items)
  {
  }

  lemma TagsIndex(c: Config, s: State, tags: seq<Tag>)
    requires ValidConfig(c) && Inv(c, s) && Ready(c, s) && OnlyOnePending(c, s) && Indexing(c, s)
    ensures Indexing(c, WriteLiveTags(c, s, tags).state)
  {
    hide Inv, FlushFrom, TagsAdmitted, AllCues, ItemBytes, HasEntry;
    if TagsAdmitted(c, tags) {
      var flushed := FlushAll(c, s);
      FlushFromIndexes(c, s, 0, None);
      AllCuesSnoc(c, flushed.items, Fixed(TopLevel(0x1254C367, TagElems(tags), c.strict)));
      assert flushed.cues + [] == flushed.cues;
    }
  }

  lemma ApplyIndexes(c: Config, s: State, call: Call)
    requires ValidConfig(c) && Inv(c, s) && Ready(c, s) && OnlyOnePending(c, s) && Indexing(c, s)
    ensures var r := Apply(c, s, call);
            r.state.cues == AllCues(c, r.state.items) && (r.outcome != Halted ==> Indexing(c, r.state))
  {
    hide Inv, WritePacket, WriteLiveTags, Admitted, Ready, OnlyOnePending, Indexing;
    match call
    case Write(p, wrap) =>
      if Admitted(c, p, wrap) {
        AdmittedStream(c, p, wrap);
        WriteIndexes(c, s, p, wrap);
      } else {
        RejectedAtOnce(c, s, p, wrap);
        IndexingCues(c, s);
      }
    case LiveTags(tags) =>
      TagsIndex(c, s, tags);
      IndexingCues(c, WriteLiveTags(c, s, tags).state);
    case Silence(numbers) =>
      SameIndex(c, s, s.(silent := numbers));
      IndexingCues(c, s);
  }

  lemma {:induction false} RunIndexes(c: Config, s: State, calls: seq<Call>)
    requires ValidConfig(c) && Inv(c, s) && Indexing(c, s)
    ensures var r := Run(c, s, calls);
            r.state.cues == AllCues(c, r.state.items) && (r.outcome != Halted ==> Indexing(c, r.state))
    decreases |calls|
  {
    hide Inv, Apply, Sound, Ready, OnlyOnePending, Indexing, AllCues;
    IndexingCues(c, s);
    if calls != [] {
      InvReady(c, s);
      ApplyKeeps(c, s, calls[0]);
      ApplyIndexes(c, s, calls[0]);
      var step := Apply(c, s, calls[0]);
      if step.outcome != Halted {
        RunIndexes(c, step.state, calls[1..]);
      }
    }
  }

  lemma NothingIndexed(c: Config)
    ensures Indexing(c, Initial(c))
  {
  }

  /** At every moment of every run, the recorded cues are exactly those of the Blocks in the file. */
  lemma IndexIsExact(c: Config, calls: seq<Call>)
    requires ValidConfig(c)
    ensures var r := RunFrom(c, calls);
            r.state.cues == AllCues(c, r.state.items) && (r.outcome != Halted ==> Indexing(c, r.state))
  {
    InitialInv(c);
    NothingIndexed(c);
    hide Inv, Run, Sound, Indexing, AllCues;
    RunIndexes(c, Initial(c), calls);
  }

  /** So they are after the trailer has flushed the last lace. */
  lemma FlushedIndexIsExact(c: Config, calls: seq<Call>)
    requires ValidConfig(c) && RunFrom(c, calls).outcome != Halted
    ensures Ready(c, RunFrom(c, calls).state)
    ensures var s := FlushAll(c, RunFrom(c, calls).state); s.cues == AllCues(c, s.items)
  {
    hide Inv, Sound, Indexing, AllCues, RunFrom, FlushFrom;
    IndexIsExact(c, calls);
    var s := RunFrom(c, calls).state;
    InvReady(c, s);
    FlushFromIndexes(c, s, 0, None);
    IndexingCues(c, s);
    IndexingCues(c, FlushFrom(c, s, 0, None));
  }

  // ----- one cue per Cluster and track -----

  function CountCues(cues: seq<CueRecord>, at: nat, track: nat): nat {
    if cues == [] then 0
    else
      var last := cues[|cues| - 1];
      CountCues(cues[..|cues| - 1], at, track) + if last.clusterOffset == at && last.track == track then 1 else 0
  }

  lemma {:induction false} CountAppend(a: seq<CueRecord>, b: seq<CueRecord>, at: nat, track: nat)
    ensures CountCues(a + b, at, track) == CountCues(a, at, track) + CountCues(b, at, track)
  {
    if b == [] {
      assert a + b == a;
    } else {
      assert (a + b)[..|a + b| - 1] == a + b[..|b| - 1];
      CountAppend(a, b[..|b| - 1], at, track);
    }
  }

  lemma CountOne(cue: CueRecord, at: nat, track: nat)
    ensures CountCues([cue], at, track) == if cue.clusterOffset == at && cue.track == track then 1 else 0
  {
    assert [cue][..0] == [];
  }

  /** In one Cluster, a stream that is no subtitle has one cue if it has an entry point. */
  lemma {:induction false} ClusterCount(c: Config, lead: seq<Elem>, blocks: seq<BlockRec>, at: nat, i: nat)
    requires i < |c.tracks| && c.tracks[i].media != SubtitleMedia
    ensures CountCues(ClusterCues(c, lead, blocks, at), at, i + 1) == if HasEntry(c, blocks, i) then 1 else 0
  {
    hide CountCues, BlockElems, SerAll;
    if blocks == [] {
      CountNothing(at, i + 1);
    } else {
      var before, r := blocks[..|blocks| - 1], blocks[|blocks| - 1];
      assert blocks == before + [r];
      ClusterCount(c, lead, before, at, i);
      EntriesGrow(c, before, r, i);
      if Indexed(c, before, r) {
        CountAppend(ClusterCues(c, lead, before, at), [CueOf(c, lead, before, r, at)], at, i + 1);
        CountOne(CueOf(c, lead, before, r, at), at, i + 1);
      } else {
        assert ClusterCues(c, lead, before, at) + [] == ClusterCues(c, lead, before, at);
      }
    }
  }

  lemma CountNothing(at: nat, track: nat)
    ensures CountCues([], at, track) == 0
  {
  }

  lemma {:induction false} ElsewhereCount(
    c: Config, lead: seq<Elem>, blocks: seq<BlockRec>, at: nat, here: nat, track: nat)
    requires at != here
    ensures CountCues(ClusterCues(c, lead, blocks, at), here, track) == 0
  {
    hide CountCues, BlockElems, SerAll, Indexed;
    if blocks == [] {
      CountNothing(here, track);
    } else {
      var before, r := blocks[..|blocks| - 1], blocks[|blocks| - 1];
      ElsewhereCount(c, lead, before, at, here, track);
      if Indexed(c, before, r) {
        IndexedHasSources(c, before, r);
        CountAppend(ClusterCues(c, lead, before, at), [CueOf(c, lead, before, r, at)], here, track);
        CountOne(CueOf(c, lead, before, r, at), here, track);
      } else {
        assert ClusterCues(c, lead, before, at) + [] == ClusterCues(c, lead, before, at);
      }
    }
  }

  lemma IndexedHasSources(c: Config, before: seq<BlockRec>, r: BlockRec)
    requires Indexed(c, before, r)
    ensures r.sources != []
  {
  }

  lemma SameStart(c: Config, items: seq<Item>, k: nat)
    requires k < |items|
    ensures ItemAt(c, items[..|items| - 1], k) == ItemAt(c, items, k)
    ensures ItemAt(c, items, |items| - 1) == c.head + |ItemBytes(items[..|items| - 1])|
  {
    hide ItemBytes;
    assert items[..|items| - 1][..k] == items[..k];
  }

  /** No cue of the items in front of a position points at it. */
  lemma {:induction false} EarlierCount(c: Config, items: seq<Item>, here: nat, track: nat)
    requires forall k :: 0 <= k < |items| && items[k].Cluster? ==> ItemAt(c, items, k) < here
    ensures CountCues(AllCues(c, items), here, track) == 0
  {
    hide CountCues, ClusterCues, ItemAt, ItemBytes;
    if items == [] {
      CountNothing(here, track);
    } else {
      var before, item := items[..|items| - 1], items[|items| - 1];
      forall k | 0 <= k < |before| && before[k].Cluster?
        ensures ItemAt(c, before, k) < here
      {
        SameStart(c, items, k);
      }
      EarlierCount(c, before, here, track);
      SameStart(c, items, |items| - 1);
      if item.Cluster? {
        var at := c.head + |ItemBytes(before)|;
        ElsewhereCount(c, item.lead, item.blocks, at, here, track);
        CountAppend(AllCues(c, before), ClusterCues(c, item.lead, item.blocks, at), here, track);
      } else {
        assert AllCues(c, before) + [] == AllCues(c, before);
      }
    }
  }

  lemma {:induction false} PairCount(c: Config, items: seq<Item>, k: nat, i: nat)
    requires k < |items| && items[k].Cluster? && i < |c.tracks| && c.tracks[i].media != SubtitleMedia
    ensures CountCues(AllCues(c, items), ItemAt(c, items, k), i + 1) == if HasEntry(c, items[k].blocks, i) then 1 else 0
  {
    hide CountCues, ClusterCues, ItemAt, ItemBytes, HasEntry;
    var n := |items| - 1;
    var before, item, here := items[..n], items[n], ItemAt(c, items, k);
    var at := c.head + |ItemBytes(before)|;
    SameStart(c, items, k);
    SameStart(c, items, n);
    var cues := if item.Cluster? then ClusterCues(c, item.lead, item.blocks, at) else [];
    CountAppend(AllCues(c, before), cues, here, i + 1);
    if k < n {
      PairCount(c, before, k, i);
      PositionsGrow(c, items, k, n);
      if item.Cluster? {
        ElsewhereCount(c, item.lead, item.blocks, at, here, i + 1);
      } else {
        CountNothing(here, i + 1);
      }
    } else {
      forall m | 0 <= m < |before| && before[m].Cluster?
        ensures ItemAt(c, before, m) < here
      {
        SameStart(c, items, m);
        PositionsGrow(c, items, m, n);
      }
      EarlierCount(c, before, here, i + 1);
      ClusterCount(c, item.lead, item.blocks, at, i);
    }
  }

  /** A Block that has to be indexed is: its cue is among those of its Cluster, and so of the file. */
  lemma {:induction false} ClusterHasCue(c: Config, lead: seq<Elem>, blocks: seq<BlockRec>, at: nat, j: nat)
    requires j < |blocks| && Indexed(c, blocks[..j], blocks[j])
    ensures blocks[j].sources != [] && CueOf(c, lead, blocks[..j], blocks[j], at) in ClusterCues(c, lead, blocks, at)
  {
    hide Indexed, CueOf;
    IndexedHasSources(c, blocks[..j], blocks[j]);
    var before := blocks[..|blocks| - 1];
    if j < |before| {
      assert before[..j] == blocks[..j];
      ClusterHasCue(c, lead, before, at, j);
    }
  }

  lemma {:induction false} FileHasCue(c: Config, items: seq<Item>, k: nat, j: nat)
    requires k < |items| && items[k].Cluster? && j < |items[k].blocks|
    requires Indexed(c, items[k].blocks[..j], items[k].blocks[j])
    ensures items[k].blocks[j].sources != []
    ensures CueOf(c, items[k].lead, items[k].blocks[..j], items[k].blocks[j], ItemAt(c, items, k)) in AllCues(c, items)
  {
    hide Indexed, CueOf, ClusterCues, ItemAt, ItemBytes;
    IndexedHasSources(c, items[k].blocks[..j], items[k].blocks[j]);
    var n := |items| - 1;
    SameStart(c, items, k);
    SameStart(c, items, n);
    if k < n {
      FileHasCue(c, items[..n], k, j);
    } else {
      ClusterHasCue(c, items[k].lead, items[k].blocks, ItemAt(c, items, k), j);
    }
  }

  /** The first Block of the stream in the Cluster that a player can start from. */
  predicate FirstEntry(c: Config, blocks: seq<BlockRec>, i: nat, j: nat) {
    j < |blocks| && Entry(c, blocks[j], i) && forall m :: 0 <= m < j ==> !Entry(c, blocks[m], i)
  }

  /** The cue of the `j`-th Block of item `k` is in the index. */
  predicate Lists(c: Config, cues: seq<CueRecord>, items: seq<Item>, k: nat, j: nat) {
    && k < |items| && items[k].Cluster? && j < |items[k].blocks| && items[k].blocks[j].sources != []
    && CueOf(c, items[k].lead, items[k].blocks[..j], items[k].blocks[j], ItemAt(c, items, k)) in cues
  }

  lemma FirstIsListed(c: Config, items: seq<Item>, k: nat, i: nat, j: nat)
    requires k < |items| && items[k].Cluster? && FirstEntry(c, items[k].blocks, i, j)
    ensures Lists(c, AllCues(c, items), items, k, j)
  {
    hide AllCues, CueOf, ItemAt;
    assert Indexed(c, items[k].blocks[..j], items[k].blocks[j]);
    FileHasCue(c, items, k, j);
  }

  /**
   * In every run, a Cluster and a track that is no subtitle track have exactly one cue if some Block of
   * the track in the Cluster is a key frame or no video at all, and none otherwise; the cue is that of
   * the first such Block.
   */
  lemma OneCuePerClusterAndTrack(c: Config, calls: seq<Call>, k: nat, i: nat)
    requires ValidConfig(c) && i < |c.tracks| && c.tracks[i].media != SubtitleMedia
    requires k < |RunFrom(c, calls).state.items| && RunFrom(c, calls).state.items[k].Cluster?
    ensures var s := RunFrom(c, calls).state;
            && CountCues(s.cues, ItemAt(c, s.items, k), i + 1) == (if HasEntry(c, s.items[k].blocks, i) then 1 else 0)
            && forall j: nat :: FirstEntry(c, s.items[k].blocks, i, j) ==> Lists(c, s.cues, s.items, k, j)
  {
    hide RunFrom, AllCues, CueOf, CountCues, ItemAt, HasEntry, Indexing, Lists, FirstEntry;
    IndexIsExact(c, calls);
    var s := RunFrom(c, calls).state;
    PairCount(c, s.items, k, i);
    forall j: nat | FirstEntry(c, s.items[k].blocks, i, j)
      ensures Lists(c, s.cues, s.items, k, j)
    {
      FirstIsListed(c, s.items, k, i, j);
    }
  }

  /** Every Block of a subtitle track that did not wait in a lace has a cue of its own, with its duration. */
  lemma EverySubtitleIsIndexed(c: Config, calls: seq<Call>, k: nat, j: nat)
    requires ValidConfig(c)
    requires var items := RunFrom(c, calls).state.items;
             && k < |items| && items[k].Cluster? && j < |items[k].blocks|
             && var r := items[k].blocks[j];
                && r.sources != [] && r.sources[0].stream < |c.tracks|
                && c.tracks[r.sources[0].stream].media == SubtitleMedia && Alone(c, r)
    ensures var s := RunFrom(c, calls).state;
            var cl, at := s.items[k], ItemAt(c, s.items, k);
            var cue := CueOf(c, cl.lead, cl.blocks[..j], cl.blocks[j], at);
            && cue in s.cues && cue.duration == cl.blocks[j].sources[0].length
            && cue.block == j + 1 && cue.clusterOffset == at
  {
    hide RunFrom, AllCues, ItemAt, Indexing, Alone;
    IndexIsExact(c, calls);
    FileHasCue(c, RunFrom(c, calls).state.items, k, j);
  }
}
