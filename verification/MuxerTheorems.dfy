/** What every run of the muxer guarantees. */
module MuxerTheorems {
  import opened Wrappers
  import opened Bytes
  import opened Ids
  import opened Elements
  import opened Lacing
  import opened Cues
  import opened Splitter
  import opened Voids
  import opened Muxer
  import opened MuxerLayout
  import opened MuxerCues
  import opened MuxerFrames
  import opened MuxerBudget
  import opened MuxerChain
  import opened MuxerProfile
  import opened MuxerRun

  /** Every cue ever recorded resolves, at every moment of every run, laced or not. */
  lemma CuesNeverLie(c: Config, calls: seq<Call>, n: nat)
    requires ValidConfig(c)
    requires n < |RunFrom(c, calls).state.cues|
    ensures var s := RunFrom(c, calls).state; exists k :: Resolves(c, s.items, s.cues[n], k)
  {
    hide Resolves, Run;
    var s := RunFrom(c, calls).state;
    assert Resolves(c, s.items, s.cues[n], s.cueAt[n]);
  }

  // ----- frames -----

  /** The frames of the packets that a run of calls reports as accepted, in call order. */
  ghost function AcceptedFrames(c: Config, s: State, calls: seq<Call>): seq<Frame>
    requires ValidConfig(c) && Inv(c, s)
    decreases |calls|
  {
    if calls == [] then []
    else
      ApplyKeeps(c, s, calls[0]);
      var step := Apply(c, s, calls[0]);
      var now := if calls[0].Write? && step.outcome == Accepted then
                   (WritePacketKeeps(c, s, calls[0].packet, calls[0].wrap);
                    [AcceptedFrame(c, s, calls[0].packet, calls[0].wrap)]) else [];
      now + if step.outcome == Halted then [] else AcceptedFrames(c, step.state, calls[1..])
  }

  lemma {:induction false} RunLogs(c: Config, s: State, calls: seq<Call>)
    requires ValidConfig(c) && Inv(c, s)
    ensures Run(c, s, calls).state.accepted == s.accepted + AcceptedFrames(c, s, calls)
    decreases |calls|
  {
    hide Inv, Apply, Sound, FrameOf, Admitted, Ready, OnlyOnePending;
    if calls != [] {
      ApplyKeeps(c, s, calls[0]);
      ApplyLogs(c, s, calls[0]);
      var step := Apply(c, s, calls[0]);
      if step.outcome != Halted {
        RunLogs(c, step.state, calls[1..]);
      }
    }
  }

  lemma ApplyLogs(c: Config, s: State, call: Call)
    requires ValidConfig(c) && Inv(c, s)
    ensures Ready(c, s) && OnlyOnePending(c, s)
    ensures var step := Apply(c, s, call);
            && (call.Write? && step.outcome == Accepted ==>
                  Admitted(c, call.packet, call.wrap) && call.packet.stream < |c.tracks|)
            && step.state.accepted == s.accepted +
               (if call.Write? && step.outcome == Accepted then [AcceptedFrame(c, s, call.packet, call.wrap)] else [])
  {
    hide WritePacket, WriteLiveTags, CuesTrue, FramesOk, Conserved, Budgeted, Linked, ProperItems, Tracked, FrameOf;
    match call
    case Write(p, wrap) =>
      WritePacketKeeps(c, s, p, wrap);
      if Admitted(c, p, wrap) {
        AdmitRange(c, p.stream, wrap);
      }
    case LiveTags(tags) => WriteLiveTagsKeeps(c, s, tags);
    case Silence(numbers) =>
  }

  /**
   * No frame is lost, invented or reordered: the accepted frames, in the order of the calls, are
   * those of the Blocks in file order followed by those of one lace buffer.
   */
  lemma FramesAreConserved(c: Config, calls: seq<Call>)
    requires ValidConfig(c)
    ensures Inv(c, Initial(c))
    ensures var s := RunFrom(c, calls).state;
            AcceptedFrames(c, Initial(c), calls) == Written(s.items) + Pending(s.laces)
  {
    InitialInv(c);
    hide Inv, CuesTrue, AllFiled, ClustersWithin, Chained, ProperItems, AcceptedFrames, Run, Written, Pending;
    RunLogs(c, Initial(c), calls);
  }

  /** Once the trailer has flushed the laces, every accepted frame is on disk. */
  lemma TrailerLosesNothing(c: Config, calls: seq<Call>)
    requires ValidConfig(c) && RunFrom(c, calls).outcome != Halted
    ensures Inv(c, Initial(c))
    ensures var s := RunFrom(c, calls).state;
            Ready(c, s) && AcceptedFrames(c, Initial(c), calls) == Written(FlushAll(c, s).items)
            && NothingPending(FlushAll(c, s))
  {
    InitialInv(c);
    var s := RunFrom(c, calls).state;
    hide Inv, AcceptedFrames, Run, Written, Pending, FlushAll, Sound;
    RunLogs(c, Initial(c), calls);
    FlushAllWritesAll(c, s);
    NothingAccepted(c);
  }

  lemma NothingAccepted(c: Config)
    ensures forall a: seq<Frame> :: Initial(c).accepted + a == a
  {
  }

  lemma FlushAllWritesAll(c: Config, s: State)
    requires Inv(c, s)
    ensures Ready(c, s) && NothingPending(FlushAll(c, s)) && s.accepted == Written(FlushAll(c, s).items)
  {
    hide CuesTrue, FramesOk, Budgeted, Linked, ProperItems, Tracked, Written, Pending, FlushAll;
    AllFlushed(c, s);
    FlushAllKeeps(c, s);
    NonePending(FlushAll(c, s).laces);
    assert Written(FlushAll(c, s).items) + [] == Written(FlushAll(c, s).items);
  }

  /**
   * Timestamps are exact: Cluster time plus Block offset is the time of the packet that opened
   * the Block; the offset fits its 16 bits and, for times from 0 on, the Cluster's duration.
   */
  lemma TimestampsAreExact(c: Config, calls: seq<Call>, k: nat, j: nat)
    requires ValidConfig(c)
    requires var items := RunFrom(c, calls).state.items;
             k < |items| && items[k].Cluster? && j < |items[k].blocks|
    ensures var cl := RunFrom(c, calls).state.items[k];
            var r := cl.blocks[j];
            && |r.sources| >= 1
            && cl.time + r.block.offset == r.sources[0].ms
            && -0x8000 <= r.block.offset <= 0x7FFF
            && (r.sources[0].ms >= 0 ==> 0 <= r.block.offset <= c.maxMs)
            && r.block.frames == Datas(r.sources)
  {
    hide CuesTrue, Conserved, ClustersWithin, Chained, ProperItems, Run, Inv;
    var cl := RunFrom(c, calls).state.items[k];
    assert Filed(c, cl.time, cl.blocks[j]);
  }

  // ----- the byte budget -----

  /** No Cluster passes its byte budget by more than its last Block, or its last two under lacing. */
  lemma BudgetHolds(c: Config, calls: seq<Call>, k: nat)
    requires ValidConfig(c)
    requires var items := RunFrom(c, calls).state.items; k < |items| && items[k].Cluster?
    ensures Within(c, RunFrom(c, calls).state.items[k].blocks, if c.mode == NoLacing then 1 else 2)
  {
    hide CuesTrue, Conserved, AllFiled, Chained, ProperItems, Run, Inv, Within;
  }

  /** The documented promise: a Cluster exceeds the byte budget by at most one Block. */
  ghost predicate AtMostOneOver(c: Config)
    requires ValidConfig(c)
  {
    forall calls, k ::
      var items := RunFrom(c, calls).state.items;
      0 <= k < |items| && items[k].Cluster? ==> Within(c, items[k].blocks, 1)
  }

  function KeyFlip(c: Config, key: bool): Call {
    Write(Packet(0, Zeroes(c.maxBytes), Some(0), None, key), Plain)
  }

  function Flipped(c: Config, key: bool): Frame
    requires c.tracks != []
  {
    Frame(0, Zeroes(c.maxBytes), 0, key, DurationMs(KeyFlip(c, key).packet, c.tracks[0]), None)
  }

  /** Three packets of one track, each as long as the budget, with alternating key flags. */
  function Flips(c: Config): seq<Call> {
    [KeyFlip(c, true), KeyFlip(c, false), KeyFlip(c, true)]
  }

  /** Zeroes are no transport header. */
  lemma ZeroesPass(c: Config, key: bool)
    requires ValidConfig(c) && c.tracks != []
    ensures FrameData(c, KeyFlip(c, key).packet) == Some(Zeroes(c.maxBytes))
  {
  }

  lemma ZeroMs(t: Track)
    ensures PtsToMs(0, t) == 0
  {
  }

  lemma BlockIsLonger(r: BlockRec, data: seq<byte>)
    requires r.siblings.None? && r.block.mode == NoLacing && r.block.frames == [data]
    ensures |Ser(BlockElem(r))| >= |data|
  {
  }

  /** The first packet opens a Cluster and waits in the lace. */
  lemma FirstFlip(c: Config, s: State)
    requires ValidConfig(c) && c.tracks != [] && c.mode != NoLacing && s == Initial(c)
    requires Inv(c, s)
    ensures var r := Apply(c, s, KeyFlip(c, true));
            && r.outcome == Accepted && r.state.open && r.state.tc == 0 && r.state.bytes == 0 && r.state.silent == []
            && |r.state.items| == 1 && r.state.items[0].Cluster? && r.state.items[0].blocks == []
            && Ready(c, r.state)
            && r.state.laces[0] == LaceBuffer(0, true, [Flipped(c, true)])
            && forall j :: 0 < j < |r.state.laces| ==> r.state.laces[j].frames == []
  {
    ZeroMs(c.tracks[0]);
    ZeroesPass(c, true);
    var p := KeyFlip(c, true).packet;
    assert Ready(c, s) && OnlyOnePending(c, s);
    hide Zeroes, PtsToMs, FullLead, Cursor, FrameData, Ticks, Inv;
    var timed := Timed(c, s, p);
    NothingPendingStays(c, timed, 0, Some(0));
    NothingToFlush(c, timed, 0);
  }

  lemma {:induction false} NothingPendingStays(c: Config, s: State, i: nat, keep: Option<nat>)
    requires Ready(c, s) && i <= |c.tracks|
    requires forall j :: 0 <= j < |s.laces| && Some(j) != keep ==> s.laces[j].frames == []
    ensures FlushFrom(c, s, i, keep) == s
    decreases |c.tracks| - i
  {
    hide FlushLace;
    if i < |c.tracks| {
      if keep != Some(i) {
        NothingToFlush(c, s, i);
      }
      NothingPendingStays(c, s, i + 1, keep);
    }
  }

  /** The second packet's key flag pushes the first one out, and it waits in turn. */
  lemma SecondFlip(c: Config, s: State)
    requires ValidConfig(c) && c.tracks != [] && c.mode != NoLacing && Ready(c, s) && OnlyOnePending(c, s)
    requires s.open && s.tc == 0 && s.bytes == 0 && |s.items| == 1 && s.items[0].Cluster? && s.items[0].blocks == []
    requires s.laces[0] == LaceBuffer(0, true, [Flipped(c, true)]) && s.silent == []
    requires forall j :: 0 < j < |s.laces| ==> s.laces[j].frames == []
    ensures var r := Apply(c, s, KeyFlip(c, false));
            && r.outcome == Accepted && r.state.open && r.state.tc == 0 && Ready(c, r.state) && r.state.silent == []
            && |r.state.items| == 1 && r.state.items[0].Cluster?
            && r.state.items[0].blocks == [LaceBlock(c, 0, s.laces[0])]
            && r.state.bytes >= c.maxBytes
            && r.state.laces[0].frames == [Flipped(c, false)]
            && forall j :: 0 < j < |r.state.laces| ==> r.state.laces[j].frames == []
  {
    hide Zeroes, PtsToMs, Cursor, BlockElem, FrameData, Ticks, Timed, FlushFrom, Datas;
    ZeroMs(c.tracks[0]);
    ZeroesPass(c, false);
    var p := KeyFlip(c, false).packet;
    TimedFields(c, s, p);
    var timed := Timed(c, s, p);
    NothingPendingStays(c, timed, 0, Some(0));
    var r := LaceBlock(c, 0, s.laces[0]);
    DatasOne(s.laces[0].frames[0]);
    BlockIsLonger(r, Zeroes(c.maxBytes));
  }

  lemma DatasOne(f: Frame)
    ensures Datas([f]) == [f.data]
  {
    assert [f][1..] == [];
  }

  /** The third packet needs a new Cluster, so the second one becomes the old Cluster's second Block. */
  lemma ThirdFlip(c: Config, s: State)
    requires ValidConfig(c) && c.tracks != [] && c.mode != NoLacing && Ready(c, s) && OnlyOnePending(c, s)
    requires s.open && s.tc == 0 && s.bytes >= c.maxBytes && |s.items| == 1 && s.items[0].Cluster?
    requires s.laces[0].frames != [] && s.silent == []
    requires forall j :: 0 < j < |s.laces| ==> s.laces[j].frames == []
    ensures var r := Apply(c, s, KeyFlip(c, true));
            && r.outcome == Accepted && |r.state.items| == 2 && r.state.items[0].Cluster?
            && r.state.items[0].blocks == s.items[0].blocks + [LaceBlock(c, 0, s.laces[0])]
  {
    hide Zeroes, PtsToMs, Cursor, BlockElem, LaceBlock, FullLead, FlushLace, Place, FrameData, Ticks, FlushFrom;
    ZeroesPass(c, true);
    ZeroMs(c.tracks[0]);
    var p := KeyFlip(c, true).packet;
    TimedFields(c, s, p);
    hide Timed, WritePacket, NeedsCluster;
    var timed := Timed(c, s, p);
    NothingPendingStays(c, timed, 0, Some(0));
    var ended := FlushLace(c, timed, 0);
    FlushLaceItems(c, timed, 0);
    FlushLaceOthers(c, timed, 0);
    var started := StartCluster(c, ended, 0);
    PlaceEmpty(c, started, Flipped(c, true));
    StartsOver(c, s, p);
  }

  /** A full Cluster ends, with the track's lace in it, before a packet that comes alone. */
  lemma StartsOver(c: Config, s: State, p: Packet)
    requires Ready(c, s) && OnlyOnePending(c, s) && p.stream < |c.tracks| && FrameData(c, p).Some? && c.mode != NoLacing
    requires var timed := Timed(c, s, p);
             FlushFrom(c, timed, 0, Some(p.stream)) == timed && timed.bytes >= c.maxBytes && timed.silent == []
             && NothingPending(FlushLace(c, timed, p.stream)) && FlushLace(c, timed, p.stream).silent == []
    ensures WritePacket(c, s, p, Plain)
         == Placed(c, StartCluster(c, FlushLace(c, Timed(c, s, p), p.stream), TimeOf(c, s, p)),
                   FrameOf(c, s, p, None))
  {
    hide PtsToMs, EffectivePts, FlushLace, FlushFrom, Timed, FrameData, StartCluster, Placed;
  }

  lemma PlaceEmpty(c: Config, s: State, f: Frame)
    requires Ready(c, s) && s.open && f.stream < |c.tracks| && c.mode != NoLacing && s.laces[f.stream].frames == []
    requires f.group.None?
    ensures Place(c, s, f).items == s.items
  {
  }

  /** The documented one-Block bound holds in all runs exactly without lacing. */
  lemma OneBlockBoundExactly(c: Config)
    requires ValidConfig(c)
    ensures AtMostOneOver(c) <==> c.mode == NoLacing || c.tracks == []
  {
    hide RunFrom, Within, Inv, Sound;
    if c.mode == NoLacing {
      forall calls, k | 0 <= k < |RunFrom(c, calls).state.items| && RunFrom(c, calls).state.items[k].Cluster?
        ensures Within(c, RunFrom(c, calls).state.items[k].blocks, 1)
      {
        BudgetHolds(c, calls, k);
      }
    } else if c.tracks == [] {
      forall calls, k | 0 <= k < |RunFrom(c, calls).state.items|
        ensures RunFrom(c, calls).state.items[k].Fixed?
      {
        NoTracksNoClusters(c, calls);
      }
    } else {
      FlipsBreakIt(c);
      assert !AtMostOneOver(c);
    }
  }

  lemma FlipsBreakIt(c: Config)
    requires ValidConfig(c) && c.mode != NoLacing && c.tracks != []
    ensures var items := RunFrom(c, Flips(c)).state.items;
            |items| == 2 && items[0].Cluster? && !Within(c, items[0].blocks, 1)
  {
    InitialInv(c);
    FlipStates(c, Initial(c));
  }

  lemma FlipStates(c: Config, s: State)
    requires ValidConfig(c) && c.mode != NoLacing && c.tracks != [] && s == Initial(c) && Inv(c, s)
    ensures var items := Run(c, s, Flips(c)).state.items;
            |items| == 2 && items[0].Cluster? && !Within(c, items[0].blocks, 1)
  {
    hide Apply, Inv, Sound, Initial, Within, LaceBlock, Run, KeyFlip;
    FlipsAreProper(c);
    InvReady(c, s);
    FirstFlip(c, s);
    var s1 := FlipKeeps(c, s, true);
    SecondFlip(c, s1);
    var s2 := FlipKeeps(c, s1, false);
    ThirdFlip(c, s2);
    var _ := FlipKeeps(c, s2, true);
    RunThree(c, s, Flips(c));
    FirstBlockFills(c, s1.laces[0], s2.items[0].blocks, LaceBlock(c, 0, s2.laces[0]));
  }

  lemma FlipsAreProper(c: Config)
    ensures |Flips(c)| == 3
    ensures forall i :: 0 <= i < 3 ==> Flips(c)[i] == KeyFlip(c, i != 1)
  {
  }

  lemma FlipKeeps(c: Config, s: State, key: bool) returns (t: State)
    requires ValidConfig(c) && Inv(c, s) && Ready(c, s) && OnlyOnePending(c, s)
             && Apply(c, s, KeyFlip(c, key)).outcome == Accepted
    ensures t == Apply(c, s, KeyFlip(c, key)).state && Inv(c, t) && Ready(c, t) && OnlyOnePending(c, t)
  {
    hide Apply, Inv, Sound;
    ApplyKeeps(c, s, KeyFlip(c, key));
    t := Apply(c, s, KeyFlip(c, key)).state;
    InvReady(c, t);
  }

  lemma InvReady(c: Config, s: State)
    requires Inv(c, s)
    ensures Ready(c, s) && OnlyOnePending(c, s)
  {
  }

  lemma FirstBlockFills(c: Config, l: LaceBuffer, blocks: seq<BlockRec>, last: BlockRec)
    requires c.tracks != [] && l.frames == [Flipped(c, true)]
    requires blocks == [LaceBlock(c, 0, l)]
    ensures !Within(c, blocks + [last], 1)
  {
    hide BlockElem, Zeroes;
    DatasOne(l.frames[0]);
    BlockIsLonger(LaceBlock(c, 0, l), Zeroes(c.maxBytes));
    assert (blocks + [last])[..1] == [] + [LaceBlock(c, 0, l)];
    BlockBytesSnoc([], LaceBlock(c, 0, l));
  }

  lemma RunThree(c: Config, s: State, calls: seq<Call>)
    requires ValidConfig(c) && Inv(c, s) && |calls| == 3
    requires Ready(c, s) && OnlyOnePending(c, s) && Apply(c, s, calls[0]).outcome == Accepted
    requires var s1 := Apply(c, s, calls[0]).state;
             Inv(c, s1) && Ready(c, s1) && OnlyOnePending(c, s1) && Apply(c, s1, calls[1]).outcome == Accepted
    requires var s2 := Apply(c, Apply(c, s, calls[0]).state, calls[1]).state;
             Inv(c, s2) && Ready(c, s2) && OnlyOnePending(c, s2) && Apply(c, s2, calls[2]).outcome == Accepted
    ensures Run(c, s, calls).state
         == Apply(c, Apply(c, Apply(c, s, calls[0]).state, calls[1]).state, calls[2]).state
  {
    hide Apply, Inv, Sound;
    var s1 := Apply(c, s, calls[0]).state;
    var s2 := Apply(c, s1, calls[1]).state;
    ApplyKeeps(c, s2, calls[2]);
    assert calls[1..][1..] == calls[2..] && calls[2..][1..] == [];
    assert Run(c, s2, calls[2..]).state == Apply(c, s2, calls[2]).state;
    assert Run(c, s1, calls[1..]) == Run(c, s2, calls[2..]);
  }

  

  lemma {:induction false} NoTracksNoClusters(c: Config, calls: seq<Call>)
    requires ValidConfig(c) && c.tracks == []
    ensures forall k :: 0 <= k < |RunFrom(c, calls).state.items| ==> RunFrom(c, calls).state.items[k].Fixed?
  {
    InitialInv(c);
    hide Inv, Sound;
    NoClustersFrom(c, Initial(c), calls);
  }

  lemma {:induction false} NoClustersFrom(c: Config, s: State, calls: seq<Call>)
    requires ValidConfig(c) && Inv(c, s) && c.tracks == []
    requires forall k :: 0 <= k < |s.items| ==> s.items[k].Fixed?
    ensures forall k :: 0 <= k < |Run(c, s, calls).state.items| ==> Run(c, s, calls).state.items[k].Fixed?
    decreases |calls|
  {
    hide Inv, Sound;
    if calls != [] {
      InvReady(c, s);
      ApplyKeeps(c, s, calls[0]);
      NoClustersStep(c, s, calls[0]);
      NoClustersFrom(c, Apply(c, s, calls[0]).state, calls[1..]);
    }
  }

  lemma NoClustersStep(c: Config, s: State, call: Call)
    requires Ready(c, s) && OnlyOnePending(c, s) && c.tracks == []
    requires forall k :: 0 <= k < |s.items| ==> s.items[k].Fixed?
    ensures var r := Apply(c, s, call);
            r.outcome != Halted && forall k :: 0 <= k < |r.state.items| ==> r.state.items[k].Fixed?
  {
    hide WritePacket, Admit, TopLevel, FlushLace, TagsAdmitted;
    match call
    case Write(p, wrap) =>
      if Admit(c, p.stream, wrap).Some? {
        AdmitRange(c, p.stream, wrap);
      }
      RejectedAtOnce(c, s, p, wrap);
    case LiveTags(tags) =>
      assert FlushAll(c, s) == s;
    case Silence(numbers) =>
  }

  // ----- walking backwards -----

  /** The positions of the Clusters among the first `n` items, last one first. */
  function Starts(c: Config, items: seq<Item>, n: nat): seq<nat>
    requires n <= |items|
  {
    if n == 0 then []
    else (if items[n - 1].Cluster? then [ItemAt(c, items, n - 1)] else []) + Starts(c, items, n - 1)
  }

  /** The Cluster before item `n` that starts at a position. */
  function Landing(c: Config, items: seq<Item>, n: nat, at: int): (r: Option<nat>)
    requires n <= |items|
    ensures r.Some? ==> r.value < n && StartsAt(c, items, r.value, at)
    ensures r.None? ==> forall j: nat :: j < n ==> !StartsAt(c, items, j, at)
  {
    if n == 0 then None
    else if StartsAt(c, items, n - 1, at) then Some(n - 1)
    else Landing(c, items, n - 1, at)
  }

  /** Step back by each Cluster's PrevSize for as long as that lands on a Cluster. */
  function BackWalk(c: Config, items: seq<Item>, k: nat): seq<nat>
    requires k < |items| && items[k].Cluster?
    decreases k
  {
    [ItemAt(c, items, k)] +
    match PrevSizeOf(items[k])
    case None => []
    case Some(size) =>
      match Landing(c, items, k, ItemAt(c, items, k) - size)
      case None => []
      case Some(j) => BackWalk(c, items, j)
  }

  /** Positions grow with the index, so a position names one Cluster. */
  lemma {:induction false} PositionsGrow(c: Config, items: seq<Item>, j: nat, k: nat)
    requires j < k <= |items| && items[j].Cluster?
    ensures ItemAt(c, items, j) < ItemAt(c, items, k)
    decreases k
  {
    hide ItemAt, ItemElem, Ser;
    ItemAtNext(c, items, k - 1);
    if j < k - 1 {
      PositionsGrow(c, items, j, k - 1);
    } else {
      hide SerAll, BlockElems;
      ClusterBytes(items[j]);
    }
  }

  /** The predecessor of a Cluster, if it has one. */
  lemma {:induction false} PrevIs(c: Config, items: seq<Item>, k: nat) returns (j: nat)
    requires k <= |items|
    ensures PrevAt(c, items, k) == None ==> Starts(c, items, k) == []
    ensures PrevAt(c, items, k).Some? ==>
              && j < k && StartsAt(c, items, j, PrevAt(c, items, k).value)
              && Starts(c, items, k) == Starts(c, items, j + 1)
  {
    hide ItemAt;
    j := 0;
    if k > 0 {
      if items[k - 1].Cluster? {
        j := k - 1;
      } else {
        j := PrevIs(c, items, k - 1);
      }
    }
  }

  /** The hints as a reader finds them. */
  lemma PrevSizeReads(c: Config, items: seq<Item>, k: nat)
    requires c.hints && Chained(c, items) && k < |items| && items[k].Cluster?
    requires ItemAt(c, items, k) < TWO_TO_THE_64
    requires PrevAt(c, items, k).Some? ==> PrevAt(c, items, k).value < ItemAt(c, items, k)
    ensures PrevSizeOf(items[k]) == match PrevAt(c, items, k)
                                    case None => None
                                    case Some(at) => Some(ItemAt(c, items, k) - at)
  {
    hide ItemAt, PrevAt, Uint, UintBody, Body, Lead, Find, RawsOf;
    var prev := PrevAt(c, items, k);
    var lead := Lead(c, items[k].time, ItemAt(c, items, k), prev);
    var more := items[k].lead[|lead|..];
    assert LedBy(lead, items[k].lead);
    NoPrevSize(more);
    LeadLookup(c, items[k].time, ItemAt(c, items, k), prev, more);
    assert items[k].lead == lead + more;
    if prev.Some? {
      UintBodyReads(PREV_SIZE, ItemAt(c, items, k) - prev.value);
    }
  }

  lemma {:induction false} NoPrevSize(es: seq<Elem>)
    requires forall i :: 0 <= i < |es| ==> es[i].id == SILENT_TRACKS
    ensures Find(RawsOf(es), PREV_SIZE) == None
  {
    hide Body, RawsOf, Find;
    if es == [] {
      FindNothing(PREV_SIZE);
    } else {
      assert es == [es[0]] + es[1..];
      FindField(es[0], es[1..], PREV_SIZE);
      NoPrevSize(es[1..]);
    }
  }

  lemma LeadLookup(c: Config, ms: int, at: nat, prev: Option<nat>, more: seq<Elem>)
    requires c.hints && Find(RawsOf(more), PREV_SIZE) == None && (prev.Some? ==> prev.value < at)
    ensures Find(RawsOf(Lead(c, ms, at, prev) + more), PREV_SIZE)
         == if prev.Some? then Some(Body(Uint(PREV_SIZE, at - prev.value))) else None
  {
    hide Body, RawsOf, Find, Uint;
    var position := if c.strict then [] else [Uint(POSITION, if c.live then 0 else at)];
    var size := if prev.Some? then [Uint(PREV_SIZE, at - prev.value)] else [];
    var time := Uint(TIMECODE, NonNegative(ms));
    assert Lead(c, ms, at, prev) + more == [time] + (position + (size + more));
    UintIsLeaf(TIMECODE, NonNegative(ms));
    FindField(time, position + (size + more), PREV_SIZE);
    SkipPosition(c, at, size + more);
    if prev.Some? {
      UintIsLeaf(PREV_SIZE, at - prev.value);
      FindField(size[0], more, PREV_SIZE);
    } else {
      assert size + more == more;
    }
  }

  lemma SkipPosition(c: Config, at: nat, rest: seq<Elem>)
    ensures var position := if c.strict then [] else [Uint(POSITION, if c.live then 0 else at)];
            Find(RawsOf(position + rest), PREV_SIZE) == Find(RawsOf(rest), PREV_SIZE)
  {
    hide Body, RawsOf, Find, Uint;
    if c.strict {
      assert [] + rest == rest;
    } else {
      var value := if c.live then 0 else at;
      UintIsLeaf(POSITION, value);
      FindField(Uint(POSITION, value), rest, PREV_SIZE);
    }
  }

  lemma OnlyOneStart(c: Config, items: seq<Item>, i: nat, j: nat, at: int)
    requires StartsAt(c, items, i, at) && StartsAt(c, items, j, at)
    ensures i == j
  {
    hide ItemAt;
    if i < j {
      PositionsGrow(c, items, i, j);
    } else if j < i {
      PositionsGrow(c, items, j, i);
    }
  }

  /** PrevSize leads from a Cluster to the start of its predecessor. */
  lemma LandsOnPrevious(c: Config, items: seq<Item>, k: nat, j: nat)
    requires c.hints && Chained(c, items) && j < k < |items| && items[k].Cluster?
    requires ItemAt(c, items, k) < TWO_TO_THE_64
    requires PrevAt(c, items, k).Some? && StartsAt(c, items, j, PrevAt(c, items, k).value)
    ensures PrevSizeOf(items[k]).Some?
    ensures Landing(c, items, k, ItemAt(c, items, k) - PrevSizeOf(items[k]).value) == Some(j)
    ensures ItemAt(c, items, j) < ItemAt(c, items, k)
  {
    hide ItemAt, Chained, PrevSizeOf, PrevAt, Landing;
    var at := PrevAt(c, items, k).value;
    PositionsGrow(c, items, j, k);
    PrevSizeReads(c, items, k);
    assert Landing(c, items, k, at).Some?;
    OnlyOneStart(c, items, Landing(c, items, k, at).value, j, at);
  }

  /** One step of the walk. */
  lemma BackWalkStep(c: Config, items: seq<Item>, k: nat, j: Option<nat>)
    requires k < |items| && items[k].Cluster?
    requires j == if PrevSizeOf(items[k]).None? then None
                  else Landing(c, items, k, ItemAt(c, items, k) - PrevSizeOf(items[k]).value)
    ensures j.Some? ==> j.value < k && items[j.value].Cluster?
    ensures BackWalk(c, items, k)
         == [ItemAt(c, items, k)] + if j.Some? then BackWalk(c, items, j.value) else []
  {
    hide ItemAt, PrevSizeOf, Landing;
  }

  lemma StartsStep(c: Config, items: seq<Item>, k: nat)
    requires k < |items| && items[k].Cluster?
    ensures Starts(c, items, k + 1) == [ItemAt(c, items, k)] + Starts(c, items, k)
  {
    hide ItemAt;
  }

  /** From any Cluster the walk visits every earlier one, back to the first. */
  lemma {:induction false} BackWalkVisitsAll(c: Config, items: seq<Item>, k: nat)
    requires c.hints && Chained(c, items) && k < |items| && items[k].Cluster?
    requires ItemAt(c, items, k) < TWO_TO_THE_64
    ensures BackWalk(c, items, k) == Starts(c, items, k + 1)
    decreases k
  {
    hide ItemAt, Chained, PrevSizeOf, PrevAt, Landing, BackWalk, Starts;
    var j := PrevIs(c, items, k);
    StartsStep(c, items, k);
    if PrevAt(c, items, k).Some? {
      LandsOnPrevious(c, items, k, j);
      BackWalkStep(c, items, k, Some(j));
      BackWalkVisitsAll(c, items, j);
    } else {
      PrevSizeReads(c, items, k);
      BackWalkStep(c, items, k, None);
    }
  }

  /** With position hints on, the backward walk works from every Cluster of every run. */
  lemma BackwardWalkWorks(c: Config, calls: seq<Call>, k: nat)
    requires ValidConfig(c) && c.hints
    requires var items := RunFrom(c, calls).state.items;
             k < |items| && items[k].Cluster? && ItemAt(c, items, k) < TWO_TO_THE_64
    ensures var items := RunFrom(c, calls).state.items; BackWalk(c, items, k) == Starts(c, items, k + 1)
  {
    hide CuesTrue, Conserved, AllFiled, ClustersWithin, Chained, ProperItems, Run, Inv, BackWalk, Starts, ItemAt;
    BackWalkVisitsAll(c, RunFrom(c, calls).state.items, k);
  }

  /** Whatever stands between two Clusters, the later one's predecessor is the earlier. */
  lemma {:induction false} PrevAcross(c: Config, items: seq<Item>, j: nat, k: nat)
    requires j < k <= |items| && items[j].Cluster? && forall i :: j < i < k ==> items[i].Fixed?
    ensures PrevAt(c, items, k) == Some(ItemAt(c, items, j))
  {
    hide ItemAt;
    if k > j + 1 {
      PrevAcross(c, items, j, k - 1);
    }
  }

  lemma ItemsHaveBytes(item: Item)
    ensures |Ser(ItemElem(item))| > 0
  {
  }

  lemma {:induction false} GapsGrow(c: Config, items: seq<Item>, j: nat, k: nat)
    requires j < k <= |items|
    ensures ItemAt(c, items, j) < ItemAt(c, items, k)
  {
    hide ItemAt, ItemElem, Ser;
    ItemAtNext(c, items, k - 1);
    ItemsHaveBytes(items[k - 1]);
    if j < k - 1 {
      GapsGrow(c, items, j, k - 1);
    }
  }

  /** PrevSize is the size of the whole previous Cluster exactly if no live Tags stand between the two. */
  lemma PrevSizeIsClusterSize(c: Config, calls: seq<Call>, j: nat, k: nat)
    requires ValidConfig(c) && c.hints
    requires var items := RunFrom(c, calls).state.items;
             && j < k < |items| && items[j].Cluster? && items[k].Cluster? && (forall i :: j < i < k ==> items[i].Fixed?)
             && ItemAt(c, items, k) < TWO_TO_THE_64
    ensures var items := RunFrom(c, calls).state.items;
            PrevSizeOf(items[k]) == Some(|Ser(ItemElem(items[j]))|) <==> k == j + 1
  {
    hide CuesTrue, Conserved, AllFiled, ClustersWithin, Chained, ProperItems, Run, Inv, ItemAt, PrevSizeOf, ItemElem,
      Ser;
    var items := RunFrom(c, calls).state.items;
    PrevAcross(c, items, j, k);
    PositionsGrow(c, items, j, k);
    PrevSizeReads(c, items, k);
    ItemAtNext(c, items, j);
    if k > j + 1 {
      GapsGrow(c, items, j + 1, k);
    }
  }

  // ----- the fields -----

  /**
   * At every moment the muxer's fields say what is in the file: the open Cluster is the last
   * item, `cluster_bytes` and `cluster_block_count` are the sums over its Blocks, and at most one
   * lace is pending, in an open Cluster and only under lacing.
   */
  lemma FieldsMatchTheFile(c: Config, calls: seq<Call>)
    requires ValidConfig(c) && RunFrom(c, calls).outcome != Halted
    ensures var s := RunFrom(c, calls).state;
            && (s.open ==>
                  && s.items != [] && s.items[|s.items| - 1].Cluster?
                  && var cl := s.items[|s.items| - 1];
                     && s.tc == cl.time && s.count == |cl.blocks| && s.bytes == BlockBytes(cl.blocks)
                     && s.clusterAt == ItemAt(c, s.items, |s.items| - 1))
            && (forall i, j :: 0 <= i < j < |s.laces| ==> s.laces[i].frames == [] || s.laces[j].frames == [])
            && (forall i :: 0 <= i < |s.laces| && s.laces[i].frames != [] ==> s.open && c.mode != NoLacing)
  {
    hide CuesTrue, FramesOk, Conserved, Budgeted, Linked, ProperItems, Run, Sound, ItemAt, BlockBytes;
  }
}
