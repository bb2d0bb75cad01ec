/**
 * No Block and no Cluster is smaller than it has to be: what keeps two neighbouring Blocks out of one
 * lace, and what ends a Cluster, told from the file alone.
 */
module MuxerPolicy {
  import opened Wrappers
  import opened Elements
  import opened Lacing
  import opened Tags
  import opened Muxer
  import opened MuxerLayout
  import opened MuxerCues
  import opened MuxerFrames
  import opened MuxerBudget
  import opened MuxerChain
  import opened MuxerProfile
  import opened MuxerRun

  // ----- the two policies -----

  /**
   * A frame could have joined the lace of these: of one track, without groups, alike in their key
   * flag, of the same length under fixed-size lacing, and fewer than eight.
   */
  predicate CouldJoin(c: Config, frames: seq<Frame>, f: Frame) {
    && c.mode != NoLacing && 0 < |frames| < 8
    && frames[0].group.None? && f.group.None?
    && frames[0].stream == f.stream && frames[0].key == f.key
    && (c.mode == FixedSize ==> |frames[0].data| == |f.data|)
  }

  /** A Block could not have taken in the first frame of the next one. */
  predicate Apart(c: Config, r: BlockRec, next: BlockRec) {
    next.sources != [] && !CouldJoin(c, r.sources, next.sources[0])
  }

  predicate Greedy(c: Config, blocks: seq<BlockRec>) {
    forall j :: 0 <= j < |blocks| - 1 ==> Apart(c, blocks[j], blocks[j + 1])
  }

  predicate AllGreedy(c: Config, items: seq<Item>) {
    forall k :: 0 <= k < |items| && items[k].Cluster? ==> Greedy(c, items[k].blocks)
  }

  /**
   * Why a Cluster ends: the next time is before it or too far behind it, or its bytes are spent. A
   * negative time, which is written as 0, is before any Cluster.
   */
  predicate HasEnded(c: Config, before: Item, time: nat)
    requires before.Cluster?
  {
    time < before.time || time > before.time + c.maxMs || time == 0 || BlockBytes(before.blocks) >= c.maxBytes
  }

  predicate AllEnded(c: Config, items: seq<Item>) {
    forall k :: 0 <= k < |items| - 1 && items[k].Cluster? && items[k + 1].Cluster? ==>
      HasEnded(c, items[k], items[k + 1].time)
  }

  // ----- what the muxer keeps -----

  /** The Blocks end in one that could not have taken in this frame. */
  predicate EndsBefore(c: Config, blocks: seq<BlockRec>, f: Frame) {
    blocks == [] || !CouldJoin(c, blocks[|blocks| - 1].sources, f)
  }

  predicate Compact(c: Config, s: State) {
    && AllGreedy(c, s.items) && AllEnded(c, s.items)
    && (s.open <==> Last(s.items))
    && (s.open ==> forall i :: 0 <= i < |s.laces| && s.laces[i].frames != [] ==>
          EndsBefore(c, s.items[|s.items| - 1].blocks, s.laces[i].frames[0]))
  }

  predicate GroupLast(blocks: seq<BlockRec>) {
    blocks != [] ==> var r := blocks[|blocks| - 1]; r.sources != [] && r.sources[0].group.Some?
  }

  /** Between calls, nothing is pending with lacing only behind a group. */
  predicate Resting(c: Config, s: State) {
    s.open && c.mode != NoLacing && NothingPending(s) ==>
      Last(s.items) && GroupLast(s.items[|s.items| - 1].blocks)
  }

  /** A frame that opens a lace could not have joined the Block before it. */
  predicate MayOpen(c: Config, s: State, f: Frame)
    requires f.stream < |s.laces|
  {
    s.open && f.group.None? && c.mode != NoLacing && s.laces[f.stream].frames == [] ==>
      Last(s.items) && EndsBefore(c, s.items[|s.items| - 1].blocks, f)
  }

  lemma GreedySnoc(c: Config, blocks: seq<BlockRec>, r: BlockRec)
    requires Greedy(c, blocks) && r.sources != [] && EndsBefore(c, blocks, r.sources[0])
    ensures Greedy(c, blocks + [r])
  {
    hide CouldJoin;
    var more := blocks + [r];
    forall j | 0 <= j < |more| - 1
      ensures Apart(c, more[j], more[j + 1])
    {
      if j < |blocks| - 1 {
        assert Apart(c, blocks[j], blocks[j + 1]);
      }
    }
  }

  lemma PutGreedy(c: Config, items: seq<Item>, r: BlockRec)
    requires AllGreedy(c, items) && AllEnded(c, items) && Last(items)
    requires r.sources != [] && EndsBefore(c, items[|items| - 1].blocks, r.sources[0])
    ensures AllGreedy(c, Put(items, r)) && AllEnded(c, Put(items, r)) && Last(Put(items, r))
    ensures |Put(items, r)| == |items| && Put(items, r)[|items| - 1].time == items[|items| - 1].time
    ensures Put(items, r)[|items| - 1].blocks == items[|items| - 1].blocks + [r]
  {
    hide CouldJoin, BlockBytes, Greedy, EndsBefore;
    var n := |items| - 1;
    var blocks, t := items[n].blocks, Put(items, r);
    assert t[n].blocks == blocks + [r] && forall k :: 0 <= k < n ==> t[k] == items[k];
    GreedySnoc(c, blocks, r);
  }

  /** A flushed lace is the last Block, and nothing is pending behind it. */
  lemma FlushLaceCompacts(c: Config, s: State, i: nat)
    requires Inv(c, s) && Compact(c, s) && i < |c.tracks|
    ensures var t := FlushLace(c, s, i);
            && Compact(c, t)
            && (s.laces[i].frames == [] ==> t == s)
            && (s.laces[i].frames != [] ==>
                  NothingPending(t) && s.open && Last(t.items) && |t.items| == |s.items|
                  && t.items[|t.items| - 1].time == s.items[|s.items| - 1].time
                  && t.items[|t.items| - 1].blocks
                  == s.items[|s.items| - 1].blocks + [LaceBlock(c, i, s.laces[i])])
  {
    hide AllGreedy, AllEnded, CouldJoin, EndsBefore, LaceBlock, FlushLace, Put, CuesTrue, FramesOk, Conserved, Linked,
      ProperItems, Tracked, Budgeted;
    if s.laces[i].frames == [] {
      NothingToFlush(c, s, i);
    } else {
      FlushLaceItems(c, s, i);
      LaceSources(c, i, s.laces[i]);
      PutGreedy(c, s.items, LaceBlock(c, i, s.laces[i]));
    }
  }

  lemma LaceSources(c: Config, i: nat, l: LaceBuffer)
    requires i < |c.tracks|
    ensures LaceBlock(c, i, l).sources == l.frames
  {
    hide Datas;
  }

  lemma OtherStream(c: Config, s: State, i: nat, f: Frame)
    requires Inv(c, s) && i < |c.tracks| && s.laces[i].frames != [] && i != f.stream
    ensures !CouldJoin(c, s.laces[i].frames, f)
  {
    hide AllFiled, EqualSizes, SameKey, OnTime, CuesTrue, Conserved, Linked, ProperItems, Tracked, Budgeted;
    assert LaceOk(c, s.tc, i, s.laces[i]);
  }

  /** The other tracks' laces are flushed; if one was pending, it is the last Block. */
  lemma {:induction false} FlushFromCompacts(c: Config, s: State, i: nat, keep: Option<nat>)
    requires Inv(c, s) && Compact(c, s) && i <= |c.tracks|
    ensures Compact(c, FlushFrom(c, s, i, keep))
    decreases |c.tracks| - i
  {
    hide Inv, Compact, FlushLace;
    InvHolds(c, s);
    if i < |c.tracks| {
      if keep != Some(i) {
        FlushLaceCompacts(c, s, i);
        FlushLaceKeeps(c, s, i);
      }
      FlushFromCompacts(c, if keep == Some(i) then s else FlushLace(c, s, i), i + 1, keep);
    }
  }

  lemma InvHolds(c: Config, s: State)
    requires Inv(c, s)
    ensures Ready(c, s) && OnlyOnePending(c, s)
  {
  }

  lemma {:induction false} FlushFromMayOpen(c: Config, s: State, i: nat, f: Frame)
    requires Inv(c, s) && Compact(c, s) && i <= |c.tracks| && f.stream < |c.tracks| && |s.laces| == |c.tracks|
    requires forall j :: 0 <= j < i && j != f.stream ==> s.laces[j].frames == []
    requires (forall j :: 0 <= j < |s.laces| && j != f.stream ==> s.laces[j].frames == []) ==> MayOpen(c, s, f)
    ensures MayOpen(c, FlushFrom(c, s, i, Some(f.stream)), f)
    decreases |c.tracks| - i
  {
    hide Inv, Compact, FlushLace, MayOpen;
    InvHolds(c, s);
    if i < |c.tracks| {
      if i != f.stream {
        FlushLaceCompacts(c, s, i);
        FlushLaceKeeps(c, s, i);
        FlushedMayOpen(c, s, i, f);
      }
      FlushFromMayOpen(c, if Some(f.stream) == Some(i) then s else FlushLace(c, s, i), i + 1, f);
    }
  }

  lemma FlushedMayOpen(c: Config, s: State, i: nat, f: Frame)
    requires Inv(c, s) && Compact(c, s) && i < |c.tracks| && i != f.stream && f.stream < |c.tracks|
    requires |s.laces| == |c.tracks|
    requires (forall j :: 0 <= j < |s.laces| && j != f.stream ==> s.laces[j].frames == []) ==> MayOpen(c, s, f)
    ensures Ready(c, s)
    ensures var t := FlushLace(c, s, i);
            (forall j :: 0 <= j < |t.laces| && j != f.stream ==> t.laces[j].frames == []) ==> MayOpen(c, t, f)
  {
    hide Inv, Compact, FlushLace, CouldJoin, LaceBlock;
    InvHolds(c, s);
    FlushLaceCompacts(c, s, i);
    if s.laces[i].frames != [] {
      OtherStream(c, s, i, f);
      LaceSources(c, i, s.laces[i]);
    }
  }

  lemma SettledCompacts(c: Config, s: State, p: Packet, group: Option<GroupOptions>, f: Frame)
    requires Inv(c, s) && Ready(c, s) && Compact(c, s) && Resting(c, s) && p.stream < |c.tracks|
    requires f.stream == p.stream && (f.group.Some? <==> group.Some?)
    ensures var t := Settled(c, s, p, group); Compact(c, t) && MayOpen(c, t, f)
  {
    hide Inv, Compact, FlushFrom, CouldJoin;
    if c.mode != NoLacing {
      FlushFromCompacts(c, s, 0, if group.Some? then None else Some(p.stream));
      if group.None? {
        RestingMayOpen(c, s, f);
        hide MayOpen;
        FlushFromMayOpen(c, s, 0, f);
      }
    }
  }

  lemma RestingMayOpen(c: Config, s: State, f: Frame)
    requires Resting(c, s) && Compact(c, s) && f.stream < |s.laces|
    ensures (forall j :: 0 <= j < |s.laces| && j != f.stream ==> s.laces[j].frames == []) ==> MayOpen(c, s, f)
  {
    hide AllGreedy, AllEnded;
  }

  // ----- Clusters -----

  lemma StartClusterCompacts(c: Config, s: State, ms: int, f: Frame)
    requires Ready(c, s) && NothingPending(s) && Compact(c, s) && f.stream < |c.tracks|
    requires Last(s.items) ==> HasEnded(c, s.items[|s.items| - 1], NonNegative(ms))
    ensures var t := StartCluster(c, s, ms); Compact(c, t) && Resting(c, t) && MayOpen(c, t, f)
    ensures AllGreedy(c, Aborted(c, s, ms).items) && AllEnded(c, Aborted(c, s, ms).items)
  {
    hide FullLead, Lead, Cursor, CouldJoin, HasEnded;
    AppendedCompacts(c, s.items, StartCluster(c, s, ms).items[|s.items|]);
    AppendedCompacts(c, s.items, Aborted(c, s, ms).items[|s.items|]);
  }

  lemma AppendedCompacts(c: Config, items: seq<Item>, item: Item)
    requires AllGreedy(c, items) && AllEnded(c, items) && (item.Cluster? ==> item.blocks == [])
    requires item.Cluster? && Last(items) ==> HasEnded(c, items[|items| - 1], item.time)
    ensures AllGreedy(c, items + [item]) && AllEnded(c, items + [item])
  {
    hide CouldJoin, HasEnded;
  }

  /** A packet that needs a new Cluster finds the open one at its end, also when its own lace is out of the way. */
  lemma NeededHasEnded(c: Config, s: State, i: nat, ms: int)
    requires ValidConfig(c) && Inv(c, s) && Compact(c, s) && i < |c.tracks| && NeedsCluster(c, s, ms)
    ensures Ready(c, s)
    ensures var t := EndLace(c, s, i);
            && Compact(c, t)
            && (Last(t.items) ==> HasEnded(c, t.items[|t.items| - 1], NonNegative(ms)))
  {
    hide Compact, FlushLace, BlockBytes, ItemAt, CuesTrue, FramesOk, Conserved, Linked, ProperItems, Budgeted,
      LaceBlock;
    FlushLaceCompacts(c, s, i);
    LastIsOpen(c, EndLace(c, s, i));
    LastIsOpen(c, s);
    if s.open && s.laces[i].frames != [] {
      BlockBytesSnoc(s.items[|s.items| - 1].blocks, LaceBlock(c, i, s.laces[i]));
    }
  }

  lemma LastIsOpen(c: Config, s: State)
    requires Compact(c, s)
    ensures s.open <==> Last(s.items)
  {
    hide AllGreedy, AllEnded;
  }

  // ----- one packet -----

  /** After a flush for its sake, a frame could not have joined the lace. */
  lemma FlushedCannotJoin(c: Config, s: State, f: Frame)
    requires Inv(c, s) && f.stream < |c.tracks| && |s.laces| == |c.tracks| && MustFlush(c, s.laces[f.stream], f)
    ensures !CouldJoin(c, s.laces[f.stream].frames, f)
  {
    hide AllFiled, EqualSizes, Ungrouped, OnTime, CuesTrue, Conserved, Linked, ProperItems, Tracked, Budgeted;
    assert LaceOk(c, s.tc, f.stream, s.laces[f.stream]);
  }

  lemma AppendCompacts(c: Config, s: State, f: Frame)
    requires Inv(c, s) && Ready(c, s) && Compact(c, s) && s.open && f.stream < |c.tracks|
    requires c.mode != NoLacing && f.group.None? && MayOpen(c, s, f)
    requires forall j :: 0 <= j < |s.laces| && j != f.stream ==> s.laces[j].frames == []
    ensures var t := AppendToLace(c, s, f.stream, f.ms - s.tc, f); Compact(c, t) && !NothingPending(t)
  {
    hide Inv, FlushLace, AllGreedy, AllEnded, CouldJoin, MustFlush, LaceBlock;
    var i := f.stream;
    var t := AppendToLace(c, s, i, f.ms - s.tc, f);
    if MustFlush(c, s.laces[i], f) {
      FlushLaceCompacts(c, s, i);
      FlushedCannotJoin(c, s, f);
      LaceSources(c, i, s.laces[i]);
      PendingWhenFlushed(c, s.laces[i], f);
    }
    assert t.laces[i].frames != [];
  }

  lemma PendingWhenFlushed(c: Config, l: LaceBuffer, f: Frame)
    requires MustFlush(c, l, f)
    ensures l.frames != []
  {
  }

  lemma PlaceCompacts(c: Config, s: State, f: Frame)
    requires Inv(c, s) && Ready(c, s) && Compact(c, s) && s.open && f.stream < |c.tracks| && MayOpen(c, s, f)
    requires f.group.Some? ==> NothingPending(s)
    requires forall j :: 0 <= j < |s.laces| && j != f.stream ==> s.laces[j].frames == []
    ensures Compact(c, Place(c, s, f)) && Resting(c, Place(c, s, f))
  {
    hide Inv, Place, AppendToLace, AllGreedy, AllEnded, UnlacedBlock, Put, MayOpen;
    PlaceItems(c, s, f);
    if f.group.None? && c.mode != NoLacing {
      AppendCompacts(c, s, f);
    } else {
      InvHolds(c, s);
      UnlacedSources(c, s, f);
      PutGreedy(c, s.items, UnlacedBlock(c, s, f));
    }
  }

  lemma UnlacedSources(c: Config, s: State, f: Frame)
    requires f.stream < |c.tracks|
    ensures UnlacedBlock(c, s, f).sources == [f]
  {
    hide SiblingsOf;
  }

  lemma PlacedCompacts(c: Config, s: State, f: Frame)
    requires Inv(c, s) && Ready(c, s) && Compact(c, s) && s.open && f.stream < |c.tracks| && MayOpen(c, s, f)
    requires f.group.Some? ==> NothingPending(s)
    requires forall j :: 0 <= j < |s.laces| && j != f.stream ==> s.laces[j].frames == []
    requires -0x8000 <= f.ms - s.tc <= 0x7FFF || Resting(c, s)
    ensures Compact(c, Placed(c, s, f).state) && Resting(c, Placed(c, s, f).state)
  {
    hide Inv, Place, Compact, MayOpen, Resting;
    PlaceCompacts(c, s, f);
  }

  lemma TimedCompacts(c: Config, s: State, p: Packet)
    requires Inv(c, s) && Ready(c, s) && p.stream < |c.tracks| && Compact(c, s) && Resting(c, s)
    ensures var t := Timed(c, s, p); Inv(c, t) && Ready(c, t) && Compact(c, t) && Resting(c, t)
  {
    hide Inv, PtsToMs, EffectivePts, DurationMs, AllGreedy, AllEnded, CouldJoin;
    UnrelatedFields(c, s, Timed(c, s, p));
  }

  lemma FrameGroup(c: Config, s: State, p: Packet, group: Option<GroupOptions>)
    requires Ready(c, s) && p.stream < |c.tracks| && FrameData(c, p).Some?
    ensures var f := FrameOf(c, s, p, group); f.stream == p.stream && (f.group.Some? <==> group.Some?)
  {
    hide PtsToMs, DurationMs, FrameData, ReferencesOf;
  }

  lemma WriteCompacts(c: Config, s: State, p: Packet, wrap: Wrap)
    requires ValidConfig(c) && Inv(c, s) && Ready(c, s) && OnlyOnePending(c, s) && Compact(c, s) && Resting(c, s)
    requires Admitted(c, p, wrap) && p.stream < |c.tracks|
    ensures var r := WritePacket(c, s, p, wrap);
            && AllGreedy(c, r.state.items) && AllEnded(c, r.state.items)
            && (r.outcome != Halted ==> Compact(c, r.state) && Resting(c, r.state))
  {
    hide Inv, PtsToMs, EffectivePts, Admit, Timed, FrameData, FrameOf, Placed, Settled, Ready, OnlyOnePending,
      SilentBlocked, StartCluster, EndLace, Aborted, DurationMs, Compact, Resting, MayOpen, AllGreedy, AllEnded,
      HasEnded;
    var group := Admit(c, p.stream, wrap).value;
    var timed := Timed(c, s, p);
    TimedFields(c, s, p);
    OnePendingStays(c, s, timed);
    TimedCompacts(c, s, p);
    SettledKeeps(c, s, p, group);
    FrameGroup(c, s, p, group);
    var settled, f := Settled(c, timed, p, group), FrameOf(c, s, p, group);
    SettledCompacts(c, timed, p, group, f);
    SettledIsSettled(c, timed, p, group);
    InvHolds(c, settled);
    if !NeedsCluster(c, settled, f.ms) {
      PlacedCompacts(c, settled, f);
      CompactItems(c, Placed(c, settled, f).state);
    } else {
      var ended := EndLace(c, settled, p.stream);
      NeededHasEnded(c, settled, p.stream, f.ms);
      CompactItems(c, ended);
      StartClusterCompacts(c, ended, f.ms, f);
      if !SilentBlocked(c, ended) {
        var started := StartCluster(c, ended, f.ms);
        StartClusterKeeps(c, ended, f.ms);
        FreshCluster(c, ended, f.ms);
        InvHolds(c, started);
        PlacedCompacts(c, started, f);
        CompactItems(c, Placed(c, started, f).state);
      }
    }
  }

  lemma CompactItems(c: Config, s: State)
    requires Compact(c, s)
    ensures AllGreedy(c, s.items) && AllEnded(c, s.items)
  {
  }

  // ----- runs -----

  lemma TagsCompact(c: Config, s: State, tags: seq<Tag>)
    requires ValidConfig(c) && Inv(c, s) && Ready(c, s) && OnlyOnePending(c, s) && Compact(c, s) && Resting(c, s)
    ensures var t := WriteLiveTags(c, s, tags).state; Compact(c, t) && Resting(c, t)
  {
    hide Inv, FlushFrom, TagsAdmitted, AllGreedy, AllEnded;
    if TagsAdmitted(c, tags) {
      FlushFromCompacts(c, s, 0, None);
      AppendedCompacts(c, FlushAll(c, s).items, Fixed(TopLevel(0x1254C367, TagElems(tags), c.strict)));
    }
  }

  lemma ApplyCompacts(c: Config, s: State, call: Call)
    requires ValidConfig(c) && Inv(c, s) && Ready(c, s) && OnlyOnePending(c, s) && Compact(c, s) && Resting(c, s)
    ensures var r := Apply(c, s, call);
            && AllGreedy(c, r.state.items) && AllEnded(c, r.state.items)
            && (r.outcome != Halted ==> Compact(c, r.state) && Resting(c, r.state))
  {
    hide Inv, WritePacket, WriteLiveTags, Admitted, Ready, OnlyOnePending, AllGreedy, AllEnded, CouldJoin;
    match call
    case Write(p, wrap) =>
      if Admitted(c, p, wrap) {
        AdmittedStream(c, p, wrap);
        WriteCompacts(c, s, p, wrap);
      } else {
        RejectedAtOnce(c, s, p, wrap);
      }
    case LiveTags(tags) => TagsCompact(c, s, tags);
    case Silence(numbers) =>
  }

  lemma {:induction false} RunCompacts(c: Config, s: State, calls: seq<Call>)
    requires ValidConfig(c) && Inv(c, s) && Compact(c, s) && Resting(c, s)
    ensures var r := Run(c, s, calls);
            && AllGreedy(c, r.state.items) && AllEnded(c, r.state.items)
            && (r.outcome != Halted ==> Compact(c, r.state))
    decreases |calls|
  {
    hide Inv, Apply, Sound, Ready, OnlyOnePending, Compact, Resting, AllGreedy, AllEnded;
    CompactItems(c, s);
    if calls != [] {
      InvHolds(c, s);
      ApplyKeeps(c, s, calls[0]);
      ApplyCompacts(c, s, calls[0]);
      var step := Apply(c, s, calls[0]);
      if step.outcome != Halted {
        RunCompacts(c, step.state, calls[1..]);
      }
    }
  }

  lemma NothingIsCompact(c: Config)
    ensures Compact(c, Initial(c)) && Resting(c, Initial(c))
  {
  }

  /**
   * At every moment of every run: no Block could have taken in the first frame of the Block behind it,
   * and a Cluster that follows another directly does so because that one's time or bytes were spent.
   */
  lemma BlocksAndClustersAreFull(c: Config, calls: seq<Call>)
    requires ValidConfig(c)
    ensures var items := RunFrom(c, calls).state.items; AllGreedy(c, items) && AllEnded(c, items)
    ensures RunFrom(c, calls).outcome != Halted ==>
              && Ready(c, RunFrom(c, calls).state)
              && var items := FlushAll(c, RunFrom(c, calls).state).items; AllGreedy(c, items) && AllEnded(c, items)
  {
    InitialInv(c);
    NothingIsCompact(c);
    hide Inv, Run, Sound, Compact, AllGreedy, AllEnded, FlushFrom;
    RunCompacts(c, Initial(c), calls);
    var s := RunFrom(c, calls).state;
    if RunFrom(c, calls).outcome != Halted {
      InvHolds(c, s);
      FlushFromCompacts(c, s, 0, None);
      CompactItems(c, s);
      CompactItems(c, FlushFrom(c, s, 0, None));
    }
  }
}
