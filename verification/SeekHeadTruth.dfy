/** Without live streaming the finished file's SeekHead is complete: what it does not list, the file does not have. */
module SeekHeadTruth {
  import opened Wrappers
  import opened Ebml
  import opened Ids
  import opened Elements
  import opened FrontCues
  import opened SeekHeads
  import opened Tags
  import opened Muxer
  import opened MuxerRun
  import opened MuxerTheorems
  import opened MuxerFile
  import opened Trailer
  import opened EndToEnd

  // ----- only live streaming puts anything between two Clusters -----

  predicate OnlyClusters(items: seq<Item>) {
    forall k :: 0 <= k < |items| ==> items[k].Cluster?
  }

  lemma FlushLaceClusters(c: Config, s: State, i: nat)
    requires Ready(c, s) && i < |c.tracks| && OnlyClusters(s.items)
    ensures OnlyClusters(FlushLace(c, s, i).items)
  {
    hide BlockElem, Cursor, LaceBlock;
  }

  lemma {:induction false} FlushFromClusters(c: Config, s: State, i: nat, keep: Option<nat>)
    requires Ready(c, s) && i <= |c.tracks| && OnlyClusters(s.items)
    ensures OnlyClusters(FlushFrom(c, s, i, keep).items)
    decreases |c.tracks| - i
  {
    hide FlushLace, OnlyClusters;
    if i < |c.tracks| {
      if keep != Some(i) {
        FlushLaceClusters(c, s, i);
      }
      FlushFromClusters(c, if keep == Some(i) then s else FlushLace(c, s, i), i + 1, keep);
    }
  }

  lemma StartClusters(c: Config, s: State, ms: int)
    requires Ready(c, s) && NothingPending(s) && OnlyClusters(s.items)
    ensures OnlyClusters(StartCluster(c, s, ms).items) && OnlyClusters(Aborted(c, s, ms).items)
  {
    hide FullLead, Lead, Cursor;
  }

  lemma PlaceClusters(c: Config, s: State, f: Frame)
    requires Ready(c, s) && s.open && f.stream < |c.tracks| && OnlyClusters(s.items)
    ensures OnlyClusters(Placed(c, s, f).state.items)
  {
    hide Cursor, BlockElem, FlushLace, UnlacedBlock, DurationMs, Indexable;
    if MustFlush(c, s.laces[f.stream], f) {
      FlushLaceClusters(c, s, f.stream);
    }
  }

  lemma SettledClusters(c: Config, s: State, p: Packet, group: Option<GroupOptions>)
    requires Ready(c, s) && p.stream < |c.tracks| && OnlyClusters(s.items)
    ensures OnlyClusters(Settled(c, s, p, group).items) && OnlyClusters(EndLace(c, s, p.stream).items)
  {
    hide FlushLace, FlushFrom, OnlyClusters;
    FlushLaceClusters(c, s, p.stream);
    FlushFromClusters(c, s, 0, if group.Some? then None else Some(p.stream));
  }

  lemma WriteClusters(c: Config, s: State, p: Packet, wrap: Wrap)
    requires Ready(c, s) && OnlyOnePending(c, s) && Admitted(c, p, wrap) && p.stream < |c.tracks|
    requires OnlyClusters(s.items)
    ensures OnlyClusters(WritePacket(c, s, p, wrap).state.items)
  {
    hide PtsToMs, EffectivePts, Admit, Timed, FrameData, Placed, OnlyClusters, Settled, Ready, OnlyOnePending,
      SilentBlocked, StartCluster, EndLace, Aborted;
    var group := Admit(c, p.stream, wrap).value;
    var timed := Timed(c, s, p);
    TimedFields(c, s, p);
    OnePendingStays(c, s, timed);
    SettledClusters(c, timed, p, group);
    SettledIsSettled(c, timed, p, group);
    var settled := Settled(c, timed, p, group);
    var f := FrameOf(c, s, p, group);
    if !NeedsCluster(c, settled, f.ms) {
      PlaceClusters(c, settled, f);
    } else {
      SettledClusters(c, settled, p, group);
      StartClusters(c, EndLace(c, settled, p.stream), f.ms);
      if !SilentBlocked(c, EndLace(c, settled, p.stream)) {
        PlaceClusters(c, StartCluster(c, EndLace(c, settled, p.stream), f.ms), f);
      }
    }
  }

  lemma ApplyClusters(c: Config, s: State, call: Call)
    requires Ready(c, s) && OnlyOnePending(c, s) && OnlyClusters(s.items) && !c.live
    ensures OnlyClusters(Apply(c, s, call).state.items)
  {
    hide WritePacket, Admitted, OnlyClusters, AllTagsValid;
    if call.Write? {
      if Admitted(c, call.packet, call.wrap) {
        AdmittedStream(c, call.packet, call.wrap);
        WriteClusters(c, s, call.packet, call.wrap);
      } else {
        RejectedAtOnce(c, s, call.packet, call.wrap);
      }
    }
  }

  lemma {:induction false} RunClusters(c: Config, s: State, calls: seq<Call>)
    requires ValidConfig(c) && Inv(c, s) && OnlyClusters(s.items) && !c.live
    ensures OnlyClusters(Run(c, s, calls).state.items)
    decreases |calls|
  {
    hide Inv, Apply, Sound, Ready, OnlyOnePending, OnlyClusters;
    if calls != [] {
      InvReady(c, s);
      ApplyKeeps(c, s, calls[0]);
      ApplyClusters(c, s, calls[0]);
      var step := Apply(c, s, calls[0]);
      if step.outcome != Halted {
        RunClusters(c, step.state, calls[1..]);
      }
    }
  }

  lemma FlushedClusters(l: Setup, calls: seq<Call>)
    requires ValidSetup(l) && ValidConfig(ConfigOf(l)) && RunFrom(ConfigOf(l), calls).outcome != Halted
    requires !l.live
    ensures OnlyClusters(FlushedState(l, calls).items)
  {
    var c := ConfigOf(l);
    InitialInv(c);
    RunClusters(c, Initial(c), calls);
    hide Inv, Run, Sound, OnlyClusters, FlushFrom;
    InvReady(c, RunFrom(c, calls).state);
    FlushFromClusters(c, RunFrom(c, calls).state, 0, None);
  }

  // ----- the theorem -----

  lemma ClustersHaveOneId(items: seq<Item>, id: nat)
    requires OnlyClusters(items) && id != CLUSTER
    ensures Without(ItemElems(items), id)
  {
    hide BlockElems;
  }

  lemma FoundIsThere(es: seq<Elem>, id: nat, pos: nat)
    requires Found(es, id, pos)
    ensures !Without(es, id)
  {
  }

  lemma WithoutBetween(head: seq<Elem>, items: seq<Elem>, end: seq<Elem>, id: nat)
    requires Without(head + end, id) && Without(items, id)
    ensures Without(head + (items + end), id)
  {
    assert forall k :: 0 <= k < |head| ==> head[k] == (head + end)[k];
    assert forall k :: 0 <= k < |end| ==> end[k] == (head + end)[|head| + k];
  }

  lemma EntryIsComplete(l: Setup, s: State, i: nat)
    requires ValidSetup(l) && !l.live && i < 6 && InnerLength(s.cues, l.strict) < SIZE_LIMIT && OnlyClusters(s.items)
    ensures var f := Finished(l, s);
            var children, slot := Children(l, s, f), Slots(l, f.patches.cues)[i];
            && (slot.Voided? <==> Without(children, SeekIds()[i]))
            && (!slot.Voided? ==> slot.At? && Found(children, SeekIds()[i], slot.pos))
  {
    hide SegmentHead, Found, Slots, SeekIds, ItemElems, Finished, Without, ValidSetup, InnerLength, OnlyClusters;
    var f := Finished(l, s);
    SeekHeadIsTruthful(l, s, i);
    if Slots(l, f.patches.cues)[i].Voided? {
      NoEntryIsCluster(i);
      ClustersHaveOneId(s.items, SeekIds()[i]);
      WithoutBetween(SegmentHead(l, f.patches), ItemElems(s.items), f.end, SeekIds()[i]);
    } else {
      FoundIsThere(Children(l, s, f), SeekIds()[i], Slots(l, f.patches.cues)[i].pos);
    }
  }

  lemma NoEntryIsCluster(i: nat)
    requires i < 6
    ensures SeekIds()[i] != CLUSTER
  {
  }

  /**
   * In a finished file that is no live stream, an entry of the SeekHead is a Void if and only if
   * the whole Segment has no element with its ID; any other points at one.
   */
  lemma SeekHeadIsComplete(l: Setup, calls: seq<Call>, i: nat)
    requires ValidSetup(l) && ValidConfig(ConfigOf(l)) && RunFrom(ConfigOf(l), calls).outcome != Halted
    requires !l.live && i < 6 && InnerLength(FlushedState(l, calls).cues, l.strict) < SIZE_LIMIT
    ensures var s := FlushedState(l, calls);
            var f := Finished(l, s);
            var children, slot := Children(l, s, f), Slots(l, f.patches.cues)[i];
            && (slot.Voided? <==> Without(children, SeekIds()[i]))
            && (!slot.Voided? ==> slot.At? && Found(children, SeekIds()[i], slot.pos))
  {
    hide FlushedState, Slots, SeekIds, Finished, Children, Without, Found, ValidSetup, InnerLength, Inv, Sound, RunFrom,
      ConfigOf, ValidConfig, OnlyClusters;
    FlushedClusters(l, calls);
    EntryIsComplete(l, FlushedState(l, calls), i);
  }
}
