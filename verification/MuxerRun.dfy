/** What every step of the muxer keeps, and so every run. */
module MuxerRun {
  import opened Wrappers
  import opened Ids
  import opened Elements
  import opened Lacing
  import opened Tags
  import opened TagRules
  import opened Muxer
  import opened MuxerLayout
  import opened MuxerCues
  import opened MuxerFrames
  import opened MuxerBudget
  import opened MuxerChain
  import opened MuxerProfile

  /** What holds of the file at every moment, even after the guard that ends a run halfway. */
  predicate Sound(c: Config, s: State) {
    && CuesTrue(c, s)
    && AllFiled(c, s.items)
    && Conserved(s)
    && ClustersWithin(c, s.items)
    && Chained(c, s.items)
    && ProperItems(c, s.items)
  }

  /** What the muxer's fields keep as well, as long as the run goes on. */
  predicate Inv(c: Config, s: State) {
    && Ready(c, s) && OnlyOnePending(c, s)
    && Tracked(c, s)
    && CuesTrue(c, s)
    && FramesOk(c, s) && Conserved(s)
    && Budgeted(c, s)
    && Linked(c, s)
    && ProperItems(c, s.items)
  }

  lemma InvIsSound(c: Config, s: State)
    requires Inv(c, s)
    ensures Sound(c, s)
  {
    hide CuesTrue, AllFiled, ClustersWithin, Chained, ProperItems, OpenIsLast, LacesOk, OnlyOnePending;
  }

  lemma InitialInv(c: Config)
    ensures Inv(c, Initial(c))
  {
    NonePending(Initial(c).laces);
    hide Pending;
  }

  /** Fields that no invariant mentions may change. */
  lemma UnrelatedFields(c: Config, s: State, t: State)
    requires Inv(c, s) && |t.streamPts| == |s.streamPts|
    requires t == s.(streamPts := t.streamPts, maxEnd := t.maxEnd, silent := t.silent)
    ensures Inv(c, t)
  {
    hide Resolves, AllFiled, LaceOk, ClustersWithin, Within, Chained, ProperItems, ItemAt, BlockBytes, Written,
      Pending, PrevAt;
  }

  lemma FlushLaceKeeps(c: Config, s: State, i: nat)
    requires Inv(c, s) && i < |c.tracks|
    ensures Inv(c, FlushLace(c, s, i))
    ensures FlushLace(c, s, i).silent == s.silent && FlushLace(c, s, i).accepted == s.accepted
  {
    FlushLaceTracks(c, s, i);
    FlushLaceCues(c, s, i);
    FlushLaceFrames(c, s, i);
    FlushLaceConserves(c, s, i);
    FlushLaceBudget(c, s, i);
    FlushLaceLinks(c, s, i);
    FlushLaceProper(c, s, i);
    FlushLaceOthers(c, s, i);
    hide FlushLace, CuesTrue, FramesOk, Conserved, Budgeted, Linked, ProperItems, Tracked, OnlyOnePending, Extends;
  }

  lemma FlushLaceOthers(c: Config, s: State, i: nat)
    requires Ready(c, s) && i < |c.tracks|
    ensures var t := FlushLace(c, s, i);
            t.silent == s.silent && t.accepted == s.accepted && t.streamPts == s.streamPts && t.maxEnd == s.maxEnd
            && t.lastPts == s.lastPts
  {
    hide LaceBlock, Cursor, Put, BlockElem;
  }

  lemma {:induction false} FlushFromKeeps(c: Config, s: State, i: nat, keep: Option<nat>)
    requires Inv(c, s) && i <= |c.tracks|
    ensures Inv(c, FlushFrom(c, s, i, keep))
    ensures FlushFrom(c, s, i, keep).silent == s.silent && FlushFrom(c, s, i, keep).accepted == s.accepted
    decreases |c.tracks| - i
  {
    hide FlushLace, CuesTrue, FramesOk, Conserved, Budgeted, Linked, ProperItems, Tracked, OnlyOnePending;
    if i < |c.tracks| {
      var t := if keep == Some(i) then s else FlushLace(c, s, i);
      if keep != Some(i) {
        FlushLaceKeeps(c, s, i);
      }
      FlushFromKeeps(c, t, i + 1, keep);
    }
  }

  lemma StartClusterKeeps(c: Config, s: State, ms: int)
    requires Inv(c, s) && NothingPending(s) && !SilentBlocked(c, s)
    ensures Inv(c, StartCluster(c, s, ms)) && StartCluster(c, s, ms).accepted == s.accepted
  {
    StartClusterTracks(c, s, ms);
    StartClusterCues(c, s, ms);
    StartClusterFrames(c, s, ms);
    StartClusterBudget(c, s, ms);
    StartClusterLinks(c, s, ms);
    StartClusterProper(c, s, ms);
    assert StartCluster(c, s, ms).accepted == s.accepted;
    hide StartCluster, CuesTrue, FramesOk, Conserved, Budgeted, Linked, ProperItems, Tracked, Extends;
  }

  lemma PlaceKeeps(c: Config, s: State, f: Frame)
    requires Inv(c, s) && s.open && f.stream < |c.tracks| && s.bytes < c.maxBytes
    requires OnTime(c, s.tc, f.ms - s.tc, f)
    requires f.group.Some? ==> NothingPending(s)
    requires forall j :: 0 <= j < |s.laces| && j != f.stream ==> s.laces[j].frames == []
    requires ProperGroup(c.strict, OptionsOf(f))
    ensures Inv(c, Place(c, s, f)) && Place(c, s, f).accepted == s.accepted + [f]
  {
    PlaceTracks(c, s, f);
    PlaceCues(c, s, f);
    PlaceFrames(c, s, f);
    PlaceBudget(c, s, f);
    PlaceLinks(c, s, f);
    PlaceProper(c, s, f);
    PlaceLogs(c, s, f);
    hide Place, CuesTrue, FramesOk, Conserved, Budgeted, Linked, ProperItems, Tracked, OnlyOnePending, Extends;
  }

  lemma PlaceLogs(c: Config, s: State, f: Frame)
    requires Ready(c, s) && s.open && f.stream < |c.tracks|
    ensures Place(c, s, f).accepted == s.accepted + [f]
  {
    hide UnlacedBlock, Put, Cursor, BlockElem, DurationMs, Indexable, FlushLace;
    if MustFlush(c, s.laces[f.stream], f) {
      FlushLaceOthers(c, s, f.stream);
    }
  }

  /** One more item without Blocks, after which nothing before it has moved. */
  lemma AppendIsSound(c: Config, s: State, t: State, item: Item)
    requires Sound(c, s) && t.items == s.items + [item]
    requires t.cues == s.cues && t.cueAt == s.cueAt && t.accepted == s.accepted && t.laces == s.laces
    requires ProperItems(c, t.items)
    requires item.Cluster? ==> item.blocks == []
    requires item.Cluster? ==>
      LedBy(Lead(c, item.time, c.head + |ItemBytes(s.items)|, PrevAt(c, s.items, |s.items|)), item.lead)
    ensures Sound(c, t)
    ensures PrevAt(c, t.items, |t.items|)
         == if item.Cluster? then Some(c.head + |ItemBytes(s.items)|) else PrevAt(c, s.items, |s.items|)
  {
    hide Lead, CuesTrue, AllFiled, Written, Pending, ClustersWithin, Chained, ProperItems, Extends, PrevAt, ItemBytes;
    SnocExtends(c, s.items, item);
    CuesStay(c, s, t);
    WrittenAppend(s.items, [item]);
    WrittenOne(item);
    NoSources();
    assert Written(s.items) + [] == Written(s.items);
    ChainGrows(c, s.items, item);
    AppendedRest(c, s.items, item);
  }

  lemma AppendedRest(c: Config, items: seq<Item>, item: Item)
    requires AllFiled(c, items) && ClustersWithin(c, items) && (item.Cluster? ==> item.blocks == [])
    ensures AllFiled(c, items + [item]) && ClustersWithin(c, items + [item])
  {
    hide Filed, BlockBytes;
  }

  /** The moment of the guard: the Cluster header is on disk, and everything before it is as it was. */
  lemma AbortedIsSound(c: Config, s: State, ms: int)
    requires Inv(c, s)
    ensures Sound(c, Aborted(c, s, ms)) && Aborted(c, s, ms).accepted == s.accepted
  {
    InvIsSound(c, s);
    LeadTime(c, ms, Cursor(c, s), s.prevAt);
    AbortedProper(c, s, ms);
    hide Lead, Sound, Inv, ItemBytes, PrevAt, ProperItems;
    PrevOf(c, s);
    AppendIsSound(c, s, Aborted(c, s, ms), Cluster(NonNegative(ms), Lead(c, ms, Cursor(c, s), s.prevAt), []));
  }

  lemma PrevOf(c: Config, s: State)
    requires Inv(c, s)
    ensures s.prevAt == PrevAt(c, s.items, |s.items|)
  {
    hide CuesTrue, FramesOk, Conserved, Budgeted, Chained, ProperItems, Tracked, PrevAt;
  }

  // ----- one packet -----

  /** The time of a packet, in milliseconds. */
  function TimeOf(c: Config, s: State, p: Packet): int
    requires Ready(c, s) && p.stream < |c.tracks|
  {
    PtsToMs(EffectivePts(s, p), c.tracks[p.stream])
  }

  /** A packet's arrival moves no field that the file depends on. */
  lemma TimedFields(c: Config, s: State, p: Packet)
    requires Ready(c, s) && p.stream < |c.tracks|
    ensures var t := Timed(c, s, p);
            && t.items == s.items && t.open == s.open && t.tc == s.tc && t.bytes == s.bytes && t.laces == s.laces
            && t.seen == s.seen && t.lastPts == s.lastPts && t.silent == s.silent && t.prevAt == s.prevAt
  {
    hide PtsToMs, EffectivePts, DurationMs;
  }

  lemma OnePendingStays(c: Config, s: State, t: State)
    requires OnlyOnePending(c, s) && t.laces == s.laces
    ensures OnlyOnePending(c, t)
  {
  }

  predicate Admitted(c: Config, p: Packet, wrap: Wrap) {
    Admit(c, p.stream, wrap).Some? && FrameData(c, p).Some?
  }

  lemma SettledKeeps(c: Config, s: State, p: Packet, group: Option<GroupOptions>)
    requires Inv(c, s) && p.stream < |c.tracks|
    ensures var t := Settled(c, Timed(c, s, p), p, group);
            && Inv(c, t) && t.silent == s.silent && t.accepted == s.accepted
            && (forall j :: 0 <= j < |t.laces| && (group.Some? || j != p.stream) ==> t.laces[j].frames == [])
            && NothingPending(EndLace(c, t, p.stream))
            && Inv(c, EndLace(c, t, p.stream)) && EndLace(c, t, p.stream).silent == s.silent
            && EndLace(c, t, p.stream).accepted == s.accepted
  {
    UnrelatedFields(c, s, Timed(c, s, p));
    var timed := Timed(c, s, p);
    assert timed.silent == s.silent && timed.accepted == s.accepted;
    SettledIsSettled(c, timed, p, group);
    hide FlushLace, FlushFrom, CuesTrue, FramesOk, Conserved, Budgeted, Linked, ProperItems, Tracked, OnlyOnePending,
      Timed;
    if c.mode != NoLacing {
      FlushFromKeeps(c, timed, 0, if group.Some? then None else Some(p.stream));
      FlushLaceKeeps(c, Settled(c, timed, p, group), p.stream);
    }
  }

  /** The SilentTracks guard stops an admitted packet that needs a new Cluster. */
  predicate Stopped(c: Config, s: State, p: Packet, wrap: Wrap)
    requires Ready(c, s)
  {
    && Admitted(c, p, wrap) && p.stream < |c.tracks| && SilentBlocked(c, s)
    && NeedsCluster(c, Settled(c, Timed(c, s, p), p, Admit(c, p.stream, wrap).value), TimeOf(c, s, p))
  }

  function AcceptedFrame(c: Config, s: State, p: Packet, wrap: Wrap): Frame
    requires Ready(c, s) && p.stream < |c.tracks| && Admitted(c, p, wrap)
  {
    FrameOf(c, s, p, Admit(c, p.stream, wrap).value)
  }

  /**
   * A packet ends the run exactly if the guard stops it. Any other is accepted exactly if it is
   * admitted and its time is not below -32768.
   */
  lemma WritePacketKeeps(c: Config, s: State, p: Packet, wrap: Wrap)
    requires ValidConfig(c) && Inv(c, s)
    ensures var r := WritePacket(c, s, p, wrap);
            && (if r.outcome == Halted then Sound(c, r.state) else Inv(c, r.state))
            && (r.outcome == Halted <==> Stopped(c, s, p, wrap))
            && (r.outcome != Halted ==>
                  (r.outcome == Accepted <==> Admitted(c, p, wrap) && TimeOf(c, s, p) >= -0x8000))
            && r.state.accepted == s.accepted + if r.outcome == Accepted then [AcceptedFrame(c, s, p, wrap)] else []
  {
    hide CuesTrue, FramesOk, Conserved, Budgeted, Linked, ProperItems, OnlyOnePending, Settled, EndLace, StartCluster,
      Aborted, Place, Admit, AllProper, ProperGroup, PtsToMs, EffectivePts, Sound, OpenIsLast, Timed;
    if Admitted(c, p, wrap) {
      var group := Admit(c, p.stream, wrap).value;
      AdmitRange(c, p.stream, wrap);
      AdmittedIsProper(c, p, wrap);
      SettledKeeps(c, s, p, group);
      var ms := TimeOf(c, s, p);
      var f := FrameOf(c, s, p, group);
      var settled := Settled(c, Timed(c, s, p), p, group);
      if !NeedsCluster(c, settled, ms) {
        OpenTime(c, settled);
        PlaceKeeps(c, settled, f);
      } else {
        var ended := EndLace(c, settled, p.stream);
        if SilentBlocked(c, ended) {
          AbortedIsSound(c, ended, ms);
        } else {
          StartClusterKeeps(c, ended, ms);
          FreshCluster(c, ended, ms);
          if -0x8000 <= ms - NonNegative(ms) {
            PlaceKeeps(c, StartCluster(c, ended, ms), f);
          }
        }
      }
    } else {
      RejectedAtOnce(c, s, p, wrap);
    }
  }

  lemma RejectedAtOnce(c: Config, s: State, p: Packet, wrap: Wrap)
    requires Ready(c, s) && OnlyOnePending(c, s) && !Admitted(c, p, wrap)
    ensures WritePacket(c, s, p, wrap) == Step(s, Rejected)
  {
    hide Admit;
  }

  lemma AdmitRange(c: Config, stream: nat, wrap: Wrap)
    requires Admit(c, stream, wrap).Some?
    ensures stream < |c.tracks|
  {
    hide AdditionsOk;
  }

  lemma AdmittedStream(c: Config, p: Packet, wrap: Wrap)
    requires Admitted(c, p, wrap)
    ensures p.stream < |c.tracks|
  {
    AdmitRange(c, p.stream, wrap);
  }

  lemma OpenTime(c: Config, s: State)
    requires Tracked(c, s) && s.open
    ensures s.tc >= 0
  {
    hide ItemAt, BlockBytes;
  }

  lemma FreshCluster(c: Config, s: State, ms: int)
    requires Ready(c, s) && NothingPending(s)
    ensures var t := StartCluster(c, s, ms); t.open && t.bytes == 0 && t.tc == NonNegative(ms) && NothingPending(t)
  {
    hide FullLead, Cursor;
  }

  lemma WriteLiveTagsKeeps(c: Config, s: State, tags: seq<Tag>)
    requires Inv(c, s)
    ensures var r := WriteLiveTags(c, s, tags); Inv(c, r.state) && r.state.accepted == s.accepted
  {
    hide ValidTag, WebmTargets, NeedsV5;
    if TagsAdmitted(c, tags) {
      AllFlushed(c, s);
      var flushed := FlushAll(c, s);
      FlushAllKeeps(c, s);
      EndClusterKeeps(c, flushed, tags);
    }
  }

  lemma FlushAllKeeps(c: Config, s: State)
    requires Inv(c, s)
    ensures Inv(c, FlushAll(c, s)) && FlushAll(c, s).accepted == s.accepted
  {
    hide FlushFrom, CuesTrue, FramesOk, Conserved, Budgeted, Linked, ProperItems, Tracked, OnlyOnePending;
    if c.mode != NoLacing {
      FlushFromKeeps(c, s, 0, None);
    }
  }

  lemma EndClusterKeeps(c: Config, s: State, tags: seq<Tag>)
    requires Inv(c, s) && NothingPending(s) && (c.strict ==> AllWebmTargets(tags))
    ensures Inv(c, s.(open := false, items := s.items + [Fixed(TopLevel(TAGS, TagElems(tags), c.strict))]))
  {
    hide CuesTrue, AllFiled, LacesOk, Conserved, Chained, ClustersWithin, ProperItems, PrevAt, ItemBytes, TopLevel,
      Budgeted, FramesOk, TagElems, WebmTargets, AllProper;
    var item := Fixed(TopLevel(TAGS, TagElems(tags), c.strict));
    TagsAreProper(c.strict, tags);
    var t := s.(open := false, items := s.items + [item]);
    InvIsSound(c, s);
    LiveTagsProper(c, s.items, TagElems(tags));
    TagsRest(c, s, t);
    AppendIsSound(c, s, t, item);
  }

  lemma TagsRest(c: Config, s: State, t: State)
    requires FramesOk(c, s) && Budgeted(c, s) && NothingPending(s)
    requires |t.items| == |s.items| + 1 && t == s.(open := false, items := s.items + [t.items[|s.items|]])
    requires t.items[|s.items|].Fixed?
    ensures FramesOk(c, t) && Budgeted(c, t)
  {
    hide Filed, LaceOk, Within;
  }

  lemma ApplyKeeps(c: Config, s: State, call: Call)
    requires ValidConfig(c) && Inv(c, s)
    ensures var r := Apply(c, s, call);
            if r.outcome == Halted then Sound(c, r.state) else Inv(c, r.state)
  {
    hide Inv, Sound, WritePacket, WriteLiveTags;
    match call
    case Write(p, wrap) => WritePacketKeeps(c, s, p, wrap);
    case LiveTags(tags) => WriteLiveTagsKeeps(c, s, tags);
    case Silence(numbers) => UnrelatedFields(c, s, s.(silent := numbers));
  }

  // ----- runs -----

  /** The calls one after the other, up to the guard that ends the run, if one does. */
  ghost function Run(c: Config, s: State, calls: seq<Call>): (r: Step)
    requires ValidConfig(c) && Inv(c, s)
    ensures if r.outcome == Halted then Sound(c, r.state) else Inv(c, r.state)
    decreases |calls|
  {
    if calls == [] then Step(s, Accepted)
    else
      ApplyKeeps(c, s, calls[0]);
      var step := Apply(c, s, calls[0]);
      if step.outcome == Halted then step else Run(c, step.state, calls[1..])
  }

  /** A whole run, from the header on. */
  ghost function RunFrom(c: Config, calls: seq<Call>): (r: Step)
    requires ValidConfig(c)
    ensures if r.outcome == Halted then Sound(c, r.state) else Inv(c, r.state)
    ensures Sound(c, r.state)
  {
    InitialInv(c);
    var r := Run(c, Initial(c), calls);
    assert r.outcome != Halted ==> Sound(c, r.state) by { if r.outcome != Halted { InvIsSound(c, r.state); } }
    r
  }
}
