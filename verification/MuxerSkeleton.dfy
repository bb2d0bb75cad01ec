/** What a run puts into the Segment beside its frames, told from the calls: Clusters and live Tags, in order. */
module MuxerSkeleton {
  import opened Wrappers
  import opened Elements
  import opened Tags
  import opened Muxer
  import opened MuxerLayout
  import opened MuxerCues
  import opened MuxerFrames
  import opened MuxerBudget
  import opened MuxerChain
  import opened MuxerProfile
  import opened MuxerRun

  /** A Cluster with its time and its list of silent tracks, or the Tags of a call. */
  datatype Part = Opened(time: nat, silent: seq<nat>) | Tagged(tags: seq<Tag>)

  /** A Cluster begins at the time of the packet that opens it, but not before 0. */
  function StartOf(c: Config, s: State, p: Packet): nat
    requires Ready(c, s) && p.stream < |c.tracks|
  {
    if TimeOf(c, s, p) < 0 then 0 else TimeOf(c, s, p)
  }

  /** Live Tags need a live muxer, valid tags, and tags that the container and the header's version admit. */
  predicate TakesTags(c: Config, tags: seq<Tag>) {
    && c.live
    && forall tag :: tag in tags ==>
         ValidTag(tag) && (c.strict ==> WebmTargets(tag.targets)) && (NeedsV5(tag) ==> c.version >= 5)
  }

  /**
   * The parts from this state on, while the run goes on: a Cluster for each packet that opens one,
   * at its time, with the last list of silent tracks set since the Cluster before it, and the Tags of
   * each call that is accepted.
   */
  ghost function Skeleton(c: Config, s: State, calls: seq<Call>, silent: seq<nat>): seq<Part>
    requires ValidConfig(c) && Inv(c, s)
    decreases |calls|
  {
    if calls == [] then []
    else
      ApplyKeeps(c, s, calls[0]);
      var step := Apply(c, s, calls[0]);
      if step.outcome == Halted then []
      else
        match calls[0]
        case Write(p, _) =>
          if p.stream < |c.tracks| && |step.state.items| > |s.items| then
            [Opened(StartOf(c, s, p), silent)] + Skeleton(c, step.state, calls[1..], [])
          else Skeleton(c, step.state, calls[1..], silent)
        case LiveTags(tags) =>
          (if TakesTags(c, tags) then [Tagged(tags)] else []) + Skeleton(c, step.state, calls[1..], silent)
        case Silence(numbers) => Skeleton(c, step.state, calls[1..], numbers)
  }

  /** The list as the last child in front of the Blocks; no list if it is empty. */
  predicate Silences(lead: seq<Elem>, numbers: seq<nat>) {
    exists n :: 0 <= n <= |lead| && Without(lead[..n], 0x5854) && lead[n..] == SilentPart(numbers)
  }

  function SilentPart(numbers: seq<nat>): seq<Elem> {
    if numbers == [] then [] else [Master(0x5854, SilentElems(numbers))]
  }

  predicate IsPart(c: Config, item: Item, part: Part) {
    match part
    case Opened(time, numbers) => item.Cluster? && item.time == time && Silences(item.lead, numbers)
    case Tagged(tags) => item == Fixed(TopLevel(0x1254C367, TagElems(tags), c.strict))
  }

  predicate AreParts(c: Config, items: seq<Item>, parts: seq<Part>) {
    |items| == |parts| && forall k :: 0 <= k < |items| ==> IsPart(c, items[k], parts[k])
  }

  // ----- every step -----

  lemma TakesTagsExactly(c: Config, tags: seq<Tag>)
    ensures TagsAdmitted(c, tags) <==> TakesTags(c, tags)
  {
    hide ValidTag, WebmTargets, NeedsV5;
    if TakesTags(c, tags) {
      assert forall i :: 0 <= i < |tags| ==> tags[i] in tags;
    }
  }

  /** More Blocks in the Clusters change no part. */
  lemma PartsStay(c: Config, a: seq<Item>, b: seq<Item>, parts: seq<Part>)
    requires AreParts(c, a, parts) && Extends(c, a, b) && |a| == |b|
    ensures AreParts(c, b, parts)
  {
    hide Silences, ItemAt, TopLevel;
    forall k | 0 <= k < |b|
      ensures IsPart(c, b[k], parts[k])
    {
      assert IsPart(c, a[k], parts[k]) && SameItem(a[k], b[k]);
    }
  }

  lemma PartsSnoc(c: Config, items: seq<Item>, parts: seq<Part>, item: Item, part: Part)
    requires AreParts(c, items, parts) && IsPart(c, item, part)
    ensures AreParts(c, items + [item], parts + [part])
  {
    hide IsPart;
  }

  lemma FlushLaceParts(c: Config, s: State, i: nat, parts: seq<Part>)
    requires Ready(c, s) && i < |c.tracks| && Tracked(c, s) && AreParts(c, s.items, parts)
    ensures AreParts(c, FlushLace(c, s, i).items, parts)
  {
    hide AreParts, FlushLace, Extends, OpenIsLast, LaceBlock, Put;
    if s.laces[i].frames == [] {
      NothingToFlush(c, s, i);
    } else {
      FlushLaceTracks(c, s, i);
      FlushLaceItems(c, s, i);
      PutExtends(c, s.items, LaceBlock(c, i, s.laces[i]));
      PartsStay(c, s.items, FlushLace(c, s, i).items, parts);
    }
  }

  lemma InvTracked(c: Config, s: State)
    requires Inv(c, s)
    ensures Tracked(c, s) && Ready(c, s) && OnlyOnePending(c, s)
  {
    hide CuesTrue, FramesOk, Conserved, Budgeted, Linked, ProperItems;
  }

  lemma {:induction false} FlushFromParts(c: Config, s: State, i: nat, keep: Option<nat>, parts: seq<Part>)
    requires Inv(c, s) && i <= |c.tracks| && AreParts(c, s.items, parts)
    ensures Ready(c, s) && AreParts(c, FlushFrom(c, s, i, keep).items, parts)
    decreases |c.tracks| - i
  {
    hide Inv, AreParts, FlushLace, Tracked;
    InvTracked(c, s);
    if i < |c.tracks| {
      if keep != Some(i) {
        FlushLaceParts(c, s, i, parts);
        FlushLaceKeeps(c, s, i);
      }
      FlushFromParts(c, if keep == Some(i) then s else FlushLace(c, s, i), i + 1, keep, parts);
    }
  }

  lemma LeadFields(c: Config, ms: int, at: nat, prev: Option<nat>)
    ensures Without(Lead(c, ms, at, prev), 0x5854)
  {
  }

  lemma FullLeadSilences(c: Config, s: State, ms: int)
    ensures Silences(FullLead(c, s, ms), s.silent)
  {
    hide Lead, Cursor, SilentElems, SerAll, Without;
    var lead, full := Lead(c, ms, Cursor(c, s), s.prevAt), FullLead(c, s, ms);
    LeadFields(c, ms, Cursor(c, s), s.prevAt);
    assert full == lead + SilentPart(s.silent);
    assert full[..|lead|] == lead && full[|lead|..] == SilentPart(s.silent);
  }

  lemma StartClusterParts(c: Config, s: State, ms: int, parts: seq<Part>)
    requires Ready(c, s) && NothingPending(s) && AreParts(c, s.items, parts)
    ensures var t := StartCluster(c, s, ms);
            && AreParts(c, t.items, parts + [Opened(NonNegative(ms), s.silent)])
            && t.silent == [] && |t.items| == |s.items| + 1
  {
    hide FullLead, AreParts, Cursor, Silences;
    FullLeadSilences(c, s, ms);
    PartsSnoc(c, s.items, parts, Cluster(NonNegative(ms), FullLead(c, s, ms), []),
               Opened(NonNegative(ms), s.silent));
  }

  lemma PlacedParts(c: Config, s: State, f: Frame, parts: seq<Part>)
    requires Inv(c, s) && Ready(c, s) && s.open && f.stream < |c.tracks| && AreParts(c, s.items, parts)
    ensures var t := Placed(c, s, f).state; AreParts(c, t.items, parts) && t.silent == s.silent
  {
    hide Inv, AreParts, Place, Extends, Tracked;
    InvTracked(c, s);
    PlaceTracks(c, s, f);
    PlaceLength(c, s, f);
    if Placed(c, s, f).outcome == Accepted {
      PartsStay(c, s.items, Place(c, s, f).items, parts);
    }
  }

  lemma PlaceLength(c: Config, s: State, f: Frame)
    requires Ready(c, s) && s.open && f.stream < |c.tracks|
    ensures |Place(c, s, f).items| == |s.items| && Place(c, s, f).silent == s.silent
  {
    hide UnlacedBlock, LaceBlock, Cursor, BlockElem, Indexable;
  }

  lemma WriteParts(c: Config, s: State, p: Packet, wrap: Wrap, parts: seq<Part>)
    requires ValidConfig(c) && Inv(c, s) && Ready(c, s) && OnlyOnePending(c, s) && AreParts(c, s.items, parts)
    requires Admitted(c, p, wrap) && p.stream < |c.tracks|
    ensures var r := WritePacket(c, s, p, wrap);
            r.outcome != Halted ==>
              if |r.state.items| > |s.items| then
                AreParts(c, r.state.items, parts + [Opened(StartOf(c, s, p), s.silent)]) && r.state.silent == []
              else AreParts(c, r.state.items, parts) && r.state.silent == s.silent
  {
    hide Inv, PtsToMs, EffectivePts, Admit, Timed, FrameData, FrameOf, Placed, Ready, OnlyOnePending, NeedsCluster,
      SilentBlocked, StartCluster, Aborted, DurationMs, IsPart, FlushFrom, FlushLace, Tracked;
    var group := Admit(c, p.stream, wrap).value;
    var timed := Timed(c, s, p);
    TimedFields(c, s, p);
    OnePendingStays(c, s, timed);
    TimedInv(c, s, p);
    SettledKeeps(c, s, p, group);
    SettledIsSettled(c, timed, p, group);
    var settled, f := Settled(c, timed, p, group), FrameOf(c, s, p, group);
    FrameTime(c, s, p, group);
    FlushFromParts(c, timed, 0, if group.Some? then None else Some(p.stream), parts);
    InvTracked(c, settled);
    if !NeedsCluster(c, settled, f.ms) {
      OpenUnlessNeeded(c, settled, f.ms);
      PlacedParts(c, settled, f, parts);
    } else {
      var ended := EndLace(c, settled, p.stream);
      FlushLaceParts(c, settled, p.stream, parts);
      InvTracked(c, ended);
      if !SilentBlocked(c, ended) {
        StartClusterParts(c, ended, f.ms, parts);
        StartClusterKeeps(c, ended, f.ms);
        InvTracked(c, StartCluster(c, ended, f.ms));
        assert NonNegative(f.ms) == StartOf(c, s, p);
        PlacedParts(c, StartCluster(c, ended, f.ms), f, parts + [Opened(StartOf(c, s, p), s.silent)]);
      }
    }
  }

  lemma FrameTime(c: Config, s: State, p: Packet, group: Option<GroupOptions>)
    requires Ready(c, s) && p.stream < |c.tracks| && FrameData(c, p).Some?
    ensures FrameOf(c, s, p, group).ms == TimeOf(c, s, p)
  {
    hide PtsToMs, DurationMs, FrameData, ReferencesOf;
  }

  lemma OpenUnlessNeeded(c: Config, s: State, ms: int)
    requires !NeedsCluster(c, s, ms)
    ensures s.open
  {
  }

  lemma TimedInv(c: Config, s: State, p: Packet)
    requires Inv(c, s) && Ready(c, s) && p.stream < |c.tracks|
    ensures Inv(c, Timed(c, s, p)) && Ready(c, Timed(c, s, p)) && Timed(c, s, p).silent == s.silent
  {
    hide Inv, PtsToMs, EffectivePts, DurationMs;
    UnrelatedFields(c, s, Timed(c, s, p));
  }

  lemma TagsParts(c: Config, s: State, tags: seq<Tag>, parts: seq<Part>)
    requires Inv(c, s) && Ready(c, s) && OnlyOnePending(c, s) && AreParts(c, s.items, parts)
    ensures var r := WriteLiveTags(c, s, tags).state;
            AreParts(c, r.items, parts + if TakesTags(c, tags) then [Tagged(tags)] else []) && r.silent == s.silent
  {
    hide Inv, FlushFrom, TakesTags, TagsAdmitted, AreParts, TopLevel, TagElems;
    TakesTagsExactly(c, tags);
    FlushFromParts(c, s, 0, None, parts);
    FlushAllKeeps(c, s);
    assert parts + [] == parts;
    if TagsAdmitted(c, tags) {
      FlushAllSilent(c, s);
      PartsSnoc(c, FlushAll(c, s).items, parts, Fixed(TopLevel(0x1254C367, TagElems(tags), c.strict)), Tagged(tags));
    }
  }

  lemma FlushAllSilent(c: Config, s: State)
    requires Inv(c, s)
    ensures Ready(c, s) && FlushAll(c, s).silent == s.silent
  {
    hide Inv, FlushFrom;
    InvTracked(c, s);
    FlushFromKeeps(c, s, 0, None);
  }

  /** What the file has beside its Blocks is what the calls made. */
  lemma {:induction false} RunParts(c: Config, s: State, calls: seq<Call>, parts: seq<Part>)
    requires ValidConfig(c) && Inv(c, s) && AreParts(c, s.items, parts)
    ensures var r := Run(c, s, calls);
            r.outcome != Halted ==> AreParts(c, r.state.items, parts + Skeleton(c, s, calls, s.silent))
    decreases |calls|
  {
    hide Inv, Sound, AreParts, WritePacket, WriteLiveTags, TakesTags, Tracked;
    InvTracked(c, s);
    if calls == [] {
      assert parts + [] == parts;
    } else {
      ApplyKeeps(c, s, calls[0]);
      var step := Apply(c, s, calls[0]);
      if step.outcome != Halted {
        var more := PartsOfCall(c, s, calls[0], parts);
        RunParts(c, step.state, calls[1..], parts + more);
        var rest := Skeleton(c, step.state, calls[1..], step.state.silent);
        assert parts + more + rest == parts + (more + rest);
        assert [] + rest == rest;
      }
    }
  }

  lemma PartsOfCall(c: Config, s: State, call: Call, parts: seq<Part>) returns (more: seq<Part>)
    requires ValidConfig(c) && Inv(c, s) && Ready(c, s) && OnlyOnePending(c, s) && AreParts(c, s.items, parts)
    requires Apply(c, s, call).outcome != Halted
    ensures var t := Apply(c, s, call).state;
            && AreParts(c, t.items, parts + more)
            && match call
               case Write(p, _) =>
                 if p.stream < |c.tracks| && |t.items| > |s.items| then
                   more == [Opened(StartOf(c, s, p), s.silent)] && t.silent == []
                 else more == [] && t.silent == s.silent
               case LiveTags(tags) =>
                 more == (if TakesTags(c, tags) then [Tagged(tags)] else []) && t.silent == s.silent
               case Silence(numbers) => more == [] && t.silent == numbers
  {
    hide Inv, WritePacket, WriteLiveTags, Admitted, Ready, OnlyOnePending, AreParts, TakesTags;
    assert parts + [] == parts;
    match call
    case Write(p, wrap) =>
      if Admitted(c, p, wrap) {
        AdmittedStream(c, p, wrap);
        WriteParts(c, s, p, wrap, parts);
      } else {
        RejectedAtOnce(c, s, p, wrap);
      }
      more := if p.stream < |c.tracks| && |WritePacket(c, s, p, wrap).state.items| > |s.items|
              then [Opened(StartOf(c, s, p), s.silent)] else [];
    case LiveTags(tags) =>
      TagsParts(c, s, tags, parts);
      more := if TakesTags(c, tags) then [Tagged(tags)] else [];
    case Silence(numbers) =>
      more := [];
  }

  /** The parts of a whole run. */
  ghost function PartsOf(c: Config, calls: seq<Call>): seq<Part>
    requires ValidConfig(c)
  {
    InitialInv(c);
    Skeleton(c, Initial(c), calls, [])
  }

  /** So it is after the trailer has flushed the last lace. */
  lemma FlushedParts(c: Config, calls: seq<Call>)
    requires ValidConfig(c) && RunFrom(c, calls).outcome != Halted
    ensures Ready(c, RunFrom(c, calls).state)
    ensures AreParts(c, FlushAll(c, RunFrom(c, calls).state).items, PartsOf(c, calls))
  {
    InitialInv(c);
    hide Inv, Run, Sound, AreParts, FlushFrom, Skeleton, Tracked;
    assert AreParts(c, Initial(c).items, []) by { NoParts(c); }
    RunParts(c, Initial(c), calls, []);
    var s, parts := RunFrom(c, calls).state, Skeleton(c, Initial(c), calls, []);
    assert [] + parts == parts;
    InvTracked(c, s);
    FlushFromParts(c, s, 0, None, parts);
  }

  lemma NoParts(c: Config)
    ensures AreParts(c, [], [])
  {
  }
}
