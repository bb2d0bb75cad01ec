/** What the Duration that the trailer patches in says about the packets of the run. */
module Durations {
  import opened Wrappers
  import opened Bytes
  import opened Ebml
  import opened FrontCues
  import opened Floats
  import opened Muxer
  import opened MuxerRun
  import opened MuxerTheorems
  import opened PacketLog
  import opened MuxerFile
  import opened Trailer
  import opened EndToEnd

  /** When a packet ends, in milliseconds. */
  function EndOf(c: Config, s: State, p: Packet): int
    requires Ready(c, s) && p.stream < |c.tracks|
  {
    var d := DurationMs(p, c.tracks[p.stream]);
    SaturatingAdd(TimeOf(c, s, p), if d.Some? then d.value else 0)
  }

  /** The ends of all packets that a run of calls admits, in call order. */
  ghost function Ends(c: Config, s: State, calls: seq<Call>): seq<int>
    requires ValidConfig(c) && Inv(c, s)
    decreases |calls|
  {
    if calls == [] then []
    else
      ApplyKeeps(c, s, calls[0]);
      var step := Apply(c, s, calls[0]);
      var now := if calls[0].Write? && Admitted(c, calls[0].packet, calls[0].wrap)
                 && calls[0].packet.stream < |c.tracks|
                 then [EndOf(c, s, calls[0].packet)] else [];
      now + if step.outcome == Halted then [] else Ends(c, step.state, calls[1..])
  }

  predicate IsLatest(ends: seq<int>, latest: Option<int>) {
    match latest
    case None => ends == []
    case Some(m) => m in ends && forall i :: 0 <= i < |ends| ==> ends[i] <= m
  }

  // ----- the steps that leave it alone -----

  lemma {:induction false} FlushFromEnd(c: Config, s: State, i: nat, keep: Option<nat>)
    requires Ready(c, s) && i <= |c.tracks|
    ensures FlushFrom(c, s, i, keep).maxEnd == s.maxEnd
    decreases |c.tracks| - i
  {
    hide FlushLace;
    if i < |c.tracks| {
      if keep != Some(i) {
        FlushLaceOthers(c, s, i);
      }
      FlushFromEnd(c, if keep == Some(i) then s else FlushLace(c, s, i), i + 1, keep);
    }
  }

  lemma PlaceEnd(c: Config, s: State, f: Frame)
    requires Ready(c, s) && s.open && f.stream < |c.tracks|
    ensures Placed(c, s, f).state.maxEnd == s.maxEnd
  {
    hide UnlacedBlock, Put, Cursor, BlockElem, DurationMs, Indexable, FlushLace;
    if MustFlush(c, s.laces[f.stream], f) {
      FlushLaceOthers(c, s, f.stream);
    }
  }

  lemma WriteEnd(c: Config, s: State, p: Packet, wrap: Wrap)
    requires Ready(c, s) && OnlyOnePending(c, s) && Admitted(c, p, wrap) && p.stream < |c.tracks|
    ensures WritePacket(c, s, p, wrap).state.maxEnd == Timed(c, s, p).maxEnd
  {
    hide FlushLace, FlushFrom, PtsToMs, EffectivePts, Admit, Timed, FullLead, Lead, Cursor, FrameData, Placed;
    var group := Admit(c, p.stream, wrap).value;
    var timed := Timed(c, s, p);
    TimedFields(c, s, p);
    OnePendingStays(c, s, timed);
    FlushFromEnd(c, timed, 0, if group.Some? then None else Some(p.stream));
    SettledIsSettled(c, timed, p, group);
    var settled := Settled(c, timed, p, group);
    var f := FrameOf(c, s, p, group);
    hide Settled, NeedsCluster, Ready, OnlyOnePending, NothingPending, SilentBlocked, StartCluster, EndLace, Aborted;
    if !NeedsCluster(c, settled, f.ms) {
      PlaceEnd(c, settled, f);
    } else {
      OpenedEnd(c, settled, p.stream, f.ms);
      if !SilentBlocked(c, EndLace(c, settled, p.stream)) {
        PlaceEnd(c, StartCluster(c, EndLace(c, settled, p.stream), f.ms), f);
      }
    }
  }

  lemma OpenedEnd(c: Config, s: State, i: nat, ms: int)
    requires Ready(c, s) && i < |c.tracks| && NothingPending(EndLace(c, s, i))
    ensures Aborted(c, EndLace(c, s, i), ms).maxEnd == s.maxEnd
            && StartCluster(c, EndLace(c, s, i), ms).maxEnd == s.maxEnd
  {
    hide FlushLace, FullLead, Lead, Cursor;
    FlushLaceOthers(c, s, i);
  }

  lemma TimedEnd(c: Config, s: State, p: Packet, ends: seq<int>)
    requires Ready(c, s) && p.stream < |c.tracks| && IsLatest(ends, s.maxEnd)
    ensures IsLatest(ends + [EndOf(c, s, p)], Timed(c, s, p).maxEnd)
  {
    hide PtsToMs, EffectivePts, DurationMs, SaturatingAdd;
    var more := ends + [EndOf(c, s, p)];
    assert more[|ends|] == EndOf(c, s, p);
    if s.maxEnd.Some? {
      var i :| 0 <= i < |ends| && ends[i] == s.maxEnd.value;
      assert more[i] == s.maxEnd.value;
    }
  }

  lemma ApplyEnd(c: Config, s: State, call: Call)
    requires ValidConfig(c) && Ready(c, s) && OnlyOnePending(c, s)
    ensures Apply(c, s, call).state.maxEnd
         == if call.Write? && Admitted(c, call.packet, call.wrap) && call.packet.stream < |c.tracks|
            then Timed(c, s, call.packet).maxEnd else s.maxEnd
  {
    hide WritePacket, Timed, Admitted, FlushFrom;
    match call
    case Write(p, wrap) =>
      if Admitted(c, p, wrap) {
        AdmittedStream(c, p, wrap);
        WriteEnd(c, s, p, wrap);
      } else {
        RejectedAtOnce(c, s, p, wrap);
      }
    case LiveTags(tags) => FlushFromEnd(c, s, 0, None);
    case Silence(numbers) =>
  }

  // ----- runs -----

  lemma {:induction false} RunEnds(c: Config, s: State, calls: seq<Call>, before: seq<int>)
    requires ValidConfig(c) && Inv(c, s) && IsLatest(before, s.maxEnd)
    ensures IsLatest(before + Ends(c, s, calls), Run(c, s, calls).state.maxEnd)
    decreases |calls|
  {
    hide Inv, Apply, Sound, Admitted, Ready, OnlyOnePending, IsLatest, EndOf, Timed;
    if calls == [] {
      assert before + [] == before;
    } else {
      InvReady(c, s);
      ApplyKeeps(c, s, calls[0]);
      ApplyEnd(c, s, calls[0]);
      var step := Apply(c, s, calls[0]);
      var now := if calls[0].Write? && Admitted(c, calls[0].packet, calls[0].wrap)
                 && calls[0].packet.stream < |c.tracks|
                 then [EndOf(c, s, calls[0].packet)] else [];
      if now != [] {
        TimedEnd(c, s, calls[0].packet, before);
      } else {
        assert before + now == before;
      }
      if step.outcome != Halted {
        RunEnds(c, step.state, calls[1..], before + now);
        assert before + now + Ends(c, step.state, calls[1..]) == before + (now + Ends(c, step.state, calls[1..]));
      } else {
        assert before + (now + []) == before + now;
      }
    }
  }

  lemma {:induction false} EndsAreShort(c: Config, s: State, calls: seq<Call>)
    requires ValidConfig(c) && Inv(c, s)
    ensures forall i :: 0 <= i < |Ends(c, s, calls)| ==> Ends(c, s, calls)[i] < TWO_TO_THE_63
    decreases |calls|
  {
    hide Inv, Apply, Sound, Admitted, Ready, OnlyOnePending, TimeOf, DurationMs;
    if calls != [] {
      InvReady(c, s);
      ApplyKeeps(c, s, calls[0]);
      var step := Apply(c, s, calls[0]);
      if step.outcome != Halted {
        EndsAreShort(c, step.state, calls[1..]);
      }
    }
  }

  lemma EndIsTold(c: Config, s: State, p: Packet, before: seq<Packet>, done: seq<Frame>)
    requires Ready(c, s) && p.stream < |c.tracks| && KeepsCount(c, s, before, done)
    ensures IsEnd(c, before, p, EndOf(c, s, p))
  {
    hide PtsToMs, DurationMs, IsMs, IsLength, Clock, LastMs;
    assert EffectivePts(s, p) == TimeStamp(c, before, p);
    MsIs(EffectivePts(s, p), c.tracks[p.stream]);
    LengthIs(c.tracks[p.stream], p);
    var ms, length := TimeOf(c, s, p), DurationMs(p, c.tracks[p.stream]);
    SpansEnd(c, before, p, ms, length);
  }

  lemma {:induction false} EndsAreTold(c: Config, s: State, calls: seq<Call>, before: seq<Packet>, done: seq<Frame>)
    requires ValidConfig(c) && Inv(c, s) && KeepsCount(c, s, before, done) && Run(c, s, calls).outcome != Halted
    ensures EndsAre(c, before, calls, Ends(c, s, calls))
    decreases |calls|
  {
    hide Inv, Apply, Sound, Admitted, Ready, OnlyOnePending, KeepsCount, Passes, TooEarly, Tells, AcceptedFrame, EndOf,
      IsEnd;
    if calls != [] {
      InvReady(c, s);
      ApplyKeeps(c, s, calls[0]);
      StepLogs(c, s, calls[0], before, done);
      var t := Apply(c, s, calls[0]).state;
      var rest := Ends(c, t, calls[1..]);
      if calls[0].Write? {
        AdmittedExactly(c, calls[0].packet, calls[0].wrap);
      }
      if calls[0].Write? && Passes(c, calls[0].packet, calls[0].wrap) {
        var p, wrap := calls[0].packet, calls[0].wrap;
        EndIsTold(c, s, p, before, done);
        assert ([EndOf(c, s, p)] + rest)[1..] == rest;
        EndsAreTold(c, t, calls[1..], before + [p],
                    if TooEarly(c, before, p) then done else done + [AcceptedFrame(c, s, p, wrap)]);
      } else {
        assert [] + rest == rest;
        EndsAreTold(c, t, calls[1..], before, done);
      }
    }
  }

  /**
   * The finished file's Duration is the latest end of all packets the run has admitted, or 0 if that
   * is negative: exactly below 2^53 ms, and as the nearest double beyond. Without a packet there is none.
   */
  lemma DurationIsLatestEnd(l: Setup, calls: seq<Call>)
    requires ValidSetup(l) && l.finalize
    requires ValidConfig(ConfigOf(l)) && RunFrom(ConfigOf(l), calls).outcome != Halted
    requires InnerLength(FlushedState(l, calls).cues, l.strict) < SIZE_LIMIT
    ensures exists ends ::
              && EndsAre(ConfigOf(l), [], calls, ends)
              && match Finished(l, FlushedState(l, calls)).patches.duration
                 case None => ends == []
                 case Some(float) =>
                   exists end :: IsLatest(ends, Some(end)) && SaysMilliseconds(float, if end > 0 then end else 0)
  {
    hide Inv, Sound, Run, ConfigOf, ValidSetup, IsLatest, Ends, FlushAll, Initial, FloatBytes, SaysMilliseconds,
      InSlot, Unpatched, Cursor, FrontAt, InnerLength, EndsAre;
    var c := ConfigOf(l);
    InitialInv(c);
    var s := RunFrom(c, calls).state;
    NoEndYet(c);
    RunEnds(c, Initial(c), calls, []);
    NothingCounted(c);
    EndsAreTold(c, Initial(c), calls, [], []);
    var ends := Ends(c, Initial(c), calls);
    assert [] + ends == ends;
    AllFlushedEnd(c, s);
    EndsAreShort(c, Initial(c), calls);
    if s.maxEnd.Some? {
      LatestIsShort(ends, s.maxEnd.value);
      Says(s.maxEnd.value);
      assert Finished(l, FlushedState(l, calls)).patches.duration == Some(MeasuredEnd(s.maxEnd.value));
    } else {
      NoneLatest(ends);
    }
  }

  /** Eight bytes that are the nearest double to a count, and exactly the count below 2^53. */
  ghost predicate SaysMilliseconds(float: seq<byte>, n: nat) {
    && |float| == 8
    && RoundsTo(n, FromBE(float))
    && (n < 2 * TWO_TO_THE_52 ==> Denotes(FromBE(float), n))
  }

  lemma Says(end: int)
    requires end < TWO_TO_THE_63
    ensures SaysMilliseconds(MeasuredEnd(end), NonNegative(end))
  {
    hide FloatBytes, DoubleBits, RoundsTo, Denotes;
    var n := NonNegative(end);
    FloatBytesRead(n);
    FloatIsNearest(n);
    if n < 2 * TWO_TO_THE_52 {
      ShortIsExact(n);
    }
  }

  lemma LatestIsShort(ends: seq<int>, end: int)
    requires IsLatest(ends, Some(end)) && forall i :: 0 <= i < |ends| ==> ends[i] < TWO_TO_THE_63
    ensures end < TWO_TO_THE_63
  {
  }

  lemma NoneLatest(ends: seq<int>)
    requires IsLatest(ends, None)
    ensures ends == []
  {
  }

  lemma NoEndYet(c: Config)
    ensures IsLatest([], Initial(c).maxEnd)
  {
  }

  lemma AllFlushedEnd(c: Config, s: State)
    requires Inv(c, s)
    ensures Ready(c, s) && FlushAll(c, s).maxEnd == s.maxEnd
  {
    InvReady(c, s);
    hide FlushFrom, Inv;
    FlushFromEnd(c, s, 0, None);
  }
}
