/**
 * What a run makes of its calls, told without the muxer: which packets are accepted, with which time,
 * duration and references, from the packets alone.
 */
module PacketLog {
  import opened Wrappers
  import opened Codecs
  import opened Muxer
  import opened MuxerRun
  import opened MuxerTheorems

  // ----- milliseconds -----

  /** `q` is `a / b` without its fraction, toward zero. */
  predicate IsQuotient(q: int, a: int, b: int)
    requires b != 0
  {
    var n, d := if b > 0 then a else -a, if b > 0 then b else -b;
    if n >= 0 then q * d <= n < (q + 1) * d else (q - 1) * d < n <= q * d
  }

  /** `ms` is what 64 bits keep of `q`. */
  predicate KeptIn64(ms: int, q: int) {
    -0x8000_0000_0000_0000 <= ms < 0x8000_0000_0000_0000 && (ms - q) % 0x1_0000_0000_0000_0000 == 0
  }

  /** `v` ticks of the track's time base are `ms` milliseconds; a time base without denominator counts in them. */
  ghost predicate IsMs(v: int, t: Track, ms: int) {
    if t.den == 0 then KeptIn64(ms, v)
    else exists q :: IsQuotient(q, v * t.num * 1000, t.den) && KeptIn64(ms, q)
  }

  lemma DivisionBounds(n: nat, d: nat)
    requires d > 0
    ensures n / d * d <= n < (n / d + 1) * d
    ensures (-(n / d) - 1) * d < 0 - n <= -(n / d) * d
  {
    var q := n / d;
    assert n == q * d + n % d;
    assert (q + 1) * d == q * d + d;
    assert (-q - 1) * d == -((q + 1) * d);
    assert -q * d == -(q * d);
  }

  lemma TruncIsQuotient(a: int, b: int)
    requires b != 0
    ensures IsQuotient(TruncDiv(a, b), a, b)
  {
    hide IsQuotient;
    var m, d := if a < 0 then -a else a, if b < 0 then -b else b;
    var q := m / d;
    assert TruncDiv(a, b) == if (a < 0) == (b < 0) then q else -q;
    hide TruncDiv;
    DivisionBounds(m, d);
    SignedQuotient(q, a, b);
  }

  lemma SignedQuotient(q: int, a: int, b: int)
    requires b != 0
    requires var m, d := if a < 0 then -a else a, if b < 0 then -b else b;
             q * d <= m < (q + 1) * d && (-q - 1) * d < 0 - m <= -q * d && (m == 0 ==> q == 0)
    ensures IsQuotient(if (a < 0) == (b < 0) then q else -q, a, b)
  {
  }

  lemma CastKeeps(v: int)
    ensures KeptIn64(I64(v), v)
  {
  }

  lemma MsIs(v: int, t: Track)
    ensures IsMs(v, t, PtsToMs(v, t))
  {
    if t.den == 0 {
      CastKeeps(v);
    } else {
      var q := TruncDiv(v * t.num * 1000, t.den);
      TruncIsQuotient(v * t.num * 1000, t.den);
      CastKeeps(q);
      assert PtsToMs(v, t) == I64(q);
    }
  }

  lemma Monotone(x: int, y: int, d: int)
    requires x < y && d > 0
    ensures (x + 1) * d <= y * d
  {
  }

  lemma QuotientIsUnique(q: int, r: int, a: int, b: int)
    requires b != 0 && IsQuotient(q, a, b) && IsQuotient(r, a, b)
    ensures q == r
  {
    var d := if b > 0 then b else -b;
    if q < r {
      Monotone(q, r, d);
      Monotone(q - 1, r - 1, d);
    } else if r < q {
      Monotone(r, q, d);
      Monotone(r - 1, q - 1, d);
    }
  }

  lemma KeptIsUnique(x: int, y: int, q: int)
    requires KeptIn64(x, q) && KeptIn64(y, q)
    ensures x == y
  {
  }

  /** The time is determined, and where nothing overflows it is the exact one, rounded toward zero. */
  lemma MsIsExact(v: int, t: Track, ms: int, other: int)
    requires IsMs(v, t, ms)
    ensures IsMs(v, t, other) ==> other == ms
    ensures t.den == 0 && -0x8000_0000_0000_0000 <= v < 0x8000_0000_0000_0000 ==> ms == v
    ensures t.den > 0 && 0 <= v * t.num * 1000 < 0x8000_0000_0000_0000 * t.den ==>
              ms * t.den <= v * t.num * 1000 < (ms + 1) * t.den
    ensures t.den > 0 && -0x8000_0000_0000_0000 * t.den <= v * t.num * 1000 < 0 ==>
              (ms - 1) * t.den < v * t.num * 1000 <= ms * t.den
  {
    if t.den != 0 {
      var a := v * t.num * 1000;
      var q :| IsQuotient(q, a, t.den) && KeptIn64(ms, q);
      if IsMs(v, t, other) {
        var r :| IsQuotient(r, a, t.den) && KeptIn64(other, r);
        QuotientIsUnique(q, r, a, t.den);
        KeptIsUnique(ms, other, q);
      }
      SmallIsKept(ms, q, a, t.den);
    } else if IsMs(v, t, other) {
      KeptIsUnique(ms, other, v);
    }
  }

  lemma SmallIsKept(ms: int, q: int, a: int, b: int)
    requires b != 0 && IsQuotient(q, a, b) && KeptIn64(ms, q)
    ensures b > 0 && -0x8000_0000_0000_0000 * b <= a < 0x8000_0000_0000_0000 * b ==> ms == q
  {
    var m := 0x8000_0000_0000_0000;
    if b > 0 && -m * b <= a < m * b {
      if q >= m {
        Monotone(m - 1, q, b);
      }
      if q < -m {
        Monotone(q, -m, b);
      }
      assert -m <= q < m;
    }
  }

  // ----- what a packet says -----

  /** The packet's duration in ticks: an Opus packet tells it itself, at 48 kHz. */
  function PacketTicks(t: Track, p: Packet): Option<int> {
    if t.codec != Opus then p.duration
    else if p.data == [] || (p.data[0] % 4 == 3 && |p.data| < 2) then None
    else Some(48 * FrameTenths(p.data[0] / 8) * FrameCount(p.data) / 10)
  }

  lemma TicksAre(t: Track, p: Packet)
    ensures Ticks(p, t) == PacketTicks(t, p)
  {
    hide OpusSamples, FrameTenths, FrameCount;
    if t.codec == Opus {
      OpusSamplesAreTime(p.data);
    }
  }

  /** The duration in milliseconds, unless it is unknown or negative. */
  ghost predicate IsLength(t: Track, p: Packet, length: Option<nat>) {
    match PacketTicks(t, p)
    case None => length == None
    case Some(ticks) => exists ms :: IsMs(ticks, t, ms) && length == if ms >= 0 then Some(ms) else None
  }

  predicate AdditionsFit(t: Track, additions: seq<Addition>) {
    additions != [] ==>
      && t.maxAdditionId > 0
      && (forall a :: a in additions ==> 1 <= a.id <= t.maxAdditionId)
      && (forall i, j :: 0 <= i < |additions| && 0 <= j < |additions| && additions[i].id == additions[j].id ==> i == j)
  }

  predicate InProfile(g: GroupOptions) {
    g.priority == 0 && g.codecState == None && g.blockVirtual == None && g.referenceVirtual == None && g.slices == []
    && g.referenceFrame == None
  }

  /** The checks that a packet has to pass: its stream, its group, and one access unit if it is AAC. */
  predicate Passes(c: Config, p: Packet, wrap: Wrap) {
    && p.stream < |c.tracks|
    && (c.tracks[p.stream].codec == Aac ==> StripAdts(p.data).Some?)
    && match wrap
       case Plain => true
       case WithAdditions(additions) => AdditionsFit(c.tracks[p.stream], additions)
       case WithGroup(g) => (c.strict ==> InProfile(g)) && AdditionsFit(c.tracks[p.stream], g.additions)
  }

  function JustAdditions(additions: seq<Addition>): GroupOptions {
    GroupOptions(additions, [], 0, None, None, None, None, [], None)
  }

  /** The group that the packet goes into; no additions are no reason for one. */
  function GroupOf(wrap: Wrap): Option<GroupOptions> {
    match wrap
    case Plain => None
    case WithAdditions(additions) => if additions == [] then None else Some(JustAdditions(additions))
    case WithGroup(g) => Some(g)
  }

  lemma AdmittedExactly(c: Config, p: Packet, wrap: Wrap)
    ensures Admitted(c, p, wrap) <==> Passes(c, p, wrap)
    ensures Passes(c, p, wrap) ==> Admit(c, p.stream, wrap) == Some(GroupOf(wrap))
  {
    hide StripAdts;
    if p.stream < |c.tracks| {
      var t := c.tracks[p.stream];
      match wrap
      case Plain =>
      case WithAdditions(additions) => AdditionsAgree(t, additions);
      case WithGroup(g) => AdditionsAgree(t, g.additions);
    }
  }

  lemma AdditionsAgree(t: Track, additions: seq<Addition>)
    ensures additions != [] ==> (AdditionsOk(t, additions) <==> AdditionsFit(t, additions))
  {
    if AdditionsFit(t, additions) {
      assert forall i :: 0 <= i < |additions| ==> additions[i] in additions;
    }
  }

  // ----- what the packets before it say -----

  /** A stream's running time: its last packet's own time and the ticks of that packet. */
  function Clock(c: Config, before: seq<Packet>, stream: nat): int
    requires stream < |c.tracks|
    decreases |before|, 0
  {
    if before == [] then 0
    else
      var init, p := before[..|before| - 1], before[|before| - 1];
      if p.stream != stream then Clock(c, init, stream)
      else
        var ticks := PacketTicks(c.tracks[stream], p);
        TimeStamp(c, init, p) + if ticks.Some? then ticks.value else 0
  }

  /** A packet's time in ticks: its own, or the running time of its stream. */
  function TimeStamp(c: Config, before: seq<Packet>, p: Packet): int
    requires p.stream < |c.tracks|
    decreases |before|, 1
  {
    if p.pts.Some? then p.pts.value else Clock(c, before, p.stream)
  }

  /** The time of the last frame of a stream. */
  function LastMs(done: seq<Frame>, stream: nat): Option<int> {
    if done == [] then None
    else if done[|done| - 1].stream == stream then Some(done[|done| - 1].ms)
    else LastMs(done[..|done| - 1], stream)
  }

  /** Explicit references stand; otherwise a key frame has none and any other frame leads to the one before it. */
  predicate IsReferences(done: seq<Frame>, p: Packet, g: GroupOptions, ms: int, refs: seq<int>) {
    if g.references != [] then refs == g.references
    else if p.key then refs == []
    else match LastMs(done, p.stream)
      case None => refs == [0]
      case Some(last) => |refs| == 1 && ms + refs[0] == last
  }

  /** The frame that an accepted packet becomes. */
  ghost predicate Tells(c: Config, before: seq<Packet>, done: seq<Frame>, p: Packet, wrap: Wrap, f: Frame)
    requires p.stream < |c.tracks|
  {
    var t := c.tracks[p.stream];
    && f.stream == p.stream && f.key == p.key
    && (if t.codec == Aac then StripAdts(p.data) == Some(f.data) else f.data == p.data)
    && IsMs(TimeStamp(c, before, p), t, f.ms)
    && IsLength(t, p, f.length)
    && match GroupOf(wrap)
       case None => f.group == None
       case Some(g) =>
         f.group.Some? && f.group.value.options == g && IsReferences(done, p, g, f.ms, f.group.value.references)
  }

  /** A Block's offset cannot reach so far below the Cluster's time, which is never negative. */
  ghost predicate TooEarly(c: Config, before: seq<Packet>, p: Packet)
    requires p.stream < |c.tracks|
  {
    exists ms :: IsMs(TimeStamp(c, before, p), c.tracks[p.stream], ms) && ms < -32768
  }

  /**
   * The frames of a run of calls: one for every packet that passes its checks and is not too early,
   * in call order. `before` are the packets that have passed, `done` the frames so far.
   */
  ghost predicate Logged(c: Config, before: seq<Packet>, done: seq<Frame>, calls: seq<Call>, frames: seq<Frame>)
    decreases |calls|
  {
    if calls == [] then frames == []
    else
      match calls[0]
      case Write(p, wrap) =>
        if !Passes(c, p, wrap) then Logged(c, before, done, calls[1..], frames)
        else if TooEarly(c, before, p) then Logged(c, before + [p], done, calls[1..], frames)
        else
          && frames != [] && Tells(c, before, done, p, wrap, frames[0])
          && Logged(c, before + [p], done + [frames[0]], calls[1..], frames[1..])
      case _ => Logged(c, before, done, calls[1..], frames)
  }

  // ----- the muxer keeps count -----

  /** The muxer's running times and last times are those of the packets and frames so far. */
  predicate KeepsCount(c: Config, s: State, before: seq<Packet>, done: seq<Frame>) {
    && |s.streamPts| == |s.lastPts| == |c.tracks|
    && forall i :: 0 <= i < |c.tracks| ==> s.streamPts[i] == Clock(c, before, i) && s.lastPts[i] == LastMs(done, i)
  }

  lemma FrameTells(c: Config, s: State, p: Packet, wrap: Wrap, before: seq<Packet>, done: seq<Frame>)
    requires Ready(c, s) && Passes(c, p, wrap) && KeepsCount(c, s, before, done)
    ensures Admitted(c, p, wrap) && p.stream < |c.tracks|
    ensures Tells(c, before, done, p, wrap, AcceptedFrame(c, s, p, wrap))
    ensures TimeOf(c, s, p) >= -32768 <==> !TooEarly(c, before, p)
    ensures AcceptedFrame(c, s, p, wrap).ms == TimeOf(c, s, p)
  {
    hide PtsToMs, Admit, IsMs, StripAdts, Passes, PacketTicks, Clock, LastMs;
    AdmittedExactly(c, p, wrap);
    PassesStream(c, p, wrap);
    var t := c.tracks[p.stream];
    assert EffectivePts(s, p) == TimeStamp(c, before, p);
    MsIs(EffectivePts(s, p), t);
    LengthIs(t, p);
    ReadyToTell(c, s, p, wrap, before, done);
  }

  lemma PassesStream(c: Config, p: Packet, wrap: Wrap)
    requires Passes(c, p, wrap)
    ensures p.stream < |c.tracks| && (c.tracks[p.stream].codec == Aac ==> StripAdts(p.data).Some?)
  {
  }

  lemma LengthIs(t: Track, p: Packet)
    ensures IsLength(t, p, DurationMs(p, t))
  {
    hide PtsToMs, IsMs, PacketTicks;
    TicksAre(t, p);
    if Ticks(p, t).Some? {
      MsIs(Ticks(p, t).value, t);
    }
  }

  lemma ReadyToTell(c: Config, s: State, p: Packet, wrap: Wrap, before: seq<Packet>, done: seq<Frame>)
    requires Ready(c, s) && p.stream < |c.tracks| && KeepsCount(c, s, before, done)
    requires EffectivePts(s, p) == TimeStamp(c, before, p)
    requires IsMs(EffectivePts(s, p), c.tracks[p.stream], TimeOf(c, s, p))
    ensures TimeOf(c, s, p) >= -32768 <==> !TooEarly(c, before, p)
  {
    hide IsMs, TimeStamp, KeepsCount;
    var ms := TimeOf(c, s, p);
    if TooEarly(c, before, p) {
      var other :| IsMs(TimeStamp(c, before, p), c.tracks[p.stream], other) && other < -32768;
      MsIsExact(TimeStamp(c, before, p), c.tracks[p.stream], ms, other);
    }
  }

  /** What a packet that passes does to the counts. */
  lemma TimedCounts(c: Config, s: State, p: Packet, before: seq<Packet>, done: seq<Frame>)
    requires Ready(c, s) && p.stream < |c.tracks| && KeepsCount(c, s, before, done)
    ensures KeepsCount(c, Timed(c, s, p), before + [p], done)
  {
    hide PtsToMs, DurationMs, PacketTicks, SaturatingAdd, LastMs;
    TicksAre(c.tracks[p.stream], p);
    var t := Timed(c, s, p);
    forall i | 0 <= i < |c.tracks|
      ensures t.streamPts[i] == Clock(c, before + [p], i) && t.lastPts[i] == LastMs(done, i)
    {
      ClockGrows(c, before, p, i);
    }
  }

  lemma ClockGrows(c: Config, before: seq<Packet>, p: Packet, i: nat)
    requires i < |c.tracks| && p.stream < |c.tracks|
    ensures Clock(c, before + [p], i)
         == if p.stream != i then Clock(c, before, i)
            else TimeStamp(c, before, p)
                 + if PacketTicks(c.tracks[i], p).Some? then PacketTicks(c.tracks[i], p).value else 0
  {
    hide PacketTicks;
    assert (before + [p])[..|before + [p]| - 1] == before;
  }

  lemma FrameCounts(c: Config, s: State, before: seq<Packet>, done: seq<Frame>, f: Frame)
    requires KeepsCount(c, s, before, done) && f.stream < |c.tracks|
    ensures KeepsCount(c, s.(lastPts := s.lastPts[f.stream := Some(f.ms)]), before, done + [f])
  {
    hide Clock;
    assert (done + [f])[..|done + [f]| - 1] == done;
  }

  lemma SameCounts(c: Config, s: State, t: State, before: seq<Packet>, done: seq<Frame>)
    requires KeepsCount(c, s, before, done) && t.streamPts == s.streamPts && t.lastPts == s.lastPts
    ensures KeepsCount(c, t, before, done)
  {
    hide Clock, LastMs;
  }

  lemma {:induction false} FlushFromCounts(c: Config, s: State, i: nat, keep: Option<nat>)
    requires Ready(c, s) && i <= |c.tracks|
    ensures var t := FlushFrom(c, s, i, keep); t.streamPts == s.streamPts && t.lastPts == s.lastPts
    decreases |c.tracks| - i
  {
    hide FlushLace;
    if i < |c.tracks| {
      if keep != Some(i) {
        FlushLaceOthers(c, s, i);
      }
      FlushFromCounts(c, if keep == Some(i) then s else FlushLace(c, s, i), i + 1, keep);
    }
  }

  lemma SettledCounts(c: Config, s: State, p: Packet, group: Option<GroupOptions>)
    requires Ready(c, s) && p.stream < |c.tracks|
    ensures var t := Settled(c, s, p, group); t.streamPts == s.streamPts && t.lastPts == s.lastPts
    ensures var t := EndLace(c, s, p.stream); t.streamPts == s.streamPts && t.lastPts == s.lastPts
  {
    hide FlushLace, FlushFrom;
    FlushLaceOthers(c, s, p.stream);
    FlushFromCounts(c, s, 0, if group.Some? then None else Some(p.stream));
  }

  lemma PlacedCounts(c: Config, s: State, f: Frame)
    requires Ready(c, s) && s.open && f.stream < |c.tracks|
    ensures var r := Placed(c, s, f);
            && r.state.streamPts == s.streamPts
            && r.state.lastPts == if r.outcome == Accepted then s.lastPts[f.stream := Some(f.ms)] else s.lastPts
  {
    hide UnlacedBlock, Put, Cursor, BlockElem, Indexable, FlushLace;
    if MustFlush(c, s.laces[f.stream], f) {
      FlushLaceOthers(c, s, f.stream);
    }
  }

  lemma OpenedCounts(c: Config, s: State, ms: int)
    requires Ready(c, s) && NothingPending(s)
    ensures var t := StartCluster(c, s, ms); t.streamPts == s.streamPts && t.lastPts == s.lastPts
  {
    hide FullLead, Cursor;
  }

  /** A packet that goes all the way moves its stream's running time and, once accepted, its last time. */
  lemma WriteCounts(c: Config, s: State, p: Packet, wrap: Wrap)
    requires Ready(c, s) && OnlyOnePending(c, s) && Admitted(c, p, wrap) && p.stream < |c.tracks|
    ensures var r := WritePacket(c, s, p, wrap);
            r.outcome != Halted ==>
              && r.state.streamPts == Timed(c, s, p).streamPts
              && r.state.lastPts == if r.outcome == Accepted then s.lastPts[p.stream := Some(TimeOf(c, s, p))]
                                    else s.lastPts
  {
    hide PtsToMs, EffectivePts, Admit, Timed, FrameData, Placed, Settled, Ready, OnlyOnePending, SilentBlocked,
      StartCluster, EndLace, Aborted, DurationMs;
    var group := Admit(c, p.stream, wrap).value;
    var timed := Timed(c, s, p);
    TimedFields(c, s, p);
    OnePendingStays(c, s, timed);
    SettledCounts(c, timed, p, group);
    SettledIsSettled(c, timed, p, group);
    var settled := Settled(c, timed, p, group);
    var f := FrameOf(c, s, p, group);
    if !NeedsCluster(c, settled, f.ms) {
      PlacedCounts(c, settled, f);
    } else {
      SettledCounts(c, settled, p, group);
      var ended := EndLace(c, settled, p.stream);
      if !SilentBlocked(c, ended) {
        OpenedCounts(c, ended, f.ms);
        PlacedCounts(c, StartCluster(c, ended, f.ms), f);
      }
    }
  }

  lemma OtherCallsCount(c: Config, s: State, call: Call)
    requires Ready(c, s) && OnlyOnePending(c, s) && !call.Write?
    ensures var t := Apply(c, s, call).state; t.streamPts == s.streamPts && t.lastPts == s.lastPts
  {
    hide FlushFrom, TagsAdmitted;
    if call.LiveTags? && TagsAdmitted(c, call.tags) {
      FlushFromCounts(c, s, 0, None);
    }
  }

  lemma NothingCounted(c: Config)
    ensures KeepsCount(c, Initial(c), [], [])
  {
  }

  // ----- runs -----

  /** What the first of the calls does to the counts and the log. */
  lemma StepLogs(c: Config, s: State, call: Call, before: seq<Packet>, done: seq<Frame>)
    requires ValidConfig(c) && Inv(c, s) && Ready(c, s) && OnlyOnePending(c, s) && KeepsCount(c, s, before, done)
    requires Apply(c, s, call).outcome != Halted
    ensures var t := Apply(c, s, call).state;
            if call.Write? && Passes(c, call.packet, call.wrap) then
              call.packet.stream < |c.tracks| &&
              var p, wrap := call.packet, call.wrap;
              if TooEarly(c, before, p) then
                t.accepted == s.accepted && KeepsCount(c, t, before + [p], done)
              else
                Admitted(c, p, wrap) &&
                var f := AcceptedFrame(c, s, p, wrap);
                Tells(c, before, done, p, wrap, f) && t.accepted == s.accepted + [f]
                && KeepsCount(c, t, before + [p], done + [f])
            else t.accepted == s.accepted && KeepsCount(c, t, before, done)
  {
    hide Inv, WritePacket, Sound, Passes, TooEarly, Tells, KeepsCount, Admitted, AcceptedFrame, Timed, Ready,
      OnlyOnePending, PtsToMs, EffectivePts, WriteLiveTags, Stopped, Settled, NeedsCluster;
    if call.Write? {
      var p, wrap := call.packet, call.wrap;
      WritePacketKeeps(c, s, p, wrap);
      AdmittedExactly(c, p, wrap);
      if Passes(c, p, wrap) {
        FrameTells(c, s, p, wrap, before, done);
        WriteCounts(c, s, p, wrap);
        TimedCounts(c, s, p, before, done);
        var timed, t := Timed(c, s, p), WritePacket(c, s, p, wrap).state;
        TimedFields(c, s, p);
        if TooEarly(c, before, p) {
          SameCounts(c, timed, t, before + [p], done);
        } else {
          var f := AcceptedFrame(c, s, p, wrap);
          AcceptedStream(c, s, p, wrap);
          CountsAll(c, timed, before + [p], done);
          FrameCounts(c, timed, before + [p], done, f);
          SameCounts(c, timed.(lastPts := timed.lastPts[f.stream := Some(f.ms)]), t, before + [p], done + [f]);
        }
      } else {
        RejectedAtOnce(c, s, p, wrap);
      }
    } else {
      OtherCallsCount(c, s, call);
      SameCounts(c, s, Apply(c, s, call).state, before, done);
      if call.LiveTags? {
        WriteLiveTagsKeeps(c, s, call.tags);
      }
    }
  }

  lemma CountsAll(c: Config, s: State, before: seq<Packet>, done: seq<Frame>)
    requires KeepsCount(c, s, before, done)
    ensures |s.lastPts| == |c.tracks|
  {
  }

  lemma AcceptedStream(c: Config, s: State, p: Packet, wrap: Wrap)
    requires Ready(c, s) && p.stream < |c.tracks| && Admitted(c, p, wrap)
    ensures AcceptedFrame(c, s, p, wrap).stream == p.stream
  {
  }

  lemma {:induction false} RunIsLogged(c: Config, s: State, calls: seq<Call>, before: seq<Packet>, done: seq<Frame>)
    requires ValidConfig(c) && Inv(c, s) && KeepsCount(c, s, before, done) && Run(c, s, calls).outcome != Halted
    ensures exists frames ::
              Logged(c, before, done, calls, frames) && Run(c, s, calls).state.accepted == s.accepted + frames
    decreases |calls|
  {
    hide Inv, Apply, Sound, Ready, OnlyOnePending, KeepsCount, Passes, TooEarly, Tells, Admitted, AcceptedFrame;
    if calls == [] {
      assert Logged(c, before, done, calls, []) && s.accepted + [] == s.accepted;
    } else {
      InvReady(c, s);
      ApplyKeeps(c, s, calls[0]);
      StepLogs(c, s, calls[0], before, done);
      var t := Apply(c, s, calls[0]).state;
      var final := Run(c, s, calls).state.accepted;
      if calls[0].Write? && Passes(c, calls[0].packet, calls[0].wrap) {
        var p, wrap := calls[0].packet, calls[0].wrap;
        if TooEarly(c, before, p) {
          RunIsLogged(c, t, calls[1..], before + [p], done);
          var frames :| Logged(c, before + [p], done, calls[1..], frames) && final == t.accepted + frames;
          assert Logged(c, before, done, calls, frames);
        } else {
          var f := AcceptedFrame(c, s, p, wrap);
          RunIsLogged(c, t, calls[1..], before + [p], done + [f]);
          var frames :| Logged(c, before + [p], done + [f], calls[1..], frames) && final == t.accepted + frames;
          assert ([f] + frames)[1..] == frames;
          assert Logged(c, before, done, calls, [f] + frames);
          assert s.accepted + [f] + frames == s.accepted + ([f] + frames);
        }
      } else {
        RunIsLogged(c, t, calls[1..], before, done);
        var frames :| Logged(c, before, done, calls[1..], frames) && final == t.accepted + frames;
        assert Logged(c, before, done, calls, frames);
      }
    }
  }

  /**
   * Every run that is not cut short accepts exactly the packets that pass their checks and are not too
   * early, each with its data, its time, its duration and its references.
   */
  lemma AcceptedIsLogged(c: Config, calls: seq<Call>)
    requires ValidConfig(c) && RunFrom(c, calls).outcome != Halted
    ensures Logged(c, [], [], calls, RunFrom(c, calls).state.accepted)
  {
    InitialInv(c);
    NothingCounted(c);
    hide Inv, Run, Sound, Logged;
    RunIsLogged(c, Initial(c), calls, [], []);
    var frames :| Logged(c, [], [], calls, frames) && RunFrom(c, calls).state.accepted == [] + frames;
    assert [] + frames == frames;
  }

  /** A run that is cut short has accepted what it had accepted before the packet that stopped it. */
  lemma {:induction false} CutShort(c: Config, s: State, calls: seq<Call>) returns (n: nat)
    requires ValidConfig(c) && Inv(c, s) && Run(c, s, calls).outcome == Halted
    ensures n < |calls| && calls[n].Write?
    ensures Run(c, s, calls[..n]).outcome != Halted
    ensures Run(c, s, calls).state.accepted == Run(c, s, calls[..n]).state.accepted
    decreases |calls|
  {
    hide Inv, Apply, Sound;
    ApplyKeeps(c, s, calls[0]);
    InvReady(c, s);
    var step := Apply(c, s, calls[0]);
    if step.outcome == Halted {
      n := 0;
      HaltsOnPacket(c, s, calls[0]);
      assert calls[..0] == [];
    } else {
      var m := CutShort(c, step.state, calls[1..]);
      n := m + 1;
      assert calls[..n][0] == calls[0] && calls[..n][1..] == calls[1..][..m];
    }
  }

  lemma HaltsOnPacket(c: Config, s: State, call: Call)
    requires ValidConfig(c) && Inv(c, s) && Ready(c, s) && OnlyOnePending(c, s) && Apply(c, s, call).outcome == Halted
    ensures call.Write? && Apply(c, s, call).state.accepted == s.accepted
  {
    hide WritePacket, WriteLiveTags, Inv, AcceptedFrame;
    if call.Write? {
      WritePacketKeeps(c, s, call.packet, call.wrap);
    }
  }

  /** So the log of a run that is cut short is that of the calls before the one that stopped it. */
  lemma CutShortIsLogged(c: Config, calls: seq<Call>) returns (n: nat)
    requires ValidConfig(c) && RunFrom(c, calls).outcome == Halted
    ensures n < |calls| && calls[n].Write?
    ensures Logged(c, [], [], calls[..n], RunFrom(c, calls).state.accepted)
  {
    InitialInv(c);
    hide Inv, Run, Sound, Logged;
    n := CutShort(c, Initial(c), calls);
    AcceptedIsLogged(c, calls[..n]);
  }

  // ----- when packets end -----

  ghost predicate Spans(c: Config, before: seq<Packet>, p: Packet, ms: int, length: Option<nat>)
    requires p.stream < |c.tracks|
  {
    IsMs(TimeStamp(c, before, p), c.tracks[p.stream], ms) && IsLength(c.tracks[p.stream], p, length)
  }

  /** A packet ends when its duration, if it is known, has passed since its time. */
  ghost predicate IsEnd(c: Config, before: seq<Packet>, p: Packet, end: int)
    requires p.stream < |c.tracks|
  {
    exists ms: int, length: Option<nat> ::
      Spans(c, before, p, ms, length) && end == Capped(ms + if length.Some? then length.value else 0)
  }

  lemma SpansEnd(c: Config, before: seq<Packet>, p: Packet, ms: int, length: Option<nat>)
    requires p.stream < |c.tracks| && Spans(c, before, p, ms, length)
    ensures IsEnd(c, before, p, Capped(ms + if length.Some? then length.value else 0))
  {
    hide Spans;
  }

  /** No end passes 64 bits. */
  function Capped(v: int): int {
    if v < 0x8000_0000_0000_0000 then v else 0x7FFF_FFFF_FFFF_FFFF
  }

  /** The ends of all packets that pass their checks, in call order. */
  ghost predicate EndsAre(c: Config, before: seq<Packet>, calls: seq<Call>, ends: seq<int>)
    decreases |calls|
  {
    if calls == [] then ends == []
    else if calls[0].Write? && Passes(c, calls[0].packet, calls[0].wrap) then
      && ends != [] && IsEnd(c, before, calls[0].packet, ends[0])
      && EndsAre(c, before + [calls[0].packet], calls[1..], ends[1..])
    else EndsAre(c, before, calls[1..], ends)
  }
}
