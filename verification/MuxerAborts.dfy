/**
 * What becomes of a muxer that is used further after the SilentTracks guard has stopped it in the
 * middle of opening a Cluster.
 */
module MuxerAborts {
  import opened Lacing
  import opened Muxer
  import opened MuxerRun

  lemma StoppedState(c: Config, s: State, p: Packet, wrap: Wrap)
    requires Ready(c, s) && OnlyOnePending(c, s) && c.mode == NoLacing && WritePacket(c, s, p, wrap).outcome == Halted
    ensures p.stream < |c.tracks|
    ensures WritePacket(c, s, p, wrap).state == Aborted(c, Timed(c, s, p), TimeOf(c, s, p))
  {
    hide Aborted, Admit, PtsToMs, EffectivePts, Timed;
    if Admit(c, p.stream, wrap).Some? {
      AdmitRange(c, p.stream, wrap);
    }
  }

  /** The guard leaves an empty Cluster behind, and fields that speak of the one before. */
  lemma AbortedFields(c: Config, s: State, ms: int)
    requires Ready(c, s) && OnlyOnePending(c, s)
    ensures var a := Aborted(c, s, ms);
            && Ready(c, a) && OnlyOnePending(c, a)
            && a.open == s.open && a.tc == s.tc && a.bytes == s.bytes && a.silent == s.silent
            && |a.items| == |s.items| + 1 && Last(a.items)
            && a.items[|s.items|].time == NonNegative(ms) && a.items[|s.items|].blocks == []
  {
    hide Lead, Cursor;
  }

  /** A packet that needs no new Cluster becomes the next Block of the last one. */
  lemma GoesToLast(c: Config, s: State, p: Packet, wrap: Wrap)
    requires Ready(c, s) && OnlyOnePending(c, s) && c.mode == NoLacing && s.open && ValidConfig(c)
    requires Admitted(c, p, wrap) && p.stream < |c.tracks|
    requires 0 <= TimeOf(c, s, p) - s.tc <= c.maxMs && s.bytes < c.maxBytes
    ensures var r := WritePacket(c, s, p, wrap);
            && r.outcome == Accepted && |r.state.items| == |s.items| && Last(r.state.items)
            && var was, cl := s.items[|s.items| - 1], r.state.items[|s.items| - 1];
               && cl.time == was.time && |cl.blocks| == |was.blocks| + 1
               && cl.blocks[|was.blocks|].block.offset == TimeOf(c, s, p) - s.tc
  {
    hide Admit, PtsToMs, EffectivePts, Timed, DurationMs, Siblings, ReferencesOf, Cursor, BlockElem, Indexable;
    TimedFields(c, s, p);
    var t := Timed(c, s, p);
    var group := Admit(c, p.stream, wrap).value;
    var f := FrameOf(c, s, p, group);
    assert WritePacket(c, s, p, wrap) == Placed(c, t, f);
    CuedFields(c, t, f);
    assert Place(c, t, f).items == Put(t.items, UnlacedBlock(c, t, f));
  }

  lemma CuedFields(c: Config, s: State, f: Frame)
    requires Ready(c, s) && s.open && f.stream < |c.tracks|
    ensures CueFor(c, s, f).items == s.items
  {
  }

  /**
   * Used on after the guard, the muxer counts from the Cluster it believes open: the next Block
   * goes into the Cluster on disk, whose time is not the one its offset was taken from. What a reader
   * finds is wrong by exactly the distance between the two Clusters.
   */
  lemma AfterTheGuard(c: Config, s: State, p: Packet, wrap: Wrap, q: Packet, more: Wrap)
    requires ValidConfig(c) && Inv(c, s) && c.mode == NoLacing && s.open
    requires WritePacket(c, s, p, wrap).outcome == Halted
    requires Admitted(c, q, more) && q.stream < |c.tracks| && s.bytes < c.maxBytes
    ensures p.stream < |c.tracks|
    ensures var a := WritePacket(c, s, p, wrap).state;
            && Ready(c, a) && OnlyOnePending(c, a)
            && (0 <= TimeOf(c, a, q) - s.tc <= c.maxMs ==>
                  var r := WritePacket(c, a, q, more);
                  && r.outcome == Accepted && |r.state.items| == |s.items| + 1 && Last(r.state.items)
                  && var cl := r.state.items[|s.items|];
                     && |cl.blocks| == 1 && cl.time == NonNegative(TimeOf(c, s, p))
                     && cl.time + cl.blocks[0].block.offset == TimeOf(c, a, q) + (cl.time - s.tc))
  {
    hide Inv, WritePacket, Aborted, PtsToMs, EffectivePts, Timed, Admit, Sound;
    assert Ready(c, s) && OnlyOnePending(c, s) by { InvIsReady(c, s); }
    StoppedState(c, s, p, wrap);
    TimedFields(c, s, p);
    var t := Timed(c, s, p);
    OnePendingStays(c, s, t);
    AbortedFields(c, t, TimeOf(c, s, p));
    var a := WritePacket(c, s, p, wrap).state;
    if 0 <= TimeOf(c, a, q) - s.tc <= c.maxMs {
      GoesToLast(c, a, q, more);
    }
  }

  lemma InvIsReady(c: Config, s: State)
    requires Inv(c, s)
    ensures Ready(c, s) && OnlyOnePending(c, s)
  {
  }
}
