/** Cues never lie: each one points at the Block it was made for, in every later state. */
module MuxerCues {
  import opened Wrappers
  import opened Elements
  import opened Lacing
  import opened Cues
  import opened Muxer
  import opened MuxerLayout

  /**
   * The cue resolves in item `k`: a Cluster at the cue's offset whose `block`-th Block is of the
   * cue's track, begins at the cue's relative position, and has the cue's time.
   */
  predicate Resolves(c: Config, items: seq<Item>, cue: CueRecord, k: nat) {
    && k < |items| && items[k].Cluster?
    && cue.clusterOffset == ItemAt(c, items, k)
    && 1 <= cue.block <= |items[k].blocks|
    && cue.relative == BlockAt(items[k], cue.block - 1)
    && var b := items[k].blocks[cue.block - 1].block;
       && cue.track == b.track
       && cue.time == NonNegative(items[k].time + b.offset)
  }

  predicate CuesTrue(c: Config, s: State) {
    && |s.cues| == |s.cueAt|
    && forall n :: 0 <= n < |s.cues| ==> Resolves(c, s.items, s.cues[n], s.cueAt[n])
  }

  /** Writing more leaves every resolved cue resolved. */
  lemma ResolvesStays(c: Config, a: seq<Item>, b: seq<Item>, cue: CueRecord, k: nat)
    requires Extends(c, a, b) && Resolves(c, a, cue, k)
    ensures Resolves(c, b, cue, k)
  {
    hide ItemAt;
    assert SameItem(a[k], b[k]);
    assert b[k].blocks[..cue.block - 1] == a[k].blocks[..cue.block - 1];
  }

  lemma CuesStay(c: Config, s: State, t: State)
    requires CuesTrue(c, s) && Extends(c, s.items, t.items) && t.cues == s.cues && t.cueAt == s.cueAt
    ensures CuesTrue(c, t)
  {
    hide Extends, Resolves;
    forall n | 0 <= n < |t.cues|
      ensures Resolves(c, t.items, t.cues[n], t.cueAt[n])
    {
      ResolvesStays(c, s.items, t.items, s.cues[n], s.cueAt[n]);
    }
  }

  /** The cue itself. */
  lemma NewCueResolves(c: Config, s: State, i: nat, ms: int, duration: Option<nat>, r: BlockRec)
    requires Ready(c, s) && s.open && i < |c.tracks| && OpenIsLast(c, s)
    requires r.block.track == c.tracks[i].number && NonNegative(ms) == NonNegative(s.tc + r.block.offset)
    ensures var t := WriteBlock(AddCue(c, s, i, ms, duration), r);
            |t.cues| == |s.cues| + 1 && Resolves(c, t.items, t.cues[|s.cues|], |s.items| - 1)
  {
    hide ItemAt, BlockElem, ItemBytes, Ser, SerAll;
    var cued := AddCue(c, s, i, ms, duration);
    var t := WriteBlock(cued, r);
    var n := |s.items| - 1;
    CursorIsBlockAt(c, s);
    WriteBlockTracks(c, cued, r);
    assert SameItem(s.items[n], t.items[n]);
    assert t.items[n].blocks[..s.count] == s.items[n].blocks[..s.count];
  }

  /** A cue taken just before its Block is written resolves once it is. */
  lemma CuedBlock(c: Config, s: State, i: nat, ms: int, duration: Option<nat>, r: BlockRec)
    requires Ready(c, s) && s.open && i < |c.tracks| && OpenIsLast(c, s) && CuesTrue(c, s)
    requires r.block.track == c.tracks[i].number && NonNegative(ms) == NonNegative(s.tc + r.block.offset)
    ensures CuesTrue(c, WriteBlock(AddCue(c, s, i, ms, duration), r))
  {
    hide Resolves, Extends, ItemAt, BlockElem, ItemBytes, Ser, SerAll, Put;
    var cued := AddCue(c, s, i, ms, duration);
    var t := WriteBlock(cued, r);
    NewCueResolves(c, s, i, ms, duration, r);
    WriteBlockTracks(c, cued, r);
    forall m | 0 <= m < |s.cues|
      ensures Resolves(c, t.items, t.cues[m], t.cueAt[m])
    {
      ResolvesStays(c, s.items, t.items, s.cues[m], s.cueAt[m]);
    }
  }

  lemma UncuedBlock(c: Config, s: State, r: BlockRec)
    requires OpenIsLast(c, s) && CuesTrue(c, s)
    ensures CuesTrue(c, WriteBlock(s, r))
  {
    hide Resolves, ItemAt, BlockBytes, Extends;
    WriteBlockTracks(c, s, r);
    CuesStay(c, s, WriteBlock(s, r));
  }

  lemma FlushLaceCues(c: Config, s: State, i: nat)
    requires Ready(c, s) && i < |c.tracks| && Tracked(c, s) && CuesTrue(c, s)
    ensures CuesTrue(c, FlushLace(c, s, i))
  {
    hide WriteBlock, AddCue, Resolves, ItemAt, BlockBytes;
    var l := s.laces[i];
    if l.frames != [] {
      var taken := s.(laces := s.laces[i := l.(frames := [])]);
      assert OpenIsLast(c, taken) && CuesTrue(c, taken);
      if !s.seen[i] && Indexable(c.tracks[i].media, l.key) {
        CuedBlock(c, taken, i, s.tc + l.offset, None, LaceBlock(c, i, l));
      } else {
        UncuedBlock(c, taken, LaceBlock(c, i, l));
      }
    }
  }

  lemma AppendToLaceCues(c: Config, s: State, i: nat, offset: int, f: Frame)
    requires Ready(c, s) && s.open && i < |c.tracks| && Tracked(c, s) && CuesTrue(c, s)
    ensures CuesTrue(c, AppendToLace(c, s, i, offset, f))
  {
    hide FlushLace, Resolves, OpenIsLast;
    if MustFlush(c, s.laces[i], f) {
      FlushLaceCues(c, s, i);
    }
  }

  lemma PlaceCues(c: Config, s: State, f: Frame)
    requires Ready(c, s) && s.open && f.stream < |c.tracks| && Tracked(c, s) && CuesTrue(c, s)
    ensures CuesTrue(c, Place(c, s, f))
  {
    hide WriteBlock, AddCue, Resolves, OpenIsLast, Siblings, ReferencesOf, DurationMs, AppendToLace;
    var t := c.tracks[f.stream];
    if f.group.None? && c.mode != NoLacing {
      AppendToLaceCues(c, s, f.stream, f.ms - s.tc, f);
    } else if (t.media == SubtitleMedia || !s.seen[f.stream]) && Indexable(t.media, f.key) {
      CuedBlock(c, s, f.stream, f.ms, f.length, UnlacedBlock(c, s, f));
    } else {
      UncuedBlock(c, s, UnlacedBlock(c, s, f));
    }
  }

  lemma StartClusterCues(c: Config, s: State, ms: int)
    requires Ready(c, s) && NothingPending(s) && CuesTrue(c, s)
    ensures CuesTrue(c, StartCluster(c, s, ms))
  {
    hide Resolves, Extends;
    StartClusterTracks(c, s, ms);
    CuesStay(c, s, StartCluster(c, s, ms));
  }
}
