/**
 * What a player gets out of a finished file: the packets of the calls, told from the packets alone.
 */
module Playback {
  import opened Wrappers
  import opened Ebml
  import opened Lacing
  import opened FrontCues
  import opened Muxer
  import opened MuxerFrames
  import opened MuxerRun
  import opened MuxerTheorems
  import opened MuxerFile
  import opened Trailer
  import opened EndToEnd
  import opened ReadBack
  import opened FileReader
  import opened PacketLog
  import opened HeaderReader
  import opened FileContents

  // ----- Blocks that carry frames -----

  /** All frames are of the Block's track, with the data in it; a SimpleBlock also tells key frames. */
  predicate InBlock(b: Stamped, frames: seq<Frame>) {
    && |frames| == |b.block.frames|
    && (forall i :: 0 <= i < |frames| ==>
          frames[i].data == b.block.frames[i] && frames[i].stream + 1 == b.block.track)
    && if b.group.None? then
         forall i :: 0 <= i < |frames| ==> frames[i].group == None && frames[i].key == b.block.key
       else
         |frames| == 1 && frames[0].group.Some? && b.length == frames[0].length
         && b.group.value == frames[0].group.value.options.(references := frames[0].group.value.references)
  }

  /** The Blocks carry the frames one after the other, each with the time of its first. */
  predicate Carried(blocks: seq<Stamped>, frames: seq<Frame>)
    decreases |blocks|
  {
    if blocks == [] then frames == []
    else
      var n := |blocks[0].block.frames|;
      && 1 <= n <= |frames| && InBlock(blocks[0], frames[..n])
      && blocks[0].time + blocks[0].block.offset == frames[0].ms
      && Carried(blocks[1..], frames[n..])
  }

  lemma {:induction false} CarriedAppend(a: seq<Stamped>, x: seq<Frame>, b: seq<Stamped>, y: seq<Frame>)
    requires Carried(a, x) && Carried(b, y)
    ensures Carried(a + b, x + y)
    decreases |a|
  {
    hide InBlock;
    if a == [] {
      assert a + b == b && x + y == y;
    } else {
      var n := |a[0].block.frames|;
      assert (a + b)[1..] == a[1..] + b;
      assert (x + y)[..n] == x[..n] && (x + y)[n..] == x[n..] + y;
      CarriedAppend(a[1..], x[n..], b, y);
    }
  }

  lemma BlockIsCarried(c: Config, time: nat, r: BlockRec)
    requires ValidConfig(c) && Filed(c, time, r)
    ensures Carried([Stamp(time, r)], r.sources)
  {
    hide EqualSizes, SiblingsOf;
    var b, n := Stamp(time, r), |r.sources|;
    assert [b][1..] == [] && r.sources[..n] == r.sources && r.sources[n..] == [];
    FiledInBlock(c, time, r);
  }

  lemma FiledInBlock(c: Config, time: nat, r: BlockRec)
    requires ValidConfig(c) && Filed(c, time, r)
    ensures InBlock(Stamp(time, r), r.sources)
  {
    hide EqualSizes, OnTime;
    hide Siblings;
    forall i | 0 <= i < |r.sources|
      ensures r.sources[i].stream + 1 == r.block.track
    {
      assert c.tracks[r.sources[i].stream].number == r.block.track;
    }
  }

  lemma {:induction false} ClusterIsCarried(c: Config, time: nat, rs: seq<BlockRec>)
    requires ValidConfig(c) && forall j :: 0 <= j < |rs| ==> Filed(c, time, rs[j])
    ensures Carried(Stamps(time, rs), BlockSources(rs))
  {
    hide Filed, Carried, Stamp;
    if rs == [] {
      NothingCarried();
    } else {
      BlockIsCarried(c, time, rs[0]);
      ClusterIsCarried(c, time, rs[1..]);
      CarriedAppend([Stamp(time, rs[0])], rs[0].sources, Stamps(time, rs[1..]), BlockSources(rs[1..]));
    }
  }

  lemma NothingCarried()
    ensures Carried([], [])
  {
  }

  lemma {:induction false} ItemsAreCarried(c: Config, items: seq<Item>)
    requires ValidConfig(c) && AllFiled(c, items)
    ensures Carried(AllStamps(items), Written(items))
  {
    hide Carried, Filed;
    if items == [] {
      NothingCarried();
    } else {
      FiledTail(c, items);
      ItemsAreCarried(c, items[1..]);
      if items[0].Cluster? {
        assert forall j :: 0 <= j < |items[0].blocks| ==> Filed(c, items[0].time, items[0].blocks[j]);
        ClusterIsCarried(c, items[0].time, items[0].blocks);
        CarriedAppend(Stamps(items[0].time, items[0].blocks), BlockSources(items[0].blocks),
                      AllStamps(items[1..]), Written(items[1..]));
      } else {
        assert [] + AllStamps(items[1..]) == AllStamps(items[1..]) && [] + Written(items[1..]) == Written(items[1..]);
      }
    }
  }

  // ----- the theorem -----

  /**
   * A player reads the packets of the calls out of the finished file's bytes: every packet that passes
   * its checks and is not too early, in call order, with its data, its track, its key flag and its
   * group, in Blocks whose time is that of their first packet.
   */
  lemma PacketsReadBack(l: Setup, calls: seq<Call>)
    requires ValidSetup(l)
    requires ValidConfig(ConfigOf(l)) && RunFrom(ConfigOf(l), calls).outcome != Halted && |l.streams| < SIZE_LIMIT
    requires InRange(FlushedState(l, calls).items) && FinishedFits(l, FlushedState(l, calls))
    ensures var blocks := ReadFile(FinishedBytes(l, FlushedState(l, calls)));
            && blocks.Some?
            && exists frames :: Logged(ConfigOf(l), [], [], calls, frames) && Carried(blocks.value, frames)
  {
    hide InnerLength, ValidSetup, ConfigOf, Sound, Inv, AllStamps, Written, Run, FlushAll, InRange, ReadFile, Logged,
      Carried, ValidConfig, FinishedFits, FinishedBytes;
    var c, s := ConfigOf(l), FlushedState(l, calls);
    FinishedBlocks(l, s);
    AcceptedIsLogged(c, calls);
    assert AllFiled(c, s.items) by { SoundFiled(c, s); }
    hide AllFiled;
    ItemsAreCarried(c, s.items);
    FlushAllWritesAll(c, RunFrom(c, calls).state);
    assert Carried(AllStamps(s.items), RunFrom(c, calls).state.accepted);
  }

  // ----- every Block has its track -----

  /** One of the tracks has this number. */
  predicate Describes(tracks: seq<TrackRead>, number: nat) {
    exists i :: 0 <= i < |tracks| && tracks[i].number == Some(number)
  }

  lemma {:induction false} ClusterHasTracks(c: Config, time: nat, rs: seq<BlockRec>)
    requires ValidConfig(c) && forall j :: 0 <= j < |rs| ==> Filed(c, time, rs[j])
    ensures forall b :: b in Stamps(time, rs) ==> 1 <= b.block.track <= |c.tracks|
  {
    hide Siblings, SiblingsOf, EqualSizes, OnTime;
    if rs != [] {
      ClusterHasTracks(c, time, rs[1..]);
      assert Filed(c, time, rs[0]);
      assert c.tracks[rs[0].sources[0].stream].number == rs[0].block.track;
    }
  }

  lemma {:induction false} ItemsHaveTracks(c: Config, items: seq<Item>)
    requires ValidConfig(c) && AllFiled(c, items)
    ensures forall b :: b in AllStamps(items) ==> 1 <= b.block.track <= |c.tracks|
  {
    hide Filed;
    if items != [] {
      FiledTail(c, items);
      ItemsHaveTracks(c, items[1..]);
      if items[0].Cluster? {
        assert forall j :: 0 <= j < |items[0].blocks| ==> Filed(c, items[0].time, items[0].blocks[j]);
        ClusterHasTracks(c, items[0].time, items[0].blocks);
      }
    }
  }

  lemma NumbersAreTold(l: Setup)
    requires ValidSetup(l)
    ensures forall number: nat :: 1 <= number <= |l.streams| ==> Describes(TracksTold(l, |l.streams|), number)
  {
    hide UsesV5, Numbered, FourccsOk;
    forall number: nat | 1 <= number <= |l.streams|
      ensures Describes(TracksTold(l, |l.streams|), number)
    {
      assert TracksTold(l, |l.streams|)[number - 1] == TrackTold(l, number - 1);
    }
  }

  /** Every Block that a player finds in the finished bytes belongs to a track that the header describes. */
  lemma BlocksHaveTracks(l: Setup, s: State)
    requires ValidSetup(l) && HintsAreClear(l) && |l.streams| < SIZE_LIMIT
    requires ValidConfig(ConfigOf(l)) && Sound(ConfigOf(l), s) && FinishedFits(l, s) && InRange(s.items)
    ensures InnerLength(s.cues, l.strict) < SIZE_LIMIT
    ensures var blocks, d := ReadFile(FinishedBytes(l, s)), ReadDocument(FinishedBytes(l, s));
            && blocks.Some? && d.Some?
            && var tracks := FindTop(d.value.1, 0x1654AE6B);
               && tracks.Some?
               && forall b :: b in blocks.value ==> Describes(ReadTracks(tracks.value), b.block.track)
  {
    hide InnerLength, ValidSetup, ConfigOf, Sound, AllStamps, InRange, ReadFile, ReadDocument, FindTop, ReadTracks,
      ReadInfo, ReadHeader, HeaderTold, InfoTold, TracksTold, HintsAreClear, ValidConfig, FinishedFits, FinishedBytes,
      Describes, Finished;
    var c := ConfigOf(l);
    FinishedBlocks(l, s);
    HeaderReadsBack(l, s);
    TracksOf(l);
    assert AllFiled(c, s.items) by { SoundFiled(c, s); }
    hide AllFiled;
    ItemsHaveTracks(c, s.items);
    NumbersAreTold(l);
  }
}
