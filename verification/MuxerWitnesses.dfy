/** Short runs of the muxer that show a documented promise fail. */
module MuxerWitnesses {
  import opened Wrappers
  import opened Bytes
  import opened Ebml
  import opened Crc32
  import opened Ids
  import opened Elements
  import opened Sizes
  import opened Lacing
  import opened Muxer
  import opened MuxerLayout
  import opened MuxerChain
  import opened MuxerRun
  import opened MuxerTheorems
  import opened MuxerAborts

  /** An empty key frame of the first track. */
  function At(pts: int): Packet {
    Packet(0, [], Some(pts), None, true)
  }

  function EmptyBlock(c: Config, ms: int, offset: int): BlockRec
    requires c.tracks != []
  {
    BlockRec(Block(c.tracks[0].number, offset, true, NoLacing, [[]]), None, [Frame(0, [], ms, true, None, None)])
  }

  lemma PlacedAlone(c: Config, s: State, f: Frame)
    requires Ready(c, s) && s.open && f.stream < |c.tracks| && c.mode == NoLacing && f.group.None?
    requires s.items[|s.items| - 1].blocks == []
    ensures var t, r := Place(c, s, f), UnlacedBlock(c, s, f);
            && t.open && t.tc == s.tc && t.silent == s.silent && t.bytes == s.bytes + |Ser(BlockElem(r))|
            && t.items == s.items[..|s.items| - 1] + [s.items[|s.items| - 1].(blocks := [r])]
  {
    hide CueFor, BlockElem;
    CuedStart(c, s, f);
    var r := UnlacedBlock(c, s, f);
    assert [] + [r] == [r];
  }

  lemma NoLength(pts: int, t: Track)
    ensures DurationMs(At(pts), t) == None
  {
  }

  /** With no Cluster open, a packet from time 0 on opens one at its time and is its first Block. */
  lemma OpensCluster(c: Config, s: State, pts: int)
    requires ValidConfig(c) && Ready(c, s) && OnlyOnePending(c, s) && c.mode == NoLacing && c.tracks != []
    requires !s.open && s.silent == [] && TimeOf(c, s, At(pts)) >= 0
    ensures var r, ms := WritePacket(c, s, At(pts), Plain), TimeOf(c, s, At(pts));
            && r.outcome == Accepted && r.state.open && r.state.tc == ms && r.state.silent == []
            && r.state.items == s.items + [Cluster(ms, Lead(c, ms, Cursor(c, s), s.prevAt), [EmptyBlock(c, ms, 0)])]
            && r.state.bytes == |Ser(BlockElem(EmptyBlock(c, ms, 0)))|
  {
    hide PtsToMs, EffectivePts, Lead, Cursor, Timed, BlockElem, Place;
    var p := At(pts);
    var ms := TimeOf(c, s, p);
    TimedFields(c, s, p);
    var t := Timed(c, s, p);
    assert Cursor(c, t) == Cursor(c, s) by { SameItems(c, s, t); }
    assert Lead(c, ms, Cursor(c, t), t.prevAt) + [] == Lead(c, ms, Cursor(c, t), t.prevAt);
    var started := StartCluster(c, t, ms);
    var f := Frame(0, [], ms, true, None, None);
    NoLength(pts, c.tracks[0]);
    assert WritePacket(c, s, p, Plain) == Placed(c, started, f);
    PlacedAlone(c, started, f);
    assert started.items[..|s.items|] == s.items;
  }

  lemma SameItems(c: Config, s: State, t: State)
    requires t.items == s.items
    ensures Cursor(c, t) == Cursor(c, s)
  {
  }

  lemma CuedStart(c: Config, s: State, f: Frame)
    requires Ready(c, s) && s.open && f.stream < |c.tracks|
    ensures var t := CueFor(c, s, f);
            t.items == s.items && t.open == s.open && t.tc == s.tc && t.bytes == s.bytes && t.silent == s.silent
  {
  }

  lemma EmptyBlockIsShort(c: Config, ms: int, offset: int)
    requires c.tracks != []
    ensures |Ser(BlockElem(EmptyBlock(c, ms, offset)))| <= 40
  {
    var b := EmptyBlock(c, ms, offset);
    SerWithin(BlockElem(b));
    hide Weight, VintBytes, VintWidth, OffsetBytes;
    assert |BlockBody(b.block)| <= 11;
    assert Weight(BlockElem(b)) == 12 + |BlockBody(b.block)|;
  }

  lemma LeadIsShort(c: Config, ms: int, at: nat, prev: Option<nat>)
    ensures |SerAll(Lead(c, ms, at, prev))| <= 60
  {
    hide Uint, Weight;
    var lead := Lead(c, ms, at, prev);
    SerAllWithin(lead);
    UintIsLight(TIMECODE, NonNegative(ms));
    UintIsLight(POSITION, if c.live then 0 else at);
    UintIsLight(PREV_SIZE, if prev.Some? && at > prev.value then at - prev.value else 0);
    var time := [Uint(TIMECODE, NonNegative(ms))];
    var position := if c.hints && !c.strict then [Uint(POSITION, if c.live then 0 else at)] else [];
    var size := if c.hints && prev.Some? then [Uint(PREV_SIZE, if at > prev.value then at - prev.value else 0)] else [];
    WeightAppend(time + position, size);
    WeightAppend(time, position);
    WeightOne(Uint(TIMECODE, NonNegative(ms)));
    WeightOne(Uint(POSITION, if c.live then 0 else at));
    WeightOne(Uint(PREV_SIZE, if prev.Some? && at > prev.value then at - prev.value else 0));
  }

  lemma SmallCluster(c: Config, cl: Item, ms: int, at: nat, prev: Option<nat>)
    requires c.tracks != [] && cl == Cluster(NonNegative(ms), Lead(c, ms, at, prev), [EmptyBlock(c, ms, 0)])
    ensures |Ser(ItemElem(cl))| <= 112
  {
    hide Lead, EmptyBlock, BlockElem, SerAll, Ser;
    LeadIsShort(c, ms, at, prev);
    EmptyBlockIsShort(c, ms, 0);
    var b := BlockElem(EmptyBlock(c, ms, 0));
    OneBlock(EmptyBlock(c, ms, 0));
    SerSnoc(cl.lead, b);
    SerIsHeadThenBody(ItemElem(cl));
    HeaderIsShort(CLUSTER, 0, 0);
  }

  lemma OneBlock(r: BlockRec)
    ensures BlockElems([r]) == [BlockElem(r)]
  {
  }

  // ----- PrevSize -----

  /** Two packets with live Tags between them. */
  function Interrupted(): seq<Call> {
    [Write(At(0), Plain), LiveTags([]), Write(At(0), Plain)]
  }

  lemma TagsClose(c: Config, s: State)
    requires Ready(c, s) && OnlyOnePending(c, s) && c.live && c.mode == NoLacing
    ensures WriteLiveTags(c, s, [])
         == Step(s.(open := false, items := s.items + [Fixed(TopLevel(TAGS, [], c.strict))]), Accepted)
  {
  }

  lemma TagsAreShort(strict: bool)
    ensures |Ser(TopLevel(TAGS, [], strict))| <= 40
  {
    var e := TopLevel(TAGS, [], strict);
    SerWithin(e);
    assert SerAll([]) == [];
    hide Crc, SerAll;
    if !strict {
      assert [CrcChild(SerAll([]))] + [] == [CrcChild(SerAll([]))];
      WeightOne(CrcChild(SerAll([])));
    }
  }

  /**
   * The source's comment on PrevSize ("size of the whole previous Cluster") fails on a live run of
   * three calls: the Tags between the two Clusters are counted in.
   */
  lemma TagsBreakPrevSize(c: Config)
    requires ValidConfig(c) && c.live && c.hints && c.mode == NoLacing && c.tracks != [] && c.head < TWO_TO_THE_63
    ensures var items := RunFrom(c, Interrupted()).state.items;
            && |items| == 3 && items[0].Cluster? && items[1].Fixed? && items[2].Cluster?
            && PrevSizeOf(items[2]) != Some(|Ser(ItemElem(items[0]))|)
  {
    hide Run, Inv, Sound, Initial, PrevSizeOf, Ser, ItemElem, ItemAt, Interrupted;
    InitialInv(c);
    InterruptedItems(c, Initial(c));
    var items := RunFrom(c, Interrupted()).state.items;
    assert items == Run(c, Initial(c), Interrupted()).state.items;
    PrevSizeIsClusterSize(c, Interrupted(), 0, 2);
  }

  lemma InterruptedItems(c: Config, s: State)
    requires ValidConfig(c) && c.live && c.mode == NoLacing && c.tracks != [] && c.head < TWO_TO_THE_63
    requires Inv(c, s) && s == Initial(c)
    ensures var items := Run(c, s, Interrupted()).state.items;
            && |items| == 3 && items[0].Cluster? && items[1].Fixed? && items[2].Cluster?
            && ItemAt(c, items, 2) < TWO_TO_THE_64
  {
    hide Inv, Sound, Lead, Run, TopLevel, WritePacket, WriteLiveTags, PtsToMs, EmptyBlock, BlockElem, Ser, ItemElem,
      ItemAt, Cursor;
    assert !s.open && s.silent == [] && s.items == [];
    hide Initial;
    ZeroMs(c.tracks[0]);
    InvReady(c, s);
    var calls := Interrupted();
    OpensCluster(c, s, 0);
    var s1 := StepKeeps(c, s, calls[0]);
    TagsClose(c, s1);
    var s2 := StepKeeps(c, s1, calls[1]);
    OpensCluster(c, s2, 0);
    var s3 := StepKeeps(c, s2, calls[2]);
    RunThree(c, s, calls);
    ShortItems(c, s3.items, Cursor(c, s), s.prevAt);
  }

  lemma ShortItems(c: Config, items: seq<Item>, at: nat, prev: Option<nat>)
    requires c.tracks != [] && c.head < TWO_TO_THE_63 && |items| == 3
    requires items[0] == Cluster(0, Lead(c, 0, at, prev), [EmptyBlock(c, 0, 0)])
    requires items[1] == Fixed(TopLevel(TAGS, [], c.strict))
    ensures ItemAt(c, items, 2) < TWO_TO_THE_64
  {
    hide Lead, TopLevel, EmptyBlock, Ser, ItemAt;
    SmallCluster(c, items[0], 0, at, prev);
    TagsAreShort(c.strict);
    TwoItems(c, items);
  }

  lemma TwoItems(c: Config, items: seq<Item>)
    requires |items| == 3
    ensures ItemAt(c, items, 2) == c.head + |Ser(ItemElem(items[0]))| + |Ser(ItemElem(items[1]))|
  {
    hide Ser, ItemElem, ItemAt;
    ItemAtNext(c, items, 0);
    ItemAtNext(c, items, 1);
    NothingBefore(c, items);
  }

  lemma NothingBefore(c: Config, items: seq<Item>)
    ensures ItemAt(c, items, 0) == c.head
  {
  }

  lemma StepKeeps(c: Config, s: State, call: Call) returns (t: State)
    requires ValidConfig(c) && Inv(c, s) && Ready(c, s) && OnlyOnePending(c, s)
    requires Apply(c, s, call).outcome != Halted
    ensures t == Apply(c, s, call).state && Inv(c, t) && Ready(c, t) && OnlyOnePending(c, t)
  {
    hide Apply, Inv, Sound;
    ApplyKeeps(c, s, call);
    t := Apply(c, s, call).state;
    InvReady(c, t);
  }

  // ----- the guard on SilentTracks -----

  /** The packet that is due in a new Cluster comes behind a list of silent tracks. */
  function Silenced(): seq<Call> {
    [Write(At(0), Plain), Silence([1]), Write(At(40000), Plain)]
  }

  /** A stopped muxer that accepts the packet of millisecond 1 and writes it as millisecond 40001. */
  predicate MistakesTheTime(c: Config, r: Step) {
    && r.outcome == Halted && Ready(c, r.state) && OnlyOnePending(c, r.state)
    && c.tracks != [] && TimeOf(c, r.state, At(1)) == 1
    && var more := WritePacket(c, r.state, At(1), Plain);
       && more.outcome == Accepted && Last(more.state.items)
       && var cl := more.state.items[|more.state.items| - 1];
          |cl.blocks| == 1 && cl.time + cl.blocks[0].block.offset == 40001
  }

  lemma Milliseconds(t: Track, pts: nat)
    requires t.num == 1 && t.den == 1000 && pts < TWO_TO_THE_63
    ensures PtsToMs(pts, t) == pts
  {
  }

  /**
   * A strict muxer whose caller goes on after that error writes a wrong time: the packet of
   * millisecond 1 is accepted and reads as millisecond 40001.
   */
  lemma TimeIsWrongAfterTheGuard(c: Config)
    requires ValidConfig(c) && c.strict && c.mode == NoLacing && c.tracks != []
    requires c.tracks[0].num == 1 && c.tracks[0].den == 1000
    ensures MistakesTheTime(c, RunFrom(c, Silenced()))
  {
    InitialInv(c);
    hide Run, Inv, Sound, Initial, MistakesTheTime;
    SilencedRun(c, Initial(c));
    assert RunFrom(c, Silenced()) == Run(c, Initial(c), Silenced());
  }

  lemma SilencedRun(c: Config, s: State)
    requires ValidConfig(c) && c.strict && c.mode == NoLacing && c.tracks != [] && Inv(c, s) && s == Initial(c)
    requires c.tracks[0].num == 1 && c.tracks[0].den == 1000
    ensures MistakesTheTime(c, Run(c, s, Silenced()))
  {
    assert !s.open && s.silent == [];
    hide Inv, Sound, Initial, Run, Apply, PtsToMs, MistakesTheTime, Ready, OnlyOnePending, Silenced;
    Milliseconds(c.tracks[0], 0);
    Milliseconds(c.tracks[0], 1);
    Milliseconds(c.tracks[0], 40000);
    InvReady(c, s);
    var calls := Silenced();
    SilencedCalls();
    OpensAtZero(c, s);
    var s1 := StepKeeps(c, s, calls[0]);
    Silences(c, s1);
    var s2 := StepKeeps(c, s1, calls[1]);
    StopsAndErrs(c, s2);
    RunStops(c, s, calls);
  }

  lemma SilencedCalls()
    ensures var calls := Silenced();
            |calls| == 3 && calls[0] == Write(At(0), Plain) && calls[1] == Silence([1])
              && calls[2] == Write(At(40000), Plain)
  {
  }

  lemma OpensAtZero(c: Config, s: State)
    requires ValidConfig(c) && Ready(c, s) && OnlyOnePending(c, s) && c.mode == NoLacing && c.tracks != []
    requires !s.open && s.silent == [] && PtsToMs(0, c.tracks[0]) == 0
    ensures var r := Apply(c, s, Write(At(0), Plain));
            r.outcome == Accepted && r.state.open && r.state.tc == 0 && r.state.bytes <= 40
  {
    hide WritePacket, PtsToMs, Lead, EmptyBlock, BlockElem, Ser, Ready, OnlyOnePending;
    OpensCluster(c, s, 0);
    EmptyBlockIsShort(c, 0, 0);
  }

  lemma Silences(c: Config, s: State)
    requires Ready(c, s) && OnlyOnePending(c, s)
    ensures Apply(c, s, Silence([1])) == Step(s.(silent := [1]), Accepted)
  {
    hide Ready, OnlyOnePending;
  }

  lemma StopsAndErrs(c: Config, s: State)
    requires ValidConfig(c) && c.strict && c.mode == NoLacing && c.tracks != [] && Inv(c, s) && Ready(c, s)
             && OnlyOnePending(c, s)
    requires s.open && s.tc == 0 && s.silent == [1] && s.bytes < c.maxBytes
    requires PtsToMs(1, c.tracks[0]) == 1 && PtsToMs(40000, c.tracks[0]) == 40000
    ensures var r := Apply(c, s, Write(At(40000), Plain)); r.outcome == Halted && MistakesTheTime(c, r)
  {
    hide Inv, Sound, WritePacket, PtsToMs, MistakesTheTime, Ready, OnlyOnePending;
    StopsAt(c, s);
    GoesWrong(c, s);
  }

  lemma GoesWrong(c: Config, s: State)
    requires ValidConfig(c) && c.mode == NoLacing && c.tracks != [] && Inv(c, s) && Ready(c, s) && OnlyOnePending(c, s)
    requires s.open && s.tc == 0 && s.bytes < c.maxBytes && WritePacket(c, s, At(40000), Plain).outcome == Halted
    requires PtsToMs(1, c.tracks[0]) == 1 && PtsToMs(40000, c.tracks[0]) == 40000
    ensures MistakesTheTime(c, WritePacket(c, s, At(40000), Plain))
  {
    hide Inv, Sound, WritePacket, PtsToMs;
    AfterTheGuard(c, s, At(40000), Plain, At(1), Plain);
  }

  lemma StopsAt(c: Config, s: State)
    requires ValidConfig(c) && c.strict && c.mode == NoLacing && c.tracks != [] && Inv(c, s) && Ready(c, s)
             && OnlyOnePending(c, s)
    requires s.open && s.tc == 0 && s.silent == [1] && PtsToMs(40000, c.tracks[0]) == 40000
    ensures WritePacket(c, s, At(40000), Plain).outcome == Halted
  {
    hide Inv, WritePacket, PtsToMs, Timed, Sound;
    WritePacketKeeps(c, s, At(40000), Plain);
    TimedFields(c, s, At(40000));
  }

  lemma RunStops(c: Config, s: State, calls: seq<Call>)
    requires ValidConfig(c) && Inv(c, s) && |calls| == 3
    requires Ready(c, s) && OnlyOnePending(c, s) && Apply(c, s, calls[0]).outcome == Accepted
    requires var s1 := Apply(c, s, calls[0]).state;
             Inv(c, s1) && Ready(c, s1) && OnlyOnePending(c, s1) && Apply(c, s1, calls[1]).outcome == Accepted
    requires var s2 := Apply(c, Apply(c, s, calls[0]).state, calls[1]).state;
             Inv(c, s2) && Ready(c, s2) && OnlyOnePending(c, s2) && Apply(c, s2, calls[2]).outcome == Halted
    ensures Run(c, s, calls) == Apply(c, Apply(c, Apply(c, s, calls[0]).state, calls[1]).state, calls[2])
  {
    hide Apply, Inv, Sound;
    var s1 := Apply(c, s, calls[0]).state;
    var s2 := Apply(c, s1, calls[1]).state;
    assert calls[1..][1..] == calls[2..];
    assert Run(c, s2, calls[2..]) == Apply(c, s2, calls[2]);
    assert Run(c, s1, calls[1..]) == Run(c, s2, calls[2..]);
  }
}
