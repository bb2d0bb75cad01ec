/**
 * Reading a file back the way a player does, and what it finds in a file of the muxer: every
 * accepted frame, in order, with its track and its time.
 */
module ReadBack {
  import opened Wrappers
  import opened Bytes
  import opened Ebml
  import opened Ids
  import opened Elements
  import opened Splitter
  import opened GroupReader
  import opened BlockGroups
  import opened Voids
  import opened Lacing
  import opened Cues
  import opened FrontCues
  import opened Muxer
  import opened MuxerLayout
  import opened MuxerFrames
  import opened MuxerChain
  import opened MuxerProfile
  import opened MuxerRun
  import opened MuxerFile
  import opened Trailer

  // ----- a reader -----

  /** A Block with the time of its Cluster and, out of a BlockGroup, its options and its duration. */
  datatype Stamped = Stamped(time: nat, block: Block, group: Option<GroupOptions>, length: Option<nat>)

  /** A SimpleBlock or a BlockGroup; anything else is no Block. */
  function ReadBlock(r: Raw, time: nat): Option<Stamped> {
    if r.id == 0xA3 then
      match ParseBlock(r.body)
      case None => None
      case Some(b) => Some(Stamped(time, b, None, None))
    else if r.id == 0xA0 then
      match ReadGroup(r.body)
      case None => None
      case Some(g) => Some(Stamped(time, g.block, Some(g.options), g.duration))
    else None
  }

  function ReadBlocks(raws: seq<Raw>, time: nat): seq<Stamped> {
    if raws == [] then []
    else
      (match ReadBlock(raws[0], time)
       case Some(b) => [b]
       case None => [])
      + ReadBlocks(raws[1..], time)
  }

  /** The Blocks of a Cluster, from the bytes of its data. */
  function ReadCluster(body: seq<byte>): Option<seq<Stamped>> {
    var raws :- Split(body);
    var bytes :- Find(raws, 0xE7);
    var time :- UintBody(bytes);
    Some(ReadBlocks(raws, time))
  }

  /** The Blocks of all Clusters among the children of a Segment. */
  function ReadClusters(children: seq<Elem>): Option<seq<Stamped>> {
    if children == [] then Some([])
    else
      var rest :- ReadClusters(children[1..]);
      if children[0].id != 0x1F43B675 then Some(rest)
      else
        var blocks :- ReadCluster(Body(children[0]));
        Some(blocks + rest)
  }

  function FramesOf(blocks: seq<Stamped>): seq<seq<byte>> {
    if blocks == [] then [] else blocks[0].block.frames + FramesOf(blocks[1..])
  }

  // ----- what it should find -----

  /** What the packets of a Block say beside their frames. */
  function OptionsTold(r: BlockRec): Option<GroupOptions> {
    if r.sources == [] || r.sources[0].group.None? then None
    else Some(r.sources[0].group.value.options.(references := r.sources[0].group.value.references))
  }

  function Stamp(time: nat, r: BlockRec): Stamped {
    Stamped(time, r.block, OptionsTold(r), if OptionsTold(r).Some? then r.sources[0].length else None)
  }

  function Stamps(time: nat, rs: seq<BlockRec>): seq<Stamped> {
    if rs == [] then [] else [Stamp(time, rs[0])] + Stamps(time, rs[1..])
  }

  function AllStamps(items: seq<Item>): seq<Stamped> {
    if items == [] then []
    else (if items[0].Cluster? then Stamps(items[0].time, items[0].blocks) else []) + AllStamps(items[1..])
  }

  /** No size overflows, and no time. */
  predicate Readable(items: seq<Item>) {
    && FitAll(ItemElems(items))
    && forall k :: 0 <= k < |items| && items[k].Cluster? ==> ReadableCluster(items[k])
  }

  predicate ReadableCluster(cl: Item)
    requires cl.Cluster?
  {
    cl.time < TWO_TO_THE_64 && forall j :: 0 <= j < |cl.blocks| ==> ReadableBlock(cl.blocks[j])
  }

  /** A Block without overflow whose siblings are those of its packet. */
  predicate ReadableBlock(r: BlockRec) {
    ValidBlock(r.block) && r.sources != [] && IsTyped(r.sources[0]) && r.siblings == SiblingsOf(r.sources[0])
  }

  /** A Cluster's leading children are its Timestamp and elements that are no Blocks. */
  predicate Leads(lead: seq<Elem>, time: nat) {
    && lead != [] && lead[0] == Uint(TIMECODE, time)
    && NoBlocks(lead)
  }

  predicate NoBlocks(es: seq<Elem>) {
    forall i :: 0 <= i < |es| ==> es[i].id != SIMPLE_BLOCK && es[i].id != BLOCK_GROUP && !es[i].Open?
  }

  // ----- one Block -----

  lemma BlockReadsBack(r: BlockRec, time: nat)
    requires Fits(BlockElem(r)) && ReadableBlock(r)
    ensures ReadBlock(RawOf(BlockElem(r)), time) == Some(Stamp(time, r))
    ensures !BlockElem(r).Open?
  {
    hide ParseBlock, BlockBody, Ser, Fits, Laceable, ReadGroup, Siblings, Typed;
    var f := r.sources[0];
    if f.group.Some? {
      GroupReadsBack(r.block, f.group.value.options, f.group.value.references, f.length);
    } else {
      BlockRoundTrip(r.block);
    }
  }

  // ----- one Cluster -----

  lemma {:induction false} ReadAppend(a: seq<Raw>, b: seq<Raw>, time: nat)
    ensures ReadBlocks(a + b, time) == ReadBlocks(a, time) + ReadBlocks(b, time)
  {
    hide ReadBlock;
    if a == [] {
      assert a + b == b;
    } else {
      assert (a + b)[1..] == a[1..] + b;
      ReadAppend(a[1..], b, time);
    }
  }

  lemma {:induction false} LeadReads(lead: seq<Elem>, time: nat)
    requires NoBlocks(lead)
    ensures ReadBlocks(RawsOf(lead), time) == []
  {
    hide Body;
    if lead != [] {
      assert RawsOf(lead)[1..] == RawsOf(lead[1..]);
      LeadReads(lead[1..], time);
    }
  }

  lemma {:induction false} BlocksRead(rs: seq<BlockRec>, time: nat)
    requires FitAll(BlockElems(rs)) && forall j :: 0 <= j < |rs| ==> ReadableBlock(rs[j])
    ensures Bounded(BlockElems(rs))
    ensures ReadBlocks(RawsOf(BlockElems(rs)), time) == Stamps(time, rs)
  {
    hide ReadBlock, BlockElem, Fits, ReadableBlock, RawOf, Stamp;
    if rs != [] {
      var es := BlockElems(rs);
      BlockReadsBack(rs[0], time);
      assert es[1..] == BlockElems(rs[1..]);
      assert RawsOf(es)[1..] == RawsOf(es[1..]);
      BlocksRead(rs[1..], time);
    }
  }

  lemma {:induction false} LeadIsBounded(lead: seq<Elem>)
    requires FitAll(lead) && NoBlocks(lead)
    ensures Bounded(lead)
  {
    hide Fits;
    if lead != [] {
      LeadIsBounded(lead[1..]);
    }
  }

  lemma TimeIsFirst(lead: seq<Elem>, rest: seq<Elem>, time: nat)
    requires Leads(lead, time) && time < TWO_TO_THE_64
    ensures Find(RawsOf(lead + rest), TIMECODE) == Some(Body(Uint(TIMECODE, time)))
    ensures UintBody(Body(Uint(TIMECODE, time))) == Some(time)
  {
    hide UintBody, UintBytes;
    UintBodyReads(TIMECODE, time);
    assert (lead + rest)[0] == lead[0];
  }

  /** The bytes of a Cluster give back its time and its Blocks. */
  lemma ClusterReadsBack(cl: Item)
    requires cl.Cluster? && ReadableCluster(cl) && Leads(cl.lead, cl.time) && Fits(ItemElem(cl))
    ensures ReadCluster(Body(ItemElem(cl))) == Some(Stamps(cl.time, cl.blocks))
  {
    hide ReadBlocks, Split, Find, UintBody, BlockElem, ReadableBlock, Uint, SerAll, Bounded, Stamp;
    var blocks := BlockElems(cl.blocks);
    var kids := cl.lead + blocks;
    FitAppend(cl.lead, blocks);
    hide FitAll;
    LeadIsBounded(cl.lead);
    BlocksRead(cl.blocks, cl.time);
    RawsAppend(cl.lead, blocks);
    SplitInvertsSer(kids);
    TimeIsFirst(cl.lead, blocks, cl.time);
    LeadReads(cl.lead, cl.time);
    ReadAppend(RawsOf(cl.lead), RawsOf(blocks), cl.time);
    assert [] + Stamps(cl.time, cl.blocks) == Stamps(cl.time, cl.blocks);
  }

  // ----- the whole Segment -----

  lemma {:induction false} NoClusters(es: seq<Elem>, rest: seq<Elem>)
    requires forall i :: 0 <= i < |es| ==> es[i].id != CLUSTER
    ensures ReadClusters(es + rest) == ReadClusters(rest)
  {
    hide ReadCluster, Body;
    if es == [] {
      assert es + rest == rest;
    } else {
      assert (es + rest)[1..] == es[1..] + rest;
      NoClusters(es[1..], rest);
    }
  }

  predicate Led(item: Item) {
    if item.Cluster? then Leads(item.lead, item.time) else item.elem.id != CLUSTER
  }

  lemma {:induction false} ItemsReadBack(items: seq<Item>, rest: seq<Elem>)
    requires Readable(items) && forall k :: 0 <= k < |items| ==> Led(items[k])
    requires ReadClusters(rest) == Some([])
    ensures ReadClusters(ItemElems(items) + rest) == Some(AllStamps(items))
  {
    hide ReadCluster, Body, ReadableCluster, Leads, Fits, Stamps;
    var es := ItemElems(items);
    if items == [] {
      assert es + rest == rest;
    } else {
      assert (es + rest)[0] == ItemElem(items[0]);
      assert (es + rest)[1..] == ItemElems(items[1..]) + rest;
      FitAppend([es[0]], es[1..]);
      assert es == [es[0]] + es[1..];
      FitAt([es[0]], 0);
      ItemsReadBack(items[1..], rest);
      if items[0].Cluster? {
        ClusterReadsBack(items[0]);
      } else {
        assert ItemElem(items[0]) == items[0].elem;
        assert [] + AllStamps(items[1..]) == AllStamps(items[1..]);
      }
    }
  }

  lemma ItemsAreLed(c: Config, s: State, k: nat)
    requires Sound(c, s) && k < |s.items|
    ensures Led(s.items[k])
  {
    hide AllFiled, Conserved, Proper, PrevAt, ItemAt, Uint;
    assert ProperItem(c.strict, s.items[k]);
    if s.items[k].Cluster? {
      var cl := s.items[k];
      var hints := Lead(c, cl.time, ItemAt(c, s.items, k), PrevAt(c, s.items, k));
      assert LedBy(hints, cl.lead);
      LeadStarts(c, cl.time, ItemAt(c, s.items, k), PrevAt(c, s.items, k));
      forall i | 0 <= i < |cl.lead|
        ensures cl.lead[i].id != SIMPLE_BLOCK && cl.lead[i].id != BLOCK_GROUP && !cl.lead[i].Open?
      {
        ProperIsClosed(c.strict, cl.lead[i]);
        if i < |hints| {
          assert cl.lead[i] == hints[i];
        }
      }
    }
  }

  lemma ProperIsClosed(strict: bool, e: Elem)
    requires Proper(strict, e)
    ensures !e.Open?
  {
  }

  lemma LeadStarts(c: Config, time: nat, at: nat, prev: Option<nat>)
    ensures var es := Lead(c, time, at, prev); es != [] && es[0] == Uint(TIMECODE, time) && NoBlocks(es)
  {
    hide Uint, Lead;
    var size := if prev.Some? && at > prev.value then at - prev.value else 0;
    UintIds(TIMECODE, NonNegative(time));
    UintIds(POSITION, if c.live then 0 else at);
    UintIds(PREV_SIZE, size);
    LeadIs(c, time, at, prev, size);
  }

  lemma LeadIs(c: Config, time: nat, at: nat, prev: Option<nat>, size: nat)
    requires size == if prev.Some? && at > prev.value then at - prev.value else 0
    ensures Lead(c, time, at, prev)
         == if !c.hints then [Uint(TIMECODE, time)]
            else if c.strict then
              if prev.Some? then [Uint(TIMECODE, time), Uint(PREV_SIZE, size)] else [Uint(TIMECODE, time)]
            else if prev.Some?
              then [Uint(TIMECODE, time), Uint(POSITION, if c.live then 0 else at), Uint(PREV_SIZE, size)]
            else [Uint(TIMECODE, time), Uint(POSITION, if c.live then 0 else at)]
  {
    hide Uint;
    assert NonNegative(time) == time;
  }

  lemma UintIds(id: nat, v: int)
    ensures Uint(id, v).id == id && Uint(id, v).Leaf?
  {
  }

  // ----- frames -----

  lemma {:induction false} FramesAppend(a: seq<Stamped>, b: seq<Stamped>)
    ensures FramesOf(a + b) == FramesOf(a) + FramesOf(b)
  {
    if a == [] {
      assert a + b == b;
    } else {
      assert (a + b)[1..] == a[1..] + b;
      FramesAppend(a[1..], b);
    }
  }

  lemma {:induction false} DatasAppend(a: seq<Frame>, b: seq<Frame>)
    ensures Datas(a + b) == Datas(a) + Datas(b)
  {
  }

  lemma {:induction false} StampFrames(time: nat, rs: seq<BlockRec>)
    requires forall j :: 0 <= j < |rs| ==> rs[j].block.frames == Datas(rs[j].sources)
    ensures FramesOf(Stamps(time, rs)) == Datas(BlockSources(rs))
  {
    hide Datas;
    if rs == [] {
      assert Datas([]) == [];
    } else {
      StampFrames(time, rs[1..]);
      DatasAppend(rs[0].sources, BlockSources(rs[1..]));
      assert Stamps(time, rs)[1..] == Stamps(time, rs[1..]);
    }
  }

  lemma {:induction false} AllStampFrames(c: Config, items: seq<Item>)
    requires AllFiled(c, items)
    ensures FramesOf(AllStamps(items)) == Datas(Written(items))
  {
    hide Datas;
    if items == [] {
      assert Datas([]) == [];
    } else {
      assert AllFiled(c, items[1..]) by { FiledTail(c, items); }
      AllStampFrames(c, items[1..]);
      if items[0].Cluster? {
        forall j | 0 <= j < |items[0].blocks|
          ensures items[0].blocks[j].block.frames == Datas(items[0].blocks[j].sources)
        {
          assert Filed(c, items[0].time, items[0].blocks[j]);
        }
        hide AllFiled;
        StampFrames(items[0].time, items[0].blocks);
        FramesAppend(Stamps(items[0].time, items[0].blocks), AllStamps(items[1..]));
        DatasAppend(BlockSources(items[0].blocks), Written(items[1..]));
      } else {
        assert AllStamps(items) == AllStamps(items[1..]) && Written(items) == Written(items[1..]);
      }
    }
  }

  lemma FiledTail(c: Config, items: seq<Item>)
    requires AllFiled(c, items) && items != []
    ensures AllFiled(c, items[1..])
  {
    hide Filed;
    forall k, j | 0 <= k < |items[1..]| && items[1..][k].Cluster? && 0 <= j < |items[1..][k].blocks|
      ensures Filed(c, items[1..][k].time, items[1..][k].blocks[j])
    {
      assert items[1..][k] == items[k + 1];
    }
  }

  // ----- the head and the end hold no Clusters -----

  lemma FinishedIsClusterFree(l: Setup, s: State)
    requires ValidSetup(l) && InnerLength(s.cues, l.strict) < SIZE_LIMIT
    ensures Without(Finished(l, s).patches.front, CLUSTER) && Without(Finished(l, s).end, CLUSTER)
  {
    hide SlotContent, OneShort, Cursor, VintWidth, FrontAt, ConfigOf, SerAll, CuesKids, Numbered, FourccsOk, Zeroes,
      VoidWidth;
    if l.front.Some? && s.cues != [] {
      SlotIsTiled(s.cues, l.strict, l.front.value);
    }
  }

  /** Clusters between other elements give every Block back, and these the accepted frames. */
  lemma ChildrenReadBack(c: Config, s: State, head: seq<Elem>, end: seq<Elem>)
    requires Sound(c, s) && Readable(s.items) && Without(head, CLUSTER) && Without(end, CLUSTER)
    ensures ReadClusters(head + (ItemElems(s.items) + end)) == Some(AllStamps(s.items))
  {
    hide Sound, Readable, ReadClusters, AllStamps, ItemElems, Led;
    forall k | 0 <= k < |s.items|
      ensures Led(s.items[k])
    {
      ItemsAreLed(c, s, k);
    }
    NoClusters(end, []);
    assert end + [] == end;
    NothingToRead();
    ItemsReadBack(s.items, end);
    NoClusters(head, ItemElems(s.items) + end);
  }

  lemma NothingToRead()
    ensures ReadClusters([]) == Some([])
  {
  }

  lemma SoundFiled(c: Config, s: State)
    requires Sound(c, s)
    ensures AllFiled(c, s.items)
  {
  }
}
