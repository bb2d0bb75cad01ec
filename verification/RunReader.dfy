/**
 * What stands in a finished file beside its frames, read from its bytes: where each Cluster says it
 * lies, how far back its predecessor is, which tracks are silent in it, and the live Tags between them.
 */
module RunReader {
  import opened Wrappers
  import opened Bytes
  import opened Ebml
  import opened Ids
  import opened Elements
  import opened Splitter
  import opened TreeReader
  import opened Voids
  import opened FrontCues
  import opened SeekHeads
  import opened Tags
  import opened TagWriter
  import opened TagReader
  import opened Muxer
  import opened MuxerLayout
  import opened MuxerChain
  import opened MuxerProfile
  import opened MuxerRun
  import opened MuxerSkeleton
  import opened MuxerFile
  import opened Trailer
  import opened StrictWebm
  import opened EndToEnd
  import opened ReadBack
  import opened FileReader
  import opened FileContents

  // ----- a reader -----

  datatype Top = Top(at: nat, id: nat, body: seq<byte>)

  /** All Top-Level Elements in the data of a Segment, and where each starts. */
  function ReadTops(s: seq<byte>, at: nat): Option<seq<Top>>
    decreases |s|
  {
    if s == [] then Some([])
    else
      var (id, body, more) :- TakeElement(s);
      var rest :- ReadTops(more, at + |s| - |more|);
      Some([Top(at, id, body)] + rest)
  }

  /** Timestamp, Position, PrevSize, and the numbers in SilentTracks. */
  datatype LeadRead = LeadRead(time: Option<nat>, position: Option<nat>, prevSize: Option<nat>, silent: seq<nat>)

  function ReadLead(body: seq<byte>): LeadRead {
    var raws := Kids(body);
    LeadRead(NatIn(raws, 0xE7), NatIn(raws, 0xA7), NatIn(raws, 0xAB),
             ReadNats(All(Kids(BytesIn(raws, 0x5854, [])), 0x58D7)))
  }

  /** Where the last Cluster before the `i`-th element starts. */
  function ClusterBefore(tops: seq<Top>, i: nat): Option<nat>
    requires i <= |tops|
  {
    if i == 0 then None
    else if tops[i - 1].id == 0x1F43B675 then Some(tops[i - 1].at)
    else ClusterBefore(tops, i - 1)
  }

  // ----- what it finds -----

  /** A Cluster has its time, and its hints are where it and its predecessor were found; Tags give their tags. */
  predicate Tells(c: Config, tops: seq<Top>, i: nat, part: Part)
    requires i < |tops|
  {
    match part
    case Opened(time, numbers) =>
      var prev := ClusterBefore(tops, i);
      && tops[i].id == 0x1F43B675
      && (c.hints && prev.Some? ==> prev.value <= tops[i].at)
      && ReadLead(tops[i].body)
      == LeadRead(Some(time), if c.hints && !c.strict then Some(if c.live then 0 else tops[i].at) else None,
                  if c.hints && prev.Some? then Some(tops[i].at - prev.value) else None, numbers)
    case Tagged(tags) => tops[i].id == 0x1254C367 && ReadTags(tops[i].body) == TagsTold(tags)
  }

  predicate TypedPart(part: Part) {
    match part
    case Opened(time, numbers) => time < TWO_TO_THE_64 && AllUnsigned(numbers)
    case Tagged(tags) => TypedTags(tags)
  }

  // ----- all elements, from bytes -----

  function TopsOf(es: seq<Elem>, at: nat): (tops: seq<Top>)
    ensures |tops| == |es|
  {
    if es == [] then [] else [Top(at, es[0].id, Body(es[0]))] + TopsOf(es[1..], at + |Ser(es[0])|)
  }

  lemma {:induction false} TopsAreRead(es: seq<Elem>, at: nat)
    requires Segmented(es) && FitAll(es)
    ensures ReadTops(SerAll(es), at) == Some(TopsOf(es, at))
  {
    hide Ser, Fits, TakeElement, AllPlain, EndsCluster, Body;
    if es != [] {
      var e, rest := es[0], es[1..];
      assert forall i :: 0 <= i < |rest| ==> rest[i] == es[i + 1];
      TopsAreRead(rest, at + |Ser(e)|);
      TakeFirst(es);
      SomeBytes(e, SerAll(rest));
    }
  }

  lemma {:induction false} TopIs(es: seq<Elem>, at: nat, i: nat)
    requires i < |es|
    ensures TopsOf(es, at)[i] == Top(at + |SerAll(es[..i])|, es[i].id, Body(es[i]))
  {
    hide Ser, Body;
    if i > 0 {
      TopIs(es[1..], at + |Ser(es[0])|, i - 1);
      assert es[1..][..i - 1] == es[..i][1..];
    }
  }

  // ----- a Cluster's hints -----

  lemma PlainIsSized(es: seq<Elem>)
    requires AllPlain(es)
    ensures Sized(es)
  {
  }

  lemma BlocksHaveNoHints(rs: seq<BlockRec>, id: nat)
    requires id == 0xE7 || id == 0xA7 || id == 0xAB || id == 0x5854
    ensures Field(BlockElems(rs), id) == None && Fields(BlockElems(rs), id) == []
  {
    hide Field, Fields, BlockElems;
    forall i | 0 <= i < |BlockElems(rs)|
      ensures BlockElems(rs)[i].id != id
    {
      OneBlockId(rs[i]);
    }
    NoField(BlockElems(rs), id);
  }

  lemma OneBlockId(r: BlockRec)
    ensures BlockElem(r).id == 0xA0 || BlockElem(r).id == 0xA3
  {
  }

  lemma LeadField(c: Config, ms: nat, at: nat, prev: Option<nat>, id: nat)
    requires id == 0xE7 || id == 0xA7 || id == 0xAB
    requires prev.Some? ==> prev.value <= at
    ensures Field(Lead(c, ms, at, prev), id)
         == if id == 0xE7 then Some(Body(Uint(0xE7, ms)))
            else if id == 0xA7 then
              if c.hints && !c.strict then Some(Body(Uint(0xA7, if c.live then 0 else at))) else None
            else if c.hints && prev.Some? then Some(Body(Uint(0xAB, at - prev.value))) else None
  {
    hide Field, Fields, Body, Uint;
    var time := [Uint(TIMECODE, NonNegative(ms))];
    var position := Maybe(c.hints && !c.strict, Uint(0xA7, if c.live then 0 else at));
    var size := Maybe(c.hints && prev.Some?, Uint(0xAB, if prev.Some? then at - prev.value else 0));
    UintsAreLeaves(TIMECODE, NonNegative(ms));
    UintsAreLeaves(0xA7, if c.live then 0 else at);
    UintsAreLeaves(0xAB, if prev.Some? then at - prev.value else 0);
    assert Lead(c, ms, at, prev) == time + position + size;
    FieldSum(time + position, size, id);
    FieldSum(time, position, id);
    FieldOne(time[0], id);
    FieldMaybe(c.hints && !c.strict, Uint(0xA7, if c.live then 0 else at), id);
    FieldMaybe(c.hints && prev.Some?, Uint(0xAB, if prev.Some? then at - prev.value else 0), id);
  }

  lemma LedField(hints: seq<Elem>, lead: seq<Elem>, id: nat)
    requires LedBy(hints, lead) && id != SILENT_TRACKS
    ensures Field(lead, id) == Field(hints, id)
  {
    hide Field, Fields;
    var more := lead[|hints|..];
    assert lead == hints + more;
    FieldSum(hints, more, id);
    NoField(more, id);
  }

  lemma ReadNatsOf(v: nat, bodies: seq<seq<byte>>, id: nat)
    requires v < TWO_TO_THE_64
    ensures ReadNats([Body(Uint(id, v))] + bodies) == [v] + ReadNats(bodies)
  {
    hide UintBody, Uint, Body;
    UintBodyReads(id, v);
    var all := [Body(Uint(id, v))] + bodies;
    if bodies == [] {
      assert all[..|all| - 1] == [];
      assert ReadNats([]) == [];
    } else {
      assert all[..|all| - 1] == [Body(Uint(id, v))] + bodies[..|bodies| - 1];
      ReadNatsOf(v, bodies[..|bodies| - 1], id);
    }
  }

  lemma {:induction false} SilentRead(numbers: seq<nat>)
    requires AllUnsigned(numbers)
    ensures ReadNats(Fields(SilentElems(numbers), 0x58D7)) == numbers
  {
    hide Fields, Field, Uint, Body, ReadNats, AllUnsigned;
    if numbers == [] {
      NothingThere(0x58D7);
      NoNats();
    } else {
      var e, rest := Uint(0x58D7, numbers[0]), SilentElems(numbers[1..]);
      TailUnsigned(numbers);
      SilentRead(numbers[1..]);
      UintsAreLeaves(0x58D7, numbers[0]);
      FieldSum([e], rest, 0x58D7);
      FieldOne(e, 0x58D7);
      ReadNatsOf(numbers[0], Fields(rest, 0x58D7), 0x58D7);
    }
  }

  lemma TailUnsigned(numbers: seq<nat>)
    requires AllUnsigned(numbers) && numbers != []
    ensures AllUnsigned(numbers[1..]) && numbers[0] < TWO_TO_THE_64
  {
  }

  lemma {:induction false} SilentIsSized(numbers: seq<nat>)
    ensures Sized(SilentElems(numbers))
  {
    hide UintBytes;
    if numbers != [] {
      SilentIsSized(numbers[1..]);
    }
  }

  /** The silent tracks of a Cluster, from the data of their master. */
  lemma SilenceReads(numbers: seq<nat>)
    requires AllUnsigned(numbers) && FitAll(SilentElems(numbers))
    ensures ReadNats(All(Kids(SerAll(SilentElems(numbers))), 0x58D7)) == numbers
  {
    hide Kids, FitAll, SerAll, SilentElems, ReadNats, All;
    SilentRead(numbers);
    SilentIsSized(numbers);
    KidsRead(SilentElems(numbers));
  }

  lemma NoSilenceReads()
    ensures ReadNats(All(Kids([]), 0x58D7)) == []
  {
  }

  function OrNothing(data: Option<seq<byte>>): seq<byte> {
    if data.Some? then data.value else []
  }

  lemma SilentField(lead: seq<Elem>, numbers: seq<nat>)
    requires Silences(lead, numbers) && FitAll(lead) && AllUnsigned(numbers)
    ensures ReadNats(All(Kids(OrNothing(Field(lead, 0x5854))), 0x58D7)) == numbers
  {
    hide Field, Fields, Kids, ReadNats, All, SerAll, SilentElems, Without, FitAll;
    var n :| 0 <= n <= |lead| && Without(lead[..n], 0x5854) && lead[n..] == SilentPart(numbers);
    assert lead == lead[..n] + lead[n..];
    FieldSum(lead[..n], lead[n..], 0x5854);
    NoField(lead[..n], 0x5854);
    if numbers == [] {
      NothingThere(0x5854);
      NoSilenceReads();
    } else {
      var e := Master(0x5854, SilentElems(numbers));
      FieldOne(e, 0x5854);
      FitAt(lead, n);
      assert lead[n] == lead[n..][0] == e;
      NodeFits(e);
      SilenceReads(numbers);
    }
  }

  lemma FieldInCluster(lead: seq<Elem>, rs: seq<BlockRec>, id: nat)
    requires id == 0xE7 || id == 0xA7 || id == 0xAB || id == 0x5854
    ensures Field(lead + BlockElems(rs), id) == Field(lead, id)
  {
    hide Field, Fields, BlockElems;
    FieldSum(lead, BlockElems(rs), id);
    BlocksHaveNoHints(rs, id);
  }

  /** A Cluster's data tell its position, its predecessor's and its silent tracks. */
  lemma LeadReads(c: Config, cl: Item, at: nat, prev: Option<nat>, numbers: seq<nat>)
    requires cl.Cluster? && LedBy(Lead(c, cl.time, at, prev), cl.lead) && Silences(cl.lead, numbers)
    requires AllPlain(cl.lead + BlockElems(cl.blocks)) && FitAll(cl.lead + BlockElems(cl.blocks))
    requires cl.time < TWO_TO_THE_64 && at < TWO_TO_THE_64 && (prev.Some? ==> prev.value <= at) && AllUnsigned(numbers)
    ensures ReadLead(SerAll(cl.lead + BlockElems(cl.blocks)))
         == LeadRead(Some(cl.time), if c.hints && !c.strict then Some(if c.live then 0 else at) else None,
                     if c.hints && prev.Some? then Some(at - prev.value) else None, numbers)
  {
    hide Fields, Find, RawsOf, Kids, ReadNats, All, SerAll, SilentElems, FitAll, LedBy, Silences, Lead, BlockElems,
      UintBody, Body, Uint, AllPlain, Sized;
    var kids := cl.lead + BlockElems(cl.blocks);
    PlainIsSized(kids);
    KidsRead(kids);
    FitAppend(cl.lead, BlockElems(cl.blocks));
    FieldInCluster(cl.lead, cl.blocks, 0xE7);
    FieldInCluster(cl.lead, cl.blocks, 0xA7);
    FieldInCluster(cl.lead, cl.blocks, 0xAB);
    FieldInCluster(cl.lead, cl.blocks, 0x5854);
    LedField(Lead(c, cl.time, at, prev), cl.lead, 0xE7);
    LedField(Lead(c, cl.time, at, prev), cl.lead, 0xA7);
    LedField(Lead(c, cl.time, at, prev), cl.lead, 0xAB);
    LeadField(c, cl.time, at, prev, 0xE7);
    LeadField(c, cl.time, at, prev, 0xA7);
    LeadField(c, cl.time, at, prev, 0xAB);
    UintBodyReads(0xE7, cl.time);
    UintBodyReads(0xA7, if c.live then 0 else at);
    UintBodyReads(0xAB, if prev.Some? then at - prev.value else 0);
    SilentField(cl.lead, numbers);
  }

  // ----- where the elements stand -----

  lemma TopOfItem(c: Config, head: seq<Elem>, items: seq<Item>, end: seq<Elem>, k: nat)
    requires k < |items| && |SerAll(head)| == c.head
    ensures TopsOf(head + (ItemElems(items) + end), 0)[|head| + k]
         == Top(ItemAt(c, items, k), ItemElem(items[k]).id, Body(ItemElem(items[k])))
  {
    hide SerAll, ItemElem, Body, TopsOf;
    var es := head + (ItemElems(items) + end);
    TopIs(es, 0, |head| + k);
    ItemsTake(items, k);
    assert es[..|head| + k] == head + ItemElems(items)[..k];
    SerAppend(head, ItemElems(items)[..k]);
  }

  lemma {:induction false} NoClusterBefore(tops: seq<Top>, n: nat)
    requires n <= |tops| && forall i :: 0 <= i < n ==> tops[i].id != 0x1F43B675
    ensures ClusterBefore(tops, n) == None
  {
    if n > 0 {
      NoClusterBefore(tops, n - 1);
    }
  }

  lemma {:induction false} ClusterBeforeIs(c: Config, items: seq<Item>, tops: seq<Top>, n: nat, k: nat)
    requires n + |items| <= |tops| && k <= |items|
    requires forall i :: 0 <= i < n ==> tops[i].id != 0x1F43B675
    requires forall j :: 0 <= j < |items| ==>
               tops[n + j].at == ItemAt(c, items, j) && (tops[n + j].id == 0x1F43B675 <==> items[j].Cluster?)
    ensures ClusterBefore(tops, n + k) == PrevAt(c, items, k)
    ensures PrevAt(c, items, k).Some? ==> PrevAt(c, items, k).value <= ItemAt(c, items, k)
    decreases k
  {
    hide ItemAt;
    if k == 0 {
      NoClusterBefore(tops, n);
    } else {
      ClusterBeforeIs(c, items, tops, n, k - 1);
      ItemAtNext(c, items, k - 1);
      assert tops[n + (k - 1)].at == ItemAt(c, items, k - 1);
    }
  }

  // ----- the theorem -----

  lemma ItemId(c: Config, item: Item, part: Part)
    requires IsPart(c, item, part)
    ensures ItemElem(item).id == 0x1F43B675 <==> item.Cluster?
    ensures part.Tagged? ==> ItemElem(item).id == 0x1254C367 && item.Fixed?
  {
    hide TopLevel, Silences;
    if part.Tagged? {
      TopLevelId(0x1254C367, TagElems(part.tags), c.strict);
    }
  }

  /** One item, found as a Top-Level Element. */
  lemma ItemTells(c: Config, s: State, tops: seq<Top>, n: nat, k: nat, part: Part)
    requires Sound(c, s) && k < |s.items| && n + |s.items| <= |tops| && IsPart(c, s.items[k], part) && TypedPart(part)
    requires FitAll(ItemElems(s.items)) && ItemAt(c, s.items, k) < TWO_TO_THE_64
    requires tops[n + k] == Top(ItemAt(c, s.items, k), ItemElem(s.items[k]).id, Body(ItemElem(s.items[k])))
    requires ClusterBefore(tops, n + k) == PrevAt(c, s.items, k)
    requires PrevAt(c, s.items, k).Some? ==> PrevAt(c, s.items, k).value <= ItemAt(c, s.items, k)
    ensures Tells(c, tops, n + k, part)
  {
    hide ItemAt, PrevAt, ClusterBefore, FitAll, Sound, Silences, TopLevel, TagElems, ReadLead, ReadTags, TagsTold, Lead,
      BlockElems, SerAll, ItemElems, LedBy, AllPlain, TypedTags, AllUnsigned;
    var item := s.items[k];
    ItemId(c, item, part);
    FitAt(ItemElems(s.items), k);
    match part
    case Opened(time, numbers) =>
      assert ItemElem(item) == Open(CLUSTER, item.lead + BlockElems(item.blocks));
      OpenFits(CLUSTER, item.lead + BlockElems(item.blocks));
      SoundItem(c, s, k);
      KidsArePlain(c.strict, item);
      LeadReads(c, item, ItemAt(c, s.items, k), PrevAt(c, s.items, k), numbers);
    case Tagged(tags) =>
      TagsElementReads(tags, c.strict);
  }

  lemma SoundItem(c: Config, s: State, k: nat)
    requires Sound(c, s) && k < |s.items| && s.items[k].Cluster?
    ensures ProperItem(c.strict, s.items[k])
    ensures LedBy(Lead(c, s.items[k].time, ItemAt(c, s.items, k), PrevAt(c, s.items, k)), s.items[k].lead)
  {
    hide Lead, LedBy, ItemAt, PrevAt, ProperItem, Proper;
    SoundIsProper(c, s);
  }

  /** The parts stand behind `n` other elements, and there is no Cluster but theirs. */
  predicate Stand(c: Config, tops: seq<Top>, n: nat, parts: seq<Part>) {
    && n + |parts| <= |tops|
    && (forall i :: 0 <= i < |tops| && !(n <= i < n + |parts|) ==> tops[i].id != 0x1F43B675)
    && forall k :: 0 <= k < |parts| ==> Tells(c, tops, n + k, parts[k])
  }

  predicate TypedParts(parts: seq<Part>) {
    forall k :: 0 <= k < |parts| ==> TypedPart(parts[k])
  }

  lemma OtherTops(head: seq<Elem>, items: seq<Elem>, end: seq<Elem>)
    requires Without(head, CLUSTER) && Without(end, CLUSTER)
    ensures var tops := TopsOf(head + (items + end), 0);
            && |tops| == |head| + |items| + |end|
            && forall i :: 0 <= i < |head| || |head| + |items| <= i < |tops| ==> tops[i].id != 0x1F43B675
  {
    hide TopsOf, SerAll, Body;
    var es := head + (items + end);
    forall i | 0 <= i < |head| || |head| + |items| <= i < |es|
      ensures TopsOf(es, 0)[i].id != 0x1F43B675
    {
      TopIs(es, 0, i);
      assert i >= |head| ==> es[i] == end[i - |head| - |items|];
    }
  }

  lemma PositionIsSmall(c: Config, head: seq<Elem>, items: seq<Item>, end: seq<Elem>, k: nat)
    requires k < |items| && |SerAll(head)| == c.head
    ensures ItemAt(c, items, k) <= |SerAll(head + (ItemElems(items) + end))|
  {
    hide SerAll, ItemElem;
    var es := head + (ItemElems(items) + end);
    ItemsTake(items, k);
    assert es[..|head| + k] == head + ItemElems(items)[..k];
    SerAppend(head, ItemElems(items)[..k]);
    SerSplit(es, |head| + k);
  }

  lemma ItemsStand(c: Config, s: State, head: seq<Elem>, end: seq<Elem>, parts: seq<Part>)
    requires Sound(c, s) && AreParts(c, s.items, parts) && TypedParts(parts)
    requires Without(head, CLUSTER) && Without(end, CLUSTER) && |SerAll(head)| == c.head
    requires FitAll(ItemElems(s.items)) && |SerAll(head + (ItemElems(s.items) + end))| < TWO_TO_THE_64
    ensures Stand(c, TopsOf(head + (ItemElems(s.items) + end), 0), |head|, parts)
  {
    hide Sound, TopsOf, SerAll, ItemElems, ItemElem, IsPart, TypedPart, FitAll, Tells, PrevAt, ItemAt, ClusterBefore,
      Body, Without;
    var tops, n := TopsOf(head + (ItemElems(s.items) + end), 0), |head|;
    OtherTops(head, ItemElems(s.items), end);
    forall k | 0 <= k < |parts|
      ensures tops[n + k] == Top(ItemAt(c, s.items, k), ItemElem(s.items[k]).id, Body(ItemElem(s.items[k])))
      ensures tops[n + k].id == 0x1F43B675 <==> s.items[k].Cluster?
    {
      TopOfItem(c, head, s.items, end, k);
      ItemId(c, s.items[k], parts[k]);
    }
    forall k | 0 <= k < |parts|
      ensures Tells(c, tops, n + k, parts[k])
    {
      ClusterBeforeIs(c, s.items, tops, n, k);
      PositionIsSmall(c, head, s.items, end, k);
      ItemTells(c, s, tops, n, k, parts[k]);
    }
  }

  /**
   * A reader of the finished bytes finds, behind the header and in order, the Clusters that packets
   * opened and the live Tags: each Cluster's Timestamp is the time of that packet, its Position and
   * PrevSize are where it and its predecessor lie, its silent tracks are those last set before it, and
   * each Tags element gives its tags back.
   */
  lemma RunReadsBack(l: Setup, calls: seq<Call>)
    requires ValidSetup(l) && ValidConfig(ConfigOf(l)) && RunFrom(ConfigOf(l), calls).outcome != Halted
    requires FinishedFits(l, FlushedState(l, calls)) && TypedParts(PartsOf(ConfigOf(l), calls))
    requires var d := ReadDocument(FinishedBytes(l, FlushedState(l, calls)));
             d.Some? ==> |d.value.1| < TWO_TO_THE_64
    ensures var d := ReadDocument(FinishedBytes(l, FlushedState(l, calls)));
            && d.Some?
            && var tops := ReadTops(d.value.1, 0);
               && tops.Some?
               && exists n: nat :: Stand(ConfigOf(l), tops.value, n, PartsOf(ConfigOf(l), calls))
  {
    hide InnerLength, ValidSetup, ConfigOf, Sound, Inv, RunFrom, ValidConfig, ReadDocument, FinishedFits,
      FinishedBytes, TypedParts, PartsOf, FlushAll, AreParts, Stand, TopsOf, ReadTops, SegmentHead, ItemElems, SerAll,
      FitAll, Segmented, HeaderElem;
    var c, s := ConfigOf(l), FlushedState(l, calls);
    FitsInner(l, s);
    FlushedParts(c, calls);
    var f := Finished(l, s);
    var head := SegmentHead(l, f.patches);
    FinishedReads(l, s);
    TopsAreRead(head + (ItemElems(s.items) + f.end), 0);
    FinishedIsClusterFree(l, s);
    HeadWithout(l, f.patches, CLUSTER);
    FinishedIsValid(l, s);
    HeadIs(l);
    ItemsStand(c, s, head, f.end, PartsOf(c, calls));
  }

  lemma HeadIs(l: Setup)
    requires ValidSetup(l)
    ensures ConfigOf(l).head == HeadLength(l)
  {
    hide HeadLength;
  }

  // ----- how the Segment begins -----

  /**
   * SeekHead, the filler kept free for its growth, Info and Tracks; a live stream has only the last two.
   */
  predicate Begins(tops: seq<Top>, live: bool, expansion: Option<nat>) {
    if live then |tops| >= 2 && tops[0].id == 0x1549A966 && tops[1].id == 0x1654AE6B
    else
      && |tops| >= 3 && tops[0].id == 0x114D9B74
      && match expansion
         case None => tops[1].id == 0x1549A966 && tops[2].id == 0x1654AE6B
         case Some(n) =>
           && |tops| >= 4 && tops[1].id == 0xEC && tops[2].at == tops[1].at + n
           && tops[2].id == 0x1549A966 && tops[3].id == 0x1654AE6B
  }

  lemma TopNext(es: seq<Elem>, at: nat, i: nat)
    requires i + 1 < |es|
    ensures TopsOf(es, at)[i + 1].at == TopsOf(es, at)[i].at + |Ser(es[i])|
  {
    hide Ser, SerAll, TopsOf, Body;
    TopIs(es, at, i);
    TopIs(es, at, i + 1);
    SerSplit(es, i);
  }

  lemma HeadBegins(l: Setup, p: Patches, rest: seq<Elem>)
    requires ValidSetup(l)
    ensures Begins(TopsOf(SegmentHead(l, p) + rest, 0), l.live, l.expansion)
  {
    hide TopsOf, SerAll, Ser, Body, InfoElem, TracksElem, MuxerFile.Part, ChapterKids, TagElems, Slots, SeekHead, Void,
      UsesV5, Numbered, FourccsOk;
    var es := SegmentHead(l, p) + rest;
    MasterIds(l, p);
    forall i | 0 <= i < 4 && i < |es|
      ensures TopsOf(es, 0)[i].id == es[i].id
    {
      TopIs(es, 0, i);
    }
    assert l.live ==> es[0] == InfoElem(l, p.duration) && es[1] == TracksElem(l);
    if !l.live {
      var head := SeekHead(Slots(l, p.cues));
      assert es[0] == head && head.id == 0x114D9B74 by { SeekHeadId(Slots(l, p.cues)); }
      if l.expansion.Some? {
        FillerIsVoid(l.expansion.value);
        VoidFillsExactly(l.expansion.value, []);
        assert es[1] == Void(l.expansion.value) && es[2] == InfoElem(l, p.duration) && es[3] == TracksElem(l);
        TopNext(es, 0, 1);
      } else {
        assert es[1] == InfoElem(l, p.duration) && es[2] == TracksElem(l);
      }
    }
  }

  lemma SeekHeadId(slots: seq<Slot>)
    requires |slots| == 6
    ensures SeekHead(slots).id == 0x114D9B74
  {
  }

  /** In the finished bytes the Segment begins so, with a filler of exactly the size asked for. */
  lemma StartReadsBack(l: Setup, s: State)
    requires ValidSetup(l) && Sound(ConfigOf(l), s) && FinishedFits(l, s)
    ensures InnerLength(s.cues, l.strict) < SIZE_LIMIT
    ensures var d := ReadDocument(FinishedBytes(l, s));
            d.Some? && var tops := ReadTops(d.value.1, 0); tops.Some? && Begins(tops.value, l.live, l.expansion)
  {
    hide InnerLength, ValidSetup, ConfigOf, Sound, ReadDocument, FinishedFits, FinishedBytes, TopsOf, ReadTops,
      SegmentHead, ItemElems, SerAll, FitAll, Segmented, HeaderElem, Begins, Finished;
    FitsInner(l, s);
    var f := Finished(l, s);
    FinishedReads(l, s);
    TopsAreRead(Children(l, s, f), 0);
    HeadBegins(l, f.patches, ItemElems(s.items) + f.end);
  }
}
