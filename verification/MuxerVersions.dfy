/** Without version 5 in the header, no step of a run writes an element that needs it. */
module MuxerVersions {
  import opened Wrappers
  import opened Bytes
  import opened Ebml
  import opened Ids
  import opened Elements
  import opened Lacing
  import opened TreeRules
  import opened Tags
  import opened TagRules
  import opened Muxer
  import opened MuxerRun
  import opened MuxerTheorems

  // ----- the run -----

  predicate OldBlock(r: BlockRec) {
    r.siblings.Some? ==> !AnyV5(r.siblings.value)
  }

  /** Nothing of version 5 in a Cluster or between two. */
  predicate OldItem(item: Item) {
    match item
    case Cluster(_, lead, blocks) => !AnyV5(lead) && forall j :: 0 <= j < |blocks| ==> OldBlock(blocks[j])
    case Fixed(e) => !HasV5(e)
  }

  predicate OldItems(items: seq<Item>) {
    forall k :: 0 <= k < |items| ==> OldItem(items[k])
  }

  lemma PutOld(items: seq<Item>, r: BlockRec)
    requires Last(items) && OldItems(items) && OldBlock(r)
    ensures OldItems(Put(items, r))
  {
    hide OldBlock;
    var n := |items| - 1;
    assert OldItem(items[n]);
  }

  lemma FlushLaceOld(c: Config, s: State, i: nat)
    requires Ready(c, s) && i < |c.tracks| && OldItems(s.items)
    ensures OldItems(FlushLace(c, s, i).items)
  {
    hide Put, OldItems, BlockElem, Cursor;
    var l := s.laces[i];
    if l.frames != [] {
      PutOld(s.items, LaceBlock(c, i, l));
    }
  }

  lemma {:induction false} FlushFromOld(c: Config, s: State, i: nat, keep: Option<nat>)
    requires Ready(c, s) && i <= |c.tracks| && OldItems(s.items)
    ensures OldItems(FlushFrom(c, s, i, keep).items)
    decreases |c.tracks| - i
  {
    hide FlushLace, OldItems;
    if i < |c.tracks| {
      if keep != Some(i) {
        FlushLaceOld(c, s, i);
      }
      FlushFromOld(c, if keep == Some(i) then s else FlushLace(c, s, i), i + 1, keep);
    }
  }

  lemma LeadOld(c: Config, ms: int, at: nat, prev: Option<nat>)
    ensures !AnyV5(Lead(c, ms, at, prev))
  {
    assert !IsV5(TIMECODE) && !IsV5(POSITION) && !IsV5(PREV_SIZE);
    hide UintBytes, IsV5, HasV5, AnyV5;
    var time, place := Uint(TIMECODE, NonNegative(ms)), Uint(POSITION, if c.live then 0 else at);
    var size := Uint(PREV_SIZE, if prev.Some? && at > prev.value then at - prev.value else 0);
    PlainV5(TIMECODE, time.body);
    PlainV5(POSITION, place.body);
    PlainV5(PREV_SIZE, size.body);
    V5One(time);
    MaybeOld(c.hints && !c.strict, place);
    MaybeOld(c.hints && prev.Some?, size);
    V5Append([time], Maybe(c.hints && !c.strict, place));
    V5Append([time] + Maybe(c.hints && !c.strict, place), Maybe(c.hints && prev.Some?, size));
  }

  lemma {:induction false} SilentOld(numbers: seq<nat>)
    ensures !AnyV5(SilentElems(numbers))
  {
    hide UintBytes;
    if numbers != [] {
      SilentOld(numbers[1..]);
    }
  }

  lemma FullLeadOld(c: Config, s: State, ms: int)
    ensures !AnyV5(FullLead(c, s, ms))
  {
    hide Lead, SilentElems, AnyV5, HasV5, Cursor;
    var lead := Lead(c, ms, Cursor(c, s), s.prevAt);
    LeadOld(c, ms, Cursor(c, s), s.prevAt);
    SilentOld(s.silent);
    var silent := Master(SILENT_TRACKS, SilentElems(s.silent));
    V5Node(silent);
    V5Snoc(lead, silent);
    assert lead + [] == lead;
  }

  lemma StartClusterOld(c: Config, s: State, ms: int)
    requires Ready(c, s) && NothingPending(s) && OldItems(s.items)
    ensures OldItems(StartCluster(c, s, ms).items)
  {
    hide FullLead, Cursor, AnyV5;
    FullLeadOld(c, s, ms);
  }

  lemma AbortedOld(c: Config, s: State, ms: int)
    requires OldItems(s.items)
    ensures OldItems(Aborted(c, s, ms).items)
  {
    hide Lead, Cursor, AnyV5;
    LeadOld(c, ms, Cursor(c, s), s.prevAt);
  }

  // ----- a BlockGroup's children -----

  lemma {:induction false} MoresOld(additions: seq<Addition>)
    ensures !AnyV5(Mores(additions))
  {
    assert !IsV5(BLOCK_ADDITIONAL) && !IsV5(BLOCK_ADD_ID) && !IsV5(BLOCK_MORE);
    hide UintBytes, IsV5, HasV5;
    if additions != [] {
      var a := additions[0];
      var data, id := Bin(BLOCK_ADDITIONAL, a.data), Uint(BLOCK_ADD_ID, a.id);
      MoresOld(additions[1..]);
      PlainV5(BLOCK_ADDITIONAL, a.data);
      PlainV5(BLOCK_ADD_ID, id.body);
      V5One(data);
      MaybeOld(a.id != 1, id);
      V5Append([data], Maybe(a.id != 1, id));
      V5Node(Master(BLOCK_MORE, [data] + Maybe(a.id != 1, id)));
    }
  }

  lemma {:induction false} ReferencesOld(refs: seq<int>)
    ensures !AnyV5(References(refs))
  {
    hide IntBytes;
    if refs != [] {
      ReferencesOld(refs[1..]);
    }
  }

  lemma MaybeUintOld(id: nat, v: Option<nat>)
    requires !IsV5(id)
    ensures !AnyV5(MaybeUint(id, v))
  {
    hide UintBytes, IsV5;
  }

  lemma SliceIds()
    ensures !IsV5(LACE_NUMBER) && !IsV5(FRAME_NUMBER) && !IsV5(TIME_SLICE_BLOCK_ADDITION_ID) && !IsV5(DELAY)
    ensures !IsV5(SLICE_DURATION) && !IsV5(REFERENCE_OFFSET) && !IsV5(REFERENCE_TIMESTAMP) && !IsV5(TIME_SLICE)
    ensures !IsV5(SLICES) && !IsV5(REFERENCE_FRAME)
  {
  }

  lemma {:induction false} SlicesOld(ts: seq<TimeSlice>)
    ensures !AnyV5(SliceElems(ts))
  {
    SliceIds();
    hide IsV5, HasV5, MaybeUint;
    if ts != [] {
      var t := ts[0];
      SlicesOld(ts[1..]);
      MaybeUintOld(LACE_NUMBER, t.laceNumber);
      MaybeUintOld(FRAME_NUMBER, t.frameNumber);
      MaybeUintOld(TIME_SLICE_BLOCK_ADDITION_ID, t.additionId);
      MaybeUintOld(DELAY, t.delay);
      MaybeUintOld(SLICE_DURATION, t.duration);
      FiveOld(MaybeUint(LACE_NUMBER, t.laceNumber), MaybeUint(FRAME_NUMBER, t.frameNumber),
              MaybeUint(TIME_SLICE_BLOCK_ADDITION_ID, t.additionId), MaybeUint(DELAY, t.delay),
              MaybeUint(SLICE_DURATION, t.duration));
      V5Node(Master(TIME_SLICE, SliceKids(t)));
    }
  }

  lemma FiveOld(a: seq<Elem>, b: seq<Elem>, c: seq<Elem>, d: seq<Elem>, e: seq<Elem>)
    requires !AnyV5(a) && !AnyV5(b) && !AnyV5(c) && !AnyV5(d) && !AnyV5(e)
    ensures !AnyV5(a + b + c + d + e)
  {
    hide AnyV5;
    V5Append(a, b);
    V5Append(a + b, c);
    V5Append(a + b + c, d);
    V5Append(a + b + c + d, e);
  }

  lemma MaybeOld(present: bool, e: Elem)
    requires !HasV5(e)
    ensures !AnyV5(Maybe(present, e))
  {
    hide HasV5;
    V5None();
    V5One(e);
  }

  lemma FrameOld(f: Option<ReferenceFrame>)
    ensures !AnyV5(FrameKids(f))
  {
    SliceIds();
    hide IsV5, MaybeUint;
    if f.Some? {
      MaybeUintOld(REFERENCE_OFFSET, f.value.offset);
      MaybeUintOld(REFERENCE_TIMESTAMP, f.value.timestamp);
      V5Append(MaybeUint(REFERENCE_OFFSET, f.value.offset), MaybeUint(REFERENCE_TIMESTAMP, f.value.timestamp));
    }
  }

  lemma PlainV5(id: nat, body: seq<byte>)
    requires !IsV5(id)
    ensures !HasV5(Leaf(id, 0, body))
  {
    hide IsV5;
  }

  lemma LegacyOld(g: GroupOptions)
    ensures !AnyV5(LegacyElems(g))
  {
    SliceIds();
    assert !IsV5(BLOCK_VIRTUAL) && !IsV5(REFERENCE_VIRTUAL);
    hide IsV5, HasV5, AnyV5, SliceElems, FrameKids, Maybe, IntBytes;
    var a, b := Bin(BLOCK_VIRTUAL, BytesOr(g.blockVirtual)), Int(REFERENCE_VIRTUAL, SignedOr(g.referenceVirtual));
    var c, d := Master(SLICES, SliceElems(g.slices)), Master(REFERENCE_FRAME, FrameKids(g.referenceFrame));
    SlicesOld(g.slices);
    FrameOld(g.referenceFrame);
    PlainV5(BLOCK_VIRTUAL, a.body);
    PlainV5(REFERENCE_VIRTUAL, b.body);
    V5Node(c);
    V5Node(d);
    MaybeOld(g.blockVirtual.Some?, a);
    MaybeOld(g.referenceVirtual.Some?, b);
    MaybeOld(g.slices != [], c);
    MaybeOld(g.referenceFrame.Some?, d);
    V5Append(Maybe(g.blockVirtual.Some?, a), Maybe(g.referenceVirtual.Some?, b));
    V5Append(Maybe(g.blockVirtual.Some?, a) + Maybe(g.referenceVirtual.Some?, b), Maybe(g.slices != [], c));
    V5Append(Maybe(g.blockVirtual.Some?, a) + Maybe(g.referenceVirtual.Some?, b) + Maybe(g.slices != [], c),
             Maybe(g.referenceFrame.Some?, d));
  }

  lemma SiblingIds()
    ensures !IsV5(BLOCK_ADDITIONS) && !IsV5(BLOCK_DURATION) && !IsV5(REFERENCE_PRIORITY) && !IsV5(CODEC_STATE)
    ensures !IsV5(DISCARD_PADDING)
  {
  }

  lemma SiblingsOld(g: GroupOptions, refs: seq<int>, duration: Option<nat>)
    ensures !AnyV5(Siblings(g, refs, duration))
  {
    SiblingIds();
    hide IsV5, HasV5, AnyV5, Mores, References, LegacyElems, UintBytes, IntBytes;
    V5None();
    MoresOld(g.additions);
    V5Node(Master(BLOCK_ADDITIONS, Mores(g.additions)));
    V5One(Master(BLOCK_ADDITIONS, Mores(g.additions)));
    var a := if g.additions == [] then [] else [Master(BLOCK_ADDITIONS, Mores(g.additions))];
    var b := if duration.Some? then [Uint(BLOCK_DURATION, duration.value)] else [];
    var d := if g.priority != 0 then [Uint(REFERENCE_PRIORITY, g.priority)] else [];
    var e := if g.codecState.Some? then [Bin(CODEC_STATE, g.codecState.value)] else [];
    var f := if g.discardPadding.Some? then [Int(DISCARD_PADDING, g.discardPadding.value)] else [];
    if duration.Some? {
      PlainV5(BLOCK_DURATION, b[0].body);
      V5One(b[0]);
    }
    if g.priority != 0 {
      PlainV5(REFERENCE_PRIORITY, d[0].body);
      V5One(d[0]);
    }
    if g.codecState.Some? {
      PlainV5(CODEC_STATE, e[0].body);
      V5One(e[0]);
    }
    if g.discardPadding.Some? {
      PlainV5(DISCARD_PADDING, f[0].body);
      V5One(f[0]);
    }
    ReferencesOld(refs);
    LegacyOld(g);
    FiveOld(a, b, d, References(refs), e);
    V5Append(a + b + d + References(refs) + e, f);
    V5Append(a + b + d + References(refs) + e + f, LegacyElems(g));
  }

  // ----- the steps -----

  lemma PlaceOld(c: Config, s: State, f: Frame)
    requires Ready(c, s) && s.open && f.stream < |c.tracks| && OldItems(s.items)
    ensures OldItems(Placed(c, s, f).state.items)
  {
    hide Put, OldItems, Cursor, BlockElem, FlushLace, Siblings, Indexable, AnyV5;
    if f.group.None? && c.mode != NoLacing {
      if MustFlush(c, s.laces[f.stream], f) {
        FlushLaceOld(c, s, f.stream);
      }
    } else {
      if f.group.Some? {
        SiblingsOld(f.group.value.options, f.group.value.references, f.length);
      }
      PutOld(s.items, UnlacedBlock(c, s, f));
    }
  }

  lemma OpenedOld(c: Config, s: State, i: nat, ms: int)
    requires Ready(c, s) && i < |c.tracks| && OldItems(s.items) && NothingPending(EndLace(c, s, i))
    ensures OldItems(Aborted(c, EndLace(c, s, i), ms).items) && OldItems(StartCluster(c, EndLace(c, s, i), ms).items)
  {
    hide FlushLace, StartCluster, Aborted, OldItems;
    FlushLaceOld(c, s, i);
    AbortedOld(c, EndLace(c, s, i), ms);
    StartClusterOld(c, EndLace(c, s, i), ms);
  }

  lemma SettledOld(c: Config, s: State, p: Packet, group: Option<GroupOptions>)
    requires Ready(c, s) && p.stream < |c.tracks| && OldItems(s.items)
    ensures OldItems(Settled(c, s, p, group).items)
  {
    hide FlushFrom, OldItems;
    FlushFromOld(c, s, 0, if group.Some? then None else Some(p.stream));
  }

  lemma WriteOld(c: Config, s: State, p: Packet, wrap: Wrap)
    requires Ready(c, s) && OnlyOnePending(c, s) && Admitted(c, p, wrap) && p.stream < |c.tracks| && OldItems(s.items)
    ensures OldItems(WritePacket(c, s, p, wrap).state.items)
  {
    hide PtsToMs, EffectivePts, Admit, Timed, FrameData, Placed, OldItems, Settled, Ready, OnlyOnePending,
      SilentBlocked, StartCluster, EndLace, Aborted;
    var group := Admit(c, p.stream, wrap).value;
    var timed := Timed(c, s, p);
    TimedFields(c, s, p);
    OnePendingStays(c, s, timed);
    SettledOld(c, timed, p, group);
    SettledIsSettled(c, timed, p, group);
    var settled := Settled(c, timed, p, group);
    var f := FrameOf(c, s, p, group);
    if !NeedsCluster(c, settled, f.ms) {
      PlaceOld(c, settled, f);
    } else {
      OpenedOld(c, settled, p.stream, f.ms);
      if !SilentBlocked(c, EndLace(c, settled, p.stream)) {
        PlaceOld(c, StartCluster(c, EndLace(c, settled, p.stream), f.ms), f);
      }
    }
  }

  lemma TopLevelV5(id: nat, kids: seq<Elem>, strict: bool)
    requires !IsV5(id)
    ensures HasV5(TopLevel(id, kids, strict)) <==> AnyV5(kids)
  {
    assert !IsV5(CRC32);
    hide HasV5, AnyV5, IsV5, Crc32.Crc;
    V5Node(TopLevel(id, kids, strict));
    if !strict {
      var crc := CrcChild(SerAll(kids));
      PlainV5(CRC32, crc.body);
      V5One(crc);
      V5Append([crc], kids);
    }
  }

  /** Live Tags are refused if they need version 5 and the header does not declare it. */
  lemma TagsOld(c: Config, s: State, tags: seq<Tag>)
    requires Ready(c, s) && OnlyOnePending(c, s) && OldItems(s.items) && c.version < 5
    ensures OldItems(WriteLiveTags(c, s, tags).state.items)
  {
    assert !IsV5(TAGS);
    hide FlushFrom, HasV5, AnyV5, TopLevel, IsV5, ValidTag, WebmTargets, NeedsV5;
    FlushFromOld(c, s, 0, None);
    TagsV5(tags);
    TopLevelV5(TAGS, TagElems(tags), c.strict);
  }

  lemma ApplyOld(c: Config, s: State, call: Call)
    requires ValidConfig(c) && Ready(c, s) && OnlyOnePending(c, s) && OldItems(s.items) && c.version < 5
    ensures OldItems(Apply(c, s, call).state.items)
  {
    hide WritePacket, Admitted, WriteLiveTags, OldItems;
    match call
    case Write(p, wrap) =>
      if Admitted(c, p, wrap) {
        AdmittedStream(c, p, wrap);
        WriteOld(c, s, p, wrap);
      } else {
        RejectedAtOnce(c, s, p, wrap);
      }
    case LiveTags(tags) => TagsOld(c, s, tags);
    case Silence(numbers) =>
  }

  lemma {:induction false} RunOld(c: Config, s: State, calls: seq<Call>)
    requires ValidConfig(c) && Inv(c, s) && OldItems(s.items) && c.version < 5
    ensures OldItems(Run(c, s, calls).state.items)
    decreases |calls|
  {
    hide Inv, Apply, Sound, Ready, OnlyOnePending, OldItems;
    if calls != [] {
      InvReady(c, s);
      ApplyKeeps(c, s, calls[0]);
      ApplyOld(c, s, calls[0]);
      var step := Apply(c, s, calls[0]);
      if step.outcome != Halted {
        RunOld(c, step.state, calls[1..]);
      }
    }
  }

  lemma RunFromOld(c: Config, calls: seq<Call>)
    requires ValidConfig(c) && c.version < 5
    ensures OldItems(RunFrom(c, calls).state.items)
  {
    InitialInv(c);
    hide Inv, Run, Sound;
    RunOld(c, Initial(c), calls);
  }

  // ----- the items as elements -----

  lemma {:induction false} BlocksOld(rs: seq<BlockRec>)
    requires forall j :: 0 <= j < |rs| ==> OldBlock(rs[j])
    ensures !AnyV5(BlockElems(rs))
  {
    hide BlockBody, OldBlock, HasV5, BlockElem;
    if rs != [] {
      assert forall j :: 0 <= j < |rs| - 1 ==> rs[1..][j] == rs[j + 1];
      BlockOld(rs[0]);
      BlocksOld(rs[1..]);
    }
  }

  lemma BlockOld(r: BlockRec)
    requires OldBlock(r)
    ensures !HasV5(BlockElem(r))
  {
    assert !IsV5(SIMPLE_BLOCK) && !IsV5(BLOCK_GROUP) && !IsV5(BLOCK);
    hide BlockBody, IsV5, AnyV5, HasV5;
    if r.siblings.Some? {
      var block := Bin(BLOCK, BlockBody(r.block));
      PlainV5(BLOCK, block.body);
      V5One(block);
      V5Append([block], r.siblings.value);
      V5Node(BlockElem(r));
    } else {
      PlainV5(SIMPLE_BLOCK, BlockBody(r.block));
    }
  }

  lemma {:induction false} ItemsOld(items: seq<Item>)
    requires OldItems(items)
    ensures !AnyV5(ItemElems(items))
  {
    hide OldItem, HasV5, ItemElem;
    if items != [] {
      assert forall k :: 0 <= k < |items| - 1 ==> items[1..][k] == items[k + 1];
      ItemOld(items[0]);
      ItemsOld(items[1..]);
    }
  }

  lemma ItemOld(item: Item)
    requires OldItem(item)
    ensures !HasV5(ItemElem(item))
  {
    assert !IsV5(CLUSTER);
    hide IsV5, AnyV5, HasV5, OldBlock, BlockElems;
    if item.Cluster? {
      BlocksOld(item.blocks);
      V5Append(item.lead, BlockElems(item.blocks));
      V5Node(ItemElem(item));
    }
  }
}
