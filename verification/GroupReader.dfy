/**
 * Reading a BlockGroup back, with the IDs and the defaults of section 5.1.3.5 of RFC 9559 and of its
 * Appendix A, and that this gives back everything a packet was grouped with.
 */
module GroupReader {
  import opened Wrappers
  import opened Bytes
  import opened Ebml
  import opened Ids
  import opened Elements
  import opened Splitter
  import opened TreeReader
  import opened Lacing
  import opened Muxer
  import opened BlockGroups

  // ----- a reader -----

  datatype GroupRead = GroupRead(block: Block, options: GroupOptions, duration: Option<nat>)

  /** BlockAdditional, and BlockAddID, which is 1 where it is absent. */
  function ReadAddition(body: seq<byte>): Addition {
    Addition(NatOr(Kids(body), 0xEE, 1), BytesIn(Kids(body), 0xA5, []))
  }

  function ReadAdditions(bodies: seq<seq<byte>>): seq<Addition> {
    if bodies == [] then [] else [ReadAddition(bodies[0])] + ReadAdditions(bodies[1..])
  }

  function ReadInts(bodies: seq<seq<byte>>): seq<int> {
    if bodies == [] then [] else [IntBody(bodies[0])] + ReadInts(bodies[1..])
  }

  /** LaceNumber, FrameNumber, BlockAdditionID, Delay and SliceDuration. */
  function ReadSlice(body: seq<byte>): TimeSlice {
    var raws := Kids(body);
    TimeSlice(NatIn(raws, 0xCC), NatIn(raws, 0xCD), NatIn(raws, 0xCB), NatIn(raws, 0xCE), NatIn(raws, 0xCF))
  }

  function ReadSlices(bodies: seq<seq<byte>>): seq<TimeSlice> {
    if bodies == [] then [] else [ReadSlice(bodies[0])] + ReadSlices(bodies[1..])
  }

  /** ReferenceOffset and ReferenceTimestamp. */
  function ReadReferenceFrame(body: Option<seq<byte>>): Option<ReferenceFrame> {
    match body
    case None => None
    case Some(kids) => Some(ReferenceFrame(NatIn(Kids(kids), 0xC9), NatIn(Kids(kids), 0xCA)))
  }

  /**
   * BlockAdditions, ReferenceBlock, ReferencePriority (0 where it is absent), CodecState,
   * DiscardPadding, and the reclaimed BlockVirtual, ReferenceVirtual, Slices and ReferenceFrame.
   */
  function ReadOptions(raws: seq<Raw>): GroupOptions {
    GroupOptions(
      ReadAdditions(All(Kids(BytesIn(raws, 0x75A1, [])), 0xA6)), ReadInts(All(raws, 0xFB)), NatOr(raws, 0xFA, 0),
      Find(raws, 0xA4), IntIn(raws, 0x75A2), Find(raws, 0xA2), IntIn(raws, 0xFD),
      ReadSlices(All(Kids(BytesIn(raws, 0x8E, [])), 0xE8)), ReadReferenceFrame(Find(raws, 0xC8)))
  }

  /** The Block, its options and BlockDuration. */
  function ReadGroup(body: seq<byte>): Option<GroupRead> {
    var raws := Kids(body);
    match Find(raws, 0xA1)
    case None => None
    case Some(bytes) =>
      match ParseBlock(bytes)
      case None => None
      case Some(block) => Some(GroupRead(block, ReadOptions(raws), NatIn(raws, 0x9B)))
  }

  // ----- fields of one kind -----

  /** What an optional child reads back as. */
  lemma NatField(present: bool, id: nat, v: nat)
    requires v < TWO_TO_THE_64
    ensures var body := Field(Maybe(present, Uint(id, v)), id);
            if present then body.Some? && UintBody(body.value) == Some(v) else body == None
  {
    hide Uint, UintBody, Body;
    UintsAreLeaves(id, v);
    FieldMaybe(present, Uint(id, v), id);
    UintBodyReads(id, v);
  }

  lemma MaybeUintReads(own: nat, v: Option<nat>, id: nat)
    requires Unsigned64(v)
    ensures Field(MaybeUint(own, v), id) == if v.Some? && own == id then Some(Body(Uint(own, v.value))) else None
    ensures own == id && v.Some? ==> UintBody(Body(Uint(own, v.value))) == v
  {
    hide Uint, UintBody, Body;
    UintsAreLeaves(own, NumberOr(v));
    FieldMaybe(v.Some?, Uint(own, NumberOr(v)), id);
    UintBodyReads(own, NumberOr(v));
  }

  lemma MaybeUintSized(id: nat, v: Option<nat>)
    ensures Sized(MaybeUint(id, v)) && Only(MaybeUint(id, v), id)
  {
    hide UintBytes;
  }

  // ----- additions -----

  lemma AdditionReads(a: Addition)
    requires Fits(Master(BLOCK_MORE, MoreKids(a))) && a.id < TWO_TO_THE_64
    ensures ReadAddition(Body(Master(BLOCK_MORE, MoreKids(a)))) == a
  {
    hide Uint, UintBody, Kids, Find, Fits, FitAll;
    var data, id := Bin(BLOCK_ADDITIONAL, a.data), Maybe(a.id != 1, Uint(BLOCK_ADD_ID, a.id));
    assert MoreKids(a) == [data] + id;
    UintsAreLeaves(BLOCK_ADD_ID, a.id);
    hide MoreKids;
    MasterKids(BLOCK_MORE, MoreKids(a));
    FieldSum([data], id, 0xEE);
    FieldSum([data], id, 0xA5);
    FieldOne(data, 0xEE);
    FieldOne(data, 0xA5);
    FieldMaybe(a.id != 1, Uint(BLOCK_ADD_ID, a.id), 0xA5);
    FieldMaybe(a.id != 1, Uint(BLOCK_ADD_ID, a.id), 0xEE);
    UintBodyReads(BLOCK_ADD_ID, a.id);
  }

  lemma {:induction false} MoresRead(additions: seq<Addition>)
    requires FitAll(Mores(additions)) && forall i :: 0 <= i < |additions| ==> additions[i].id < TWO_TO_THE_64
    ensures Sized(Mores(additions))
    ensures ReadAdditions(Fields(Mores(additions), 0xA6)) == additions
  {
    hide ReadAddition, Fits, Body, Find;
    if additions != [] {
      var a, es := additions[0], Mores(additions);
      var more := Master(BLOCK_MORE, MoreKids(a));
      assert es == [more] + Mores(additions[1..]);
      hide Mores, MoreKids;
      FitAppend([more], Mores(additions[1..]));
      FitAt([more], 0);
      AdditionReads(a);
      MoresRead(additions[1..]);
      FieldSum([more], Mores(additions[1..]), 0xA6);
      FieldOne(more, 0xA6);
      SizedSum([more], Mores(additions[1..]));
      ReadAdditionsMore(Body(more), Fields(Mores(additions[1..]), 0xA6));
    }
  }

  lemma ReadAdditionsMore(body: seq<byte>, rest: seq<seq<byte>>)
    ensures ReadAdditions([body] + rest) == [ReadAddition(body)] + ReadAdditions(rest)
  {
    assert ([body] + rest)[1..] == rest;
  }

  // ----- references -----

  lemma {:induction false} ReferencesRead(refs: seq<int>)
    requires forall i :: 0 <= i < |refs| ==> Signed64(refs[i])
    ensures Only(References(refs), REFERENCE_BLOCK) && Sized(References(refs))
    ensures ReadInts(Fields(References(refs), 0xFB)) == refs
  {
    hide IntBytes, Body, Find, IntBody;
    if refs != [] {
      var first := Int(REFERENCE_BLOCK, refs[0]);
      assert References(refs) == [first] + References(refs[1..]);
      ReferencesRead(refs[1..]);
      FieldSum([first], References(refs[1..]), 0xFB);
      FieldOne(first, 0xFB);
      IntBodyReads(REFERENCE_BLOCK, refs[0]);
      ReadIntsMore(Body(first), Fields(References(refs[1..]), 0xFB));
    }
  }

  lemma ReadIntsMore(body: seq<byte>, rest: seq<seq<byte>>)
    ensures ReadInts([body] + rest) == [IntBody(body)] + ReadInts(rest)
  {
    assert ([body] + rest)[1..] == rest;
  }

  // ----- slices -----

  lemma SliceField(t: TimeSlice, id: nat)
    ensures Field(SliceKids(t), id)
         == First(First(First(First(Field(MaybeUint(LACE_NUMBER, t.laceNumber), id),
                                    Field(MaybeUint(FRAME_NUMBER, t.frameNumber), id)),
                              Field(MaybeUint(TIME_SLICE_BLOCK_ADDITION_ID, t.additionId), id)),
                        Field(MaybeUint(DELAY, t.delay), id)),
                  Field(MaybeUint(SLICE_DURATION, t.duration), id))
  {
    hide MaybeUint, Field, Fields;
    var a, b := MaybeUint(LACE_NUMBER, t.laceNumber), MaybeUint(FRAME_NUMBER, t.frameNumber);
    var c, d := MaybeUint(TIME_SLICE_BLOCK_ADDITION_ID, t.additionId), MaybeUint(DELAY, t.delay);
    var e := MaybeUint(SLICE_DURATION, t.duration);
    FieldSum(a + b + c + d, e, id);
    FieldSum(a + b + c, d, id);
    FieldSum(a + b, c, id);
    FieldSum(a, b, id);
  }

  lemma SliceIs(t: TimeSlice, id: nat)
    requires TypedSlice(t)
    ensures Field(SliceKids(t), id)
         == if id == LACE_NUMBER then Field(MaybeUint(LACE_NUMBER, t.laceNumber), id)
            else if id == FRAME_NUMBER then Field(MaybeUint(FRAME_NUMBER, t.frameNumber), id)
            else if id == TIME_SLICE_BLOCK_ADDITION_ID then
              Field(MaybeUint(TIME_SLICE_BLOCK_ADDITION_ID, t.additionId), id)
            else if id == DELAY then Field(MaybeUint(DELAY, t.delay), id)
            else if id == SLICE_DURATION then Field(MaybeUint(SLICE_DURATION, t.duration), id)
            else None
  {
    hide MaybeUint, Body, UintBody, Uint;
    SliceField(t, id);
    MaybeUintReads(LACE_NUMBER, t.laceNumber, id);
    MaybeUintReads(FRAME_NUMBER, t.frameNumber, id);
    MaybeUintReads(TIME_SLICE_BLOCK_ADDITION_ID, t.additionId, id);
    MaybeUintReads(DELAY, t.delay, id);
    MaybeUintReads(SLICE_DURATION, t.duration, id);
  }

  lemma SliceNat(t: TimeSlice, own: nat, v: Option<nat>)
    requires TypedSlice(t) && Unsigned64(v) && Field(SliceKids(t), own) == Field(MaybeUint(own, v), own)
    ensures NatIn(RawsOf(SliceKids(t)), own) == v
  {
    hide MaybeUint, Body, UintBody, Uint, SliceKids;
    MaybeUintReads(own, v, own);
  }

  lemma SliceSized(t: TimeSlice)
    ensures Sized(SliceKids(t))
  {
    hide MaybeUint, Sized;
    var a, b := MaybeUint(LACE_NUMBER, t.laceNumber), MaybeUint(FRAME_NUMBER, t.frameNumber);
    var c, d := MaybeUint(TIME_SLICE_BLOCK_ADDITION_ID, t.additionId), MaybeUint(DELAY, t.delay);
    var e := MaybeUint(SLICE_DURATION, t.duration);
    MaybeUintSized(LACE_NUMBER, t.laceNumber);
    MaybeUintSized(FRAME_NUMBER, t.frameNumber);
    MaybeUintSized(TIME_SLICE_BLOCK_ADDITION_ID, t.additionId);
    MaybeUintSized(DELAY, t.delay);
    MaybeUintSized(SLICE_DURATION, t.duration);
    SizedSum(a, b);
    SizedSum(a + b, c);
    SizedSum(a + b + c, d);
    SizedSum(a + b + c + d, e);
  }

  lemma SliceReads(t: TimeSlice)
    requires Fits(Master(TIME_SLICE, SliceKids(t))) && TypedSlice(t)
    ensures ReadSlice(Body(Master(TIME_SLICE, SliceKids(t)))) == t
  {
    hide Fits, FitAll, Kids, SliceKids, MaybeUint, NatIn, Unsigned64;
    SliceSized(t);
    MasterKids(TIME_SLICE, SliceKids(t));
    assert Unsigned64(t.laceNumber) && Unsigned64(t.frameNumber) && Unsigned64(t.additionId) && Unsigned64(t.delay)
           && Unsigned64(t.duration);
    SliceIs(t, 0xCC);
    SliceIs(t, 0xCD);
    SliceIs(t, 0xCB);
    SliceIs(t, 0xCE);
    SliceIs(t, 0xCF);
    SliceNat(t, 0xCC, t.laceNumber);
    SliceNat(t, 0xCD, t.frameNumber);
    SliceNat(t, 0xCB, t.additionId);
    SliceNat(t, 0xCE, t.delay);
    SliceNat(t, 0xCF, t.duration);
  }

  lemma {:induction false} SlicesRead(ts: seq<TimeSlice>)
    requires FitAll(SliceElems(ts)) && forall i :: 0 <= i < |ts| ==> TypedSlice(ts[i])
    ensures Sized(SliceElems(ts)) && ReadSlices(Fields(SliceElems(ts), 0xE8)) == ts
  {
    hide ReadSlice, Fits, Body, Find, SliceKids, TypedSlice;
    if ts != [] {
      var first := Master(TIME_SLICE, SliceKids(ts[0]));
      assert SliceElems(ts) == [first] + SliceElems(ts[1..]);
      FitAppend([first], SliceElems(ts[1..]));
      FitAt([first], 0);
      SliceReads(ts[0]);
      SlicesRead(ts[1..]);
      FieldSum([first], SliceElems(ts[1..]), 0xE8);
      FieldOne(first, 0xE8);
      ReadSlicesMore(Body(first), Fields(SliceElems(ts[1..]), 0xE8));
    }
  }

  lemma ReadSlicesMore(body: seq<byte>, rest: seq<seq<byte>>)
    ensures ReadSlices([body] + rest) == [ReadSlice(body)] + ReadSlices(rest)
  {
    assert ([body] + rest)[1..] == rest;
  }

  lemma FrameReads(f: ReferenceFrame)
    requires Fits(Master(REFERENCE_FRAME, FrameKids(Some(f)))) && Unsigned64(f.offset) && Unsigned64(f.timestamp)
    ensures ReadReferenceFrame(Some(Body(Master(REFERENCE_FRAME, FrameKids(Some(f)))))) == Some(f)
  {
    hide Fits, FitAll, Kids, MaybeUint, Body, UintBody, Uint;
    var a, b := MaybeUint(REFERENCE_OFFSET, f.offset), MaybeUint(REFERENCE_TIMESTAMP, f.timestamp);
    assert FrameKids(Some(f)) == a + b;
    MaybeUintSized(REFERENCE_OFFSET, f.offset);
    MaybeUintSized(REFERENCE_TIMESTAMP, f.timestamp);
    SizedSum(a, b);
    MasterKids(REFERENCE_FRAME, a + b);
    FieldSum(a, b, 0xC9);
    FieldSum(a, b, 0xCA);
    MaybeUintReads(REFERENCE_OFFSET, f.offset, 0xC9);
    MaybeUintReads(REFERENCE_TIMESTAMP, f.timestamp, 0xC9);
    MaybeUintReads(REFERENCE_OFFSET, f.offset, 0xCA);
    MaybeUintReads(REFERENCE_TIMESTAMP, f.timestamp, 0xCA);
  }

  // ----- the group -----

  /** The ten kinds of children behind the Block, in their order. */
  datatype Parts = Parts(
    additions: seq<Elem>, duration: seq<Elem>, priority: seq<Elem>, references: seq<Elem>, state: seq<Elem>,
    padding: seq<Elem>, blockVirtual: seq<Elem>, referenceVirtual: seq<Elem>, slices: seq<Elem>, frame: seq<Elem>)

  function PartsOf(g: GroupOptions, refs: seq<int>, duration: Option<nat>): Parts {
    Parts(Maybe(g.additions != [], Master(BLOCK_ADDITIONS, Mores(g.additions))),
          MaybeUint(BLOCK_DURATION, duration),
          Maybe(g.priority != 0, Uint(REFERENCE_PRIORITY, g.priority)),
          References(refs),
          Maybe(g.codecState.Some?, Bin(CODEC_STATE, BytesOr(g.codecState))),
          Maybe(g.discardPadding.Some?, Int(DISCARD_PADDING, SignedOr(g.discardPadding))),
          Maybe(g.blockVirtual.Some?, Bin(BLOCK_VIRTUAL, BytesOr(g.blockVirtual))),
          Maybe(g.referenceVirtual.Some?, Int(REFERENCE_VIRTUAL, SignedOr(g.referenceVirtual))),
          Maybe(g.slices != [], Master(SLICES, SliceElems(g.slices))),
          Maybe(g.referenceFrame.Some?, Master(REFERENCE_FRAME, FrameKids(g.referenceFrame))))
  }

  function Joined(p: Parts): seq<Elem> {
    p.additions + p.duration + p.priority + p.references + p.state + p.padding
    + (p.blockVirtual + p.referenceVirtual + p.slices + p.frame)
  }

  lemma SiblingsJoin(g: GroupOptions, refs: seq<int>, duration: Option<nat>)
    ensures Siblings(g, refs, duration) == Joined(PartsOf(g, refs, duration))
  {
    hide Siblings, Mores, References, Uint, Int, Master, SliceElems, FrameKids, Bin, Maybe;
    SiblingsAre(g, refs, duration);
  }

  predicate KindsApart(p: Parts) {
    && Only(p.additions, BLOCK_ADDITIONS) && Only(p.duration, BLOCK_DURATION) && Only(p.priority, REFERENCE_PRIORITY)
    && Only(p.references, REFERENCE_BLOCK) && Only(p.state, CODEC_STATE) && Only(p.padding, DISCARD_PADDING)
    && Only(p.blockVirtual, BLOCK_VIRTUAL) && Only(p.referenceVirtual, REFERENCE_VIRTUAL) && Only(p.slices, SLICES)
    && Only(p.frame, REFERENCE_FRAME)
  }

  function PartAt(p: Parts, id: nat): seq<Elem> {
    if id == BLOCK_ADDITIONS then p.additions
    else if id == BLOCK_DURATION then p.duration
    else if id == REFERENCE_PRIORITY then p.priority
    else if id == REFERENCE_BLOCK then p.references
    else if id == CODEC_STATE then p.state
    else if id == DISCARD_PADDING then p.padding
    else if id == BLOCK_VIRTUAL then p.blockVirtual
    else if id == REFERENCE_VIRTUAL then p.referenceVirtual
    else if id == SLICES then p.slices
    else if id == REFERENCE_FRAME then p.frame
    else []
  }

  lemma LegacyField(p: Parts, id: nat)
    requires KindsApart(p)
    ensures var legacy := p.blockVirtual + p.referenceVirtual + p.slices + p.frame;
            if id == BLOCK_VIRTUAL || id == REFERENCE_VIRTUAL || id == SLICES || id == REFERENCE_FRAME then
              Field(legacy, id) == Field(PartAt(p, id), id) && Fields(legacy, id) == Fields(PartAt(p, id), id)
            else Field(legacy, id) == None && Fields(legacy, id) == []
  {
    hide Field, Fields, Only;
    FieldSum(p.blockVirtual + p.referenceVirtual + p.slices, p.frame, id);
    FieldSum(p.blockVirtual + p.referenceVirtual, p.slices, id);
    FieldSum(p.blockVirtual, p.referenceVirtual, id);
    OnlyField(p.blockVirtual, BLOCK_VIRTUAL, id);
    OnlyField(p.referenceVirtual, REFERENCE_VIRTUAL, id);
    OnlyField(p.slices, SLICES, id);
    OnlyField(p.frame, REFERENCE_FRAME, id);
  }

  /** Each kind of child is found in its own part. */
  lemma JoinedField(p: Parts, id: nat)
    requires KindsApart(p)
    ensures Field(Joined(p), id) == Field(PartAt(p, id), id) && Fields(Joined(p), id) == Fields(PartAt(p, id), id)
  {
    NothingThere(id);
    hide Field, Fields, Only;
    var legacy := p.blockVirtual + p.referenceVirtual + p.slices + p.frame;
    LegacyField(p, id);
    FieldSum(p.additions + p.duration + p.priority + p.references + p.state + p.padding, legacy, id);
    FieldSum(p.additions + p.duration + p.priority + p.references + p.state, p.padding, id);
    FieldSum(p.additions + p.duration + p.priority + p.references, p.state, id);
    FieldSum(p.additions + p.duration + p.priority, p.references, id);
    FieldSum(p.additions + p.duration, p.priority, id);
    FieldSum(p.additions, p.duration, id);
    OnlyField(p.additions, BLOCK_ADDITIONS, id);
    OnlyField(p.duration, BLOCK_DURATION, id);
    OnlyField(p.priority, REFERENCE_PRIORITY, id);
    OnlyField(p.references, REFERENCE_BLOCK, id);
    OnlyField(p.state, CODEC_STATE, id);
    OnlyField(p.padding, DISCARD_PADDING, id);
  }

  lemma PartsAreApart(g: GroupOptions, refs: seq<int>, duration: Option<nat>)
    requires forall i :: 0 <= i < |refs| ==> Signed64(refs[i])
    ensures KindsApart(PartsOf(g, refs, duration)) && Sized(Joined(PartsOf(g, refs, duration)))
  {
    hide Mores, SliceElems, FrameKids, UintBytes, IntBytes, References;
    ReferencesRead(refs);
    var p := PartsOf(g, refs, duration);
    assert KindsApart(p);
    assert Sized(p.additions) && Sized(p.duration) && Sized(p.priority) && Sized(p.state) && Sized(p.padding)
           && Sized(p.blockVirtual) && Sized(p.referenceVirtual) && Sized(p.slices) && Sized(p.frame);
    JoinedSized(p);
  }

  lemma JoinedSized(p: Parts)
    requires Sized(p.additions) && Sized(p.duration) && Sized(p.priority) && Sized(p.references) && Sized(p.state)
             && Sized(p.padding) && Sized(p.blockVirtual) && Sized(p.referenceVirtual) && Sized(p.slices)
             && Sized(p.frame)
    ensures Sized(Joined(p))
  {
    hide Sized;
    SizedSum(p.blockVirtual, p.referenceVirtual);
    SizedSum(p.blockVirtual + p.referenceVirtual, p.slices);
    SizedSum(p.blockVirtual + p.referenceVirtual + p.slices, p.frame);
    SizedSum(p.additions, p.duration);
    SizedSum(p.additions + p.duration, p.priority);
    SizedSum(p.additions + p.duration + p.priority, p.references);
    SizedSum(p.additions + p.duration + p.priority + p.references, p.state);
    SizedSum(p.additions + p.duration + p.priority + p.references + p.state, p.padding);
    SizedSum(p.additions + p.duration + p.priority + p.references + p.state + p.padding,
             p.blockVirtual + p.referenceVirtual + p.slices + p.frame);
  }

  lemma JoinedFit(p: Parts)
    requires FitAll(Joined(p))
    ensures FitAll(p.additions) && FitAll(p.slices) && FitAll(p.frame)
  {
    hide FitAll;
    var legacy := p.blockVirtual + p.referenceVirtual + p.slices + p.frame;
    FitAppend(p.additions + p.duration + p.priority + p.references + p.state + p.padding, legacy);
    FitAppend(p.blockVirtual + p.referenceVirtual + p.slices, p.frame);
    FitAppend(p.blockVirtual + p.referenceVirtual, p.slices);
    FitAppend(p.additions + p.duration + p.priority + p.references + p.state, p.padding);
    FitAppend(p.additions + p.duration + p.priority + p.references, p.state);
    FitAppend(p.additions + p.duration + p.priority, p.references);
    FitAppend(p.additions + p.duration, p.priority);
    FitAppend(p.additions, p.duration);
  }

  // ----- what each part reads back as -----

  lemma {:induction false} AdditionsPart(additions: seq<Addition>)
    requires forall i :: 0 <= i < |additions| ==> additions[i].id < TWO_TO_THE_64
    requires var part := Maybe(additions != [], Master(BLOCK_ADDITIONS, Mores(additions))); FitAll(part)
    ensures var part := Maybe(additions != [], Master(BLOCK_ADDITIONS, Mores(additions)));
            ReadAdditions(All(Kids(BytesIn(RawsOf(part), 0x75A1, [])), 0xA6)) == additions
  {
    hide Mores, Fits, ReadAdditions, Kids, All;
    var master := Master(BLOCK_ADDITIONS, Mores(additions));
    FieldMaybe(additions != [], master, 0x75A1);
    if additions != [] {
      FitAt([master], 0);
      assert FitAll(Mores(additions)) by { MasterFits(BLOCK_ADDITIONS, Mores(additions)); }
      MoresRead(additions);
      MasterKids(BLOCK_ADDITIONS, Mores(additions));
    } else {
      NoAdditions();
    }
  }

  lemma MasterFits(id: nat, kids: seq<Elem>)
    requires Fits(Master(id, kids))
    ensures FitAll(kids)
  {
  }

  lemma NoAdditions()
    ensures ReadAdditions(All(Kids([]), 0xA6)) == [] && ReadSlices(All(Kids([]), 0xE8)) == []
  {
  }

  lemma {:induction false} SlicesPart(slices: seq<TimeSlice>)
    requires forall i :: 0 <= i < |slices| ==> TypedSlice(slices[i])
    requires FitAll(Maybe(slices != [], Master(SLICES, SliceElems(slices))))
    ensures var part := Maybe(slices != [], Master(SLICES, SliceElems(slices)));
            ReadSlices(All(Kids(BytesIn(RawsOf(part), 0x8E, [])), 0xE8)) == slices
  {
    hide SliceElems, Fits, ReadSlices, Kids, All;
    var master := Master(SLICES, SliceElems(slices));
    FieldMaybe(slices != [], master, 0x8E);
    if slices != [] {
      FitAt([master], 0);
      MasterFits(SLICES, SliceElems(slices));
      SlicesRead(slices);
      MasterKids(SLICES, SliceElems(slices));
    } else {
      NoAdditions();
    }
  }

  lemma FramePart(f: Option<ReferenceFrame>)
    requires f.Some? ==> Unsigned64(f.value.offset) && Unsigned64(f.value.timestamp)
    requires FitAll(Maybe(f.Some?, Master(REFERENCE_FRAME, FrameKids(f))))
    ensures ReadReferenceFrame(Field(Maybe(f.Some?, Master(REFERENCE_FRAME, FrameKids(f))), 0xC8)) == f
  {
    hide FrameKids, Fits, Kids, Body;
    var master := Master(REFERENCE_FRAME, FrameKids(f));
    FieldMaybe(f.Some?, master, 0xC8);
    if f.Some? {
      FitAt([master], 0);
      FrameReads(f.value);
    }
  }

  lemma BytesPart(id: nat, v: Option<seq<byte>>)
    ensures Field(Maybe(v.Some?, Bin(id, BytesOr(v))), id) == v
  {
    FieldMaybe(v.Some?, Bin(id, BytesOr(v)), id);
  }

  lemma IntPart(id: nat, v: Option<int>)
    requires v.Some? ==> Signed64(v.value)
    ensures IntIn(RawsOf(Maybe(v.Some?, Int(id, SignedOr(v)))), id) == v
  {
    hide IntBytes, IntBody;
    FieldMaybe(v.Some?, Int(id, SignedOr(v)), id);
    if v.Some? {
      IntBodyReads(id, v.value);
    }
  }

  lemma PriorityPart(v: nat)
    requires v < TWO_TO_THE_64
    ensures NatOr(RawsOf(Maybe(v != 0, Uint(REFERENCE_PRIORITY, v))), 0xFA, 0) == v
  {
    hide Uint, UintBody, Body;
    NatField(v != 0, REFERENCE_PRIORITY, v);
  }

  lemma LengthPart(v: Option<nat>)
    requires Unsigned64(v)
    ensures NatIn(RawsOf(MaybeUint(BLOCK_DURATION, v)), 0x9B) == v
  {
    hide MaybeUint, Body, UintBody, Uint;
    MaybeUintReads(BLOCK_DURATION, v, 0x9B);
  }

  /** The fields behind the Block, whatever stands in front of them. */
  lemma FieldsBehind(block: Elem, p: Parts, id: nat)
    requires KindsApart(p) && block.id == BLOCK && id != BLOCK
    ensures Find(RawsOf([block] + Joined(p)), id) == Find(RawsOf(PartAt(p, id)), id)
    ensures All(RawsOf([block] + Joined(p)), id) == All(RawsOf(PartAt(p, id)), id)
  {
    hide Joined, Find, All, Body, KindsApart, PartAt;
    FieldSum([block], Joined(p), id);
    FieldOne(block, id);
    JoinedField(p, id);
    assert Fields([block], id) == [];
  }

  lemma OptionsRead(block: Elem, g: GroupOptions, refs: seq<int>, duration: Option<nat>)
    requires block.id == BLOCK && Typed(g, refs, duration) && FitAll(Joined(PartsOf(g, refs, duration)))
    ensures var raws := RawsOf([block] + Joined(PartsOf(g, refs, duration)));
            ReadOptions(raws) == g.(references := refs) && NatIn(raws, 0x9B) == duration
  {
    var p := PartsOf(g, refs, duration);
    hide Joined, Find, All, Body, KindsApart, Kids, UintBody, ReadAdditions, ReadInts, ReadSlices, ReadReferenceFrame,
      Maybe, MaybeUint, References, TypedSlice, Unsigned64, FitAll, Uint, Int, Bin, Master, RawsOf, IntBody;
    PartsAreApart(g, refs, duration);
    JoinedFit(p);
    FieldsBehind(block, p, 0x75A1);
    FieldsBehind(block, p, 0xFB);
    FieldsBehind(block, p, 0xFA);
    FieldsBehind(block, p, 0xA4);
    FieldsBehind(block, p, 0x75A2);
    FieldsBehind(block, p, 0xA2);
    FieldsBehind(block, p, 0xFD);
    FieldsBehind(block, p, 0x8E);
    FieldsBehind(block, p, 0xC8);
    FieldsBehind(block, p, 0x9B);
    AdditionsPart(g.additions);
    ReferencesRead(refs);
    PriorityPart(g.priority);
    BytesPart(CODEC_STATE, g.codecState);
    BytesPart(BLOCK_VIRTUAL, g.blockVirtual);
    IntPart(DISCARD_PADDING, g.discardPadding);
    IntPart(REFERENCE_VIRTUAL, g.referenceVirtual);
    SlicesPart(g.slices);
    FramePart(g.referenceFrame);
    assert Unsigned64(duration) by { LengthIsTyped(g, refs, duration); }
    LengthPart(duration);
  }

  lemma LengthIsTyped(g: GroupOptions, refs: seq<int>, duration: Option<nat>)
    requires Typed(g, refs, duration)
    ensures Unsigned64(duration)
  {
  }

  /** A BlockGroup's bytes give back its Block, its options with the references written, and its duration. */
  lemma GroupReadsBack(b: Block, g: GroupOptions, refs: seq<int>, duration: Option<nat>)
    requires ValidBlock(b) && Typed(g, refs, duration)
    requires Fits(Master(BLOCK_GROUP, [Bin(BLOCK, BlockBody(b))] + Siblings(g, refs, duration)))
    ensures ReadGroup(Body(Master(BLOCK_GROUP, [Bin(BLOCK, BlockBody(b))] + Siblings(g, refs, duration))))
         == Some(GroupRead(b, g.(references := refs), duration))
  {
    hide Siblings, PartsOf, Joined, Find, Fits, FitAll, Typed, ReadOptions, NatIn, Kids, ParseBlock, Laceable,
      BlockBody;
    var block, p := Bin(BLOCK, BlockBody(b)), PartsOf(g, refs, duration);
    SiblingsJoin(g, refs, duration);
    assert forall i :: 0 <= i < |refs| ==> Signed64(refs[i]) by { RefsAreTyped(g, refs, duration); }
    PartsAreApart(g, refs, duration);
    SizedSum([block], Joined(p));
    MasterKids(BLOCK_GROUP, [block] + Joined(p));
    FitAppend([block], Joined(p));
    OptionsRead(block, g, refs, duration);
    FieldSum([block], Joined(p), 0xA1);
    FieldOne(block, 0xA1);
    BlockRoundTrip(b);
  }

  lemma RefsAreTyped(g: GroupOptions, refs: seq<int>, duration: Option<nat>)
    requires Typed(g, refs, duration)
    ensures forall i :: 0 <= i < |refs| ==> Signed64(refs[i])
  {
  }
}
