/** `build_block_group`: one unlaced Block and its siblings, child by child. */
module BlockGroups {
  import opened Wrappers
  import opened Bytes
  import opened Ebml
  import opened Ids
  import opened Elements
  import opened Lacing
  import opened Muxer

  predicate Signed64(v: int) {
    -TWO_TO_THE_63 <= v < TWO_TO_THE_63
  }

  predicate Unsigned64(v: Option<nat>) {
    NumberOr(v) < TWO_TO_THE_64
  }

  predicate TypedSlice(t: TimeSlice) {
    Unsigned64(t.laceNumber) && Unsigned64(t.frameNumber) && Unsigned64(t.additionId) && Unsigned64(t.delay)
    && Unsigned64(t.duration)
  }

  /** The numbers are 64-bit ones, as their types in the source say. */
  predicate Typed(g: GroupOptions, refs: seq<int>, duration: Option<nat>) {
    && (forall i :: 0 <= i < |g.additions| ==> g.additions[i].id < TWO_TO_THE_64)
    && (forall i :: 0 <= i < |refs| ==> Signed64(refs[i]))
    && g.priority < TWO_TO_THE_64
    && (duration.Some? ==> duration.value < TWO_TO_THE_64)
    && (g.discardPadding.Some? ==> Signed64(g.discardPadding.value))
    && TypedLegacy(g)
  }

  /** The numbers of a packet's group are 64-bit ones. */
  predicate IsTyped(f: Frame) {
    f.group.Some? ==> Typed(f.group.value.options, f.group.value.references, f.length)
  }

  function MoreKids(a: Addition): seq<Elem> {
    [Bin(BLOCK_ADDITIONAL, a.data)] + if a.id != 1 then [Uint(BLOCK_ADD_ID, a.id)] else []
  }

  lemma {:induction false} MoresAppend(a: seq<Addition>, b: seq<Addition>)
    ensures Mores(a + b) == Mores(a) + Mores(b)
  {
    if a == [] {
      assert a + b == b;
    } else {
      assert (a + b)[1..] == a[1..] + b;
      MoresAppend(a[1..], b);
    }
  }

  lemma MoresSnoc(additions: seq<Addition>, i: nat)
    requires i < |additions|
    ensures Mores(additions[..i + 1]) == Mores(additions[..i]) + [Master(BLOCK_MORE, MoreKids(additions[i]))]
  {
    hide Mores;
    assert additions[..i + 1] == additions[..i] + [additions[i]];
    MoresAppend(additions[..i], [additions[i]]);
    OneMore(additions[i]);
  }

  lemma OneMore(a: Addition)
    ensures Mores([a]) == [Master(BLOCK_MORE, MoreKids(a))]
  {
    assert [a][1..] == [];
  }

  lemma {:induction false} MoreAt(additions: seq<Addition>, i: nat)
    requires i < |additions|
    ensures |Mores(additions)| == |additions| && Mores(additions)[i] == Master(BLOCK_MORE, MoreKids(additions[i]))
  {
    if |additions| > 1 {
      MoreAt(additions[1..], if i > 0 then i - 1 else 0);
    }
  }

  lemma {:induction false} ReferencesAppend(a: seq<int>, b: seq<int>)
    ensures References(a + b) == References(a) + References(b)
  {
    if a == [] {
      assert a + b == b;
    } else {
      assert (a + b)[1..] == a[1..] + b;
      ReferencesAppend(a[1..], b);
    }
  }

  lemma ReferencesSnoc(refs: seq<int>, i: nat)
    requires i < |refs|
    ensures References(refs[..i + 1]) == References(refs[..i]) + [Int(REFERENCE_BLOCK, refs[i])]
  {
    hide References, Int;
    assert refs[..i + 1] == refs[..i] + [refs[i]];
    ReferencesAppend(refs[..i], [refs[i]]);
    OneReference(refs[i]);
  }

  lemma OneReference(r: int)
    ensures References([r]) == [Int(REFERENCE_BLOCK, r)]
  {
    assert [r][1..] == [];
  }

  lemma NodeParts(id: nat, kids: seq<Elem>)
    requires Fits(Master(id, kids))
    ensures |SerAll(kids)| < SIZE_LIMIT && FitAll(kids)
  {
  }

  lemma LeafParts(id: nat, body: seq<byte>)
    requires Fits(Bin(id, body))
    ensures |body| < SIZE_LIMIT
  {
  }

  lemma NothingWritten()
    ensures SerAll([]) == []
  {
  }

  method WriteMore(buf: seq<byte>, a: Addition) returns (out: seq<byte>)
    requires Fits(Master(BLOCK_MORE, MoreKids(a))) && a.id < TWO_TO_THE_64
    ensures out == buf + Ser(Master(BLOCK_MORE, MoreKids(a)))
  {
    hide Ser, SerAll, Fits, FitAll, Uint;
    NodeParts(BLOCK_MORE, MoreKids(a));
    FitAt(MoreKids(a), 0);
    LeafParts(BLOCK_ADDITIONAL, a.data);
    SerOne(Bin(BLOCK_ADDITIONAL, a.data));
    var more := WriteBytesElement([], BLOCK_ADDITIONAL, a.data);
    if a.id != 1 {
      SerSnoc([Bin(BLOCK_ADDITIONAL, a.data)], Uint(BLOCK_ADD_ID, a.id));
      more := WriteUintElement(more, BLOCK_ADD_ID, a.id);
    } else {
      assert MoreKids(a) == [Bin(BLOCK_ADDITIONAL, a.data)];
    }
    out := WriteMasterElement(buf, BLOCK_MORE, more, MoreKids(a));
  }

  method BuildMores(additions: seq<Addition>) returns (out: seq<byte>)
    requires FitAll(Mores(additions)) && forall i :: 0 <= i < |additions| ==> additions[i].id < TWO_TO_THE_64
    ensures out == SerAll(Mores(additions))
  {
    hide Ser, SerAll, Mores, MoreKids, Fits, FitAll;
    out := [];
    MoresOfNothing();
    for i := 0 to |additions|
      invariant out == SerAll(Mores(additions[..i]))
    {
      MoresSnoc(additions, i);
      MoreAt(additions, i);
      FitAt(Mores(additions), i);
      SerSnoc(Mores(additions[..i]), Master(BLOCK_MORE, MoreKids(additions[i])));
      out := WriteMore(out, additions[i]);
    }
    assert additions[..|additions|] == additions;
  }

  lemma MoresOfNothing()
    ensures SerAll(Mores([])) == []
  {
  }

  method WriteReferences(buf: seq<byte>, refs: seq<int>) returns (out: seq<byte>)
    requires forall i :: 0 <= i < |refs| ==> Signed64(refs[i])
    ensures out == buf + SerAll(References(refs))
  {
    hide Ser, SerAll, References, Int;
    out := buf;
    ReferencesOfNothing();
    for i := 0 to |refs|
      invariant out == buf + SerAll(References(refs[..i]))
    {
      ReferencesSnoc(refs, i);
      SerSnoc(References(refs[..i]), Int(REFERENCE_BLOCK, refs[i]));
      ghost var before := SerAll(References(refs[..i]));
      out := WriteIntElement(out, REFERENCE_BLOCK, refs[i]);
      Assoc(buf, before, Ser(Int(REFERENCE_BLOCK, refs[i])));
    }
    assert refs[..|refs|] == refs;
  }

  lemma ReferencesOfNothing()
    ensures SerAll(References([])) == []
  {
  }

  /** The siblings as a list of optional children. */
  lemma SiblingsAre(g: GroupOptions, refs: seq<int>, duration: Option<nat>)
    ensures Siblings(g, refs, duration)
         == Maybe(g.additions != [], Master(BLOCK_ADDITIONS, Mores(g.additions)))
            + Maybe(duration.Some?, Uint(BLOCK_DURATION, NumberOr(duration)))
            + Maybe(g.priority != 0, Uint(REFERENCE_PRIORITY, g.priority))
            + References(refs)
            + Maybe(g.codecState.Some?, Bin(CODEC_STATE, BytesOr(g.codecState)))
            + Maybe(g.discardPadding.Some?, Int(DISCARD_PADDING, SignedOr(g.discardPadding)))
            + LegacyElems(g)
  {
    hide Mores, References, Uint, Int, Master;
    assert Maybe(g.additions != [], Master(BLOCK_ADDITIONS, Mores(g.additions)))
        == if g.additions == [] then [] else [Master(BLOCK_ADDITIONS, Mores(g.additions))];
  }

  lemma AppendAll(x: seq<Elem>, a: seq<Elem>, b: seq<Elem>, c: seq<Elem>, d: seq<Elem>, e: seq<Elem>, f: seq<Elem>,
                  g: seq<Elem>)
    ensures x + (a + b + c + d + e + f + g) == x + a + b + c + d + e + f + g
  {
  }

  /** The group's bytes, child by child in the order they are written. */
  lemma GroupBytes(b: Block, g: GroupOptions, refs: seq<int>, duration: Option<nat>)
    ensures SerAll([Bin(BLOCK, BlockBody(b))] + Siblings(g, refs, duration))
         == [] + Ser(Bin(BLOCK, BlockBody(b)))
            + MaybeBytes(g.additions != [], Master(BLOCK_ADDITIONS, Mores(g.additions)))
            + MaybeBytes(duration.Some?, Uint(BLOCK_DURATION, NumberOr(duration)))
            + MaybeBytes(g.priority != 0, Uint(REFERENCE_PRIORITY, g.priority))
            + SerAll(References(refs))
            + MaybeBytes(g.codecState.Some?, Bin(CODEC_STATE, BytesOr(g.codecState)))
            + MaybeBytes(g.discardPadding.Some?, Int(DISCARD_PADDING, SignedOr(g.discardPadding)))
            + SerAll(LegacyElems(g))
  {
    hide Ser, SerAll, Mores, References, Uint, Int, BlockBody, Maybe, MaybeBytes, Siblings, Master;
    var block := [Bin(BLOCK, BlockBody(b))];
    SerOne(block[0]);
    assert [] + Ser(block[0]) == SerAll(block);
    var additions := Master(BLOCK_ADDITIONS, Mores(g.additions));
    var length, priority := Uint(BLOCK_DURATION, NumberOr(duration)), Uint(REFERENCE_PRIORITY, g.priority);
    var state, padding := Bin(CODEC_STATE, BytesOr(g.codecState)), Int(DISCARD_PADDING, SignedOr(g.discardPadding));
    var s1 := block + Maybe(g.additions != [], additions);
    var s2 := s1 + Maybe(duration.Some?, length);
    var s3 := s2 + Maybe(g.priority != 0, priority);
    var s4 := s3 + References(refs);
    var s5 := s4 + Maybe(g.codecState.Some?, state);
    var s6 := s5 + Maybe(g.discardPadding.Some?, padding);
    MaybeSnoc(block, g.additions != [], additions);
    MaybeSnoc(s1, duration.Some?, length);
    MaybeSnoc(s2, g.priority != 0, priority);
    SerAppend(s3, References(refs));
    MaybeSnoc(s4, g.codecState.Some?, state);
    MaybeSnoc(s5, g.discardPadding.Some?, padding);
    SerAppend(s6, LegacyElems(g));
    SiblingsAre(g, refs, duration);
    AppendAll(block, Maybe(g.additions != [], additions), Maybe(duration.Some?, length),
              Maybe(g.priority != 0, priority),
              References(refs), Maybe(g.codecState.Some?, state), Maybe(g.discardPadding.Some?, padding),
              LegacyElems(g));
  }

  /** The children whose sizes could overflow a VINT. */
  lemma GroupParts(b: Block, g: GroupOptions, refs: seq<int>, duration: Option<nat>)
    requires Fits(Master(BLOCK_GROUP, [Bin(BLOCK, BlockBody(b))] + Siblings(g, refs, duration)))
    ensures |BlockBody(b)| < SIZE_LIMIT
    ensures |SerAll([Bin(BLOCK, BlockBody(b))] + Siblings(g, refs, duration))| < SIZE_LIMIT
    ensures g.additions != [] ==> |SerAll(Mores(g.additions))| < SIZE_LIMIT && FitAll(Mores(g.additions))
    ensures g.codecState.Some? ==> |g.codecState.value| < SIZE_LIMIT
    ensures FitAll(LegacyElems(g))
  {
    hide Fits, FitAll, SerAll, Mores, References, BlockBody, Uint, Int, LegacyElems;
    var block := Bin(BLOCK, BlockBody(b));
    NodeParts(BLOCK_GROUP, [block] + Siblings(g, refs, duration));
    FitAppend([block], Siblings(g, refs, duration));
    LegacyFits(g, refs, duration);
    FitAt([block], 0);
    LeafParts(BLOCK, BlockBody(b));
    var s := Siblings(g, refs, duration);
    if g.additions != [] {
      assert s[0] == Master(BLOCK_ADDITIONS, Mores(g.additions));
      FitAt(s, 0);
      NodeParts(BLOCK_ADDITIONS, Mores(g.additions));
    }
    if g.codecState.Some? {
      CodecStateFits(g, refs, duration);
    }
  }

  lemma LegacyFits(g: GroupOptions, refs: seq<int>, duration: Option<nat>)
    requires FitAll(Siblings(g, refs, duration))
    ensures FitAll(LegacyElems(g))
  {
    hide Fits, FitAll, Mores, References, Uint, Int, Siblings, Maybe, LegacyElems;
    var before := Maybe(g.additions != [], Master(BLOCK_ADDITIONS, Mores(g.additions)))
                  + Maybe(duration.Some?, Uint(BLOCK_DURATION, NumberOr(duration)))
                  + Maybe(g.priority != 0, Uint(REFERENCE_PRIORITY, g.priority)) + References(refs)
                  + Maybe(g.codecState.Some?, Bin(CODEC_STATE, BytesOr(g.codecState)))
                  + Maybe(g.discardPadding.Some?, Int(DISCARD_PADDING, SignedOr(g.discardPadding)));
    SiblingsAre(g, refs, duration);
    assert Siblings(g, refs, duration) == before + LegacyElems(g);
    FitAppend(before, LegacyElems(g));
  }

  // ----- the reclaimed children -----

  /** The four of them as bytes. */
  lemma LegacyBytes(g: GroupOptions)
    ensures SerAll(LegacyElems(g))
         == MaybeBytes(g.blockVirtual.Some?, Bin(BLOCK_VIRTUAL, BytesOr(g.blockVirtual)))
            + MaybeBytes(g.referenceVirtual.Some?, Int(REFERENCE_VIRTUAL, SignedOr(g.referenceVirtual)))
            + MaybeBytes(g.slices != [], Master(SLICES, SliceElems(g.slices)))
            + MaybeBytes(g.referenceFrame.Some?, Master(REFERENCE_FRAME, FrameKids(g.referenceFrame)))
  {
    hide Ser, SerAll, Int, SliceElems, FrameKids, Maybe, MaybeBytes;
    var a, b := Bin(BLOCK_VIRTUAL, BytesOr(g.blockVirtual)), Int(REFERENCE_VIRTUAL, SignedOr(g.referenceVirtual));
    var c, d := Master(SLICES, SliceElems(g.slices)), Master(REFERENCE_FRAME, FrameKids(g.referenceFrame));
    var s1 := Maybe(g.blockVirtual.Some?, a);
    var s2 := s1 + Maybe(g.referenceVirtual.Some?, b);
    var s3 := s2 + Maybe(g.slices != [], c);
    MaybeFirst(g.blockVirtual.Some?, a);
    MaybeSnoc(s1, g.referenceVirtual.Some?, b);
    MaybeSnoc(s2, g.slices != [], c);
    MaybeSnoc(s3, g.referenceFrame.Some?, d);
  }

  lemma MaybeFirst(present: bool, e: Elem)
    ensures SerAll(Maybe(present, e)) == MaybeBytes(present, e)
  {
    hide Ser, SerAll;
    NothingWritten();
    if present {
      SerOne(e);
    }
  }

  lemma MaybeFits(present: bool, e: Elem)
    requires FitAll(Maybe(present, e)) && present
    ensures Fits(e)
  {
    hide Fits, FitAll;
    FitAt([e], 0);
  }

  /** The ones whose sizes could overflow a VINT. */
  lemma LegacyParts(g: GroupOptions)
    requires FitAll(LegacyElems(g))
    ensures g.blockVirtual.Some? ==> |g.blockVirtual.value| < SIZE_LIMIT
    ensures g.slices != [] ==> |SerAll(SliceElems(g.slices))| < SIZE_LIMIT && FitAll(SliceElems(g.slices))
    ensures g.referenceFrame.Some? ==> |SerAll(FrameKids(g.referenceFrame))| < SIZE_LIMIT
  {
    hide Fits, FitAll, Int, SliceElems, FrameKids, Maybe, SerAll;
    var a, b := Bin(BLOCK_VIRTUAL, BytesOr(g.blockVirtual)), Int(REFERENCE_VIRTUAL, SignedOr(g.referenceVirtual));
    var c, d := Master(SLICES, SliceElems(g.slices)), Master(REFERENCE_FRAME, FrameKids(g.referenceFrame));
    var s1 := Maybe(g.blockVirtual.Some?, a);
    var s2 := s1 + Maybe(g.referenceVirtual.Some?, b);
    FitAppend(s2 + Maybe(g.slices != [], c), Maybe(g.referenceFrame.Some?, d));
    FitAppend(s2, Maybe(g.slices != [], c));
    FitAppend(s1, Maybe(g.referenceVirtual.Some?, b));
    if g.blockVirtual.Some? {
      MaybeFits(true, a);
      LeafParts(BLOCK_VIRTUAL, BytesOr(g.blockVirtual));
    }
    if g.slices != [] {
      MaybeFits(true, c);
      NodeParts(SLICES, SliceElems(g.slices));
    }
    if g.referenceFrame.Some? {
      MaybeFits(true, d);
      NodeParts(REFERENCE_FRAME, FrameKids(g.referenceFrame));
    }
  }

  lemma MaybeUintBytes(before: seq<Elem>, id: nat, v: Option<nat>)
    ensures SerAll(before + MaybeUint(id, v)) == SerAll(before) + MaybeBytes(v.Some?, Uint(id, NumberOr(v)))
  {
    hide Ser, SerAll, Uint, Maybe, MaybeBytes;
    MaybeSnoc(before, v.Some?, Uint(id, NumberOr(v)));
  }

  method WriteSlice(buf: seq<byte>, t: TimeSlice) returns (out: seq<byte>)
    requires TypedSlice(t) && |SerAll(SliceKids(t))| < SIZE_LIMIT
    ensures out == buf + Ser(Master(TIME_SLICE, SliceKids(t)))
  {
    hide Ser, SerAll, Uint, MaybeUint, MaybeBytes;
    var s1 := [] + MaybeUint(LACE_NUMBER, t.laceNumber);
    var s2 := s1 + MaybeUint(FRAME_NUMBER, t.frameNumber);
    var s3 := s2 + MaybeUint(TIME_SLICE_BLOCK_ADDITION_ID, t.additionId);
    var s4 := s3 + MaybeUint(DELAY, t.delay);
    NothingWritten();
    MaybeUintBytes([], LACE_NUMBER, t.laceNumber);
    MaybeUintBytes(s1, FRAME_NUMBER, t.frameNumber);
    MaybeUintBytes(s2, TIME_SLICE_BLOCK_ADDITION_ID, t.additionId);
    MaybeUintBytes(s3, DELAY, t.delay);
    MaybeUintBytes(s4, SLICE_DURATION, t.duration);
    assert s1 == MaybeUint(LACE_NUMBER, t.laceNumber);
    assert SliceKids(t) == s4 + MaybeUint(SLICE_DURATION, t.duration);
    var body := WriteOptionalUint([], LACE_NUMBER, t.laceNumber.Some?, NumberOr(t.laceNumber));
    body := WriteOptionalUint(body, FRAME_NUMBER, t.frameNumber.Some?, NumberOr(t.frameNumber));
    body := WriteOptionalUint(body, TIME_SLICE_BLOCK_ADDITION_ID, t.additionId.Some?, NumberOr(t.additionId));
    body := WriteOptionalUint(body, DELAY, t.delay.Some?, NumberOr(t.delay));
    body := WriteOptionalUint(body, SLICE_DURATION, t.duration.Some?, NumberOr(t.duration));
    out := WriteMasterElement(buf, TIME_SLICE, body, SliceKids(t));
  }

  method BuildSlices(ts: seq<TimeSlice>) returns (out: seq<byte>)
    requires FitAll(SliceElems(ts)) && forall i :: 0 <= i < |ts| ==> TypedSlice(ts[i])
    ensures out == SerAll(SliceElems(ts))
  {
    hide Ser, SerAll, Fits, FitAll, SliceKids, TypedSlice;
    NothingWritten();
    out := [];
    for i := 0 to |ts|
      invariant out == SerAll(SliceElems(ts)[..i])
    {
      FitAt(SliceElems(ts), i);
      NodeParts(TIME_SLICE, SliceKids(ts[i]));
      SerSplit(SliceElems(ts), i);
      out := WriteSlice(out, ts[i]);
    }
    assert SliceElems(ts)[..|ts|] == SliceElems(ts);
  }

  method BuildReferenceFrame(f: ReferenceFrame) returns (out: seq<byte>)
    requires Unsigned64(f.offset) && Unsigned64(f.timestamp)
    ensures out == SerAll(FrameKids(Some(f)))
  {
    hide Ser, SerAll, Uint, MaybeUint, MaybeBytes;
    NothingWritten();
    MaybeUintBytes([], REFERENCE_OFFSET, f.offset);
    assert [] + MaybeUint(REFERENCE_OFFSET, f.offset) == MaybeUint(REFERENCE_OFFSET, f.offset);
    MaybeUintBytes(MaybeUint(REFERENCE_OFFSET, f.offset), REFERENCE_TIMESTAMP, f.timestamp);
    out := WriteOptionalUint([], REFERENCE_OFFSET, f.offset.Some?, NumberOr(f.offset));
    out := WriteOptionalUint(out, REFERENCE_TIMESTAMP, f.timestamp.Some?, NumberOr(f.timestamp));
  }

  predicate TypedLegacy(g: GroupOptions) {
    && (g.referenceVirtual.Some? ==> Signed64(g.referenceVirtual.value))
    && (forall i :: 0 <= i < |g.slices| ==> TypedSlice(g.slices[i]))
    && (g.referenceFrame.Some? ==>
          Unsigned64(g.referenceFrame.value.offset) && Unsigned64(g.referenceFrame.value.timestamp))
  }

  method WriteLegacy(buf: seq<byte>, g: GroupOptions) returns (out: seq<byte>)
    requires FitAll(LegacyElems(g)) && TypedLegacy(g)
    ensures out == buf + SerAll(LegacyElems(g))
  {
    LegacyParts(g);
    LegacyBytes(g);
    hide Ser, SerAll, FitAll, Int, SliceElems, FrameKids, LegacyElems, TypedSlice;
    hide MaybeBytes;
    out := WriteOptionalBytes(buf, BLOCK_VIRTUAL, g.blockVirtual);
    out := WriteOptionalInt(out, REFERENCE_VIRTUAL, g.referenceVirtual);
    out := WriteSlices(out, g.slices);
    out := WriteReferenceFrame(out, g.referenceFrame);
    FourMore(buf, MaybeBytes(g.blockVirtual.Some?, Bin(BLOCK_VIRTUAL, BytesOr(g.blockVirtual))),
             MaybeBytes(g.referenceVirtual.Some?, Int(REFERENCE_VIRTUAL, SignedOr(g.referenceVirtual))),
             MaybeBytes(g.slices != [], Master(SLICES, SliceElems(g.slices))),
             MaybeBytes(g.referenceFrame.Some?, Master(REFERENCE_FRAME, FrameKids(g.referenceFrame))));
  }

  lemma FourMore(buf: seq<byte>, a: seq<byte>, b: seq<byte>, c: seq<byte>, d: seq<byte>)
    ensures buf + a + b + c + d == buf + (a + b + c + d)
  {
  }

  method WriteSlices(buf: seq<byte>, ts: seq<TimeSlice>) returns (out: seq<byte>)
    requires ts != [] ==> |SerAll(SliceElems(ts))| < SIZE_LIMIT && FitAll(SliceElems(ts))
    requires forall i :: 0 <= i < |ts| ==> TypedSlice(ts[i])
    ensures out == buf + MaybeBytes(ts != [], Master(SLICES, SliceElems(ts)))
  {
    hide Ser, SerAll, FitAll, SliceElems, TypedSlice;
    out := buf;
    if ts != [] {
      var slices := BuildSlices(ts);
      out := WriteMasterElement(out, SLICES, slices, SliceElems(ts));
    }
  }

  method WriteReferenceFrame(buf: seq<byte>, f: Option<ReferenceFrame>) returns (out: seq<byte>)
    requires f.Some? ==>
               |SerAll(FrameKids(f))| < SIZE_LIMIT && Unsigned64(f.value.offset) && Unsigned64(f.value.timestamp)
    ensures out == buf + MaybeBytes(f.Some?, Master(REFERENCE_FRAME, FrameKids(f)))
  {
    hide Ser, SerAll, FrameKids;
    out := buf;
    if f.Some? {
      var frame := BuildReferenceFrame(f.value);
      out := WriteMasterElement(out, REFERENCE_FRAME, frame, FrameKids(f));
    }
  }

  lemma MaybePresent(e: Elem)
    ensures Maybe(true, e) == [e]
  {
  }

  lemma CodecStateFits(g: GroupOptions, refs: seq<int>, duration: Option<nat>)
    requires FitAll(Siblings(g, refs, duration)) && g.codecState.Some?
    ensures |g.codecState.value| < SIZE_LIMIT
  {
    hide Fits, FitAll, Mores, References, Uint, Int;
    hide Siblings, Maybe;
    var before := Maybe(g.additions != [], Master(BLOCK_ADDITIONS, Mores(g.additions)))
                  + Maybe(duration.Some?, Uint(BLOCK_DURATION, NumberOr(duration)))
                  + Maybe(g.priority != 0, Uint(REFERENCE_PRIORITY, g.priority)) + References(refs);
    var after := Maybe(g.discardPadding.Some?, Int(DISCARD_PADDING, SignedOr(g.discardPadding))) + LegacyElems(g);
    var state := Bin(CODEC_STATE, g.codecState.value);
    SiblingsAre(g, refs, duration);
    MaybePresent(state);
    assert Siblings(g, refs, duration) == before + ([state] + after);
    FitAppend(before, [state] + after);
    FitAppend([state], after);
    FitAt([state], 0);
    LeafParts(CODEC_STATE, g.codecState.value);
  }

  /** The Block child: no key flag, no lacing. */
  method BuildPlainBlock(b: Block) returns (out: seq<byte>)
    requires b.track < SIZE_LIMIT && -0x8000 <= b.offset < 0x8000 && !b.key && b.mode == NoLacing && |b.frames| == 1
    ensures out == BlockBody(b)
  {
    hide Vint, OffsetBytes;
    var track := WriteVint(b.track, 0);
    var offset := WriteOffset(b.offset);
    out := track + offset + [0] + b.frames[0];
  }

  method BuildBlockGroup(b: Block, g: GroupOptions, refs: seq<int>, duration: Option<nat>) returns (out: seq<byte>)
    requires b.track < SIZE_LIMIT && -0x8000 <= b.offset < 0x8000 && !b.key && b.mode == NoLacing && |b.frames| == 1
    requires Typed(g, refs, duration)
    requires Fits(Master(BLOCK_GROUP, [Bin(BLOCK, BlockBody(b))] + Siblings(g, refs, duration)))
    ensures out == Ser(Master(BLOCK_GROUP, [Bin(BLOCK, BlockBody(b))] + Siblings(g, refs, duration)))
  {
    GroupBytes(b, g, refs, duration);
    GroupParts(b, g, refs, duration);
    hide Ser, SerAll, Fits, FitAll, Mores, References, Uint, Int, BlockBody, Siblings, MaybeBytes, LegacyElems,
      TypedLegacy;
    var block := BuildPlainBlock(b);
    var body := WriteBytesElement([], BLOCK, block);
    body := WriteAdditions(body, g);
    body := WriteOptionalUint(body, BLOCK_DURATION, duration.Some?, NumberOr(duration));
    body := WriteOptionalUint(body, REFERENCE_PRIORITY, g.priority != 0, g.priority);
    body := WriteReferences(body, refs);
    body := WriteOptionalBytes(body, CODEC_STATE, g.codecState);
    body := WriteOptionalInt(body, DISCARD_PADDING, g.discardPadding);
    body := WriteLegacy(body, g);
    out := WriteMasterElement([], BLOCK_GROUP, body, [Bin(BLOCK, BlockBody(b))] + Siblings(g, refs, duration));
  }

  method WriteAdditions(buf: seq<byte>, g: GroupOptions) returns (out: seq<byte>)
    requires g.additions != [] ==> |SerAll(Mores(g.additions))| < SIZE_LIMIT && FitAll(Mores(g.additions))
    requires forall i :: 0 <= i < |g.additions| ==> g.additions[i].id < TWO_TO_THE_64
    ensures out == buf + MaybeBytes(g.additions != [], Master(BLOCK_ADDITIONS, Mores(g.additions)))
  {
    hide Ser, SerAll, Mores, FitAll;
    out := buf;
    if g.additions != [] {
      var mores := BuildMores(g.additions);
      out := WriteMasterElement(out, BLOCK_ADDITIONS, mores, Mores(g.additions));
    }
  }

  method WriteOptionalUint(buf: seq<byte>, id: nat, present: bool, value: nat) returns (out: seq<byte>)
    requires ValidId(id) && value < TWO_TO_THE_64
    ensures out == buf + MaybeBytes(present, Uint(id, value))
  {
    hide Ser, Uint;
    out := buf;
    if present {
      out := WriteUintElement(buf, id, value);
    }
  }

  method WriteOptionalInt(buf: seq<byte>, id: nat, value: Option<int>) returns (out: seq<byte>)
    requires ValidId(id) && (value.Some? ==> Signed64(value.value))
    ensures out == buf + MaybeBytes(value.Some?, Int(id, SignedOr(value)))
  {
    hide Ser, Int;
    out := buf;
    if value.Some? {
      out := WriteIntElement(buf, id, value.value);
    }
  }

  method WriteOptionalBytes(buf: seq<byte>, id: nat, value: Option<seq<byte>>) returns (out: seq<byte>)
    requires ValidId(id) && (value.Some? ==> |value.value| < SIZE_LIMIT)
    ensures out == buf + MaybeBytes(value.Some?, Bin(id, BytesOr(value)))
  {
    hide Ser;
    out := buf;
    if value.Some? {
      out := WriteBytesElement(buf, id, value.value);
    }
  }

  // ----- key frames -----

  lemma {:induction false} ReferencesAreThere(refs: seq<int>)
    ensures |References(refs)| == |refs|
    ensures refs != [] ==> References(refs)[0].id == REFERENCE_BLOCK
  {
    hide Int;
    if refs != [] {
      ReferencesAreThere(refs[1..]);
      IntId(refs[0]);
    }
  }

  lemma IntId(v: int)
    ensures Int(REFERENCE_BLOCK, v).id == REFERENCE_BLOCK
  {
  }

  /** Among the optional children only the references have their ID. */
  lemma OthersAreNoReferences(g: GroupOptions, duration: Option<nat>)
    ensures Without(Siblings(g, [], duration), REFERENCE_BLOCK)
  {
    LegacyAreNoReferences(g);
    hide Mores, UintBytes, IntBytes, LegacyElems;
  }

  lemma LegacyAreNoReferences(g: GroupOptions)
    ensures Without(LegacyElems(g), REFERENCE_BLOCK)
  {
    hide SliceElems, FrameKids, IntBytes;
  }

  lemma ReferencesStand(g: GroupOptions, refs: seq<int>, duration: Option<nat>) returns (at: nat)
    requires refs != []
    ensures at < |Siblings(g, refs, duration)| && Siblings(g, refs, duration)[at] == References(refs)[0]
  {
    hide Mores, Uint, Int;
    ReferencesAreThere(refs);
    at := |(if g.additions == [] then [] else [Master(BLOCK_ADDITIONS, Mores(g.additions))])
           + (if duration.Some? then [Uint(BLOCK_DURATION, duration.value)] else [])
           + (if g.priority != 0 then [Uint(REFERENCE_PRIORITY, g.priority)] else [])|;
  }

  /**
   * Without references of the caller's own, a group tells a reader whether its frame is a key
   * frame: it has no ReferenceBlock exactly then. The derived reference leads back to the last
   * Block of the track.
   */
  lemma GroupTellsKeyFrames(s: State, p: Packet, g: GroupOptions, ms: int, duration: Option<nat>)
    requires p.stream < |s.lastPts| && g.references == []
    ensures var refs := ReferencesOf(s, p, g, ms);
            && (Without(Siblings(g, refs, duration), REFERENCE_BLOCK) <==> p.key)
            && (!p.key && s.lastPts[p.stream].Some? ==> |refs| == 1 && ms + refs[0] == s.lastPts[p.stream].value)
  {
    hide Siblings;
    var refs := ReferencesOf(s, p, g, ms);
    if refs == [] {
      OthersAreNoReferences(g, duration);
    } else {
      var at := ReferencesStand(g, refs, duration);
      ReferencesAreThere(refs);
    }
  }
}
