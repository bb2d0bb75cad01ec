/** Everything the muxer writes is a proper element and, under strict WebM, one of the profile. */
module MuxerProfile {
  import opened Wrappers
  import opened Bytes
  import opened Ebml
  import opened Ids
  import opened Elements
  import opened Lacing
  import opened WebmProfile
  import opened Scanner
  import opened TreeRules
  import opened Muxer

  /** Bounded, with legal IDs, no leaf under a master's ID; in the profile if that is asked. */
  predicate Proper(strict: bool, e: Elem) {
    && ValidId(e.id)
    && (strict ==> !OffProfile(e.id))
    && match e
       case Leaf(id, _, _) => !IsMaster(id)
       case Node(_, _, kids) => forall i :: 0 <= i < |kids| ==> Proper(strict, kids[i])
       case Open(_, _) => false
  }

  predicate AllProper(strict: bool, es: seq<Elem>) {
    forall i :: 0 <= i < |es| ==> Proper(strict, es[i])
  }

  /** A Cluster's children, none of which would end an unknown-size Cluster. */
  predicate ProperKids(strict: bool, es: seq<Elem>) {
    forall i :: 0 <= i < |es| ==> Proper(strict, es[i]) && !IsTopLevel(es[i].id)
  }

  predicate ProperItem(strict: bool, item: Item) {
    match item
    case Cluster(_, lead, blocks) =>
      ProperKids(strict, lead) && forall j :: 0 <= j < |blocks| ==> ProperBlock(strict, blocks[j])
    case Fixed(e) => Proper(strict, e) && e.id == TAGS
  }

  predicate ProperBlock(strict: bool, r: BlockRec) {
    r.siblings.Some? ==> AllProper(strict, r.siblings.value)
  }

  predicate ProperItems(c: Config, items: seq<Item>) {
    forall k :: 0 <= k < |items| ==> ProperItem(c.strict, items[k])
  }

  lemma ProperAppend(strict: bool, a: seq<Elem>, b: seq<Elem>)
    requires AllProper(strict, a) && AllProper(strict, b)
    ensures AllProper(strict, a + b)
  {
    hide Proper;
  }

  lemma ProperKidsAppend(strict: bool, a: seq<Elem>, b: seq<Elem>)
    requires ProperKids(strict, a) && ProperKids(strict, b)
    ensures ProperKids(strict, a + b)
  {
    hide Proper, IsTopLevel;
  }

  lemma MasterIsProper(strict: bool, id: nat, kids: seq<Elem>)
    requires ValidId(id) && (strict ==> !OffProfile(id)) && AllProper(strict, kids)
    ensures Proper(strict, Master(id, kids))
  {
    hide OffProfile;
  }

  /** In profile and proper for Matroska is proper for strict WebM. */
  lemma {:induction false} ProfileMakesProper(e: Elem)
    requires Proper(false, e) && InProfile(e)
    ensures Proper(true, e)
    decreases e, 1
  {
    hide OffProfile, IsMaster;
    if e.Node? {
      ProfileMakesAllProper(e.kids);
    }
  }

  lemma {:induction false} ProfileMakesAllProper(es: seq<Elem>)
    requires AllProper(false, es) && AllInProfile(es)
    ensures AllProper(true, es)
    decreases es, 0
  {
    hide Proper, OffProfile;
    if es != [] {
      assert forall i :: 0 <= i < |es| - 1 ==> es[1..][i] == es[i + 1];
      ProfileMakesProper(es[0]);
      ProfileMakesAllProper(es[1..]);
      forall i | 0 <= i < |es|
        ensures Proper(true, es[i])
      {
        if i > 0 {
          assert es[i] == es[1..][i - 1];
        }
      }
    }
  }

  // ----- the Cluster's own children -----

  lemma LeadIsProper(c: Config, ms: int, at: nat, prev: Option<nat>)
    ensures ProperKids(c.strict, Lead(c, ms, at, prev))
  {
    hide UintBytes;
    assert !OffProfile(TIMECODE) && !OffProfile(PREV_SIZE);
    assert !IsMaster(TIMECODE) && !IsMaster(PREV_SIZE) && !IsMaster(POSITION);
    hide OffProfile, IsMaster;
  }

  lemma {:induction false} SilentIsProper(numbers: seq<nat>)
    ensures AllProper(false, SilentElems(numbers))
  {
    hide UintBytes, OffProfile;
    if numbers != [] {
      assert !IsMaster(SILENT_TRACK_NUMBER);
      SilentIsProper(numbers[1..]);
    }
  }

  lemma FullLeadIsProper(c: Config, s: State, ms: int)
    requires !SilentBlocked(c, s)
    ensures ProperKids(c.strict, FullLead(c, s, ms))
  {
    hide Proper, Lead, Cursor, SilentElems, ProperKids;
    LeadIsProper(c, ms, Cursor(c, s), s.prevAt);
    if s.silent != [] {
      SilentIsProper(s.silent);
      MasterIsProper(false, SILENT_TRACKS, SilentElems(s.silent));
      OneProperKid(false, Master(SILENT_TRACKS, SilentElems(s.silent)));
      ProperKidsAppend(false, Lead(c, ms, Cursor(c, s), s.prevAt), [Master(SILENT_TRACKS, SilentElems(s.silent))]);
    } else {
      assert Lead(c, ms, Cursor(c, s), s.prevAt) + [] == Lead(c, ms, Cursor(c, s), s.prevAt);
    }
  }

  lemma OneProperKid(strict: bool, e: Elem)
    requires Proper(strict, e) && !IsTopLevel(e.id)
    ensures ProperKids(strict, [e])
  {
  }

  // ----- a BlockGroup's children -----

  lemma {:induction false} MoresAreProper(additions: seq<Addition>)
    ensures AllProper(true, Mores(additions)) && AllProper(false, Mores(additions))
  {
    hide UintBytes;
    if additions != [] {
      var a := additions[0];
      var kids := [Bin(BLOCK_ADDITIONAL, a.data)] + if a.id != 1 then [Uint(BLOCK_ADD_ID, a.id)] else [];
      assert !OffProfile(BLOCK_ADDITIONAL) && !OffProfile(BLOCK_ADD_ID) && !OffProfile(BLOCK_MORE);
      assert !IsMaster(BLOCK_ADDITIONAL) && !IsMaster(BLOCK_ADD_ID);
      hide OffProfile, IsMaster;
      assert AllProper(true, kids) && AllProper(false, kids);
      MasterIsProper(true, BLOCK_MORE, kids);
      MasterIsProper(false, BLOCK_MORE, kids);
      MoresAreProper(additions[1..]);
    }
  }

  lemma {:induction false} ReferencesAreProper(strict: bool, refs: seq<int>)
    ensures AllProper(strict, References(refs))
  {
    hide IntBytes;
    if refs != [] {
      assert !OffProfile(REFERENCE_BLOCK) && !IsMaster(REFERENCE_BLOCK);
      hide OffProfile, IsMaster;
      ReferencesAreProper(strict, refs[1..]);
    }
  }

  lemma LeafIsProper(strict: bool, id: nat, body: seq<byte>)
    requires ValidId(id) && !IsMaster(id) && (strict ==> !OffProfile(id))
    ensures AllProper(strict, [Leaf(id, 0, body)])
  {
    hide OffProfile, IsMaster;
  }

  /** The optional children, one by one; strict WebM has none of the last kinds. */
  lemma SiblingsAreProper(strict: bool, g: GroupOptions, refs: seq<int>, duration: Option<nat>)
    requires strict ==> !OffProfileGroup(g)
    ensures AllProper(strict, Siblings(g, refs, duration))
  {
    hide OffProfile, IsMaster, AllProper, Proper, UintBytes, IntBytes, Mores, References, LegacyElems;
    SiblingIds();
    NothingIsProper(strict);
    LegacyIsProper(strict, g);
    MoresAreProper(g.additions);
    MasterIsProper(strict, BLOCK_ADDITIONS, Mores(g.additions));
    OneIsProper(strict, Master(BLOCK_ADDITIONS, Mores(g.additions)));
    var a := if g.additions == [] then [] else [Master(BLOCK_ADDITIONS, Mores(g.additions))];
    var b := if duration.Some? then [Uint(BLOCK_DURATION, duration.value)] else [];
    var d := if g.priority != 0 then [Uint(REFERENCE_PRIORITY, g.priority)] else [];
    var e := if g.codecState.Some? then [Bin(CODEC_STATE, g.codecState.value)] else [];
    var f := if g.discardPadding.Some? then [Int(DISCARD_PADDING, g.discardPadding.value)] else [];
    if duration.Some? {
      LeafIsProper(strict, BLOCK_DURATION, b[0].body);
    }
    if g.priority != 0 {
      LeafIsProper(strict, REFERENCE_PRIORITY, d[0].body);
    }
    if g.codecState.Some? {
      LeafIsProper(strict, CODEC_STATE, e[0].body);
    }
    if g.discardPadding.Some? {
      LeafIsProper(strict, DISCARD_PADDING, f[0].body);
    }
    ReferencesAreProper(strict, refs);
    ProperAppend(strict, a, b);
    ProperAppend(strict, a + b, d);
    ProperAppend(strict, a + b + d, References(refs));
    ProperAppend(strict, a + b + d + References(refs), e);
    ProperAppend(strict, a + b + d + References(refs) + e, f);
    ProperAppend(strict, a + b + d + References(refs) + e + f, LegacyElems(g));
  }

  lemma SiblingIds()
    ensures !OffProfile(BLOCK_ADDITIONS) && !OffProfile(BLOCK_DURATION) && !OffProfile(DISCARD_PADDING)
    ensures !IsMaster(BLOCK_DURATION) && !IsMaster(REFERENCE_PRIORITY) && !IsMaster(CODEC_STATE)
    ensures !IsMaster(DISCARD_PADDING)
  {
  }

  lemma LegacyIds()
    ensures !IsMaster(LACE_NUMBER) && !IsMaster(FRAME_NUMBER) && !IsMaster(TIME_SLICE_BLOCK_ADDITION_ID)
            && !IsMaster(DELAY)
    ensures !IsMaster(SLICE_DURATION) && !IsMaster(REFERENCE_OFFSET) && !IsMaster(REFERENCE_TIMESTAMP)
    ensures !IsMaster(BLOCK_VIRTUAL) && !IsMaster(REFERENCE_VIRTUAL)
  {
  }

  lemma MaybeIsProper(strict: bool, present: bool, e: Elem)
    requires present ==> Proper(strict, e)
    ensures AllProper(strict, Maybe(present, e))
  {
    hide Proper;
  }

  lemma MaybeUintIsProper(id: nat, v: Option<nat>)
    requires ValidId(id) && !IsMaster(id)
    ensures AllProper(false, MaybeUint(id, v))
  {
    hide IsMaster, UintBytes, OffProfile;
  }

  lemma {:induction false} SlicesAreProper(ts: seq<TimeSlice>)
    ensures AllProper(false, SliceElems(ts))
  {
    LegacyIds();
    hide IsMaster, Proper, MaybeUint;
    forall i | 0 <= i < |ts|
      ensures Proper(false, SliceElems(ts)[i])
    {
      var t := ts[i];
      var a, b, c := MaybeUint(LACE_NUMBER, t.laceNumber), MaybeUint(FRAME_NUMBER, t.frameNumber),
                     MaybeUint(TIME_SLICE_BLOCK_ADDITION_ID, t.additionId);
      MaybeUintIsProper(LACE_NUMBER, t.laceNumber);
      MaybeUintIsProper(FRAME_NUMBER, t.frameNumber);
      MaybeUintIsProper(TIME_SLICE_BLOCK_ADDITION_ID, t.additionId);
      MaybeUintIsProper(DELAY, t.delay);
      MaybeUintIsProper(SLICE_DURATION, t.duration);
      ProperAppend(false, a, b);
      ProperAppend(false, a + b, c);
      ProperAppend(false, a + b + c, MaybeUint(DELAY, t.delay));
      ProperAppend(false, a + b + c + MaybeUint(DELAY, t.delay), MaybeUint(SLICE_DURATION, t.duration));
      MasterIsProper(false, TIME_SLICE, SliceKids(t));
    }
  }

  /** Strict WebM has none of the reclaimed children. */
  lemma LegacyIsProper(strict: bool, g: GroupOptions)
    requires strict ==> !OffProfileGroup(g)
    ensures AllProper(strict, LegacyElems(g))
  {
    LegacyIds();
    hide IsMaster, OffProfile, Proper, AllProper, IntBytes, SliceElems, FrameKids, Maybe;
    var a, b := Bin(BLOCK_VIRTUAL, BytesOr(g.blockVirtual)), Int(REFERENCE_VIRTUAL, SignedOr(g.referenceVirtual));
    var c, d := Master(SLICES, SliceElems(g.slices)), Master(REFERENCE_FRAME, FrameKids(g.referenceFrame));
    SlicesAreProper(g.slices);
    FrameIsProper(g.referenceFrame);
    MasterIsProper(false, SLICES, SliceElems(g.slices));
    MasterIsProper(false, REFERENCE_FRAME, FrameKids(g.referenceFrame));
    PlainLeaf(BLOCK_VIRTUAL, BytesOr(g.blockVirtual));
    PlainLeaf(REFERENCE_VIRTUAL, b.body);
    MaybeIsProper(strict, g.blockVirtual.Some?, a);
    MaybeIsProper(strict, g.referenceVirtual.Some?, b);
    MaybeIsProper(strict, g.slices != [], c);
    MaybeIsProper(strict, g.referenceFrame.Some?, d);
    var s1, s2 := Maybe(g.blockVirtual.Some?, a), Maybe(g.referenceVirtual.Some?, b);
    ProperAppend(strict, s1, s2);
    ProperAppend(strict, s1 + s2, Maybe(g.slices != [], c));
    ProperAppend(strict, s1 + s2 + Maybe(g.slices != [], c), Maybe(g.referenceFrame.Some?, d));
  }

  lemma PlainLeaf(id: nat, body: seq<byte>)
    requires ValidId(id) && !IsMaster(id)
    ensures Proper(false, Leaf(id, 0, body))
  {
    hide IsMaster, OffProfile;
  }

  lemma FrameIsProper(f: Option<ReferenceFrame>)
    ensures AllProper(false, FrameKids(f))
  {
    LegacyIds();
    hide IsMaster, Proper, MaybeUint;
    if f.Some? {
      MaybeUintIsProper(REFERENCE_OFFSET, f.value.offset);
      MaybeUintIsProper(REFERENCE_TIMESTAMP, f.value.timestamp);
      ProperAppend(false, MaybeUint(REFERENCE_OFFSET, f.value.offset),
                   MaybeUint(REFERENCE_TIMESTAMP, f.value.timestamp));
    }
  }

  lemma NothingIsProper(strict: bool)
    ensures AllProper(strict, [])
  {
  }

  lemma OneIsProper(strict: bool, e: Elem)
    requires Proper(strict, e)
    ensures AllProper(strict, [e])
  {
    hide Proper;
  }

  lemma BlockElemIsProper(strict: bool, r: BlockRec)
    requires ProperBlock(strict, r)
    ensures Proper(strict, BlockElem(r)) && !IsTopLevel(BlockElem(r).id)
  {
    assert !OffProfile(SIMPLE_BLOCK) && !OffProfile(BLOCK_GROUP) && !OffProfile(BLOCK);
    assert !IsMaster(SIMPLE_BLOCK) && !IsMaster(BLOCK);
    hide OffProfile, IsMaster, BlockBody, AllProper;
    if r.siblings.Some? {
      LeafIsProper(strict, BLOCK, BlockBody(r.block));
      ProperAppend(strict, [Bin(BLOCK, BlockBody(r.block))], r.siblings.value);
      MasterIsProper(strict, BLOCK_GROUP, [Bin(BLOCK, BlockBody(r.block))] + r.siblings.value);
    }
  }

  // ----- every step -----

  lemma PutProper(c: Config, items: seq<Item>, r: BlockRec)
    requires Last(items) && ProperItems(c, items) && ProperBlock(c.strict, r)
    ensures ProperItems(c, Put(items, r))
  {
    hide ProperBlock, Proper, IsTopLevel, ProperKids;
    var n := |items| - 1;
    assert ProperItem(c.strict, items[n]);
  }

  lemma FlushLaceProper(c: Config, s: State, i: nat)
    requires Ready(c, s) && i < |c.tracks| && ProperItems(c, s.items)
    ensures ProperItems(c, FlushLace(c, s, i).items)
  {
    hide Put, ProperItems, Datas, Cursor, BlockElem;
    if s.laces[i].frames != [] {
      PutProper(c, s.items, LaceBlock(c, i, s.laces[i]));
    }
  }

  lemma StartClusterProper(c: Config, s: State, ms: int)
    requires Ready(c, s) && NothingPending(s) && ProperItems(c, s.items) && !SilentBlocked(c, s)
    ensures ProperItems(c, StartCluster(c, s, ms).items)
  {
    hide FullLead, ProperKids, ProperBlock;
    FullLeadIsProper(c, s, ms);
  }

  lemma AbortedProper(c: Config, s: State, ms: int)
    requires ProperItems(c, s.items)
    ensures ProperItems(c, Aborted(c, s, ms).items)
  {
    hide Lead, ProperKids, ProperBlock;
    LeadIsProper(c, ms, Cursor(c, s), s.prevAt);
  }

  /** What a packet's group has to satisfy, once it is admitted. */
  predicate ProperGroup(strict: bool, group: Option<GroupOptions>) {
    group.Some? && strict ==> !OffProfileGroup(group.value)
  }

  lemma AdmittedIsProper(c: Config, p: Packet, wrap: Wrap)
    requires Admit(c, p.stream, wrap).Some?
    ensures ProperGroup(c.strict, Admit(c, p.stream, wrap).value)
  {
    hide Proper, AdditionsOk;
  }

  lemma PlaceProper(c: Config, s: State, f: Frame)
    requires Ready(c, s) && s.open && f.stream < |c.tracks| && ProperItems(c, s.items)
    requires ProperGroup(c.strict, OptionsOf(f))
    ensures ProperItems(c, Place(c, s, f).items)
  {
    hide Put, ProperItems, Cursor, BlockElem, FlushLace, Siblings, AllProper, Indexable;
    if f.group.None? && c.mode != NoLacing {
      if MustFlush(c, s.laces[f.stream], f) {
        FlushLaceProper(c, s, f.stream);
      }
    } else {
      if f.group.Some? {
        SiblingsAreProper(c.strict, f.group.value.options, f.group.value.references, f.length);
      }
      PutProper(c, s.items, UnlacedBlock(c, s, f));
    }
  }

  lemma LiveTagsProper(c: Config, items: seq<Item>, tags: seq<Elem>)
    requires ProperItems(c, items) && AllProper(c.strict, tags)
    ensures ProperItems(c, items + [Fixed(TopLevel(TAGS, tags, c.strict))])
  {
    assert !OffProfile(TAGS);
    hide OffProfile, AllProper, CrcChild;
    if c.strict {
      MasterIsProper(true, TAGS, tags);
    } else {
      CrcIsProper(SerAll(tags));
      ProperAppend(false, [CrcChild(SerAll(tags))], tags);
      MasterIsProper(false, TAGS, [CrcChild(SerAll(tags))] + tags);
    }
    assert ProperItem(c.strict, Fixed(TopLevel(TAGS, tags, c.strict)));
    hide ProperItem;
  }

  lemma CrcIsProper(data: seq<byte>)
    ensures AllProper(false, [CrcChild(data)])
  {
    assert !IsMaster(CRC32);
    hide IsMaster, OffProfile;
  }
}
