/**
 * The seek index: grouping by time, its bytes, a reader that gets the entries back, and the
 * exact filling of the space reserved for it in front of the Clusters.
 */
module Cues {
  import opened Wrappers
  import opened Bytes
  import opened Ebml
  import opened Ids
  import opened Elements
  import opened Splitter

  /** Every number is an unsigned 64-bit one in the source. */
  datatype CueRecord = CueRecord(
    track: nat, time: nat, clusterOffset: nat, relative: nat, block: nat, duration: Option<nat>)

  predicate Narrow(c: CueRecord) {
    && c.track < TWO_TO_THE_64 && c.time < TWO_TO_THE_64 && c.clusterOffset < TWO_TO_THE_64
    && c.relative < TWO_TO_THE_64 && c.block < TWO_TO_THE_64 && (c.duration.Some? ==> c.duration.value < TWO_TO_THE_64)
  }

  predicate AllNarrow(cues: seq<CueRecord>) {
    forall i :: 0 <= i < |cues| ==> Narrow(cues[i])
  }

  // ----- grouping: an ordered map from time to the records of that time -----

  datatype Group = Group(time: nat, entries: seq<CueRecord>)

  /** `by_time.entry(c.time_ms).or_default().push(c)` */
  function Insert(groups: seq<Group>, c: CueRecord): seq<Group> {
    if groups == [] || c.time < groups[0].time then [Group(c.time, [c])] + groups
    else if c.time == groups[0].time then [Group(c.time, groups[0].entries + [c])] + groups[1..]
    else [groups[0]] + Insert(groups[1..], c)
  }

  function Grouped(cues: seq<CueRecord>): seq<Group> {
    if cues == [] then [] else Insert(Grouped(cues[..|cues| - 1]), cues[|cues| - 1])
  }

  predicate Ascending(groups: seq<Group>) {
    forall i, j :: 0 <= i < j < |groups| ==> groups[i].time < groups[j].time
  }

  function Flat(groups: seq<Group>): seq<CueRecord> {
    if groups == [] then [] else groups[0].entries + Flat(groups[1..])
  }

  /** The records of one time, in the order given. */
  function AtTime(cues: seq<CueRecord>, t: nat): seq<CueRecord> {
    if cues == [] then []
    else (if cues[0].time == t then [cues[0]] else []) + AtTime(cues[1..], t)
  }

  /** Each group holds records of its own time, at least one. */
  predicate Uniform(groups: seq<Group>) {
    forall i :: 0 <= i < |groups| ==>
      && groups[i].entries != []
      && forall j :: 0 <= j < |groups[i].entries| ==> groups[i].entries[j].time == groups[i].time
  }

  predicate SortedByTime(cues: seq<CueRecord>) {
    forall i, j :: 0 <= i < j < |cues| ==> cues[i].time <= cues[j].time
  }

  lemma {:induction false} AtTimeAppend(a: seq<CueRecord>, b: seq<CueRecord>, t: nat)
    ensures AtTime(a + b, t) == AtTime(a, t) + AtTime(b, t)
  {
    if a == [] {
      assert a + b == b;
    } else {
      assert (a + b)[1..] == a[1..] + b;
      AtTimeAppend(a[1..], b, t);
      CuesAssoc(if a[0].time == t then [a[0]] else [], AtTime(a[1..], t), AtTime(b, t));
    }
  }

  lemma CuesAssoc(a: seq<CueRecord>, b: seq<CueRecord>, c: seq<CueRecord>)
    ensures a + b + c == a + (b + c)
  {
  }

  lemma {:induction false} AtTimeAll(cues: seq<CueRecord>, t: nat, same: nat)
    requires forall j :: 0 <= j < |cues| ==> cues[j].time == same
    ensures AtTime(cues, t) == if t == same then cues else []
  {
    if cues != [] {
      AtTimeAll(cues[1..], t, same);
      assert cues == [cues[0]] + cues[1..];
    }
  }

  predicate Above(groups: seq<Group>, t: int) {
    forall i :: 0 <= i < |groups| ==> t < groups[i].time
  }

  lemma {:induction false} InsertKeepsOrder(groups: seq<Group>, c: CueRecord, floor: int)
    requires Ascending(groups) && Uniform(groups) && Above(groups, floor) && floor < c.time
    ensures Ascending(Insert(groups, c)) && Uniform(Insert(groups, c)) && Above(Insert(groups, c), floor)
    ensures Insert(groups, c) != []
  {
    if groups != [] && c.time > groups[0].time {
      var rest := Insert(groups[1..], c);
      InsertKeepsOrder(groups[1..], c, groups[0].time);
      JoinGroups(groups[0], rest, floor);
    } else if groups != [] && c.time == groups[0].time {
      JoinGroups(Group(c.time, groups[0].entries + [c]), groups[1..], floor);
    } else {
      JoinGroups(Group(c.time, [c]), groups, floor);
    }
  }

  lemma JoinGroups(g: Group, rest: seq<Group>, floor: int)
    requires Ascending(rest) && Uniform(rest) && Above(rest, g.time) && floor < g.time
    requires g.entries != [] && forall j :: 0 <= j < |g.entries| ==> g.entries[j].time == g.time
    ensures Ascending([g] + rest) && Uniform([g] + rest) && Above([g] + rest, floor)
  {
    assert forall i :: 0 < i <= |rest| ==> ([g] + rest)[i] == rest[i - 1];
  }

  /** A group whose time is above `t` holds nothing of time `t`. */
  lemma {:induction false} NothingBelow(groups: seq<Group>, t: nat)
    requires Uniform(groups) && Above(groups, t)
    ensures AtTime(Flat(groups), t) == []
  {
    if groups != [] {
      AtTimeAll(groups[0].entries, t, groups[0].time);
      AtTimeAppend(groups[0].entries, Flat(groups[1..]), t);
      NothingBelow(groups[1..], t);
    }
  }

  /** Inserting a record appends it to the records of its time and touches no other time. */
  lemma {:induction false} InsertAppends(groups: seq<Group>, c: CueRecord, t: nat)
    requires Ascending(groups) && Uniform(groups)
    ensures AtTime(Flat(Insert(groups, c)), t) == AtTime(Flat(groups), t) + if t == c.time then [c] else []
  {
    hide Ascending, Uniform, AtTime;
    if groups == [] || c.time < groups[0].time {
      FlatOne(Group(c.time, [c]), groups);
      OneAtTime(c, t);
      AtTimeAppend([c], Flat(groups), t);
      if t == c.time {
        AllAbove(groups, t);
        NothingBelow(groups, t);
      }
    } else if c.time == groups[0].time {
      FlatOne(Group(c.time, groups[0].entries + [c]), groups[1..]);
      OneAtTime(c, t);
      AtTimeAppend(groups[0].entries, [c], t);
      AtTimeAppend(groups[0].entries + [c], Flat(groups[1..]), t);
      AtTimeAppend(groups[0].entries, Flat(groups[1..]), t);
      TailGroups(groups);
      if t == c.time {
        NothingBelow(groups[1..], t);
      }
    } else {
      FlatOne(groups[0], Insert(groups[1..], c));
      AtTimeAppend(groups[0].entries, Flat(Insert(groups[1..], c)), t);
      AtTimeAppend(groups[0].entries, Flat(groups[1..]), t);
      TailGroups(groups);
      InsertAppends(groups[1..], c, t);
    }
  }

  lemma FlatOne(g: Group, rest: seq<Group>)
    ensures Flat([g] + rest) == g.entries + Flat(rest)
  {
    assert ([g] + rest)[1..] == rest;
  }

  lemma OneAtTime(c: CueRecord, t: nat)
    ensures AtTime([c], t) == if t == c.time then [c] else []
  {
    assert [c][1..] == [];
  }

  lemma AllAbove(groups: seq<Group>, t: nat)
    requires Ascending(groups) && Uniform(groups) && (groups == [] || t < groups[0].time)
    ensures Above(groups, t) && Uniform(groups)
  {
  }

  lemma TailGroups(groups: seq<Group>)
    requires Ascending(groups) && Uniform(groups) && groups != []
    ensures Ascending(groups[1..]) && Uniform(groups[1..]) && Above(groups[1..], groups[0].time)
  {
    assert forall i :: 0 <= i < |groups| - 1 ==> groups[1..][i] == groups[i + 1];
  }

  /**
   * Grouping keeps the meaning: strictly increasing times, one non-empty group each, and for
   * every time exactly the records of that time in the order they were recorded.
   */
  lemma {:induction false} GroupedKeepsRecords(cues: seq<CueRecord>, t: nat)
    ensures Ascending(Grouped(cues)) && Uniform(Grouped(cues))
    ensures AtTime(Flat(Grouped(cues)), t) == AtTime(cues, t)
  {
    hide Insert, Ascending, Uniform, AtTime;
    if cues == [] {
      NoGroups(t);
    } else {
      var init, c := cues[..|cues| - 1], cues[|cues| - 1];
      GroupedKeepsRecords(init, t);
      EverythingAbove(Grouped(init));
      InsertKeepsOrder(Grouped(init), c, -1);
      InsertAppends(Grouped(init), c, t);
      assert cues == init + [c];
      AtTimeAppend(init, [c], t);
      OneAtTime(c, t);
    }
  }

  lemma NoGroups(t: nat)
    ensures Ascending([]) && Uniform([]) && AtTime(Flat([]), t) == AtTime([], t)
  {
  }

  lemma EverythingAbove(groups: seq<Group>)
    ensures Above(groups, -1)
  {
  }

  /** The flattened groups are sorted by time: with `GroupedKeepsRecords`, the stable sort of the records. */
  lemma {:induction false} FlatIsSorted(groups: seq<Group>)
    requires Ascending(groups) && Uniform(groups)
    ensures SortedByTime(Flat(groups))
    ensures forall i :: 0 <= i < |Flat(groups)| && groups != [] ==> groups[0].time <= Flat(groups)[i].time
  {
    if groups != [] {
      TailGroups(groups);
      FlatIsSorted(groups[1..]);
    }
  }

  /** A sorted list is determined by its records at each time, so the stable sort is unique. */
  lemma {:induction false} StableSortIsUnique(a: seq<CueRecord>, b: seq<CueRecord>)
    requires SortedByTime(a) && SortedByTime(b)
    requires forall t: nat :: AtTime(a, t) == AtTime(b, t)
    ensures a == b
  {
    if a == [] && b == [] {
    } else {
      SameStart(a, b);
      assert AtTime(a, a[0].time)[0] == a[0] && AtTime(b, a[0].time)[0] == b[0];
      forall t: nat
        ensures AtTime(a[1..], t) == AtTime(b[1..], t)
      {
        assert AtTime(a, t) == AtTime(b, t);
        var head := if a[0].time == t then [a[0]] else [];
        assert AtTime(a, t) == head + AtTime(a[1..], t) && AtTime(b, t) == head + AtTime(b[1..], t);
        assert AtTime(a, t)[|head|..] == AtTime(a[1..], t) && AtTime(b, t)[|head|..] == AtTime(b[1..], t);
      }
      StableSortIsUnique(a[1..], b[1..]);
    }
  }

  lemma {:induction false} SameStart(a: seq<CueRecord>, b: seq<CueRecord>)
    requires SortedByTime(a) && SortedByTime(b) && (a != [] || b != [])
    requires forall t: nat :: AtTime(a, t) == AtTime(b, t)
    ensures a != [] && b != [] && a[0].time == b[0].time
  {
    var t := if a == [] || (b != [] && b[0].time < a[0].time) then b[0].time else a[0].time;
    if a == [] || t < a[0].time {
      NoneEarlier(a, t);
    }
    if b == [] || t < b[0].time {
      NoneEarlier(b, t);
    }
    assert AtTime(a, t) == AtTime(b, t);
  }

  lemma {:induction false} NoneEarlier(cues: seq<CueRecord>, t: nat)
    requires SortedByTime(cues) && (cues == [] || t < cues[0].time)
    ensures AtTime(cues, t) == []
  {
    if cues != [] {
      NoneEarlier(cues[1..], t);
    }
  }

  // ----- the bytes -----

  function PositionFields(c: CueRecord): seq<Elem> {
    [Uint(CUE_TRACK, c.track), Uint(CUE_CLUSTER_POSITION, c.clusterOffset), Uint(CUE_RELATIVE_POSITION, c.relative)]
    + (if c.duration.Some? then [Uint(CUE_DURATION, c.duration.value)] else [])
    + [Uint(CUE_BLOCK_NUMBER, c.block)]
  }

  function Positions(entries: seq<CueRecord>): seq<Elem> {
    if entries == [] then []
    else [Master(CUE_TRACK_POSITIONS, PositionFields(entries[0]))] + Positions(entries[1..])
  }

  function PointKids(g: Group): seq<Elem> {
    [Uint(CUE_TIME, g.time)] + Positions(g.entries)
  }

  function Points(groups: seq<Group>): seq<Elem> {
    if groups == [] then [] else [Master(CUE_POINT, PointKids(groups[0]))] + Points(groups[1..])
  }

  function CuesKids(cues: seq<CueRecord>, strict: bool): seq<Elem> {
    var points := Points(Grouped(cues));
    if strict then points else [CrcChild(SerAll(points))] + points
  }

  /** The Cues element with a size VINT of at least `minWidth` bytes. */
  function CuesElem(cues: seq<CueRecord>, strict: bool, minWidth: nat): Elem {
    Node(CUES, minWidth, CuesKids(cues, strict))
  }

  // ----- reading the index back (section 5.1.5 of RFC 9559) -----

  function ReadPosition(time: nat, fields: seq<Raw>): Option<CueRecord> {
    var trackBody :- Find(fields, 0xF7);
    var track :- UintBody(trackBody);
    var offsetBody :- Find(fields, 0xF1);
    var offset :- UintBody(offsetBody);
    var relativeBody :- Find(fields, 0xF0);
    var relative :- UintBody(relativeBody);
    var blockBody :- Find(fields, 0x5378);
    var block :- UintBody(blockBody);
    match Find(fields, 0xB2)
    case None => Some(CueRecord(track, time, offset, relative, block, None))
    case Some(durationBody) =>
      var duration :- UintBody(durationBody);
      Some(CueRecord(track, time, offset, relative, block, Some(duration)))
  }

  function ReadPositions(time: nat, raws: seq<Raw>): Option<seq<CueRecord>> {
    if raws == [] then Some([])
    else if raws[0].id != 0xB7 then ReadPositions(time, raws[1..])
    else
      var fields :- Split(raws[0].body);
      var entry :- ReadPosition(time, fields);
      var rest :- ReadPositions(time, raws[1..]);
      Some([entry] + rest)
  }

  function ReadPoint(body: seq<byte>): Option<Group> {
    var raws :- Split(body);
    var timeBody :- Find(raws, 0xB3);
    var time :- UintBody(timeBody);
    var entries :- ReadPositions(time, raws);
    Some(Group(time, entries))
  }

  function ReadPoints(raws: seq<Raw>): Option<seq<Group>> {
    if raws == [] then Some([])
    else if raws[0].id != 0xBB then ReadPoints(raws[1..])
    else
      var point :- ReadPoint(raws[0].body);
      var rest :- ReadPoints(raws[1..]);
      Some([point] + rest)
  }

  /** The CuePoints of a whole Cues element. */
  function ReadCues(s: seq<byte>): Option<seq<Group>> {
    var top :- Split(s);
    var body :- Find(top, 0x1C53BB6B);
    ReadIndex(body)
  }

  /** The CuePoints in the data of a Cues element. */
  function ReadIndex(body: seq<byte>): Option<seq<Group>> {
    var raws :- Split(body);
    ReadPoints(raws)
  }

  lemma FieldsSplit(c: CueRecord)
    requires Narrow(c)
    ensures Bounded(PositionFields(c))
    ensures Split(SerAll(PositionFields(c))) == Some(RawsOf(PositionFields(c)))
  {
    hide Fits, Uint, Split, SerAll;
    UintFits(CUE_TRACK, c.track);
    UintFits(CUE_CLUSTER_POSITION, c.clusterOffset);
    UintFits(CUE_RELATIVE_POSITION, c.relative);
    UintFits(CUE_BLOCK_NUMBER, c.block);
    if c.duration.Some? {
      UintFits(CUE_DURATION, c.duration.value);
      UintIsLeaf(CUE_DURATION, c.duration.value);
      BoundedOne(Uint(CUE_DURATION, c.duration.value));
    } else {
      BoundedNone();
    }
    UintIsLeaf(CUE_TRACK, c.track);
    UintIsLeaf(CUE_CLUSTER_POSITION, c.clusterOffset);
    UintIsLeaf(CUE_RELATIVE_POSITION, c.relative);
    BoundedThree(Uint(CUE_TRACK, c.track), Uint(CUE_CLUSTER_POSITION, c.clusterOffset),
                 Uint(CUE_RELATIVE_POSITION, c.relative));
    UintIsLeaf(CUE_BLOCK_NUMBER, c.block);
    BoundedOne(Uint(CUE_BLOCK_NUMBER, c.block));
    var middle := if c.duration.Some? then [Uint(CUE_DURATION, c.duration.value)] else [];
    var first := [Uint(CUE_TRACK, c.track), Uint(CUE_CLUSTER_POSITION, c.clusterOffset),
                  Uint(CUE_RELATIVE_POSITION, c.relative)];
    RawsAppend(first, middle);
    RawsAppend(first + middle, [Uint(CUE_BLOCK_NUMBER, c.block)]);
    SplitInvertsSer(PositionFields(c));
  }

  lemma UintIsLeaf(id: nat, v: nat)
    ensures Uint(id, v).Leaf? && Uint(id, v).id == id
  {
  }

  lemma BoundedNone()
    ensures Bounded([])
  {
  }

  lemma BoundedOne(e: Elem)
    requires e.Leaf? && Fits(e)
    ensures Bounded([e])
  {
  }

  lemma BoundedThree(x: Elem, y: Elem, z: Elem)
    requires x.Leaf? && y.Leaf? && z.Leaf? && Fits(x) && Fits(y) && Fits(z)
    ensures Bounded([x, y, z])
  {
    hide Fits;
    BoundedMore(z, []);
    BoundedMore(y, [z]);
    BoundedMore(x, [y, z]);
    assert [x] + ([y] + ([z] + [])) == [x, y, z] && [y] + [z] == [y, z] && [z] + [] == [z];
  }

  lemma {:induction false} BoundedMore(e: Elem, rest: seq<Elem>)
    requires e.Leaf? && Fits(e) && Bounded(rest)
    ensures Bounded([e] + rest)
  {
    hide Fits;
    assert ([e] + rest)[1..] == rest;
  }

  lemma RawsOne(e: Elem, rest: seq<Elem>)
    ensures RawsOf([e] + rest) == [RawOf(e)] + RawsOf(rest)
  {
    assert ([e] + rest)[1..] == rest;
  }

  lemma FindOne(raw: Raw, rest: seq<Raw>, id: nat)
    ensures Find([raw] + rest, id) == if raw.id == id then Some(raw.body) else Find(rest, id)
  {
    assert ([raw] + rest)[1..] == rest;
  }

  lemma FindField(e: Elem, rest: seq<Elem>, id: nat)
    ensures Find(RawsOf([e] + rest), id) == if e.id == id then Some(Body(e)) else Find(RawsOf(rest), id)
  {
    RawsOne(e, rest);
    FindOne(RawOf(e), RawsOf(rest), id);
  }

  lemma FieldLookups(c: CueRecord)
    ensures var f := RawsOf(PositionFields(c));
            && Find(f, CUE_TRACK) == Some(Body(Uint(CUE_TRACK, c.track)))
            && Find(f, CUE_CLUSTER_POSITION) == Some(Body(Uint(CUE_CLUSTER_POSITION, c.clusterOffset)))
            && Find(f, CUE_RELATIVE_POSITION) == Some(Body(Uint(CUE_RELATIVE_POSITION, c.relative)))
            && Find(f, CUE_BLOCK_NUMBER) == Some(Body(Uint(CUE_BLOCK_NUMBER, c.block)))
            && Find(f, CUE_DURATION) == if c.duration.Some? then Some(Body(Uint(CUE_DURATION, c.duration.value)))
               else None
  {
    hide Body, Find, RawsOf;
    var fields := PositionFields(c);
    var number := [Uint(CUE_BLOCK_NUMBER, c.block)];
    var fromDuration := (if c.duration.Some? then [Uint(CUE_DURATION, c.duration.value)] else []) + number;
    var fromRelative := [Uint(CUE_RELATIVE_POSITION, c.relative)] + fromDuration;
    var fromOffset := [Uint(CUE_CLUSTER_POSITION, c.clusterOffset)] + fromRelative;
    assert fields == [Uint(CUE_TRACK, c.track)] + fromOffset;
    assert number == number[..1] + [];
    FindNothing(CUE_DURATION);
    forall id: nat
      ensures Find(RawsOf(number), id) == if id == CUE_BLOCK_NUMBER then Some(Body(number[0])) else Find(RawsOf([]), id)
    {
      FindField(number[0], [], id);
      assert [number[0]] + [] == number;
    }
    forall id: nat
      ensures Find(RawsOf(fromDuration), id)
           == if c.duration.Some? && id == CUE_DURATION then Some(Body(Uint(CUE_DURATION, c.duration.value)))
              else Find(RawsOf(number), id)
    {
      if c.duration.Some? {
        FindField(Uint(CUE_DURATION, c.duration.value), number, id);
      } else {
        assert fromDuration == number;
      }
    }
    forall id: nat
      ensures Find(RawsOf(fields), id)
           == if id == CUE_TRACK then Some(Body(Uint(CUE_TRACK, c.track)))
              else if id == CUE_CLUSTER_POSITION then Some(Body(Uint(CUE_CLUSTER_POSITION, c.clusterOffset)))
              else if id == CUE_RELATIVE_POSITION then Some(Body(Uint(CUE_RELATIVE_POSITION, c.relative)))
              else Find(RawsOf(fromDuration), id)
    {
      FindField(Uint(CUE_TRACK, c.track), fromOffset, id);
      FindField(Uint(CUE_CLUSTER_POSITION, c.clusterOffset), fromRelative, id);
      FindField(Uint(CUE_RELATIVE_POSITION, c.relative), fromDuration, id);
    }
  }

  lemma FindNothing(id: nat)
    ensures Find(RawsOf([]), id) == None
  {
  }

  lemma PositionReads(c: CueRecord)
    requires Narrow(c)
    ensures ReadPosition(c.time, RawsOf(PositionFields(c))) == Some(c)
  {
    hide Find, UintBody, PositionFields, RawsOf, Body, Uint;
    FieldLookups(c);
    UintBodyReads(CUE_TRACK, c.track);
    UintBodyReads(CUE_CLUSTER_POSITION, c.clusterOffset);
    UintBodyReads(CUE_RELATIVE_POSITION, c.relative);
    UintBodyReads(CUE_BLOCK_NUMBER, c.block);
    if c.duration.Some? {
      UintBodyReads(CUE_DURATION, c.duration.value);
    }
  }

  lemma {:induction false} PositionsRead(entries: seq<CueRecord>, time: nat)
    requires AllNarrow(entries) && forall i :: 0 <= i < |entries| ==> entries[i].time == time
    ensures ReadPositions(time, RawsOf(Positions(entries))) == Some(entries)
  {
    hide Split, ReadPosition, PositionFields, SerAll;
    if entries != [] {
      var c := entries[0];
      FieldsSplit(c);
      PositionReads(c);
      PositionsRead(entries[1..], time);
      RawsOne(Master(CUE_TRACK_POSITIONS, PositionFields(c)), Positions(entries[1..]));
      assert entries == [c] + entries[1..];
    }
  }

  lemma PointReads(g: Group)
    requires AllNarrow(g.entries) && g.time < TWO_TO_THE_64
    requires forall i :: 0 <= i < |g.entries| ==> g.entries[i].time == g.time
    requires FitAll(PointKids(g))
    ensures ReadPoint(SerAll(PointKids(g))) == Some(g)
  {
    hide Split, ReadPositions, Positions, FitAll, Uint, UintBody, Body, Find, SerAll;
    var rest := Positions(g.entries);
    PointIsBounded(g);
    SplitInvertsSer(PointKids(g));
    FindField(Uint(CUE_TIME, g.time), rest, CUE_TIME);
    UintIsLeaf(CUE_TIME, g.time);
    UintBodyReads(CUE_TIME, g.time);
    RawsOne(Uint(CUE_TIME, g.time), rest);
    PositionsRead(g.entries, g.time);
    ReadPositionsSkip(g.time, RawOf(Uint(CUE_TIME, g.time)), RawsOf(rest));
  }

  lemma ReadPositionsSkip(time: nat, raw: Raw, rest: seq<Raw>)
    requires raw.id != CUE_TRACK_POSITIONS
    ensures ReadPositions(time, [raw] + rest) == ReadPositions(time, rest)
  {
    assert ([raw] + rest)[1..] == rest;
  }

  lemma {:induction false} PositionsBounded(entries: seq<CueRecord>)
    requires FitAll(Positions(entries))
    ensures Bounded(Positions(entries))
  {
    hide Fits, PositionFields;
    if entries != [] {
      var e := Master(CUE_TRACK_POSITIONS, PositionFields(entries[0]));
      assert ([e] + Positions(entries[1..]))[1..] == Positions(entries[1..]);
      PositionsBounded(entries[1..]);
    }
  }

  lemma PointIsBounded(g: Group)
    requires FitAll(PointKids(g))
    ensures Bounded(PointKids(g))
  {
    hide Fits, Positions;
    assert PointKids(g)[1..] == Positions(g.entries);
    PositionsBounded(g.entries);
  }

  lemma {:induction false} PointsRead(groups: seq<Group>)
    requires Uniform(groups) && AllNarrow(Flat(groups)) && FitAll(Points(groups))
    ensures ReadPoints(RawsOf(Points(groups))) == Some(groups) && Bounded(Points(groups))
  {
    hide Split, ReadPoint, PointKids, Narrow, SerAll;
    if groups != [] {
      var g, rest := groups[0], Points(groups[1..]);
      var e := Master(CUE_POINT, PointKids(g));
      assert ([e] + rest)[1..] == rest;
      NarrowParts(groups);
      PointReads(g);
      PointsRead(groups[1..]);
      RawsOne(e, rest);
      ReadPointsStep(RawOf(e), RawsOf(rest));
      assert groups == [g] + groups[1..];
    }
  }

  lemma ReadPointsStep(raw: Raw, rest: seq<Raw>)
    requires raw.id == CUE_POINT && ReadPoint(raw.body).Some? && ReadPoints(rest).Some?
    ensures ReadPoints([raw] + rest) == Some([ReadPoint(raw.body).value] + ReadPoints(rest).value)
  {
    assert ([raw] + rest)[1..] == rest;
  }

  lemma NarrowAppend(a: seq<CueRecord>, b: seq<CueRecord>)
    ensures AllNarrow(a + b) <==> AllNarrow(a) && AllNarrow(b)
  {
    hide Narrow;
    if AllNarrow(a + b) {
      assert forall i :: 0 <= i < |a| ==> a[i] == (a + b)[i];
      assert forall i :: 0 <= i < |b| ==> b[i] == (a + b)[|a| + i];
    }
  }

  lemma {:induction false} NarrowParts(groups: seq<Group>)
    requires Uniform(groups) && AllNarrow(Flat(groups)) && groups != []
    ensures AllNarrow(groups[0].entries) && AllNarrow(Flat(groups[1..])) && Uniform(groups[1..])
    ensures groups[0].time < TWO_TO_THE_64
  {
    NarrowAppend(groups[0].entries, Flat(groups[1..]));
    assert Narrow(groups[0].entries[0]);
  }

  /** The data of the index give the groups back, with or without the CRC-32 child. */
  lemma IndexReadsBack(cues: seq<CueRecord>, strict: bool)
    requires AllNarrow(cues) && FitAll(CuesKids(cues, strict))
    ensures ReadIndex(SerAll(CuesKids(cues, strict))) == Some(Grouped(cues))
  {
    hide Split, ReadPoints, Points, Grouped, FitAll, Narrow, CrcChild, Bounded, Ser;
    var points := Points(Grouped(cues));
    GroupedKeepsRecords(cues, 0);
    GroupedIsNarrow(cues);
    var crc := CrcChild(SerAll(points));
    FitAppend([crc], points);
    assert FitAll(points);
    PointsRead(Grouped(cues));
    RawsOne(crc, points);
    CrcIsBounded(SerAll(points));
    RawsAppend([crc], points);
    SplitInvertsSer(CuesKids(cues, strict));
    CrcIsSkipped(crc, RawsOf(points));
  }

  /**
   * Any reader gets the groups back from the bytes of the index, whatever the padding of its
   * size VINT, with or without the CRC-32 child.
   */
  lemma CuesReadBack(cues: seq<CueRecord>, strict: bool, minWidth: nat)
    requires AllNarrow(cues) && Fits(CuesElem(cues, strict, minWidth))
    ensures ReadCues(Ser(CuesElem(cues, strict, minWidth))) == Some(Grouped(cues))
  {
    var e := CuesElem(cues, strict, minWidth);
    assert FitAll(e.kids);
    hide CuesKids, ReadIndex, Grouped, FitAll, Ser, Split, Fits;
    IndexReadsBack(cues, strict);
    OneElement(e);
  }

  lemma CrcIsBounded(data: seq<byte>)
    ensures Bounded([CrcChild(data)]) && CrcChild(data).id == CRC32
  {
    assert ValidId(CRC32);
  }

  lemma CrcIsSkipped(crc: Elem, rest: seq<Raw>)
    requires crc.id == CRC32
    ensures ReadPoints([RawOf(crc)] + rest) == ReadPoints(rest)
  {
    assert ([RawOf(crc)] + rest)[1..] == rest;
  }

  lemma OneElement(e: Elem)
    requires !e.Open? && Fits(e)
    ensures Split(Ser(e)) == Some([RawOf(e)]) && Find([RawOf(e)], e.id) == Some(Body(e))
  {
    hide Fits, Split, Ser, Body;
    SerOne(e);
    assert [e][1..] == [];
    SplitInvertsSer([e]);
    assert [e] + [] == [e];
    RawsOne(e, []);
    assert [RawOf(e)] + [] == [RawOf(e)];
    FindOne(RawOf(e), [], e.id);
  }

  lemma {:induction false} GroupedIsNarrow(cues: seq<CueRecord>)
    requires AllNarrow(cues)
    ensures AllNarrow(Flat(Grouped(cues)))
  {
    hide Narrow, Insert;
    if cues != [] {
      var init := cues[..|cues| - 1];
      GroupedIsNarrow(init);
      InsertIsNarrow(Grouped(init), cues[|cues| - 1]);
    }
  }

  lemma {:induction false} InsertIsNarrow(groups: seq<Group>, c: CueRecord)
    requires AllNarrow(Flat(groups)) && Narrow(c)
    ensures AllNarrow(Flat(Insert(groups, c)))
  {
    hide Narrow;
    hide Flat, AllNarrow;
    OneIsNarrow(c);
    if groups == [] || c.time < groups[0].time {
      FlatOne(Group(c.time, [c]), groups);
      NarrowAppend([c], Flat(groups));
    } else {
      FlatOne(groups[0], groups[1..]);
      assert groups == [groups[0]] + groups[1..];
      NarrowAppend(groups[0].entries, Flat(groups[1..]));
      if c.time == groups[0].time {
        FlatOne(Group(c.time, groups[0].entries + [c]), groups[1..]);
        NarrowAppend(groups[0].entries, [c]);
        NarrowAppend(groups[0].entries + [c], Flat(groups[1..]));
      } else {
        FlatOne(groups[0], Insert(groups[1..], c));
        InsertIsNarrow(groups[1..], c);
        NarrowAppend(groups[0].entries, Flat(Insert(groups[1..], c)));
      }
    }
  }

  lemma OneIsNarrow(c: CueRecord)
    requires Narrow(c)
    ensures AllNarrow([c])
  {
  }
}
