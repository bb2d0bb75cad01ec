/** Building the index, and filling the slot reserved for it in front of the Clusters. */
module FrontCues {
  import opened Wrappers
  import opened Bytes
  import opened Ebml
  import opened Ids
  import opened Elements
  import opened Voids
  import opened Cues

  lemma {:induction false} PositionsAppend(a: seq<CueRecord>, b: seq<CueRecord>)
    ensures Positions(a + b) == Positions(a) + Positions(b)
  {
    hide PositionFields;
    if a == [] {
      assert a + b == b;
    } else {
      assert (a + b)[1..] == a[1..] + b;
      PositionsAppend(a[1..], b);
    }
  }

  lemma PositionsGrow(entries: seq<CueRecord>, i: nat)
    requires i < |entries|
    ensures Positions(entries[..i + 1])
         == Positions(entries[..i]) + [Master(CUE_TRACK_POSITIONS, PositionFields(entries[i]))]
  {
    hide PositionFields;
    assert entries[..i + 1] == entries[..i] + [entries[i]];
    PositionsAppend(entries[..i], [entries[i]]);
    assert [entries[i]][1..] == [];
  }

  lemma {:induction false} PointsGrow(groups: seq<Group>, i: nat)
    requires i < |groups|
    ensures Points(groups[..i + 1]) == Points(groups[..i]) + [Master(CUE_POINT, PointKids(groups[i]))]
  {
    hide PointKids;
    if i == 0 {
      assert groups[..1][1..] == [] && groups[..0] == [];
    } else {
      PointsGrow(groups[1..], i - 1);
      assert groups[..i + 1][1..] == groups[1..][..i] && groups[..i][1..] == groups[1..][..i - 1];
    }
  }

  lemma GroupedGrow(cues: seq<CueRecord>, i: nat)
    requires i < |cues|
    ensures Grouped(cues[..i + 1]) == Insert(Grouped(cues[..i]), cues[i])
  {
    assert cues[..i + 1][..i] == cues[..i];
  }

  /** One CueTrackPositions, field by field. */
  method WritePosition(cp: seq<byte>, e: CueRecord) returns (out: seq<byte>)
    requires Narrow(e) && |SerAll(PositionFields(e))| < SIZE_LIMIT
    ensures out == cp + Ser(Master(CUE_TRACK_POSITIONS, PositionFields(e)))
  {
    hide Ser, SerAll, Uint, Master;
    var ctp := WriteUintElement([], CUE_TRACK, e.track);
    ctp := WriteUintElement(ctp, CUE_CLUSTER_POSITION, e.clusterOffset);
    ctp := WriteUintElement(ctp, CUE_RELATIVE_POSITION, e.relative);
    if e.duration.Some? {
      ctp := WriteUintElement(ctp, CUE_DURATION, e.duration.value);
    }
    ctp := WriteUintElement(ctp, CUE_BLOCK_NUMBER, e.block);
    FieldBytes(e);
    out := WriteMasterElement(cp, CUE_TRACK_POSITIONS, ctp, PositionFields(e));
  }

  lemma FieldBytes(e: CueRecord)
    ensures SerAll(PositionFields(e))
         == [] + Ser(Uint(CUE_TRACK, e.track)) + Ser(Uint(CUE_CLUSTER_POSITION, e.clusterOffset))
          + Ser(Uint(CUE_RELATIVE_POSITION, e.relative))
          + (if e.duration.Some? then Ser(Uint(CUE_DURATION, e.duration.value)) else [])
          + Ser(Uint(CUE_BLOCK_NUMBER, e.block))
  {
    hide Ser, SerAll, Uint;
    var x, y, z := Uint(CUE_TRACK, e.track), Uint(CUE_CLUSTER_POSITION, e.clusterOffset),
                   Uint(CUE_RELATIVE_POSITION, e.relative);
    var d := if e.duration.Some? then [Uint(CUE_DURATION, e.duration.value)] else [];
    var n := Uint(CUE_BLOCK_NUMBER, e.block);
    ThreeBytes(x, y, z);
    if e.duration.Some? {
      SerSnoc([x, y, z], d[0]);
    } else {
      assert [x, y, z] + d == [x, y, z];
      assert SerAll([x, y, z]) + [] == SerAll([x, y, z]);
    }
    assert [] + Ser(x) == Ser(x);
    SerSnoc([x, y, z] + d, n);
  }

  lemma ThreeBytes(x: Elem, y: Elem, z: Elem)
    ensures SerAll([x, y, z]) == Ser(x) + Ser(y) + Ser(z)
  {
    hide Ser;
    SerOne(x);
    SerSnoc([x], y);
    SerSnoc([x, y], z);
    assert [x, y, z] == [x, y] + [z] && [x, y] == [x] + [y];
  }

  /** One CuePoint: its time, then the entries of that time in order. */
  method WritePoint(body: seq<byte>, g: Group) returns (out: seq<byte>)
    requires g.time < TWO_TO_THE_64 && AllNarrow(g.entries) && Fits(Master(CUE_POINT, PointKids(g)))
    ensures out == body + Ser(Master(CUE_POINT, PointKids(g)))
  {
    hide Ser, SerAll, Uint, PositionFields, FitAll, Narrow;
    ghost var time := Uint(CUE_TIME, g.time);
    var cp := WriteUintElement([], CUE_TIME, g.time);
    SerOne(time);
    assert [time] + Positions(g.entries[..0]) == [time];
    for i := 0 to |g.entries|
      invariant cp == SerAll([time] + Positions(g.entries[..i]))
    {
      PositionsGrow(g.entries, i);
      EntryFits(g, i);
      ghost var p := Master(CUE_TRACK_POSITIONS, PositionFields(g.entries[i]));
      SerSnoc([time] + Positions(g.entries[..i]), p);
      assert [time] + Positions(g.entries[..i + 1]) == [time] + Positions(g.entries[..i]) + [p];
      cp := WritePosition(cp, g.entries[i]);
    }
    assert g.entries[..|g.entries|] == g.entries;
    out := WriteMasterElement(body, CUE_POINT, cp, PointKids(g));
  }

  lemma EntryFits(g: Group, i: nat)
    requires i < |g.entries| && FitAll(PointKids(g))
    ensures |SerAll(PositionFields(g.entries[i]))| < SIZE_LIMIT
  {
    hide Fits, PositionFields, SerAll, FitAll, Uint;
    PositionAt(g.entries, i);
    var p := Master(CUE_TRACK_POSITIONS, PositionFields(g.entries[i]));
    FitAppend([Uint(CUE_TIME, g.time)], Positions(g.entries));
    FitAt(Positions(g.entries), i);
    MasterFits(CUE_TRACK_POSITIONS, PositionFields(g.entries[i]));
  }

  lemma MasterFits(id: nat, kids: seq<Elem>)
    requires Fits(Master(id, kids))
    ensures |SerAll(kids)| < SIZE_LIMIT && FitAll(kids)
  {
  }

  lemma {:induction false} PositionAt(entries: seq<CueRecord>, i: nat)
    requires i < |entries|
    ensures |Positions(entries)| == |entries|
    ensures Positions(entries)[i] == Master(CUE_TRACK_POSITIONS, PositionFields(entries[i]))
  {
    hide PositionFields;
    if |entries| > 1 {
      PositionAt(entries[1..], if i > 0 then i - 1 else 0);
    }
  }

  lemma {:induction false} PointAt(groups: seq<Group>, i: nat)
    requires i < |groups|
    ensures |Points(groups)| == |groups|
    ensures Points(groups)[i] == Master(CUE_POINT, PointKids(groups[i]))
  {
    hide PointKids;
    if |groups| > 1 {
      PointAt(groups[1..], if i > 0 then i - 1 else 0);
    }
  }

  lemma {:induction false} GroupIsNarrow(groups: seq<Group>, i: nat)
    requires Uniform(groups) && AllNarrow(Flat(groups)) && i < |groups|
    ensures AllNarrow(groups[i].entries) && groups[i].time < TWO_TO_THE_64
  {
    hide Narrow, Uniform, AllNarrow;
    NarrowParts(groups);
    if i > 0 {
      GroupIsNarrow(groups[1..], i - 1);
    }
  }

  /** The whole index, or nothing when no cue was recorded. */
  method BuildCuesBytes(cues: seq<CueRecord>, strict: bool, minWidth: nat) returns (r: Option<seq<byte>>)
    requires AllNarrow(cues) && Fits(CuesElem(cues, strict, minWidth))
    ensures r == if cues == [] then None else Some(Ser(CuesElem(cues, strict, minWidth)))
  {
    hide Ser, SerAll, Fits, Insert, PointKids, Narrow, CrcChild, AllNarrow, Uniform, Vint, IdBytes;
    if cues == [] {
      return None;
    }
    var byTime: seq<Group> := [];
    for i := 0 to |cues|
      invariant byTime == Grouped(cues[..i])
    {
      GroupedGrow(cues, i);
      byTime := Insert(byTime, cues[i]);
    }
    assert cues[..|cues|] == cues;
    ghost var points := Points(byTime);
    PointsFit(cues, strict, minWidth);
    GroupedKeepsRecords(cues, 0);
    GroupedIsNarrow(cues);
    var body: seq<byte> := [];
    NoPoints();
    for i := 0 to |byTime|
      invariant body == SerAll(Points(byTime[..i]))
    {
      PointsGrow(byTime, i);
      PointAt(byTime, i);
      FitAt(points, i);
      GroupIsNarrow(byTime, i);
      SerSnoc(Points(byTime[..i]), points[i]);
      body := WritePoint(body, byTime[i]);
    }
    assert byTime[..|byTime|] == byTime;
    var id := WriteElementId(CUES);
    if strict {
      var size := WriteVint(|body|, minWidth);
      NodeBytes(CUES, minWidth, points);
      return Some(id + size + body);
    } else {
      var crc := BuildCrc32Child(body);
      SerAppend([CrcChild(body)], points);
      SerOne(CrcChild(body));
      var size := WriteVint(|crc| + |body|, minWidth);
      NodeBytes(CUES, minWidth, [CrcChild(body)] + points);
      return Some(id + size + (crc + body));
    }
  }

  lemma NoPoints()
    ensures SerAll(Points([])) == []
  {
  }

  lemma NodeBytes(id: nat, width: nat, kids: seq<Elem>)
    ensures Ser(Node(id, width, kids)) == IdBytes(id) + Vint(|SerAll(kids)|, width) + SerAll(kids)
  {
  }

  lemma PointsFit(cues: seq<CueRecord>, strict: bool, minWidth: nat)
    requires Fits(CuesElem(cues, strict, minWidth))
    ensures FitAll(Points(Grouped(cues))) && minWidth <= 8
    ensures |SerAll(CuesKids(cues, strict))| < SIZE_LIMIT
  {
    hide Points, Grouped, CrcChild, SerAll;
    var points := Points(Grouped(cues));
    FitAppend([CrcChild(SerAll(points))], points);
  }

  // ----- the reserved slot -----

  /** The size that the index's size VINT holds. */
  function InnerLength(cues: seq<CueRecord>, strict: bool): nat {
    |SerAll(CuesKids(cues, strict))|
  }

  /** Whether the remainder is the one byte that no Void can fill. */
  predicate OneShort(cues: seq<CueRecord>, strict: bool, reserved: nat) {
    |Ser(CuesElem(cues, strict, 0))| + 1 == reserved
  }

  /** What `write_front_cues` puts into the slot; `None` sends the index to the end of the file. */
  function SlotContent(cues: seq<CueRecord>, strict: bool, reserved: nat): Option<seq<Elem>>
    requires InnerLength(cues, strict) < SIZE_LIMIT && reserved < TWO_TO_THE_32
  {
    var width := if OneShort(cues, strict, reserved) then VintWidth(InnerLength(cues, strict), 0) + 1 else 0;
    var e := CuesElem(cues, strict, width);
    if |Ser(e)| > reserved then None
    else if reserved - |Ser(e)| >= 2 then Some([e, Void(reserved - |Ser(e)|)])
    else Some([e])
  }

  /** The slot is a `u32` long, so the size of an index that almost fits it takes few bytes. */
  lemma ShortIsNarrow(v: nat)
    requires v < TWO_TO_THE_32
    ensures VintWidth(v, 0) < 8
  {
    PowerTables();
  }

  lemma WiderByOne(v: nat)
    requires v < SIZE_LIMIT && VintWidth(v, 0) < 8
    ensures VintWidth(v, VintWidth(v, 0) + 1) == VintWidth(v, 0) + 1
  {
    PowerTables();
  }

  lemma CuesSize(cues: seq<CueRecord>, strict: bool, minWidth: nat)
    requires InnerLength(cues, strict) < SIZE_LIMIT && minWidth <= 8
    ensures |Ser(CuesElem(cues, strict, minWidth))|
         == 4 + VintWidth(InnerLength(cues, strict), minWidth) + InnerLength(cues, strict)
  {
    hide CuesKids, SerAll, VintWidth;
    NodeBytes(CUES, minWidth, CuesKids(cues, strict));
  }

  /**
   * The slot is used exactly when the index is no longer than it, and is then filled exactly:
   * one Cues element with the same children, and one Void or nothing.
   */
  lemma SlotIsTiled(cues: seq<CueRecord>, strict: bool, reserved: nat)
    requires InnerLength(cues, strict) < SIZE_LIMIT && reserved < TWO_TO_THE_32
    ensures SlotContent(cues, strict, reserved).Some? <==> |Ser(CuesElem(cues, strict, 0))| <= reserved
    ensures var s := SlotContent(cues, strict, reserved);
            s.Some? ==>
              && |SerAll(s.value)| == reserved
              && 1 <= |s.value| <= 2
              && s.value[0].Node? && s.value[0].id == CUES && s.value[0].kids == CuesKids(cues, strict)
              && s.value[0].width <= 8
              && (|s.value| == 2 ==> exists n :: VoidSize(n) && s.value[1] == Void(n))
  {
    hide Ser, SerAll, VintWidth, CuesKids, Void;
    var inner := InnerLength(cues, strict);
    CuesSize(cues, strict, 0);
    var width := if OneShort(cues, strict, reserved) then VintWidth(inner, 0) + 1 else 0;
    if OneShort(cues, strict, reserved) {
      ShortIsNarrow(inner);
      WiderByOne(inner);
      CuesSize(cues, strict, width);
    }
    var e := CuesElem(cues, strict, width);
    SerOne(e);
    if |Ser(e)| <= reserved && reserved - |Ser(e)| >= 2 {
      var v := Void(reserved - |Ser(e)|);
      VoidFillsExactly(reserved - |Ser(e)|, []);
      SerAppend([e], [v]);
      SerOne(v);
      assert [e, v] == [e] + [v];
    }
  }

  /** `cues_inner_len`: the size VINT behind the four ID bytes. */
  method CuesInnerLength(elem: seq<byte>, ghost cues: seq<CueRecord>, ghost strict: bool) returns (n: nat)
    requires elem == Ser(CuesElem(cues, strict, 0)) && InnerLength(cues, strict) < SIZE_LIMIT
    ensures n == InnerLength(cues, strict)
  {
    hide SerAll, CuesKids, Vint;
    ghost var kids := CuesKids(cues, strict);
    VintRoundTrip(InnerLength(cues, strict), 0, SerAll(kids));
    assert |IdBytes(CUES)| == 4;
    assert elem[4..] == Vint(|SerAll(kids)|, 0) + SerAll(kids);
    var r := ReadVint(elem[4..], false);
    n := r.value.0;
  }

  /** The bytes for the slot, or `None` for the fallback. */
  method FrontCuesSlot(cues: seq<CueRecord>, strict: bool, reserved: nat) returns (r: Option<seq<byte>>)
    requires cues != [] && AllNarrow(cues) && Fits(CuesElem(cues, strict, 0)) && reserved < TWO_TO_THE_32
    ensures match SlotContent(cues, strict, reserved)
            case None => r == None
            case Some(es) => r == Some(SerAll(es))
  {
    hide Ser, SerAll, Fits, VintWidth, CuesKids, Void, AllNarrow;
    PointsFit(cues, strict, 0);
    var built := BuildCuesBytes(cues, strict, 0);
    var out := built.value;
    ghost var e := CuesElem(cues, strict, 0);
    if |out| + 1 == reserved {
      var inner := CuesInnerLength(out, cues, strict);
      CuesSize(cues, strict, 0);
      ShortIsNarrow(inner);
      var minimal := WriteVint(inner, 0);
      e := CuesElem(cues, strict, |minimal| + 1);
      WiderFits(cues, strict, |minimal| + 1);
      var padded := BuildCuesBytes(cues, strict, |minimal| + 1);
      if padded.Some? {
        out := padded.value;
      }
    }
    if |out| > reserved {
      return None;
    }
    out := FillSlot(out, reserved, e);
    return Some(out);
  }

  /** The element, and a Void of what is left. */
  method FillSlot(bytes: seq<byte>, reserved: nat, ghost e: Elem) returns (out: seq<byte>)
    requires bytes == Ser(e) && |bytes| <= reserved < TWO_TO_THE_32
    ensures out == SerAll(if reserved - |bytes| >= 2 then [e, Void(reserved - |bytes|)] else [e])
  {
    hide Ser, SerAll, Void;
    SerOne(e);
    out := bytes;
    var remainder := reserved - |bytes|;
    if remainder >= 2 {
      var filler := MakeVoid(remainder);
      SerAppend([e], [Void(remainder)]);
      SerOne(Void(remainder));
      assert [e, Void(remainder)] == [e] + [Void(remainder)];
      out := out + filler;
    }
  }

  lemma WiderFits(cues: seq<CueRecord>, strict: bool, width: nat)
    requires Fits(CuesElem(cues, strict, 0)) && width <= 8
    ensures Fits(CuesElem(cues, strict, width))
  {
  }
}
