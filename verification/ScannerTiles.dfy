/**
 * What a scan without damage says about the file: whether the recorded elements cover it without
 * gap or overlap.
 */
module ScannerTiles {
  import opened Wrappers
  import opened Bytes
  import opened Ebml
  import opened Ids
  import opened Elements
  import opened WebmProfile
  import opened Scanner
  import opened ScannerOrder

  /**
   * Each recorded element begins where the one before it says the walk goes on: at its first
   * child, or behind its body.
   */
  predicate Tiles(v: seq<Event>, from: nat, to: nat) {
    if v == [] then from == to
    else v[0].Visit? && v[0].offset == from && Tiles(v[1..], v[0].reach, to)
  }

  /** No header crosses the end of the extent that its element was found in. */
  predicate Contained(v: seq<Event>) {
    v == [] || (v[0].Visit? && v[0].reach <= v[0].limit && Contained(v[1..]))
  }

  lemma {:induction false} TilesJoin(a: seq<Event>, b: seq<Event>, from: nat, mid: nat, to: nat)
    requires Tiles(a, from, mid) && Tiles(b, mid, to)
    ensures Tiles(a + b, from, to)
  {
    if a == [] {
      assert a + b == b;
    } else {
      assert (a + b)[1..] == a[1..] + b;
      TilesJoin(a[1..], b, a[0].reach, mid, to);
    }
  }

  lemma TilesStep(visit: Event, a: seq<Event>, b: seq<Event>, mid: nat, to: nat)
    requires visit.Visit? && Tiles(a, visit.reach, mid) && Tiles(b, mid, to)
    ensures Tiles([visit] + a + b, visit.offset, to)
  {
    TilesJoin(a, b, visit.reach, mid, to);
    assert ([visit] + a + b)[1..] == a + b;
  }

  lemma {:induction false} ContainedAppend(a: seq<Event>, b: seq<Event>)
    ensures Contained(a + b) <==> Contained(a) && Contained(b)
  {
    if a == [] {
      assert a + b == b;
    } else {
      assert (a + b)[1..] == a[1..] + b;
      ContainedAppend(a[1..], b);
    }
  }

  lemma ContainedStep(visit: Event, a: seq<Event>, b: seq<Event>)
    requires visit.Visit?
    ensures Contained([visit] + a + b) <==> visit.reach <= visit.limit && Contained(a) && Contained(b)
  {
    ContainedAppend([visit] + a, b);
    assert ([visit] + a)[1..] == a;
  }

  /** A clean walk whose headers stay inside their extents tiles the stretch it covers. */
  lemma {:induction false} WalkTiles(b: seq<byte>, pos: nat, end: nat, t: Terminator, depth: nat)
    requires pos <= end <= |b| && DepthOk(t, depth)
    requires var w := Walk(b, pos, end, t, depth); Clean(w.events) && Contained(Visits(w.events))
    ensures var w := Walk(b, pos, end, t, depth);
            && Tiles(Visits(w.events), pos, w.pos) && w.pos <= end && (t.Exact? ==> w.pos == end)
    decreases end - pos
  {
    hide Walk, Visits, Clean, Contained, Tiles, StepOf, DecodeHeader;
    var step := StepOf(b, pos, end, t, depth);
    if step.Done? || step.Torn? || step.Ended? {
      WalkStops(b, pos, end, t, depth);
      StopsClean(b, pos, end, t, depth);
    } else if step.Broken? {
      WalkBreaks(b, pos, end, t, depth);
      assert false;
    } else {
      var p := WalkParts(b, pos, end, t, depth);
      var a, rest := Visits(p.inside.events), Walk(b, p.mid, end, t, depth);
      ContainedStep(p.visit, a, Visits(rest.events));
      if step.Skipped? {
        TilesNothing(p.mid);
      } else {
        WalkTiles(b, p.visit.reach, p.limit, p.it, depth + 1);
      }
      WalkTiles(b, p.mid, end, t, depth);
      TilesStep(p.visit, a, Visits(rest.events), p.mid, rest.pos);
    }
  }

  lemma TilesNothing(at: nat)
    ensures Tiles([], at, at)
  {
  }

  /** The only stop of an exact extent that leaves no damage is its end. */
  lemma StopsClean(b: seq<byte>, pos: nat, end: nat, t: Terminator, depth: nat)
    requires end <= |b|
    requires var s := StepOf(b, pos, end, t, depth); s.Done? || s.Ended?
    ensures t.Exact? ==> pos >= end
    ensures Tiles([], pos, pos)
  {
  }

  // ----- the other direction -----

  /** A tiled stretch splits wherever its list of elements does. */
  lemma {:induction false} TilesSplit(a: seq<Event>, b: seq<Event>, from: nat, to: nat) returns (mid: nat)
    requires Tiles(a + b, from, to)
    ensures Tiles(a, from, mid) && Tiles(b, mid, to)
  {
    if a == [] {
      assert a + b == b;
      mid := from;
    } else {
      assert (a + b)[1..] == a[1..] + b;
      mid := TilesSplit(a[1..], b, a[0].reach, to);
    }
  }

  /** A walk that records anything records its first byte's element first; a clean one that does not stays. */
  lemma WalkStart(b: seq<byte>, pos: nat, end: nat, t: Terminator, depth: nat)
    requires end <= |b| && DepthOk(t, depth)
    ensures var v := Visits(Walk(b, pos, end, t, depth).events);
            if v == [] then Walk(b, pos, end, t, depth).pos == pos
            else pos < end && v[0].offset == pos
  {
    hide Visits, Walk;
    var step := StepOf(b, pos, end, t, depth);
    if step.Done? || step.Torn? || step.Ended? {
      WalkStops(b, pos, end, t, depth);
    } else if step.Broken? {
      WalkBreaks(b, pos, end, t, depth);
    } else {
      var _ := WalkParts(b, pos, end, t, depth);
    }
  }

  /** A clean walk of an exact extent gets to its end, or past it. */
  lemma {:induction false} CleanReachesEnd(b: seq<byte>, pos: nat, end: nat, depth: nat)
    requires end <= |b| && DepthOk(Exact, depth) && Clean(Walk(b, pos, end, Exact, depth).events)
    ensures Walk(b, pos, end, Exact, depth).pos >= end
    decreases if pos < end then end - pos else 0
  {
    hide Walk, Visits, Clean, StepOf, DecodeHeader;
    var step := StepOf(b, pos, end, Exact, depth);
    if step.Done? || step.Torn? || step.Ended? {
      WalkStops(b, pos, end, Exact, depth);
      StopsClean(b, pos, end, Exact, depth);
    } else if step.Broken? {
      WalkBreaks(b, pos, end, Exact, depth);
      assert false;
    } else {
      var p := WalkParts(b, pos, end, Exact, depth);
      CleanReachesEnd(b, p.mid, end, depth);
    }
  }

  /** A clean, tiled walk with a crossing header ends behind where it stopped, or behind its extent. */
  lemma {:induction false} CrossingShows(b: seq<byte>, pos: nat, end: nat, t: Terminator, depth: nat, to: nat)
    requires end <= |b| && DepthOk(t, depth)
    requires var w := Walk(b, pos, end, t, depth);
             Clean(w.events) && Tiles(Visits(w.events), pos, to) && !Contained(Visits(w.events))
    ensures to > Walk(b, pos, end, t, depth).pos || to > end
    decreases if pos < end then end - pos else 0
  {
    hide Walk, Visits, Clean, StepOf, Contained, DecodeHeader;
    var step := StepOf(b, pos, end, t, depth);
    if step.Done? || step.Torn? || step.Ended? {
      WalkStops(b, pos, end, t, depth);
      ContainedNothing();
    } else if step.Broken? {
      WalkBreaks(b, pos, end, t, depth);
      assert false;
    } else {
      var p := WalkParts(b, pos, end, t, depth);
      var a, rest := Visits(p.inside.events), Visits(Walk(b, p.mid, end, t, depth).events);
      var m := TilesSplit([p.visit] + a, rest, pos, to);
      assert ([p.visit] + a)[1..] == a;
      ContainedStep(p.visit, a, rest);
      ContainedNothing();
      WalkStart(b, p.mid, end, t, depth);
      if p.visit.reach > end {
        WalkStart(b, p.visit.reach, end, p.it, depth + 1);
      } else if !Contained(rest) {
        CrossingShows(b, p.mid, end, t, depth, to);
      } else {
        if step.Descended? {
          CleanReachesEnd(b, p.visit.reach, p.limit, depth + 1);
        }
        CrossingShows(b, p.visit.reach, p.limit, p.it, depth + 1, m);
      }
    }
  }

  lemma ContainedNothing()
    ensures Contained([])
  {
  }

  // ----- the condition, in bytes -----

  /**
   * The guard that the walk does not have, wherever it would be asked: the header of every
   * unknown-size master ends inside the extent that the master is found in.
   */
  predicate HeadersFit(b: seq<byte>, pos: nat, end: nat, t: Terminator, depth: nat)
    requires end <= |b| && DepthOk(t, depth)
    decreases if pos < end then end - pos else 0
  {
    if pos >= end || DecodeHeader(b[pos..]).Failure? then true
    else
      var h := DecodeHeader(b[pos..]).value;
      var body, next := pos + h.length, pos + h.length + h.size;
      match StepOf(b, pos, end, t, depth)
      case Opened =>
        && body <= end && HeadersFit(b, body, end, EndOf(h.id), depth + 1)
        && HeadersFit(b, Walk(b, body, end, EndOf(h.id), depth + 1).pos, end, t, depth)
      case Descended => HeadersFit(b, body, next, Exact, depth + 1) && HeadersFit(b, next, end, t, depth)
      case Skipped => HeadersFit(b, next, end, t, depth)
      case _ => true
  }

  /** Without damage, this is what the recorded elements show. */
  lemma {:induction false} FitIsContained(b: seq<byte>, pos: nat, end: nat, t: Terminator, depth: nat)
    requires end <= |b| && DepthOk(t, depth) && Clean(Walk(b, pos, end, t, depth).events)
    ensures Contained(Visits(Walk(b, pos, end, t, depth).events)) <==> HeadersFit(b, pos, end, t, depth)
    decreases if pos < end then end - pos else 0
  {
    hide Walk, Visits, Clean, Contained, DecodeHeader, IsMaster;
    var step := StepOf(b, pos, end, t, depth);
    ContainedNothing();
    if step.Done? || step.Torn? || step.Ended? {
      WalkStops(b, pos, end, t, depth);
    } else if step.Broken? {
      WalkBreaks(b, pos, end, t, depth);
      assert false;
    } else {
      var p := WalkParts(b, pos, end, t, depth);
      ContainedStep(p.visit, Visits(p.inside.events), Visits(Walk(b, p.mid, end, t, depth).events));
      FitIsContained(b, p.mid, end, t, depth);
      if step.Opened? || step.Descended? {
        FitIsContained(b, p.visit.reach, p.limit, p.it, depth + 1);
      }
    }
  }

  /**
   * A scan that reports no damage has covered the file, without gap or overlap, if and only if
   * no unknown-size header crosses the end of the bounded master it was found in.
   */
  lemma CleanScanTiles(b: seq<byte>)
    requires ScanReport(b).stoppedAt.None?
    ensures Tiles(Visits(ScanEvents(b)), 0, |b|) <==> HeadersFit(b, 0, |b|, Exact, 0)
  {
    hide Contained, Walk, Visits, Tiles, HeadersFit;
    var v := Visits(ScanEvents(b));
    ReportDamage(EMPTY_REPORT, ScanEvents(b));
    FitIsContained(b, 0, |b|, Exact, 0);
    if Contained(v) {
      WalkTiles(b, 0, |b|, Exact, 0);
    } else {
      CleanReachesEnd(b, 0, |b|, 0);
      if Tiles(v, 0, |b|) {
        CrossingShows(b, 0, |b|, Exact, 0, |b|);
      }
    }
  }

  /** At `p`, the header of an unknown-size Segment or Cluster crosses the position `e`. */
  predicate CrossesAt(b: seq<byte>, p: nat, e: nat) {
    p < e <= |b| &&
    match DecodeHeader(b[p..])
    case Failure(_) => false
    case Success(h) => h.size == UNKNOWN_SIZE && (h.id == SEGMENT || h.id == CLUSTER) && e < p + h.length
  }

  /** No bytes that read as such a header cross what reads as the end of a master before them. */
  ghost predicate NothingCrosses(b: seq<byte>) {
    forall q: nat, p: nat, e: nat :: MasterUpTo(b, q, e) && q < p ==> !CrossesAt(b, p, e)
  }

  /** That is enough, and takes no walk to see. */
  lemma {:induction false} FitsIfNothingCrosses(b: seq<byte>, pos: nat, end: nat, t: Terminator, depth: nat, q: nat)
    requires end <= |b| && DepthOk(t, depth) && NothingCrosses(b)
    requires end == |b| || (q < pos && MasterUpTo(b, q, end))
    ensures HeadersFit(b, pos, end, t, depth)
    decreases if pos < end then end - pos else 0
  {
    hide Walk, DecodeHeader, IsMaster, NothingCrosses;
    var step := StepOf(b, pos, end, t, depth);
    if step.Opened? || step.Descended? || step.Skipped? {
      var p := WalkParts(b, pos, end, t, depth);
      HeaderBounds(b[pos..]);
      FitsIfNothingCrosses(b, p.mid, end, t, depth, q);
      if step.Opened? {
        if end < |b| {
          NotCrossed(b, q, pos, end);
        }
        FitsIfNothingCrosses(b, p.visit.reach, end, p.it, depth + 1, q);
      } else if step.Descended? {
        FitsIfNothingCrosses(b, p.visit.reach, p.limit, Exact, depth + 1, pos);
      }
    }
  }

  lemma NotCrossed(b: seq<byte>, q: nat, p: nat, e: nat)
    requires NothingCrosses(b) && MasterUpTo(b, q, e) && q < p
    ensures !CrossesAt(b, p, e)
  {
  }

  lemma CleanScanTilesIfNothingCrosses(b: seq<byte>)
    requires ScanReport(b).stoppedAt.None? && NothingCrosses(b)
    ensures Tiles(Visits(ScanEvents(b)), 0, |b|)
  {
    hide Walk, Visits, Tiles, HeadersFit, NothingCrosses, ReportFrom;
    FitsIfNothingCrosses(b, 0, |b|, Exact, 0, 0);
    CleanScanTiles(b);
  }

  // ----- a file that scans clean and does not tile -----

  /** A BlockGroup of three bytes, then two more: a Cluster header starts inside and ends outside it. */
  function CrossingFile(): (b: seq<byte>)
    ensures |b| == 8
  {
    [0xA0, 0x83, 0x1F, 0x43, 0xB6, 0x75, 0xFF, 0x80]
  }

  lemma CleanScanCanOverlap()
    ensures ScanReport(CrossingFile()).stoppedAt.None?
    ensures !Tiles(Visits(ScanEvents(CrossingFile())), 0, |CrossingFile()|)
  {
    hide DecodeHeader, Walk, ReportFrom, Tiles, Contained, CrossingFile, IsMaster, HeadersFit;
    var b := CrossingFile();
    CrossingHeaders();
    CrossingWalk(b);
    var v := Visits(ScanEvents(b));
    ReportDamage(EMPTY_REPORT, ScanEvents(b));
    CrossingIsSeen(v[0], v[1], v[2]);
    FitIsContained(b, 0, |b|, Exact, 0);
    CleanScanTiles(b);
  }

  lemma CrossingWalk(b: seq<byte>)
    requires |b| == 8
    requires DecodeHeader(b[0..]) == Success(Header(0xA0, 3, 2))
    requires DecodeHeader(b[2..]) == Success(Header(CLUSTER, UNKNOWN_SIZE, 5))
    requires DecodeHeader(b[5..]) == Success(Header(0x75FF, 0, 3))
    ensures ScanEvents(b) == [Visit(0, 0xA0, 0, 2, 8), Visit(2, CLUSTER, 1, 7, 5), Visit(5, 0x75FF, 0, 8, 8)]
    ensures Visits(ScanEvents(b)) == ScanEvents(b) && Clean(ScanEvents(b))
  {
    hide DecodeHeader, Walk, Visits;
    WalkDone(b, 8, 8, Exact, 0);
    WalkLeaf(b, 5, 8, Exact, 0);
    WalkDone(b, 7, 5, AtTopLevel, 2);
    WalkDone(b, 7, 5, Exact, 1);
    WalkOpen(b, 2, 5, Exact, 1);
    WalkMaster(b, 0, 8, Exact, 0);
    VisitsOfThree(Visit(0, 0xA0, 0, 2, 8), Visit(2, CLUSTER, 1, 7, 5), Visit(5, 0x75FF, 0, 8, 8));
  }

  lemma VisitsOfThree(x: Event, y: Event, z: Event)
    requires x.Visit? && y.Visit? && z.Visit?
    ensures Visits([x, y, z]) == [x, y, z]
  {
    VisitsStep(x, [y], [z]);
    VisitsStep(y, [], []);
    VisitsStep(z, [], []);
    assert [y] + [] + [] == [y] && [z] + [] + [] == [z] && [x] + [y] + [z] == [x, y, z];
  }

  lemma CrossingIsSeen(x: Event, y: Event, z: Event)
    requires y.Visit? && y.reach > y.limit
    ensures !Contained([x, y, z])
  {
    assert [x, y, z][1..] == [y, z];
  }

  lemma CrossingHeaders()
    ensures var b := CrossingFile();
            && DecodeHeader(b[0..]) == Success(Header(0xA0, 3, 2))
            && DecodeHeader(b[2..]) == Success(Header(CLUSTER, UNKNOWN_SIZE, 5))
            && DecodeHeader(b[5..]) == Success(Header(0x75FF, 0, 3))
  {
    hide DecodeHeader;
    var b := CrossingFile();
    CrossingBytes();
    HeaderRoundTrip(0xA0, 3, 0, b[2..]);
    UnknownHeader(CLUSTER, b[7..]);
    HeaderRoundTrip(0x75FF, 0, 0, []);
    assert b[0..] == [0xA0] + [0x83] + b[2..];
    assert b[2..] == [0x1F, 0x43, 0xB6, 0x75] + [0xFF] + b[7..];
    assert b[5..] == [0x75, 0xFF] + [0x80] + [];
  }

  lemma CrossingBytes()
    ensures IdBytes(0xA0) == [0xA0] && Vint(3, 0) == [0x83] && VintWidth(3, 0) == 1
    ensures IdBytes(CLUSTER) == [0x1F, 0x43, 0xB6, 0x75]
    ensures IdBytes(0x75FF) == [0x75, 0xFF] && Vint(0, 0) == [0x80] && VintWidth(0, 0) == 1
  {
    OneByteHeader(0xA0, 3);
    OneByteHeader(0xA0, 0);
    assert BE(0x75FF, 2) == BE(0x75, 1) + [0xFF] && BE(0x75, 1) == BE(0, 0) + [0x75];
    ClusterIdBytes();
  }

  lemma ClusterIdBytes()
    ensures IdBytes(CLUSTER) == [0x1F, 0x43, 0xB6, 0x75]
  {
    assert BE(0x1F, 1) == BE(0, 0) + [0x1F];
    assert BE(0x1F43, 2) == BE(0x1F, 1) + [0x43];
    assert BE(0x1F43B6, 3) == BE(0x1F43, 2) + [0xB6];
    assert BE(0x1F43B675, 4) == BE(0x1F43B6, 3) + [0x75];
  }
}
