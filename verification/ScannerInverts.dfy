/**
 * The scanner inverts the serialiser: on the bytes of a well-formed document the scan records
 * exactly the document's elements, in preorder, at their offsets, and reports no damage.
 */
module ScannerInverts {
  import opened Wrappers
  import opened Bytes
  import opened Ebml
  import opened Ids
  import opened WebmProfile
  import opened Elements
  import opened Scanner
  import opened ScannerOrder
  import opened ScannerTiles

  // ----- well-formed documents, and what a scan should see in them -----

  predicate NoneEnds(t: Terminator, es: seq<Elem>) {
    es == [] || (!Ends(t, es[0].id) && NoneEnds(t, es[1..]))
  }

  /** A leaf has no master's ID; only Segment and Cluster are open, and none of their children ends them. */
  predicate WellFormed(e: Elem)
    decreases e, 1
  {
    match e
    case Leaf(id, width, body) => ValidId(id) && width <= 8 && |body| < SIZE_LIMIT && !IsMaster(id)
    case Node(id, width, kids) => ValidId(id) && width <= 8 && |SerAll(kids)| < SIZE_LIMIT && WellFormedAll(kids)
    case Open(id, kids) => (id == SEGMENT || id == CLUSTER) && NoneEnds(EndOf(id), kids) && WellFormedAll(kids)
  }

  /** An open master is followed by a sibling that ends it, or by nothing. */
  predicate WellFormedAll(es: seq<Elem>)
    decreases es, 0
  {
    es == []
    || (WellFormed(es[0]) && (es[0].Open? && |es| > 1 ==> Ends(EndOf(es[0].id), es[1].id)) && WellFormedAll(es[1..]))
  }

  /** The events of scanning `e` at `off`, `depth` levels down, in an extent that ends at `limit`. */
  function Events(e: Elem, off: nat, depth: nat, limit: nat): seq<Event>
    decreases e, 1
  {
    var body, next := off + |Head(e)|, off + |Ser(e)|;
    match e
    case Leaf(id, _, bytes) => [Visit(off, id, depth, next, limit)] + DocTypeText(id, depth, bytes)
    case Node(id, _, kids) =>
      if IsMaster(id) && depth < MAX_DEPTH
      then [Visit(off, id, depth, body, limit)] + EventsAll(kids, body, depth + 1, next)
      else [Visit(off, id, depth, next, limit)] + DocTypeText(id, depth, SerAll(kids))
    case Open(id, kids) => [Visit(off, id, depth, body, limit)] + EventsAll(kids, body, depth + 1, limit)
  }

  function EventsAll(es: seq<Elem>, off: nat, depth: nat, limit: nat): seq<Event>
    decreases es, 0
  {
    if es == [] then []
    else Events(es[0], off, depth, limit) + EventsAll(es[1..], off + |Ser(es[0])|, depth, limit)
  }

  // ----- the walk over serialised bytes -----

  predicate At(b: seq<byte>, off: nat, s: seq<byte>) {
    off + |s| <= |b| && b[off..off + |s|] == s
  }

  lemma AtSplit(b: seq<byte>, off: nat, s: seq<byte>, t: seq<byte>)
    requires At(b, off, s + t)
    ensures At(b, off, s) && At(b, off + |s|, t)
  {
    assert b[off..off + |s + t|][..|s|] == s;
    assert b[off..off + |s + t|][|s|..] == t;
  }

  lemma WellFormedHead(e: Elem)
    requires WellFormed(e)
    ensures HeadFits(e)
  {
    hide IsMaster, WellFormedAll, SerAll;
  }

  /** The walk sees the header of an element that lies at `off`, and the body behind it. */
  lemma ElementAt(b: seq<byte>, off: nat, e: Elem)
    requires At(b, off, Ser(e)) && WellFormed(e)
    ensures DecodeHeader(b[off..]) == Success(Header(e.id, SizeField(e), |Head(e)|))
    ensures At(b, off + |Head(e)|, Body(e))
    ensures |Ser(e)| == |Head(e)| + |Body(e)| && |Head(e)| >= 2
  {
    hide DecodeHeader, WellFormed, Ser, Head, Body, SizeField, HeadFits;
    SerIsHeadThenBody(e);
    WellFormedHead(e);
    AtSplit(b, off, Head(e), Body(e));
    var tail := b[off + |Head(e)|..];
    assert b[off..] == Head(e) + tail;
    HeaderDecodes(e, tail);
  }

  /** A bounded element that the scan does not look into. */
  lemma WalkBounded(b: seq<byte>, off: nat, end: nat, t: Terminator, depth: nat, e: Elem)
    requires off + |Ser(e)| <= end <= |b| && DepthOk(t, depth)
    requires At(b, off, Ser(e)) && WellFormed(e) && !Ends(t, e.id)
    requires !e.Open? && !(e.Node? && IsMaster(e.id) && depth < MAX_DEPTH)
    ensures var rest := Walk(b, off + |Ser(e)|, end, t, depth);
            Walk(b, off, end, t, depth) == Trace(Events(e, off, depth, end) + rest.events, rest.pos)
  {
    hide Walk, DecodeHeader, IsMaster, DocTypeText, Ser, Head, SerAll, WellFormedAll;
    ElementAt(b, off, e);
    WalkLeaf(b, off, end, t, depth);
  }

  /** The walk of an extent with terminator `t` stops at `pos` at once and without damage. */
  predicate Boundary(b: seq<byte>, pos: nat, end: nat, t: Terminator)
    requires end <= |b|
  {
    pos == end || (pos < end && DecodeHeader(b[pos..]).Success? && Ends(t, DecodeHeader(b[pos..]).value.id))
  }

  /** What follows the list closes its last element, if that one is open. */
  predicate Closed(b: seq<byte>, pos: nat, end: nat, es: seq<Elem>)
    requires end <= |b|
  {
    es != [] && es[|es| - 1].Open? ==> Boundary(b, pos, end, EndOf(es[|es| - 1].id))
  }

  lemma BoundaryStops(b: seq<byte>, pos: nat, end: nat, t: Terminator, depth: nat)
    requires end <= |b| && DepthOk(t, depth) && Boundary(b, pos, end, t)
    ensures Walk(b, pos, end, t, depth) == Trace([], pos)
  {
    if pos == end {
      WalkDone(b, pos, end, t, depth);
    } else {
      WalkEnded(b, pos, end, t, depth);
    }
  }

  /** A master that the scan looks into: the walk of its body, then the walk behind it. */
  lemma WalkInto(b: seq<byte>, off: nat, end: nat, t: Terminator, depth: nat, e: Elem)
    requires off + |Ser(e)| <= end <= |b| && DepthOk(t, depth)
    requires At(b, off, Ser(e)) && WellFormed(e) && !Ends(t, e.id)
    requires e.Open? || (e.Node? && IsMaster(e.id) && depth < MAX_DEPTH)
    ensures At(b, off + |Head(e)|, SerAll(e.kids)) && off + |Head(e)| + |SerAll(e.kids)| == off + |Ser(e)|
    ensures WellFormedAll(e.kids) && (e.Open? ==> NoneEnds(EndOf(e.id), e.kids) && (e.id == SEGMENT || e.id == CLUSTER))
    ensures var body, next := off + |Head(e)|, off + |Ser(e)|;
            var it, limit := if e.Open? then EndOf(e.id) else Exact, if e.Open? then end else next;
            && DepthOk(it, depth + 1)
            && var inner := Walk(b, body, limit, it, depth + 1);
               var rest := Walk(b, if e.Open? then inner.pos else next, end, t, depth);
               Walk(b, off, end, t, depth) ==
               Trace([Visit(off, e.id, depth, body, end)] + inner.events + rest.events, rest.pos)
  {
    hide Walk, DecodeHeader, IsMaster, Ser, SerAll, Head, At, WellFormedAll, NoneEnds;
    ElementAt(b, off, e);
    if e.Open? {
      WalkOpen(b, off, end, t, depth);
    } else {
      WalkMaster(b, off, end, t, depth);
    }
  }

  /** Walking over one element's bytes leaves its events and goes on behind it. */
  lemma {:induction false} WalkElement(b: seq<byte>, off: nat, end: nat, t: Terminator, depth: nat, e: Elem)
    requires off + |Ser(e)| <= end <= |b| && DepthOk(t, depth)
    requires At(b, off, Ser(e)) && WellFormed(e) && !Ends(t, e.id)
    requires e.Open? ==> Boundary(b, off + |Ser(e)|, end, EndOf(e.id))
    ensures var rest := Walk(b, off + |Ser(e)|, end, t, depth);
            Walk(b, off, end, t, depth) == Trace(Events(e, off, depth, end) + rest.events, rest.pos)
    decreases e, 1
  {
    hide Walk, DecodeHeader, IsMaster, DocTypeText, Ser, SerAll, Head, At, Boundary, Closed, NoneEnds, WellFormed,
      WellFormedAll, EventsAll, DepthOk, Ends, EndOf;
    var body, next := off + |Head(e)|, off + |Ser(e)|;
    if e.Open? {
      WalkInto(b, off, end, t, depth, e);
      OpenKidsClose(b, next, end, e.id, e.kids);
      WalkList(b, body, end, EndOf(e.id), depth + 1, e.kids);
      BoundaryStops(b, next, end, EndOf(e.id), depth + 1);
    } else if e.Node? && IsMaster(e.id) && depth < MAX_DEPTH {
      WalkInto(b, off, end, t, depth, e);
      ExactNeverEnds(e.kids);
      EndCloses(b, next, e.kids);
      WalkList(b, body, next, Exact, depth + 1, e.kids);
      WalkDone(b, next, next, Exact, depth + 1);
    } else {
      WalkBounded(b, off, end, t, depth, e);
    }
  }

  lemma EndCloses(b: seq<byte>, end: nat, es: seq<Elem>)
    requires end <= |b|
    ensures Closed(b, end, end, es)
  {
  }

  lemma {:induction false} ExactNeverEnds(es: seq<Elem>)
    ensures NoneEnds(Exact, es)
  {
    if es != [] {
      ExactNeverEnds(es[1..]);
    }
  }

  /** What closes a Segment also closes a Cluster that is its last child. */
  lemma OpenKidsClose(b: seq<byte>, pos: nat, end: nat, id: nat, kids: seq<Elem>)
    requires end <= |b| && (id == SEGMENT || id == CLUSTER)
    requires NoneEnds(EndOf(id), kids) && WellFormedAll(kids) && Boundary(b, pos, end, EndOf(id))
    ensures Closed(b, pos, end, kids)
  {
    if kids != [] && kids[|kids| - 1].Open? {
      LastIsFine(EndOf(id), kids);
    }
  }

  lemma {:induction false} LastIsFine(t: Terminator, es: seq<Elem>)
    requires NoneEnds(t, es) && WellFormedAll(es) && es != []
    ensures !Ends(t, es[|es| - 1].id) && WellFormed(es[|es| - 1])
  {
    if |es| > 1 {
      LastIsFine(t, es[1..]);
    }
  }

  lemma {:induction false} WalkList(b: seq<byte>, off: nat, end: nat, t: Terminator, depth: nat, es: seq<Elem>)
    requires off + |SerAll(es)| <= end <= |b| && DepthOk(t, depth)
    requires At(b, off, SerAll(es)) && WellFormedAll(es) && NoneEnds(t, es)
    requires Closed(b, off + |SerAll(es)|, end, es)
    ensures var rest := Walk(b, off + |SerAll(es)|, end, t, depth);
            Walk(b, off, end, t, depth) == Trace(EventsAll(es, off, depth, end) + rest.events, rest.pos)
    decreases es, 0
  {
    hide Walk, DecodeHeader, Events, Head, Ser, SerAll, At, Boundary, Closed, WellFormed, WellFormedAll, NoneEnds,
      EventsAll;
    if es == [] {
      NothingToWalk(off, depth, end);
    } else {
      var e, mid := es[0], off + |Ser(es[0])|;
      ListParts(b, off, end, t, depth, es);
      WalkElement(b, off, end, t, depth, e);
      WalkList(b, mid, end, t, depth, es[1..]);
    }
  }

  lemma NothingToWalk(off: nat, depth: nat, end: nat)
    ensures SerAll([]) == [] && EventsAll([], off, depth, end) == []
  {
  }

  /** The first element of a list, and the rest, as the walk finds them. */
  lemma ListParts(b: seq<byte>, off: nat, end: nat, t: Terminator, depth: nat, es: seq<Elem>)
    requires off + |SerAll(es)| <= end <= |b| && es != []
    requires At(b, off, SerAll(es)) && WellFormedAll(es) && NoneEnds(t, es)
    requires Closed(b, off + |SerAll(es)|, end, es)
    ensures var e, mid := es[0], off + |Ser(es[0])|;
            && off + |SerAll(es)| == mid + |SerAll(es[1..])|
            && At(b, off, Ser(e)) && At(b, mid, SerAll(es[1..]))
            && WellFormed(e) && WellFormedAll(es[1..]) && !Ends(t, e.id) && NoneEnds(t, es[1..])
            && (e.Open? ==> Boundary(b, mid, end, EndOf(e.id)))
            && Closed(b, mid + |SerAll(es[1..])|, end, es[1..])
            && EventsAll(es, off, depth, end) == Events(e, off, depth, end) + EventsAll(es[1..], mid, depth, end)
  {
    hide DecodeHeader, Events, Head, Ser, At, WellFormed;
    var e, mid := es[0], off + |Ser(es[0])|;
    AtSplit(b, off, Ser(e), SerAll(es[1..]));
    if |es| > 1 {
      AtSplit(b, mid, Ser(es[1]), SerAll(es[1..][1..]));
      ElementAt(b, mid, es[1]);
    } else {
      assert SerAll(es[1..]) == [];
    }
  }

  lemma AtZero(b: seq<byte>)
    ensures At(b, 0, b)
  {
  }

  /** The scan of a serialised document is its preorder listing, with no damage. */
  lemma ScanInvertsSerialiser(es: seq<Elem>)
    requires WellFormedAll(es)
    ensures ScanEvents(SerAll(es)) == EventsAll(es, 0, 0, |SerAll(es)|)
    ensures Clean(ScanEvents(SerAll(es)))
    ensures ScanReport(SerAll(es)).stoppedAt.None?
  {
    hide Walk, EventsAll, Clean, SerAll, WellFormedAll, NoneEnds, Closed, At, ReportFrom;
    var b := SerAll(es);
    ExactNeverEnds(es);
    AtZero(b);
    EndCloses(b, |b|, es);
    WalkList(b, 0, |b|, Exact, 0, es);
    WalkDone(b, |b|, |b|, Exact, 0);
    EventsClean(es, 0, 0, |b|);
    ReportDamage(EMPTY_REPORT, ScanEvents(b));
  }

  lemma {:induction false} EventsClean(es: seq<Elem>, off: nat, depth: nat, limit: nat)
    ensures Clean(EventsAll(es, off, depth, limit))
    decreases es
  {
    hide Clean, IsMaster, DocTypeText, Head, Ser;
    if es == [] {
      CleanNothing();
    } else {
      var e, body, next := es[0], off + |Head(es[0])|, off + |Ser(es[0])|;
      var rest := EventsAll(es[1..], next, depth, limit);
      EventsClean(es[1..], next, depth, limit);
      if e.Open? || (e.Node? && IsMaster(e.id) && depth < MAX_DEPTH) {
        var inner := if e.Open? then limit else next;
        EventsClean(e.kids, body, depth + 1, inner);
        CleanStep(Visit(off, e.id, depth, body, limit), EventsAll(e.kids, body, depth + 1, inner), rest);
      } else {
        var bytes := if e.Leaf? then e.body else SerAll(e.kids);
        DocTypeHasNoVisits(e.id, depth, bytes);
        CleanStep(Visit(off, e.id, depth, next, limit), DocTypeText(e.id, depth, bytes), rest);
      }
    }
  }

  lemma CleanNothing()
    ensures Clean([])
  {
  }

  // ----- the preorder listing -----

  /** Every element of the document with its offset, parents before children. */
  function Preorder(e: Elem, off: nat): seq<(nat, nat)>
    decreases e, 1
  {
    match e
    case Leaf(id, _, _) => [(off, id)]
    case Node(id, _, kids) => [(off, id)] + PreorderAll(kids, off + |Head(e)|)
    case Open(id, kids) => [(off, id)] + PreorderAll(kids, off + |Head(e)|)
  }

  function PreorderAll(es: seq<Elem>, off: nat): seq<(nat, nat)>
    decreases es, 0
  {
    if es == [] then [] else Preorder(es[0], off) + PreorderAll(es[1..], off + |Ser(es[0])|)
  }

  function Height(e: Elem): nat
    decreases e, 1
  {
    match e
    case Leaf(_, _, _) => 0
    case Node(_, _, kids) => 1 + HeightAll(kids)
    case Open(_, kids) => 1 + HeightAll(kids)
  }

  function HeightAll(es: seq<Elem>): nat
    decreases es, 0
  {
    if es == [] then 0
    else var h, t := Height(es[0]), HeightAll(es[1..]); if h > t then h else t
  }

  /** Bounded masters all have a master's ID, so the scanner looks into them. */
  predicate AllMasters(es: seq<Elem>)
    decreases es
  {
    es == []
    || ((match es[0]
         case Leaf(_, _, _) => true
         case Node(id, _, kids) => IsMaster(id) && AllMasters(kids)
         case Open(_, kids) => AllMasters(kids))
        && AllMasters(es[1..]))
  }

  function Listed(v: seq<Event>): seq<(nat, nat)>
    requires forall i :: 0 <= i < |v| ==> v[i].Visit?
  {
    if v == [] then [] else [(v[0].offset, v[0].id)] + Listed(v[1..])
  }

  lemma {:induction false} ListedAppend(a: seq<Event>, b: seq<Event>)
    requires forall i :: 0 <= i < |a| ==> a[i].Visit?
    requires forall i :: 0 <= i < |b| ==> b[i].Visit?
    ensures Listed(a + b) == Listed(a) + Listed(b)
  {
    if a == [] {
      assert a + b == b;
    } else {
      assert (a + b)[1..] == a[1..] + b;
      ListedAppend(a[1..], b);
    }
  }

  /** Within the depth cap, every element of the document is recorded: none is skipped, none added. */
  lemma {:induction false} EventsArePreorder(es: seq<Elem>, off: nat, depth: nat, limit: nat)
    requires AllMasters(es) && depth + HeightAll(es) <= MAX_DEPTH
    ensures Listed(Visits(EventsAll(es, off, depth, limit))) == PreorderAll(es, off)
    decreases es
  {
    hide IsMaster, DocTypeText, Visits, Listed, Head, Ser;
    if es == [] {
      ListedNothing();
    } else {
      var e, body, next := es[0], off + |Head(es[0])|, off + |Ser(es[0])|;
      var rest := EventsAll(es[1..], next, depth, limit);
      EventsArePreorder(es[1..], next, depth, limit);
      VisitsAppend(Events(e, off, depth, limit), rest);
      ListedAppend(Visits(Events(e, off, depth, limit)), Visits(rest));
      match e
      case Leaf(id, _, bytes) =>
        DocTypeHasNoVisits(id, depth, bytes);
        ListedVisit(Visit(off, id, depth, next, limit), DocTypeText(id, depth, bytes));
        ListedNothing();
      case Node(id, _, kids) =>
        EventsArePreorder(kids, body, depth + 1, next);
        ListedVisit(Visit(off, id, depth, body, limit), EventsAll(kids, body, depth + 1, next));
      case Open(id, kids) =>
        EventsArePreorder(kids, body, depth + 1, limit);
        ListedVisit(Visit(off, id, depth, body, limit), EventsAll(kids, body, depth + 1, limit));
    }
  }

  lemma ListedNothing()
    ensures Visits([]) == [] && Listed([]) == []
  {
  }

  lemma ListedVisit(visit: Event, inside: seq<Event>)
    requires visit.Visit?
    ensures Listed(Visits([visit] + inside)) == [(visit.offset, visit.id)] + Listed(Visits(inside))
  {
    VisitsAppend([visit], inside);
    assert [visit][1..] == [];
    assert Visits([visit]) == [visit];
    ListedAppend([visit], Visits(inside));
    assert Listed([visit]) == [(visit.offset, visit.id)] + Listed([visit][1..]);
  }

  /** The inversion, in full: within the depth cap the scan lists the document's elements in preorder. */
  lemma ScanListsDocument(es: seq<Elem>)
    requires WellFormedAll(es) && AllMasters(es) && HeightAll(es) <= MAX_DEPTH
    ensures Listed(Visits(ScanEvents(SerAll(es)))) == PreorderAll(es, 0)
    ensures ScanReport(SerAll(es)).stoppedAt.None?
    ensures ScanReport(SerAll(es)).elements == |PreorderAll(es, 0)|
  {
    hide Walk, EventsAll, Visits, Listed, PreorderAll;
    ScanInvertsSerialiser(es);
    EventsArePreorder(es, 0, 0, |SerAll(es)|);
    ScanCounts(SerAll(es));
    ListedLength(Visits(ScanEvents(SerAll(es))));
  }

  lemma {:induction false} ListedLength(v: seq<Event>)
    requires forall i :: 0 <= i < |v| ==> v[i].Visit?
    ensures |Listed(v)| == |v|
  {
    if v != [] {
      ListedLength(v[1..]);
    }
  }

  // ----- documents have no crossing headers -----

  lemma {:induction false} EventsAreContained(es: seq<Elem>, off: nat, depth: nat, limit: nat)
    requires off + |SerAll(es)| <= limit
    ensures Contained(Visits(EventsAll(es, off, depth, limit)))
    decreases es
  {
    hide IsMaster, DocTypeText, Visits, Contained, Head, SizeField;
    if es == [] {
      NothingIsContained();
    } else {
      var e, body, next := es[0], off + |Head(es[0])|, off + |Ser(es[0])|;
      var rest := EventsAll(es[1..], next, depth, limit);
      SerIsHeadThenBody(e);
      EventsAreContained(es[1..], next, depth, limit);
      VisitsAppend(Events(e, off, depth, limit), rest);
      ContainedAppend(Visits(Events(e, off, depth, limit)), Visits(rest));
      if e.Open? || (e.Node? && IsMaster(e.id) && depth < MAX_DEPTH) {
        var inner := if e.Open? then limit else next;
        EventsAreContained(e.kids, body, depth + 1, inner);
        VisitIsContained(Visit(off, e.id, depth, body, limit), EventsAll(e.kids, body, depth + 1, inner));
      } else {
        var bytes := if e.Leaf? then e.body else SerAll(e.kids);
        DocTypeHasNoVisits(e.id, depth, bytes);
        NothingIsContained();
        VisitIsContained(Visit(off, e.id, depth, next, limit), DocTypeText(e.id, depth, bytes));
      }
    }
  }

  lemma NothingIsContained()
    ensures Visits([]) == [] && Contained([])
  {
  }

  lemma VisitIsContained(visit: Event, inside: seq<Event>)
    requires visit.Visit? && visit.reach <= visit.limit && Contained(Visits(inside))
    ensures Contained(Visits([visit] + inside))
  {
    VisitsAppend([visit], inside);
    assert [visit][1..] == [];
    assert Visits([visit]) == [visit];
    assert ([visit] + Visits(inside))[1..] == Visits(inside);
  }

  /** The scan of a document covers it, without gap or overlap. */
  lemma DocumentsAreTiled(es: seq<Elem>)
    requires WellFormedAll(es)
    ensures Tiles(Visits(ScanEvents(SerAll(es))), 0, |SerAll(es)|)
  {
    hide Walk, EventsAll, Visits, Tiles, Contained, WellFormedAll, ReportFrom, HeadersFit, SerAll;
    ScanInvertsSerialiser(es);
    EventsAreContained(es, 0, 0, |SerAll(es)|);
    FitIsContained(SerAll(es), 0, |SerAll(es)|, Exact, 0);
    CleanScanTiles(SerAll(es));
  }
}
