/**
 * What every scan of every byte string keeps: bounded recursion, exact counters, offsets that
 * never go back, no element recorded more than three times.
 */
module ScannerOrder {
  import opened Bytes
  import opened Ebml
  import opened Ids
  import opened WebmProfile
  import opened Scanner

  function Visits(events: seq<Event>): (v: seq<Event>)
    ensures forall i :: 0 <= i < |v| ==> v[i].Visit?
  {
    if events == [] then []
    else if events[0].Visit? then [events[0]] + Visits(events[1..])
    else Visits(events[1..])
  }

  predicate Clean(events: seq<Event>) {
    forall i :: 0 <= i < |events| ==> !events[i].Damage?
  }

  lemma {:induction false} VisitsAppend(a: seq<Event>, b: seq<Event>)
    ensures Visits(a + b) == Visits(a) + Visits(b)
  {
    if a == [] {
      assert a + b == b;
    } else {
      assert (a + b)[1..] == a[1..] + b;
      VisitsAppend(a[1..], b);
    }
  }

  lemma VisitsStep(visit: Event, inside: seq<Event>, rest: seq<Event>)
    requires visit.Visit?
    ensures Visits([visit] + inside + rest) == [visit] + Visits(inside) + Visits(rest)
    ensures Clean([visit] + inside + rest) <==> Clean(inside) && Clean(rest)
  {
    hide Clean;
    VisitsAppend([visit] + inside, rest);
    VisitsAppend([visit], inside);
    assert [visit][1..] == [];
    CleanStep(visit, inside, rest);
  }

  lemma CleanStep(visit: Event, inside: seq<Event>, rest: seq<Event>)
    requires visit.Visit?
    ensures Clean([visit] + inside + rest) <==> Clean(inside) && Clean(rest)
  {
    var all := [visit] + inside + rest;
    assert forall i :: 0 <= i < |inside| ==> all[i + 1] == inside[i];
    assert forall i :: 0 <= i < |rest| ==> all[i + 1 + |inside|] == rest[i];
  }

  lemma DocTypeHasNoVisits(id: nat, depth: nat, body: seq<byte>)
    ensures Visits(DocTypeText(id, depth, body)) == [] && Clean(DocTypeText(id, depth, body))
  {
  }

  /** The five ways one step of the walk can go, without their bodies. */
  datatype Step = Done | Torn | Ended | Opened | Broken | Descended | Skipped

  function StepOf(b: seq<byte>, pos: nat, end: nat, t: Terminator, depth: nat): Step
    requires end <= |b|
  {
    if pos >= end then Done
    else
      var read := DecodeHeader(b[pos..]);
      if read.Failure? then Torn
      else if Ends(t, read.value.id) then Ended
      else if read.value.size == UNKNOWN_SIZE then
        if read.value.id == SEGMENT || read.value.id == CLUSTER then Opened else Broken
      else if pos + read.value.length + read.value.size > end then Broken
      else if IsMaster(read.value.id) && depth < MAX_DEPTH then Descended
      else Skipped
  }

  lemma NoVisits(events: seq<Event>)
    requires |events| <= 1 && forall i :: 0 <= i < |events| ==> !events[i].Visit?
    ensures Visits(events) == []
  {
  }

  /** A walk that stops at once records nothing and stays where it is. */
  lemma WalkStops(b: seq<byte>, pos: nat, end: nat, t: Terminator, depth: nat)
    requires end <= |b| && DepthOk(t, depth)
    requires var s := StepOf(b, pos, end, t, depth); s.Done? || s.Torn? || s.Ended?
    ensures var w := Walk(b, pos, end, t, depth); Visits(w.events) == [] && w.pos == pos
    ensures Clean(Walk(b, pos, end, t, depth).events) <==> !StepOf(b, pos, end, t, depth).Torn?
  {
    var s := StepOf(b, pos, end, t, depth);
    if s.Done? {
      WalkDone(b, pos, end, t, depth);
    } else if s.Torn? {
      WalkTorn(b, pos, end, t, depth);
    } else {
      WalkEnded(b, pos, end, t, depth);
    }
  }

  /** A walk that breaks records the broken element and stays on it. */
  lemma WalkBreaks(b: seq<byte>, pos: nat, end: nat, t: Terminator, depth: nat)
    requires end <= |b| && DepthOk(t, depth) && StepOf(b, pos, end, t, depth).Broken?
    ensures var w := Walk(b, pos, end, t, depth);
            var h := DecodeHeader(b[pos..]).value;
            Visits(w.events) == [Visit(pos, h.id, depth, pos + h.length, end)] + [] + [] && w.pos == pos
              && !Clean(w.events)
  {
    var h := DecodeHeader(b[pos..]).value;
    WalkBroken(b, pos, end, t, depth);
    VisitsStep(Visit(pos, h.id, depth, pos + h.length, end), [Damage(pos, false)], []);
    NoVisits([Damage(pos, false)]);
    assert [Damage(pos, false)][0].Damage?;
  }

  /** One recorded element: its visit, what was recorded inside it, and where the walk goes on. */
  datatype Parts = Parts(visit: Event, inside: Trace, it: Terminator, limit: nat, mid: nat)

  /** A walk that goes on is one visit, the walk inside the element, and the walk behind it. */
  lemma WalkParts(b: seq<byte>, pos: nat, end: nat, t: Terminator, depth: nat) returns (p: Parts)
    requires end <= |b| && DepthOk(t, depth)
    requires var s := StepOf(b, pos, end, t, depth); s.Opened? || s.Descended? || s.Skipped?
    ensures p.visit.Visit? && p.visit.offset == pos < p.visit.reach && pos < p.mid
    ensures p.visit.depth == depth && p.visit.limit == end && pos < end
    ensures var w, rest := Walk(b, pos, end, t, depth), Walk(b, p.mid, end, t, depth);
            && w.pos == rest.pos
            && Visits(w.events) == [p.visit] + Visits(p.inside.events) + Visits(rest.events)
            && (Clean(w.events) <==> Clean(p.inside.events) && Clean(rest.events))
    ensures match StepOf(b, pos, end, t, depth)
            case Opened =>
              && p.limit == end && p.mid == p.inside.pos && DepthOk(p.it, depth + 1)
              && p.inside == Walk(b, p.visit.reach, end, p.it, depth + 1)
              && (p.it == AtTopLevel || (p.it == AtSegment && t == Exact)) && t != AtTopLevel
            case Descended =>
              && p.visit.reach <= p.limit == p.mid <= end && p.it == Exact && depth < MAX_DEPTH
              && p.inside == Walk(b, p.visit.reach, p.limit, Exact, depth + 1)
            case _ =>
              && Visits(p.inside.events) == [] && Clean(p.inside.events) && p.visit.reach == p.mid <= end
    ensures DecodeHeader(b[pos..]).Success?
    ensures var h, step := DecodeHeader(b[pos..]).value, StepOf(b, pos, end, t, depth);
            && (step.Opened? ==> p.visit.reach == pos + h.length && p.it == EndOf(h.id))
            && (step.Descended? ==> p.visit.reach == pos + h.length && p.mid == pos + h.length + h.size)
            && (step.Skipped? ==> p.mid == pos + h.length + h.size)
  {
    hide Walk, DecodeHeader, IsMaster, Visits, DocTypeText, Clean;
    var step := StepOf(b, pos, end, t, depth);
    var h := DecodeHeader(b[pos..]).value;
    var body, next := pos + h.length, pos + h.length + h.size;
    HeaderBounds(b[pos..]);
    if step.Opened? {
      WalkOpen(b, pos, end, t, depth);
      var inner := Walk(b, body, end, EndOf(h.id), depth + 1);
      p := Parts(Visit(pos, h.id, depth, body, end), inner, EndOf(h.id), end, inner.pos);
    } else if step.Descended? {
      WalkMaster(b, pos, end, t, depth);
      p := Parts(Visit(pos, h.id, depth, body, end), Walk(b, body, next, Exact, depth + 1), Exact, next, next);
    } else {
      WalkLeaf(b, pos, end, t, depth);
      DocTypeHasNoVisits(h.id, depth, b[body..next]);
      p := Parts(Visit(pos, h.id, depth, next, end), Trace(DocTypeText(h.id, depth, b[body..next]), next), t, end,
                 next);
    }
    VisitsStep(p.visit, p.inside.events, Walk(b, p.mid, end, t, depth).events);
  }

  // ----- depth and order -----

  /** Visits of one extent: in it, within the depth bound, and in file order. */
  predicate Ordered(v: seq<Event>, lo: nat, hi: nat, end: nat, depth: nat) {
    && (forall i :: 0 <= i < |v| ==> v[i].Visit? && lo <= v[i].offset <= hi && v[i].offset < end)
    && (forall i :: 0 <= i < |v| ==> v[i].Visit? && depth <= v[i].depth <= MAX_DEPTH + 2)
    && (forall i, j :: 0 <= i < j < |v| ==> v[i].Visit? && v[j].Visit? && v[i].offset <= v[j].offset)
  }

  /** No offset twice, and none at the end of the extent. */
  predicate Strict(v: seq<Event>, hi: nat) {
    && (forall i :: 0 <= i < |v| ==> v[i].Visit? && v[i].offset < hi)
    && (forall i, j :: 0 <= i < j < |v| ==> v[i].Visit? && v[j].Visit? && v[i].offset < v[j].offset)
  }

  lemma JoinOrdered(visit: Event, a: seq<Event>, b: seq<Event>, from: nat, mid: nat, hi: nat, end: nat)
    requires visit.Visit? && visit.offset < from && visit.offset < mid <= hi
    requires visit.offset < end && visit.depth <= MAX_DEPTH + 2
    requires Ordered(a, from, mid, end, visit.depth) && Ordered(b, mid, hi, end, visit.depth)
    ensures Ordered([visit] + a + b, visit.offset, hi, end, visit.depth)
    ensures Strict(a, mid) && Strict(b, hi) ==> Strict([visit] + a + b, hi)
  {
  }

  lemma NarrowOrdered(v: seq<Event>, lo: nat, hi: nat, limit: nat, end: nat, depth: nat, outer: nat, mid: nat)
    requires Ordered(v, lo, hi, limit, depth) && limit <= end && outer <= depth && (mid == hi || mid == limit)
    ensures Ordered(v, lo, mid, end, outer) && (Strict(v, hi) ==> Strict(v, mid))
  {
  }

  lemma OrderedEmpty(lo: nat, hi: nat, end: nat, depth: nat)
    ensures Ordered([], lo, hi, end, depth) && Strict([], hi)
  {
  }

  lemma OrderedOne(visit: Event, end: nat)
    requires visit.Visit? && visit.offset < end && visit.depth <= MAX_DEPTH + 2
    ensures Ordered([visit] + [] + [], visit.offset, visit.offset, end, visit.depth)
  {
  }

  /**
   * On every input the recorded offsets never go back, and every element is recorded at a depth
   * of at most 66, for all the nesting a file may claim. Without damage no offset is recorded twice.
   */
  lemma {:induction false} WalkOrdered(b: seq<byte>, pos: nat, end: nat, t: Terminator, depth: nat)
    requires end <= |b| && DepthOk(t, depth)
    ensures var w := Walk(b, pos, end, t, depth);
            Ordered(Visits(w.events), pos, w.pos, end, depth) && (Clean(w.events) ==> Strict(Visits(w.events), w.pos))
    decreases if pos < end then end - pos else 0
  {
    hide Walk, Visits, Ordered, Strict, Clean, StepOf, DecodeHeader;
    var step := StepOf(b, pos, end, t, depth);
    if step.Done? || step.Torn? || step.Ended? {
      WalkStops(b, pos, end, t, depth);
      OrderedEmpty(pos, pos, end, depth);
    } else if step.Broken? {
      StepIsInside(b, pos, end, t, depth);
      WalkBreaks(b, pos, end, t, depth);
      OrderedOne(Visits(Walk(b, pos, end, t, depth).events)[0], end);
    } else {
      StepIsInside(b, pos, end, t, depth);
      var p := WalkParts(b, pos, end, t, depth);
      var a, rest := Visits(p.inside.events), Walk(b, p.mid, end, t, depth);
      WalkOrdered(b, p.mid, end, t, depth);
      if step.Opened? {
        WalkOrdered(b, p.visit.reach, end, p.it, depth + 1);
        NarrowOrdered(a, p.visit.reach, p.inside.pos, end, end, depth + 1, depth, p.mid);
      } else if step.Descended? {
        WalkOrdered(b, p.visit.reach, p.limit, Exact, depth + 1);
        NarrowOrdered(a, p.visit.reach, p.inside.pos, p.limit, end, depth + 1, depth, p.mid);
      } else {
        OrderedEmpty(p.visit.reach, p.mid, end, depth);
      }
      JoinOrdered(p.visit, a, Visits(rest.events), p.visit.reach, p.mid, rest.pos, end);
    }
  }

  /** Every step but the first is taken inside the extent and within the depth bound. */
  lemma StepIsInside(b: seq<byte>, pos: nat, end: nat, t: Terminator, depth: nat)
    requires end <= |b| && DepthOk(t, depth) && !StepOf(b, pos, end, t, depth).Done?
    ensures pos < end && depth <= MAX_DEPTH + 2
  {
  }

  // ----- how often an element is recorded -----

  function Times(v: seq<Event>, offset: nat): nat {
    if v == [] then 0
    else (if v[0].Visit? && v[0].offset == offset then 1 else 0) + Times(v[1..], offset)
  }

  lemma {:induction false} TimesAppend(a: seq<Event>, b: seq<Event>, offset: nat)
    ensures Times(a + b, offset) == Times(a, offset) + Times(b, offset)
  {
    if a == [] {
      assert a + b == b;
    } else {
      assert (a + b)[1..] == a[1..] + b;
      TimesAppend(a[1..], b, offset);
    }
  }

  lemma TimesStep(visit: Event, a: seq<Event>, b: seq<Event>, offset: nat)
    requires visit.Visit?
    ensures Times([visit] + a + b, offset)
         == (if visit.offset == offset then 1 else 0) + Times(a, offset) + Times(b, offset)
  {
    TimesAppend([visit] + a, b, offset);
    TimesAppend([visit], a, offset);
    assert [visit][1..] == [];
  }

  lemma {:induction false} TimesOutside(v: seq<Event>, lo: nat, hi: nat, end: nat, depth: nat, offset: nat)
    requires Ordered(v, lo, hi, end, depth) && !(lo <= offset <= hi && offset < end)
    ensures Times(v, offset) == 0
  {
    if v != [] {
      assert Ordered(v[1..], lo, hi, end, depth) by { OrderedTail(v, lo, hi, end, depth); }
      TimesOutside(v[1..], lo, hi, end, depth, offset);
    }
  }

  lemma OrderedTail(v: seq<Event>, lo: nat, hi: nat, end: nat, depth: nat)
    requires Ordered(v, lo, hi, end, depth) && v != []
    ensures Ordered(v[1..], lo, hi, end, depth)
  {
    assert forall i :: 0 <= i < |v| - 1 ==> v[1..][i] == v[i + 1];
  }

  /** How many nested walks of one extent can meet at one offset. */
  function Rank(t: Terminator): nat {
    match t
    case Exact => 3
    case AtSegment => 2
    case AtTopLevel => 1
  }

  /** A damaged element stops the walk of every enclosing unknown-size master in turn. */
  lemma StuckStays(b: seq<byte>, pos: nat, end: nat, t: Terminator, depth: nat, t': Terminator, depth': nat)
    requires end <= |b| && StepOf(b, pos, end, t, depth).Broken? && DepthOk(t', depth')
    ensures Times(Visits(Walk(b, pos, end, t', depth').events), pos) <= 1
    ensures Walk(b, pos, end, t', depth').pos == pos
  {
    if StepOf(b, pos, end, t', depth').Ended? {
      WalkStops(b, pos, end, t', depth');
    } else {
      WalkBreaks(b, pos, end, t', depth');
      TimesStep(Visit(pos, DecodeHeader(b[pos..]).value.id, depth', pos + DecodeHeader(b[pos..]).value.length, end),
                [], [], pos);
    }
  }

  /**
   * No element is recorded more than three times, and the one a walk stops on no more than its
   * rank; only a damaged element can be recorded again.
   */
  lemma {:induction false} RecordedAtMostThrice(b: seq<byte>, pos: nat, end: nat, t: Terminator, depth: nat, o: nat)
    requires end <= |b| && DepthOk(t, depth)
    ensures var w := Walk(b, pos, end, t, depth);
            && Times(Visits(w.events), o) <= 3
            && (o == w.pos ==> Times(Visits(w.events), o) <= Rank(t))
            && (o == w.pos && Times(Visits(w.events), o) > 0 ==> StepOf(b, o, end, t, depth).Broken?)
    decreases if pos < end then end - pos else 0
  {
    hide Walk, Visits, Ordered, Strict, Clean, Times, StepOf, DecodeHeader;
    var step := StepOf(b, pos, end, t, depth);
    TimesNone(o);
    if step.Done? || step.Torn? || step.Ended? {
      WalkStops(b, pos, end, t, depth);
    } else if step.Broken? {
      WalkBreaks(b, pos, end, t, depth);
      TimesStep(Visits(Walk(b, pos, end, t, depth).events)[0], [], [], o);
    } else {
      var p := WalkParts(b, pos, end, t, depth);
      var a, rest := Visits(p.inside.events), Walk(b, p.mid, end, t, depth);
      TimesStep(p.visit, a, Visits(rest.events), o);
      WalkOrdered(b, p.mid, end, t, depth);
      RecordedAtMostThrice(b, p.mid, end, t, depth, o);
      if o < p.mid {
        TimesOutside(Visits(rest.events), p.mid, rest.pos, end, depth, o);
      }
      if step.Opened? || step.Descended? {
        WalkOrdered(b, p.visit.reach, p.limit, p.it, depth + 1);
        RecordedAtMostThrice(b, p.visit.reach, p.limit, p.it, depth + 1, o);
        if o <= pos || o >= p.limit || o > p.inside.pos {
          TimesOutside(a, p.visit.reach, p.inside.pos, p.limit, depth + 1, o);
        } else if o == p.mid && Times(a, o) > 0 {
          StuckStays(b, o, end, p.it, depth + 1, t, depth);
          BrokenOutside(b, o, end, p.it, t, depth);
        }
      }
    }
  }

  /** An element at `o` that breaks a walk of an extent that ends at `end`: of unknown size, or too long. */
  predicate BreaksAt(b: seq<byte>, o: nat, end: nat) {
    o < end <= |b| &&
    match DecodeHeader(b[o..])
    case Failure(_) => false
    case Success(h) =>
      if h.size == UNKNOWN_SIZE then h.id != SEGMENT && h.id != CLUSTER else o + h.length + h.size > end
  }

  lemma BrokenBreaks(b: seq<byte>, o: nat, end: nat, t: Terminator, depth: nat)
    requires end <= |b| && StepOf(b, o, end, t, depth).Broken?
    ensures BreaksAt(b, o, end)
  {
    hide DecodeHeader;
  }

  /** At `q`, there is the header of a bounded master that ends at `e`. */
  predicate MasterUpTo(b: seq<byte>, q: nat, e: nat) {
    q < |b| &&
    match DecodeHeader(b[q..])
    case Failure(_) => false
    case Success(h) => IsMaster(h.id) && h.size != UNKNOWN_SIZE && e == q + h.length + h.size
  }

  /** `e` ends the extent that `o` lies in: the whole one, or that of a sized master with its header before `o`. */
  predicate ExtentAround(b: seq<byte>, pos: nat, o: nat, end: nat, e: nat) {
    e == end || (e <= end && exists q: nat :: pos <= q < o && MasterUpTo(b, q, e))
  }

  lemma WiderExtent(b: seq<byte>, inner: nat, outer: nat, o: nat, end: nat, e: nat)
    requires ExtentAround(b, inner, o, end, e) && outer <= inner
    ensures ExtentAround(b, outer, o, end, e)
  {
    hide MasterUpTo;
  }

  /** The extent of a sized master is an extent of what it lies in. */
  lemma MasterExtent(b: seq<byte>, pos: nat, inner: nat, limit: nat, o: nat, end: nat, e: nat)
    requires ExtentAround(b, inner, o, limit, e) && MasterUpTo(b, pos, limit) && pos < inner && pos < o && limit <= end
    ensures ExtentAround(b, pos, o, end, e)
  {
    hide MasterUpTo;
  }

  lemma DescendedMaster(b: seq<byte>, pos: nat, end: nat, t: Terminator, depth: nat, limit: nat)
    requires end <= |b| && StepOf(b, pos, end, t, depth).Descended?
    requires var h := DecodeHeader(b[pos..]).value; limit == pos + h.length + h.size
    ensures MasterUpTo(b, pos, limit)
  {
    hide DecodeHeader, IsMaster;
  }

  /** Every record of the element at `o` was made in the extent that ends at `e`. */
  predicate RecordedIn(v: seq<Event>, o: nat, e: nat) {
    forall i :: 0 <= i < |v| && v[i].Visit? && v[i].offset == o ==> v[i].limit == e
  }

  lemma JoinRecorded(visit: Event, a: seq<Event>, rest: seq<Event>, o: nat, e: nat)
    requires RecordedIn(a, o, e) && RecordedIn(rest, o, e)
    requires visit.Visit? && visit.offset == o ==> visit.limit == e
    ensures RecordedIn([visit] + a + rest, o, e)
  {
  }

  lemma {:induction false} NotRecorded(v: seq<Event>, o: nat, e: nat)
    requires Times(v, o) == 0
    ensures RecordedIn(v, o, e)
  {
    if v != [] {
      NotRecorded(v[1..], o, e);
      assert forall i :: 0 < i < |v| ==> v[i] == v[1..][i - 1];
    }
  }

  /** The element that a walk stops on is recorded in the walk's own extent. */
  lemma {:induction false} StopIsRecordedIn(b: seq<byte>, pos: nat, end: nat, t: Terminator, depth: nat)
    requires end <= |b| && DepthOk(t, depth)
    ensures var w := Walk(b, pos, end, t, depth); RecordedIn(Visits(w.events), w.pos, end)
    decreases if pos < end then end - pos else 0
  {
    hide Walk, Visits, Ordered, Strict, Clean, StepOf, DecodeHeader, Times, RecordedIn;
    var step := StepOf(b, pos, end, t, depth);
    var o := Walk(b, pos, end, t, depth).pos;
    if step.Done? || step.Torn? || step.Ended? {
      WalkStops(b, pos, end, t, depth);
      TimesNone(o);
      NotRecorded([], o, end);
    } else if step.Broken? {
      WalkBreaks(b, pos, end, t, depth);
      TimesNone(o);
      NotRecorded([], o, end);
      JoinRecorded(Visits(Walk(b, pos, end, t, depth).events)[0], [], [], o, end);
    } else {
      var p := WalkParts(b, pos, end, t, depth);
      var a, rest := Visits(p.inside.events), Walk(b, p.mid, end, t, depth);
      StopIsRecordedIn(b, p.mid, end, t, depth);
      WalkOrdered(b, p.mid, end, t, depth);
      if step.Opened? && p.inside.pos == o {
        StopIsRecordedIn(b, p.visit.reach, end, p.it, depth + 1);
      } else {
        if step.Opened? || step.Descended? {
          WalkOrdered(b, p.visit.reach, p.limit, p.it, depth + 1);
          TimesOutside(a, p.visit.reach, p.inside.pos, p.limit, depth + 1, o);
        } else {
          TimesNone(o);
        }
        NotRecorded(a, o, end);
      }
      JoinRecorded(p.visit, a, Visits(rest.events), o, end);
    }
  }

  /**
   * All records of the element at `o` were made in one extent, the element breaks that extent, and
   * it is a real one: it ends with the walk, or with a sized master whose header comes before `o`.
   */
  ghost predicate BreaksItsExtent(b: seq<byte>, v: seq<Event>, pos: nat, o: nat, end: nat) {
    exists e: nat :: ExtentAround(b, pos, o, end, e) && BreaksAt(b, o, e) && RecordedIn(v, o, e)
  }

  /** What breaks an extent inside an element, or behind it, breaks it for the walk around both. */
  lemma BreaksOutside(
    b: seq<byte>, pos: nat, end: nat, o: nat, visit: Event, a: seq<Event>, r: seq<Event>, inner: nat, limit: nat)
    requires end <= |b| && visit.Visit? && visit.offset == pos != o && pos < inner
    requires limit == end || (limit <= end && pos < o && MasterUpTo(b, pos, limit))
    requires (Times(r, o) == 0 && BreaksItsExtent(b, a, inner, o, limit))
             || (Times(a, o) == 0 && BreaksItsExtent(b, r, inner, o, limit))
    ensures BreaksItsExtent(b, [visit] + a + r, pos, o, end)
  {
    hide Times, BreaksAt, RecordedIn, MasterUpTo, ExtentAround;
    var v := if Times(r, o) == 0 && BreaksItsExtent(b, a, inner, o, limit) then a else r;
    var e: nat :| ExtentAround(b, inner, o, limit, e) && BreaksAt(b, o, e) && RecordedIn(v, o, e);
    if limit == end {
      WiderExtent(b, inner, pos, o, end, e);
    } else {
      MasterExtent(b, pos, inner, limit, o, end, e);
    }
    if Times(r, o) == 0 {
      NotRecorded(r, o, e);
    }
    if Times(a, o) == 0 {
      NotRecorded(a, o, e);
    }
    JoinRecorded(visit, a, r, o, e);
  }

  /** The walk inside an unknown-size master and the walk behind it stop on one element. */
  lemma BothStopOn(b: seq<byte>, pos: nat, end: nat, t: Terminator, depth: nat, o: nat, p: Parts)
    requires end <= |b| && DepthOk(t, depth) && DepthOk(p.it, depth + 1) && pos < o == p.mid == p.inside.pos
    requires p.visit.Visit? && p.visit.offset == pos && p.inside == Walk(b, p.visit.reach, end, p.it, depth + 1)
    requires (p.it == AtTopLevel || (p.it == AtSegment && t == Exact)) && t != AtTopLevel
    requires Times(Visits(p.inside.events), o) > 0
    ensures BreaksItsExtent(b, [p.visit] + Visits(p.inside.events) + Visits(Walk(b, p.mid, end, t, depth).events),
                            pos, o, end)
  {
    hide Walk, Visits, Times, StepOf, BreaksAt, DecodeHeader, ExtentAround, RecordedIn;
    RecordedAtMostThrice(b, p.visit.reach, end, p.it, depth + 1, o);
    BrokenBreaks(b, o, end, p.it, depth + 1);
    StuckStays(b, o, end, p.it, depth + 1, t, depth);
    StopIsRecordedIn(b, p.visit.reach, end, p.it, depth + 1);
    StopIsRecordedIn(b, o, end, t, depth);
    JoinRecorded(p.visit, Visits(p.inside.events), Visits(Walk(b, o, end, t, depth).events), o, end);
    WholeExtent(b, pos, o, end);
  }

  lemma WholeExtent(b: seq<byte>, pos: nat, o: nat, end: nat)
    ensures ExtentAround(b, pos, o, end, end)
  {
  }

  /** Wherever an element is recorded more than once, it breaks the extent that it was recorded in. */
  lemma {:induction false} AgainOnlyIfBroken(b: seq<byte>, pos: nat, end: nat, t: Terminator, depth: nat, o: nat)
    requires end <= |b| && DepthOk(t, depth)
    ensures var v := Visits(Walk(b, pos, end, t, depth).events);
            Times(v, o) > 1 ==> BreaksItsExtent(b, v, pos, o, end)
    decreases if pos < end then end - pos else 0
  {
    hide Walk, Visits, Ordered, Strict, Clean, Times, StepOf, DecodeHeader, BreaksItsExtent, MasterUpTo;
    var step := StepOf(b, pos, end, t, depth);
    TimesNone(o);
    if step.Done? || step.Torn? || step.Ended? {
      WalkStops(b, pos, end, t, depth);
    } else if step.Broken? {
      WalkBreaks(b, pos, end, t, depth);
      TimesStep(Visits(Walk(b, pos, end, t, depth).events)[0], [], [], o);
    } else {
      var p := WalkParts(b, pos, end, t, depth);
      var a, rest := Visits(p.inside.events), Walk(b, p.mid, end, t, depth);
      var r := Visits(rest.events);
      TimesStep(p.visit, a, r, o);
      WalkOrdered(b, p.mid, end, t, depth);
      AgainOnlyIfBroken(b, p.mid, end, t, depth, o);
      if o < p.mid {
        TimesOutside(r, p.mid, rest.pos, end, depth, o);
      }
      if step.Opened? || step.Descended? {
        WalkOrdered(b, p.visit.reach, p.limit, p.it, depth + 1);
        AgainOnlyIfBroken(b, p.visit.reach, p.limit, p.it, depth + 1, o);
        if o <= pos || o >= p.limit || o > p.inside.pos {
          TimesOutside(a, p.visit.reach, p.inside.pos, p.limit, depth + 1, o);
        }
      }
      if Times(a, o) + Times(r, o) > 1 && o != pos {
        if Times(a, o) == 0 {
          BreaksOutside(b, pos, end, o, p.visit, a, r, p.mid, end);
        } else if Times(r, o) == 0 {
          if step.Descended? {
            DescendedMaster(b, pos, end, t, depth, p.limit);
          }
          BreaksOutside(b, pos, end, o, p.visit, a, r, p.visit.reach, p.limit);
        } else {
          BothStopOn(b, pos, end, t, depth, o, p);
        }
      }
    }
  }

  lemma TimesNone(o: nat)
    ensures Times([], o) == 0
  {
  }

  /** What breaks the walk inside an unknown-size master breaks the walk around it. */
  lemma BrokenOutside(b: seq<byte>, pos: nat, end: nat, it: Terminator, t: Terminator, depth: nat)
    requires end <= |b| && (it == AtTopLevel || (it == AtSegment && t == Exact)) && t != AtTopLevel
    requires StepOf(b, pos, end, it, depth + 1).Broken?
    ensures StepOf(b, pos, end, t, depth).Broken?
  {
  }

  // ----- the counters -----

  /** The scan's order theorem: file order, depth, and multiplicity of the recorded elements. */
  lemma ScanIsOrdered(b: seq<byte>, o: nat)
    ensures Ordered(Visits(ScanEvents(b)), 0, |b|, |b|, 0)
    ensures Clean(ScanEvents(b)) ==> Strict(Visits(ScanEvents(b)), |b|)
    ensures Times(Visits(ScanEvents(b)), o) <= 3
    ensures Times(Visits(ScanEvents(b)), o) > 1 ==> BreaksItsExtent(b, Visits(ScanEvents(b)), 0, o, |b|)
  {
    hide BreaksItsExtent, DecodeHeader;
    AgainOnlyIfBroken(b, 0, |b|, Exact, 0, o);
    var w := Walk(b, 0, |b|, Exact, 0);
    WalkOrdered(b, 0, |b|, Exact, 0);
    RecordedAtMostThrice(b, 0, |b|, Exact, 0, o);
    forall i | 0 <= i < |Visits(w.events)|
      ensures Visits(w.events)[i].offset < |b|
    {
    }
  }

  function Occurrences(events: seq<Event>, s: Support): nat {
    if events == [] then 0
    else (if events[0].Visit? && ElementSupport(events[0].id) == s then 1 else 0) + Occurrences(events[1..], s)
  }

  /** The report counts each recorded element once, under its status; nothing else moves a counter. */
  lemma {:induction false} ReportCounts(r: Report, events: seq<Event>)
    ensures var q := ReportFrom(r, events);
            && q.elements == r.elements + |Visits(events)|
            && q.supported == r.supported + Occurrences(events, Supported)
            && q.unsupported == r.unsupported + Occurrences(events, Unsupported)
            && q.deprecated == r.deprecated + Occurrences(events, Deprecated)
            && q.unlisted == r.unlisted + Occurrences(events, Unlisted)
            && q.elements - r.elements
               == (q.supported - r.supported) + (q.unsupported - r.unsupported)
                + (q.deprecated - r.deprecated) + (q.unlisted - r.unlisted)
    decreases |events|
  {
    hide ElementSupport, Applied;
    if events != [] {
      AppliedCounts(r, events[0]);
      ReportCounts(Applied(r, events[0]), events[1..]);
    }
  }

  lemma AppliedCounts(r: Report, e: Event)
    ensures var q := Applied(r, e);
            && q.elements == r.elements + (if e.Visit? then 1 else 0)
            && q.supported == r.supported + (if e.Visit? && ElementSupport(e.id) == Supported then 1 else 0)
            && q.unsupported == r.unsupported + (if e.Visit? && ElementSupport(e.id) == Unsupported then 1 else 0)
            && q.deprecated == r.deprecated + (if e.Visit? && ElementSupport(e.id) == Deprecated then 1 else 0)
            && q.unlisted == r.unlisted + (if e.Visit? && ElementSupport(e.id) == Unlisted then 1 else 0)
  {
    hide ElementSupport;
  }

  /** The report has no damage offset exactly when the walk met no damage. */
  lemma {:induction false} ReportDamage(r: Report, events: seq<Event>)
    ensures ReportFrom(r, events).stoppedAt.None? <==> r.stoppedAt.None? && Clean(events)
    decreases |events|
  {
    if events != [] {
      ReportDamage(Applied(r, events[0]), events[1..]);
      assert Clean(events) <==> !events[0].Damage? && Clean(events[1..]) by {
        assert forall i :: 0 <= i < |events| - 1 ==> events[1..][i] == events[i + 1];
        assert forall i :: 1 <= i < |events| ==> events[i] == events[1..][i - 1];
      }
      RecordKeepsDamage(r, events[0]);
    }
  }

  lemma RecordKeepsDamage(r: Report, e: Event)
    ensures Applied(r, e).stoppedAt.None? <==> r.stoppedAt.None? && !e.Damage?
  {
    hide ElementSupport;
  }

  /** The counters of a finished scan always add up to the elements it visited. */
  lemma ScanCounts(b: seq<byte>)
    ensures var q := ScanReport(b);
            && q.elements == |Visits(ScanEvents(b))|
            && q.supported + q.unsupported + q.deprecated + q.unlisted == q.elements
            && (q.stoppedAt.None? <==> Clean(ScanEvents(b)))
  {
    ReportCounts(EMPTY_REPORT, ScanEvents(b));
    ReportDamage(EMPTY_REPORT, ScanEvents(b));
  }
}
