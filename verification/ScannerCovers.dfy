/**
 * The scan goes on: on any bytes, whatever is damaged inside an element of known extent, the walk looks
 * at the position behind it, and at the first position inside every master.
 */
module ScannerCovers {
  import opened Bytes
  import opened Ebml
  import opened Ids
  import opened WebmProfile
  import opened Scanner

  // ----- what the walk has to look at -----

  /** An element or a damage at this offset. */
  predicate IsAt(e: Event, at: nat) {
    !e.Text? && e.offset == at
  }

  predicate Touched(events: seq<Event>, at: nat) {
    exists i :: 0 <= i < |events| && IsAt(events[i], at)
  }

  /** The header of a recorded element, and where its data begin and end. */
  function SizeAt(b: seq<byte>, v: Event): nat
    requires v.Visit? && v.offset <= |b|
  {
    match DecodeHeader(b[v.offset..])
    case Success(h) => h.size
    case Failure(_) => 0
  }

  function BodyAt(b: seq<byte>, v: Event): nat
    requires v.Visit? && v.offset <= |b|
  {
    match DecodeHeader(b[v.offset..])
    case Success(h) => v.offset + h.length
    case Failure(_) => v.offset
  }

  /** An element whose size is known and stays inside the extent that it was found in. */
  predicate HasExtent(b: seq<byte>, v: Event)
    requires v.Visit? && v.offset <= |b|
  {
    SizeAt(b, v) != UNKNOWN_SIZE && BodyAt(b, v) + SizeAt(b, v) <= v.limit
  }

  /** Segments and Clusters may leave their size open. */
  predicate IsOpen(b: seq<byte>, v: Event)
    requires v.Visit? && v.offset <= |b|
  {
    SizeAt(b, v) == UNKNOWN_SIZE && (v.id == SEGMENT || v.id == CLUSTER)
  }

  /** Behind an element of known extent comes the end of what it stands in, or something that was looked at. */
  predicate Passed(b: seq<byte>, events: seq<Event>, v: Event, stop: nat)
    requires v.Visit? && v.offset <= |b|
  {
    HasExtent(b, v) ==>
      var behind := BodyAt(b, v) + SizeAt(b, v); behind >= v.limit || behind == stop || Touched(events, behind)
  }

  /** So it is inside an element that the walk goes into. */
  predicate Entered(b: seq<byte>, events: seq<Event>, v: Event, stop: nat)
    requires v.Visit? && v.offset <= |b|
  {
    && (HasExtent(b, v) && IsMaster(v.id) && v.depth < 64 ==>
          SizeAt(b, v) == 0 || Touched(events, BodyAt(b, v)))
    && (IsOpen(b, v) ==> var body := BodyAt(b, v); body >= v.limit || body == stop || Touched(events, body))
  }

  predicate GoesOn(b: seq<byte>, events: seq<Event>, stop: nat) {
    forall i :: 0 <= i < |events| && events[i].Visit? ==>
      events[i].offset <= |b| && Passed(b, events, events[i], stop) && Entered(b, events, events[i], stop)
  }

  // ----- putting walks together -----

  lemma TouchedMore(x: seq<Event>, y: seq<Event>, at: nat)
    ensures Touched(x, at) ==> Touched(x + y, at)
    ensures Touched(y, at) ==> Touched(x + y, at)
  {
    hide IsAt;
    if Touched(x, at) {
      var i :| 0 <= i < |x| && IsAt(x[i], at);
      assert (x + y)[i] == x[i];
    }
    if Touched(y, at) {
      var i :| 0 <= i < |y| && IsAt(y[i], at);
      assert (x + y)[|x| + i] == y[i];
    }
  }

  /** More events, and a later stop if the old one has been looked at. */
  lemma StillGoesOn(b: seq<byte>, before: seq<Event>, events: seq<Event>, after: seq<Event>, v: Event, from: nat,
                    to: nat)
    requires v.Visit? && v.offset <= |b| && Passed(b, events, v, from) && Entered(b, events, v, from)
    requires from == to || Touched(before + events + after, from) || from >= v.limit
    ensures var all := before + events + after; Passed(b, all, v, to) && Entered(b, all, v, to)
  {
    hide Touched, SizeAt, BodyAt, IsMaster;
    forall at: nat
      ensures Touched(events, at) ==> Touched(before + events + after, at)
    {
      TouchedMore(before, events, at);
      TouchedMore(before + events, after, at);
    }
  }

  // ----- the walk -----

  predicate LimitsWithin(events: seq<Event>, end: nat) {
    forall i :: 0 <= i < |events| && events[i].Visit? ==> events[i].limit <= end
  }

  /** Where a walk begins and where it stops. */
  predicate LooksAt(events: seq<Event>, pos: nat, stop: nat, end: nat, t: Terminator) {
    && (pos >= end || pos == stop || Touched(events, pos))
    && (t == Exact ==> stop >= end || Touched(events, stop))
    && LimitsWithin(events, end)
  }

  lemma WithinMore(x: seq<Event>, y: seq<Event>, z: seq<Event>, middle: nat, end: nat)
    requires LimitsWithin(x, end) && LimitsWithin(y, middle) && LimitsWithin(z, end) && middle <= end
    ensures LimitsWithin(x + y + z, end)
  {
  }

  /** The events inside an element, between its own and those behind it. */
  lemma InnerGoesOn(b: seq<byte>, visit: Event, inner: seq<Event>, rest: seq<Event>, from: nat, limit: nat, to: nat)
    requires GoesOn(b, inner, from) && LimitsWithin(inner, limit)
    requires from == to || from >= limit || Touched([visit] + inner + rest, from)
    ensures var all := [visit] + inner + rest;
            forall i :: 0 <= i < |inner| && inner[i].Visit? ==>
              inner[i].offset <= |b| && Passed(b, all, inner[i], to) && Entered(b, all, inner[i], to)
  {
    hide Passed, Entered, Touched;
    forall i | 0 <= i < |inner| && inner[i].Visit?
      ensures var all := [visit] + inner + rest;
              inner[i].offset <= |b| && Passed(b, all, inner[i], to) && Entered(b, all, inner[i], to)
    {
      StillGoesOn(b, [visit], inner, rest, inner[i], from, to);
    }
  }

  lemma RestGoesOn(b: seq<byte>, before: seq<Event>, rest: seq<Event>, stop: nat)
    requires GoesOn(b, rest, stop)
    ensures var all := before + rest;
            forall i :: 0 <= i < |rest| && rest[i].Visit? ==>
              rest[i].offset <= |b| && Passed(b, all, rest[i], stop) && Entered(b, all, rest[i], stop)
  {
    hide Passed, Entered, Touched;
    forall i | 0 <= i < |rest| && rest[i].Visit?
      ensures var all := before + rest;
              rest[i].offset <= |b| && Passed(b, all, rest[i], stop) && Entered(b, all, rest[i], stop)
    {
      StillGoesOn(b, before, rest, [], rest[i], stop, stop);
      assert before + rest + [] == before + rest;
    }
  }

  lemma StepGoesOn(b: seq<byte>, visit: Event, inner: seq<Event>, rest: seq<Event>, from: nat, limit: nat, stop: nat)
    requires visit.Visit? && visit.offset <= |b|
    requires GoesOn(b, inner, from) && LimitsWithin(inner, limit) && GoesOn(b, rest, stop)
    requires from == stop || from >= limit || Touched([visit] + inner + rest, from)
    requires var all := [visit] + inner + rest; Passed(b, all, visit, stop) && Entered(b, all, visit, stop)
    ensures GoesOn(b, [visit] + inner + rest, stop)
  {
    hide Passed, Entered, Touched;
    InnerGoesOn(b, visit, inner, rest, from, limit, stop);
    RestGoesOn(b, [visit] + inner, rest, stop);
    var all := [visit] + inner + rest;
    forall i | 0 <= i < |all| && all[i].Visit?
      ensures all[i].offset <= |b| && Passed(b, all, all[i], stop) && Entered(b, all, all[i], stop)
    {
      if 1 <= i <= |inner| {
        assert all[i] == inner[i - 1];
      } else if i > |inner| {
        assert all[i] == rest[i - 1 - |inner|];
      }
    }
  }

  lemma VisitTouches(visit: Event, x: seq<Event>, y: seq<Event>)
    requires visit.Visit?
    ensures Touched([visit] + x + y, visit.offset)
  {
    assert ([visit] + x + y)[0] == visit;
  }

  lemma NothingGoesOn(b: seq<byte>, stop: nat)
    ensures GoesOn(b, [], stop) && LimitsWithin([], stop)
  {
  }

  lemma {:induction false} WalkGoesOn(b: seq<byte>, pos: nat, end: nat, t: Terminator, depth: nat)
    requires end <= |b| && DepthOk(t, depth)
    ensures var w := Walk(b, pos, end, t, depth); GoesOn(b, w.events, w.pos) && LooksAt(w.events, pos, w.pos, end, t)
    decreases if pos < end then end - pos else 0
  {
    hide DecodeHeader, IsMaster, GoesOn, Walk, Passed, Entered, Touched, DocTypeText, LimitsWithin;
    if pos >= end {
      WalkDone(b, pos, end, t, depth);
      NothingGoesOn(b, pos);
      NothingGoesOn(b, end);
    } else if DecodeHeader(b[pos..]).Failure? {
      WalkTorn(b, pos, end, t, depth);
      DamageGoesOn(b, pos, end);
    } else if Ends(t, DecodeHeader(b[pos..]).value.id) {
      WalkEnded(b, pos, end, t, depth);
      NothingGoesOn(b, pos);
      NothingGoesOn(b, end);
    } else {
      var h := DecodeHeader(b[pos..]).value;
      HeaderBounds(b[pos..]);
      if h.size == UNKNOWN_SIZE && (h.id == SEGMENT || h.id == CLUSTER) {
        WalkOpen(b, pos, end, t, depth);
        WalkGoesOn(b, pos + h.length, end, EndOf(h.id), depth + 1);
        var inner := Walk(b, pos + h.length, end, EndOf(h.id), depth + 1);
        WalkGoesOn(b, inner.pos, end, t, depth);
        OpenGoesOn(b, pos, end, t, depth);
      } else if h.size == UNKNOWN_SIZE || pos + h.length + h.size > end {
        WalkBroken(b, pos, end, t, depth);
        BrokenGoesOn(b, pos, end, depth);
      } else if IsMaster(h.id) && depth < MAX_DEPTH {
        WalkMaster(b, pos, end, t, depth);
        WalkGoesOn(b, pos + h.length, pos + h.length + h.size, Exact, depth + 1);
        WalkGoesOn(b, pos + h.length + h.size, end, t, depth);
        MasterGoesOn(b, pos, end, t, depth);
      } else {
        WalkLeaf(b, pos, end, t, depth);
        WalkGoesOn(b, pos + h.length + h.size, end, t, depth);
        LeafGoesOn(b, pos, end, t, depth);
      }
    }
  }

  lemma DamageGoesOn(b: seq<byte>, pos: nat, end: nat)
    requires pos < end
    ensures GoesOn(b, [Damage(pos, true)], pos) && Touched([Damage(pos, true)], pos)
    ensures LimitsWithin([Damage(pos, true)], end)
  {
    assert IsAt([Damage(pos, true)][0], pos);
  }

  lemma BrokenGoesOn(b: seq<byte>, pos: nat, end: nat, depth: nat)
    requires pos < end <= |b| && DecodeHeader(b[pos..]).Success?
    requires var h := DecodeHeader(b[pos..]).value;
             if h.size == UNKNOWN_SIZE then h.id != SEGMENT && h.id != CLUSTER else pos + h.length + h.size > end
    ensures var h := DecodeHeader(b[pos..]).value;
            var events := [Visit(pos, h.id, depth, pos + h.length, end)] + [Damage(pos, false)] + [];
            GoesOn(b, events, pos) && LimitsWithin(events, end) && Touched(events, pos)
  {
    hide DecodeHeader;
    var h := DecodeHeader(b[pos..]).value;
    VisitTouches(Visit(pos, h.id, depth, pos + h.length, end), [Damage(pos, false)], []);
  }

  lemma LeafGoesOn(b: seq<byte>, pos: nat, end: nat, t: Terminator, depth: nat)
    requires Recordable(b, pos, end, t, depth)
    requires var h := DecodeHeader(b[pos..]).value;
             h.size != UNKNOWN_SIZE && pos + h.length + h.size <= end && !(IsMaster(h.id) && depth < MAX_DEPTH)
    requires var h := DecodeHeader(b[pos..]).value;
             var next := pos + h.length + h.size;
             var rest := Walk(b, next, end, t, depth);
             GoesOn(b, rest.events, rest.pos) && LooksAt(rest.events, next, rest.pos, end, t)
    ensures var w := Walk(b, pos, end, t, depth); GoesOn(b, w.events, w.pos) && LooksAt(w.events, pos, w.pos, end, t)
  {
    hide DecodeHeader, IsMaster, GoesOn, Walk, Touched, DocTypeText;
    WalkLeaf(b, pos, end, t, depth);
    var h := DecodeHeader(b[pos..]).value;
    var next := pos + h.length + h.size;
    var rest := Walk(b, next, end, t, depth);
    var visit, text := Visit(pos, h.id, depth, next, end), DocTypeText(h.id, depth, b[pos + h.length..next]);
    TextGoesOn(b, h.id, depth, b[pos + h.length..next], end);
    VisitTouches(visit, text, rest.events);
    TouchedMore([visit] + text, rest.events, next);
    TouchedMore([visit] + text, rest.events, rest.pos);
    StepGoesOn(b, visit, text, rest.events, rest.pos, end, rest.pos);
    WithinMore([visit], text, rest.events, end, end);
  }

  lemma TextGoesOn(b: seq<byte>, id: nat, depth: nat, body: seq<byte>, end: nat)
    ensures LimitsWithin(DocTypeText(id, depth, body), end)
    ensures forall stop :: GoesOn(b, DocTypeText(id, depth, body), stop)
  {
    hide ValidUtf8, TrimNuls;
  }

  lemma MasterGoesOn(b: seq<byte>, pos: nat, end: nat, t: Terminator, depth: nat)
    requires Recordable(b, pos, end, t, depth)
    requires var h := DecodeHeader(b[pos..]).value;
             h.size != UNKNOWN_SIZE && pos + h.length + h.size <= end && IsMaster(h.id) && depth < MAX_DEPTH
    requires var h := DecodeHeader(b[pos..]).value;
             var next := pos + h.length + h.size;
             var inner, rest := Walk(b, pos + h.length, next, Exact, depth + 1), Walk(b, next, end, t, depth);
             && GoesOn(b, inner.events, inner.pos) && LooksAt(inner.events, pos + h.length, inner.pos, next, Exact)
             && GoesOn(b, rest.events, rest.pos) && LooksAt(rest.events, next, rest.pos, end, t)
    ensures var w := Walk(b, pos, end, t, depth); GoesOn(b, w.events, w.pos) && LooksAt(w.events, pos, w.pos, end, t)
  {
    hide DecodeHeader, IsMaster, GoesOn, Walk, Touched;
    WalkMaster(b, pos, end, t, depth);
    var h := DecodeHeader(b[pos..]).value;
    var body, next := pos + h.length, pos + h.length + h.size;
    var inner, rest := Walk(b, body, next, Exact, depth + 1), Walk(b, next, end, t, depth);
    var visit := Visit(pos, h.id, depth, body, end);
    VisitTouches(visit, inner.events, rest.events);
    InnerTouches(visit, inner.events, rest.events, body);
    InnerTouches(visit, inner.events, rest.events, inner.pos);
    TouchedMore([visit] + inner.events, rest.events, next);
    TouchedMore([visit] + inner.events, rest.events, rest.pos);
    StepGoesOn(b, visit, inner.events, rest.events, inner.pos, next, rest.pos);
    WithinMore([visit], inner.events, rest.events, next, end);
  }

  lemma InnerTouches(visit: Event, inner: seq<Event>, rest: seq<Event>, at: nat)
    ensures Touched(inner, at) ==> Touched([visit] + inner + rest, at)
  {
    hide Touched;
    TouchedMore([visit], inner, at);
    TouchedMore([visit] + inner, rest, at);
  }

  lemma OpenGoesOn(b: seq<byte>, pos: nat, end: nat, t: Terminator, depth: nat)
    requires Recordable(b, pos, end, t, depth)
    requires var h := DecodeHeader(b[pos..]).value; h.size == UNKNOWN_SIZE && (h.id == SEGMENT || h.id == CLUSTER)
    requires var h := DecodeHeader(b[pos..]).value; DepthOk(EndOf(h.id), depth + 1)
    requires var h := DecodeHeader(b[pos..]).value;
             var inner := Walk(b, pos + h.length, end, EndOf(h.id), depth + 1);
             var rest := Walk(b, inner.pos, end, t, depth);
             && GoesOn(b, inner.events, inner.pos) && LooksAt(inner.events, pos + h.length, inner.pos, end, EndOf(h.id))
             && GoesOn(b, rest.events, rest.pos) && LooksAt(rest.events, inner.pos, rest.pos, end, t)
    ensures var w := Walk(b, pos, end, t, depth); GoesOn(b, w.events, w.pos) && LooksAt(w.events, pos, w.pos, end, t)
  {
    hide DecodeHeader, IsMaster, GoesOn, Walk, Touched;
    WalkOpen(b, pos, end, t, depth);
    var h := DecodeHeader(b[pos..]).value;
    var body := pos + h.length;
    var inner := Walk(b, body, end, EndOf(h.id), depth + 1);
    var rest := Walk(b, inner.pos, end, t, depth);
    var visit := Visit(pos, h.id, depth, body, end);
    VisitTouches(visit, inner.events, rest.events);
    InnerTouches(visit, inner.events, rest.events, body);
    TouchedMore([visit] + inner.events, rest.events, inner.pos);
    TouchedMore([visit] + inner.events, rest.events, rest.pos);
    StepGoesOn(b, visit, inner.events, rest.events, inner.pos, end, rest.pos);
    WithinMore([visit], inner.events, rest.events, end, end);
  }

  // ----- the scan -----

  /** Nothing is left out: behind an element of known extent its extent's end, or an element or a damage. */
  predicate NextIsSeen(b: seq<byte>, events: seq<Event>, v: Event)
    requires v.Visit? && v.offset <= |b|
  {
    && (HasExtent(b, v) ==>
          var behind := BodyAt(b, v) + SizeAt(b, v); behind >= v.limit || Touched(events, behind))
    && (HasExtent(b, v) && IsMaster(v.id) && v.depth < 64 ==> SizeAt(b, v) == 0 || Touched(events, BodyAt(b, v)))
    && (IsOpen(b, v) ==> BodyAt(b, v) >= v.limit || Touched(events, BodyAt(b, v)))
  }

  /**
   * For the scan of any bytes: the first position is looked at, and so is, for every recorded element,
   * the position behind it if its extent is known, whatever is inside, and the first one inside it if
   * it is a master within the depth cap or one of unknown size. To be looked at is to be recorded or
   * to be where a damage is found.
   */
  lemma ScanGoesOn(b: seq<byte>)
    ensures var events := ScanEvents(b);
            && (b != [] ==> Touched(events, 0))
            && forall i :: 0 <= i < |events| && events[i].Visit? ==>
                 events[i].offset <= |b| && NextIsSeen(b, events, events[i])
  {
    hide Walk, IsMaster, SizeAt, BodyAt, Touched;
    WalkGoesOn(b, 0, |b|, Exact, 0);
    var w := Walk(b, 0, |b|, Exact, 0);
    forall i | 0 <= i < |w.events| && w.events[i].Visit?
      ensures w.events[i].offset <= |b| && NextIsSeen(b, w.events, w.events[i])
    {
      assert w.events[i].limit <= |b|;
      assert Passed(b, w.events, w.events[i], w.pos) && Entered(b, w.events, w.events[i], w.pos);
    }
  }
}
