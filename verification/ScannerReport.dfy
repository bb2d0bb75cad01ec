/**
 * What a scan reports about any bytes, in terms of the elements it has recorded: the findings, the
 * unlisted IDs, the document type, the counters, and where it says that it stopped.
 */
module ScannerReport {
  import opened Wrappers
  import opened Bytes
  import opened Ebml
  import opened Ids
  import opened WebmProfile
  import opened Elements
  import opened Scanner
  import opened ScannerOrder
  import opened ScannerInverts

  // ----- the report as it is documented -----

  function UpTo<T>(s: seq<T>, n: nat): seq<T> {
    if |s| <= n then s else s[..n]
  }

  predicate OffProfileStatus(s: Support) {
    s == Unsupported || s == Deprecated
  }

  /** The off-profile ones among the elements, each with its offset, its ID and its status. */
  function Flagged(elements: seq<(nat, nat)>): seq<Finding> {
    if elements == [] then []
    else
      var (offset, id) := elements[|elements| - 1];
      Flagged(elements[..|elements| - 1])
      + if OffProfileStatus(ElementSupport(id)) then [Finding(offset, id, ElementSupport(id))] else []
  }

  /** The distinct unlisted IDs, in the order in which they come up. */
  function NewUnlisted(elements: seq<(nat, nat)>): (ids: seq<nat>)
    ensures forall id :: id in ids <==> exists k :: 0 <= k < |elements| && elements[k].1 == id && IsUnlisted(id)
    ensures forall i, j :: 0 <= i < j < |ids| ==> ids[i] != ids[j]
  {
    if elements == [] then []
    else
      var before, id := NewUnlisted(elements[..|elements| - 1]), elements[|elements| - 1].1;
      assert elements == elements[..|elements| - 1] + [elements[|elements| - 1]];
      if IsUnlisted(id) && id !in before then before + [id] else before
  }

  predicate IsUnlisted(id: nat) {
    ElementSupport(id) == Unlisted
  }

  function Counted(elements: seq<(nat, nat)>, s: Support): nat {
    if elements == [] then 0
    else Counted(elements[..|elements| - 1], s) + if ElementSupport(elements[|elements| - 1].1) == s then 1 else 0
  }

  /** What each recorded element was, and where: the visits, without what else the walk meets. */
  function Recordings(events: seq<Event>): seq<(nat, nat)> {
    if events == [] then []
    else
      var e := events[|events| - 1];
      Recordings(events[..|events| - 1]) + if e.Visit? then [(e.offset, e.id)] else []
  }

  function FirstText(events: seq<Event>): Option<seq<byte>> {
    if events == [] then None
    else
      var before, e := FirstText(events[..|events| - 1]), events[|events| - 1];
      if before.None? && e.Text? then Some(e.text) else before
  }

  /** A torn header counts as the first damage only; any other damage also after it. */
  function LastStop(events: seq<Event>): Option<nat> {
    if events == [] then None
    else
      var before, e := LastStop(events[..|events| - 1]), events[|events| - 1];
      if e.Damage? && (!e.firstOnly || before.None?) then Some(e.offset) else before
  }

  predicate Reports(r: Report, elements: seq<(nat, nat)>, docType: Option<seq<byte>>, stop: Option<nat>) {
    && r.findings == UpTo(Flagged(elements), 4096)
    && (r.truncated <==> |Flagged(elements)| > 4096)
    && r.unlistedIds == UpTo(NewUnlisted(elements), 4096)
    && r.docType == docType && r.stoppedAt == stop
    && r.elements == |elements|
    && r.supported == Counted(elements, Supported) && r.unsupported == Counted(elements, Unsupported)
    && r.deprecated == Counted(elements, Deprecated) && r.unlisted == Counted(elements, Unlisted)
  }

  // ----- the fold computes it -----

  lemma FindingsGrow(found: seq<Finding>, elements: seq<(nat, nat)>, offset: nat, id: nat)
    requires found == UpTo(Flagged(elements), 4096)
    ensures var s, more := ElementSupport(id), Flagged(elements + [(offset, id)]);
            && (!OffProfileStatus(s) ==> more == Flagged(elements))
            && (OffProfileStatus(s) ==> |more| == |Flagged(elements)| + 1)
            && UpTo(more, 4096)
               == if OffProfileStatus(s) && |found| < 4096 then found + [Finding(offset, id, s)] else found
  {
    hide ElementSupport;
    var more := elements + [(offset, id)];
    assert more[..|more| - 1] == elements;
  }

  lemma UnlistedGrow(ids: seq<nat>, elements: seq<(nat, nat)>, offset: nat, id: nat)
    requires ids == UpTo(NewUnlisted(elements), 4096)
    ensures UpTo(NewUnlisted(elements + [(offset, id)]), 4096)
         == if IsUnlisted(id) && id !in ids && |ids| < 4096 then ids + [id] else ids
  {
    hide IsUnlisted;
    var more := elements + [(offset, id)];
    assert more[..|more| - 1] == elements;
    if |NewUnlisted(elements)| <= 4096 {
      assert ids == NewUnlisted(elements);
    }
  }

  lemma CountsGrow(elements: seq<(nat, nat)>, offset: nat, id: nat, s: Support)
    ensures Counted(elements + [(offset, id)], s)
         == Counted(elements, s) + if ElementSupport(id) == s then 1 else 0
  {
    hide ElementSupport;
    var more := elements + [(offset, id)];
    assert more[..|more| - 1] == elements;
  }

  lemma RecordedReports(r: Report, elements: seq<(nat, nat)>, offset: nat, id: nat)
    requires Reports(r, elements, r.docType, r.stoppedAt)
    ensures Reports(Recorded(r, offset, id), elements + [(offset, id)], r.docType, r.stoppedAt)
  {
    hide ElementSupport, Flagged, NewUnlisted, Counted, UpTo;
    FindingsGrow(r.findings, elements, offset, id);
    UnlistedGrow(r.unlistedIds, elements, offset, id);
    CountsGrow(elements, offset, id, Supported);
    CountsGrow(elements, offset, id, Unsupported);
    CountsGrow(elements, offset, id, Deprecated);
    CountsGrow(elements, offset, id, Unlisted);
    UpToLength(Flagged(elements), 4096);
  }

  lemma UpToLength<T>(s: seq<T>, n: nat)
    ensures |UpTo(s, n)| < n <==> |s| < n
  {
  }

  lemma AppliedReports(r: Report, events: seq<Event>, e: Event)
    requires Reports(r, Recordings(events), FirstText(events), LastStop(events))
    ensures var more := events + [e]; Reports(Applied(r, e), Recordings(more), FirstText(more), LastStop(more))
  {
    hide Reports, Recorded;
    assert (events + [e])[..|events + [e]| - 1] == events;
    match e
    case Visit(offset, id, _, _, _) =>
      ReportsStops(r, events);
      RecordedReports(r, Recordings(events), offset, id);
    case Text(text) =>
      ReportsStops(r, events);
      TextReports(r, Recordings(events), text);
      assert Recordings(events) + [] == Recordings(events);
    case Damage(offset, firstOnly) =>
      ReportsStops(r, events);
      DamageReports(r, Recordings(events), offset);
      assert Recordings(events) + [] == Recordings(events);
  }

  lemma ReportsStops(r: Report, events: seq<Event>)
    requires Reports(r, Recordings(events), FirstText(events), LastStop(events))
    ensures r.docType == FirstText(events) && r.stoppedAt == LastStop(events)
  {
  }

  lemma TextReports(r: Report, elements: seq<(nat, nat)>, text: seq<byte>)
    requires Reports(r, elements, r.docType, r.stoppedAt)
    ensures Reports(r.(docType := Some(text)), elements, Some(text), r.stoppedAt)
  {
  }

  lemma DamageReports(r: Report, elements: seq<(nat, nat)>, offset: nat)
    requires Reports(r, elements, r.docType, r.stoppedAt)
    ensures Reports(r.(stoppedAt := Some(offset)), elements, r.docType, Some(offset))
  {
  }

  lemma {:induction false} FoldReports(r: Report, before: seq<Event>, events: seq<Event>)
    requires Reports(r, Recordings(before), FirstText(before), LastStop(before))
    ensures var all := before + events;
            Reports(ReportFrom(r, events), Recordings(all), FirstText(all), LastStop(all))
    decreases |events|
  {
    hide Reports, Applied, Recordings, FirstText, LastStop;
    if events == [] {
      assert before + events == before;
    } else {
      AppliedReports(r, before, events[0]);
      FoldReports(Applied(r, events[0]), before + [events[0]], events[1..]);
      assert before + [events[0]] + events[1..] == before + events;
    }
  }

  lemma NothingReported()
    ensures Reports(EMPTY_REPORT, Recordings([]), FirstText([]), LastStop([]))
  {
  }

  /**
   * The report of any scan: the findings are the off-profile ones among the recorded elements, in
   * order, up to 4096; it says so if there are more; the unlisted IDs come once each, in the order
   * in which they came up; every counter counts its status; the first DocType string is kept.
   */
  lemma ScanReportsElements(b: seq<byte>)
    ensures var events := ScanEvents(b);
            Reports(ScanReport(b), Recordings(events), FirstText(events), LastStop(events))
  {
    hide Reports, Recordings, FirstText, LastStop, ReportFrom;
    NothingReported();
    FoldReports(EMPTY_REPORT, [], ScanEvents(b));
    assert [] + ScanEvents(b) == ScanEvents(b);
  }

  // ----- documents -----

  lemma {:induction false} RecordingsAreListed(events: seq<Event>)
    ensures Recordings(events) == Listed(Visits(events))
  {
    if events == [] {
    } else {
      var init, e := events[..|events| - 1], events[|events| - 1];
      assert events == init + [e];
      RecordingsAreListed(init);
      VisitsAppend(init, [e]);
      assert [e][1..] == [];
      assert Visits([e]) == if e.Visit? then [e] else [];
      ListedAppend(Visits(init), Visits([e]));
      if e.Visit? {
        assert Listed([e]) == [(e.offset, e.id)] + Listed([e][1..]);
      }
    }
  }

  /** The report on a document: its off-profile elements at their offsets, in preorder. */
  lemma ScanReportsDocument(es: seq<Elem>)
    requires WellFormedAll(es) && AllMasters(es) && HeightAll(es) <= MAX_DEPTH
    ensures Reports(ScanReport(SerAll(es)), PreorderAll(es, 0), FirstText(ScanEvents(SerAll(es))), None)
  {
    hide Reports, Recordings, FirstText, LastStop, ReportFrom, PreorderAll, Listed, Visits, WellFormedAll, AllMasters,
      HeightAll, SerAll;
    var b := SerAll(es);
    ScanListsDocument(es);
    ScanReportsElements(b);
    RecordingsAreListed(ScanEvents(b));
    ReportsStops(ScanReport(b), ScanEvents(b));
  }

  // ----- the document type -----

  /** The text of a DocType element that is no Top-Level one, is at most 64 bytes long and is UTF-8. */
  function DocTypeAt(b: seq<byte>, e: Event): Option<seq<byte>> {
    if !e.Visit? || e.id != 0x4282 || e.depth == 0 || e.offset >= |b| || e.limit > |b| then None
    else
      match DecodeHeader(b[e.offset..])
      case Failure(_) => None
      case Success(h) =>
        if h.size > 64 || e.offset + h.length + h.size > e.limit then None
        else
          var text := TrimNuls(b[e.offset + h.length..e.offset + h.length + h.size]);
          if ValidUtf8(text) then Some(text) else None
  }

  function FirstDocType(b: seq<byte>, events: seq<Event>): Option<seq<byte>> {
    if events == [] then None
    else if DocTypeAt(b, events[0]).Some? then DocTypeAt(b, events[0])
    else FirstDocType(b, events[1..])
  }

  lemma {:induction false} TrimmedIsPrefix(body: seq<byte>)
    ensures var t := TrimNuls(body);
            && |t| <= |body| && body[..|t|] == t && (t != [] ==> t[|t| - 1] != 0)
            && forall i :: |t| <= i < |body| ==> body[i] == 0
    decreases |body|
  {
    if body != [] && body[|body| - 1] == 0 {
      TrimmedIsPrefix(body[..|body| - 1]);
    }
  }

  function Or<T>(a: Option<T>, b: Option<T>): Option<T> {
    if a.Some? then a else b
  }

  lemma {:induction false} FirstTextAppend(x: seq<Event>, y: seq<Event>)
    ensures FirstText(x + y) == Or(FirstText(x), FirstText(y))
    decreases |y|
  {
    if y == [] {
      assert x + y == x;
    } else {
      assert (x + y)[..|x + y| - 1] == x + y[..|y| - 1];
      FirstTextAppend(x, y[..|y| - 1]);
    }
  }

  lemma {:induction false} FirstDocTypeAppend(b: seq<byte>, x: seq<Event>, y: seq<Event>)
    ensures FirstDocType(b, x + y) == Or(FirstDocType(b, x), FirstDocType(b, y))
  {
    hide DocTypeAt;
    if x == [] {
      assert x + y == y;
    } else {
      assert (x + y)[1..] == x[1..] + y;
      FirstDocTypeAppend(b, x[1..], y);
    }
  }

  lemma FirstOfStep(b: seq<byte>, visit: Event, inner: seq<Event>, rest: seq<Event>)
    requires visit.Visit?
    ensures FirstText([visit] + inner + rest) == Or(FirstText(inner), FirstText(rest))
    ensures FirstDocType(b, [visit] + inner + rest)
         == Or(Or(DocTypeAt(b, visit), FirstDocType(b, inner)), FirstDocType(b, rest))
  {
    hide DocTypeAt;
    FirstTextAppend([visit] + inner, rest);
    FirstTextAppend([visit], inner);
    assert [visit][..0] == [];
    FirstDocTypeAppend(b, [visit] + inner, rest);
    FirstDocTypeAppend(b, [visit], inner);
    assert [visit][1..] == [];
  }

  /** The step itself: only a leaf can be a DocType. */
  lemma StepText(b: seq<byte>, pos: nat, end: nat, t: Terminator, depth: nat, visit: Event)
    requires pos < end <= |b| && DepthOk(t, depth) && DecodeHeader(b[pos..]).Success?
    requires var s := StepOf(b, pos, end, t, depth); s.Opened? || s.Descended? || s.Skipped? || s.Broken?
    requires var h := DecodeHeader(b[pos..]).value;
             visit.Visit? && visit.offset == pos && visit.id == h.id && visit.depth == depth && visit.limit == end
    ensures var h, s := DecodeHeader(b[pos..]).value, StepOf(b, pos, end, t, depth);
            && (!s.Skipped? ==> DocTypeAt(b, visit) == None)
            && (s.Skipped? ==>
                  var texts := DocTypeText(h.id, depth, b[pos + h.length..pos + h.length + h.size]);
                  FirstText(texts) == DocTypeAt(b, visit) && FirstDocType(b, texts) == None)
  {
    hide DecodeHeader, ValidUtf8, TrimNuls;
    DocTypeIsLeaf();
    hide IsMaster;
  }

  lemma DocTypeIsLeaf()
    ensures !IsMaster(0x4282) && SEGMENT != 0x4282 && CLUSTER != 0x4282 && EBML_DOC_TYPE == 0x4282
    ensures UNKNOWN_SIZE > 64
  {
  }

  lemma {:induction false} WalkText(b: seq<byte>, pos: nat, end: nat, t: Terminator, depth: nat)
    requires end <= |b| && DepthOk(t, depth)
    ensures var w := Walk(b, pos, end, t, depth); FirstText(w.events) == FirstDocType(b, w.events)
    decreases if pos < end then end - pos else 0
  {
    hide Walk, DecodeHeader, IsMaster, DocTypeText, DocTypeAt, StepOf, FirstText, FirstDocType;
    var step := StepOf(b, pos, end, t, depth);
    if step.Done? || step.Torn? || step.Ended? {
      StopText(b, pos, end, t, depth);
    } else if step.Broken? {
      BreakText(b, pos, end, t, depth);
    } else {
      var visit, inner, mid := StepsOn(b, pos, end, t, depth);
      StepText(b, pos, end, t, depth, visit);
      WalkText(b, mid, end, t, depth);
      FirstOfStep(b, visit, inner, Walk(b, mid, end, t, depth).events);
      if step.Opened? {
        WalkText(b, visit.reach, end, EndOf(DecodeHeader(b[pos..]).value.id), depth + 1);
      } else if step.Descended? {
        WalkText(b, visit.reach, mid, Exact, depth + 1);
      }
    }
  }

  lemma StopText(b: seq<byte>, pos: nat, end: nat, t: Terminator, depth: nat)
    requires end <= |b| && DepthOk(t, depth)
    requires var s := StepOf(b, pos, end, t, depth); s.Done? || s.Torn? || s.Ended?
    ensures var w := Walk(b, pos, end, t, depth); FirstText(w.events) == FirstDocType(b, w.events)
  {
    hide Walk, DecodeHeader;
    var s := StepOf(b, pos, end, t, depth);
    if s.Done? {
      WalkDone(b, pos, end, t, depth);
    } else if s.Torn? {
      WalkTorn(b, pos, end, t, depth);
      assert [Damage(pos, true)][..0] == [] && [Damage(pos, true)][1..] == [];
    } else {
      WalkEnded(b, pos, end, t, depth);
    }
  }

  lemma BreakText(b: seq<byte>, pos: nat, end: nat, t: Terminator, depth: nat)
    requires end <= |b| && DepthOk(t, depth) && StepOf(b, pos, end, t, depth).Broken?
    ensures var w := Walk(b, pos, end, t, depth); FirstText(w.events) == FirstDocType(b, w.events)
  {
    hide Walk, DecodeHeader, DocTypeAt;
    WalkBroken(b, pos, end, t, depth);
    var h := DecodeHeader(b[pos..]).value;
    var visit := Visit(pos, h.id, depth, pos + h.length, end);
    StepText(b, pos, end, t, depth, visit);
    FirstOfStep(b, visit, [Damage(pos, false)], []);
    assert [Damage(pos, false)][..0] == [] && [Damage(pos, false)][1..] == [];
    assert DocTypeAt(b, Damage(pos, false)) == None by { DamageIsNoText(b, pos); }
  }

  lemma DamageIsNoText(b: seq<byte>, pos: nat)
    ensures DocTypeAt(b, Damage(pos, false)) == None
  {
  }

  /** The document type of any bytes is the text of the first recorded DocType element that has one. */
  lemma ScanFindsDocType(b: seq<byte>)
    ensures ScanReport(b).docType == FirstDocType(b, ScanEvents(b))
  {
    hide Reports, Recordings, FirstText, LastStop, ReportFrom, FirstDocType, Walk;
    ScanReportsElements(b);
    ReportsStops(ScanReport(b), ScanEvents(b));
    WalkText(b, 0, |b|, Exact, 0);
  }

  // ----- where a scan says that it stopped -----

  predicate Hard(e: Event) {
    e.Damage? && !e.firstOnly
  }

  predicate Placed(b: seq<byte>, e: Event, lo: nat, hi: nat, end: nat) {
    !e.Text? ==>
      && lo <= e.offset <= hi && e.offset < end <= |b|
      && (DecodeHeader(b[e.offset..]).Success? <==> !(e.Damage? && e.firstOnly))
  }

  /** All events lie in their extent, in file order; a torn header is one that cannot be read. */
  predicate InOrder(b: seq<byte>, events: seq<Event>, lo: nat, hi: nat, end: nat) {
    && (forall i :: 0 <= i < |events| ==> Placed(b, events[i], lo, hi, end))
    && (forall i, j :: 0 <= i < j < |events| ==> Before(events[i], events[j]))
  }

  predicate Before(e: Event, f: Event) {
    !e.Text? && !f.Text? ==> e.offset <= f.offset
  }

  lemma JoinInOrder(b: seq<byte>, x: seq<Event>, y: seq<Event>, lo: nat, mid: nat, hi: nat, end: nat)
    requires InOrder(b, x, lo, mid, end) && InOrder(b, y, mid, hi, end) && lo <= mid <= hi
    ensures InOrder(b, x + y, lo, hi, end)
  {
    hide DecodeHeader;
    var all := x + y;
    forall i | 0 <= i < |all|
      ensures Placed(b, all[i], lo, hi, end)
    {
      if i >= |x| {
        assert Placed(b, y[i - |x|], mid, hi, end);
      }
    }
    forall i, j | 0 <= i < j < |all|
      ensures Before(all[i], all[j])
    {
      if i < |x| <= j {
        assert Placed(b, y[j - |x|], mid, hi, end);
      } else if i >= |x| {
        assert Before(y[i - |x|], y[j - |x|]);
      }
    }
  }

  lemma WiderInOrder(b: seq<byte>, x: seq<Event>, lo: nat, hi: nat, end: nat, from: nat, to: nat, limit: nat)
    requires InOrder(b, x, lo, hi, end) && from <= lo && end <= limit <= |b| && (hi <= to || end <= to)
    ensures InOrder(b, x, from, to, limit)
  {
    hide DecodeHeader;
    forall i | 0 <= i < |x|
      ensures Placed(b, x[i], from, to, limit)
    {
      assert Placed(b, x[i], lo, hi, end);
    }
  }

  lemma AloneInOrder(b: seq<byte>, e: Event, lo: nat, hi: nat, end: nat)
    requires Placed(b, e, lo, hi, end)
    ensures InOrder(b, [e], lo, hi, end)
  {
    hide DecodeHeader;
  }

  lemma TextInOrder(b: seq<byte>, id: nat, depth: nat, body: seq<byte>, lo: nat, hi: nat, end: nat)
    ensures InOrder(b, DocTypeText(id, depth, body), lo, hi, end)
  {
    hide DecodeHeader;
  }

  /** Every walk meets its events in file order. */
  lemma {:induction false} WalkInOrder(b: seq<byte>, pos: nat, end: nat, t: Terminator, depth: nat)
    requires end <= |b| && DepthOk(t, depth)
    ensures var w := Walk(b, pos, end, t, depth); InOrder(b, w.events, pos, w.pos, end)
    decreases if pos < end then end - pos else 0
  {
    hide Walk, InOrder, DecodeHeader, IsMaster, DocTypeText, StepOf;
    var w := Walk(b, pos, end, t, depth);
    var step := StepOf(b, pos, end, t, depth);
    if step.Done? || step.Torn? || step.Ended? {
      StopsInOrder(b, pos, end, t, depth);
    } else if step.Broken? {
      BreaksInOrder(b, pos, end, t, depth);
    } else {
      var visit, inner, mid := StepsOn(b, pos, end, t, depth);
      if step.Opened? {
        var it := EndOf(DecodeHeader(b[pos..]).value.id);
        WalkInOrder(b, visit.reach, end, it, depth + 1);
        WiderInOrder(b, inner, visit.reach, mid, end, pos, mid, end);
      } else if step.Descended? {
        WalkInOrder(b, visit.reach, mid, Exact, depth + 1);
        WiderInOrder(b, inner, visit.reach, Walk(b, visit.reach, mid, Exact, depth + 1).pos, mid, pos, mid, end);
      } else {
        var h := DecodeHeader(b[pos..]).value;
        TextInOrder(b, h.id, depth, b[pos + h.length..mid], pos, mid, end);
      }
      WalkInOrder(b, mid, end, t, depth);
      AloneInOrder(b, visit, pos, pos, end);
      JoinInOrder(b, [visit], inner, pos, pos, mid, end);
      JoinInOrder(b, [visit] + inner, Walk(b, mid, end, t, depth).events, pos, mid, w.pos, end);
    }
  }

  /** A step that goes on: its visit, what it meets inside the element, and where the walk goes on. */
  lemma StepsOn(b: seq<byte>, pos: nat, end: nat, t: Terminator, depth: nat)
    returns (visit: Event, inner: seq<Event>, mid: nat)
    requires end <= |b| && DepthOk(t, depth)
    requires var s := StepOf(b, pos, end, t, depth); s.Opened? || s.Descended? || s.Skipped?
    ensures DecodeHeader(b[pos..]).Success? && pos < end && pos < mid
    ensures visit.Visit? && visit.offset == pos < visit.reach && visit.depth == depth && visit.limit == end
    ensures visit.id == DecodeHeader(b[pos..]).value.id
    ensures var w, rest := Walk(b, pos, end, t, depth), Walk(b, mid, end, t, depth);
            w.events == [visit] + inner + rest.events && w.pos == rest.pos
    ensures var h := DecodeHeader(b[pos..]).value;
            match StepOf(b, pos, end, t, depth)
            case Opened =>
              && DepthOk(EndOf(h.id), depth + 1)
              && var i := Walk(b, visit.reach, end, EndOf(h.id), depth + 1); inner == i.events && mid == i.pos
            case Descended =>
              && visit.reach <= mid <= end && DepthOk(Exact, depth + 1)
              && inner == Walk(b, visit.reach, mid, Exact, depth + 1).events
            case Skipped =>
              && pos + h.length <= mid == pos + h.length + h.size <= end
              && inner == DocTypeText(h.id, depth, b[pos + h.length..mid])
            case _ => true
  {
    hide Walk, DecodeHeader, IsMaster, DocTypeText;
    var step := StepOf(b, pos, end, t, depth);
    var h := DecodeHeader(b[pos..]).value;
    var body, next := pos + h.length, pos + h.length + h.size;
    HeaderBounds(b[pos..]);
    if step.Opened? {
      WalkOpen(b, pos, end, t, depth);
      var i := Walk(b, body, end, EndOf(h.id), depth + 1);
      visit, inner, mid := Visit(pos, h.id, depth, body, end), i.events, i.pos;
    } else if step.Descended? {
      WalkMaster(b, pos, end, t, depth);
      visit, inner, mid := Visit(pos, h.id, depth, body, end), Walk(b, body, next, Exact, depth + 1).events, next;
    } else {
      WalkLeaf(b, pos, end, t, depth);
      visit, inner, mid := Visit(pos, h.id, depth, next, end), DocTypeText(h.id, depth, b[body..next]), next;
    }
  }

  lemma StopsInOrder(b: seq<byte>, pos: nat, end: nat, t: Terminator, depth: nat)
    requires end <= |b| && DepthOk(t, depth)
    requires var s := StepOf(b, pos, end, t, depth); s.Done? || s.Torn? || s.Ended?
    ensures var w := Walk(b, pos, end, t, depth); InOrder(b, w.events, pos, w.pos, end)
  {
    hide Walk, DecodeHeader;
    var s := StepOf(b, pos, end, t, depth);
    if s.Done? {
      WalkDone(b, pos, end, t, depth);
    } else if s.Torn? {
      WalkTorn(b, pos, end, t, depth);
    } else {
      WalkEnded(b, pos, end, t, depth);
    }
  }

  lemma BreaksInOrder(b: seq<byte>, pos: nat, end: nat, t: Terminator, depth: nat)
    requires end <= |b| && DepthOk(t, depth) && StepOf(b, pos, end, t, depth).Broken?
    ensures var w := Walk(b, pos, end, t, depth); InOrder(b, w.events, pos, w.pos, end)
  {
    hide Walk, DecodeHeader, InOrder;
    WalkBroken(b, pos, end, t, depth);
    var h := DecodeHeader(b[pos..]).value;
    var visit, damage := Visit(pos, h.id, depth, pos + h.length, end), Damage(pos, false);
    AloneInOrder(b, visit, pos, pos, end);
    AloneInOrder(b, damage, pos, pos, end);
    JoinInOrder(b, [visit], [damage], pos, pos, pos, end);
    assert [visit] + [damage] + [] == [visit] + [damage];
  }

  lemma {:induction false} LastStopIs(events: seq<Event>)
    ensures LastStop(events).None? <==> forall i :: 0 <= i < |events| ==> !events[i].Damage?
    ensures LastStop(events).Some? ==>
              exists i :: 0 <= i < |events| && events[i].Damage? && LastStop(events) == Some(events[i].offset)
                          && (forall j :: 0 <= j < |events| && Hard(events[j]) ==> Hard(events[i]) && j <= i)
                          && (forall j :: 0 <= j < i && events[j].Damage? ==> Hard(events[i]))
  {
    if events != [] {
      var init, e := events[..|events| - 1], events[|events| - 1];
      LastStopIs(init);
      assert forall i :: 0 <= i < |init| ==> init[i] == events[i];
    }
  }

  predicate IsFirstDamage(events: seq<Event>, d: nat) {
    d < |events| && events[d].Damage? && forall i :: 0 <= i < d ==> !events[i].Damage?
  }

  /**
   * `scan_stopped_at` is documented as the first inconsistency. It is, if and only if everything that
   * breaks an extent lies where the first damage does: a later break moves it on.
   */
  lemma StopIsFirstExactly(b: seq<byte>, d: nat)
    requires IsFirstDamage(ScanEvents(b), d)
    ensures var events := ScanEvents(b);
            ScanReport(b).stoppedAt == Some(events[d].offset)
            <==> forall i :: 0 <= i < |events| && Hard(events[i]) ==> events[i].offset == events[d].offset
  {
    hide Walk, ReportFrom, Recordings, FirstText, LastStop, DecodeHeader, Reports;
    var events := ScanEvents(b);
    ScanReportsElements(b);
    ReportsStops(ScanReport(b), events);
    WalkInOrder(b, 0, |b|, Exact, 0);
    LastStopIs(events);
    FirstOrLater(b, events, d);
  }

  lemma FirstOrLater(b: seq<byte>, events: seq<Event>, d: nat)
    requires IsFirstDamage(events, d) && exists hi :: InOrder(b, events, 0, hi, |b|)
    ensures LastStop(events) == Some(events[d].offset)
            <==> forall i :: 0 <= i < |events| && Hard(events[i]) ==> events[i].offset == events[d].offset
  {
    hide LastStop, DecodeHeader;
    LastStopIs(events);
    var hi :| InOrder(b, events, 0, hi, |b|);
    var k :| 0 <= k < |events| && events[k].Damage? && LastStop(events) == Some(events[k].offset)
             && (forall j :: 0 <= j < |events| && Hard(events[j]) ==> Hard(events[k]) && j <= k)
             && (forall j :: 0 <= j < k && events[j].Damage? ==> Hard(events[k]));
    assert Placed(b, events[d], 0, hi, |b|) && Placed(b, events[k], 0, hi, |b|);
    if !Hard(events[k]) {
      assert k == d;
    } else {
      assert Before(events[d], events[k]) || d == k;
      forall i | 0 <= i < |events| && Hard(events[i])
        ensures events[d].offset <= events[i].offset <= events[k].offset
      {
        assert d <= i <= k;
        assert i == d || Before(events[d], events[i]);
        assert i == k || Before(events[i], events[k]);
      }
    }
  }

  /** Two BlockGroups in a row, each with a Void that is longer than what it lies in. */
  const TWO_BREAKS: seq<byte> := [0xA0, 0x82, 0xEC, 0x85, 0xA0, 0x82, 0xEC, 0x85]

  lemma HeadersOfTwo()
    ensures DecodeHeader(TWO_BREAKS[0..]) == Success(Header(0xA0, 2, 2))
    ensures DecodeHeader(TWO_BREAKS[2..]) == Success(Header(0xEC, 5, 2))
    ensures DecodeHeader(TWO_BREAKS[4..]) == Success(Header(0xA0, 2, 2))
    ensures DecodeHeader(TWO_BREAKS[6..]) == Success(Header(0xEC, 5, 2))
  {
    hide DecodeHeader;
    ShortHeader(TWO_BREAKS[0..], 0xA0, 2);
    ShortHeader(TWO_BREAKS[2..], 0xEC, 5);
    ShortHeader(TWO_BREAKS[4..], 0xA0, 2);
    ShortHeader(TWO_BREAKS[6..], 0xEC, 5);
  }

  lemma ShortHeader(s: seq<byte>, id: byte, size: nat)
    requires |s| >= 2 && id >= 0x80 && id != 0xFF && size < 0x7F && s[0] == id && s[1] as nat == 0x80 + size
    ensures DecodeHeader(s) == Success(Header(id as nat, size, 2))
  {
    assert s[..1] == [id] && s[1..][..1] == [s[1]];
    OneByte(id);
    OneByte(s[1]);
    assert Pow128(1) == 128 by { assert Pow128(0) == 1; }
  }

  lemma OneByte(x: byte)
    ensures FromBE([x]) == x as nat
  {
    assert [x][..0] == [];
  }

  lemma TwoBreaksWalk(b: seq<byte>)
    requires |b| == 8
    requires DecodeHeader(b[0..]) == Success(Header(0xA0, 2, 2)) && DecodeHeader(b[2..]) == Success(Header(0xEC, 5, 2))
    requires DecodeHeader(b[4..]) == Success(Header(0xA0, 2, 2)) && DecodeHeader(b[6..]) == Success(Header(0xEC, 5, 2))
    ensures ScanEvents(b)
         == [Visit(0, 0xA0, 0, 2, 8), Visit(2, 0xEC, 1, 4, 4), Damage(2, false),
             Visit(4, 0xA0, 0, 6, 8), Visit(6, 0xEC, 1, 8, 8), Damage(6, false)]
  {
    hide DecodeHeader, Walk;
    WalkBroken(b, 2, 4, Exact, 1);
    WalkBroken(b, 6, 8, Exact, 1);
    WalkDone(b, 8, 8, Exact, 0);
    WalkMaster(b, 4, 8, Exact, 0);
    WalkMaster(b, 0, 8, Exact, 0);
  }

  /** The scan says that it stopped at offset 6, although the first inconsistency is at offset 2. */
  lemma StopCanMoveOn()
    ensures IsFirstDamage(ScanEvents(TWO_BREAKS), 2) && ScanEvents(TWO_BREAKS)[2].offset == 2
    ensures ScanReport(TWO_BREAKS).stoppedAt == Some(6)
  {
    hide Walk, DecodeHeader, Reports, ReportFrom, Recordings, FirstText, LastStop;
    HeadersOfTwo();
    TwoBreaksWalk(TWO_BREAKS);
    ScanReportsElements(TWO_BREAKS);
    ReportsStops(ScanReport(TWO_BREAKS), ScanEvents(TWO_BREAKS));
    LastStopIs(ScanEvents(TWO_BREAKS));
    assert Hard(ScanEvents(TWO_BREAKS)[5]);
  }
}
