/**
 * The WebM conformance scan. `Walk` says what the recursive walk of src/webm.rs does, as the
 * list of its events; the report is a fold of the events, and the methods below compute both
 * together, in place.
 */
module Scanner {
  import opened Wrappers
  import opened Bytes
  import opened Ebml
  import opened Ids
  import opened WebmProfile

  const MAX_DEPTH: nat := 64
  const MAX_FINDINGS: nat := 4096

  // ----- UTF-8, for the DocType string -----

  predicate Continuation(b: byte) {
    0x80 <= b < 0xC0
  }

  /** The length of the well-formed code point at the front of `s`, or 0 (section 4 of RFC 3629). */
  function CodePointLength(s: seq<byte>): (n: nat)
    ensures n <= |s|
  {
    if |s| >= 1 && s[0] < 0x80 then 1
    else if |s| >= 2 && 0xC2 <= s[0] < 0xE0 && Continuation(s[1]) then 2
    else if |s| >= 3 && 0xE0 <= s[0] < 0xF0 && Continuation(s[1]) && Continuation(s[2])
            && (s[0] == 0xE0 ==> s[1] >= 0xA0) && (s[0] == 0xED ==> s[1] < 0xA0) then 3
    else if |s| >= 4 && 0xF0 <= s[0] < 0xF5 && Continuation(s[1]) && Continuation(s[2]) && Continuation(s[3])
            && (s[0] == 0xF0 ==> s[1] >= 0x90) && (s[0] == 0xF4 ==> s[1] < 0x90) then 4
    else 0
  }

  predicate ValidUtf8(s: seq<byte>)
    decreases |s|
  {
    s == [] || (CodePointLength(s) > 0 && ValidUtf8(s[CodePointLength(s)..]))
  }

  function TrimNuls(s: seq<byte>): seq<byte>
    decreases |s|
  {
    if s != [] && s[|s| - 1] == 0 then TrimNuls(s[..|s| - 1]) else s
  }

  // ----- the walk -----

  /** What ends a master: its exact extent, a sibling Segment, or any Top-Level Element. */
  datatype Terminator = Exact | AtSegment | AtTopLevel

  predicate IsTopLevel(id: nat) {
    id == SEEK_HEAD || id == INFO || id == TRACKS || id == CLUSTER || id == CUES || id == ATTACHMENTS
    || id == CHAPTERS || id == TAGS || id == SEGMENT
  }

  predicate Ends(t: Terminator, id: nat) {
    match t
    case Exact => false
    case AtSegment => id == SEGMENT
    case AtTopLevel => IsTopLevel(id)
  }

  /** What ends an unknown-size master. */
  function EndOf(id: nat): Terminator {
    if id == SEGMENT then AtSegment else AtTopLevel
  }

  /**
   * Where a walk can be: exact extents are capped, and the two unknown-size masters each go
   * one level past the cap.
   */
  predicate DepthOk(t: Terminator, depth: nat) {
    match t
    case Exact => depth <= MAX_DEPTH
    case AtSegment => depth <= MAX_DEPTH + 1
    case AtTopLevel => depth <= MAX_DEPTH + 2
  }

  /**
   * `reach` is where the walk looks next: behind the header if it descends, else behind the body.
   * `limit` is the end of the extent that the element was found in.
   */
  datatype Event =
    | Visit(offset: nat, id: nat, depth: nat, reach: nat, limit: nat)
    | Text(text: seq<byte>)
    | Damage(offset: nat, firstOnly: bool)

  datatype Trace = Trace(events: seq<Event>, pos: nat)

  /** The DocType string, when the element is one and its text is well-formed. */
  function DocTypeText(id: nat, depth: nat, body: seq<byte>): seq<Event> {
    if id == EBML_DOC_TYPE && depth > 0 && |body| <= 64 && ValidUtf8(TrimNuls(body))
    then [Text(TrimNuls(body))]
    else []
  }

  function Walk(b: seq<byte>, pos: nat, end: nat, t: Terminator, depth: nat): (r: Trace)
    requires end <= |b| && DepthOk(t, depth)
    ensures r.pos >= pos
    decreases if pos < end then end - pos else 0
  {
    if pos >= end then Trace([], pos)
    else
      match DecodeHeader(b[pos..])
      case Failure(_) => Trace([Damage(pos, true)], pos)
      case Success(h) =>
        if Ends(t, h.id) then Trace([], pos)
        else
          var body := pos + h.length;
          var next := body + h.size;
          if h.size == UNKNOWN_SIZE && (h.id == SEGMENT || h.id == CLUSTER) then
            var inner := Walk(b, body, end, EndOf(h.id), depth + 1);
            var rest := Walk(b, inner.pos, end, t, depth);
            Trace([Visit(pos, h.id, depth, body, end)] + inner.events + rest.events, rest.pos)
          else if h.size == UNKNOWN_SIZE || next > end then
            Trace([Visit(pos, h.id, depth, body, end), Damage(pos, false)], pos)
          else if IsMaster(h.id) && depth < MAX_DEPTH then
            var inner := Walk(b, body, next, Exact, depth + 1);
            var rest := Walk(b, next, end, t, depth);
            Trace([Visit(pos, h.id, depth, body, end)] + inner.events + rest.events, rest.pos)
          else
            var rest := Walk(b, next, end, t, depth);
            Trace([Visit(pos, h.id, depth, next, end)] + DocTypeText(h.id, depth, b[body..next]) + rest.events,
                  rest.pos)
  }

  /** The whole-file scan: the events of the walk from offset 0 to the end. */
  function ScanEvents(b: seq<byte>): seq<Event> {
    Walk(b, 0, |b|, Exact, 0).events
  }

  // ----- the report -----

  datatype Finding = Finding(offset: nat, id: nat, support: Support)

  datatype Report = Report(
    docType: Option<seq<byte>>,
    elements: nat, supported: nat, unsupported: nat, deprecated: nat, unlisted: nat,
    findings: seq<Finding>, truncated: bool, unlistedIds: seq<nat>,
    stoppedAt: Option<nat>)

  const EMPTY_REPORT: Report := Report(None, 0, 0, 0, 0, 0, [], false, [], None)

  function Recorded(r: Report, offset: nat, id: nat): Report {
    var s := ElementSupport(id);
    var n := r.(elements := r.elements + 1);
    match s
    case Supported => n.(supported := r.supported + 1)
    case Unlisted =>
      n.(unlisted := r.unlisted + 1,
         unlistedIds := if id !in r.unlistedIds && |r.unlistedIds| < MAX_FINDINGS
                        then r.unlistedIds + [id] else r.unlistedIds)
    case _ =>
      var counted := if s == Unsupported then n.(unsupported := r.unsupported + 1)
                     else n.(deprecated := r.deprecated + 1);
      if |r.findings| < MAX_FINDINGS then counted.(findings := r.findings + [Finding(offset, id, s)])
      else counted.(truncated := true)
  }

  function Applied(r: Report, e: Event): Report {
    match e
    case Visit(offset, id, _, _, _) => Recorded(r, offset, id)
    case Text(text) => if r.docType.None? then r.(docType := Some(text)) else r
    case Damage(offset, firstOnly) =>
      if firstOnly && r.stoppedAt.Some? then r else r.(stoppedAt := Some(offset))
  }

  function ReportFrom(r: Report, events: seq<Event>): Report
    decreases |events|
  {
    if events == [] then r else ReportFrom(Applied(r, events[0]), events[1..])
  }

  function ScanReport(b: seq<byte>): Report {
    ReportFrom(EMPTY_REPORT, ScanEvents(b))
  }

  const WEBM_TEXT: seq<byte> := [0x77, 0x65, 0x62, 0x6D]

  /** The headline verdict. */
  predicate IsConformant(r: Report) {
    r.docType == Some(WEBM_TEXT) && r.unsupported == 0 && r.deprecated == 0 && r.stoppedAt.None?
  }

  lemma {:induction false} ReportAppend(r: Report, a: seq<Event>, b: seq<Event>)
    ensures ReportFrom(r, a + b) == ReportFrom(ReportFrom(r, a), b)
    decreases |a|
  {
    if a == [] {
      assert a + b == b;
    } else {
      assert (a + b)[1..] == a[1..] + b;
      ReportAppend(Applied(r, a[0]), a[1..], b);
    }
  }

  // ----- the scan, in place -----

  class ReportCell {
    var report: Report

    constructor ()
      ensures report == EMPTY_REPORT
    {
      report := EMPTY_REPORT;
    }

    /** Classify one element occurrence. */
    method Record(offset: nat, id: nat)
      modifies this
      ensures report == Recorded(old(report), offset, id)
    {
      report := report.(elements := report.elements + 1);
      var support := ElementSupport(id);
      if support == Supported {
        report := report.(supported := report.supported + 1);
      } else if support == Unlisted {
        report := report.(unlisted := report.unlisted + 1);
        if id !in report.unlistedIds && |report.unlistedIds| < MAX_FINDINGS {
          report := report.(unlistedIds := report.unlistedIds + [id]);
        }
      } else {
        if support == Unsupported {
          report := report.(unsupported := report.unsupported + 1);
        } else {
          report := report.(deprecated := report.deprecated + 1);
        }
        if |report.findings| < MAX_FINDINGS {
          report := report.(findings := report.findings + [Finding(offset, id, support)]);
        } else {
          report := report.(truncated := true);
        }
      }
    }

    /** Walk the children of a master whose body spans `start..end`; the result is where it stopped. */
    method WalkChildren(b: seq<byte>, start: nat, end: nat, t: Terminator, depth: nat) returns (pos: nat)
      requires end <= |b| && DepthOk(t, depth)
      modifies this
      ensures pos == Walk(b, start, end, t, depth).pos
      ensures report == ReportFrom(old(report), Walk(b, start, end, t, depth).events)
      decreases if start < end then end - start else 0
    {
      hide Recorded, DecodeHeader, IsMaster, Walk, ReportFrom, DocTypeText;
      pos := start;
      ghost var whole := Walk(b, start, end, t, depth);
      while pos < end
        invariant start <= pos
        invariant Walk(b, pos, end, t, depth).pos == whole.pos
        invariant ReportFrom(report, Walk(b, pos, end, t, depth).events) == ReportFrom(old(report), whole.events)
        decreases if pos < end then end - pos else 0
      {
        var read := ReadElementHeader(b[pos..]);
        if read.Failure? {
          WalkTorn(b, pos, end, t, depth);
          ReportOne(report, Damage(pos, true));
          if report.stoppedAt.None? {
            report := report.(stoppedAt := Some(pos));
          }
          return;
        }
        var h := read.value;
        if Ends(t, h.id) {
          WalkEnded(b, pos, end, t, depth);
          ReportNothing(report);
          return;
        }
        ghost var r0 := report;
        Record(pos, h.id);
        HeaderBounds(b[pos..]);
        var body := pos + h.length;
        var next := body + h.size;
        if h.size == UNKNOWN_SIZE && (h.id == SEGMENT || h.id == CLUSTER) {
          WalkOpen(b, pos, end, t, depth);
          ghost var inner := Walk(b, body, end, EndOf(h.id), depth + 1);
          ReportStep(r0, Visit(pos, h.id, depth, body, end), inner.events, Walk(b, inner.pos, end, t, depth).events);
          pos := WalkChildren(b, body, end, EndOf(h.id), depth + 1);
        } else if h.size == UNKNOWN_SIZE || next > end {
          WalkBroken(b, pos, end, t, depth);
          ReportStep(r0, Visit(pos, h.id, depth, body, end), [Damage(pos, false)], []);
          ReportOne(report, Damage(pos, false));
          ReportNothing(report.(stoppedAt := Some(pos)));
          report := report.(stoppedAt := Some(pos));
          return;
        } else if IsMaster(h.id) && depth < MAX_DEPTH {
          WalkMaster(b, pos, end, t, depth);
          ReportStep(r0, Visit(pos, h.id, depth, body, end), Walk(b, body, next, Exact, depth + 1).events,
                     Walk(b, next, end, t, depth).events);
          var _ := WalkChildren(b, body, next, Exact, depth + 1);
          pos := next;
        } else {
          WalkLeaf(b, pos, end, t, depth);
          ReportStep(r0, Visit(pos, h.id, depth, next, end), DocTypeText(h.id, depth, b[body..next]),
                     Walk(b, next, end, t, depth).events);
          CaptureDocType(b[body..next], h.id, depth);
          pos := next;
        }
      }
      WalkDone(b, pos, end, t, depth);
      ReportNothing(report);
    }

    /** The first well-formed DocType string wins. */
    method CaptureDocType(body: seq<byte>, id: nat, depth: nat)
      modifies this
      ensures report == ReportFrom(old(report), DocTypeText(id, depth, body))
    {
      if id == EBML_DOC_TYPE && depth > 0 && |body| <= 64 && report.docType.None? {
        var text := TrimNuls(body);
        if ValidUtf8(text) {
          report := report.(docType := Some(text));
          assert DocTypeText(id, depth, body) == [Text(text)];
          assert [Text(text)][1..] == [];
        }
      }
    }
  }

  lemma ReportNothing(r: Report)
    ensures ReportFrom(r, []) == r
  {
  }

  lemma ReportOne(r: Report, e: Event)
    ensures ReportFrom(r, [e]) == Applied(r, e)
  {
    assert [e][1..] == [];
  }

  lemma ReportStep(r: Report, visit: Event, inside: seq<Event>, rest: seq<Event>)
    ensures ReportFrom(r, [visit] + inside + rest) == ReportFrom(ReportFrom(Applied(r, visit), inside), rest)
  {
    ReportAppend(r, [visit] + inside, rest);
    ReportAppend(r, [visit], inside);
    ReportOne(r, visit);
  }

  // ----- one step of the walk, case by case -----

  lemma WalkDone(b: seq<byte>, pos: nat, end: nat, t: Terminator, depth: nat)
    requires end <= |b| && DepthOk(t, depth) && pos >= end
    ensures Walk(b, pos, end, t, depth) == Trace([], pos)
  {
  }

  lemma WalkTorn(b: seq<byte>, pos: nat, end: nat, t: Terminator, depth: nat)
    requires pos < end <= |b| && DepthOk(t, depth) && DecodeHeader(b[pos..]).Failure?
    ensures Walk(b, pos, end, t, depth) == Trace([Damage(pos, true)], pos)
  {
  }

  lemma WalkEnded(b: seq<byte>, pos: nat, end: nat, t: Terminator, depth: nat)
    requires pos < end <= |b| && DepthOk(t, depth)
    requires DecodeHeader(b[pos..]).Success? && Ends(t, DecodeHeader(b[pos..]).value.id)
    ensures Walk(b, pos, end, t, depth) == Trace([], pos)
  {
  }

  /** The header at `pos`, when the walk records it. */
  predicate Recordable(b: seq<byte>, pos: nat, end: nat, t: Terminator, depth: nat) {
    pos < end <= |b| && DepthOk(t, depth) && DecodeHeader(b[pos..]).Success?
      && !Ends(t, DecodeHeader(b[pos..]).value.id)
  }

  lemma WalkOpen(b: seq<byte>, pos: nat, end: nat, t: Terminator, depth: nat)
    requires Recordable(b, pos, end, t, depth)
    requires var h := DecodeHeader(b[pos..]).value; h.size == UNKNOWN_SIZE && (h.id == SEGMENT || h.id == CLUSTER)
    ensures var h := DecodeHeader(b[pos..]).value;
            && DepthOk(EndOf(h.id), depth + 1)
            && var inner := Walk(b, pos + h.length, end, EndOf(h.id), depth + 1);
               var rest := Walk(b, inner.pos, end, t, depth);
               Walk(b, pos, end, t, depth) ==
               Trace([Visit(pos, h.id, depth, pos + h.length, end)] + inner.events + rest.events, rest.pos)
  {
  }

  lemma WalkBroken(b: seq<byte>, pos: nat, end: nat, t: Terminator, depth: nat)
    requires Recordable(b, pos, end, t, depth)
    requires var h := DecodeHeader(b[pos..]).value;
             if h.size == UNKNOWN_SIZE then h.id != SEGMENT && h.id != CLUSTER else pos + h.length + h.size > end
    ensures var h := DecodeHeader(b[pos..]).value;
            Walk(b, pos, end, t, depth) ==
            Trace([Visit(pos, h.id, depth, pos + h.length, end)] + [Damage(pos, false)] + [], pos)
  {
  }

  lemma WalkMaster(b: seq<byte>, pos: nat, end: nat, t: Terminator, depth: nat)
    requires Recordable(b, pos, end, t, depth)
    requires var h := DecodeHeader(b[pos..]).value;
             h.size != UNKNOWN_SIZE && pos + h.length + h.size <= end && IsMaster(h.id) && depth < MAX_DEPTH
    ensures var h := DecodeHeader(b[pos..]).value;
            var next := pos + h.length + h.size;
            var inner := Walk(b, pos + h.length, next, Exact, depth + 1);
            var rest := Walk(b, next, end, t, depth);
            Walk(b, pos, end, t, depth) ==
            Trace([Visit(pos, h.id, depth, pos + h.length, end)] + inner.events + rest.events, rest.pos)
  {
  }

  lemma WalkLeaf(b: seq<byte>, pos: nat, end: nat, t: Terminator, depth: nat)
    requires Recordable(b, pos, end, t, depth)
    requires var h := DecodeHeader(b[pos..]).value;
             h.size != UNKNOWN_SIZE && pos + h.length + h.size <= end && !(IsMaster(h.id) && depth < MAX_DEPTH)
    ensures var h := DecodeHeader(b[pos..]).value;
            var next := pos + h.length + h.size;
            var rest := Walk(b, next, end, t, depth);
            Walk(b, pos, end, t, depth) ==
            Trace([Visit(pos, h.id, depth, next, end)] + DocTypeText(h.id, depth, b[pos + h.length..next])
                  + rest.events, rest.pos)
  {
  }

  /** The whole-file scan. */
  method Scan(b: seq<byte>) returns (report: Report)
    ensures report == ScanReport(b)
  {
    var cell := new ReportCell();
    var _ := cell.WalkChildren(b, 0, |b|, Exact, 0);
    report := cell.report;
  }
}
