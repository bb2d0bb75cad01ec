/**
 * From end to end: what a strict WebM muxer writes, the WebM scan finds conformant. The one way
 * around it is the FourCC setter, which has no profile guard.
 */
module Conformance {
  import opened Wrappers
  import opened Bytes
  import opened Ebml
  import opened Ids
  import opened Elements
  import opened WebmProfile
  import opened Scanner
  import opened ScannerOrder
  import opened ScannerInverts
  import opened MuxerFile

  // ----- which elements a scan holds against a document -----

  /** The scan, `depth` levels down, meets an element outside the profile in `e`. */
  predicate Tainted(e: Elem, depth: nat)
    decreases e, 1
  {
    OffProfile(e.id)
    || ((e.Open? || (e.Node? && IsMaster(e.id) && depth < MAX_DEPTH)) && TaintedAll(e.kids, depth + 1))
  }

  predicate TaintedAll(es: seq<Elem>, depth: nat)
    decreases es, 0
  {
    es != [] && (Tainted(es[0], depth) || TaintedAll(es[1..], depth))
  }

  /** No recorded element is off the profile. */
  predicate Spotless(events: seq<Event>) {
    forall i :: 0 <= i < |events| ==> events[i].Visit? ==> !OffProfile(events[i].id)
  }

  lemma SpotlessAppend(a: seq<Event>, b: seq<Event>)
    ensures Spotless(a + b) <==> Spotless(a) && Spotless(b)
  {
    hide OffProfile;
    if Spotless(a + b) {
      forall i | 0 <= i < |a| && a[i].Visit?
        ensures !OffProfile(a[i].id)
      {
        assert (a + b)[i] == a[i];
      }
      forall i | 0 <= i < |b| && b[i].Visit?
        ensures !OffProfile(b[i].id)
      {
        assert (a + b)[|a| + i] == b[i];
      }
    }
  }

  lemma SpotlessText(id: nat, depth: nat, body: seq<byte>)
    ensures Spotless(DocTypeText(id, depth, body))
  {
    hide OffProfile, ValidUtf8;
  }

  lemma SpotlessVisit(v: Event)
    requires v.Visit?
    ensures Spotless([v]) <==> !OffProfile(v.id)
  {
    hide OffProfile;
    assert [v][0] == v;
  }

  /** The scan of a document is spotless exactly if nothing in it is tainted. */
  lemma {:induction false} EventsSpotless(es: seq<Elem>, off: nat, depth: nat, limit: nat)
    ensures Spotless(EventsAll(es, off, depth, limit)) <==> !TaintedAll(es, depth)
    decreases es
  {
    hide OffProfile, IsMaster, Spotless, DocTypeText, Head, Ser;
    if es == [] {
      NoEventsSpotless();
    } else {
      var e, body, next := es[0], off + |Head(es[0])|, off + |Ser(es[0])|;
      EventsSpotless(es[1..], next, depth, limit);
      SpotlessAppend(Events(e, off, depth, limit), EventsAll(es[1..], next, depth, limit));
      if e.Open? || (e.Node? && IsMaster(e.id) && depth < MAX_DEPTH) {
        var inner := if e.Open? then limit else next;
        EventsSpotless(e.kids, body, depth + 1, inner);
        SpotlessVisit(Visit(off, e.id, depth, body, limit));
        SpotlessAppend([Visit(off, e.id, depth, body, limit)], EventsAll(e.kids, body, depth + 1, inner));
      } else {
        var bytes := if e.Leaf? then e.body else SerAll(e.kids);
        SpotlessVisit(Visit(off, e.id, depth, next, limit));
        SpotlessText(e.id, depth, bytes);
        SpotlessAppend([Visit(off, e.id, depth, next, limit)], DocTypeText(e.id, depth, bytes));
      }
    }
  }

  lemma NoEventsSpotless()
    ensures Spotless([])
  {
  }

  /** The counters see exactly the elements that are off the profile. */
  lemma {:induction false} SpotlessCounts(events: seq<Event>)
    ensures Spotless(events) <==> Occurrences(events, Unsupported) == 0 && Occurrences(events, Deprecated) == 0
  {
    if events != [] {
      SpotlessCounts(events[1..]);
      SpotlessAppend([events[0]], events[1..]);
      assert events == [events[0]] + events[1..];
      FirstCounts(events[0]);
      hide OffProfile, ElementSupport, Spotless;
    }
  }

  lemma FirstCounts(e: Event)
    ensures Spotless([e])
            <==> !(e.Visit? && (ElementSupport(e.id) == Unsupported || ElementSupport(e.id) == Deprecated))
  {
    assert [e][0] == e;
    hide IsUnsupported, IsDeprecated, IsSupported;
  }

  // ----- the DocType -----

  function FirstText(events: seq<Event>): Option<seq<byte>> {
    if events == [] then None
    else if events[0].Text? then Some(events[0].text)
    else FirstText(events[1..])
  }

  lemma {:induction false} ReportDocType(r: Report, events: seq<Event>)
    ensures ReportFrom(r, events).docType == if r.docType.Some? then r.docType else FirstText(events)
    decreases |events|
  {
    if events != [] {
      AppliedDocType(r, events[0]);
      hide Applied;
      ReportDocType(Applied(r, events[0]), events[1..]);
    }
  }

  lemma AppliedDocType(r: Report, e: Event)
    ensures Applied(r, e).docType == if r.docType.None? && e.Text? then Some(e.text) else r.docType
  {
    hide ElementSupport;
  }

  lemma {:induction false} FirstTextAppend(a: seq<Event>, b: seq<Event>)
    ensures FirstText(a + b) == if FirstText(a).Some? then FirstText(a) else FirstText(b)
  {
    if a == [] {
      assert a + b == b;
    } else {
      assert (a + b)[1..] == a[1..] + b;
      FirstTextAppend(a[1..], b);
    }
  }

  lemma VisitHasNoText(v: Event)
    requires v.Visit?
    ensures FirstText([v]) == None
  {
    assert [v][1..] == [];
  }

  /** A leaf that is not a DocType says nothing about it. */
  lemma LeafHasNoText(e: Elem, off: nat, depth: nat, limit: nat)
    requires e.Leaf? && e.id != EBML_DOC_TYPE
    ensures FirstText(Events(e, off, depth, limit)) == None
  {
    hide Head, Ser;
    var v := Visit(off, e.id, depth, off + |Ser(e)|, limit);
    assert Events(e, off, depth, limit) == [v];
    VisitHasNoText(v);
  }

  lemma WebmLeafHasText(e: Elem, off: nat, limit: nat)
    requires e.Leaf? && e.id == EBML_DOC_TYPE && e.body == WEBM_TEXT
    ensures FirstText(Events(e, off, 1, limit)) == Some(WEBM_TEXT)
  {
    hide Head, Ser;
    WebmIsUtf8();
    var v := Visit(off, e.id, 1, off + |Ser(e)|, limit);
    assert Events(e, off, 1, limit) == [v] + [Text(WEBM_TEXT)];
    assert ([v] + [Text(WEBM_TEXT)])[1..] == [Text(WEBM_TEXT)];
  }

  lemma WebmIsUtf8()
    ensures ValidUtf8(WEBM_TEXT) && TrimNuls(WEBM_TEXT) == WEBM_TEXT
  {
    var s := WEBM_TEXT;
    assert s[1..] == [0x65, 0x62, 0x6D] && s[1..][1..] == [0x62, 0x6D];
    assert s[1..][1..][1..] == [0x6D] && s[1..][1..][1..][1..] == [];
    assert ValidUtf8(s[1..][1..][1..]);
    assert ValidUtf8(s[1..][1..]);
    assert ValidUtf8(s[1..]);
  }

  /** The leading children of a list decide, if they say anything. */
  lemma FirstTextStep(e: Elem, rest: seq<Elem>, off: nat, depth: nat, limit: nat)
    ensures FirstText(EventsAll([e] + rest, off, depth, limit))
         == if FirstText(Events(e, off, depth, limit)).Some? then FirstText(Events(e, off, depth, limit))
            else FirstText(EventsAll(rest, off + |Ser(e)|, depth, limit))
  {
    hide Ser, Events, FirstText;
    assert ([e] + rest)[1..] == rest;
    FirstTextAppend(Events(e, off, depth, limit), EventsAll(rest, off + |Ser(e)|, depth, limit));
  }

  lemma KidsText(version: nat, extensions: seq<Elem>, off: nat, limit: nat)
    ensures FirstText(EventsAll(HeaderKids(WEBM_TEXT, version, extensions), off, 1, limit)) == Some(WEBM_TEXT)
  {
    hide Ser, Head, Uint, FirstText, Events, EventsAll;
    var docType := Bin(EBML_DOC_TYPE, WEBM_TEXT);
    var tail := [Uint(EBML_DOC_TYPE_VERSION, version), Uint(EBML_DOC_TYPE_READ_VERSION, 2)] + extensions;
    var a, b, c, d := Uint(EBML_VERSION, 1), Uint(EBML_READ_VERSION, 1), Uint(EBML_MAX_ID_LENGTH, 4),
                      Uint(EBML_MAX_SIZE_LENGTH, 8);
    var from4 := [d] + ([docType] + tail);
    var from3 := [c] + from4;
    var from2 := [b] + from3;
    assert HeaderKids(WEBM_TEXT, version, extensions) == [a] + from2;
    var o2 := off + |Ser(a)|;
    var o3 := o2 + |Ser(b)|;
    var o4 := o3 + |Ser(c)|;
    var o5 := o4 + |Ser(d)|;
    SilentLeaf(EBML_VERSION, 1, off, limit);
    SilentLeaf(EBML_READ_VERSION, 1, o2, limit);
    SilentLeaf(EBML_MAX_ID_LENGTH, 4, o3, limit);
    SilentLeaf(EBML_MAX_SIZE_LENGTH, 8, o4, limit);
    WebmLeafHasText(docType, o5, limit);
    FirstTextStep(docType, tail, o5, 1, limit);
    FirstTextStep(d, [docType] + tail, o4, 1, limit);
    FirstTextStep(c, from4, o3, 1, limit);
    FirstTextStep(b, from3, o2, 1, limit);
    FirstTextStep(a, from2, off, 1, limit);
  }

  lemma SilentLeaf(id: nat, v: nat, off: nat, limit: nat)
    requires id != EBML_DOC_TYPE
    ensures FirstText(Events(Uint(id, v), off, 1, limit)) == None
  {
    hide UintBytes;
    LeafHasNoText(Uint(id, v), off, 1, limit);
  }

  lemma HeaderText(l: Setup, off: nat, limit: nat, rest: seq<Event>)
    requires l.webm
    ensures FirstText(Events(HeaderElem(l), off, 0, limit) + rest) == Some(WEBM_TEXT)
  {
    hide HeaderKids, FirstText, Events;
    var from, to := MasterText(EBML_HEADER, HeaderKids(WEBM_TEXT, DocTypeVersion(l), l.extensions), off, limit);
    KidsText(DocTypeVersion(l), l.extensions, from, to);
    FirstTextAppend(Events(HeaderElem(l), off, 0, limit), rest);
  }

  lemma MasterText(id: nat, kids: seq<Elem>, off: nat, limit: nat) returns (from: nat, to: nat)
    requires id == EBML_HEADER
    ensures FirstText(EventsAll(kids, from, 1, to)) == FirstText(Events(Master(id, kids), off, 0, limit))
  {
    assert IsMaster(id);
    hide IsMaster, Head, Ser, FirstText, EventsAll;
    var e := Master(id, kids);
    from, to := off + |Head(e)|, off + |Ser(e)|;
    var v := Visit(off, id, 0, from, limit);
    assert Events(e, off, 0, limit) == [v] + EventsAll(kids, from, 1, to);
    VisitHasNoText(v);
    FirstTextAppend([v], EventsAll(kids, from, 1, to));
  }

  // ----- the verdict on a document -----

  lemma VerdictOn(es: seq<Elem>)
    requires WellFormedAll(es)
    ensures IsConformant(ScanReport(SerAll(es)))
       <==> FirstText(EventsAll(es, 0, 0, |SerAll(es)|)) == Some(WEBM_TEXT) && !TaintedAll(es, 0)
  {
    hide SerAll, EventsAll, WellFormedAll, ScanEvents, TaintedAll, FirstText, ReportFrom, Spotless, Occurrences, Visits;
    ScanInvertsSerialiser(es);
    var events := EventsAll(es, 0, 0, |SerAll(es)|);
    ReportDocType(EMPTY_REPORT, events);
    ReportCounts(EMPTY_REPORT, events);
    EventsSpotless(es, 0, 0, |SerAll(es)|);
    SpotlessCounts(events);
  }
}
