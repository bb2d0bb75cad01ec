/** A list of bounded elements read back from bytes, as any EBML reader would. */
module Splitter {
  import opened Wrappers
  import opened Bytes
  import opened Ebml
  import opened Elements

  /** An element as read: its ID and the bytes of its data. */
  datatype Raw = Raw(id: nat, body: seq<byte>)

  function Split(s: seq<byte>): Option<seq<Raw>>
    decreases |s|
  {
    if s == [] then Some([])
    else
      match DecodeHeader(s)
      case Failure(_) => None
      case Success(h) =>
        if h.length + h.size > |s| then None
        else
          var rest :- Split(s[h.length + h.size..]);
          Some([Raw(h.id, s[h.length..h.length + h.size])] + rest)
  }

  function RawOf(e: Elem): Raw {
    Raw(e.id, Body(e))
  }

  function RawsOf(es: seq<Elem>): (r: seq<Raw>)
    ensures |r| == |es|
  {
    if es == [] then [] else [RawOf(es[0])] + RawsOf(es[1..])
  }

  predicate Bounded(es: seq<Elem>) {
    es == [] || (!es[0].Open? && Fits(es[0]) && Bounded(es[1..]))
  }

  lemma BoundedHead(e: Elem, tail: seq<byte>)
    requires !e.Open? && Fits(e)
    ensures DecodeHeader(Ser(e) + tail) == Success(Header(e.id, |Body(e)|, |Head(e)|))
    ensures Ser(e) == Head(e) + Body(e) && |Head(e)| >= 2
  {
    hide DecodeHeader, Head, Ser, SerAll, FitAll;
    SerIsHeadThenBody(e);
    HeaderDecodes(e, Body(e) + tail);
    assert Ser(e) + tail == Head(e) + (Body(e) + tail);
  }

  /** Splitting a serialised list gives its elements' IDs and data, in order. */
  lemma {:induction false} SplitInvertsSer(es: seq<Elem>)
    requires Bounded(es)
    ensures Split(SerAll(es)) == Some(RawsOf(es))
  {
    hide DecodeHeader, Fits, Ser, Body, Head;
    if es != [] {
      var e, rest := es[0], SerAll(es[1..]);
      var n, k := |Ser(e)|, |Head(e)|;
      BoundedHead(e, rest);
      SplitInvertsSer(es[1..]);
      assert (Ser(e) + rest)[n..] == rest;
      assert (Ser(e) + rest)[k..n] == Body(e);
    }
  }

  lemma {:induction false} RawsAppend(a: seq<Elem>, b: seq<Elem>)
    ensures RawsOf(a + b) == RawsOf(a) + RawsOf(b)
    ensures Bounded(a + b) <==> Bounded(a) && Bounded(b)
  {
    hide Fits, RawOf;
    if a == [] {
      assert a + b == b;
    } else {
      assert (a + b)[1..] == a[1..] + b;
      RawsAppend(a[1..], b);
    }
  }

  /** The data of the first element with the given ID. */
  function Find(raws: seq<Raw>, id: nat): Option<seq<byte>> {
    if raws == [] then None
    else if raws[0].id == id then Some(raws[0].body)
    else Find(raws[1..], id)
  }

  function UintBody(s: seq<byte>): Option<nat> {
    match DecodeUint(s, |s|)
    case Success(v) => Some(v)
    case Failure(_) => None
  }

  lemma UintBodyReads(id: nat, v: nat)
    requires v < TWO_TO_THE_64
    ensures UintBody(Body(Uint(id, v))) == Some(v)
  {
    hide UintLength, DecodeUint, BE;
    UintRoundTrip(v, []);
    assert UintBytes(v) + [] == UintBytes(v);
  }

  lemma UintFits(id: nat, v: nat)
    requires ValidId(id) && v < TWO_TO_THE_64
    ensures Fits(Uint(id, v))
  {
    hide UintLength, DecodeUint, BE;
    UintRoundTrip(v, []);
  }
}
