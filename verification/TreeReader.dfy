/** Looking up fields in the data of a master, whatever order they come in. */
module TreeReader {
  import opened Wrappers
  import opened Bytes
  import opened Ebml
  import opened Elements
  import opened Splitter

  /** The children in the data of a master; none if it cannot be split. */
  function Kids(body: seq<byte>): seq<Raw> {
    match Split(body)
    case None => []
    case Some(raws) => raws
  }

  /** The data of every child with the given ID, in order. */
  function All(raws: seq<Raw>, id: nat): seq<seq<byte>> {
    if raws == [] then []
    else (if raws[0].id == id then [raws[0].body] else []) + All(raws[1..], id)
  }

  /** The same from the data of the master; each is shorter than these. */
  function Bodies(body: seq<byte>, id: nat): (bodies: seq<seq<byte>>)
    ensures forall i :: 0 <= i < |bodies| ==> |bodies[i]| < |body|
  {
    KidsAreShorter(body);
    AllAreShorter(Kids(body), id, |body|);
    All(Kids(body), id)
  }

  predicate Shorter(raws: seq<Raw>, n: nat) {
    forall i :: 0 <= i < |raws| ==> |raws[i].body| < n
  }

  lemma {:induction false} SplitIsShorter(s: seq<byte>, n: nat)
    requires Split(s).Some? && |s| <= n
    ensures Shorter(Split(s).value, n)
    decreases |s|
  {
    hide DecodeHeader;
    if s != [] {
      var h := DecodeHeader(s).value;
      HeaderBounds(s);
      var rest := s[h.length + h.size..];
      SplitIsShorter(rest, n);
      assert Split(s).value == [Raw(h.id, s[h.length..h.length + h.size])] + Split(rest).value;
    }
  }

  lemma KidsAreShorter(body: seq<byte>)
    ensures Shorter(Kids(body), |body|)
  {
    hide Split;
    if Split(body).Some? {
      SplitIsShorter(body, |body|);
    }
  }

  lemma {:induction false} AllAreShorter(raws: seq<Raw>, id: nat, n: nat)
    requires Shorter(raws, n)
    ensures forall i :: 0 <= i < |All(raws, id)| ==> |All(raws, id)[i]| < n
  {
    if raws != [] {
      assert forall i :: 0 <= i < |raws| - 1 ==> raws[1..][i] == raws[i + 1];
      AllAreShorter(raws[1..], id, n);
    }
  }

  function NatIn(raws: seq<Raw>, id: nat): Option<nat> {
    match Find(raws, id)
    case None => None
    case Some(body) => UintBody(body)
  }

  /** A field with a default: an absent one means the default. */
  function NatOr(raws: seq<Raw>, id: nat, absent: nat): nat {
    match NatIn(raws, id)
    case None => absent
    case Some(v) => v
  }

  function BytesIn(raws: seq<Raw>, id: nat, absent: seq<byte>): seq<byte> {
    match Find(raws, id)
    case None => absent
    case Some(body) => body
  }

  function IntBody(s: seq<byte>): int {
    match DecodeInt(s, |s|)
    case Success(v) => v
    case Failure(_) => 0
  }

  function IntIn(raws: seq<Raw>, id: nat): Option<int> {
    match Find(raws, id)
    case None => None
    case Some(body) => Some(IntBody(body))
  }

  // ----- looking up in a list of parts -----

  function First<T>(a: Option<T>, b: Option<T>): Option<T> {
    if a.Some? then a else b
  }

  lemma {:induction false} FindSum(a: seq<Raw>, b: seq<Raw>, id: nat)
    ensures Find(a + b, id) == First(Find(a, id), Find(b, id))
    ensures All(a + b, id) == All(a, id) + All(b, id)
  {
    if a == [] {
      assert a + b == b;
    } else {
      assert (a + b)[1..] == a[1..] + b;
      FindSum(a[1..], b, id);
      Regroup(if a[0].id == id then [a[0].body] else [], All(a[1..], id), All(b, id));
    }
  }

  lemma Regroup<T>(x: seq<T>, y: seq<T>, z: seq<T>)
    ensures x + (y + z) == x + y + z
  {
  }

  /** What a field is in the elements of a list: the first of its kind, and all of them. */
  function Field(es: seq<Elem>, id: nat): Option<seq<byte>> {
    Find(RawsOf(es), id)
  }

  function Fields(es: seq<Elem>, id: nat): seq<seq<byte>> {
    All(RawsOf(es), id)
  }

  lemma NothingThere(id: nat)
    ensures Field([], id) == None && Fields([], id) == []
  {
  }

  lemma FieldSum(a: seq<Elem>, b: seq<Elem>, id: nat)
    ensures Field(a + b, id) == First(Field(a, id), Field(b, id))
    ensures Fields(a + b, id) == Fields(a, id) + Fields(b, id)
  {
    RawsAppend(a, b);
    FindSum(RawsOf(a), RawsOf(b), id);
  }

  lemma {:induction false} NoField(es: seq<Elem>, id: nat)
    requires Without(es, id)
    ensures Field(es, id) == None && Fields(es, id) == []
  {
    hide Body;
    if es != [] {
      NoField(es[1..], id);
    }
  }

  lemma FieldOne(e: Elem, id: nat)
    ensures Field([e], id) == if e.id == id then Some(Body(e)) else None
    ensures Fields([e], id) == if e.id == id then [Body(e)] else []
  {
    hide Body;
    assert [e][1..] == [];
    assert RawsOf([e]) == [RawOf(e)] + RawsOf([]);
    OneRaw(RawOf(e), id);
  }

  lemma OneRaw(raw: Raw, id: nat)
    ensures Find([raw] + [], id) == if raw.id == id then Some(raw.body) else None
    ensures All([raw] + [], id) == if raw.id == id then [raw.body] else []
  {
    assert ([raw] + [])[1..] == [];
  }

  lemma FieldMaybe(present: bool, e: Elem, id: nat)
    ensures Field(Maybe(present, e), id) == if present && e.id == id then Some(Body(e)) else None
    ensures Fields(Maybe(present, e), id) == if present && e.id == id then [Body(e)] else []
  {
    hide Body;
    if present {
      FieldOne(e, id);
    }
  }

  /** All elements of the list have this ID. */
  predicate Only(es: seq<Elem>, id: nat) {
    forall i :: 0 <= i < |es| ==> es[i].id == id
  }

  lemma OnlyField(es: seq<Elem>, own: nat, id: nat)
    requires Only(es, own)
    ensures own != id ==> Field(es, id) == None && Fields(es, id) == []
  {
    if own != id {
      NoField(es, id);
    }
  }

  lemma OnlyMaybe(present: bool, e: Elem)
    ensures Only(Maybe(present, e), e.id)
  {
  }

  // ----- from bytes to elements -----

  predicate Sized(es: seq<Elem>) {
    forall i :: 0 <= i < |es| ==> !es[i].Open?
  }

  lemma {:induction false} SizedIsBounded(es: seq<Elem>)
    requires Sized(es) && FitAll(es)
    ensures Bounded(es)
  {
    hide Fits;
    if es != [] {
      assert forall i :: 0 <= i < |es| - 1 ==> es[1..][i] == es[i + 1];
      SizedIsBounded(es[1..]);
    }
  }

  lemma SizedSum(a: seq<Elem>, b: seq<Elem>)
    requires Sized(a) && Sized(b)
    ensures Sized(a + b)
  {
  }

  /** The children of a master, from its data. */
  lemma KidsRead(es: seq<Elem>)
    requires Sized(es) && FitAll(es)
    ensures Kids(SerAll(es)) == RawsOf(es)
  {
    hide Split, RawsOf, FitAll;
    SizedIsBounded(es);
    SplitInvertsSer(es);
  }

  lemma MasterKids(id: nat, es: seq<Elem>)
    requires Fits(Master(id, es)) && Sized(es)
    ensures FitAll(es) && Body(Master(id, es)) == SerAll(es) && Kids(Body(Master(id, es))) == RawsOf(es)
  {
    assert FitAll(es);
    hide Kids, FitAll, RawsOf, SerAll;
    KidsRead(es);
  }

  lemma IntBodyReads(id: nat, v: int)
    requires -TWO_TO_THE_63 <= v < TWO_TO_THE_63
    ensures IntBody(Body(Int(id, v))) == v
  {
    hide IntLength, DecodeInt, TwosComplement, BE;
    IntRoundTrip(v, []);
    assert IntBytes(v) + [] == IntBytes(v);
  }

  lemma UintsAreLeaves(id: nat, v: int)
    ensures Uint(id, v).Leaf? && Uint(id, v).id == id
  {
  }
}
