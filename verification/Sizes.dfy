/** An upper bound on the length of a serialised tree that can be added up without serialising it. */
module Sizes {
  import opened Bytes
  import opened Ebml
  import opened Elements

  /** Twelve bytes for each header, and the bytes of the leaves. */
  function Weight(e: Elem): nat
    decreases e, 1
  {
    match e
    case Leaf(_, _, body) => 12 + |body|
    case Node(_, _, kids) => 12 + WeightAll(kids)
    case Open(_, kids) => 12 + WeightAll(kids)
  }

  function WeightAll(es: seq<Elem>): nat
    decreases es, 0
  {
    if es == [] then 0 else Weight(es[0]) + WeightAll(es[1..])
  }

  predicate Regular(e: Elem)
    decreases e, 1
  {
    ValidId(e.id) && (e.Open? || e.width <= 8) && (e.Leaf? || AllRegular(e.kids))
  }

  predicate AllRegular(es: seq<Elem>)
    decreases es, 0
  {
    es == [] || (Regular(es[0]) && AllRegular(es[1..]))
  }

  lemma HeaderIsShort(id: nat, size: nat, width: nat)
    ensures |IdBytes(id)| + |Vint(size, width)| <= 12
  {
    hide VintBytes, VintWidth;
  }

  lemma {:induction false} SerWithin(e: Elem)
    ensures |Ser(e)| <= Weight(e)
    decreases e, 1
  {
    hide IdBytes, Vint;
    match e
    case Leaf(id, width, body) => HeaderIsShort(id, |body|, width);
    case Node(id, width, kids) =>
      SerAllWithin(kids);
      HeaderIsShort(id, |SerAll(kids)|, width);
    case Open(id, kids) =>
      SerAllWithin(kids);
      HeaderIsShort(id, 0, 0);
  }

  lemma {:induction false} SerAllWithin(es: seq<Elem>)
    ensures |SerAll(es)| <= WeightAll(es)
    decreases es, 0
  {
    hide Ser, Weight;
    if es != [] {
      SerWithin(es[0]);
      SerAllWithin(es[1..]);
    }
  }

  /** A light enough tree has a size that a VINT carries at every level. */
  lemma {:induction false} LightFits(e: Elem)
    requires Regular(e) && Weight(e) < SIZE_LIMIT
    ensures Fits(e)
    decreases e, 1
  {
    hide ValidId;
    if !e.Leaf? {
      SerAllWithin(e.kids);
      LightAllFit(e.kids);
    }
  }

  lemma {:induction false} LightAllFit(es: seq<Elem>)
    requires AllRegular(es) && WeightAll(es) < SIZE_LIMIT
    ensures FitAll(es)
    decreases es, 0
  {
    hide Regular, Weight, Fits;
    if es != [] {
      LightFits(es[0]);
      LightAllFit(es[1..]);
    }
  }

  lemma UintIsLight(id: nat, value: int)
    ensures Weight(Uint(id, value)) <= 20
    ensures ValidId(id) ==> Regular(Uint(id, value))
  {
    hide ValidId, Pow256;
    assert Pow256(8) == TWO_TO_THE_64 by { PowerTables(); }
    UintLengthBound(U64(value), 8);
  }

  lemma WeightOne(e: Elem)
    ensures WeightAll([e]) == Weight(e) && (AllRegular([e]) <==> Regular(e))
  {
    hide Weight, Regular;
    assert [e][1..] == [];
  }

  lemma {:induction false} WeightAppend(a: seq<Elem>, b: seq<Elem>)
    ensures WeightAll(a + b) == WeightAll(a) + WeightAll(b)
    ensures AllRegular(a + b) <==> AllRegular(a) && AllRegular(b)
  {
    hide Weight, Regular;
    if a == [] {
      assert a + b == b;
    } else {
      assert (a + b)[1..] == a[1..] + b;
      WeightAppend(a[1..], b);
    }
  }

  // ----- bounds that add up -----

  predicate Light(e: Elem, n: nat) {
    Regular(e) && Weight(e) <= n
  }

  predicate AllLight(es: seq<Elem>, n: nat) {
    AllRegular(es) && WeightAll(es) <= n
  }

  lemma LightOne(e: Elem, n: nat)
    requires Light(e, n)
    ensures AllLight([e], n)
  {
    hide Weight, Regular;
    WeightOne(e);
  }

  lemma LightNone()
    ensures AllLight([], 0)
  {
  }

  lemma LightAppend(a: seq<Elem>, m: nat, b: seq<Elem>, n: nat)
    requires AllLight(a, m) && AllLight(b, n)
    ensures AllLight(a + b, m + n)
  {
    hide WeightAll, AllRegular;
    WeightAppend(a, b);
  }

  lemma LightMaster(id: nat, kids: seq<Elem>, n: nat)
    requires ValidId(id) && AllLight(kids, n)
    ensures Light(Master(id, kids), n + 12) && AllLight([Master(id, kids)], n + 12)
  {
    hide ValidId, WeightAll, AllRegular;
    WeightOne(Master(id, kids));
  }

  lemma LightLeaf(id: nat, body: seq<byte>)
    requires ValidId(id)
    ensures Light(Bin(id, body), 12 + |body|) && AllLight([Bin(id, body)], 12 + |body|)
  {
    hide ValidId, WeightAll, AllRegular;
    WeightOne(Bin(id, body));
  }

  lemma LightUint(id: nat, v: int)
    requires ValidId(id)
    ensures Light(Uint(id, v), 20) && AllLight([Uint(id, v)], 20)
  {
    hide ValidId, Uint, WeightAll, AllRegular, Weight, Regular;
    UintIsLight(id, v);
    WeightOne(Uint(id, v));
  }
}
