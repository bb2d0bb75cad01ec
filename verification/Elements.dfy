/**
 * EBML documents as trees, and their bytes. A `Leaf` or a `Node` carries its exact size, in a
 * size VINT of at least `width` bytes; an `Open` master has the unknown size.
 */
module Elements {
  import opened Wrappers
  import opened Bytes
  import opened Ebml
  import opened Crc32
  import opened Ids

  datatype Elem =
    | Leaf(id: nat, width: nat, body: seq<byte>)
    | Node(id: nat, width: nat, kids: seq<Elem>)
    | Open(id: nat, kids: seq<Elem>)

  /** The bytes from the ID to the end of the size VINT. */
  function Head(e: Elem): seq<byte> {
    match e
    case Leaf(id, width, body) => IdBytes(id) + Vint(|body|, width)
    case Node(id, width, kids) => IdBytes(id) + Vint(|SerAll(kids)|, width)
    case Open(id, _) => IdBytes(id) + [0xFF]
  }

  function Ser(e: Elem): seq<byte>
    decreases e, 1
  {
    match e
    case Leaf(id, width, body) => IdBytes(id) + Vint(|body|, width) + body
    case Node(id, width, kids) => IdBytes(id) + Vint(|SerAll(kids)|, width) + SerAll(kids)
    case Open(id, kids) => IdBytes(id) + [0xFF] + SerAll(kids)
  }

  function SerAll(es: seq<Elem>): seq<byte>
    decreases es, 0
  {
    if es == [] then [] else Ser(es[0]) + SerAll(es[1..])
  }

  /** What `write_vint` can encode: it panics on sizes from 2^56 - 1 on. */
  predicate Fits(e: Elem)
    decreases e, 1
  {
    match e
    case Leaf(id, width, body) => ValidId(id) && width <= 8 && |body| < SIZE_LIMIT
    case Node(id, width, kids) => ValidId(id) && width <= 8 && |SerAll(kids)| < SIZE_LIMIT && FitAll(kids)
    case Open(id, kids) => ValidId(id) && FitAll(kids)
  }

  predicate FitAll(es: seq<Elem>)
    decreases es, 0
  {
    es == [] || (Fits(es[0]) && FitAll(es[1..]))
  }

  lemma {:induction false} SerAppend(a: seq<Elem>, b: seq<Elem>)
    ensures SerAll(a + b) == SerAll(a) + SerAll(b)
  {
    if a == [] {
      assert a + b == b;
    } else {
      assert (a + b)[1..] == a[1..] + b;
      SerAppend(a[1..], b);
    }
  }

  lemma SerOne(e: Elem)
    ensures SerAll([e]) == Ser(e)
  {
    assert SerAll([e]) == Ser(e) + SerAll([e][1..]);
  }

  lemma SerSnoc(a: seq<Elem>, e: Elem)
    ensures SerAll(a + [e]) == SerAll(a) + Ser(e)
  {
    SerAppend(a, [e]);
    SerOne(e);
  }

  /** The list splits at any index, in its bytes too. */
  lemma SerSplit(es: seq<Elem>, k: nat)
    requires k <= |es|
    ensures SerAll(es) == SerAll(es[..k]) + SerAll(es[k..])
    ensures k < |es| ==> SerAll(es[k..]) == Ser(es[k]) + SerAll(es[k + 1..])
    ensures k < |es| ==> SerAll(es[..k + 1]) == SerAll(es[..k]) + Ser(es[k])
  {
    hide Ser;
    assert es == es[..k] + es[k..];
    SerAppend(es[..k], es[k..]);
    if k < |es| {
      assert es[..k + 1] == es[..k] + [es[k]];
      SerAppend(es[..k], [es[k]]);
      SerOne(es[k]);
    }
  }

  lemma {:induction false} FitAppend(a: seq<Elem>, b: seq<Elem>)
    ensures FitAll(a + b) <==> FitAll(a) && FitAll(b)
  {
    if a == [] {
      assert a + b == b;
    } else {
      assert (a + b)[1..] == a[1..] + b;
      FitAppend(a[1..], b);
    }
  }

  lemma {:induction false} FitAt(es: seq<Elem>, k: nat)
    requires FitAll(es) && k < |es|
    ensures Fits(es[k])
  {
    if k > 0 {
      FitAt(es[1..], k - 1);
    }
  }

  /** The bytes behind the header. */
  function Body(e: Elem): seq<byte> {
    match e
    case Leaf(_, _, body) => body
    case Node(_, _, kids) => SerAll(kids)
    case Open(_, kids) => SerAll(kids)
  }

  /** What the size VINT says. */
  function SizeField(e: Elem): nat {
    if e.Open? then UNKNOWN_SIZE else |Body(e)|
  }

  lemma SerIsHeadThenBody(e: Elem)
    ensures Ser(e) == Head(e) + Body(e)
  {
  }

  predicate HeadFits(e: Elem) {
    ValidId(e.id) && (e.Open? || (e.width <= 8 && |Body(e)| < SIZE_LIMIT))
  }

  /** A reader sees the ID and the size that were written. */
  lemma HeaderDecodes(e: Elem, tail: seq<byte>)
    requires HeadFits(e)
    ensures DecodeHeader(Head(e) + tail) == Success(Header(e.id, SizeField(e), |Head(e)|))
    ensures |Head(e)| >= 2
  {
    hide DecodeHeader, Ser, SerAll, VintWidth;
    match e
    case Leaf(id, width, body) => HeaderRoundTrip(id, |body|, width, tail);
    case Node(id, width, kids) => HeaderRoundTrip(id, |SerAll(kids)|, width, tail);
    case Open(id, kids) => UnknownHeader(id, tail);
  }

  /** No element of the list has this ID. */
  predicate Without(es: seq<Elem>, id: nat) {
    forall i :: 0 <= i < |es| ==> es[i].id != id
  }

  // ----- the leaves the writers emit -----

  function Uint(id: nat, value: int): Elem {
    Leaf(id, 0, UintBytes(U64(value)))
  }

  function Int(id: nat, value: int): Elem {
    Leaf(id, 0, IntBytes(value))
  }

  function Bin(id: nat, value: seq<byte>): Elem {
    Leaf(id, 0, value)
  }

  function Master(id: nat, kids: seq<Elem>): Elem {
    Node(id, 0, kids)
  }

  function CrcChild(data: seq<byte>): Elem {
    Leaf(CRC32, 0, LE4(Crc(data)))
  }

  /** A Top-Level master: strict WebM leaves the CRC-32 child out. */
  function TopLevel(id: nat, kids: seq<Elem>, strict: bool): Elem {
    if strict then Master(id, kids) else Master(id, [CrcChild(SerAll(kids))] + kids)
  }

  /** An optional child, and its bytes. */
  function Maybe(present: bool, e: Elem): seq<Elem> {
    if present then [e] else []
  }

  function MaybeBytes(present: bool, e: Elem): seq<byte> {
    if present then Ser(e) else []
  }

  lemma MaybeSnoc(a: seq<Elem>, present: bool, e: Elem)
    ensures SerAll(a + Maybe(present, e)) == SerAll(a) + MaybeBytes(present, e)
  {
    hide Ser, SerAll;
    if present {
      SerSnoc(a, e);
    } else {
      assert a + [] == a;
      assert SerAll(a) + [] == SerAll(a);
    }
  }

  function BitLength(v: nat): nat {
    if v == 0 then 0 else 1 + BitLength(v / 2)
  }

  lemma {:induction false} OctetsOfBits(v: nat)
    requires v > 0
    ensures (BitLength(v) + 7) / 8 == UintLength(v)
    ensures BitLength(v) >= 1
  {
    if v < 256 {
      assert Pow2(8) == 256;
      BitLengthBound(v, 8);
    } else {
      OctetsOfBits(v / 256);
      EightHalvings(v);
    }
  }

  lemma {:induction false} BitLengthBound(v: nat, n: nat)
    requires v < Pow2(n)
    ensures BitLength(v) <= n
  {
    if v > 0 {
      BitLengthBound(v / 2, n - 1);
    }
  }

  lemma EightHalvings(v: nat)
    requires v >= 256
    ensures BitLength(v) == 8 + BitLength(v / 256)
  {
    var a := v / 2;
    var b := a / 2;
    var c := b / 2;
    var d := c / 2;
    var e := d / 2;
    var f := e / 2;
    var g := f / 2;
    assert g / 2 == v / 256;
    assert BitLength(v) == 1 + BitLength(a) == 2 + BitLength(b) == 3 + BitLength(c);
    assert BitLength(c) == 1 + BitLength(d) == 2 + BitLength(e) == 3 + BitLength(f);
    assert BitLength(f) == 1 + BitLength(g) == 2 + BitLength(g / 2);
  }

  lemma ZeroTakesOne()
    ensures UintLength(0) == 1
  {
  }

  method WriteUintElement(buf: seq<byte>, id: nat, value: nat) returns (out: seq<byte>)
    requires ValidId(id) && value < TWO_TO_THE_64
    ensures out == buf + Ser(Uint(id, value))
  {
    hide BitLength, UintLength, BE, Pow256, Vint, IdBytes, DecodeUint;
    ZeroTakesOne();
    var n := 1;
    if value != 0 {
      OctetsOfBits(value);
      n := (BitLength(value) + 7) / 8;
    }
    UintRoundTrip(value, []);
    assert U64(value) == value;
    var idBytes := WriteElementId(id);
    var size := WriteVint(n, 0);
    var payload := PushBE(value, n);
    out := buf + (idBytes + size + payload);
  }

  method WriteIntElement(buf: seq<byte>, id: nat, value: int) returns (out: seq<byte>)
    requires ValidId(id) && -TWO_TO_THE_63 <= value < TWO_TO_THE_63
    ensures out == buf + Ser(Int(id, value))
  {
    var n := 1;
    while n < 8 && !(-(Pow256(n) / 2) <= value <= Pow256(n) / 2 - 1)
      invariant 1 <= n <= 8
      invariant IntLengthFrom(value, n) == IntLength(value)
    {
      n := n + 1;
    }
    hide BE, Pow256, Vint, IdBytes, TwosComplement;
    var idBytes := WriteElementId(id);
    var size := WriteVint(n, 0);
    var payload := PushBE(TwosComplement(value, n), n);
    out := buf + (idBytes + size + payload);
  }

  method WriteBytesElement(buf: seq<byte>, id: nat, value: seq<byte>) returns (out: seq<byte>)
    requires ValidId(id) && |value| < SIZE_LIMIT
    ensures out == buf + Ser(Bin(id, value))
  {
    var idBytes := WriteElementId(id);
    var size := WriteVint(|value|, 0);
    out := buf + (idBytes + size + value);
  }

  /** A master around a body that is already serialised. */
  method WriteMasterElement(buf: seq<byte>, id: nat, body: seq<byte>, ghost kids: seq<Elem>)
    returns (out: seq<byte>)
    requires ValidId(id) && |body| < SIZE_LIMIT && body == SerAll(kids)
    ensures out == buf + Ser(Master(id, kids))
  {
    var idBytes := WriteElementId(id);
    var size := WriteVint(|body|, 0);
    out := buf + (idBytes + size + body);
  }

  method BuildCrc32Child(data: seq<byte>) returns (out: seq<byte>)
    ensures out == Ser(CrcChild(data)) && |out| == 6
  {
    var crc := Crc32Ieee(data);
    out := [0xBF, 0x84] + LE4(crc);
    CrcChildBytes(data);
  }

  lemma CrcChildBytes(data: seq<byte>)
    ensures Ser(CrcChild(data)) == [0xBF, 0x84] + LE4(Crc(data))
  {
    hide IdBytes, Vint, Crc, ByteAt;
    OneByteHeader(CRC32, 4);
    assert [0xBF] + [0x84] == [0xBF, 0x84];
  }

  /** A one-byte ID with a size below 127: two header bytes. */
  lemma OneByteHeader(id: nat, size: nat)
    requires id < 0x100 && size < 127
    ensures IdBytes(id) == [id]
    ensures Vint(size, 0) == [0x80 + size]
  {
    PowerTables();
    assert BE(id, 1) == BE(id / 256, 0) + [id % 256];
    assert BE(0x80 + size, 1) == BE((0x80 + size) / 256, 0) + [(0x80 + size) % 256];
  }

  method WriteMasterElementWithCrc(buf: seq<byte>, id: nat, body: seq<byte>, ghost kids: seq<Elem>)
    returns (out: seq<byte>)
    requires ValidId(id) && 6 + |body| < SIZE_LIMIT && body == SerAll(kids)
    ensures out == buf + Ser(TopLevel(id, kids, false))
  {
    hide Vint, IdBytes, CrcChild;
    var crc := BuildCrc32Child(body);
    var idBytes := WriteElementId(id);
    var size := WriteVint(6 + |body|, 0);
    assert ([CrcChild(body)] + kids)[1..] == kids;
    out := buf + (idBytes + size + (crc + body));
  }
}
