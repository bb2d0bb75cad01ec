/** EBML primitives: variable-length integers, element headers, uint and int payloads. */
module Ebml {
  import opened Wrappers
  import opened Bytes

  /** The size value that stands for "unknown size": `u64::MAX`. */
  const UNKNOWN_SIZE: nat := 0xFFFF_FFFF_FFFF_FFFF

  /** 2^56 - 1: the first size no 8-byte VINT can carry. */
  const SIZE_LIMIT: nat := 0xFF_FFFF_FFFF_FFFF

  /** 2^(7w): how many payloads a `w`-byte VINT has. */
  function Pow128(w: nat): (p: nat)
    ensures p > 0
  {
    if w == 0 then 1 else 128 * Pow128(w - 1)
  }

  /** The width that a leading byte announces: its leading zeros plus one. */
  function WidthOf(first: byte): (w: nat)
    requires first > 0
    ensures 1 <= w <= 8
  {
    if first >= 0x80 then 1
    else if first >= 0x40 then 2
    else if first >= 0x20 then 3
    else if first >= 0x10 then 4
    else if first >= 8 then 5
    else if first >= 4 then 6
    else if first >= 2 then 7
    else 8
  }

  /** The marker bit of a `w`-byte VINT, as a value of its first byte. */
  function Marker(w: nat): (m: byte)
    requires 1 <= w <= 8
    ensures m > 0
  {
    [0x80, 0x40, 0x20, 0x10, 8, 4, 2, 1][w - 1]
  }

  lemma MarkerScaled(w: nat)
    requires 1 <= w <= 8
    ensures Marker(w) * Pow256(w - 1) == Pow128(w)
    ensures Pow128(w) <= Pow128(8) == SIZE_LIMIT + 1
    ensures 2 * Pow128(w) <= Pow256(w)
  {
    PowerTables();
  }

  lemma PowerTables()
    ensures Pow128(0) == 1 && Pow128(1) == 0x80 && Pow128(2) == 0x4000 && Pow128(3) == 0x20_0000
    ensures Pow128(4) == 0x1000_0000 && Pow128(5) == 0x8_0000_0000 && Pow128(6) == 0x400_0000_0000
    ensures Pow128(7) == 0x2_0000_0000_0000 && Pow128(8) == 0x100_0000_0000_0000
    ensures Pow256(0) == 1 && Pow256(1) == 0x100 && Pow256(2) == 0x1_0000 && Pow256(3) == 0x100_0000
    ensures Pow256(4) == 0x1_0000_0000 && Pow256(5) == 0x100_0000_0000 && Pow256(6) == 0x1_0000_0000_0000
    ensures Pow256(7) == 0x100_0000_0000_0000 && Pow256(8) == TWO_TO_THE_64
  {
    assert Pow128(1) == 128 * Pow128(0);
    assert Pow128(2) == 128 * Pow128(1);
    assert Pow128(3) == 128 * Pow128(2);
    assert Pow128(4) == 128 * Pow128(3);
    assert Pow128(5) == 128 * Pow128(4);
    assert Pow128(6) == 128 * Pow128(5);
    assert Pow128(7) == 128 * Pow128(6);
    assert Pow128(8) == 128 * Pow128(7);
    assert Pow256(1) == 256 * Pow256(0);
    assert Pow256(2) == 256 * Pow256(1);
    assert Pow256(3) == 256 * Pow256(2);
    assert Pow256(4) == 256 * Pow256(3);
    assert Pow256(5) == 256 * Pow256(4);
    assert Pow256(6) == 256 * Pow256(5);
    assert Pow256(7) == 256 * Pow256(6);
    assert Pow256(8) == 256 * Pow256(7);
  }

  // ----- reading VINTs -----

  /** A big-endian string is at least its first byte, scaled, and less than one more of it. */
  lemma LeadingByte(s: seq<byte>, p: nat)
    requires s != [] && p == Pow256(|s| - 1)
    ensures s[0] * p <= FromBE(s) < (s[0] + 1) * p
  {
    hide Pow256;
    assert s == s[..1] + s[1..];
    FromBEAppend(s[..1], s[1..]);
    OneByte(s);
    FromBEBound(s[1..]);
    Distribute(s[0], p);
  }

  lemma Distribute(a: int, p: int)
    ensures (a + 1) * p == a * p + p
  {
  }

  /** A `w`-byte string announces width `w` exactly when its value has the marker as its top bit. */
  lemma MarkerBrackets(s: seq<byte>, w: nat)
    requires |s| == w && 1 <= w <= 8
    ensures s[0] > 0 && WidthOf(s[0]) == w <==> Pow128(w) <= FromBE(s) < 2 * Pow128(w)
  {
    hide Pow128, Pow256;
    var p := Pow256(w - 1);
    LeadingByte(s, p);
    MarkerScaled(w);
    MarkerWidth(s[0], w);
    var m: nat, first: nat := Marker(w), s[0];
    if m <= first < 2 * m {
      MulMonotone(m, first, p);
      MulMonotone(first + 1, 2 * m, p);
      DoubleProduct(m, p);
    } else if Pow128(w) <= FromBE(s) < 2 * Pow128(w) {
      Brackets(FromBE(s), first, m, p);
    }
  }

  lemma DoubleProduct(m: int, p: int)
    ensures 2 * m * p == 2 * (m * p)
  {
  }

  lemma MarkerWidth(b: byte, w: nat)
    requires 1 <= w <= 8
    ensures Marker(w) <= b < 2 * Marker(w) <==> b > 0 && WidthOf(b) == w
  {
  }

  lemma OneByte(s: seq<byte>)
    requires s != []
    ensures FromBE(s[..1]) == s[0]
  {
    assert s[..1][..0] == [];
  }

  /**
   * The VINT at the front of `s`: its value and its width. An ID keeps the marker bit; a size
   * drops it, and a size whose payload bits are all ones is the unknown size.
   */
  function DecodeVint(s: seq<byte>, keepMarker: bool): Result<(nat, nat)> {
    if s == [] then Failure(Eof)
    else if s[0] == 0 then Failure(Invalid)
    else
      var w := WidthOf(s[0]);
      if |s| < w then Failure(Eof)
      else
        var raw := FromBE(s[..w]);
        MarkerBrackets(s[..w], w);
        if keepMarker then Success((raw, w))
        else if raw - Pow128(w) == Pow128(w) - 1 then Success((UNKNOWN_SIZE, w))
        else Success((raw - Pow128(w), w))
  }

  method ReadVint(s: seq<byte>, keepMarker: bool) returns (r: Result<(nat, nat)>)
    ensures r == DecodeVint(s, keepMarker)
  {
    hide Pow128, Pow256;
    if s == [] {
      return Failure(Eof);
    }
    var b0 := s[0];
    if b0 == 0 {
      return Failure(Invalid);
    }
    var len := WidthOf(b0);
    if |s| < len {
      return Failure(Eof);
    }
    var value := FoldVint(s, len, keepMarker);
    if !keepMarker && value == Pow128(len) - 1 {
      return Success((UNKNOWN_SIZE, len));
    }
    return Success((value, len));
  }

  /** The masked first byte, then one shift-and-or per further byte. */
  method FoldVint(s: seq<byte>, len: nat, keepMarker: bool) returns (value: nat)
    requires s != [] && s[0] > 0 && len == WidthOf(s[0]) <= |s|
    ensures value == FromBE(s[..len]) - if keepMarker then 0 else Pow128(len)
  {
    value := if keepMarker then s[0] else s[0] % Marker(len);
    ghost var dropped: nat := if keepMarker then 0 else Marker(len);
    MarkerWidth(s[0], len);
    MaskMarker(s[0], Marker(len));
    OneByte(s);
    assert Pow256(0) == 1;
    for i := 1 to len
      invariant value == FromBE(s[..i]) - dropped * Pow256(i - 1)
    {
      FoldStep(s, i);
      MulAssoc(dropped, Pow256(i - 1));
      value := value * 256 + s[i];
    }
    MarkerScaled(len);
  }

  lemma MaskMarker(b: int, m: int)
    requires 0 < m <= b < 2 * m
    ensures b % m == b - m
  {
    DivUnique(b, m, 1, b - m);
  }

  /** The shift-and-or step of the readers. */
  lemma FoldStep(s: seq<byte>, i: nat)
    requires i < |s|
    ensures FromBE(s[..i + 1]) == FromBE(s[..i]) * 256 + s[i]
  {
    assert s[..i + 1][..i] == s[..i];
  }

  // ----- writing VINTs -----

  /** `v` as a VINT of exactly `w` bytes. */
  function VintBytes(v: nat, w: nat): seq<byte>
    requires 1 <= w <= 8
  {
    BE(Pow128(w) + v, w)
  }

  /** The first width from `w` on whose payloads, the all-ones one excepted, include `v`. */
  function WidthFrom(v: nat, w: nat): (r: nat)
    requires 1 <= w <= 8 && v < SIZE_LIMIT
    ensures w <= r <= 8
    ensures v < Pow128(r) - 1
    ensures forall k :: w <= k < r ==> v >= Pow128(k) - 1
    decreases 8 - w
  {
    PowerTables();
    if v < Pow128(w) - 1 then w else WidthFrom(v, w + 1)
  }

  function VintWidth(v: nat, minWidth: nat): (w: nat)
    requires v < SIZE_LIMIT && minWidth <= 8
    ensures 1 <= w <= 8 && minWidth <= w
  {
    WidthFrom(v, if minWidth == 0 then 1 else minWidth)
  }

  /** A size VINT, at least `minWidth` bytes wide; empty where the source panics. */
  function Vint(v: nat, minWidth: nat): (s: seq<byte>)
    ensures v < SIZE_LIMIT && minWidth <= 8 ==> |s| == VintWidth(v, minWidth)
  {
    if v < SIZE_LIMIT && minWidth <= 8 then VintBytes(v, VintWidth(v, minWidth)) else []
  }

  lemma VintBytesDecode(v: nat, w: nat, tail: seq<byte>, keepMarker: bool)
    requires 1 <= w <= 8 && v < Pow128(w)
    ensures DecodeVint(VintBytes(v, w) + tail, keepMarker) ==
            Success((if keepMarker then Pow128(w) + v
                     else if v == Pow128(w) - 1 then UNKNOWN_SIZE else v, w))
  {
    hide Pow128, Pow256, WidthOf, BE, FromBE;
    var s := VintBytes(v, w);
    MarkerScaled(w);
    BEInverse(Pow128(w) + v, w);
    MarkerBrackets(s, w);
    assert (s + tail)[..w] == s;
  }

  /** Reading back a written size gives the size and the width, whatever bytes follow. */
  lemma VintRoundTrip(v: nat, minWidth: nat, tail: seq<byte>)
    requires v < SIZE_LIMIT && minWidth <= 8
    ensures DecodeVint(Vint(v, minWidth) + tail, false) == Success((v, VintWidth(v, minWidth)))
  {
    VintBytesDecode(v, VintWidth(v, minWidth), tail, false);
  }

  /** No width of at least `minWidth` bytes below the chosen one can carry the size. */
  lemma VintIsMinimal(v: nat, minWidth: nat, w: nat, s: seq<byte>)
    requires v < SIZE_LIMIT && minWidth <= 8
    requires minWidth <= w
    requires DecodeVint(s, false) == Success((v, w))
    ensures VintWidth(v, minWidth) <= w
  {
    MarkerBrackets(s[..w], w);
  }

  /** The source's panic past 2^56 - 2, and its `8 - width` underflow past 8, are the precondition. */
  method WriteVint(value: nat, minWidth: nat) returns (out: seq<byte>)
    requires value == UNKNOWN_SIZE || (value < SIZE_LIMIT && minWidth <= 8)
    ensures out == if value == UNKNOWN_SIZE then [0xFF] else Vint(value, minWidth)
  {
    if value == UNKNOWN_SIZE {
      return [0xFF];
    }
    var width := if minWidth == 0 then 1 else minWidth;
    while value >= Pow128(width) - 1
      invariant 1 <= width <= 8
      invariant WidthFrom(value, width) == VintWidth(value, minWidth)
      decreases 8 - width
    {
      PowerTables();
      width := width + 1;
    }
    out := FillVint(value, width);
  }

  /** The marker in byte 0, then the low bytes of the value from the last byte down. */
  method FillVint(value: nat, width: nat) returns (out: seq<byte>)
    requires 1 <= width <= 8 && value < Pow128(width)
    ensures out == VintBytes(value, width)
  {
    var rest: nat := value;
    out := [];
    for i := width downto 1
      invariant rest == Shift(value, width - i)
      invariant out == BE(value, width - i)
    {
      BEGrow(value, width - i - 1);
      ShiftStep(value, width - i - 1);
      out := [rest % 256] + out;
      rest := rest / 256;
    }
    TopByte(value, width);
    out := [Marker(width) + rest] + out;
  }

  /** The marker lies above every payload bit of a `w`-byte VINT. */
  lemma TopByte(v: nat, w: nat)
    requires 1 <= w <= 8 && v < Pow128(w)
    ensures Shift(v, w - 1) < Marker(w)
    ensures VintBytes(v, w) == [Marker(w) + Shift(v, w - 1)] + BE(v, w - 1)
  {
    MarkerScaled(w);
    ShiftHigh(Marker(w), v, w - 1, Pow128(w));
    BEGrow(Pow128(w) + v, w - 1);
  }

  // ----- element IDs and headers -----

  function IdLength(id: nat): nat {
    if id < 0x100 then 1 else if id < 0x1_0000 then 2 else if id < 0x100_0000 then 3 else 4
  }

  function IdBytes(id: nat): seq<byte> {
    BE(id, IdLength(id))
  }

  /** An element ID is a VINT of at most 4 bytes with its marker kept. */
  predicate ValidId(id: nat) {
    0x80 <= id < 0x100 || 0x4000 <= id < 0x8000 || 0x20_0000 <= id < 0x40_0000 || 0x1000_0000 <= id < 0x2000_0000
  }

  method WriteElementId(id: nat) returns (out: seq<byte>)
    requires id < TWO_TO_THE_32
    ensures out == IdBytes(id)
  {
    var bytes := IdLength(id);
    out := PushBE(id, bytes);
  }

  /** `n` bytes of `v`, pushed from the most significant one on. */
  method PushBE(v: nat, n: nat) returns (out: seq<byte>)
    ensures out == BE(v, n)
  {
    out := [];
    for i := n downto 0
      invariant out == BE(Shift(v, i), n - i)
    {
      ShiftStep(v, i);
      out := out + [Shift(v, i) % 256];
    }
  }

  lemma IdDecode(id: nat, tail: seq<byte>)
    requires ValidId(id)
    ensures DecodeVint(IdBytes(id) + tail, true) == Success((id, IdLength(id)))
  {
    var w := IdLength(id);
    PowerTables();
    VintBytesDecode(id - Pow128(w), w, tail, true);
  }

  datatype Header = Header(id: nat, size: nat, length: nat)

  /** The element header at the front of `s`. */
  function DecodeHeader(s: seq<byte>): Result<Header> {
    var (id, idLength) :- DecodeVint(s, true);
    if id >= TWO_TO_THE_32 then Failure(Invalid)
    else
      assert idLength <= |s|;
      var (size, sizeLength) :- DecodeVint(s[idLength..], false);
      Success(Header(id, size, idLength + sizeLength))
  }

  method ReadElementHeader(s: seq<byte>) returns (r: Result<Header>)
    ensures r == DecodeHeader(s)
  {
    var idRead := ReadVint(s, true);
    if idRead.Failure? {
      return Failure(idRead.error);
    }
    var (id, idLength) := idRead.value;
    if id >= TWO_TO_THE_32 {
      return Failure(Invalid);
    }
    var sizeRead := ReadVint(s[idLength..], false);
    if sizeRead.Failure? {
      return Failure(sizeRead.error);
    }
    return Success(Header(id, sizeRead.value.0, idLength + sizeRead.value.1));
  }

  lemma HeaderBounds(s: seq<byte>)
    requires DecodeHeader(s).Success?
    ensures 2 <= DecodeHeader(s).value.length <= |s|
    ensures DecodeHeader(s).value.length <= 16
  {
  }

  lemma HeaderRoundTrip(id: nat, size: nat, minWidth: nat, tail: seq<byte>)
    requires ValidId(id) && size < SIZE_LIMIT && minWidth <= 8
    ensures DecodeHeader(IdBytes(id) + Vint(size, minWidth) + tail)
         == Success(Header(id, size, IdLength(id) + VintWidth(size, minWidth)))
  {
    var s := IdBytes(id) + Vint(size, minWidth) + tail;
    assert s == IdBytes(id) + (Vint(size, minWidth) + tail);
    IdDecode(id, Vint(size, minWidth) + tail);
    assert s[IdLength(id)..] == Vint(size, minWidth) + tail;
    VintRoundTrip(size, minWidth, tail);
  }

  /** The one-byte `FF` size that opens an unknown-size master. */
  lemma UnknownHeader(id: nat, tail: seq<byte>)
    requires ValidId(id)
    ensures DecodeHeader(IdBytes(id) + [0xFF] + tail)
         == Success(Header(id, UNKNOWN_SIZE, IdLength(id) + 1))
  {
    var s := IdBytes(id) + [0xFF] + tail;
    assert s == IdBytes(id) + ([0xFF] + tail);
    IdDecode(id, [0xFF] + tail);
    assert s[IdLength(id)..] == [0xFF] + tail;
    PowerTables();
    VintBytesDecode(0x7F, 1, tail, false);
    assert VintBytes(0x7F, 1) == [0xFF];
  }

  // ----- uint and int payloads -----

  /** The octets `write_uint_element` gives a value: one for zero, otherwise no leading zero. */
  function UintLength(v: nat): (n: nat)
    ensures n >= 1 && v < Pow256(n)
    ensures n > 1 ==> v >= Pow256(n - 1)
  {
    if v < 256 then 1 else 1 + UintLength(v / 256)
  }

  function UintBytes(v: nat): seq<byte> {
    BE(v, UintLength(v))
  }

  lemma {:induction false} UintLengthBound(v: nat, n: nat)
    requires n >= 1 && v < Pow256(n)
    ensures UintLength(v) <= n
  {
    if v >= 256 {
      assert n > 1;
      UintLengthBound(v / 256, n - 1);
    }
  }

  function DecodeUint(s: seq<byte>, n: nat): Result<nat> {
    if n > 8 then Failure(Invalid)
    else if n == 0 then Success(0)
    else if |s| < n then Failure(Eof)
    else Success(FromBE(s[..n]))
  }

  method ReadUint(s: seq<byte>, n: nat) returns (r: Result<nat>)
    ensures r == DecodeUint(s, n)
  {
    if n > 8 {
      return Failure(Invalid);
    }
    if n == 0 {
      return Success(0);
    }
    if |s| < n {
      return Failure(Eof);
    }
    var v: nat := 0;
    for i := 0 to n
      invariant v == FromBE(s[..i])
    {
      assert s[..i + 1][..i] == s[..i];
      v := v * 256 + s[i];
    }
    return Success(v);
  }

  /** Every u64 reads back from its octets. */
  lemma UintRoundTrip(v: nat, tail: seq<byte>)
    requires v < TWO_TO_THE_64
    ensures UintLength(v) <= 8
    ensures DecodeUint(UintBytes(v) + tail, UintLength(v)) == Success(v)
  {
    var n := UintLength(v);
    Pow256At8();
    UintLengthBound(v, 8);
    hide Pow256, UintLength;
    BEInverse(v, n);
    assert (UintBytes(v) + tail)[..n] == UintBytes(v);
  }

  /** No shorter run of octets denotes the value. */
  lemma UintIsMinimal(v: nat, s: seq<byte>, n: nat)
    requires n >= 1 && DecodeUint(s, n) == Success(v)
    ensures UintLength(v) <= n
  {
    FromBEBound(s[..n]);
    UintLengthBound(v, n);
  }

  lemma Pow256At8()
    ensures Pow256(8) == TWO_TO_THE_64
  {
    PowerTables();
  }

  predicate FitsInt(v: int, n: nat)
    requires n > 0
  {
    -(Pow256(n) / 2) <= v <= Pow256(n) / 2 - 1
  }

  function IntLengthFrom(v: int, n: nat): (r: nat)
    requires 1 <= n <= 8
    ensures n <= r <= 8
    ensures r < 8 ==> FitsInt(v, r)
    ensures forall k :: n <= k < r ==> !FitsInt(v, k)
    decreases 8 - n
  {
    if n == 8 || FitsInt(v, n) then n else IntLengthFrom(v, n + 1)
  }

  /** The octets `write_int_element` gives a value. */
  function IntLength(v: int): nat {
    IntLengthFrom(v, 1)
  }

  function IntBytes(v: int): seq<byte> {
    BE(TwosComplement(v, IntLength(v)), IntLength(v))
  }

  function DecodeInt(s: seq<byte>, n: nat): Result<int> {
    if n == 0 then Success(0)
    else
      var raw :- DecodeUint(s, n);
      Success(if raw < Pow256(n) / 2 then raw else raw - Pow256(n))
  }

  method ReadInt(s: seq<byte>, n: nat) returns (r: Result<int>)
    ensures r == DecodeInt(s, n)
  {
    if n == 0 {
      return Success(0);
    }
    var read := ReadUint(s, n);
    if read.Failure? {
      return Failure(read.error);
    }
    FromBEBound(s[..n]);
    var value := SignExtend(read.value, n);
    return Success(value);
  }

  /** `raw << shift as i64 >> shift` moves the sign bit of the n-byte pattern to bit 63 and back. */
  method SignExtend(raw: nat, n: nat) returns (value: int)
    requires 1 <= n <= 8 && raw < Pow256(n)
    ensures value == if raw < Pow256(n) / 2 then raw else raw - Pow256(n)
  {
    var unit := Pow256(8 - n);
    ShiftTables(n);
    hide Pow256;
    ShiftBack(raw, unit, Pow256(n));
    var shifted := raw * unit;
    var signed := if shifted < TWO_TO_THE_63 then shifted else shifted - TWO_TO_THE_64;
    value := signed / unit;
  }

  lemma ShiftTables(n: nat)
    requires 1 <= n <= 8
    ensures Pow256(8 - n) * Pow256(n) == TWO_TO_THE_64
    ensures Pow256(n) % 2 == 0
  {
    PowerTables();
  }

  lemma ShiftBack(raw: nat, unit: nat, whole: nat)
    requires unit > 0 && whole > 0 && raw < whole && unit * whole == TWO_TO_THE_64 && whole % 2 == 0
    ensures raw * unit < TWO_TO_THE_63 <==> raw < whole / 2
    ensures raw * unit / unit == raw
    ensures (raw * unit - TWO_TO_THE_64) / unit == raw - whole
  {
    var half := whole / 2;
    assert half * unit == TWO_TO_THE_63 by { assert (2 * half) * unit == 2 * (half * unit); }
    if raw < half {
      MulMonotone(raw + 1, half, unit);
      assert (raw + 1) * unit == raw * unit + unit;
    } else {
      MulMonotone(half, raw, unit);
    }
    DivUnique(raw * unit, unit, raw, 0);
    assert raw * unit - TWO_TO_THE_64 == (raw - whole) * unit;
    DivUnique((raw - whole) * unit, unit, raw - whole, 0);
  }

  /** Every i64 reads back from its octets, and from no fewer of them. */
  lemma IntRoundTrip(v: int, tail: seq<byte>)
    requires -TWO_TO_THE_63 <= v < TWO_TO_THE_63
    ensures DecodeInt(IntBytes(v) + tail, IntLength(v)) == Success(v)
    ensures forall s, n :: 1 <= n && DecodeInt(s, n) == Success(v) ==> IntLength(v) <= n
  {
    var n := IntLength(v);
    PowerTables();
    IntPatternReads(v, n, tail);
    forall s: seq<byte>, m | 1 <= m && DecodeInt(s, m) == Success(v)
      ensures IntLength(v) <= m
    {
      FromBEBound(s[..m]);
      HalfRange(m);
    }
  }

  lemma HalfRange(n: nat)
    requires n > 0
    ensures Pow256(n) == 2 * (Pow256(n) / 2)
  {
  }

  lemma IntPatternReads(v: int, n: nat, tail: seq<byte>)
    requires 1 <= n <= 8 && FitsInt(v, n)
    ensures DecodeInt(BE(TwosComplement(v, n), n) + tail, n) == Success(v)
  {
    var p := Pow256(n);
    HalfRange(n);
    DivUnique(v, p, if v >= 0 then 0 else -1, if v >= 0 then v else v + p);
    var raw := TwosComplement(v, n);
    BEInverse(raw, n);
    assert (BE(raw, n) + tail)[..n] == BE(raw, n);
  }
}
