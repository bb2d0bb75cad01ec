/**
 * The CRC-32 of section 11.3.1 of RFC 8794: reflected, polynomial 0xEDB88320, register and
 * result complemented. A `u32` is its 32 bits, least significant first. The reference is the
 * division of the message one bit at a time; the source's loop works a byte at a time.
 */
module Crc32 {
  import opened Bytes

  // ----- bits -----

  function Bits(n: nat, width: nat): (s: seq<bool>)
    ensures |s| == width
  {
    if width == 0 then [] else [n % 2 == 1] + Bits(n / 2, width - 1)
  }

  function Number(s: seq<bool>): nat {
    if s == [] then 0 else (if s[0] then 1 else 0) + 2 * Number(s[1..])
  }

  function Zeros(n: nat): (s: seq<bool>)
    ensures |s| == n
    ensures forall i :: 0 <= i < n ==> !s[i]
  {
    seq(n, i => false)
  }

  lemma {:induction false} NumberBits(s: seq<bool>, width: nat)
    requires |s| <= width
    ensures Number(s) < Pow2(|s|)
    ensures Bits(Number(s), width) == s + Zeros(width - |s|)
  {
    if s == [] {
      ZeroBits(width);
    } else {
      NumberBits(s[1..], width - 1);
    }
  }

  lemma {:induction false} ZeroBits(width: nat)
    ensures Bits(0, width) == Zeros(width)
  {
    if width > 0 {
      ZeroBits(width - 1);
    }
  }

  lemma {:induction false} BitsNumber(n: nat, width: nat)
    requires n < Pow2(width)
    ensures Number(Bits(n, width)) == n
  {
    if width > 0 {
      BitsNumber(n / 2, width - 1);
      assert Bits(n, width)[1..] == Bits(n / 2, width - 1);
    }
  }

  lemma {:induction false} TopBit(n: nat, width: nat)
    requires width > 0 && Pow2(width - 1) <= n < Pow2(width)
    ensures Bits(n, width)[width - 1]
  {
    if width > 1 {
      TopBit(n / 2, width - 1);
    }
  }

  // ----- the division -----

  type Register = s: seq<bool> | |s| == 32 witness Zeros(32)

  const POLYNOMIAL: nat := 0xEDB8_8320

  function Polynomial(): Register {
    Bits(POLYNOMIAL, 32)
  }

  function AllOnes(): Register {
    seq(32, i => true)
  }

  function Xor(a: Register, b: Register): (r: Register)
    ensures forall i :: 0 <= i < 32 ==> r[i] == (a[i] != b[i])
  {
    seq(32, i requires 0 <= i < 32 => a[i] != b[i])
  }

  /** Shift one zero bit through the register of a division by `p`. */
  function TurnBy(p: Register, r: Register): Register {
    if r[0] then Xor(p, r[1..] + [false]) else r[1..] + [false]
  }

  function Turn(r: Register): Register {
    TurnBy(Polynomial(), r)
  }

  /** Divide one message bit into the register. */
  function Divide(r: Register, bit: bool): Register {
    Turn(r[0 := r[0] != bit])
  }

  function DivideAll(r: Register, bits: seq<bool>): Register
    decreases |bits|
  {
    if bits == [] then r else DivideAll(Divide(r, bits[0]), bits[1..])
  }

  function MessageBits(data: seq<byte>): (bits: seq<bool>)
    ensures |bits| == 8 * |data|
  {
    if data == [] then [] else Bits(data[0], 8) + MessageBits(data[1..])
  }

  /** The reference: bit-by-bit division of the whole message, least significant bits first. */
  function Crc(data: seq<byte>): Register {
    Xor(DivideAll(AllOnes(), MessageBits(data)), AllOnes())
  }

  // ----- several bits at once -----

  function Turns(r: Register, n: nat): Register
    decreases n
  {
    if n == 0 then r else Turns(Turn(r), n - 1)
  }

  /** `bits` XORed into the low end of the register. */
  function Mix(r: Register, bits: seq<bool>): (m: Register)
    requires |bits| <= 32
    ensures forall i :: 0 <= i < 32 ==> m[i] == (r[i] != (i < |bits| && bits[i]))
  {
    seq(32, i requires 0 <= i < 32 => r[i] != (i < |bits| && bits[i]))
  }

  lemma TurnMix(r: Register, bits: seq<bool>)
    requires 0 < |bits| <= 32
    ensures Turn(Mix(r, bits)) == Mix(Divide(r, bits[0]), bits[1..])
  {
  }

  lemma MixNothing(r: Register)
    ensures Mix(r, []) == r
  {
  }

  /** Up to 32 bits may enter the register together before the turns. */
  lemma {:induction false} MixIsDivision(r: Register, bits: seq<bool>)
    requires |bits| <= 32
    ensures Turns(Mix(r, bits), |bits|) == DivideAll(r, bits)
    decreases |bits|
  {
    hide Turn, Mix, Divide;
    if bits == [] {
      MixNothing(r);
    } else {
      TurnMix(r, bits);
      MixIsDivision(Divide(r, bits[0]), bits[1..]);
    }
  }

  lemma {:induction false} DivideAppend(r: Register, a: seq<bool>, b: seq<bool>)
    ensures DivideAll(r, a + b) == DivideAll(DivideAll(r, a), b)
    decreases |a|
  {
    if a == [] {
      assert a + b == b;
    } else {
      assert (a + b)[1..] == a[1..] + b;
      DivideAppend(Divide(r, a[0]), a[1..], b);
    }
  }

  lemma {:induction false} MessageBitsAppend(a: seq<byte>, b: seq<byte>)
    ensures MessageBits(a + b) == MessageBits(a) + MessageBits(b)
  {
    if a == [] {
      assert a + b == b;
    } else {
      assert (a + b)[1..] == a[1..] + b;
      MessageBitsAppend(a[1..], b);
    }
  }

  // ----- the polynomial -----

  lemma FourBits(n: nat, width: nat)
    requires width >= 4
    ensures Bits(n, width) == [n % 2 == 1, n / 2 % 2 == 1, n / 2 / 2 % 2 == 1, n / 2 / 2 / 2 % 2 == 1]
                              + Bits(n / 2 / 2 / 2 / 2, width - 4)
  {
    assert Bits(n, width) == [n % 2 == 1] + Bits(n / 2, width - 1);
    assert Bits(n / 2, width - 1) == [n / 2 % 2 == 1] + Bits(n / 2 / 2, width - 2);
    assert Bits(n / 2 / 2, width - 2) == [n / 2 / 2 % 2 == 1] + Bits(n / 2 / 2 / 2, width - 3);
    assert Bits(n / 2 / 2 / 2, width - 3) == [n / 2 / 2 / 2 % 2 == 1] + Bits(n / 2 / 2 / 2 / 2, width - 4);
  }

  lemma HalfOf(n: nat, a: nat, m: nat)
    requires n == 2 * a + m
    ensures n / 2 == a + m / 2 && n % 2 == m % 2
  {
  }

  lemma SameNibble(n: nat, k: nat, m: nat)
    requires n == 16 * k + m && m < 16
    ensures n % 2 == m % 2 && n / 2 % 2 == m / 2 % 2 && n / 2 / 2 % 2 == m / 2 / 2 % 2
    ensures n / 2 / 2 / 2 % 2 == m / 2 / 2 / 2 % 2 && n / 2 / 2 / 2 / 2 == k
  {
    HalfOf(n, 8 * k, m);
    HalfOf(n / 2, 4 * k, m / 2);
    HalfOf(n / 2 / 2, 2 * k, m / 2 / 2);
    HalfOf(n / 2 / 2 / 2, k, m / 2 / 2 / 2);
  }

  lemma LowNibble(n: nat, width: nat)
    requires width >= 4
    ensures Bits(n, width) == Bits(n % 16, 4) + Bits(n / 16, width - 4)
  {
    hide Bits;
    FourBits(n, width);
    FourBits(n % 16, 4);
    SameNibble(n, n / 16, n % 16);
    NoBits(n % 16 / 2 / 2 / 2 / 2);
  }

  lemma NoBits(n: nat)
    ensures Bits(n, 0) == []
  {
  }

  lemma Digits()
    ensures Bits(0, 4) == [false, false, false, false] && Bits(2, 4) == [false, true, false, false]
    ensures Bits(3, 4) == [true, true, false, false] && Bits(8, 4) == [false, false, false, true]
    ensures Bits(0xB, 4) == [true, true, false, true] && Bits(0xD, 4) == [true, false, true, true]
    ensures Bits(0xE, 4) == [false, true, true, true] && Bits(0, 0) == []
  {
  }

  lemma TwoNibbles(n: nat, width: nat, a: seq<bool>, b: seq<bool>, rest: seq<bool>)
    requires width >= 8 && Bits(n % 16, 4) == a && Bits(n / 16 % 16, 4) == b && Bits(n / 256, width - 8) == rest
    ensures Bits(n, width) == a + b + rest
  {
    hide Bits;
    LowNibble(n, width);
    LowNibble(n / 16, width - 4);
    assert n / 16 / 16 == n / 256;
  }

  /**
   * The division is by x^32 + x^26 + x^23 + x^22 + x^16 + x^12 + x^11 + x^10 + x^8 + x^7 + x^5 + x^4
   * + x^2 + x + 1; the register holds the coefficients from x^31 down.
   */
  lemma PolynomialIs()
    ensures Polynomial()
         == [false, false, false, false, false, true, false, false]
            + ([true, true, false, false, false, false, false, true]
               + ([false, false, false, true, true, true, false, true]
                  + [true, false, true, true, false, true, true, true]))
  {
    hide Bits;
    Digits();
    TwoNibbles(0xED, 8, Bits(0xD, 4), Bits(0xE, 4), []);
    TwoNibbles(0xEDB8, 16, Bits(8, 4), Bits(0xB, 4), Bits(0xED, 8));
    TwoNibbles(0xEDB883, 24, Bits(3, 4), Bits(8, 4), Bits(0xEDB8, 16));
    TwoNibbles(0xEDB88320, 32, Bits(0, 4), Bits(2, 4), Bits(0xEDB883, 24));
  }

  // ----- the table-driven loop -----

  lemma TurnIsLinear(a: Register, b: Register)
    ensures Turn(Xor(a, b)) == Xor(Turn(a), Turn(b))
  {
  }

  lemma {:induction false} TurnsAreLinear(a: Register, b: Register, n: nat)
    ensures Turns(Xor(a, b), n) == Xor(Turns(a, n), Turns(b, n))
    decreases n
  {
    hide Turn;
    if n > 0 {
      TurnIsLinear(a, b);
      TurnsAreLinear(Turn(a), Turn(b), n - 1);
    }
  }

  /** As many turns as the register has low zero bits only shift it. */
  lemma {:induction false} TurnsShift(r: Register, n: nat)
    requires n <= 32 && forall i :: 0 <= i < n ==> !r[i]
    ensures Turns(r, n) == r[n..] + Zeros(n)
    decreases n
  {
    if n > 0 {
      TurnsShift(Turn(r), n - 1);
    } else {
      assert r[0..] + Zeros(0) == r;
    }
  }

  /** The lookup of the low byte, XORed with the shifted register, is eight turns of the register. */
  lemma TableStep(r: Register)
    ensures Xor(Turns(r[..8] + Zeros(24), 8), r[8..] + Zeros(8)) == Turns(r, 8)
  {
    var low: Register := r[..8] + Zeros(24);
    var high: Register := Zeros(8) + r[8..];
    assert Xor(low, high) == r;
    TurnsAreLinear(low, high, 8);
    TurnsShift(high, 8);
    assert high[8..] == r[8..];
  }

  /** The `& 0xFF` of the source, as a table index. */
  function LowByte(r: Register): byte {
    NumberBits(r[..8], 8);
    assert Pow2(8) == 256;
    Number(r[..8])
  }

  lemma LookupIsDivision(r: Register, b: byte)
    ensures Xor(Turns(Bits(LowByte(Mix(r, Bits(b, 8))), 32), 8), r[8..] + Zeros(8)) == DivideAll(r, Bits(b, 8))
  {
    var mixed := Mix(r, Bits(b, 8));
    NumberBits(mixed[..8], 32);
    TableStep(mixed);
    MixIsDivision(r, Bits(b, 8));
    assert mixed[8..] == r[8..];
  }

  lemma LoopStep(r: Register, data: seq<byte>, i: nat)
    requires i < |data|
    ensures DivideAll(Xor(Turns(Bits(LowByte(Mix(r, Bits(data[i], 8))), 32), 8), r[8..] + Zeros(8)),
                      MessageBits(data[i + 1..]))
         == DivideAll(r, MessageBits(data[i..]))
  {
    LookupIsDivision(r, data[i]);
    DivideAppend(r, Bits(data[i], 8), MessageBits(data[i + 1..]));
    assert data[i..][1..] == data[i + 1..];
  }

  /** Entry n of the lookup table is n after eight turns. */
  ghost predicate IsTable(table: seq<Register>) {
    |table| == 256 && forall n :: 0 <= n < 256 ==> table[n] == Turns(Bits(n, 32), 8)
  }

  /** The lazily built table. */
  method BuildTable() returns (table: array<Register>)
    ensures fresh(table) && table.Length == 256
    ensures IsTable(table[..])
  {
    hide Turns, Bits;
    table := new Register[256];
    for n := 0 to 256
      invariant forall m :: 0 <= m < n ==> table[m] == Turns(Bits(m, 32), 8)
    {
      table[n] := EightTurns(Bits(n, 32));
    }
  }

  method TurnOnce(c: Register) returns (t: Register)
    ensures t == Turn(c)
  {
    t := if c[0] then Xor(Polynomial(), c[1..] + [false]) else c[1..] + [false];
  }

  method EightTurns(r: Register) returns (c: Register)
    ensures c == Turns(r, 8)
  {
    hide Turn;
    c := r;
    for k := 0 to 8
      invariant Turns(c, 8 - k) == Turns(r, 8)
    {
      c := TurnOnce(c);
    }
  }

  /** The table-driven loop computes the bit-by-bit division, on every input. */
  method Crc32Ieee(data: seq<byte>) returns (crc: Register)
    ensures crc == Crc(data)
  {
    hide Turn, Mix, Xor, LowByte;
    var table := BuildTable();
    crc := AllOnes();
    for i := 0 to |data|
      invariant IsTable(table[..])
      invariant DivideAll(crc, MessageBits(data[i..])) == DivideAll(AllOnes(), MessageBits(data))
    {
      LoopStep(crc, data, i);
      var index := LowByte(Mix(crc, Bits(data[i], 8)));
      assert table[..][index] == Turns(Bits(index, 32), 8);
      crc := Xor(table[index], crc[8..] + Zeros(8));
    }
    assert MessageBits(data[|data|..]) == [];
    crc := Xor(crc, AllOnes());
  }

  // ----- detection -----

  /** One turn can be undone: the top bit of the result says whether the polynomial went in. */
  function UnturnBy(p: Register, t: Register): Register {
    seq(32, i requires 0 <= i < 32 => if i == 0 then t[31] else t[i - 1] != (t[31] && p[i - 1]))
  }

  function Unturn(t: Register): Register {
    UnturnBy(Polynomial(), t)
  }

  lemma UnturnTurnBy(p: Register, r: Register)
    requires p[31]
    ensures UnturnBy(p, TurnBy(p, r)) == r
    ensures TurnBy(p, UnturnBy(p, r)) == r
  {
  }

  lemma PolynomialTop()
    ensures Polynomial()[31]
  {
    assert Pow2(4) == 16 && Pow2(8) == 256;
    assert Pow2(12) == 16 * Pow2(8);
    assert Pow2(16) == 16 * Pow2(12);
    assert Pow2(20) == 16 * Pow2(16);
    assert Pow2(24) == 16 * Pow2(20);
    assert Pow2(28) == 16 * Pow2(24);
    assert Pow2(31) == 8 * Pow2(28);
    TopBit(POLYNOMIAL, 32);
  }

  lemma TurnBijective(r: Register)
    ensures Unturn(Turn(r)) == r
    ensures Turn(Unturn(r)) == r
  {
    PolynomialTop();
    UnturnTurnBy(Polynomial(), r);
  }

  lemma {:induction false} TurnsInjective(a: Register, b: Register, n: nat)
    requires Turns(a, n) == Turns(b, n)
    ensures a == b
    decreases n
  {
    hide Turn, Unturn;
    if n > 0 {
      TurnsInjective(Turn(a), Turn(b), n - 1);
      TurnBijective(a);
      TurnBijective(b);
    }
  }

  function Unturns(r: Register, n: nat): Register
    decreases n
  {
    if n == 0 then r else Unturn(Unturns(r, n - 1))
  }

  lemma {:induction false} TurnsUnturns(r: Register, n: nat)
    ensures Turns(Unturns(r, n), n) == r
    decreases n
  {
    hide Turn, Unturn;
    if n > 0 {
      TurnBijective(Unturns(r, n - 1));
      TurnsUnturns(r, n - 1);
    }
  }

  lemma MixCancels(a: Register, b: Register, bits: seq<bool>)
    requires |bits| <= 32
    ensures Mix(a, bits) == Mix(b, bits) ==> a == b
    ensures Mix(Mix(a, bits), bits) == a
  {
    if Mix(a, bits) == Mix(b, bits) {
      forall i | 0 <= i < 32
        ensures a[i] == b[i]
      {
        assert Mix(a, bits)[i] == Mix(b, bits)[i];
      }
    }
  }

  /** Each byte step is a bijection of the register: distinct registers stay distinct, and every register is reached. */
  lemma ByteStepBijective(r: Register, s: Register, b: byte)
    ensures DivideAll(r, Bits(b, 8)) == DivideAll(s, Bits(b, 8)) ==> r == s
    ensures exists t: Register :: DivideAll(t, Bits(b, 8)) == r
  {
    var bits := Bits(b, 8);
    MixIsDivision(r, bits);
    MixIsDivision(s, bits);
    if DivideAll(r, bits) == DivideAll(s, bits) {
      TurnsInjective(Mix(r, bits), Mix(s, bits), 8);
      MixCancels(r, s, bits);
    }
    var t := Mix(Unturns(r, 8), bits);
    TurnsUnturns(r, 8);
    MixIsDivision(t, bits);
    MixCancels(Unturns(r, 8), t, bits);
  }

  lemma {:induction false} DivideInjective(r: Register, s: Register, bits: seq<bool>)
    requires DivideAll(r, bits) == DivideAll(s, bits)
    ensures r == s
    decreases |bits|
  {
    if bits != [] {
      DivideInjective(Divide(r, bits[0]), Divide(s, bits[0]), bits[1..]);
      TurnBijective(r[0 := r[0] != bits[0]]);
      TurnBijective(s[0 := s[0] != bits[0]]);
      FlipInjective(r, s, bits[0]);
    }
  }

  lemma FlipInjective(r: Register, s: Register, bit: bool)
    requires r[0 := r[0] != bit] == s[0 := s[0] != bit]
    ensures r == s
  {
    forall i | 0 <= i < 32
      ensures r[i] == s[i]
    {
      assert r[0 := r[0] != bit][i] == s[0 := s[0] != bit][i];
    }
  }

  lemma {:induction false} MessageBitsInjective(v: seq<byte>, w: seq<byte>)
    requires |v| == |w| && MessageBits(v) == MessageBits(w)
    ensures v == w
  {
    if v != [] {
      assert MessageBits(v)[..8] == Bits(v[0], 8) && MessageBits(w)[..8] == Bits(w[0], 8);
      assert MessageBits(v)[8..] == MessageBits(v[1..]) && MessageBits(w)[8..] == MessageBits(w[1..]);
      assert Pow2(8) == 256;
      BitsNumber(v[0], 8);
      BitsNumber(w[0], 8);
      MessageBitsInjective(v[1..], w[1..]);
      assert v == [v[0]] + v[1..] && w == [w[0]] + w[1..];
    }
  }

  /**
   * Two messages of one length whose differences all lie in one window of at most 32 bits never
   * share a CRC. The window need not start on a byte boundary: the rest of its bytes may agree.
   */
  lemma BurstDetected(r: Register, v: seq<bool>, w: seq<bool>, after: seq<bool>)
    requires |v| == |w| <= 32 && v != w
    ensures DivideAll(r, v + after) != DivideAll(r, w + after)
  {
    hide Turn, Mix;
    if DivideAll(r, v + after) == DivideAll(r, w + after) {
      DivideAppend(r, v, after);
      DivideAppend(r, w, after);
      DivideInjective(DivideAll(r, v), DivideAll(r, w), after);
      MixIsDivision(r, v);
      MixIsDivision(r, w);
      TurnsInjective(Mix(r, v), Mix(r, w), |v|);
      MixInjective(r, v, w);
    }
  }

  lemma MixInjective(r: Register, v: seq<bool>, w: seq<bool>)
    requires |v| == |w| <= 32 && Mix(r, v) == Mix(r, w)
    ensures v == w
  {
    forall i | 0 <= i < |v|
      ensures v[i] == w[i]
    {
      assert Mix(r, v)[i] == Mix(r, w)[i];
    }
  }

  /** So two messages that differ only inside four consecutive bytes, one byte included, never share a CRC. */
  lemma CrcDetects(before: seq<byte>, v: seq<byte>, w: seq<byte>, after: seq<byte>)
    requires |v| == |w| <= 4 && v != w
    ensures Crc(before + v + after) != Crc(before + w + after)
  {
    var r := DivideAll(AllOnes(), MessageBits(before));
    DivideThree(before, v, after);
    DivideThree(before, w, after);
    if MessageBits(v) == MessageBits(w) {
      MessageBitsInjective(v, w);
    }
    BurstDetected(r, MessageBits(v), MessageBits(w), MessageBits(after));
    ComplementInjective(DivideAll(AllOnes(), MessageBits(before + v + after)),
                        DivideAll(AllOnes(), MessageBits(before + w + after)));
  }

  lemma ComplementInjective(x: Register, y: Register)
    ensures Xor(x, AllOnes()) == Xor(y, AllOnes()) ==> x == y
  {
    if Xor(x, AllOnes()) == Xor(y, AllOnes()) {
      forall i | 0 <= i < 32
        ensures x[i] == y[i]
      {
        assert Xor(x, AllOnes())[i] == Xor(y, AllOnes())[i];
      }
    }
  }

  lemma DivideThree(before: seq<byte>, v: seq<byte>, after: seq<byte>)
    ensures DivideAll(AllOnes(), MessageBits(before + v + after))
         == DivideAll(DivideAll(AllOnes(), MessageBits(before)), MessageBits(v) + MessageBits(after))
  {
    assert before + v + after == before + (v + after);
    MessageBitsAppend(before, v + after);
    MessageBitsAppend(v, after);
    DivideAppend(AllOnes(), MessageBits(before), MessageBits(v) + MessageBits(after));
  }

  // ----- the CRC-32 child's payload -----

  function ByteAt(r: Register, k: nat): byte
    requires k < 4
  {
    NumberBits(r[8 * k..8 * k + 8], 8);
    assert Pow2(8) == 256;
    Number(r[8 * k..8 * k + 8])
  }

  /** Little-endian storage of the register. */
  function LE4(r: Register): (s: seq<byte>)
    ensures |s| == 4
  {
    [ByteAt(r, 0), ByteAt(r, 1), ByteAt(r, 2), ByteAt(r, 3)]
  }
}
