/** Parameter sets as bits: emulation prevention, fixed-length fields and Exp-Golomb codes. */
module BitReaders {
  import opened Wrappers
  import opened Bytes
  import Avc
  import Crc32

  // ----- emulation prevention -----

  /** The bytes without each 3 that follows two zeros; `zeros` counts the zeros just before. */
  function Unescaped(s: seq<byte>, zeros: nat): seq<byte> {
    if s == [] then []
    else if zeros >= 2 && s[0] == 3 then Unescaped(s[1..], 0)
    else [s[0]] + Unescaped(s[1..], if s[0] == 0 then zeros + 1 else 0)
  }

  method Unescape(ebsp: seq<byte>) returns (out: seq<byte>)
    ensures out == Unescaped(ebsp, 0)
  {
    hide Unescaped;
    out := [];
    var zeros := 0;
    AtTheEnds(ebsp);
    for i := 0 to |ebsp|
      invariant zeros >= 0 && out + Unescaped(ebsp[i..], zeros) == Unescaped(ebsp, 0)
    {
      var b := ebsp[i];
      UnescapedStep(ebsp, i, zeros, out);
      if zeros >= 2 && b == 3 {
        zeros := 0;
        continue;
      }
      zeros := if b == 0 then zeros + 1 else 0;
      out := out + [b];
    }
    AllUnescaped(ebsp, zeros, out);
  }

  lemma AtTheEnds(s: seq<byte>)
    ensures s[0..] == s && [] + Unescaped(s, 0) == Unescaped(s, 0)
  {
  }

  lemma AllUnescaped(s: seq<byte>, zeros: nat, out: seq<byte>)
    ensures out + Unescaped(s[|s|..], zeros) == out
  {
  }

  lemma UnescapedStep(s: seq<byte>, i: nat, zeros: nat, out: seq<byte>)
    requires i < |s|
    ensures out + Unescaped(s[i..], zeros)
         == if zeros >= 2 && s[i] == 3 then out + Unescaped(s[i + 1..], 0)
            else out + [s[i]] + Unescaped(s[i + 1..], if s[i] == 0 then zeros + 1 else 0)
  {
    assert s[i..][1..] == s[i + 1..];
  }

  /** Section 7.4.1 of ITU-T H.264: a 3 goes before every byte up to 3 that follows two zeros. */
  function Escaped(s: seq<byte>, zeros: nat): seq<byte> {
    if s == [] then []
    else if zeros >= 2 && s[0] <= 3 then [3, s[0]] + Escaped(s[1..], if s[0] == 0 then 1 else 0)
    else [s[0]] + Escaped(s[1..], if s[0] == 0 then zeros + 1 else 0)
  }

  lemma {:induction false} UnescapeInvertsEscape(s: seq<byte>, zeros: nat)
    ensures Unescaped(Escaped(s, zeros), zeros) == s
  {
    if s != [] {
      var e := Escaped(s, zeros);
      if zeros >= 2 && s[0] <= 3 {
        var next := if s[0] == 0 then 1 else 0;
        UnescapeInvertsEscape(s[1..], next);
        assert e[1..] == [s[0]] + Escaped(s[1..], next);
        assert e[1..][1..] == Escaped(s[1..], next);
      } else {
        UnescapeInvertsEscape(s[1..], if s[0] == 0 then zeros + 1 else 0);
        assert e[1..] == Escaped(s[1..], if s[0] == 0 then zeros + 1 else 0);
      }
    }
  }

  /** What an encoder escapes holds no start code, even behind the zeros that came before. */
  lemma {:induction false} EscapedHasNoCode(s: seq<byte>, zeros: nat)
    ensures forall j: nat :: !Avc.CodeAt(Escaped(s, zeros), j)
    ensures zeros >= 1 ==> !(|Escaped(s, zeros)| >= 2 && Escaped(s, zeros)[0] == 0 && Escaped(s, zeros)[1] == 1)
    ensures zeros >= 2 ==> !(|Escaped(s, zeros)| >= 1 && Escaped(s, zeros)[0] <= 2)
  {
    if s != [] {
      var e := Escaped(s, zeros);
      var next := if zeros >= 2 && s[0] <= 3 then if s[0] == 0 then 1 else 0 else if s[0] == 0 then zeros + 1 else 0;
      var head := if zeros >= 2 && s[0] <= 3 then [3, s[0]] else [s[0]];
      var rest := Escaped(s[1..], next);
      EscapedHasNoCode(s[1..], next);
      assert e == head + rest;
      forall j: nat
        ensures !Avc.CodeAt(e, j)
      {
        if j >= |head| {
          assert !Avc.CodeAt(rest, j - |head|);
        }
      }
    }
  }

  predicate EscapeAt(s: seq<byte>, i: nat) {
    i + 2 < |s| && s[i] == 0 && s[i + 1] == 0 && s[i + 2] == 3
  }

  /** Unescaping changes a string exactly if a 3 follows two zeros somewhere. */
  lemma UnescapeIsIdentity(s: seq<byte>)
    ensures Unescaped(s, 0) == s <==> forall i: nat :: !EscapeAt(s, i)
  {
    NoEscapeAhead(s, 0, s, 0);
    assert s[0..] == s;
  }

  /** The same from position `k` on, with the zeros before it counted. */
  lemma {:induction false} NoEscapeAhead(s: seq<byte>, k: nat, rest: seq<byte>, zeros: nat)
    requires k <= |s| && rest == s[k..] && zeros <= k
    requires forall i :: k - zeros <= i < k ==> s[i] == 0
    requires zeros < k ==> s[k - zeros - 1] != 0
    requires forall i: nat :: i + 2 < k ==> !EscapeAt(s, i)
    ensures |Unescaped(rest, zeros)| <= |rest|
    ensures Unescaped(rest, zeros) == rest <==> forall i: nat :: !EscapeAt(s, i)
    decreases |rest|
  {
    if rest != [] {
      var next := if rest[0] == 0 then zeros + 1 else 0;
      if zeros >= 2 && rest[0] == 3 {
        assert EscapeAt(s, k - 2);
        UnescapedIsShorter(rest[1..], 0);
      } else {
        assert k >= 2 ==> !EscapeAt(s, k - 2);
        NoEscapeAhead(s, k + 1, rest[1..], next);
        assert rest == [rest[0]] + rest[1..];
      }
    }
  }

  lemma {:induction false} UnescapedIsShorter(s: seq<byte>, zeros: nat)
    ensures |Unescaped(s, zeros)| <= |s|
  {
    if s != [] {
      UnescapedIsShorter(s[1..], if zeros >= 2 && s[0] == 3 then 0 else if s[0] == 0 then zeros + 1 else 0);
    }
  }

  // ----- bits -----

  /** Bit `i` of the bytes, the most significant one of each byte first. */
  function BitOf(data: seq<byte>, i: nat): bool
    requires i < 8 * |data|
  {
    data[i / 8] / Pow2(7 - i % 8) % 2 == 1
  }

  function BitsOf(data: seq<byte>): (bits: seq<bool>)
    ensures |bits| == 8 * |data| && forall i :: 0 <= i < |bits| ==> bits[i] == BitOf(data, i)
  {
    seq(8 * |data|, i requires 0 <= i < 8 * |data| => BitOf(data, i))
  }

  /** Bits as a number, most significant first. */
  function Value(bits: seq<bool>): nat {
    if bits == [] then 0 else 2 * Value(bits[..|bits| - 1]) + if bits[|bits| - 1] then 1 else 0
  }

  /** The low `n` bits of a number. */
  function ToBits(v: nat, n: nat): (bits: seq<bool>)
    ensures |bits| == n
  {
    if n == 0 then [] else ToBits(v / 2, n - 1) + [v % 2 == 1]
  }

  lemma {:induction false} ValueOfBits(v: nat, n: nat)
    requires v < Pow2(n)
    ensures Value(ToBits(v, n)) == v
  {
    if n > 0 {
      ValueOfBits(v / 2, n - 1);
      assert ToBits(v, n)[..n - 1] == ToBits(v / 2, n - 1);
    }
  }

  lemma {:induction false} BitsOfValue(bits: seq<bool>)
    ensures Value(bits) < Pow2(|bits|) && ToBits(Value(bits), |bits|) == bits
  {
    if bits != [] {
      BitsOfValue(bits[..|bits| - 1]);
      assert bits == bits[..|bits| - 1] + [bits[|bits| - 1]];
    }
  }

  lemma ValueSnoc(bits: seq<bool>, b: bool)
    ensures Value(bits + [b]) == 2 * Value(bits) + if b then 1 else 0
  {
    assert (bits + [b])[..|bits|] == bits;
  }

  lemma {:induction false} ValueCons(b: bool, bits: seq<bool>)
    ensures Value([b] + bits) == (if b then Pow2(|bits|) else 0) + Value(bits)
  {
    if bits == [] {
      assert [b] + bits == [b];
      assert [b][..0] == [];
    } else {
      var init := bits[..|bits| - 1];
      ValueCons(b, init);
      assert ([b] + bits)[..|bits|] == [b] + init;
    }
  }

  // ----- Exp-Golomb -----

  function LeadingZeros(bits: seq<bool>): (z: nat)
    ensures z <= |bits| && (forall i :: 0 <= i < z ==> !bits[i]) && (z < |bits| ==> bits[z])
  {
    if bits == [] || bits[0] then 0 else 1 + LeadingZeros(bits[1..])
  }

  /** `ue(v)` with at most 31 leading zeros: the value and the number of bits it takes. */
  function ReadUe(bits: seq<bool>): Option<(nat, nat)> {
    var z := LeadingZeros(bits);
    if z > 31 || |bits| < 2 * z + 1 then None
    else Some((Pow2(z) - 1 + Value(bits[z + 1..2 * z + 1]), 2 * z + 1))
  }

  /** Section 9.1 of ITU-T H.264: `v + 1` in binary, behind as many zeros as it has bits after the first. */
  function UeBits(v: nat): seq<bool> {
    Crc32.Zeros(Log2(v + 1)) + ToBits(v + 1, Log2(v + 1) + 1)
  }

  lemma {:induction false} LeadingZerosAre(n: nat, rest: seq<bool>)
    requires rest != [] && rest[0]
    ensures LeadingZeros(Crc32.Zeros(n) + rest) == n
  {
    var s := Crc32.Zeros(n) + rest;
    assert s[n] && forall i :: 0 <= i < n ==> !s[i];
  }

  /** A number's bits start with a one. */
  lemma {:induction false} TopBit(v: nat, z: nat)
    requires Pow2(z) <= v < 2 * Pow2(z)
    ensures ToBits(v, z + 1)[0] && Value(ToBits(v, z + 1)[1..]) == v - Pow2(z)
  {
    ValueOfBits(v, z + 1);
    var bits := ToBits(v, z + 1);
    assert bits == [bits[0]] + bits[1..];
    ValueCons(bits[0], bits[1..]);
    BitsOfValue(bits[1..]);
  }

  lemma Pow2At32()
    ensures Pow2(31) == 0x8000_0000 && Pow2(32) == TWO_TO_THE_32
  {
    assert Pow2(8) == 256;
    assert Pow2(16) == 0x1_0000;
    assert Pow2(24) == 0x100_0000;
  }

  /** A number below 2^32 has at most 31 bits after its first. */
  lemma ShortLog(v: nat)
    requires 0 < v < TWO_TO_THE_32
    ensures Log2(v) <= 31
  {
    Log2Bounds(v);
    Pow2At32();
    if Log2(v) > 31 {
      Pow2Monotone(32, Log2(v));
    }
  }

  lemma LogOfSum(z: nat, x: nat)
    requires x < Pow2(z) && z <= 31
    ensures Log2(Pow2(z) + x) == z && Pow2(z) + x < TWO_TO_THE_32
  {
    Log2Is(Pow2(z) + x, z);
    Pow2At32();
    Pow2Monotone(z, 31);
  }

  /** Every value below 2^32 - 1 is read from its code, whatever follows. */
  lemma UeRoundTrip(v: nat, rest: seq<bool>)
    requires v < TWO_TO_THE_32 - 1
    ensures ReadUe(UeBits(v) + rest) == Some((v, |UeBits(v)|))
  {
    hide Pow2, Log2, Value, Crc32.Zeros, ToBits, LeadingZeros;
    var z := Log2(v + 1);
    Log2Bounds(v + 1);
    ShortLog(v + 1);
    TopBit(v + 1, z);
    var code := ToBits(v + 1, z + 1);
    CodeThenRest(Crc32.Zeros(z), code, rest);
    LeadingZerosAre(z, code + rest);
  }

  lemma CodeThenRest(a: seq<bool>, code: seq<bool>, rest: seq<bool>)
    requires |code| == |a| + 1
    ensures (a + code) + rest == a + (code + rest) && (code + rest)[0] == code[0]
    ensures ((a + code) + rest)[|a| + 1..2 * |a| + 1] == code[1..]
  {
  }

  /** A code, taken apart. */
  lemma CodeParts(bits: seq<bool>, z: nat)
    requires 2 * z + 1 <= |bits| && bits[z] && forall i :: 0 <= i < z ==> !bits[i]
    ensures bits[..2 * z + 1] == Crc32.Zeros(z) + ([true] + bits[z + 1..2 * z + 1])
  {
  }

  lemma UeBound(z: nat, tail: seq<bool>)
    requires |tail| == z <= 31
    ensures Log2(Pow2(z) + Value(tail)) == z && Pow2(z) + Value(tail) < TWO_TO_THE_32
  {
    hide Pow2, Log2, Value, ToBits;
    BitsOfValue(tail);
    LogOfSum(z, Value(tail));
  }

  lemma UeCode(z: nat, tail: seq<bool>)
    requires |tail| == z
    ensures ToBits(Pow2(z) + Value(tail), z + 1) == [true] + tail
  {
    hide Pow2, Value, ToBits;
    ValueCons(true, tail);
    BitsOfValue([true] + tail);
  }

  lemma UeValue(z: nat, tail: seq<bool>)
    requires |tail| == z <= 31
    ensures var v := Pow2(z) - 1 + Value(tail);
            v < TWO_TO_THE_32 - 1 && UeBits(v) == Crc32.Zeros(z) + ([true] + tail)
  {
    hide Pow2, Log2, Value, ToBits, Crc32.Zeros;
    UeBound(z, tail);
    UeCode(z, tail);
  }

  /** And only from it: what was read is the code of its value. */
  lemma UeIsUnique(bits: seq<bool>)
    requires ReadUe(bits).Some?
    ensures var (v, n) := ReadUe(bits).value;
            v < TWO_TO_THE_32 - 1 && n <= |bits| && bits[..n] == UeBits(v)
  {
    hide Pow2, Value, UeBits, Crc32.Zeros;
    var z := LeadingZeros(bits);
    CodeParts(bits, z);
    UeValue(z, bits[z + 1..2 * z + 1]);
  }

  /** `se(v)`: 0, 1, -1, 2, -2 and so on. */
  function SeOf(k: nat): int {
    if k % 2 == 1 then (k + 1) / 2 else -(k / 2)
  }

  function SeIndex(v: int): nat {
    if v > 0 then 2 * v - 1 else -2 * v
  }

  lemma SeIsABijection(k: nat, v: int)
    ensures SeOf(k) == v <==> k == SeIndex(v)
  {
  }

  // ----- the reader -----

  lemma ModStep(x: nat, b: nat)
    requires b <= 1
    ensures x % TWO_TO_THE_32 * 2 % TWO_TO_THE_32 + b == (2 * x + b) % TWO_TO_THE_32
  {
    var q, r := x / TWO_TO_THE_32, x % TWO_TO_THE_32;
    var over := if 2 * r < TWO_TO_THE_32 then 0 else 1;
    DivUnique(2 * r, TWO_TO_THE_32, over, 2 * r - over * TWO_TO_THE_32);
    DivUnique(2 * x + b, TWO_TO_THE_32, 2 * q + over, 2 * r - over * TWO_TO_THE_32 + b);
  }

  /** One more bit behind a run of them. */
  lemma NextBit(bits: seq<bool>, from: nat, to: nat)
    requires from <= to < |bits|
    ensures Value(bits[from..to + 1]) == 2 * Value(bits[from..to]) + if bits[to] then 1 else 0
  {
    ValueSnoc(bits[from..to], bits[to]);
    assert bits[from..to + 1] == bits[from..to] + [bits[to]];
  }

  lemma NoBits(bits: seq<bool>, at: nat)
    requires at <= |bits|
    ensures Value(bits[at..at]) == 0
  {
  }

  lemma ZerosGoOn(bits: seq<bool>, z: nat)
    requires z < |bits| && LeadingZeros(bits) >= z && !bits[z]
    ensures LeadingZeros(bits) >= z + 1
  {
  }

  lemma OneEndsZeros(bits: seq<bool>, z: nat)
    requires z < |bits| && LeadingZeros(bits) >= z && bits[z]
    ensures LeadingZeros(bits) == z
  {
  }

  /** A complete code. */
  lemma UeReads(bits: seq<bool>, z: nat)
    requires LeadingZeros(bits) == z <= 31 && 2 * z + 1 <= |bits|
    ensures ReadUe(bits) == Some((Pow2(z) - 1 + Value(bits[z + 1..2 * z + 1]), 2 * z + 1))
    ensures Pow2(z) - 1 + Value(bits[z + 1..2 * z + 1]) < TWO_TO_THE_32 - 1
  {
    hide Pow2, Value, UeBits;
    UeIsUnique(bits);
  }

  lemma AheadSlice(bits: seq<bool>, at: nat, from: nat, to: nat)
    requires from <= to && at + to <= |bits|
    ensures bits[at..][from..to] == bits[at + from..at + to]
  {
  }

  lemma UeFails(bits: seq<bool>)
    requires LeadingZeros(bits) > 31 || |bits| < 2 * LeadingZeros(bits) + 1
    ensures ReadUe(bits) == None
  {
  }

  class BitReader {
    const data: seq<byte>
    var pos: nat

    ghost predicate Valid()
      reads this
    {
      pos <= 8 * |data|
    }

    constructor (data: seq<byte>)
      ensures Valid() && this.data == data && pos == 0
    {
      this.data := data;
      pos := 0;
    }

    method Bit() returns (r: Option<bool>)
      requires Valid()
      modifies this
      ensures Valid()
      ensures match r
              case None => pos == old(pos) == 8 * |data|
              case Some(b) => pos == old(pos) + 1 && b == BitsOf(data)[old(pos)]
    {
      if pos / 8 >= |data| {
        return None;
      }
      var b := data[pos / 8] / Pow2(7 - pos % 8) % 2;
      assert (b == 1) == BitOf(data, pos);
      pos := pos + 1;
      return Some(b == 1);
    }

    /** An unsigned field; of more than 32 bits the last 32 are left. */
    method Bits(n: nat) returns (r: Option<nat>)
      requires Valid()
      modifies this
      ensures Valid()
      ensures match r
              case None => old(pos) + n > 8 * |data| && pos == 8 * |data|
              case Some(v) => pos == old(pos) + n && v == Value(BitsOf(data)[old(pos)..pos]) % TWO_TO_THE_32
    {
      hide BitsOf, Value;
      ghost var all, start := BitsOf(data), pos;
      NoBits(all, start);
      var v := 0;
      for i := 0 to n
        invariant Valid() && pos == start + i
        invariant v == Value(all[start..pos]) % TWO_TO_THE_32
      {
        var b := Bit();
        if b.None? {
          return None;
        }
        NextBit(all, start, pos - 1);
        ModStep(Value(all[start..pos - 1]), if b.value then 1 else 0);
        v := v * 2 % TWO_TO_THE_32 + if b.value then 1 else 0;
      }
      return Some(v);
    }

    method Skip(n: nat) returns (ok: bool)
      requires Valid()
      modifies this
      ensures Valid()
      ensures ok == (old(pos) + n <= 8 * |data|)
      ensures pos == if ok then old(pos) + n else old(pos)
    {
      var end := pos + n;
      if end > |data| * 8 {
        return false;
      }
      pos := end;
      return true;
    }

    /** The code's zeros and its one; `None` where the data end first or the zeros are too many. */
    method Zeros() returns (r: Option<nat>)
      requires Valid()
      modifies this
      ensures Valid()
      ensures var z := LeadingZeros(BitsOf(data)[old(pos)..]);
              match r
              case None => z > 31 || old(pos) + z == 8 * |data|
              case Some(zeros) => zeros == z <= 31 && pos == old(pos) + z + 1
      ensures old(pos) <= pos
    {
      hide BitsOf, LeadingZeros;
      ghost var ahead, start := BitsOf(data)[pos..], pos;
      var zeros := 0;
      while true
        invariant Valid() && pos == start + zeros && 0 <= zeros <= 31
        invariant LeadingZeros(ahead) >= zeros
        decreases 32 - zeros
      {
        var b := Bit();
        if b.None? {
          return None;
        }
        assert b.value == ahead[zeros];
        if b.value {
          OneEndsZeros(ahead, zeros);
          return Some(zeros);
        }
        ZerosGoOn(ahead, zeros);
        zeros := zeros + 1;
        if zeros > 31 {
          return None;
        }
      }
    }

    /** The `z` bits behind the one; they are at most 31, so nothing is cut off. */
    method Suffix(z: nat) returns (r: Option<nat>)
      requires Valid()
      modifies this
      ensures Valid() && old(pos) <= pos
      ensures match r
              case None => old(pos) + z > 8 * |data|
              case Some(v) => pos == old(pos) + z && v == Value(BitsOf(data)[old(pos)..pos])
    {
      hide BitsOf, Value;
      ghost var all, start := BitsOf(data), pos;
      NoBits(all, start);
      var v := 0;
      for i := 0 to z
        invariant Valid() && pos == start + i
        invariant v == Value(all[start..pos])
      {
        var b := Bit();
        if b.None? {
          return None;
        }
        NextBit(all, start, pos - 1);
        v := v * 2 + if b.value then 1 else 0;
      }
      return Some(v);
    }

    /** A code's zeros, its one, and as many bits again. */
    method Ue() returns (r: Option<nat>)
      requires Valid()
      modifies this
      ensures Valid() && old(pos) <= pos
      ensures match r
              case None => ReadUe(BitsOf(data)[old(pos)..]) == None
              case Some(v) => ReadUe(BitsOf(data)[old(pos)..]) == Some((v, pos - old(pos))) && v < TWO_TO_THE_32 - 1
    {
      hide BitsOf, LeadingZeros, Value, Pow2, ReadUe;
      ghost var all, start := BitsOf(data), pos;
      var zeros := Zeros();
      if zeros.None? {
        UeFails(all[start..]);
        return None;
      }
      var z := zeros.value;
      var v := Suffix(z);
      if v.None? {
        UeFails(all[start..]);
        return None;
      }
      AheadSlice(all, start, z + 1, 2 * z + 1);
      UeReads(all[start..], z);
      return Some(Pow2(z) - 1 + v.value);
    }

    method Se() returns (r: Option<int>)
      requires Valid()
      modifies this
      ensures Valid() && old(pos) <= pos
      ensures match r
              case None => ReadUe(BitsOf(data)[old(pos)..]) == None
              case Some(v) =>
                ReadUe(BitsOf(data)[old(pos)..]) == Some((SeIndex(v), pos - old(pos))) && -0x8000_0000 < v < 0x8000_0000
    {
      hide BitsOf, ReadUe;
      var k := Ue();
      if k.None? {
        return None;
      }
      var index: int := k.value;
      var v := if index % 2 == 1 then (index + 1) / 2 else -(index / 2);
      SeIsABijection(k.value, v);
      return Some(v);
    }
  }

  /** Every number that `se(v)` can state is read from its code, and nothing else is. */
  lemma SeRoundTrip(v: int, rest: seq<bool>)
    requires -0x8000_0000 < v < 0x8000_0000
    ensures ReadUe(UeBits(SeIndex(v)) + rest) == Some((SeIndex(v), |UeBits(SeIndex(v))|)) && SeOf(SeIndex(v)) == v
  {
    UeRoundTrip(SeIndex(v), rest);
    SeIsABijection(SeIndex(v), v);
  }
}
