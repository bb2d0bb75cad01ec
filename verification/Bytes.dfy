/** Bytes, and big-endian numbers written in them. */
module Bytes {

  type byte = x: int | 0 <= x < 256

  const TWO_TO_THE_32: int := 0x1_0000_0000
  const TWO_TO_THE_63: int := 0x8000_0000_0000_0000
  const TWO_TO_THE_64: int := 0x1_0000_0000_0000_0000

  function Pow2(n: nat): (p: nat)
    ensures p > 0
  {
    if n == 0 then 1 else 2 * Pow2(n - 1)
  }

  function Pow256(n: nat): (p: nat)
    ensures p > 0
  {
    if n == 0 then 1 else 256 * Pow256(n - 1)
  }

  /** The low `n` bytes of `v`, most significant first. */
  function BE(v: nat, n: nat): (s: seq<byte>)
    ensures |s| == n
  {
    if n == 0 then [] else BE(v / 256, n - 1) + [v % 256]
  }

  function FromBE(s: seq<byte>): nat {
    if s == [] then 0 else FromBE(s[..|s| - 1]) * 256 + s[|s| - 1]
  }

  lemma {:induction false} BEInverse(v: nat, n: nat)
    requires v < Pow256(n)
    ensures FromBE(BE(v, n)) == v
  {
    if n > 0 {
      BEInverse(v / 256, n - 1);
      assert BE(v, n)[..n - 1] == BE(v / 256, n - 1);
    }
  }

  lemma {:induction false} FromBEBound(s: seq<byte>)
    ensures FromBE(s) < Pow256(|s|)
  {
    if s != [] {
      FromBEBound(s[..|s| - 1]);
    }
  }

  lemma {:induction false} FromBEInverse(s: seq<byte>)
    ensures BE(FromBE(s), |s|) == s
  {
    if s != [] {
      FromBEInverse(s[..|s| - 1]);
      assert s == s[..|s| - 1] + [s[|s| - 1]];
    }
  }

  lemma {:induction false} FromBEAppend(s: seq<byte>, t: seq<byte>)
    ensures FromBE(s + t) == FromBE(s) * Pow256(|t|) + FromBE(t)
  {
    if t == [] {
      assert s + t == s;
    } else {
      var init := t[..|t| - 1];
      var last := t[|t| - 1];
      assert (s + t)[..|s + t| - 1] == s + init;
      FromBEAppend(s, init);
      calc {
        FromBE(s + t);
        FromBE(s + init) * 256 + last;
        (FromBE(s) * Pow256(|init|) + FromBE(init)) * 256 + last;
        { MulAssoc(FromBE(s), Pow256(|init|)); }
        FromBE(s) * Pow256(|t|) + FromBE(t);
      }
    }
  }

  /** The bits of `v` above its low `n` bytes. */
  function Shift(v: nat, n: nat): nat {
    if n == 0 then v else Shift(v / 256, n - 1)
  }

  lemma {:induction false} ShiftStep(v: nat, n: nat)
    ensures Shift(v, n + 1) == Shift(v, n) / 256
  {
    if n > 0 {
      ShiftStep(v / 256, n - 1);
    }
  }

  /** A multiple of 256^n stays above the low `n` bytes. */
  lemma {:induction false} ShiftHigh(m: nat, v: nat, n: nat, high: nat)
    requires high == m * Pow256(n) && v < high
    ensures Shift(v, n) < m
    ensures Shift(high + v, n) == m + Shift(v, n)
    ensures BE(high + v, n) == BE(v, n)
  {
    if n > 0 {
      var lower := m * Pow256(n - 1);
      MulAssoc(m, Pow256(n - 1));
      assert high == 256 * lower;
      DivMod256(lower, v);
      ShiftHigh(m, v / 256, n - 1, lower);
    }
  }

  /** `BE` gains its next higher byte in front. */
  lemma {:induction false} BEGrow(v: nat, n: nat)
    ensures BE(v, n + 1) == [Shift(v, n) % 256] + BE(v, n)
  {
    if n > 0 {
      BEGrow(v / 256, n - 1);
    }
  }

  lemma DivMod256(a: nat, v: nat)
    ensures (256 * a + v) / 256 == a + v / 256
    ensures (256 * a + v) % 256 == v % 256
  {
  }

  lemma MulAssoc(a: nat, b: nat)
    ensures a * b * 256 == a * (256 * b)
  {
  }

  lemma MulMonotone(a: int, b: int, k: nat)
    requires a <= b
    ensures a * k <= b * k
  {
  }

  lemma SmallMultiple(k: int, d: int)
    requires -d < k * d < d
    ensures k == 0
  {
    if k >= 1 {
      MulMonotone(1, k, d);
    } else if k <= -1 {
      MulMonotone(k, -1, d);
    }
  }

  lemma DivUnique(v: int, d: nat, q: int, r: int)
    requires 0 <= r < d && v == q * d + r
    ensures v / d == q && v % d == r
  {
    var q', r' := v / d, v % d;
    assert v == q' * d + r';
    assert (q - q') * d == q * d - q' * d;
    SmallMultiple(q - q', d);
  }

  /** A number in two scaled brackets puts the narrow bracket inside the wide one. */
  lemma Brackets(n: int, first: int, marker: int, p: nat)
    requires first * p <= n < (first + 1) * p
    requires marker * p <= n < 2 * (marker * p)
    ensures marker <= first < 2 * marker
  {
    if first < marker {
      MulMonotone(first + 1, marker, p);
    }
    if first >= 2 * marker {
      MulMonotone(2 * marker, first, p);
    }
  }

  /** Two big-endian strings of one length that denote one number are equal. */
  lemma FromBEInjective(s: seq<byte>, t: seq<byte>)
    requires |s| == |t| && FromBE(s) == FromBE(t)
    ensures s == t
  {
    FromBEInverse(s);
    FromBEInverse(t);
  }

  /** Truncation of an unbounded offset to the source's `u64`. */
  function U64(v: int): nat {
    v % TWO_TO_THE_64
  }

  /** The two's complement bit pattern of `v` in `n` bytes, as a natural number. */
  function TwosComplement(v: int, n: nat): nat
    requires n > 0
  {
    v % Pow256(n)
  }

  /** `s` overwritten from `at` on by `patch`, as a seek and a `write_all` do. */
  function PatchAt(s: seq<byte>, at: nat, patch: seq<byte>): (r: seq<byte>)
    requires at + |patch| <= |s|
    ensures |r| == |s|
    ensures r[at..at + |patch|] == patch
    ensures forall k :: 0 <= k < |s| && !(at <= k < at + |patch|) ==> r[k] == s[k]
  {
    s[..at] + patch + s[at + |patch|..]
  }

  function Concat(parts: seq<seq<byte>>): seq<byte> {
    if parts == [] then [] else parts[0] + Concat(parts[1..])
  }

  lemma {:induction false} ConcatAppend(a: seq<seq<byte>>, b: seq<seq<byte>>)
    ensures Concat(a + b) == Concat(a) + Concat(b)
  {
    if a == [] {
      assert a + b == b;
    } else {
      assert (a + b)[1..] == a[1..] + b;
      ConcatAppend(a[1..], b);
    }
  }

  lemma Assoc(a: seq<byte>, b: seq<byte>, c: seq<byte>)
    ensures a + b + c == a + (b + c)
  {
  }

  /** The length of a number in bits, less one. */
  function Log2(v: nat): nat
    requires v > 0
  {
    if v == 1 then 0 else 1 + Log2(v / 2)
  }

  lemma {:induction false} Log2Bounds(v: nat)
    requires v > 0
    ensures Pow2(Log2(v)) <= v < 2 * Pow2(Log2(v))
  {
    if v > 1 {
      Log2Bounds(v / 2);
    }
  }

  lemma {:induction false} Log2Is(v: nat, z: nat)
    requires Pow2(z) <= v < 2 * Pow2(z)
    ensures Log2(v) == z
  {
    if v > 1 {
      if z > 0 {
        Log2Is(v / 2, z - 1);
      }
    }
  }

  lemma {:induction false} Pow2Monotone(a: nat, b: nat)
    requires a <= b
    ensures Pow2(a) <= Pow2(b)
  {
    if a < b {
      Pow2Monotone(a, b - 1);
    }
  }

  lemma {:induction false} Pow2Add(a: nat, b: nat)
    ensures Pow2(a + b) == Pow2(a) * Pow2(b)
  {
    if a > 0 {
      Pow2Add(a - 1, b);
      Double(Pow2(a - 1), Pow2(b));
    }
  }

  lemma Double(x: int, y: int)
    ensures 2 * (x * y) == 2 * x * y
  {
  }
}
