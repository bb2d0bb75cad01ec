/** A count as an IEEE 754 binary64 number, the way an `as f64` cast rounds it. */
module Floats {
  import opened Bytes
  import opened Ebml

  const TWO_TO_THE_52: nat := 0x10_0000_0000_0000

  /** The multiple of `u` nearest to `n`, as a quotient; the even one of two that are equally near. */
  function NearestQuotient(n: nat, u: nat): nat
    requires u > 0
  {
    var q, r := n / u, n % u;
    if 2 * r < u || (2 * r == u && q % 2 == 0) then q else q + 1
  }

  /** The bit pattern of the double nearest to `n`. */
  function DoubleBits(n: nat): nat {
    if n == 0 then 0
    else
      var k := Log2(n);
      if k <= 52 then (k + 1023) * TWO_TO_THE_52 + (n * Pow2(52 - k) - TWO_TO_THE_52)
      else
        var q := NearestQuotient(n, Pow2(k - 52));
        (k + 1023) * TWO_TO_THE_52 + (q - TWO_TO_THE_52)
  }

  /** The eight bytes of the double nearest to `n`, most significant first. */
  function FloatBytes(n: nat): (s: seq<byte>)
    ensures |s| == 8
  {
    BE(DoubleBits(n), 8)
  }

  // ----- what a bit pattern denotes -----

  /** The exponent field is not all ones: neither an infinity nor a NaN. */
  predicate Finite(bits: nat) {
    bits < TWO_TO_THE_64 && bits / TWO_TO_THE_52 % 2048 < 2047
  }

  /** The number that a finite pattern denotes, in units of the smallest positive one, 2^-1074. */
  function Scaled(bits: nat): int
    requires Finite(bits)
  {
    var exponent, fraction := bits / TWO_TO_THE_52 % 2048, bits % TWO_TO_THE_52;
    var magnitude := if exponent == 0 then fraction else (TWO_TO_THE_52 + fraction) * Pow2(exponent - 1);
    if bits < TWO_TO_THE_63 then magnitude else -magnitude
  }

  /** The pattern denotes this count exactly. */
  predicate Denotes(bits: nat, n: int) {
    Finite(bits) && Scaled(bits) == n * Pow2(1074)
  }

  function Distance(a: int, b: int): nat {
    if a < b then b - a else a - b
  }

  /** No finite pattern is nearer to the count, and one that is as near denotes the same or has the odd last bit. */
  ghost predicate RoundsTo(n: nat, bits: nat) {
    Finite(bits) && forall other :: Finite(other) ==> NoNearer(Scaled(bits), bits, Scaled(other), n * Pow2(1074))
  }

  predicate NoNearer(value: int, bits: nat, other: int, exact: int) {
    && Distance(value, exact) <= Distance(other, exact)
    && (Distance(value, exact) == Distance(other, exact) ==> value == other || bits % 2 == 0)
  }

  // ----- the pieces of a pattern -----

  lemma Pow2Table()
    ensures Pow2(52) == TWO_TO_THE_52 && Pow2(53) == 2 * TWO_TO_THE_52
    ensures Pow2(63) == TWO_TO_THE_63 && Pow2(64) == TWO_TO_THE_64
  {
    assert Pow2(8) == 256;
    assert Pow2(16) == 0x1_0000;
    assert Pow2(24) == 0x100_0000;
    assert Pow2(32) == 0x1_0000_0000;
    assert Pow2(40) == 0x100_0000_0000;
    assert Pow2(48) == 0x1_0000_0000_0000;
    assert Pow2(56) == 0x100_0000_0000_0000;
  }

  lemma Pow2Next(k: nat)
    ensures Pow2(k + 1) == 2 * Pow2(k)
  {
  }

  /** The fields of a pattern below 2^63. */
  lemma Fields(exponent: nat, fraction: nat)
    requires 0 < exponent < 2047 && fraction < TWO_TO_THE_52
    ensures var bits := exponent * TWO_TO_THE_52 + fraction;
            && Finite(bits) && bits < TWO_TO_THE_63
            && Scaled(bits) == (TWO_TO_THE_52 + fraction) * Pow2(exponent - 1)
            && bits % 2 == fraction % 2
  {
    hide Pow2;
    DivUnique(exponent * TWO_TO_THE_52 + fraction, TWO_TO_THE_52, exponent, fraction);
  }

  /** A number of 53 bits at an exponent, or the next power of two. */
  lemma PatternScaled(k: nat, m: nat)
    requires k <= 63 && TWO_TO_THE_52 <= m <= 2 * TWO_TO_THE_52
    ensures var bits := (k + 1023) * TWO_TO_THE_52 + (m - TWO_TO_THE_52);
            Finite(bits) && bits < TWO_TO_THE_63 && Scaled(bits) == m * Pow2(k + 1022) && bits % 2 == m % 2
  {
    hide Pow2, Finite, Scaled;
    if m < 2 * TWO_TO_THE_52 {
      Fields(k + 1023, m - TWO_TO_THE_52);
    } else {
      Fields(k + 1024, 0);
      Pow2Next(k + 1022);
    }
  }

  /** A positive double is a multiple of a power of two, or lies below all numbers of 53 bits times it. */
  lemma Grid(bits: nat, e: nat) returns (c: int)
    requires Finite(bits)
    ensures Scaled(bits) == c * Pow2(e) || Scaled(bits) < TWO_TO_THE_52 * Pow2(e)
  {
    hide Pow2;
    c := 0;
    var exponent, fraction := bits / TWO_TO_THE_52 % 2048, bits % TWO_TO_THE_52;
    if bits >= TWO_TO_THE_63 || exponent == 0 {
      ScaledSign(bits);
      MulMonotone(1, Pow2(e), TWO_TO_THE_52);
    } else {
      var m := TWO_TO_THE_52 + fraction;
      assert Scaled(bits) == m * Pow2(exponent - 1);
      if exponent - 1 >= e {
        Pow2Add(exponent - 1 - e, e);
        Associate(m, Pow2(exponent - 1 - e), Pow2(e));
        c := m * Pow2(exponent - 1 - e);
      } else {
        Pow2Monotone(exponent, e);
        Pow2Next(exponent - 1);
        MulMonotone(m, 2 * TWO_TO_THE_52 - 1, Pow2(exponent - 1));
        Halves(Pow2(exponent - 1), Pow2(e));
      }
    }
  }

  lemma Halves(half: nat, whole: nat)
    requires 2 * half <= whole && half > 0
    ensures (2 * TWO_TO_THE_52 - 1) * half < TWO_TO_THE_52 * whole
  {
  }

  lemma Associate(a: int, b: int, c: int)
    ensures a * (b * c) == a * b * c
  {
  }

  lemma ScaledSign(bits: nat)
    requires Finite(bits)
    ensures bits >= TWO_TO_THE_63 ==> Scaled(bits) <= 0
    ensures bits < TWO_TO_THE_63 && bits / TWO_TO_THE_52 % 2048 == 0 ==> Scaled(bits) < TWO_TO_THE_52
  {
    hide Pow2;
    var exponent, fraction := bits / TWO_TO_THE_52 % 2048, bits % TWO_TO_THE_52;
    if exponent != 0 {
      MulMonotone(0, TWO_TO_THE_52 + fraction, Pow2(exponent - 1));
    }
  }

  // ----- rounding -----

  /** The nearest multiple, at any scale. */
  lemma NearestMultiple(n: nat, u: nat, s: nat, c: int)
    requires u > 0 && s > 0
    ensures var q := NearestQuotient(n, u);
            NoNearer(q * (u * s), q, c * (u * s), n * s)
  {
    hide NearestQuotient, Distance;
    var q := NearestQuotient(n, u);
    var d, far := Distance(q * u, n), Distance(c * u, n);
    HalfAway(n, u);
    FarMultiple(q, c, u, n);
    Scale(q, c, u, s, n);
    MulMonotone(d, far, s);
    if d < far {
      MulMonotone(d + 1, far, s);
    }
  }

  lemma HalfAway(n: nat, u: nat)
    requires u > 0
    ensures var q := NearestQuotient(n, u);
            2 * Distance(q * u, n) <= u && (2 * Distance(q * u, n) == u ==> q % 2 == 0)
  {
    var q, r := n / u, n % u;
    Quotient(n, u);
    if NearestQuotient(n, u) == q {
      assert Distance(q * u, n) == r;
    } else {
      OneMore(q, u);
      assert Distance((q + 1) * u, n) == u - r;
    }
  }

  lemma Quotient(n: nat, u: nat)
    requires u > 0
    ensures n == n / u * u + n % u && 0 <= n % u < u
  {
  }

  lemma OneMore(q: int, u: int)
    ensures (q + 1) * u == q * u + u
  {
  }

  lemma FarMultiple(q: int, c: int, u: nat, n: int)
    requires u > 0 && 2 * Distance(q * u, n) <= u
    ensures Distance(q * u, n) <= Distance(c * u, n)
    ensures Distance(q * u, n) == Distance(c * u, n) ==> c == q || 2 * Distance(q * u, n) == u
  {
    if c > q {
      MulMonotone(q + 1, c, u);
    } else if c < q {
      MulMonotone(c, q - 1, u);
    }
  }

  lemma Scale(q: int, c: int, u: nat, s: nat, n: int)
    requires s > 0
    ensures Distance(q * (u * s), n * s) == Distance(q * u, n) * s
    ensures Distance(c * (u * s), n * s) == Distance(c * u, n) * s
  {
    ScaleOne(q, u, s, n);
    ScaleOne(c, u, s, n);
  }

  lemma ScaleOne(q: int, u: nat, s: nat, n: int)
    requires s > 0
    ensures Distance(q * (u * s), n * s) == Distance(q * u, n) * s
  {
    Associate(q, u, s);
    if q * u < n {
      assert (n - q * u) * s == n * s - q * u * s;
      MulMonotone(q * u, n, s);
    } else {
      assert (q * u - n) * s == q * u * s - n * s;
      MulMonotone(n, q * u, s);
    }
  }

  // ----- the cast -----

  /** A count of at most 53 bits keeps all of them. */
  lemma ShortShape(n: nat)
    requires n > 0 && Log2(n) <= 52
    ensures DoubleBits(n) < TWO_TO_THE_63 && Denotes(DoubleBits(n), n)
  {
    hide Pow2, Scaled, Finite, Log2;
    var k := Log2(n);
    var p := Pow2(52 - k);
    Log2Bounds(n);
    Pow2Add(k, 52 - k);
    Pow2Table();
    MulMonotone(Pow2(k), n, p);
    MulMonotone(n, 2 * Pow2(k), p);
    Double(Pow2(k), p);
    PatternScaled(k, n * p);
    Pow2Add(52 - k, k + 1022);
    Associate(n, p, Pow2(k + 1022));
  }

  lemma QuotientRange(n: nat, u: nat)
    requires u > 0 && TWO_TO_THE_52 * u <= n < 2 * TWO_TO_THE_52 * u
    ensures TWO_TO_THE_52 <= n / u < 2 * TWO_TO_THE_52
  {
    var q := n / u;
    assert n == q * u + n % u;
    if q < TWO_TO_THE_52 {
      MulMonotone(q + 1, TWO_TO_THE_52, u);
    }
    if q >= 2 * TWO_TO_THE_52 {
      MulMonotone(2 * TWO_TO_THE_52, q, u);
    }
  }

  /** A longer one is rounded to 53 bits. */
  lemma LongShape(n: nat)
    requires n < TWO_TO_THE_64 && n > 0 && Log2(n) > 52
    ensures var k := Log2(n);
            var q := NearestQuotient(n, Pow2(k - 52));
            && k <= 63 && Pow2(k + 1022) == Pow2(k - 52) * Pow2(1074)
            && TWO_TO_THE_52 * Pow2(k - 52) <= n
            && Finite(DoubleBits(n)) && DoubleBits(n) < TWO_TO_THE_63
            && Scaled(DoubleBits(n)) == q * Pow2(k + 1022) && DoubleBits(n) % 2 == q % 2
  {
    hide Pow2, Scaled, Finite, Log2;
    var k := Log2(n);
    Log2Bounds(n);
    Pow2Table();
    if k > 63 {
      Pow2Monotone(64, k);
    }
    Pow2Add(52, k - 52);
    Pow2Add(k - 52, 1074);
    QuotientRange(n, Pow2(k - 52));
    PatternScaled(k, NearestQuotient(n, Pow2(k - 52)));
  }

  lemma ZeroShape()
    ensures DoubleBits(0) == 0 && Denotes(0, 0)
  {
    hide Pow2;
  }

  lemma ExactRounds(n: nat, bits: nat)
    requires Denotes(bits, n)
    ensures RoundsTo(n, bits)
  {
    hide Pow2, Scaled, Finite;
  }

  /** What the cast writes is the correctly rounded double: nearest, ties to even. */
  lemma FloatIsNearest(n: nat)
    requires n < TWO_TO_THE_64
    ensures RoundsTo(n, DoubleBits(n))
  {
    hide Pow2, Scaled, Finite, Log2, DoubleBits, NoNearer, NearestQuotient;
    if n == 0 {
      ZeroShape();
      ExactRounds(0, 0);
    } else if Log2(n) <= 52 {
      ShortShape(n);
      ExactRounds(n, DoubleBits(n));
    } else {
      LongShape(n);
      var bits := DoubleBits(n);
      forall other | Finite(other)
        ensures NoNearer(Scaled(bits), bits, Scaled(other), n * Pow2(1074))
      {
        LongIsNearest(n, other);
      }
    }
  }

  lemma LongIsNearest(n: nat, other: nat)
    requires 0 < n < TWO_TO_THE_64 && Log2(n) > 52 && Finite(other) && Finite(DoubleBits(n))
    ensures NoNearer(Scaled(DoubleBits(n)), DoubleBits(n), Scaled(other), n * Pow2(1074))
  {
    hide Pow2, Scaled, Finite, Log2, DoubleBits, NearestQuotient;
    LongShape(n);
    var k := Log2(n);
    var u, s := Pow2(k - 52), Pow2(1074);
    var c := Grid(other, k + 1022);
    if Scaled(other) == c * Pow2(k + 1022) {
      NearestMultiple(n, u, s, c);
    } else {
      NearestMultiple(n, u, s, TWO_TO_THE_52);
      MulMonotone(TWO_TO_THE_52 * u, n, s);
      Associate(TWO_TO_THE_52, u, s);
    }
  }

  /** The count itself is written exactly if all bits behind its first 53 are zero. */
  lemma FloatIsExact(n: nat)
    requires n < TWO_TO_THE_64
    ensures Denotes(DoubleBits(n), n) <==> n == 0 || Log2(n) <= 52 || n % Pow2(Log2(n) - 52) == 0
  {
    hide Pow2, Scaled, Finite, Log2, DoubleBits;
    if n == 0 {
      ZeroShape();
    } else if Log2(n) <= 52 {
      ShortShape(n);
    } else {
      LongShape(n);
      var u, s := Pow2(Log2(n) - 52), Pow2(1074);
      var q := NearestQuotient(n, u);
      Associate(q, u, s);
      assert n == n / u * u + n % u;
      ExactQuotient(q, u, s, n);
    }
  }

  lemma ExactQuotient(q: nat, u: nat, s: nat, n: nat)
    requires u > 0 && s > 0 && q == NearestQuotient(n, u)
    ensures q * u * s == n * s <==> n % u == 0
  {
    assert n == n / u * u + n % u;
    if q * u < n {
      MulMonotone(q * u + 1, n, s);
    } else if q * u > n {
      MulMonotone(n + 1, q * u, s);
    }
    if q == n / u + 1 {
      assert q * u == n / u * u + u;
    }
  }

  /** Every count below 2^53, that is every duration below 285 thousand years, is written exactly. */
  lemma ShortIsExact(n: nat)
    requires n < 2 * TWO_TO_THE_52
    ensures Denotes(DoubleBits(n), n)
  {
    hide Pow2, Scaled, Finite, DoubleBits;
    if n == 0 {
      ZeroShape();
    } else {
      Log2Bounds(n);
      Pow2Table();
      if Log2(n) > 52 {
        Pow2Monotone(53, Log2(n));
      }
      ShortShape(n);
    }
  }

  /** The bytes give the pattern back. */
  lemma FloatBytesRead(n: nat)
    requires n < TWO_TO_THE_64
    ensures FromBE(FloatBytes(n)) == DoubleBits(n)
  {
    hide DoubleBits, Pow2;
    FloatIsNearest(n);
    PowerTables();
    BEInverse(DoubleBits(n), 8);
  }
}
