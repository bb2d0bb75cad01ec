/** Filler elements of an exact size (section 11.3.2 of RFC 8794). */
module Voids {
  import opened Wrappers
  import opened Bytes
  import opened Ebml
  import opened Ids
  import opened Elements

  /** All zeros. */
  function Zeroes(n: nat): (s: seq<byte>)
    ensures |s| == n && forall i :: 0 <= i < n ==> s[i] == 0
  {
    seq(n, _ => 0)
  }

  /** Sizes that `make_void` builds without a panic in `write_vint`. */
  predicate VoidSize(total: nat) {
    2 <= total < SIZE_LIMIT + 2
  }

  /** The first width from `w` on whose VINT is no wider than asked. */
  function VoidWidth(total: nat, w: nat): (r: nat)
    requires VoidSize(total) && 1 <= w <= 8
    requires w == 1 || total >= Pow128(w - 1) + w - 1
    ensures w <= r <= 8 && 1 + r <= total
    ensures total - 1 - r < Pow128(r) - 1
    decreases 8 - w
  {
    PowerTables();
    if total - 1 - w < Pow128(w) - 1 then w else VoidWidth(total, w + 1)
  }

  function Void(total: nat): Elem
    requires VoidSize(total)
  {
    var w := VoidWidth(total, 1);
    Leaf(VOID, w, Zeroes(total - 1 - w))
  }

  /** A filler has exactly the size asked for, and reads back as one Void with nothing behind it. */
  lemma VoidFillsExactly(total: nat, tail: seq<byte>)
    requires VoidSize(total)
    ensures |Ser(Void(total))| == total
    ensures Fits(Void(total))
    ensures var w := VoidWidth(total, 1);
            DecodeHeader(Ser(Void(total)) + tail) == Success(Header(VOID, total - 1 - w, 1 + w))
  {
    hide Vint, IdBytes, DecodeHeader, Pow128;
    var w := VoidWidth(total, 1);
    WidthAsAsked(total - 1 - w, w);
    var e := Void(total);
    VoidId();
    HeaderRoundTrip(VOID, |e.body|, w, e.body + tail);
    assert Ser(e) + tail == IdBytes(VOID) + Vint(|e.body|, w) + (e.body + tail);
  }

  lemma VoidId()
    ensures IdLength(VOID) == 1 && |IdBytes(VOID)| == 1 && ValidId(VOID)
  {
  }

  lemma WidthAsAsked(v: nat, w: nat)
    requires 1 <= w <= 8 && v < Pow128(w) - 1
    ensures v < SIZE_LIMIT && VintWidth(v, w) == w && |Vint(v, w)| == w
  {
    PowerTables();
  }

  method MakeVoid(total: nat) returns (out: seq<byte>)
    requires VoidSize(total)
    ensures out == Ser(Void(total)) && |out| == total
  {
    hide Vint, IdBytes, DecodeHeader;
    VoidFillsExactly(total, []);
    for w := 1 to 9
      invariant w > 1 ==> total >= Pow128(w - 1) + w - 1
      invariant w <= 8 ==> VoidWidth(total, w) == VoidWidth(total, 1)
    {
      PowerTables();
      if total < 1 + w {
        assert false;
      }
      var payload := total - 1 - w;
      var vint := WriteVint(payload, w);
      if |vint| == w {
        OnlyThatWidth(payload, w);
        OneByteHeader(VOID, 0);
        out := [VOID] + vint + Zeroes(payload);
        return;
      }
      NotThatWidth(payload, w);
    }
    PowerTables();
    assert false;
  }

  lemma OnlyThatWidth(v: nat, w: nat)
    requires 1 <= w <= 8 && v < SIZE_LIMIT && |Vint(v, w)| == w
    ensures v < Pow128(w) - 1
  {
  }

  lemma NotThatWidth(v: nat, w: nat)
    requires 1 <= w <= 8 && v < SIZE_LIMIT && |Vint(v, w)| != w
    ensures v >= Pow128(w) - 1
  {
    if v < Pow128(w) - 1 {
      WidthAsAsked(v, w);
    }
  }

  /** The two fillers written out by hand: 21 bytes for a Seek entry, 11 for a Duration. */
  lemma HandWrittenVoids()
    ensures Ser(Void(21)) == [0xEC, 0x93] + Zeroes(19)
    ensures Ser(Void(11)) == [0xEC, 0x89] + Zeroes(9)
  {
    PowerTables();
    OneByteHeader(VOID, 19);
    OneByteHeader(VOID, 9);
    OneByteWidth(19);
    OneByteWidth(9);
    hide Vint, IdBytes;
  }

  lemma OneByteWidth(v: nat)
    requires v < 127
    ensures Vint(v, 1) == Vint(v, 0)
  {
  }
}
