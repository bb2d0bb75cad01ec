/**
 * Blocks and lacing. The encoders are those of src/mux.rs; the decoders are those of
 * section 10.3 of RFC 9559.
 */
module Lacing {
  import opened Wrappers
  import opened Bytes
  import opened Ebml
  import opened Ids
  import opened Elements

  datatype LacingMode = NoLacing | Xiph | FixedSize | EbmlSizes

  function FlagBits(mode: LacingMode): nat {
    match mode
    case NoLacing => 0
    case Xiph => 1
    case FixedSize => 2
    case EbmlSizes => 3
  }

  function ModeOf(bits: nat): LacingMode
    requires bits < 4
  {
    if bits == 0 then NoLacing else if bits == 1 then Xiph else if bits == 2 then FixedSize else EbmlSizes
  }

  /** The sizes that a lace spells out: every frame's but the last one's. */
  function StatedSizes(frames: seq<seq<byte>>): seq<nat> {
    if |frames| <= 1 then [] else [|frames[0]|] + StatedSizes(frames[1..])
  }

  predicate EqualSizes(frames: seq<seq<byte>>) {
    forall i, j :: 0 <= i < j < |frames| ==> |frames[i]| == |frames[j]|
  }

  // ----- signed VINTs (section 10.3.3 of RFC 9559) -----

  /** 2^(7w-1) - 1, which maps the signed range of a width onto its payloads. */
  function Bias(w: nat): nat
    requires 1 <= w <= 8
  {
    Pow128(w) / 2 - 1
  }

  predicate FitsSigned(v: int, w: nat)
    requires 1 <= w <= 8
  {
    -(Pow128(w) / 2 - 1) <= v <= Pow128(w) / 2
  }

  function SignedWidthFrom(v: int, w: nat): (r: nat)
    requires 1 <= w <= 8 && FitsSigned(v, 8)
    ensures w <= r <= 8 && FitsSigned(v, r)
    ensures forall k :: w <= k < r ==> !FitsSigned(v, k)
    decreases 8 - w
  {
    if w == 8 || FitsSigned(v, w) then w else SignedWidthFrom(v, w + 1)
  }

  /** A signed VINT; empty where the source panics. */
  function SignedVint(v: int): seq<byte> {
    if !FitsSigned(v, 8) then []
    else
      var w := SignedWidthFrom(v, 1);
      EvenPowers(w);
      VintBytes(v + Bias(w), w)
  }

  lemma EvenPowers(w: nat)
    requires 1 <= w <= 8
    ensures Pow128(w) % 2 == 0 && Pow128(w) >= 128
  {
    PowerTables();
  }

  /** A VINT without the unknown-size reading: the payload and the width. */
  function RawVint(s: seq<byte>): Result<(nat, nat)> {
    var (raw, w) :- DecodeVint(s, true);
    MarkerBrackets(s[..w], w);
    Success((raw - Pow128(w), w))
  }

  function DecodeSigned(s: seq<byte>): Result<(int, nat)> {
    var (payload, w) :- RawVint(s);
    assert 1 <= w <= 8 by { WidthInRange(s); }
    Success((payload - Bias(w), w))
  }

  lemma WidthInRange(s: seq<byte>)
    requires DecodeVint(s, true).Success?
    ensures 1 <= DecodeVint(s, true).value.1 <= 8 && DecodeVint(s, true).value.1 <= |s|
  {
  }

  /**
   * A signed VINT decodes to its value, in the smallest width that can hold it. Read as a size
   * it is taken for the unknown size exactly when the value is some 2^(7n-1).
   */
  lemma SignedRoundTrip(v: int, tail: seq<byte>)
    requires FitsSigned(v, 8)
    ensures DecodeSigned(SignedVint(v) + tail) == Success((v, SignedWidthFrom(v, 1)))
    ensures forall s :: DecodeSigned(s).Success? && DecodeSigned(s).value.0 == v ==>
                          SignedWidthFrom(v, 1) <= DecodeSigned(s).value.1
    ensures DecodeVint(SignedVint(v) + tail, false) == Success((UNKNOWN_SIZE, SignedWidthFrom(v, 1)))
            <==> exists n :: 1 <= n <= 8 && v == Pow128(n) / 2
  {
    SignedReads(v, tail);
    SignedTops(v);
    hide DecodeVint, DecodeSigned, VintBytes, SignedWidthFrom, FitsSigned, Pow128;
    forall s | DecodeSigned(s).Success? && DecodeSigned(s).value.0 == v
      ensures SignedWidthFrom(v, 1) <= DecodeSigned(s).value.1
    {
      SignedFits(s);
    }
  }

  lemma SignedReads(v: int, tail: seq<byte>)
    requires FitsSigned(v, 8)
    ensures var w := SignedWidthFrom(v, 1);
            && DecodeSigned(SignedVint(v) + tail) == Success((v, w))
            && (DecodeVint(SignedVint(v) + tail, false) == Success((UNKNOWN_SIZE, w)) <==> v == Pow128(w) / 2)
  {
    hide DecodeVint, VintBytes, SignedWidthFrom;
    var w := SignedWidthFrom(v, 1);
    EvenPowers(w);
    VintBytesDecode(v + Bias(w), w, tail, true);
    VintBytesDecode(v + Bias(w), w, tail, false);
    PowerTables();
    assert RawVint(SignedVint(v) + tail) == Success((v + Bias(w), w));
  }

  lemma SignedTops(v: int)
    requires FitsSigned(v, 8)
    ensures v == Pow128(SignedWidthFrom(v, 1)) / 2 <==> exists n :: 1 <= n <= 8 && v == Pow128(n) / 2
  {
    hide SignedWidthFrom, Pow128, FitsSigned;
    if n :| 1 <= n <= 8 && v == Pow128(n) / 2 {
      OnlyTopOfItsWidth(v, n);
    }
  }

  lemma SignedFits(s: seq<byte>)
    requires DecodeSigned(s).Success?
    ensures 1 <= DecodeSigned(s).value.1 <= 8
    ensures FitsSigned(DecodeSigned(s).value.0, DecodeSigned(s).value.1)
  {
    WidthInRange(s);
    var w := DecodeVint(s, true).value.1;
    MarkerBrackets(s[..w], w);
    EvenPowers(w);
  }

  lemma OnlyTopOfItsWidth(v: int, n: nat)
    requires 1 <= n <= 8 && v == Pow128(n) / 2
    ensures FitsSigned(v, 8) && SignedWidthFrom(v, 1) == n
  {
    PowerTables();
    assert FitsSigned(v, n);
    if n > 1 {
      assert !FitsSigned(v, n - 1);
      Widening(v, n - 1);
    }
  }

  /** What does not fit a width does not fit a smaller one. */
  lemma {:induction false} Widening(v: int, w: nat)
    requires 1 <= w <= 8 && !FitsSigned(v, w)
    ensures forall k :: 1 <= k <= w ==> !FitsSigned(v, k)
  {
    if w > 1 {
      EvenPowers(w - 1);
      assert Pow128(w) == 128 * Pow128(w - 1);
      Widening(v, w - 1);
    }
  }

  method WriteSignedVint(value: int) returns (out: seq<byte>)
    requires FitsSigned(value, 8)
    ensures out == SignedVint(value)
  {
    PowerTables();
    for width := 1 to 9
      invariant forall k :: 1 <= k < width ==> !FitsSigned(value, k)
    {
      var maxPos := Pow128(width) / 2;
      var minNeg := -(maxPos - 1);
      if minNeg <= value <= maxPos {
        EvenPowers(width);
        assert FitsSigned(value, width);
        assert SignedWidthFrom(value, 1) == width;
        out := WriteVintFixed(value + (maxPos - 1), width);
        return;
      }
    }
    assert false;
  }

  /** Exactly `width` bytes, the all-ones payload included. */
  method WriteVintFixed(value: nat, width: nat) returns (out: seq<byte>)
    requires 1 <= width <= 8 && value < Pow128(width)
    ensures out == VintBytes(value, width)
  {
    out := FillVint(value, width);
  }

  // ----- Xiph lacing (section 10.3.2) -----

  function XiphSize(n: nat): seq<byte> {
    if n >= 255 then [255] + XiphSize(n - 255) else [n]
  }

  function XiphSizes(sizes: seq<nat>): seq<byte> {
    if sizes == [] then [] else XiphSize(sizes[0]) + XiphSizes(sizes[1..])
  }

  function TakeXiphSize(s: seq<byte>): Option<(nat, seq<byte>)> {
    if s == [] then None
    else if s[0] < 255 then Some((s[0], s[1..]))
    else
      var (n, rest) :- TakeXiphSize(s[1..]);
      Some((n + 255, rest))
  }

  function TakeXiphSizes(s: seq<byte>, count: nat): Option<(seq<nat>, seq<byte>)>
    decreases count
  {
    if count == 0 then Some(([], s))
    else
      var (n, rest) :- TakeXiphSize(s);
      var (more, end) :- TakeXiphSizes(rest, count - 1);
      Some(([n] + more, end))
  }

  lemma {:induction false} XiphSizeReads(n: nat, tail: seq<byte>)
    ensures TakeXiphSize(XiphSize(n) + tail) == Some((n, tail))
  {
    if n >= 255 {
      XiphSizeReads(n - 255, tail);
      assert (XiphSize(n) + tail)[1..] == XiphSize(n - 255) + tail;
    } else {
      assert (XiphSize(n) + tail)[1..] == tail;
    }
  }

  lemma {:induction false} XiphSizesRead(sizes: seq<nat>, tail: seq<byte>)
    ensures TakeXiphSizes(XiphSizes(sizes) + tail, |sizes|) == Some((sizes, tail))
  {
    if sizes == [] {
      assert XiphSizes(sizes) + tail == tail;
    } else {
      var rest := XiphSizes(sizes[1..]) + tail;
      assert XiphSizes(sizes) + tail == XiphSize(sizes[0]) + rest;
      XiphSizeReads(sizes[0], rest);
      XiphSizesRead(sizes[1..], tail);
      assert sizes == [sizes[0]] + sizes[1..];
    }
  }

  // ----- EBML lacing (section 10.3.3) -----

  function Deltas(sizes: seq<nat>, prev: nat): seq<byte> {
    if sizes == [] then [] else SignedVint(sizes[0] - prev) + Deltas(sizes[1..], sizes[0])
  }

  predicate DeltasFit(sizes: seq<nat>, prev: nat) {
    sizes == [] || (FitsSigned(sizes[0] - prev, 8) && DeltasFit(sizes[1..], sizes[0]))
  }

  function TakeDeltas(s: seq<byte>, count: nat, prev: nat): Option<(seq<nat>, seq<byte>)>
    decreases count
  {
    if count == 0 then Some(([], s))
    else
      match DecodeSigned(s)
      case Failure(_) => None
      case Success((delta, w)) =>
        if prev + delta < 0 || w > |s| then None
        else
          var (more, end) :- TakeDeltas(s[w..], count - 1, prev + delta);
          Some(([prev + delta] + more, end))
  }

  lemma {:induction false} DeltasRead(sizes: seq<nat>, prev: nat, tail: seq<byte>)
    requires DeltasFit(sizes, prev)
    ensures TakeDeltas(Deltas(sizes, prev) + tail, |sizes|, prev) == Some((sizes, tail))
    decreases |sizes|
  {
    hide DecodeSigned, SignedVint, SignedWidthFrom, FitsSigned, Vint, DecodeVint;
    if sizes == [] {
      assert Deltas(sizes, prev) + tail == tail;
    } else {
      var rest := Deltas(sizes[1..], sizes[0]) + tail;
      var first := SignedVint(sizes[0] - prev);
      Assoc(first, Deltas(sizes[1..], sizes[0]), tail);
      SignedRoundTrip(sizes[0] - prev, rest);
      SignedLength(sizes[0] - prev);
      assert (first + rest)[|first|..] == rest;
      DeltasRead(sizes[1..], sizes[0], tail);
      assert sizes == [sizes[0]] + sizes[1..];
    }
  }

  lemma SignedLength(v: int)
    requires FitsSigned(v, 8)
    ensures |SignedVint(v)| == SignedWidthFrom(v, 1)
  {
  }

  function EbmlLaceSizes(sizes: seq<nat>): seq<byte> {
    if sizes == [] then [] else Vint(sizes[0], 0) + Deltas(sizes[1..], sizes[0])
  }

  /** What `write_vint` and `write_signed_vint` can encode; they panic on other sizes. */
  predicate EbmlSizesFit(sizes: seq<nat>) {
    sizes == [] || (sizes[0] < SIZE_LIMIT && DeltasFit(sizes[1..], sizes[0]))
  }

  function TakeEbmlSizes(s: seq<byte>, count: nat): Option<(seq<nat>, seq<byte>)> {
    if count == 0 then Some(([], s))
    else
      match RawVint(s)
      case Failure(_) => None
      case Success((first, w)) =>
        if w > |s| then None
        else
          var (more, end) :- TakeDeltas(s[w..], count - 1, first);
          Some(([first] + more, end))
  }

  lemma SizeReads(v: nat, tail: seq<byte>)
    requires v < SIZE_LIMIT
    ensures RawVint(Vint(v, 0) + tail) == Success((v, |Vint(v, 0)|))
  {
    hide DecodeVint, VintBytes;
    VintBytesDecode(v, VintWidth(v, 0), tail, true);
  }

  lemma EbmlSizesRead(sizes: seq<nat>, tail: seq<byte>)
    requires EbmlSizesFit(sizes)
    ensures TakeEbmlSizes(EbmlLaceSizes(sizes) + tail, |sizes|) == Some((sizes, tail))
  {
    hide RawVint, Vint, Deltas, DeltasFit, TakeDeltas;
    if sizes == [] {
      assert EbmlLaceSizes(sizes) + tail == tail;
    } else {
      var first := Vint(sizes[0], 0);
      var rest := Deltas(sizes[1..], sizes[0]) + tail;
      assert EbmlLaceSizes(sizes) + tail == first + rest;
      SizeReads(sizes[0], rest);
      assert (first + rest)[|first|..] == rest;
      DeltasRead(sizes[1..], sizes[0], tail);
      assert sizes == [sizes[0]] + sizes[1..];
    }
  }

  // ----- the frames behind the sizes -----

  /** Frames of the given sizes, and one more of all that is left. */
  function Cut(s: seq<byte>, sizes: seq<nat>): Option<seq<seq<byte>>> {
    if sizes == [] then Some([s])
    else if sizes[0] > |s| then None
    else
      var rest :- Cut(s[sizes[0]..], sizes[1..]);
      Some([s[..sizes[0]]] + rest)
  }

  lemma {:induction false} CutInvertsConcat(frames: seq<seq<byte>>)
    requires frames != []
    ensures Cut(Concat(frames), StatedSizes(frames)) == Some(frames)
    ensures |StatedSizes(frames)| == |frames| - 1
  {
    if |frames| == 1 {
      assert Concat(frames) == frames[0] + Concat(frames[1..]) && frames[0] + [] == frames[0];
      assert frames == [frames[0]];
    } else {
      var s := Concat(frames);
      CutInvertsConcat(frames[1..]);
      assert s[|frames[0]|..] == Concat(frames[1..]) && s[..|frames[0]|] == frames[0];
      assert frames == [frames[0]] + frames[1..];
    }
  }

  /** `count` frames of one size. */
  function CutEvenly(s: seq<byte>, size: nat, count: nat): seq<seq<byte>>
    requires count * size == |s|
    decreases count
  {
    if count == 0 then []
    else
      OneMore(count - 1, size);
      [s[..size]] + CutEvenly(s[size..], size, count - 1)
  }

  lemma OneMore(k: nat, size: nat)
    ensures (k + 1) * size == size + k * size
    ensures k * size >= 0
  {
  }

  lemma {:induction false} CutEvenlyInverts(frames: seq<seq<byte>>, size: nat)
    requires forall i :: 0 <= i < |frames| ==> |frames[i]| == size
    ensures |Concat(frames)| == |frames| * size
    ensures CutEvenly(Concat(frames), size, |frames|) == frames
    decreases |frames|
  {
    if frames != [] {
      CutEvenlyInverts(frames[1..], size);
      OneMore(|frames| - 1, size);
      assert Concat(frames)[size..] == Concat(frames[1..]) && Concat(frames)[..size] == frames[0];
      assert frames == [frames[0]] + frames[1..];
    }
  }

  lemma {:induction false} CutEvenlyIsEven(s: seq<byte>, size: nat, count: nat)
    requires count * size == |s|
    ensures |CutEvenly(s, size, count)| == count
    ensures forall i :: 0 <= i < count ==> |CutEvenly(s, size, count)[i]| == size
    decreases count
  {
    if count > 0 {
      OneMore(count - 1, size);
      CutEvenlyIsEven(s[size..], size, count - 1);
    }
  }

  // ----- laces -----

  /** What follows the flags of a Block; the count is one octet, as the source's cast makes it. */
  function Lace(mode: LacingMode, frames: seq<seq<byte>>): seq<byte> {
    if frames == [] then []
    else
      match mode
      case NoLacing => frames[0]
      case Xiph => [(|frames| - 1) % 256] + XiphSizes(StatedSizes(frames)) + Concat(frames)
      case FixedSize => [(|frames| - 1) % 256] + Concat(frames)
      case EbmlSizes => [(|frames| - 1) % 256] + EbmlLaceSizes(StatedSizes(frames)) + Concat(frames)
  }

  function Unlace(mode: LacingMode, s: seq<byte>): Option<seq<seq<byte>>> {
    if mode == NoLacing then Some([s])
    else if s == [] then None
    else
      var last: int := s[0];
      UnlaceMany(mode, last + 1, s[1..])
  }

  function UnlaceMany(mode: LacingMode, count: nat, s: seq<byte>): Option<seq<seq<byte>>>
    requires count > 0
  {
    match mode
    case NoLacing => Some([s])
    case Xiph =>
      var (sizes, rest) :- TakeXiphSizes(s, count - 1);
      Cut(rest, sizes)
    case EbmlSizes =>
      var (sizes, rest) :- TakeEbmlSizes(s, count - 1);
      Cut(rest, sizes)
    case FixedSize =>
      var size := |s| / count;
      if count * size != |s| then None else Some(CutEvenly(s, size, count))
  }

  /** When a lace reads back: only fixed-size lacing asks anything of frames that fit. */
  predicate Laceable(mode: LacingMode, frames: seq<seq<byte>>) {
    match mode
    case NoLacing => |frames| == 1
    case Xiph => 2 <= |frames| <= 256
    case FixedSize => 2 <= |frames| <= 256 && EqualSizes(frames)
    case EbmlSizes => 2 <= |frames| <= 256 && EbmlSizesFit(StatedSizes(frames))
  }

  lemma LaceRoundTrip(mode: LacingMode, frames: seq<seq<byte>>)
    requires Laceable(mode, frames)
    ensures Unlace(mode, Lace(mode, frames)) == Some(frames)
  {
    hide Cut, CutEvenly, TakeXiphSizes, TakeEbmlSizes, XiphSizes, EbmlLaceSizes, Concat, StatedSizes, EbmlSizesFit;
    var s := Lace(mode, frames);
    var sizes, data := StatedSizes(frames), Concat(frames);
    CutInvertsConcat(frames);
    match mode
    case NoLacing =>
      assert frames == [frames[0]];
    case Xiph =>
      XiphSizesRead(sizes, data);
      assert s[1..] == XiphSizes(sizes) + data;
    case EbmlSizes =>
      EbmlSizesRead(sizes, data);
      assert s[1..] == EbmlLaceSizes(sizes) + data;
    case FixedSize =>
      assert s[1..] == data;
      FixedReads(frames);
  }

  lemma FixedReads(frames: seq<seq<byte>>)
    requires 2 <= |frames| && EqualSizes(frames)
    ensures UnlaceMany(FixedSize, |frames|, Concat(frames)) == Some(frames)
  {
    hide CutEvenly, Concat;
    var size := |frames[0]|;
    CutEvenlyInverts(frames, size);
    assert |frames| * size == size * |frames|;
    DivUnique(|Concat(frames)|, |frames|, size, 0);
  }

  /** Fixed-size lacing reads back exactly the lists of equally long frames. */
  lemma FixedLaceReadsExactly(frames: seq<seq<byte>>)
    requires 2 <= |frames| <= 256
    ensures Unlace(FixedSize, Lace(FixedSize, frames)) == Some(frames) <==> EqualSizes(frames)
  {
    hide CutEvenly, Concat;
    var s := Lace(FixedSize, frames);
    if EqualSizes(frames) {
      LaceRoundTrip(FixedSize, frames);
    } else if Unlace(FixedSize, s) == Some(frames) {
      CutEvenlyIsEven(s[1..], |s[1..]| / |frames|, |frames|);
    }
  }

  // ----- the encoders, in place on the Block body -----

  /** The stated sizes from frame `i` on. */
  lemma StatedFrom(frames: seq<seq<byte>>, i: nat)
    requires i < |frames|
    ensures StatedSizes(frames[i..])
         == if i == |frames| - 1 then [] else [|frames[i]|] + StatedSizes(frames[i + 1..])
  {
    if i < |frames| - 1 {
      assert frames[i..][1..] == frames[i + 1..];
    }
  }

  lemma XiphSizesStep(n: nat, rest: seq<nat>)
    ensures XiphSizes([n] + rest) == XiphSize(n) + XiphSizes(rest) && XiphSizes([]) == []
  {
    assert ([n] + rest)[1..] == rest;
  }

  method EmitXiphSize(body: seq<byte>, size: nat) returns (out: seq<byte>)
    ensures out == body + XiphSize(size)
  {
    out := body;
    var remaining := size;
    while remaining >= 255
      invariant out + XiphSize(remaining) == body + XiphSize(size)
    {
      out := out + [255];
      remaining := remaining - 255;
    }
    out := out + [remaining];
  }

  method EmitXiphLacing(body: seq<byte>, frames: seq<seq<byte>>) returns (out: seq<byte>)
    requires 2 <= |frames| <= 256
    ensures out == body + Lace(Xiph, frames)
  {
    hide StatedSizes, XiphSizes, XiphSize, Concat;
    out := body + [|frames| - 1];
    ghost var goal := body + [|frames| - 1] + XiphSizes(StatedSizes(frames));
    assert frames[0..] == frames;
    for i := 0 to |frames| - 1
      invariant out + XiphSizes(StatedSizes(frames[i..])) == goal
    {
      StatedFrom(frames, i);
      XiphSizesStep(|frames[i]|, StatedSizes(frames[i + 1..]));
      out := EmitXiphSize(out, |frames[i]|);
    }
    StatedFrom(frames, |frames| - 1);
    XiphSizesStep(0, []);
    assert out + [] == out;
    out := AppendFrames(out, frames);
  }

  method AppendFrames(body: seq<byte>, frames: seq<seq<byte>>) returns (out: seq<byte>)
    ensures out == body + Concat(frames)
  {
    out := body;
    for i := 0 to |frames|
      invariant out + Concat(frames[i..]) == body + Concat(frames)
    {
      assert frames[i..][1..] == frames[i + 1..];
      out := out + frames[i];
    }
  }

  method EmitFixedLacing(body: seq<byte>, frames: seq<seq<byte>>) returns (out: seq<byte>)
    requires 2 <= |frames| <= 256 && EqualSizes(frames)
    ensures out == body + Lace(FixedSize, frames)
  {
    out := AppendFrames(body + [|frames| - 1], frames);
  }

  lemma DeltasStep(n: nat, rest: seq<nat>, prev: nat)
    ensures Deltas([n] + rest, prev) == SignedVint(n - prev) + Deltas(rest, n) && Deltas([], prev) == []
    ensures DeltasFit([n] + rest, prev) ==> FitsSigned(n - prev, 8) && DeltasFit(rest, n)
  {
    hide FitsSigned, SignedVint, SignedWidthFrom;
    assert ([n] + rest)[1..] == rest;
  }

  method EmitEbmlLacing(body: seq<byte>, frames: seq<seq<byte>>) returns (out: seq<byte>)
    requires 2 <= |frames| <= 256 && EbmlSizesFit(StatedSizes(frames))
    ensures out == body + Lace(EbmlSizes, frames)
  {
    hide SignedVint, Vint, StatedSizes, Deltas, DeltasFit, Concat, FitsSigned;
    ghost var sizes := StatedSizes(frames);
    assert frames[0..] == frames;
    StatedFrom(frames, 0);
    assert sizes[1..] == StatedSizes(frames[1..]);
    ghost var goal := body + [|frames| - 1] + EbmlLaceSizes(sizes);
    var first := WriteVint(|frames[0]|, 0);
    out := body + [|frames| - 1] + first;
    out := EmitDeltas(out, frames, goal);
    out := AppendFrames(out, frames);
  }

  method EmitDeltas(body: seq<byte>, frames: seq<seq<byte>>, ghost goal: seq<byte>) returns (out: seq<byte>)
    requires 2 <= |frames| && DeltasFit(StatedSizes(frames[1..]), |frames[0]|)
    requires goal == body + Deltas(StatedSizes(frames[1..]), |frames[0]|)
    ensures out == goal
  {
    hide SignedVint, StatedSizes, Deltas, DeltasFit, FitsSigned;
    out := body;
    var prev: nat := |frames[0]|;
    for i := 1 to |frames| - 1
      invariant prev == |frames[i - 1]|
      invariant DeltasFit(StatedSizes(frames[i..]), prev)
      invariant out + Deltas(StatedSizes(frames[i..]), prev) == goal
    {
      StatedFrom(frames, i);
      var cur: nat := |frames[i]|;
      DeltasStep(cur, StatedSizes(frames[i + 1..]), prev);
      var delta := WriteSignedVint(cur - prev);
      out := out + delta;
      prev := cur;
    }
    StatedFrom(frames, |frames| - 1);
    DeltasStep(0, [], prev);
  }

  // ----- Blocks (section 10.2) -----

  datatype Block = Block(track: nat, offset: int, key: bool, mode: LacingMode, frames: seq<seq<byte>>)

  predicate ValidBlock(b: Block) {
    b.track < SIZE_LIMIT && -0x8000 <= b.offset < 0x8000 && Laceable(b.mode, b.frames)
  }

  function FlagsByte(key: bool, mode: LacingMode): byte {
    (if key then 0x80 else 0) + 2 * FlagBits(mode)
  }

  function OffsetBytes(offset: int): seq<byte> {
    BE(TwosComplement(offset, 2), 2)
  }

  function BlockBody(b: Block): seq<byte> {
    Vint(b.track, 0) + OffsetBytes(b.offset) + [FlagsByte(b.key, b.mode)] + Lace(b.mode, b.frames)
  }

  function ParseBlock(s: seq<byte>): Option<Block> {
    match DecodeVint(s, false)
    case Failure(_) => None
    case Success((track, w)) =>
      if |s| < w + 3 then None
      else
        match DecodeInt(s[w..], 2)
        case Failure(_) => None
        case Success(offset) =>
          var flags: int := s[w + 2];
          var mode := ModeOf(flags / 2 % 4);
          var frames :- Unlace(mode, s[w + 3..]);
          Some(Block(track, offset, flags >= 0x80, mode, frames))
  }

  /** A Block body reads back as the same track, time offset, key flag, lacing mode and frames. */
  lemma BlockRoundTrip(b: Block)
    requires ValidBlock(b)
    ensures ParseBlock(BlockBody(b)) == Some(b)
  {
    hide DecodeVint, DecodeInt, Unlace, Lace, Vint, OffsetBytes, EbmlSizesFit, EqualSizes;
    var w := VintWidth(b.track, 0);
    var lace := Lace(b.mode, b.frames);
    var flags := FlagsByte(b.key, b.mode);
    var s := BlockBody(b);
    OffsetReads(b.offset, [flags] + lace);
    VintRoundTrip(b.track, 0, OffsetBytes(b.offset) + ([flags] + lace));
    BlockParts(Vint(b.track, 0), OffsetBytes(b.offset), flags, lace);
    LaceRoundTrip(b.mode, b.frames);
  }

  lemma OffsetReads(offset: int, tail: seq<byte>)
    requires -0x8000 <= offset < 0x8000
    ensures DecodeInt(OffsetBytes(offset) + tail, 2) == Success(offset)
    ensures |OffsetBytes(offset)| == 2
  {
    PowerTables();
    IntPatternReads(offset, 2, tail);
  }

  lemma BlockParts(v: seq<byte>, t: seq<byte>, flags: byte, lace: seq<byte>)
    requires |t| == 2
    ensures var s := v + t + [flags] + lace;
            && s == v + (t + ([flags] + lace)) && s[|v|..] == t + ([flags] + lace)
            && s[|v| + 2] == flags && s[|v| + 3..] == lace
  {
  }

  function SimpleBlock(b: Block): Elem {
    Leaf(SIMPLE_BLOCK, 0, BlockBody(b))
  }

  method BuildSimpleBlock(b: Block) returns (out: seq<byte>)
    requires ValidBlock(b) && |BlockBody(b)| < SIZE_LIMIT
    ensures out == Ser(SimpleBlock(b))
  {
    hide Vint, IdBytes, XiphSizes, EbmlLaceSizes, StatedSizes, Concat, BE, EbmlSizesFit;
    var body := WriteVint(b.track, 0);
    var offset := WriteOffset(b.offset);
    body := body + offset;
    var flags: byte := if b.key then 0x80 else 0;
    flags := flags + 2 * FlagBits(b.mode);
    body := body + [flags];
    match b.mode {
      case NoLacing => body := body + b.frames[0];
      case Xiph => body := EmitXiphLacing(body, b.frames);
      case EbmlSizes => body := EmitEbmlLacing(body, b.frames);
      case FixedSize => body := EmitFixedLacing(body, b.frames);
    }
    assert body == BlockBody(b);
    var id := WriteElementId(SIMPLE_BLOCK);
    var size := WriteVint(|body|, 0);
    out := id + size + body;
  }

  method WriteOffset(offset: int) returns (out: seq<byte>)
    requires -0x8000 <= offset < 0x8000
    ensures out == OffsetBytes(offset)
  {
    out := PushBE(TwosComplement(offset, 2), 2);
  }
}
