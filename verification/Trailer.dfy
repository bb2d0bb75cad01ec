/** What the finished file is: the index, the patched slots, and that the patched SeekHead tells the truth. */
module Trailer {
  import opened Wrappers
  import opened Bytes
  import opened Ebml
  import opened Crc32
  import opened Ids
  import opened Elements
  import opened Voids
  import opened Cues
  import opened FrontCues
  import opened SeekHeads
  import opened Floats
  import opened Tags
  import opened Muxer
  import opened MuxerFile
  import opened FilePatches

  /** The three in-place changes and what is appended. */
  datatype Finish = Finish(patches: Patches, end: seq<Elem>)

  /** The index for the reserved slot, if there is a slot and an index that fits. */
  function InSlot(l: Setup, cues: seq<CueRecord>): Option<seq<Elem>>
    requires ValidSetup(l) && InnerLength(cues, l.strict) < SIZE_LIMIT
  {
    if l.front.Some? && cues != [] then SlotContent(cues, l.strict, l.front.value) else None
  }

  /** The measured duration, in milliseconds: the latest end of a packet, as a double. */
  function MeasuredEnd(end: int): (s: seq<byte>)
    ensures |s| == 8
  {
    FloatBytes(NonNegative(end))
  }

  function Finished(l: Setup, s: State): Finish
    requires ValidSetup(l) && InnerLength(s.cues, l.strict) < SIZE_LIMIT
  {
    var slot := InSlot(l, s.cues);
    var front := if slot.Some? then slot.value else Unpatched(l).front;
    var duration := if l.finalize && s.maxEnd.Some? then Some(MeasuredEnd(s.maxEnd.value)) else None;
    if l.live then Finish(Patches(Unset, duration, front), [])
    else if s.cues == [] then Finish(Patches(Voided, duration, front), [])
    else if slot.Some? then Finish(Patches(At(FrontAt(l)), duration, front), [])
    else Finish(Patches(At(Cursor(ConfigOf(l), s)), duration, front), [CuesElem(s.cues, l.strict, 0)])
  }

  /** The Segment's children in the finished file. */
  function Children(l: Setup, s: State, f: Finish): seq<Elem>
    requires ValidSetup(l)
  {
    SegmentHead(l, f.patches) + (ItemElems(s.items) + f.end)
  }

  lemma FinishedIsValid(l: Setup, s: State)
    requires ValidSetup(l) && InnerLength(s.cues, l.strict) < SIZE_LIMIT
    ensures ValidPatches(l, Finished(l, s).patches)
    ensures |SerAll(SegmentHead(l, Finished(l, s).patches))| == HeadLength(l)
  {
    hide SlotContent, SerAll, OneShort, SegmentHead, HeadLength, Cursor, FrontAt, CuesElem, VintWidth;
    hide Void;
    UnpatchedIsValid(l);
    if l.front.Some? && s.cues != [] {
      SlotIsTiled(s.cues, l.strict, l.front.value);
      SlotIds(s.cues, l.strict, l.front.value);
    }
    HeadLayout(l, Finished(l, s).patches);
  }

  lemma SlotIds(cues: seq<CueRecord>, strict: bool, reserved: nat)
    requires InnerLength(cues, strict) < SIZE_LIMIT && reserved < TWO_TO_THE_32
    ensures var s := SlotContent(cues, strict, reserved);
            s.Some? ==> forall i :: 0 <= i < |s.value| ==> s.value[i].id == CUES || s.value[i].id == VOID
  {
    hide SlotContent, SerAll, VintWidth, CuesKids, Void;
    SlotIsTiled(cues, strict, reserved);
    var s := SlotContent(cues, strict, reserved);
    if s.Some? && |s.value| == 2 {
      var n :| VoidSize(n) && s.value[1] == Void(n);
      FillerIsVoid(n);
    }
  }

  lemma FoundInRest(a: seq<Elem>, b: seq<Elem>, id: nat, pos: nat)
    requires Found(a, id, pos)
    ensures Found(a + b, id, pos)
  {
    var k :| 0 <= k < |a| && a[k].id == id && |SerAll(a[..k])| == pos;
    assert (a + b)[..k] == a[..k];
  }

  /** The Cues entry points at the index, in the slot or at the end, or is a Void because there is none. */
  lemma CuesEntryResolves(l: Setup, s: State)
    requires ValidSetup(l) && !l.live && InnerLength(s.cues, l.strict) < SIZE_LIMIT
    ensures var f := Finished(l, s);
            match f.patches.cues
            case At(pos) => Found(Children(l, s, f), CUES, pos)
            case Voided => s.cues == []
            case Unset => false
  {
    hide SerAll, ItemElems, SegmentHead, SlotContent, OneShort, Found, HeadLength, FrontAt, VintWidth, InfoAt, CuesKids;
    var f := Finished(l, s);
    FinishedIsValid(l, s);
    if s.cues != [] {
      if InSlot(l, s.cues).Some? {
        SlotIsTiled(s.cues, l.strict, l.front.value);
        SlotStarts(l, f.patches, ItemElems(s.items) + f.end);
      } else {
        var cues := CuesElem(s.cues, l.strict, 0);
        var before := SegmentHead(l, f.patches) + ItemElems(s.items);
        SerAppend(SegmentHead(l, f.patches), ItemElems(s.items));
        FoundAt(before, cues, []);
        assert Children(l, s, f) == before + [cues] + [];
      }
    }
  }

  /** The first element of the reserved slot starts at the slot. */
  lemma SlotStarts(l: Setup, p: Patches, rest: seq<Elem>)
    requires ValidSetup(l) && ValidPatches(l, p) && p.front != []
    ensures Found(SegmentHead(l, p) + rest, p.front[0].id, FrontAt(l))
  {
    hide SerAll, SeekPart, TracksElem, InfoElem, Part, Found, FrontAt, ValidPatches, TagsAt, AttachmentsAt,
      ChaptersAt, TracksAt, InfoAt, ValidSetup, ChapterKids, TagElems;
    HeadLayout(l, p);
    var most := SeekPart(l, p.cues) + [InfoElem(l, p.duration)] + [TracksElem(l)]
                + Part(CHAPTERS, ChapterKids(l), l.strict)
                + Part(ATTACHMENTS, l.attachments, false) + Part(TAGS, TagElems(l.tags), l.strict);
    FoundAt(most, p.front[0], p.front[1..] + rest);
    FirstOf(most, p.front, rest);
  }

  lemma FirstOf(most: seq<Elem>, front: seq<Elem>, rest: seq<Elem>)
    requires front != []
    ensures most + front + rest == most + [front[0]] + (front[1..] + rest)
  {
    assert front == [front[0]] + front[1..];
  }

  lemma EndIsCues(l: Setup, s: State)
    requires ValidSetup(l) && InnerLength(s.cues, l.strict) < SIZE_LIMIT
    ensures forall i :: 0 <= i < |Finished(l, s).end| ==> Finished(l, s).end[i].id == CUES
  {
    hide SlotContent, FrontAt, Cursor, ConfigOf, Unpatched;
  }

  lemma OtherThanCues(end: seq<Elem>, id: nat)
    requires id != CUES && forall i :: 0 <= i < |end| ==> end[i].id == CUES
    ensures Without(end, id)
  {
  }

  /** Without cues there is no index. */
  lemma NoCuesNoIndex(l: Setup, s: State)
    requires ValidSetup(l) && InnerLength(s.cues, l.strict) < SIZE_LIMIT && s.cues == []
    ensures Without(SegmentHead(l, Finished(l, s).patches), CUES) && Finished(l, s).end == []
  {
    hide SegmentHead, SlotContent, FrontAt, Cursor, CuesElem, VoidWidth, ConfigOf;
    HeadWithout(l, Finished(l, s).patches, CUES);
  }

  lemma OnlyLastIsCues(i: nat)
    requires i < 6
    ensures SeekIds()[i] == CUES <==> i == 5
  {
  }

  /** Each of the first five entries points at its element, or none is in front of the Clusters or behind them. */
  lemma HeadEntryIsTruthful(l: Setup, p: Patches, items: seq<Elem>, end: seq<Elem>, i: nat)
    requires ValidSetup(l) && ValidPatches(l, p) && i < 5
    requires forall k :: 0 <= k < |end| ==> end[k].id == CUES
    ensures match Slots(l, p.cues)[i]
            case At(pos) => Found(SegmentHead(l, p) + (items + end), SeekIds()[i], pos)
            case Voided => Without(SegmentHead(l, p) + end, SeekIds()[i])
            case Unset => false
  {
    hide SegmentHead, Found, Slots, SeekIds, ValidPatches, Without, ValidSetup;
    SeekEntriesResolve(l, p, items + end, i);
    if Slots(l, p.cues)[i].Voided? {
      OnlyLastIsCues(i);
      OtherThanCues(end, SeekIds()[i]);
      WithoutAppend(SegmentHead(l, p), end, SeekIds()[i]);
    }
  }

  /** So does the sixth. */
  lemma CuesEntryIsTruthful(l: Setup, s: State)
    requires ValidSetup(l) && !l.live && InnerLength(s.cues, l.strict) < SIZE_LIMIT
    ensures var f := Finished(l, s);
            match f.patches.cues
            case At(pos) => Found(Children(l, s, f), CUES, pos)
            case Voided => Without(SegmentHead(l, f.patches) + f.end, CUES)
            case Unset => false
  {
    hide SegmentHead, Found, Slots, ItemElems, Finished, ValidPatches, Without, ValidSetup, InnerLength, Children;
    CuesEntryResolves(l, s);
    if s.cues == [] {
      NoCuesNoIndex(l, s);
      assert SegmentHead(l, Finished(l, s).patches) + [] == SegmentHead(l, Finished(l, s).patches);
    }
  }

  /**
   * After the trailer every surviving Seek entry points at an element with its ID, and a voided one
   * stands for an element that is neither in front of the Clusters nor behind them.
   */
  lemma SeekHeadIsTruthful(l: Setup, s: State, i: nat)
    requires ValidSetup(l) && !l.live && InnerLength(s.cues, l.strict) < SIZE_LIMIT && i < 6
    ensures var f := Finished(l, s);
            match Slots(l, f.patches.cues)[i]
            case At(pos) => Found(Children(l, s, f), SeekIds()[i], pos)
            case Voided => Without(SegmentHead(l, f.patches) + f.end, SeekIds()[i])
            case Unset => false
  {
    hide SegmentHead, Found, Slots, Finished, Without, ValidSetup, ValidPatches, InnerLength, ItemElems, SeekIds;
    if i < 5 {
      var f := Finished(l, s);
      FinishedIsValid(l, s);
      EndIsCues(l, s);
      HeadEntryIsTruthful(l, f.patches, ItemElems(s.items), f.end, i);
    } else {
      OnlyLastIsCues(i);
      CuesEntryIsTruthful(l, s);
      LastSlot(l, Finished(l, s).patches.cues);
    }
  }

  /** And the bytes at that position are that element's header. */
  lemma FoundBytes(children: seq<Elem>, id: nat, pos: nat, opening: seq<byte>)
    requires Found(children, id, pos) && FitAll(children)
    ensures var file := opening + SerAll(children);
            && |opening| + pos <= |file|
            && DecodeHeader(file[|opening| + pos..]).Success?
            && DecodeHeader(file[|opening| + pos..]).value.id == id
  {
    hide SerAll, DecodeHeader, FitAll, Fits, Ser;
    var k :| 0 <= k < |children| && children[k].id == id && |SerAll(children[..k])| == pos;
    SerSplit(children, k);
    FitAt(children, k);
    HeaderOf(children[k], SerAll(children[k + 1..]));
    SkipTwo(opening, SerAll(children[..k]), SerAll(children[k..]));
  }

  lemma HeaderOf(e: Elem, rest: seq<byte>)
    requires Fits(e)
    ensures DecodeHeader(Ser(e) + rest).Success? && DecodeHeader(Ser(e) + rest).value.id == e.id
  {
    hide DecodeHeader, Fits, Ser, Head, Body, SizeField, HeadFits;
    SerIsHeadThenBody(e);
    FitsHead(e);
    HeaderDecodes(e, Body(e) + rest);
    assert Ser(e) + rest == Head(e) + (Body(e) + rest);
  }

  lemma SkipTwo(a: seq<byte>, b: seq<byte>, c: seq<byte>)
    ensures (a + (b + c))[|a| + |b|..] == c
  {
  }

  lemma FitsHead(e: Elem)
    requires Fits(e)
    ensures HeadFits(e)
  {
    hide SerAll, FitAll;
  }

  // ----- the Info element of a finished file -----

  /** The header of a lenient Info element, and a file around such an element. */
  function InfoHead(body: seq<byte>): seq<byte> {
    IdBytes(INFO) + Vint(|body| + 6, 0)
  }

  function AroundBody(before: seq<byte>, body: seq<byte>, after: seq<byte>): seq<byte> {
    before + (InfoHead(body) + ([0xBF, 0x84] + LE4(Crc(body))) + body) + after
  }

  lemma InfoHeaderReads(before: seq<byte>, body: seq<byte>, after: seq<byte>)
    requires |body| + 6 < SIZE_LIMIT
    ensures DecodeHeader(AroundBody(before, body, after)[|before|..])
         == Success(Header(INFO, |body| + 6, |InfoHead(body)|))
  {
    hide DecodeHeader, IdBytes, Vint, Crc, LE4;
    var crc := [0xBF, 0x84] + LE4(Crc(body));
    var rest := crc + body + after;
    DropBefore(before, InfoHead(body), crc, body, after);
    InfoHeadDecodes(|body| + 6, rest);
  }

  lemma InfoHeadDecodes(n: nat, tail: seq<byte>)
    requires n < SIZE_LIMIT
    ensures DecodeHeader(IdBytes(INFO) + Vint(n, 0) + tail) == Success(Header(INFO, n, |IdBytes(INFO)| + |Vint(n, 0)|))
  {
    HeaderRoundTrip(INFO, n, 0, tail);
  }

  lemma DropBefore(before: seq<byte>, head: seq<byte>, crc: seq<byte>, body: seq<byte>, after: seq<byte>)
    ensures (before + (head + crc + body) + after)[|before|..] == head + (crc + body + after)
    ensures (before + (head + crc + body) + after)[|before| + |head|..] == crc + (body + after)
    ensures (before + (head + crc + body) + after)[|before| + |head| + |crc|..] == body + after
  {
  }

  lemma CrcHeaderReads(before: seq<byte>, body: seq<byte>, after: seq<byte>)
    ensures DecodeHeader(AroundBody(before, body, after)[|before| + |InfoHead(body)|..]) == Success(Header(CRC32, 4, 2))
  {
    hide DecodeHeader, IdBytes, Vint, Crc, LE4;
    var crc := LE4(Crc(body));
    DropBefore(before, InfoHead(body), [0xBF, 0x84] + crc, body, after);
    assert [0xBF] + [0x84] + (crc + (body + after)) == [0xBF, 0x84] + crc + (body + after);
    OneByteHeader(CRC32, 4);
    HeaderRoundTrip(CRC32, 4, 0, crc + (body + after));
  }

  lemma CrcBytesRead(before: seq<byte>, body: seq<byte>, after: seq<byte>)
    ensures var file, crc := AroundBody(before, body, after), |before| + |InfoHead(body)| + 2;
            && crc + 4 + |body| <= |file|
            && file[crc..crc + 4] == LE4(Crc(body)) && file[crc + 4..crc + 4 + |body|] == body
  {
    hide IdBytes, Vint, Crc, LE4, InfoHead;
    CrcIsFour(body);
    CutOut(before + InfoHead(body) + [0xBF, 0x84], LE4(Crc(body)), body, after);
    assert AroundBody(before, body, after) == before + InfoHead(body) + [0xBF, 0x84] + LE4(Crc(body)) + body + after;
  }

  lemma CutOut(a: seq<byte>, x: seq<byte>, y: seq<byte>, c: seq<byte>)
    ensures var file := a + x + y + c;
            file[|a|..|a| + |x|] == x && file[|a| + |x|..|a| + |x| + |y|] == y
  {
  }

  /**
   * In the bytes of the finished file a reader finds the Info header, in it the header of a
   * CRC-32, and in its four bytes the CRC of the bytes behind them, to the end of the Info element.
   */
  lemma InfoCrcMatches(l: Setup, base: seq<byte>, s: State)
    requires ValidSetup(l) && !l.strict && InnerLength(s.cues, l.strict) < SIZE_LIMIT
    requires |SerAll(InfoKids(l, None))| + 6 < SIZE_LIMIT
    ensures var f := Finished(l, s);
            var file := FileBytes(l, base, f.patches, s.items, f.end);
            var info, crc, n := |Opening(l, base)| + InfoAt(l), InfoCrcAt(l, base),
                                |SerAll(InfoKids(l, f.patches.duration))|;
            && info <= crc - 2 && crc + 4 + n <= |file|
            && DecodeHeader(file[info..]) == Success(Header(INFO, 6 + n, crc - 2 - info))
            && DecodeHeader(file[crc - 2..]) == Success(Header(CRC32, 4, 2))
            && file[crc..crc + 4] == LE4(Crc(file[crc + 4..crc + 4 + n]))
            && file[crc + 4..crc + 4 + n] == SerAll(InfoKids(l, f.patches.duration))
  {
    hide FileBytes, Finished, InfoKids, SerAll, Crc, LE4, DecodeHeader, Opening, InfoAt, ValidSetup, InnerLength,
      AroundBody, InfoHead, InfoCrcAt;
    var body := SerAll(InfoKids(l, Finished(l, s).patches.duration));
    var before, after := AroundInfoBody(l, base, s);
    InfoHeaderReads(before, body, after);
    CrcHeaderReads(before, body, after);
    CrcBytesRead(before, body, after);
  }

  /** The finished file around its Info element. */
  lemma AroundInfoBody(l: Setup, base: seq<byte>, s: State) returns (before: seq<byte>, after: seq<byte>)
    requires ValidSetup(l) && !l.strict && InnerLength(s.cues, l.strict) < SIZE_LIMIT
    requires |SerAll(InfoKids(l, None))| + 6 < SIZE_LIMIT
    ensures var f := Finished(l, s);
            var body := SerAll(InfoKids(l, f.patches.duration));
            && |body| + 6 < SIZE_LIMIT
            && FileBytes(l, base, f.patches, s.items, f.end) == AroundBody(before, body, after)
            && |before| == |Opening(l, base)| + InfoAt(l)
            && |before| + |InfoHead(body)| + 2 == InfoCrcAt(l, base)
  {
    hide FileBytes, Finished, InfoKids, SerAll, Ser, IdBytes, Vint, Crc, LE4, InfoElem, Opening, InfoAt, ValidSetup,
      InnerLength;
    var p := Finished(l, s).patches;
    FinishedDuration(l, s);
    before, after := AroundInfo(l, base, p, s.items, Finished(l, s).end);
    assert p.(duration := p.duration) == p;
    InfoKidsSize(l, p.duration);
    InfoIs(l, p.duration);
  }

  lemma InfoIs(l: Setup, d: Option<seq<byte>>)
    requires !l.strict
    ensures var body := SerAll(InfoKids(l, d));
            Ser(InfoElem(l, d)) == (IdBytes(INFO) + Vint(|body| + 6, 0)) + ([0xBF, 0x84] + LE4(Crc(body))) + body
  {
    hide Ser, SerAll, InfoKids, IdBytes, Vint, Crc, LE4, TopLevel;
    TopLevelBytes(INFO, InfoKids(l, d), l.strict);
  }

  lemma FinishedDuration(l: Setup, s: State)
    requires ValidSetup(l) && InnerLength(s.cues, l.strict) < SIZE_LIMIT
    ensures Finished(l, s).patches.duration.Some? ==> |Finished(l, s).patches.duration.value| == 8
  {
    hide SlotContent, Cursor, FrontAt, CuesElem, Void;
  }
}
