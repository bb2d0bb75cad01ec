/**
 * H.264: splitting an Annex B byte stream into NAL units, and repacking them behind length fields
 * next to a configuration record.
 */
module Avc {
  import opened Wrappers
  import opened Bytes
  import opened Voids

  type Nal = seq<byte>

  // ----- start codes -----

  predicate CodeAt(s: seq<byte>, i: nat) {
    i + 2 < |s| && s[i] == 0 && s[i + 1] == 0 && s[i + 2] == 1
  }

  ghost predicate FirstCode(s: seq<byte>, i: nat) {
    CodeAt(s, i) && forall j: nat :: j < i ==> !CodeAt(s, j)
  }

  ghost predicate NoCode(s: seq<byte>) {
    forall j: nat :: !CodeAt(s, j)
  }

  function FindCode(s: seq<byte>, i: nat): (r: Option<nat>)
    requires forall j: nat :: j < i ==> !CodeAt(s, j)
    ensures match r case Some(k) => FirstCode(s, k) case None => NoCode(s)
    decreases |s| - i
  {
    if i + 2 >= |s| then None
    else if CodeAt(s, i) then Some(i)
    else FindCode(s, i + 1)
  }

  method FindStartCode(bytes: seq<byte>) returns (r: Option<nat>)
    ensures r == FindCode(bytes, 0)
    ensures match r case Some(k) => FirstCode(bytes, k) case None => NoCode(bytes)
  {
    if |bytes| < 3 {
      return None;
    }
    var i := 0;
    while i + 2 < |bytes|
      invariant 0 <= i
      invariant forall j: nat :: j < i ==> !CodeAt(bytes, j)
      invariant FindCode(bytes, 0) == FindCode(bytes, i)
    {
      if bytes[i] == 0 && bytes[i + 1] == 0 && bytes[i + 2] == 1 {
        return Some(i);
      }
      i := i + 1;
    }
    return None;
  }

  /** Without the zeros it ends in. */
  function Strip(s: seq<byte>): (r: seq<byte>)
    ensures |r| <= |s|
  {
    if s != [] && s[|s| - 1] == 0 then Strip(s[..|s| - 1]) else s
  }

  /** The units behind the start codes, in order. */
  function Split(s: seq<byte>): seq<Nal>
    decreases |s|
  {
    match FindCode(s, 0)
    case None => []
    case Some(i) =>
      var rest := s[i + 3..];
      match FindCode(rest, 0)
      case None => [Strip(rest)]
      case Some(j) => [Strip(rest[..j])] + Split(rest[j..])
  }

  /** The iterator over the units. */
  class AnnexBIter {
    const data: seq<byte>
    var pos: nat

    constructor (data: seq<byte>)
      ensures this.data == data && pos == 0
    {
      this.data := data;
      pos := 0;
    }

    method Next() returns (r: Option<Nal>)
      requires pos <= |data|
      modifies this
      ensures old(pos) <= pos <= |data|
      ensures match r
              case None => Split(data[old(pos)..]) == [] && pos == old(pos)
              case Some(nal) => Split(data[old(pos)..]) == [nal] + Split(data[pos..]) && pos > old(pos)
    {
      hide FindCode, FirstCode, NoCode, Split;
      SplitStep(data[pos..]);
      var start := FindStartCode(data[pos..]);
      if start.None? {
        return None;
      }
      var afterPrefix := pos + start.value + 3;
      SplitStep(data[afterPrefix..]);
      var next := FindStartCode(data[afterPrefix..]);
      var nextPrefix := if next.Some? then afterPrefix + next.value else |data|;
      var nalEnd := nextPrefix;
      while nalEnd > afterPrefix && data[nalEnd - 1] == 0
        invariant pos == old(pos)
        invariant afterPrefix <= nalEnd <= nextPrefix
        invariant Strip(data[afterPrefix..nextPrefix]) == Strip(data[afterPrefix..nalEnd])
      {
        StripStep(data, afterPrefix, nalEnd);
        nalEnd := nalEnd - 1;
      }
      StripDone(data, afterPrefix, nalEnd);
      SplitFrom(data, pos, afterPrefix, nextPrefix, start.value, next);
      pos := nextPrefix;
      return Some(data[afterPrefix..nalEnd]);
    }
  }

  lemma StripStep(data: seq<byte>, from: nat, to: nat)
    requires from < to <= |data| && data[to - 1] == 0
    ensures Strip(data[from..to]) == Strip(data[from..to - 1])
  {
    var s := data[from..to];
    assert s[|s| - 1] == 0 && s[..|s| - 1] == data[from..to - 1];
  }

  lemma StripDone(data: seq<byte>, from: nat, to: nat)
    requires from <= to <= |data| && (to > from ==> data[to - 1] != 0)
    ensures Strip(data[from..to]) == data[from..to]
  {
    var s := data[from..to];
    assert s != [] ==> s[|s| - 1] == data[to - 1];
  }

  /** One step of the split. */
  lemma SplitStep(s: seq<byte>)
    ensures match FindCode(s, 0)
            case None => Split(s) == []
            case Some(i) =>
              i + 3 <= |s| &&
              match FindCode(s[i + 3..], 0)
              case None => Split(s) == [Strip(s[i + 3..])]
              case Some(j) => i + 3 + j <= |s| && Split(s) == [Strip(s[i + 3..][..j])] + Split(s[i + 3..][j..])
  {
    hide Strip;
  }

  /** And in positions of the whole stream. */
  lemma SplitFrom(data: seq<byte>, pos: nat, afterPrefix: nat, nextPrefix: nat, start: nat, next: Option<nat>)
    requires pos <= |data| && FindCode(data[pos..], 0) == Some(start)
    requires afterPrefix == pos + start + 3 <= |data| && next == FindCode(data[afterPrefix..], 0)
    requires nextPrefix == if next.Some? then afterPrefix + next.value else |data|
    ensures nextPrefix <= |data|
    ensures Split(data[pos..]) == [Strip(data[afterPrefix..nextPrefix])] + Split(data[nextPrefix..])
  {
    hide FindCode, FirstCode, NoCode, Split, Strip;
    SplitStep(data[pos..]);
    SliceSlice(data, pos, start + 3);
    if next.Some? {
      SliceSlice(data, afterPrefix, next.value);
    } else {
      SplitStep(data[nextPrefix..]);
      assert data[nextPrefix..] == [];
      assert data[afterPrefix..] == data[afterPrefix..nextPrefix];
    }
  }

  lemma SliceSlice(s: seq<byte>, i: nat, j: nat)
    requires i + j <= |s|
    ensures s[i..][j..] == s[i + j..] && s[i..][..j] == s[i..i + j]
  {
  }

  // ----- streams and their units -----

  /** A unit, and the zeros in front of its three-byte start code: none, one, or more. */
  datatype Unit = Unit(zeros: nat, nal: Nal)

  /** What can stand between two start codes without being taken for one or losing its end. */
  ghost predicate Clean(nal: Nal) {
    NoCode(nal) && (nal != [] ==> nal[|nal| - 1] != 0)
  }

  ghost predicate AllClean(units: seq<Unit>) {
    forall k :: 0 <= k < |units| ==> Clean(units[k].nal)
  }

  function Nals(units: seq<Unit>): seq<Nal> {
    if units == [] then [] else [units[0].nal] + Nals(units[1..])
  }

  /** A start code, with zeros in front of it. */
  function Coded(zeros: nat, rest: seq<byte>): seq<byte> {
    Zeroes(zeros) + [0, 0, 1] + rest
  }

  /** The units, each behind its start code, and zeros behind the last one. */
  function Join(units: seq<Unit>, tail: nat): seq<byte> {
    if units == [] then Zeroes(tail)
    else Coded(units[0].zeros, units[0].nal + Join(units[1..], tail))
  }

  /** Zeros never complete a start code. */
  lemma CodeBehind(a: seq<byte>, zeros: nat, rest: seq<byte>)
    requires NoCode(a)
    ensures FirstCode(a + Coded(zeros, rest), |a| + zeros)
  {
    var s := a + Coded(zeros, rest);
    forall j: nat | j < |a| + zeros
      ensures !CodeAt(s, j)
    {
      if j + 2 < |a| {
        assert s[j] == a[j] && s[j + 1] == a[j + 1] && s[j + 2] == a[j + 2];
        assert !CodeAt(a, j);
      } else {
        assert s[j + 2] == 0;
      }
    }
  }

  lemma NoCodeBehind(a: seq<byte>, zeros: nat)
    requires NoCode(a)
    ensures NoCode(a + Zeroes(zeros))
  {
    var s := a + Zeroes(zeros);
    forall j: nat
      ensures !CodeAt(s, j)
    {
      if j + 2 < |a| {
        assert !CodeAt(a, j);
      }
    }
  }

  lemma OnlyFirst(s: seq<byte>, i: nat)
    requires FirstCode(s, i)
    ensures FindCode(s, 0) == Some(i)
  {
  }

  lemma {:induction false} StripZeroes(nal: Nal, zeros: nat)
    requires nal != [] ==> nal[|nal| - 1] != 0
    ensures Strip(nal + Zeroes(zeros)) == nal
  {
    var s := nal + Zeroes(zeros);
    if zeros == 0 {
      assert s == nal;
    } else {
      assert s[..|s| - 1] == nal + Zeroes(zeros - 1);
      StripZeroes(nal, zeros - 1);
    }
  }

  lemma SplitAt(s: seq<byte>, i: nat, rest: seq<byte>)
    requires FirstCode(s, i) && i + 3 <= |s| && s[i + 3..] == rest
    ensures match FindCode(rest, 0)
            case None => Split(s) == [Strip(rest)]
            case Some(j) => j <= |rest| && Split(s) == [Strip(rest[..j])] + Split(rest[j..])
  {
    hide FindCode, FirstCode, NoCode, Split, Strip;
    OnlyFirst(s, i);
    SplitStep(s);
    assert s[i + 3..] == rest;
    match FindCode(rest, 0)
    case None =>
      assert Split(s) == [Strip(rest)];
    case Some(j) =>
      assert Split(s) == [Strip(rest[..j])] + Split(rest[j..]);
  }

  /** The first unit of a stream, given what is behind its start code. */
  lemma SplitBehind(a: seq<byte>, zeros: nat, rest: seq<byte>)
    requires NoCode(a)
    ensures var s := a + Coded(zeros, rest);
            match FindCode(rest, 0)
            case None => Split(s) == [Strip(rest)]
            case Some(j) => j <= |rest| && Split(s) == [Strip(rest[..j])] + Split(rest[j..])
  {
    hide FindCode, FirstCode, NoCode, Split, Strip, Coded;
    CodeBehind(a, zeros, rest);
    DropCode(a, zeros, rest);
    SplitAt(a + Coded(zeros, rest), |a| + zeros, rest);
  }

  lemma DropCode(a: seq<byte>, zeros: nat, rest: seq<byte>)
    ensures var s := a + Coded(zeros, rest);
            |a| + zeros + 3 <= |s| && s[|a| + zeros + 3..] == rest
  {
  }

  /**
   * Splitting gives back the units of any stream put together from clean ones, whatever precedes
   * the first start code.
   */
  lemma {:induction false} SplitInvertsJoin(lead: seq<byte>, units: seq<Unit>, tail: nat)
    requires NoCode(lead) && AllClean(units)
    ensures Split(lead + Join(units, tail)) == Nals(units)
    decreases |units|
  {
    hide Split, Strip, FindCode, NoCode, FirstCode, Zeroes, Coded;
    if units == [] {
      NoCodeBehind(lead, tail);
      NoneFound(lead + Zeroes(tail));
      SplitStep(lead + Zeroes(tail));
    } else {
      var u, more := units[0], units[1..];
      var rest := u.nal + Join(more, tail);
      assert Clean(u.nal);
      SplitBehind(lead, u.zeros, rest);
      if more == [] {
        NoCodeBehind(u.nal, tail);
        NoneFound(rest);
        StripZeroes(u.nal, tail);
        assert [u.nal] + [] == [u.nal];
      } else {
        CodeBehind(u.nal, more[0].zeros, more[0].nal + Join(more[1..], tail));
        OnlyFirst(rest, |u.nal| + more[0].zeros);
        NextJoin(u.nal, more, tail);
        StripZeroes(u.nal, more[0].zeros);
        NextUnits(units);
        NoneInNothing();
        SplitInvertsJoin([], Closer(more), tail);
        assert [] + Join(Closer(more), tail) == Join(Closer(more), tail);
      }
    }
  }

  /** The same units, with no zeros in front of the first. */
  function Closer(units: seq<Unit>): (r: seq<Unit>)
    requires units != []
    ensures |r| == |units|
  {
    [units[0].(zeros := 0)] + units[1..]
  }

  lemma NextUnits(units: seq<Unit>)
    requires AllClean(units) && |units| > 1
    ensures AllClean(Closer(units[1..])) && Nals(Closer(units[1..])) == Nals(units[1..])
  {
    hide Clean;
    var more := units[1..];
    assert Closer(more)[1..] == more[1..];
    forall k | 0 <= k < |more|
      ensures Clean(Closer(more)[k].nal)
    {
      assert Closer(more)[k].nal == units[k + 1].nal;
    }
  }

  lemma NoneInNothing()
    ensures NoCode([])
  {
  }

  lemma NoneFound(s: seq<byte>)
    requires NoCode(s)
    ensures FindCode(s, 0) == None
  {
  }

  lemma NextJoin(nal: Nal, units: seq<Unit>, tail: nat)
    requires units != []
    ensures var rest, z := nal + Join(units, tail), units[0].zeros;
            && |nal| + z <= |rest|
            && rest[..|nal| + z] == nal + Zeroes(z)
            && rest[|nal| + z..] == Join(Closer(units), tail)
  {
    var z := units[0].zeros;
    var behind := [0, 0, 1] + (units[0].nal + Join(units[1..], tail));
    assert Closer(units)[1..] == units[1..];
    assert Join(Closer(units), tail) == behind;
    assert Join(units, tail) == Zeroes(z) + behind;
    TwoParts(nal, Zeroes(z), behind);
  }

  lemma TwoParts(a: seq<byte>, b: seq<byte>, c: seq<byte>)
    ensures (a + (b + c))[..|a| + |b|] == a + b && (a + (b + c))[|a| + |b|..] == c
  {
  }

  // ----- every stream is made of units -----

  datatype Parsed = Parsed(units: seq<Unit>, tail: nat)

  /** What follows a start code with `zeros` zeros in front of it. */
  function UnitsIn(rest: seq<byte>, zeros: nat): Parsed
    decreases |rest|
  {
    match FindCode(rest, 0)
    case None => Parsed([Unit(zeros, Strip(rest))], |rest| - |Strip(rest)|)
    case Some(j) =>
      var nal := Strip(rest[..j]);
      var more := UnitsIn(rest[j + 3..], j - |nal|);
      Parsed([Unit(zeros, nal)] + more.units, more.tail)
  }

  lemma {:induction false} StripSplits(s: seq<byte>)
    ensures |Strip(s)| <= |s| && s == Strip(s) + Zeroes(|s| - |Strip(s)|)
    ensures Strip(s) != [] ==> Strip(s)[|Strip(s)| - 1] != 0
  {
    if s != [] && s[|s| - 1] == 0 {
      var init := s[..|s| - 1];
      StripSplits(init);
      assert s == init + [0];
    }
  }

  lemma CleanStrip(s: seq<byte>)
    requires NoCode(s)
    ensures Clean(Strip(s))
  {
    StripSplits(s);
    forall j: nat
      ensures !CodeAt(Strip(s), j)
    {
      assert !CodeAt(s, j);
    }
  }

  lemma BeforeCode(s: seq<byte>, j: nat)
    requires FirstCode(s, j)
    ensures j + 3 <= |s| && NoCode(s[..j]) && s[j..] == [0, 0, 1] + s[j + 3..]
  {
    forall i: nat
      ensures !CodeAt(s[..j], i)
    {
      if i < j {
        assert !CodeAt(s, i);
      }
    }
  }

  lemma {:induction false} UnitsInJoin(rest: seq<byte>, zeros: nat)
    ensures var p := UnitsIn(rest, zeros);
            AllClean(p.units) && p.units != [] && Join(p.units, p.tail) == Coded(zeros, rest)
    decreases |rest|
  {
    hide FindCode, FirstCode, NoCode, Coded, Strip, Clean, Join;
    match FindCode(rest, 0)
    case None =>
      CleanStrip(rest);
      StripSplits(rest);
      JoinFirst(Unit(zeros, Strip(rest)), [], |rest| - |Strip(rest)|);
    case Some(j) =>
      BeforeCode(rest, j);
      CleanStrip(rest[..j]);
      StripSplits(rest[..j]);
      var nal := Strip(rest[..j]);
      UnitsInJoin(rest[j + 3..], j - |nal|);
      var more := UnitsIn(rest[j + 3..], j - |nal|);
      var p := UnitsIn(rest, zeros);
      JoinFirst(Unit(zeros, nal), more.units, more.tail);
      Reassemble(rest, j, nal);
  }

  lemma JoinFirst(u: Unit, more: seq<Unit>, tail: nat)
    ensures Join([u] + more, tail) == Coded(u.zeros, u.nal + Join(more, tail))
    ensures Join([], tail) == Zeroes(tail) && [u] + [] == [u]
  {
    assert ([u] + more)[1..] == more;
  }

  lemma Reassemble(rest: seq<byte>, j: nat, nal: Nal)
    requires j + 3 <= |rest| && rest[j..] == [0, 0, 1] + rest[j + 3..]
    requires |nal| <= j && rest[..j] == nal + Zeroes(j - |nal|)
    ensures nal + Coded(j - |nal|, rest[j + 3..]) == rest
  {
    assert rest == rest[..j] + rest[j..];
  }

  /** The bytes are a stream of these clean units, and split into them. */
  ghost predicate IsStream(s: seq<byte>, lead: seq<byte>, units: seq<Unit>, tail: nat) {
    NoCode(lead) && AllClean(units) && s == lead + Join(units, tail) && Split(s) == Nals(units)
  }

  lemma NoCodeNoUnits(s: seq<byte>)
    requires FindCode(s, 0).None?
    ensures IsStream(s, s, [], 0)
  {
    assert s == s + Join([], 0);
  }

  lemma CodeThenUnits(s: seq<byte>, i: nat)
    requires FindCode(s, 0) == Some(i)
    ensures i + 3 <= |s|
    ensures var p := UnitsIn(s[i + 3..], 0); IsStream(s, s[..i], p.units, p.tail)
  {
    hide FindCode, UnitsIn, NoCode, AllClean, Join, Split, Nals;
    BeforeCode(s, i);
    var p := UnitsIn(s[i + 3..], 0);
    UnitsInJoin(s[i + 3..], 0);
    assert Coded(0, s[i + 3..]) == s[i..];
    assert s == s[..i] + Join(p.units, p.tail);
    SplitInvertsJoin(s[..i], p.units, p.tail);
  }

  /**
   * Every byte string is such a stream, and its units are clean; so splitting loses nothing but
   * what precedes the first start code, and zeros.
   */
  lemma EveryStreamIsJoined(s: seq<byte>)
    ensures exists lead, units, tail :: IsStream(s, lead, units, tail)
  {
    hide IsStream, FindCode, UnitsIn;
    match FindCode(s, 0)
    case None => NoCodeNoUnits(s);
    case Some(i) => CodeThenUnits(s, i);
  }

  // ----- sorting the units -----

  const NAL_TYPE_SPS: nat := 7
  const NAL_TYPE_PPS: nat := 8

  function NalType(nal: Nal): nat
    requires nal != []
  {
    nal[0] % 32
  }

  predicate OfType(nal: Nal, t: nat) {
    nal != [] && NalType(nal) == t
  }

  predicate IsSlice(nal: Nal) {
    nal != [] && NalType(nal) != NAL_TYPE_SPS && NalType(nal) != NAL_TYPE_PPS
  }

  /** The distinct parameter sets of a type, as they first appear. */
  function SetsOf(nals: seq<Nal>, t: nat): seq<Nal> {
    if nals == [] then []
    else
      var n := |nals| - 1;
      var before := SetsOf(nals[..n], t);
      if OfType(nals[n], t) && nals[n] !in before then before + [nals[n]] else before
  }

  function SlicesOf(nals: seq<Nal>): seq<Nal> {
    if nals == [] then []
    else
      var n := |nals| - 1;
      SlicesOf(nals[..n]) + if IsSlice(nals[n]) then [nals[n]] else []
  }

  /** Everything that is no parameter set of type 7 or 8, in order. */
  function Rest(nals: seq<Nal>): seq<Nal> {
    if nals == [] then []
    else (if nals[0] != [] && nals[0][0] % 32 != 7 && nals[0][0] % 32 != 8 then [nals[0]] else []) + Rest(nals[1..])
  }

  lemma {:induction false} RestSnoc(nals: seq<Nal>, nal: Nal)
    ensures Rest(nals + [nal]) == Rest(nals) + Rest([nal])
  {
    if nals == [] {
      assert nals + [nal] == [nal];
    } else {
      assert (nals + [nal])[1..] == nals[1..] + [nal];
      RestSnoc(nals[1..], nal);
    }
  }

  lemma {:induction false} SlicesAreTheRest(nals: seq<Nal>)
    ensures SlicesOf(nals) == Rest(nals)
  {
    if nals != [] {
      var n := |nals| - 1;
      assert nals == nals[..n] + [nals[n]];
      SlicesAreTheRest(nals[..n]);
      RestSnoc(nals[..n], nals[n]);
      var one: seq<Nal> := [nals[n]];
      assert one[1..] == [] && Rest([]) == [];
    }
  }

  /** `x` is in the stream, and `y` not before it. */
  predicate Precedes(nals: seq<Nal>, x: Nal, y: Nal) {
    exists a :: 0 <= a < |nals| && nals[a] == x && y !in nals[..a + 1]
  }

  lemma PrecedesGrows(nals: seq<Nal>, nal: Nal, x: Nal, y: Nal)
    requires Precedes(nals, x, y)
    ensures Precedes(nals + [nal], x, y)
  {
    var a :| 0 <= a < |nals| && nals[a] == x && y !in nals[..a + 1];
    assert (nals + [nal])[..a + 1] == nals[..a + 1] && (nals + [nal])[a] == x;
  }

  lemma PrecedesNew(nals: seq<Nal>, x: Nal, y: Nal)
    requires x in nals && y !in nals
    ensures Precedes(nals + [y], x, y)
  {
    var a :| 0 <= a < |nals| && nals[a] == x;
    assert (nals + [y])[..a + 1] == nals[..a + 1] && (nals + [y])[a] == x;
  }

  /** All different, and in the order of their first appearance. */
  predicate InFirstSeenOrder(nals: seq<Nal>, sets: seq<Nal>) {
    forall i, j :: 0 <= i < j < |sets| ==> sets[i] != sets[j] && Precedes(nals, sets[i], sets[j])
  }

  lemma OrderGrows(nals: seq<Nal>, sets: seq<Nal>, nal: Nal)
    requires InFirstSeenOrder(nals, sets) && forall x :: x in sets ==> x in nals
    ensures InFirstSeenOrder(nals + [nal], sets)
    ensures nal !in nals ==> InFirstSeenOrder(nals + [nal], sets + [nal])
  {
    hide Precedes;
    forall i, j | 0 <= i < j < |sets|
      ensures Precedes(nals + [nal], sets[i], sets[j])
    {
      PrecedesGrows(nals, nal, sets[i], sets[j]);
    }
    if nal !in nals {
      forall i | 0 <= i < |sets|
        ensures sets[i] != nal && Precedes(nals + [nal], sets[i], nal)
      {
        assert sets[i] in sets;
        PrecedesNew(nals, sets[i], nal);
      }
    }
  }

  lemma {:induction false} SetsInOrder(nals: seq<Nal>, t: nat)
    ensures forall x :: x in SetsOf(nals, t) <==> x in nals && OfType(x, t)
    ensures InFirstSeenOrder(nals, SetsOf(nals, t))
  {
    hide OfType, InFirstSeenOrder;
    if nals == [] {
      assert InFirstSeenOrder([], []) by { NoOrder(); }
    } else {
      var n := |nals| - 1;
      SetsInOrder(nals[..n], t);
      assert nals == nals[..n] + [nals[n]];
      OrderGrows(nals[..n], SetsOf(nals[..n], t), nals[n]);
    }
  }

  /** Each set once, each in the stream, none left out, in the order of their first appearance. */
  lemma SetsAreFirstSeen(nals: seq<Nal>, t: nat)
    ensures forall x :: x in SetsOf(nals, t) <==> x in nals && x != [] && x[0] % 32 == t
    ensures InFirstSeenOrder(nals, SetsOf(nals, t))
  {
    hide SetsOf, InFirstSeenOrder;
    SetsInOrder(nals, t);
  }

  lemma NoOrder()
    ensures InFirstSeenOrder([], [])
  {
  }

  // ----- length fields -----

  /** Each unit behind its length, cut to `width` big-endian bytes. */
  function Prefixed(units: seq<Nal>, width: nat): seq<byte> {
    if units == [] then [] else BE(|units[0]|, width) + units[0] + Prefixed(units[1..], width)
  }

  /** A reader of units behind `width`-byte lengths, up to `count` of them; the rest is returned. */
  function ReadUnits(s: seq<byte>, width: nat, count: nat): Option<(seq<Nal>, seq<byte>)>
    decreases count
  {
    if count == 0 then Some(([], s))
    else if |s| < width then None
    else
      var n := FromBE(s[..width]);
      if |s| < width + n then None
      else
        var more :- ReadUnits(s[width + n..], width, count - 1);
        Some(([s[width..width + n]] + more.0, more.1))
  }

  /** The same to the end of the bytes, for four-byte lengths. */
  function ReadFramed(s: seq<byte>): Option<seq<Nal>>
    decreases |s|
  {
    if s == [] then Some([])
    else if |s| < 4 then None
    else
      var n := FromBE(s[..4]);
      if |s| < 4 + n then None
      else
        var more :- ReadFramed(s[4 + n..]);
        Some([s[4..4 + n]] + more)
  }

  predicate Below(units: seq<Nal>, limit: nat) {
    forall k :: 0 <= k < |units| ==> |units[k]| < limit
  }

  lemma {:induction false} PrefixedSnoc(units: seq<Nal>, u: Nal, width: nat)
    ensures Prefixed(units + [u], width) == Prefixed(units, width) + (BE(|u|, width) + u)
  {
    hide BE;
    if units == [] {
      assert ([] + [u])[1..] == [];
    } else {
      assert (units + [u])[1..] == units[1..] + [u];
      PrefixedSnoc(units[1..], u, width);
    }
  }

  lemma OneUnit(u: Nal, rest: seq<byte>, width: nat)
    requires |u| < Pow256(width)
    ensures var s := BE(|u|, width) + u + rest;
            && |s| >= width + |u| && FromBE(s[..width]) == |u| && s[width..width + |u|] == u && s[width + |u|..] == rest
  {
    BEInverse(|u|, width);
    hide BE, FromBE;
    var s := BE(|u|, width) + u + rest;
    assert s[..width] == BE(|u|, width);
  }

  lemma {:induction false} UnitsReadBack(units: seq<Nal>, width: nat, rest: seq<byte>)
    requires Below(units, Pow256(width))
    ensures ReadUnits(Prefixed(units, width) + rest, width, |units|) == Some((units, rest))
  {
    hide BE, FromBE, Pow256;
    if units == [] {
      assert Prefixed(units, width) + rest == rest;
    } else {
      var more := Prefixed(units[1..], width) + rest;
      Assoc(BE(|units[0]|, width) + units[0], Prefixed(units[1..], width), rest);
      OneUnit(units[0], more, width);
      UnitsReadBack(units[1..], width, rest);
      assert units == [units[0]] + units[1..];
    }
  }

  lemma {:induction false} UnitsAreBelow(s: seq<byte>, width: nat, count: nat)
    ensures ReadUnits(s, width, count).Some? ==> Below(ReadUnits(s, width, count).value.0, Pow256(width))
  {
    hide FromBE, Pow256;
    if count != 0 && |s| >= width {
      FromBEBound(s[..width]);
      var n := FromBE(s[..width]);
      if |s| >= width + n {
        UnitsAreBelow(s[width + n..], width, count - 1);
      }
    }
  }

  lemma {:induction false} FramedReads(units: seq<Nal>)
    requires Below(units, Pow256(4))
    ensures ReadFramed(Prefixed(units, 4)) == Some(units)
  {
    hide BE, FromBE, Pow256;
    if units != [] {
      var more := Prefixed(units[1..], 4);
      FramedReads(units[1..]);
      OneUnit(units[0], more, 4);
      ReadFirst(BE(|units[0]|, 4) + units[0] + more, units[0], more);
      assert units == [units[0]] + units[1..];
    }
  }

  lemma ReadFirst(s: seq<byte>, u: Nal, rest: seq<byte>)
    requires |s| >= 4 + |u| && FromBE(s[..4]) == |u| && s[4..4 + |u|] == u && s[4 + |u|..] == rest
    requires ReadFramed(rest).Some?
    ensures ReadFramed(s) == Some([u] + ReadFramed(rest).value)
  {
    hide FromBE;
  }

  lemma {:induction false} FramedAreBelow(s: seq<byte>)
    ensures ReadFramed(s).Some? ==> Below(ReadFramed(s).value, Pow256(4))
    decreases |s|
  {
    hide FromBE, Pow256;
    if |s| >= 4 {
      FromBEBound(s[..4]);
      var n := FromBE(s[..4]);
      if |s| >= 4 + n {
        FramedAreBelow(s[4 + n..]);
      }
    }
  }

  /** The four-byte lengths lead back to the units exactly if every unit is shorter than 2^32. */
  lemma FramedReadsBack(units: seq<Nal>)
    ensures ReadFramed(Prefixed(units, 4)) == Some(units) <==> Below(units, TWO_TO_THE_32)
  {
    FramedAreBelow(Prefixed(units, 4));
    assert Pow256(4) == TWO_TO_THE_32 by { Powers(); }
    hide ReadFramed;
    if Below(units, TWO_TO_THE_32) {
      FramedReads(units);
    }
  }

  lemma Powers()
    ensures Pow256(2) == 0x1_0000 && Pow256(4) == TWO_TO_THE_32
  {
    assert Pow256(1) == 256 && Pow256(3) == 256 * Pow256(2);
  }

  // ----- the configuration record -----

  function Take(units: seq<Nal>, n: nat): seq<Nal> {
    if |units| <= n then units else units[..n]
  }

  /** An `AVCDecoderConfigurationRecord`; nothing without a first SPS of at least four bytes. */
  function RecordBytes(sps: seq<Nal>, pps: seq<Nal>): seq<byte> {
    if sps == [] || |sps[0]| < 4 then []
    else
      var s, p := Take(sps, 31), Take(pps, 255);
      [1, sps[0][1], sps[0][2], sps[0][3], 0xFF, 0xE0 + |s|] + Prefixed(s, 2) + [|p|] + Prefixed(p, 2)
  }

  datatype Record = Record(profile: byte, compatibility: byte, level: byte, lengthSize: nat, sps: seq<Nal>,
                           pps: seq<Nal>)

  /** A reader of the record, by section 5.2.4.1 of ISO/IEC 14496-15. */
  function ReadRecord(s: seq<byte>): Option<Record> {
    if |s| < 6 || s[0] != 1 then None
    else
      var sps :- ReadUnits(s[6..], 2, s[5] % 32);
      if sps.1 == [] then None
      else
        var pps :- ReadUnits(sps.1[1..], 2, sps.1[0]);
        Some(Record(s[1], s[2], s[3], s[4] % 4 + 1, sps.0, pps.0))
  }

  /** Reading a record, given what its two lists read as. */
  lemma RecordFrom(head: seq<byte>, a: seq<byte>, n: byte, b: seq<byte>, sps: seq<Nal>, pps: seq<Nal>)
    requires |head| == 6 && head[0] == 1
    requires ReadUnits(a + ([n] + b), 2, head[5] % 32) == Some((sps, [n] + b)) && ReadUnits(b, 2, n) == Some((pps, []))
    ensures ReadRecord(head + a + [n] + b) == Some(Record(head[1], head[2], head[3], head[4] % 4 + 1, sps, pps))
  {
    hide ReadUnits;
    var s := head + a + [n] + b;
    assert s[6..] == a + ([n] + b);
    assert ([n] + b)[1..] == b;
  }

  lemma TakeAtMost(units: seq<Nal>, n: nat)
    ensures |Take(units, n)| <= n
  {
  }

  lemma LowFive(n: nat)
    requires n <= 31
    ensures (0xE0 + n) % 32 == n
  {
  }

  lemma RecordFits(head: seq<byte>, s: seq<Nal>, p: seq<Nal>)
    requires |s| <= 31 && |p| <= 255 && Below(s, 0x1_0000) && Below(p, 0x1_0000)
    requires |head| == 6 && head[0] == 1 && head[5] == 0xE0 + |s|
    ensures ReadRecord(head + Prefixed(s, 2) + [|p|] + Prefixed(p, 2))
         == Some(Record(head[1], head[2], head[3], head[4] % 4 + 1, s, p))
  {
    hide Prefixed, ReadUnits, ReadRecord, Below, Pow256;
    Powers();
    UnitsReadBack(s, 2, [|p|] + Prefixed(p, 2));
    UnitsReadBack(p, 2, []);
    assert Prefixed(p, 2) + [] == Prefixed(p, 2);
    LowFive(|s|);
    RecordFrom(head, Prefixed(s, 2), |p|, Prefixed(p, 2), s, p);
  }

  function Head(sps: seq<Nal>): seq<byte>
    requires sps != [] && |sps[0]| >= 4
  {
    [1, sps[0][1], sps[0][2], sps[0][3], 0xFF, 0xE0 + |Take(sps, 31)|]
  }

  lemma RecordParts(sps: seq<Nal>, pps: seq<Nal>)
    requires sps != [] && |sps[0]| >= 4
    ensures |Take(sps, 31)| <= 31 && |Take(pps, 255)| <= 255
    ensures RecordBytes(sps, pps) == Head(sps) + Prefixed(Take(sps, 31), 2) + [|Take(pps, 255)|]
            + Prefixed(Take(pps, 255), 2)
  {
    hide Prefixed;
  }

  lemma HeadBytes(sps: seq<Nal>)
    requires sps != [] && |sps[0]| >= 4
    ensures var h := Head(sps);
            |h| == 6 && h[0] == 1 && h[1] == sps[0][1] && h[2] == sps[0][2] && h[3] == sps[0][3] && h[4] % 4 + 1 == 4
            && h[5] == 0xE0 + |Take(sps, 31)|
  {
  }

  /**
   * The record states the first SPS's profile and level, and gives back the sets exactly if their
   * lengths fit 16 bits.
   */
  lemma RecordReadsBack(sps: seq<Nal>, pps: seq<Nal>)
    ensures sps == [] || |sps[0]| < 4 ==> RecordBytes(sps, pps) == []
    ensures sps != [] && |sps[0]| >= 4 ==>
              var s, p := Take(sps, 31), Take(pps, 255);
              ReadRecord(RecordBytes(sps, pps)) == Some(Record(sps[0][1], sps[0][2], sps[0][3], 4, s, p))
              <==> Below(s, 0x1_0000) && Below(p, 0x1_0000)
  {
    if sps != [] && |sps[0]| >= 4 {
      hide Take, Prefixed, ReadUnits, Below, ReadRecord, RecordBytes, Head;
      var s, p := Take(sps, 31), Take(pps, 255);
      RecordParts(sps, pps);
      HeadBytes(sps);
      if Below(s, 0x1_0000) && Below(p, 0x1_0000) {
        RecordFits(Head(sps), s, p);
      } else {
        ReadAreBelow(RecordBytes(sps, pps));
      }
    }
  }

  lemma ReadAreBelow(s: seq<byte>)
    ensures ReadRecord(s).Some? ==> Below(ReadRecord(s).value.sps, 0x1_0000) && Below(ReadRecord(s).value.pps, 0x1_0000)
  {
    Powers();
    hide ReadUnits, Below;
    if |s| >= 6 {
      UnitsAreBelow(s[6..], 2, s[5] % 32);
      var sps := ReadUnits(s[6..], 2, s[5] % 32);
      if sps.Some? && sps.value.1 != [] {
        UnitsAreBelow(sps.value.1[1..], 2, sps.value.1[0]);
      }
    }
  }

  method PushUnits(buf: seq<byte>, units: seq<Nal>) returns (out: seq<byte>)
    ensures out == buf + Prefixed(units, 2)
  {
    hide BE;
    out := buf;
    for i := 0 to |units|
      invariant out == buf + Prefixed(units[..i], 2)
    {
      assert units[..i + 1] == units[..i] + [units[i]];
      PrefixedSnoc(units[..i], units[i], 2);
      out := out + BE(|units[i]|, 2);
      out := out + units[i];
    }
    assert units[..|units|] == units;
  }

  method BuildConfigurationRecord(sps: seq<Nal>, pps: seq<Nal>) returns (out: seq<byte>)
    ensures out == RecordBytes(sps, pps)
  {
    if sps == [] {
      return [];
    }
    var first := sps[0];
    if |first| < 4 {
      return [];
    }
    var nSps := if |sps| < 31 then |sps| else 31;
    var nPps := if |pps| < 255 then |pps| else 255;
    assert sps[..nSps] == Take(sps, 31) && pps[..nPps] == Take(pps, 255);
    out := [1, first[1], first[2], first[3], 0xFF, 0xE0 + nSps % 32];
    out := PushUnits(out, sps[..nSps]);
    out := out + [nPps];
    out := PushUnits(out, pps[..nPps]);
  }

  datatype AvccRepack = AvccRepack(configRecord: seq<byte>, packetized: seq<byte>)

  function Repacked(nals: seq<Nal>): AvccRepack {
    AvccRepack(RecordBytes(SetsOf(nals, NAL_TYPE_SPS), SetsOf(nals, NAL_TYPE_PPS)), Prefixed(SlicesOf(nals), 4))
  }

  method AnnexBToAvcc(stream: seq<byte>) returns (r: AvccRepack)
    ensures r == Repacked(Split(stream))
  {
    hide Split, RecordBytes, BE, SetsOf, SlicesOf, Prefixed;
    NothingSeen();
    var spsList: seq<Nal> := [];
    var ppsList: seq<Nal> := [];
    var packetized: seq<byte> := [];
    ghost var seen: seq<Nal> := [];
    var units := new AnnexBIter(stream);
    assert seen + Split(stream) == Split(stream);
    assert stream[0..] == stream;
    while true
      invariant fresh(units) && units.data == stream && units.pos <= |stream|
      invariant Split(stream) == seen + Split(stream[units.pos..])
      invariant spsList == SetsOf(seen, NAL_TYPE_SPS) && ppsList == SetsOf(seen, NAL_TYPE_PPS)
      invariant packetized == Prefixed(SlicesOf(seen), 4)
      decreases |stream| - units.pos
    {
      var next := units.Next();
      if next.None? {
        assert seen + [] == seen;
        break;
      }
      var nal := next.value;
      SeenMore(seen, nal);
      MoveUnit(seen, nal, Split(stream[units.pos..]));
      seen := seen + [nal];
      if nal == [] {
        continue;
      }
      var nalType := NalType(nal);
      if nalType == NAL_TYPE_SPS {
        if nal !in spsList {
          spsList := spsList + [nal];
        }
      } else if nalType == NAL_TYPE_PPS {
        if nal !in ppsList {
          ppsList := ppsList + [nal];
        }
      } else {
        Assoc(packetized, BE(|nal|, 4), nal);
        packetized := packetized + BE(|nal|, 4);
        packetized := packetized + nal;
      }
    }
    var configRecord := BuildConfigurationRecord(spsList, ppsList);
    return AvccRepack(configRecord, packetized);
  }

  lemma NothingSeen()
    ensures (forall t :: SetsOf([], t) == []) && SlicesOf([]) == [] && Prefixed([], 4) == []
  {
  }

  lemma MoveUnit(a: seq<Nal>, x: Nal, b: seq<Nal>)
    ensures a + ([x] + b) == a + [x] + b
  {
  }

  lemma SeenMore(seen: seq<Nal>, nal: Nal)
    ensures forall t :: SetsOf(seen + [nal], t)
                     == if OfType(nal, t) && nal !in SetsOf(seen, t) then SetsOf(seen, t) + [nal] else SetsOf(seen, t)
    ensures SlicesOf(seen + [nal]) == if IsSlice(nal) then SlicesOf(seen) + [nal] else SlicesOf(seen)
    ensures Prefixed(SlicesOf(seen) + [nal], 4) == Prefixed(SlicesOf(seen), 4) + (BE(|nal|, 4) + nal)
  {
    hide BE;
    assert (seen + [nal])[..|seen|] == seen;
    PrefixedSnoc(SlicesOf(seen), nal, 4);
  }

  /**
   * Repacking a stream of clean units keeps them all: the four-byte lengths lead to the slices in
   * order, and the record to the first-seen parameter sets, up to 31 and 255 of them.
   */
  lemma RepackedReadsBack(lead: seq<byte>, units: seq<Unit>, tail: nat)
    requires NoCode(lead) && AllClean(units)
    ensures var nals, r := Nals(units), Repacked(Split(lead + Join(units, tail)));
            var sps, pps := SetsOf(nals, 7), SetsOf(nals, 8);
            && (ReadFramed(r.packetized) == Some(Rest(nals)) <==> Below(Rest(nals), TWO_TO_THE_32))
            && (r.configRecord == [] <==> sps == [] || |sps[0]| < 4)
            && (sps != [] && |sps[0]| >= 4 ==>
                  (ReadRecord(r.configRecord)
                   == Some(Record(sps[0][1], sps[0][2], sps[0][3], 4, Take(sps, 31), Take(pps, 255)))
                   <==> Below(Take(sps, 31), 0x1_0000) && Below(Take(pps, 255), 0x1_0000)))
  {
    hide Split, Join, Prefixed, ReadFramed, ReadRecord, SetsOf, SlicesOf, Rest, Below, Take;
    var nals := Nals(units);
    SplitInvertsJoin(lead, units, tail);
    FramedReadsBack(SlicesOf(nals));
    SlicesAreTheRest(nals);
    RecordReadsBack(SetsOf(nals, NAL_TYPE_SPS), SetsOf(nals, NAL_TYPE_PPS));
  }
}
