/** Reading Tags back, with the IDs and the defaults of section 5.1.8 of RFC 9559. */
module TagReader {
  import opened Wrappers
  import opened Bytes
  import opened Ids
  import opened Elements
  import opened Splitter
  import opened TreeReader
  import opened Tags
  import opened TagWriter

  // ----- a reader -----

  function ReadNats(bodies: seq<seq<byte>>): seq<nat> {
    if bodies == [] then []
    else
      ReadNats(bodies[..|bodies| - 1])
      + match UintBody(bodies[|bodies| - 1])
        case None => []
        case Some(v) => [v]
  }

  /** TargetTypeValue, TargetType, and the UIDs of tracks, editions, chapters, attachments and BlockAdditions. */
  function ReadTargets(body: seq<byte>): Targets {
    var raws := Kids(body);
    Targets(NatIn(raws, 0x68CA), BytesIn(raws, 0x63CA, []), ReadNats(All(raws, 0x63C5)), ReadNats(All(raws, 0x63C9)),
            ReadNats(All(raws, 0x63C4)), ReadNats(All(raws, 0x63C6)), ReadNats(All(raws, 0x63C7)))
  }

  /** TagString or TagBinary. */
  function ReadValue(raws: seq<Raw>): TagValue {
    match Find(raws, 0x4487)
    case Some(text) => Text(text)
    case None =>
      match Find(raws, 0x4485)
      case Some(data) => Binary(data)
      case None => NoValue
  }

  /** "und", the default of TagLanguage. */
  const UNDETERMINED: seq<byte> := [0x75, 0x6E, 0x64]

  /** TagName, its value, TagLanguage, TagLanguageBCP47, TagDefault (1 if absent), and the tags nested in it. */
  function ReadSimple(body: seq<byte>): SimpleTag
    decreases |body|, 1
  {
    var raws := Kids(body);
    SimpleTag(BytesIn(raws, 0x45A3, []), ReadValue(raws), BytesIn(raws, 0x447A, UNDETERMINED),
              BytesIn(raws, 0x447B, []),
              NatOr(raws, 0x4484, 1) != 0, ReadSimples(Bodies(body, 0x67C8), |body|))
  }

  function ReadSimples(bodies: seq<seq<byte>>, n: nat): seq<SimpleTag>
    requires forall i :: 0 <= i < |bodies| ==> |bodies[i]| < n
    decreases n, 0, |bodies|
  {
    if bodies == [] then [] else [ReadSimple(bodies[0])] + ReadSimples(bodies[1..], n)
  }

  function ReadTag(body: seq<byte>): Tag {
    Tag(ReadTargets(BytesIn(Kids(body), 0x63C0, [])), ReadSimples(Bodies(body, 0x67C8), |body|))
  }

  function ReadTagList(bodies: seq<seq<byte>>): seq<Tag> {
    if bodies == [] then [] else [ReadTag(bodies[0])] + ReadTagList(bodies[1..])
  }

  function ReadTags(body: seq<byte>): seq<Tag> {
    ReadTagList(All(Kids(body), 0x7373))
  }

  // ----- what it should find -----

  /** A zero stands for all of its kind, and so does an empty list. */
  function NonZero(vs: seq<nat>): seq<nat> {
    if vs == [] then []
    else NonZero(vs[..|vs| - 1]) + if vs[|vs| - 1] != 0 then [vs[|vs| - 1]] else []
  }

  function TargetsTold(t: Targets): Targets {
    Targets(t.typeValue, t.typeName, NonZero(t.tracks), NonZero(t.editions), NonZero(t.chapters),
            NonZero(t.attachments),
            NonZero(t.additionIds))
  }

  /** A BCP 47 tag replaces the language; without either the language is undetermined. */
  function SimpleTold(st: SimpleTag): SimpleTag
    decreases st, 1
  {
    SimpleTag(st.name, st.value, if st.bcp47 != [] || st.language == [] then UNDETERMINED else st.language, st.bcp47,
              st.isDefault, SimplesTold(st.children))
  }

  function SimplesTold(sts: seq<SimpleTag>): seq<SimpleTag>
    decreases sts, 0
  {
    if sts == [] then [] else [SimpleTold(sts[0])] + SimplesTold(sts[1..])
  }

  function TagTold(t: Tag): Tag {
    Tag(TargetsTold(t.targets), SimplesTold(t.simple))
  }

  function TagsTold(tags: seq<Tag>): (ts: seq<Tag>)
    ensures |ts| == |tags| && forall i :: 0 <= i < |ts| ==> ts[i] == TagTold(tags[i])
  {
    if tags == [] then [] else [TagTold(tags[0])] + TagsTold(tags[1..])
  }

  // ----- targets -----

  lemma ReadNatsMore(bodies: seq<seq<byte>>, body: seq<byte>)
    ensures ReadNats(bodies + [body])
         == ReadNats(bodies) + match UintBody(body) case None => [] case Some(v) => [v]
  {
    assert (bodies + [body])[..|bodies + [body]| - 1] == bodies;
  }

  lemma NoNats()
    ensures ReadNats([]) == []
  {
  }

  lemma FrontUnsigned(vs: seq<nat>)
    requires AllUnsigned(vs) && vs != []
    ensures AllUnsigned(vs[..|vs| - 1]) && vs[|vs| - 1] < TWO_TO_THE_64
  {
  }

  lemma {:induction false} SelectorsRead(id: nat, vs: seq<nat>)
    requires AllUnsigned(vs)
    ensures Only(Selectors(id, vs), id) && Sized(Selectors(id, vs))
    ensures ReadNats(Fields(Selectors(id, vs), id)) == NonZero(vs)
  {
    hide Uint, Body, UintBody, Find, AllUnsigned, ReadNats;
    if vs == [] {
      NothingThere(id);
      NoNats();
    } else {
      var before, v := vs[..|vs| - 1], vs[|vs| - 1];
      FrontUnsigned(vs);
      SelectorsRead(id, before);
      UintsAreLeaves(id, v);
      FieldSum(Selectors(id, before), Maybe(v != 0, Uint(id, v)), id);
      FieldMaybe(v != 0, Uint(id, v), id);
      UintBodyReads(id, v);
      if v != 0 {
        ReadNatsMore(Fields(Selectors(id, before), id), Body(Uint(id, v)));
      } else {
        assert Fields(Selectors(id, before), id) + [] == Fields(Selectors(id, before), id);
        assert NonZero(before) + [] == NonZero(before);
      }
    }
  }

  datatype TargetParts = TargetParts(
    value: seq<Elem>, name: seq<Elem>, tracks: seq<Elem>, editions: seq<Elem>, chapters: seq<Elem>,
    attachments: seq<Elem>, additions: seq<Elem>)

  function TargetPartsOf(t: Targets): TargetParts {
    TargetParts(
      Maybe(t.typeValue.Some?, Uint(TARGET_TYPE_VALUE, if t.typeValue.Some? then t.typeValue.value else 0)),
      Maybe(t.typeName != [], Bin(TARGET_TYPE, t.typeName)),
      Selectors(TAG_TRACK_UID, t.tracks), Selectors(TAG_EDITION_UID, t.editions),
      Selectors(TAG_CHAPTER_UID, t.chapters),
      Selectors(TAG_ATTACHMENT_UID, t.attachments), Selectors(TAG_BLOCK_ADD_ID_VALUE, t.additionIds))
  }

  function TargetsJoined(p: TargetParts): seq<Elem> {
    p.value + p.name + p.tracks + p.editions + p.chapters + p.attachments + p.additions
  }

  predicate TargetsApart(p: TargetParts) {
    && Only(p.value, 0x68CA) && Only(p.name, 0x63CA) && Only(p.tracks, 0x63C5) && Only(p.editions, 0x63C9)
    && Only(p.chapters, 0x63C4) && Only(p.attachments, 0x63C6) && Only(p.additions, 0x63C7)
  }

  function TargetPart(p: TargetParts, id: nat): seq<Elem> {
    if id == 0x68CA then p.value
    else if id == 0x63CA then p.name
    else if id == 0x63C5 then p.tracks
    else if id == 0x63C9 then p.editions
    else if id == 0x63C4 then p.chapters
    else if id == 0x63C6 then p.attachments
    else if id == 0x63C7 then p.additions
    else []
  }

  lemma TargetField(p: TargetParts, id: nat)
    requires TargetsApart(p)
    ensures Field(TargetsJoined(p), id) == Field(TargetPart(p, id), id)
    ensures Fields(TargetsJoined(p), id) == Fields(TargetPart(p, id), id)
  {
    hide Field, Fields, Only;
    NothingThere(id);
    FieldSum(p.value + p.name + p.tracks + p.editions + p.chapters + p.attachments, p.additions, id);
    FieldSum(p.value + p.name + p.tracks + p.editions + p.chapters, p.attachments, id);
    FieldSum(p.value + p.name + p.tracks + p.editions, p.chapters, id);
    FieldSum(p.value + p.name + p.tracks, p.editions, id);
    FieldSum(p.value + p.name, p.tracks, id);
    FieldSum(p.value, p.name, id);
    OnlyField(p.value, 0x68CA, id);
    OnlyField(p.name, 0x63CA, id);
    OnlyField(p.tracks, 0x63C5, id);
    OnlyField(p.editions, 0x63C9, id);
    OnlyField(p.chapters, 0x63C4, id);
    OnlyField(p.attachments, 0x63C6, id);
    OnlyField(p.additions, 0x63C7, id);
  }

  lemma TargetsSized(p: TargetParts)
    requires Sized(p.value) && Sized(p.name) && Sized(p.tracks) && Sized(p.editions) && Sized(p.chapters)
             && Sized(p.attachments) && Sized(p.additions)
    ensures Sized(TargetsJoined(p))
  {
    hide Sized;
    SizedSum(p.value, p.name);
    SizedSum(p.value + p.name, p.tracks);
    SizedSum(p.value + p.name + p.tracks, p.editions);
    SizedSum(p.value + p.name + p.tracks + p.editions, p.chapters);
    SizedSum(p.value + p.name + p.tracks + p.editions + p.chapters, p.attachments);
    SizedSum(p.value + p.name + p.tracks + p.editions + p.chapters + p.attachments, p.additions);
  }

  lemma TypeReads(v: Option<nat>)
    requires v.Some? ==> v.value < TWO_TO_THE_64
    ensures var part := Maybe(v.Some?, Uint(TARGET_TYPE_VALUE, if v.Some? then v.value else 0));
            NatIn(RawsOf(part), 0x68CA) == v && Only(part, 0x68CA) && Sized(part)
  {
    hide Uint, Body, UintBody;
    var value := if v.Some? then v.value else 0;
    UintsAreLeaves(TARGET_TYPE_VALUE, value);
    FieldMaybe(v.Some?, Uint(TARGET_TYPE_VALUE, value), 0x68CA);
    UintBodyReads(TARGET_TYPE_VALUE, value);
  }

  lemma NameReads(id: nat, s: seq<byte>)
    ensures var part := Maybe(s != [], Bin(id, s));
            BytesIn(RawsOf(part), id, []) == s && Only(part, id) && Sized(part)
  {
    FieldMaybe(s != [], Bin(id, s), id);
  }

  lemma TargetsRead(t: Targets)
    requires TypedTargets(t) && Fits(Master(TARGETS, TargetKids(t)))
    ensures ReadTargets(Body(Master(TARGETS, TargetKids(t)))) == TargetsTold(t)
  {
    hide Uint, Bin, Body, Find, All, Fits, FitAll, Selectors, ReadNats, NonZero, Maybe, Kids, RawsOf, UintBody,
      AllUnsigned, Sized, Only;
    var p := TargetPartsOf(t);
    assert TargetKids(t) == TargetsJoined(p);
    TypeReads(t.typeValue);
    NameReads(TARGET_TYPE, t.typeName);
    SelectorsRead(TAG_TRACK_UID, t.tracks);
    SelectorsRead(TAG_EDITION_UID, t.editions);
    SelectorsRead(TAG_CHAPTER_UID, t.chapters);
    SelectorsRead(TAG_ATTACHMENT_UID, t.attachments);
    SelectorsRead(TAG_BLOCK_ADD_ID_VALUE, t.additionIds);
    TargetsSized(p);
    MasterKids(TARGETS, TargetsJoined(p));
    TargetField(p, 0x68CA);
    TargetField(p, 0x63CA);
    TargetField(p, 0x63C5);
    TargetField(p, 0x63C9);
    TargetField(p, 0x63C4);
    TargetField(p, 0x63C6);
    TargetField(p, 0x63C7);
  }

  // ----- simple tags -----

  /** The children of a SimpleTag in front of the ones nested in it. */
  function OwnKids(st: SimpleTag): seq<Elem> {
    [Bin(TAG_NAME, st.name)] + LanguageKids(st) + Maybe(!st.isDefault, Uint(TAG_DEFAULT, 0)) + ValueKids(st.value)
  }

  lemma LanguageField(st: SimpleTag, id: nat)
    ensures Field(LanguageKids(st), id)
         == if id == 0x447B && st.bcp47 != [] then Some(st.bcp47)
            else if id == 0x447A && st.bcp47 == [] && st.language != [] && st.language != UNDETERMINED
            then Some(st.language) else None
    ensures Fields(LanguageKids(st), 0x67C8) == [] && Sized(LanguageKids(st))
  {
    if st.bcp47 != [] {
      FieldOne(Bin(TAG_LANGUAGE_BCP47, st.bcp47), id);
      FieldOne(Bin(TAG_LANGUAGE_BCP47, st.bcp47), 0x67C8);
    } else {
      var present := st.language != [] && st.language != UND_TEXT;
      FieldMaybe(present, Bin(TAG_LANGUAGE, st.language), id);
      FieldMaybe(present, Bin(TAG_LANGUAGE, st.language), 0x67C8);
    }
  }

  lemma ValueField(v: TagValue, id: nat)
    ensures Field(ValueKids(v), id)
         == if id == 0x4487 && v.Text? then Some(v.text) else if id == 0x4485 && v.Binary? then Some(v.data) else None
    ensures Fields(ValueKids(v), 0x67C8) == [] && Sized(ValueKids(v))
  {
    match v
    case Text(s) =>
      FieldOne(Bin(TAG_STRING, s), id);
      FieldOne(Bin(TAG_STRING, s), 0x67C8);
    case Binary(s) =>
      FieldOne(Bin(TAG_BINARY, s), id);
      FieldOne(Bin(TAG_BINARY, s), 0x67C8);
    case NoValue =>
      NothingThere(id);
      NothingThere(0x67C8);
  }

  /** Where the fields of a SimpleTag are found. */
  lemma OwnField(st: SimpleTag, id: nat)
    ensures Field(OwnKids(st), id)
         == if id == 0x45A3 then Some(st.name)
            else if id == 0x4484 then if st.isDefault then None else Some(Body(Uint(TAG_DEFAULT, 0)))
            else if id == 0x447A || id == 0x447B then Field(LanguageKids(st), id)
            else Field(ValueKids(st.value), id)
    ensures Fields(OwnKids(st), 0x67C8) == [] && Sized(OwnKids(st))
  {
    hide LanguageKids, ValueKids, Uint, Field, Fields, Sized;
    var a, b, c := [Bin(TAG_NAME, st.name)], LanguageKids(st), Maybe(!st.isDefault, Uint(TAG_DEFAULT, 0));
    var d := ValueKids(st.value);
    UintsAreLeaves(TAG_DEFAULT, 0);
    LanguageField(st, id);
    ValueField(st.value, id);
    SizedOne(Bin(TAG_NAME, st.name));
    SizedMaybe(!st.isDefault, Uint(TAG_DEFAULT, 0));
    SizedSum(a, b);
    SizedSum(a + b, c);
    SizedSum(a + b + c, d);
    OwnSum(a, b, c, d, id);
    OwnSum(a, b, c, d, 0x67C8);
    FieldOne(a[0], id);
    FieldOne(a[0], 0x67C8);
    FieldMaybe(!st.isDefault, Uint(TAG_DEFAULT, 0), id);
    FieldMaybe(!st.isDefault, Uint(TAG_DEFAULT, 0), 0x67C8);
  }

  lemma OwnSum(a: seq<Elem>, b: seq<Elem>, c: seq<Elem>, d: seq<Elem>, id: nat)
    ensures Field(a + b + c + d, id) == First(First(First(Field(a, id), Field(b, id)), Field(c, id)), Field(d, id))
    ensures Fields(a + b + c + d, id) == Fields(a, id) + Fields(b, id) + Fields(c, id) + Fields(d, id)
  {
    hide Field, Fields;
    FieldSum(a + b + c, d, id);
    FieldSum(a + b, c, id);
    FieldSum(a, b, id);
  }

  lemma SizedOne(e: Elem)
    requires !e.Open?
    ensures Sized([e])
  {
  }

  lemma SizedMaybe(present: bool, e: Elem)
    requires !e.Open?
    ensures Sized(Maybe(present, e))
  {
  }

  lemma NestedAreSized(sts: seq<SimpleTag>)
    ensures Sized(SimpleElems(sts)) && Only(SimpleElems(sts), 0x67C8)
  {
    hide SimpleKids;
  }

  /** A SimpleTag's fields, with the nested ones behind them. */
  lemma SimpleField(st: SimpleTag, id: nat)
    requires id != 0x67C8
    ensures Field(SimpleKids(st), id) == Field(OwnKids(st), id)
    ensures Fields(SimpleKids(st), 0x67C8) == Fields(SimpleElems(st.children), 0x67C8)
    ensures Sized(SimpleKids(st))
  {
    hide OwnKids, SimpleElems, Field, Fields, Sized;
    var own, nested := OwnKids(st), SimpleElems(st.children);
    assert SimpleKids(st) == own + nested by { KidsAre(st); }
    NestedAreSized(st.children);
    OwnField(st, id);
    SizedSum(own, nested);
    FieldSum(own, nested, id);
    FieldSum(own, nested, 0x67C8);
    OnlyField(nested, 0x67C8, id);
    assert [] + Fields(nested, 0x67C8) == Fields(nested, 0x67C8);
  }

  lemma KidsAre(st: SimpleTag)
    ensures SimpleKids(st) == OwnKids(st) + SimpleElems(st.children)
  {
  }

  /** A SimpleTag reads back with everything nested in it. */
  lemma {:induction false} SimpleReads(st: SimpleTag)
    requires Fits(Master(SIMPLE_TAG, SimpleKids(st)))
    ensures ReadSimple(Body(Master(SIMPLE_TAG, SimpleKids(st)))) == SimpleTold(st)
    decreases st, 1
  {
    hide SimpleKids, Fits, FitAll, Kids, Find, UintBody, Uint, OwnKids, ValueKids, LanguageKids, SimpleElems, All,
      Sized, SimplesTold, ReadSimples;
    var body := Body(Master(SIMPLE_TAG, SimpleKids(st)));
    SimpleField(st, 0x45A3);
    SimpleField(st, 0x4487);
    SimpleField(st, 0x4485);
    SimpleField(st, 0x447A);
    SimpleField(st, 0x447B);
    SimpleField(st, 0x4484);
    MasterKids(SIMPLE_TAG, SimpleKids(st));
    OwnField(st, 0x45A3);
    OwnField(st, 0x4487);
    OwnField(st, 0x4485);
    OwnField(st, 0x447A);
    OwnField(st, 0x447B);
    OwnField(st, 0x4484);
    LanguageField(st, 0x447A);
    LanguageField(st, 0x447B);
    ValueField(st.value, 0x4487);
    ValueField(st.value, 0x4485);
    UintBodyReads(TAG_DEFAULT, 0);
    assert Bodies(body, 0x67C8) == Fields(SimpleElems(st.children), 0x67C8);
    NestedFit(st);
    SimplesRead(st.children, |body|);
  }

  lemma NestedFit(st: SimpleTag)
    requires FitAll(SimpleKids(st))
    ensures FitAll(SimpleElems(st.children))
  {
    KidsAre(st);
    hide FitAll, SimpleKids, OwnKids, SimpleElems;
    FitAppend(OwnKids(st), SimpleElems(st.children));
  }

  lemma {:induction false} SimplesRead(sts: seq<SimpleTag>, n: nat)
    requires FitAll(SimpleElems(sts))
    requires forall i :: 0 <= i < |Fields(SimpleElems(sts), 0x67C8)| ==> |Fields(SimpleElems(sts), 0x67C8)[i]| < n
    ensures ReadSimples(Fields(SimpleElems(sts), 0x67C8), n) == SimplesTold(sts)
    decreases sts, 0
  {
    hide SimpleKids, Fits, Body, ReadSimple, SimpleTold, Find;
    if sts == [] {
      NothingThere(0x67C8);
    } else {
      var first, rest := Master(SIMPLE_TAG, SimpleKids(sts[0])), SimpleElems(sts[1..]);
      assert SimpleElems(sts) == [first] + rest;
      hide SimpleElems;
      FitAppend([first], rest);
      FitAt([first], 0);
      SimpleReads(sts[0]);
      FieldSum([first], rest, 0x67C8);
      FieldOne(first, 0x67C8);
      var bodies := Fields(rest, 0x67C8);
      assert Fields(SimpleElems(sts), 0x67C8) == [Body(first)] + bodies;
      assert ([Body(first)] + bodies)[1..] == bodies;
      forall i | 0 <= i < |bodies|
        ensures |bodies[i]| < n
      {
        assert bodies[i] == ([Body(first)] + bodies)[i + 1];
      }
      SimplesRead(sts[1..], n);
    }
  }

  // ----- tags -----

  lemma TagReads(t: Tag)
    requires TypedTargets(t.targets) && Fits(TagElem(t))
    ensures ReadTag(Body(TagElem(t))) == TagTold(t)
  {
    hide TargetKids, Fits, FitAll, Kids, Find, SimpleElems, All, Sized, SimplesTold, ReadSimples, ReadTargets,
      TypedTargets, TargetsTold;
    var targets, simple := Master(TARGETS, TargetKids(t.targets)), SimpleElems(t.simple);
    assert TagKids(t) == [targets] + simple;
    NestedAreSized(t.simple);
    SizedOne(targets);
    SizedSum([targets], simple);
    MasterKids(TAG, [targets] + simple);
    FitAppend([targets], simple);
    FitAt([targets], 0);
    FieldSum([targets], simple, 0x63C0);
    FieldSum([targets], simple, 0x67C8);
    FieldOne(targets, 0x63C0);
    FieldOne(targets, 0x67C8);
    TargetsRead(t.targets);
    assert [] + Fields(simple, 0x67C8) == Fields(simple, 0x67C8);
    assert Bodies(Body(TagElem(t)), 0x67C8) == Fields(simple, 0x67C8);
    SimplesRead(t.simple, |Body(TagElem(t))|);
  }

  /** Tags of any depth read back, zeros left out and the languages in their normal form. */
  lemma {:induction false} TagsRead(tags: seq<Tag>)
    requires TypedTags(tags) && FitAll(TagElems(tags))
    ensures Sized(TagElems(tags)) && ReadTagList(Fields(TagElems(tags), 0x7373)) == TagsTold(tags)
  {
    hide TagKids, Fits, ReadTag, TagTold, Find, TypedTargets;
    if tags == [] {
      NothingThere(0x7373);
    } else {
      var first, rest := TagElem(tags[0]), TagElems(tags[1..]);
      assert TagElems(tags) == [first] + rest;
      FitAppend([first], rest);
      FitAt([first], 0);
      TagReads(tags[0]);
      assert forall i :: 0 <= i < |tags| - 1 ==> tags[1..][i] == tags[i + 1];
      TagsRead(tags[1..]);
      FieldSum([first], rest, 0x7373);
      FieldOne(first, 0x7373);
      assert ([Body(first)] + Fields(rest, 0x7373))[1..] == Fields(rest, 0x7373);
    }
  }
}
