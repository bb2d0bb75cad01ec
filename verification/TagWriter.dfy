/** The loops that write Tags. */
module TagWriter {
  import opened Wrappers
  import opened Bytes
  import opened Ebml
  import opened Ids
  import opened Elements
  import opened Tags
  import opened Muxer
  import opened BlockGroups

  predicate AllUnsigned(vs: seq<nat>) {
    forall i :: 0 <= i < |vs| ==> vs[i] < TWO_TO_THE_64
  }

  predicate TypedTargets(t: Targets) {
    && (t.typeValue.Some? ==> t.typeValue.value < TWO_TO_THE_64)
    && AllUnsigned(t.tracks) && AllUnsigned(t.editions) && AllUnsigned(t.chapters) && AllUnsigned(t.attachments)
    && AllUnsigned(t.additionIds)
  }

  /** The numbers are 64-bit ones. */
  predicate TypedTags(tags: seq<Tag>) {
    forall i :: 0 <= i < |tags| ==> TypedTargets(tags[i].targets)
  }

  predicate TagsFit(tags: seq<Tag>) {
    FitAll(TagElems(tags)) && TypedTags(tags)
  }

  method WriteSelectors(buf: seq<byte>, id: nat, vs: seq<nat>) returns (out: seq<byte>)
    requires ValidId(id) && AllUnsigned(vs)
    ensures out == buf + SerAll(Selectors(id, vs))
  {
    hide Ser, SerAll, Uint, Maybe, MaybeBytes;
    NothingWritten();
    out := buf;
    assert buf + [] == buf;
    for i := 0 to |vs|
      invariant out == buf + SerAll(Selectors(id, vs[..i]))
    {
      assert vs[..i + 1][..i] == vs[..i];
      MaybeSnoc(Selectors(id, vs[..i]), vs[i] != 0, Uint(id, vs[i]));
      Assoc(buf, SerAll(Selectors(id, vs[..i])), MaybeBytes(vs[i] != 0, Uint(id, vs[i])));
      out := WriteOptionalUint(out, id, vs[i] != 0, vs[i]);
    }
    assert vs[..|vs|] == vs;
  }

  function TypeValue(t: Targets): nat {
    if t.typeValue.Some? then t.typeValue.value else 0
  }

  lemma TargetBytes(t: Targets)
    ensures SerAll(TargetKids(t))
         == [] + MaybeBytes(t.typeValue.Some?, Uint(TARGET_TYPE_VALUE, TypeValue(t)))
            + MaybeBytes(t.typeName != [], Bin(TARGET_TYPE, t.typeName))
            + SerAll(Selectors(TAG_TRACK_UID, t.tracks)) + SerAll(Selectors(TAG_EDITION_UID, t.editions))
            + SerAll(Selectors(TAG_CHAPTER_UID, t.chapters)) + SerAll(Selectors(TAG_ATTACHMENT_UID, t.attachments))
            + SerAll(Selectors(TAG_BLOCK_ADD_ID_VALUE, t.additionIds))
  {
    hide Ser, SerAll, Uint, Maybe, MaybeBytes, Selectors;
    var value, name := Uint(TARGET_TYPE_VALUE, TypeValue(t)), Bin(TARGET_TYPE, t.typeName);
    var s1 := Maybe(t.typeValue.Some?, value);
    var s2 := s1 + Maybe(t.typeName != [], name);
    var s3 := s2 + Selectors(TAG_TRACK_UID, t.tracks);
    var s4 := s3 + Selectors(TAG_EDITION_UID, t.editions);
    var s5 := s4 + Selectors(TAG_CHAPTER_UID, t.chapters);
    var s6 := s5 + Selectors(TAG_ATTACHMENT_UID, t.attachments);
    NothingWritten();
    MaybeFirst(t.typeValue.Some?, value);
    assert [] + SerAll(s1) == SerAll(s1);
    MaybeSnoc(s1, t.typeName != [], name);
    SerAppend(s2, Selectors(TAG_TRACK_UID, t.tracks));
    SerAppend(s3, Selectors(TAG_EDITION_UID, t.editions));
    SerAppend(s4, Selectors(TAG_CHAPTER_UID, t.chapters));
    SerAppend(s5, Selectors(TAG_ATTACHMENT_UID, t.attachments));
    SerAppend(s6, Selectors(TAG_BLOCK_ADD_ID_VALUE, t.additionIds));
  }

  lemma TypeNameFits(t: Targets)
    requires FitAll(TargetKids(t)) && t.typeName != []
    ensures |t.typeName| < SIZE_LIMIT
  {
    hide Fits, FitAll, Uint, Maybe, Selectors;
    var value, name := Uint(TARGET_TYPE_VALUE, TypeValue(t)), Bin(TARGET_TYPE, t.typeName);
    var s1 := Maybe(t.typeValue.Some?, value);
    var s2 := s1 + Maybe(t.typeName != [], name);
    var s3 := s2 + Selectors(TAG_TRACK_UID, t.tracks);
    var s4 := s3 + Selectors(TAG_EDITION_UID, t.editions);
    var s5 := s4 + Selectors(TAG_CHAPTER_UID, t.chapters);
    FitAppend(s5 + Selectors(TAG_ATTACHMENT_UID, t.attachments), Selectors(TAG_BLOCK_ADD_ID_VALUE, t.additionIds));
    FitAppend(s5, Selectors(TAG_ATTACHMENT_UID, t.attachments));
    FitAppend(s4, Selectors(TAG_CHAPTER_UID, t.chapters));
    FitAppend(s3, Selectors(TAG_EDITION_UID, t.editions));
    FitAppend(s2, Selectors(TAG_TRACK_UID, t.tracks));
    FitAppend(s1, Maybe(t.typeName != [], name));
    MaybeFits(true, name);
    LeafParts(TARGET_TYPE, t.typeName);
  }

  method BuildTargets(t: Targets) returns (out: seq<byte>)
    requires TypedTargets(t) && FitAll(TargetKids(t))
    ensures out == SerAll(TargetKids(t))
  {
    TargetBytes(t);
    if t.typeName != [] {
      TypeNameFits(t);
    }
    hide Ser, SerAll, Uint, MaybeBytes, Selectors, FitAll;
    out := WriteOptionalUint([], TARGET_TYPE_VALUE, t.typeValue.Some?, TypeValue(t));
    out := WriteOptionalBytes(out, TARGET_TYPE, if t.typeName != [] then Some(t.typeName) else None);
    EmptyIsNone(t.typeName);
    out := WriteSelectors(out, TAG_TRACK_UID, t.tracks);
    out := WriteSelectors(out, TAG_EDITION_UID, t.editions);
    out := WriteSelectors(out, TAG_CHAPTER_UID, t.chapters);
    out := WriteSelectors(out, TAG_ATTACHMENT_UID, t.attachments);
    out := WriteSelectors(out, TAG_BLOCK_ADD_ID_VALUE, t.additionIds);
  }

  lemma EmptyIsNone(name: seq<byte>)
    ensures var v := if name != [] then Some(name) else None;
            MaybeBytes(v.Some?, Bin(TARGET_TYPE, BytesOr(v))) == MaybeBytes(name != [], Bin(TARGET_TYPE, name))
  {
    hide Ser;
  }

  /** The children of a SimpleTag in front of the nested ones. */
  function SimpleStart(st: SimpleTag): seq<Elem> {
    [Bin(TAG_NAME, st.name)] + LanguageKids(st) + Maybe(!st.isDefault, Uint(TAG_DEFAULT, 0)) + ValueKids(st.value)
  }

  method BuildSimpleStart(st: SimpleTag) returns (out: seq<byte>)
    requires FitAll(SimpleStart(st))
    ensures out == SerAll(SimpleStart(st))
  {
    hide Ser, SerAll, Uint, Fits, FitAll, Maybe, MaybeBytes, LanguageKids, ValueKids;
    var name := [Bin(TAG_NAME, st.name)];
    var s2 := name + LanguageKids(st);
    var s3 := s2 + Maybe(!st.isDefault, Uint(TAG_DEFAULT, 0));
    FitAppend(s3, ValueKids(st.value));
    FitAppend(s2, Maybe(!st.isDefault, Uint(TAG_DEFAULT, 0)));
    FitAppend(name, LanguageKids(st));
    FitAt(name, 0);
    LeafParts(TAG_NAME, st.name);
    SerOne(Bin(TAG_NAME, st.name));
    SerAppend(name, LanguageKids(st));
    MaybeSnoc(s2, !st.isDefault, Uint(TAG_DEFAULT, 0));
    SerAppend(s3, ValueKids(st.value));
    out := WriteBytesElement([], TAG_NAME, st.name);
    assert [] + Ser(Bin(TAG_NAME, st.name)) == Ser(Bin(TAG_NAME, st.name));
    out := WriteLanguage(out, st);
    out := WriteOptionalUint(out, TAG_DEFAULT, !st.isDefault, 0);
    out := WriteValue(out, st.value);
  }

  method WriteLanguage(buf: seq<byte>, st: SimpleTag) returns (out: seq<byte>)
    requires FitAll(LanguageKids(st))
    ensures out == buf + SerAll(LanguageKids(st))
  {
    hide Ser, SerAll, Fits, FitAll;
    NothingWritten();
    out := buf;
    if st.bcp47 != [] {
      FitAt(LanguageKids(st), 0);
      LeafParts(TAG_LANGUAGE_BCP47, st.bcp47);
      SerOne(Bin(TAG_LANGUAGE_BCP47, st.bcp47));
      out := WriteBytesElement(out, TAG_LANGUAGE_BCP47, st.bcp47);
    } else if st.language != [] && st.language != UND_TEXT {
      FitAt(LanguageKids(st), 0);
      LeafParts(TAG_LANGUAGE, st.language);
      SerOne(Bin(TAG_LANGUAGE, st.language));
      out := WriteBytesElement(out, TAG_LANGUAGE, st.language);
    }
  }

  method WriteValue(buf: seq<byte>, v: TagValue) returns (out: seq<byte>)
    requires FitAll(ValueKids(v))
    ensures out == buf + SerAll(ValueKids(v))
  {
    hide Ser, SerAll, Fits, FitAll;
    NothingWritten();
    out := buf;
    match v {
      case Text(s) =>
        FitAt(ValueKids(v), 0);
        LeafParts(TAG_STRING, s);
        SerOne(Bin(TAG_STRING, s));
        out := WriteBytesElement(out, TAG_STRING, s);
      case Binary(s) =>
        FitAt(ValueKids(v), 0);
        LeafParts(TAG_BINARY, s);
        SerOne(Bin(TAG_BINARY, s));
        out := WriteBytesElement(out, TAG_BINARY, s);
      case NoValue =>
    }
  }

  method BuildSimpleTag(st: SimpleTag) returns (out: seq<byte>)
    requires FitAll(SimpleKids(st))
    ensures out == SerAll(SimpleKids(st))
    decreases st, 1
  {
    SimpleIs(st);
    hide SerAll, FitAll, SimpleStart, SimpleElems, SimpleKids;
    FitAppend(SimpleStart(st), SimpleElems(st.children));
    SerAppend(SimpleStart(st), SimpleElems(st.children));
    out := BuildSimpleStart(st);
    out := WriteSimpleTags(out, st.children);
  }

  lemma SimpleIs(st: SimpleTag)
    ensures SimpleKids(st) == SimpleStart(st) + SimpleElems(st.children)
  {
    hide Uint, Maybe, LanguageKids, ValueKids, SimpleElems;
  }

  method WriteSimpleTags(buf: seq<byte>, sts: seq<SimpleTag>) returns (out: seq<byte>)
    requires FitAll(SimpleElems(sts))
    ensures out == buf + SerAll(SimpleElems(sts))
    decreases sts, 0
  {
    hide Ser, SerAll, Fits, FitAll, SimpleKids;
    NothingWritten();
    out := buf;
    assert buf + [] == buf;
    var es := SimpleElems(sts);
    for i := 0 to |sts|
      invariant out == buf + SerAll(es[..i])
    {
      FitAt(es, i);
      NodeParts(SIMPLE_TAG, SimpleKids(sts[i]));
      SerSplit(es, i);
      Assoc(buf, SerAll(es[..i]), Ser(es[i]));
      var body := BuildSimpleTag(sts[i]);
      out := WriteMasterElement(out, SIMPLE_TAG, body, SimpleKids(sts[i]));
    }
    assert es[..|sts|] == es;
  }

  method BuildTag(t: Tag) returns (out: seq<byte>)
    requires FitAll(TagKids(t)) && TypedTargets(t.targets)
    ensures out == SerAll(TagKids(t))
  {
    hide Ser, SerAll, Fits, FitAll, TargetKids, SimpleElems;
    var targets := Master(TARGETS, TargetKids(t.targets));
    FitAppend([targets], SimpleElems(t.simple));
    FitAt([targets], 0);
    NodeParts(TARGETS, TargetKids(t.targets));
    SerAppend([targets], SimpleElems(t.simple));
    SerOne(targets);
    var body := BuildTargets(t.targets);
    out := WriteMasterElement([], TARGETS, body, TargetKids(t.targets));
    assert [] + Ser(targets) == Ser(targets);
    out := WriteSimpleTags(out, t.simple);
  }

  /** The data of a Tags element, tag by tag. */
  method BuildTags(tags: seq<Tag>) returns (out: seq<byte>)
    requires TagsFit(tags)
    ensures out == SerAll(TagElems(tags))
  {
    hide Ser, SerAll, Fits, FitAll, TagKids, TypedTargets;
    NothingWritten();
    out := [];
    var es := TagElems(tags);
    for i := 0 to |tags|
      invariant out == SerAll(es[..i])
    {
      FitAt(es, i);
      NodeParts(TAG, TagKids(tags[i]));
      SerSplit(es, i);
      var body := BuildTag(tags[i]);
      out := WriteMasterElement(out, TAG, body, TagKids(tags[i]));
    }
    assert es[..|tags|] == es;
  }
}
