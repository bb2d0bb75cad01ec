/** The queue-time rules for Tags do what they are for: profile and version follow from them, exactly. */
module TagRules {
  import opened Bytes
  import opened Ebml
  import opened Ids
  import opened Elements
  import opened WebmProfile
  import opened TreeRules
  import opened Tags
  import opened MuxerProfile

  // ----- the profile -----

  lemma SelectorIds()
    ensures !OffProfile(TARGET_TYPE_VALUE) && !OffProfile(TARGET_TYPE) && !OffProfile(TAG_TRACK_UID)
    ensures !OffProfile(TAG_BLOCK_ADD_ID_VALUE)
    ensures OffProfile(TAG_EDITION_UID) && OffProfile(TAG_CHAPTER_UID) && OffProfile(TAG_ATTACHMENT_UID)
  {
  }

  lemma SimpleIds()
    ensures !OffProfile(TAG_NAME) && !OffProfile(TAG_LANGUAGE_BCP47) && !OffProfile(TAG_LANGUAGE)
            && !OffProfile(TAG_DEFAULT)
    ensures !OffProfile(TAG_STRING) && !OffProfile(TAG_BINARY)
  {
  }

  lemma MasterIds()
    ensures !OffProfile(TAG) && !OffProfile(TARGETS) && !OffProfile(SIMPLE_TAG)
  {
  }

  lemma LeafProfile(id: nat, body: seq<byte>)
    ensures InProfile(Bin(id, body)) <==> !OffProfile(id)
  {
    hide OffProfile;
  }

  lemma MaybeProfile(present: bool, e: Elem)
    ensures AllInProfile(Maybe(present, e)) <==> (present ==> InProfile(e))
  {
    hide InProfile;
    if present {
      ProfileOne(e);
    }
  }

  lemma ZeroInit(vs: seq<nat>)
    requires vs != []
    ensures AllZero(vs) <==> AllZero(vs[..|vs| - 1]) && vs[|vs| - 1] == 0
  {
    assert forall i :: 0 <= i < |vs| - 1 ==> vs[..|vs| - 1][i] == vs[i];
  }

  lemma {:induction false} SelectorsProfile(id: nat, vs: seq<nat>)
    ensures AllInProfile(Selectors(id, vs)) <==> !OffProfile(id) || AllZero(vs)
  {
    hide OffProfile, InProfile, Uint;
    if vs != [] {
      var init, last := vs[..|vs| - 1], vs[|vs| - 1];
      SelectorsProfile(id, init);
      ZeroInit(vs);
      ProfileAppend(Selectors(id, init), Maybe(last != 0, Uint(id, last)));
      MaybeProfile(last != 0, Uint(id, last));
      UintProfile(id, last);
    }
  }

  lemma UintProfile(id: nat, v: int)
    ensures InProfile(Uint(id, v)) <==> !OffProfile(id)
  {
    hide OffProfile;
  }

  lemma TargetsProfile(t: Targets)
    ensures AllInProfile(TargetKids(t)) <==> AllZero(t.editions) && AllZero(t.chapters) && AllZero(t.attachments)
  {
    SelectorIds();
    hide OffProfile, InProfile, AllInProfile, Uint, Selectors, Maybe, AllZero;
    var value := if t.typeValue.Some? then t.typeValue.value else 0;
    var a := Maybe(t.typeValue.Some?, Uint(TARGET_TYPE_VALUE, value));
    var b := Maybe(t.typeName != [], Bin(TARGET_TYPE, t.typeName));
    MaybeProfile(t.typeValue.Some?, Uint(TARGET_TYPE_VALUE, value));
    UintProfile(TARGET_TYPE_VALUE, value);
    MaybeProfile(t.typeName != [], Bin(TARGET_TYPE, t.typeName));
    LeafProfile(TARGET_TYPE, t.typeName);
    SelectorsProfile(TAG_TRACK_UID, t.tracks);
    SelectorsProfile(TAG_EDITION_UID, t.editions);
    SelectorsProfile(TAG_CHAPTER_UID, t.chapters);
    SelectorsProfile(TAG_ATTACHMENT_UID, t.attachments);
    SelectorsProfile(TAG_BLOCK_ADD_ID_VALUE, t.additionIds);
    var c, d, e := Selectors(TAG_TRACK_UID, t.tracks), Selectors(TAG_EDITION_UID, t.editions),
                   Selectors(TAG_CHAPTER_UID, t.chapters);
    var f, g := Selectors(TAG_ATTACHMENT_UID, t.attachments), Selectors(TAG_BLOCK_ADD_ID_VALUE, t.additionIds);
    ProfileAppend(a, b);
    ProfileAppend(a + b, c);
    ProfileAppend(a + b + c, d);
    ProfileAppend(a + b + c + d, e);
    ProfileAppend(a + b + c + d + e, f);
    ProfileAppend(a + b + c + d + e + f, g);
  }

  lemma {:induction false} SimpleKidsProfile(st: SimpleTag)
    ensures AllInProfile(SimpleKids(st))
    decreases st, 1
  {
    SimpleIds();
    hide OffProfile, InProfile, AllInProfile, Uint, SimpleElems, Maybe, ValueKids, LanguageKids;
    SimpleElemsProfile(st.children);
    LeafProfile(TAG_NAME, st.name);
    ProfileOne(Bin(TAG_NAME, st.name));
    LanguageProfile(st);
    UintProfile(TAG_DEFAULT, 0);
    MaybeProfile(!st.isDefault, Uint(TAG_DEFAULT, 0));
    ValueProfile(st.value);
    var a, b, c, d := [Bin(TAG_NAME, st.name)], LanguageKids(st), Maybe(!st.isDefault, Uint(TAG_DEFAULT, 0)),
                      ValueKids(st.value);
    ProfileAppend(a, b);
    ProfileAppend(a + b, c);
    ProfileAppend(a + b + c, d);
    ProfileAppend(a + b + c + d, SimpleElems(st.children));
  }

  lemma LanguageProfile(st: SimpleTag)
    ensures AllInProfile(LanguageKids(st))
  {
    SimpleIds();
    hide OffProfile, InProfile, AllInProfile, Maybe;
    LeafProfile(TAG_LANGUAGE_BCP47, st.bcp47);
    ProfileOne(Bin(TAG_LANGUAGE_BCP47, st.bcp47));
    LeafProfile(TAG_LANGUAGE, st.language);
    MaybeProfile(st.language != [] && st.language != UND_TEXT, Bin(TAG_LANGUAGE, st.language));
  }

  lemma NoneInProfile()
    ensures AllInProfile([])
  {
  }

  lemma ValueProfile(v: TagValue)
    ensures AllInProfile(ValueKids(v))
  {
    SimpleIds();
    hide OffProfile, InProfile, AllInProfile;
    NoneInProfile();
    match v
    case Text(s) => LeafProfile(TAG_STRING, s); ProfileOne(Bin(TAG_STRING, s));
    case Binary(s) => LeafProfile(TAG_BINARY, s); ProfileOne(Bin(TAG_BINARY, s));
    case NoValue =>
  }

  lemma {:induction false} SimpleElemsProfile(sts: seq<SimpleTag>)
    ensures AllInProfile(SimpleElems(sts))
    decreases sts, 0
  {
    MasterIds();
    hide OffProfile, InProfile, SimpleKids;
    if sts != [] {
      SimpleKidsProfile(sts[0]);
      ProfileNode(Master(SIMPLE_TAG, SimpleKids(sts[0])));
      SimpleElemsProfile(sts[1..]);
    }
  }

  /** A Tag is in the profile exactly if its lists of editions, chapters and attachments are all wildcards. */
  lemma TagProfile(t: Tag)
    ensures InProfile(TagElem(t))
       <==> AllZero(t.targets.editions) && AllZero(t.targets.chapters) && AllZero(t.targets.attachments)
  {
    MasterIds();
    hide OffProfile, InProfile, AllInProfile, TargetKids, SimpleElems, AllZero;
    TargetsProfile(t.targets);
    var targets := Master(TARGETS, TargetKids(t.targets));
    ProfileNode(targets);
    ProfileOne(targets);
    SimpleElemsProfile(t.simple);
    ProfileAppend([targets], SimpleElems(t.simple));
    ProfileNode(TagElem(t));
  }

  lemma EmptyIsZero(t: Targets)
    requires WebmTargets(t)
    ensures AllZero(t.editions) && AllZero(t.chapters) && AllZero(t.attachments)
  {
  }

  /** So the guard on the targets suffices for strict WebM. */
  lemma {:induction false} TargetsGuardSuffices(tags: seq<Tag>)
    requires AllWebmTargets(tags)
    ensures AllInProfile(TagElems(tags))
  {
    hide InProfile, TagElem, WebmTargets, AllZero;
    if tags != [] {
      assert forall i :: 0 <= i < |tags| - 1 ==> tags[1..][i] == tags[i + 1];
      TagProfile(tags[0]);
      EmptyIsZero(tags[0].targets);
      TargetsGuardSuffices(tags[1..]);
    }
  }

  // ----- the version -----

  lemma LeafV5(id: nat, body: seq<byte>)
    ensures HasV5(Bin(id, body)) <==> IsV5(id)
  {
  }

  lemma UintV5(id: nat, v: int)
    ensures HasV5(Uint(id, v)) <==> IsV5(id)
  {
  }

  lemma MaybeV5(present: bool, e: Elem)
    ensures AnyV5(Maybe(present, e)) <==> present && HasV5(e)
  {
    hide HasV5;
    if present {
      V5One(e);
    }
  }

  lemma {:induction false} SelectorsV5(id: nat, vs: seq<nat>)
    ensures AnyV5(Selectors(id, vs)) <==> IsV5(id) && !AllZero(vs)
  {
    hide IsV5, HasV5, Uint;
    if vs != [] {
      var init, last := vs[..|vs| - 1], vs[|vs| - 1];
      SelectorsV5(id, init);
      ZeroInit(vs);
      V5Append(Selectors(id, init), Maybe(last != 0, Uint(id, last)));
      MaybeV5(last != 0, Uint(id, last));
      UintV5(id, last);
    }
  }

  lemma TargetsV5(t: Targets)
    ensures AnyV5(TargetKids(t)) <==> !AllZero(t.additionIds)
  {
    assert !IsV5(TARGET_TYPE_VALUE) && !IsV5(TARGET_TYPE) && !IsV5(TAG_TRACK_UID) && IsV5(TAG_BLOCK_ADD_ID_VALUE);
    assert !IsV5(TAG_EDITION_UID) && !IsV5(TAG_CHAPTER_UID) && !IsV5(TAG_ATTACHMENT_UID);
    hide IsV5, HasV5, AnyV5, Uint, Selectors, Maybe, AllZero;
    var value := if t.typeValue.Some? then t.typeValue.value else 0;
    var a := Maybe(t.typeValue.Some?, Uint(TARGET_TYPE_VALUE, value));
    var b := Maybe(t.typeName != [], Bin(TARGET_TYPE, t.typeName));
    MaybeV5(t.typeValue.Some?, Uint(TARGET_TYPE_VALUE, value));
    UintV5(TARGET_TYPE_VALUE, value);
    MaybeV5(t.typeName != [], Bin(TARGET_TYPE, t.typeName));
    LeafV5(TARGET_TYPE, t.typeName);
    SelectorsV5(TAG_TRACK_UID, t.tracks);
    SelectorsV5(TAG_EDITION_UID, t.editions);
    SelectorsV5(TAG_CHAPTER_UID, t.chapters);
    SelectorsV5(TAG_ATTACHMENT_UID, t.attachments);
    SelectorsV5(TAG_BLOCK_ADD_ID_VALUE, t.additionIds);
    var c, d, e := Selectors(TAG_TRACK_UID, t.tracks), Selectors(TAG_EDITION_UID, t.editions),
                   Selectors(TAG_CHAPTER_UID, t.chapters);
    var f, g := Selectors(TAG_ATTACHMENT_UID, t.attachments), Selectors(TAG_BLOCK_ADD_ID_VALUE, t.additionIds);
    V5Append(a, b);
    V5Append(a + b, c);
    V5Append(a + b + c, d);
    V5Append(a + b + c + d, e);
    V5Append(a + b + c + d + e, f);
    V5Append(a + b + c + d + e + f, g);
  }

  lemma {:induction false} SimpleKidsV5(st: SimpleTag)
    ensures !AnyV5(SimpleKids(st))
    decreases st, 1
  {
    assert !IsV5(TAG_NAME) && !IsV5(TAG_DEFAULT);
    hide IsV5, HasV5, AnyV5, Uint, SimpleElems, Maybe, ValueKids, LanguageKids;
    SimpleElemsV5(st.children);
    LeafV5(TAG_NAME, st.name);
    V5One(Bin(TAG_NAME, st.name));
    LanguageV5(st);
    UintV5(TAG_DEFAULT, 0);
    MaybeV5(!st.isDefault, Uint(TAG_DEFAULT, 0));
    ValueV5(st.value);
    var a, b, c, d := [Bin(TAG_NAME, st.name)], LanguageKids(st), Maybe(!st.isDefault, Uint(TAG_DEFAULT, 0)),
                      ValueKids(st.value);
    V5Append(a, b);
    V5Append(a + b, c);
    V5Append(a + b + c, d);
    V5Append(a + b + c + d, SimpleElems(st.children));
  }

  lemma LanguageV5(st: SimpleTag)
    ensures !AnyV5(LanguageKids(st))
  {
  }

  lemma ValueV5(v: TagValue)
    ensures !AnyV5(ValueKids(v))
  {
  }

  lemma {:induction false} SimpleElemsV5(sts: seq<SimpleTag>)
    ensures !AnyV5(SimpleElems(sts))
    decreases sts, 0
  {
    hide HasV5, SimpleKids;
    if sts != [] {
      SimpleKidsV5(sts[0]);
      V5Node(Master(SIMPLE_TAG, SimpleKids(sts[0])));
      SimpleElemsV5(sts[1..]);
    }
  }

  /** A Tag holds an element of version 5 exactly if one of its selectors is no wildcard. */
  lemma TagV5(t: Tag)
    ensures HasV5(TagElem(t)) <==> NeedsV5(t)
  {
    assert !IsV5(TAG) && !IsV5(TARGETS);
    hide IsV5, HasV5, AnyV5, TargetKids, SimpleElems, AllZero;
    TargetsV5(t.targets);
    var targets := Master(TARGETS, TargetKids(t.targets));
    V5Node(targets);
    V5One(targets);
    SimpleElemsV5(t.simple);
    V5Append([targets], SimpleElems(t.simple));
    V5Node(TagElem(t));
  }

  lemma {:induction false} TagsV5(tags: seq<Tag>)
    ensures AnyV5(TagElems(tags)) <==> SomeTagNeedsV5(tags)
  {
    hide HasV5, TagElem, NeedsV5;
    if tags != [] {
      TagV5(tags[0]);
      TagsV5(tags[1..]);
      assert forall i :: 0 <= i < |tags| - 1 ==> tags[1..][i] == tags[i + 1];
      if SomeTagNeedsV5(tags) {
        var i :| 0 <= i < |tags| && NeedsV5(tags[i]);
        if i > 0 {
          assert NeedsV5(tags[1..][i - 1]);
        }
      }
    }
  }

  // ----- proper elements -----

  lemma TagIdsAreProper()
    ensures !IsMaster(TARGET_TYPE_VALUE) && !IsMaster(TARGET_TYPE) && !IsMaster(TAG_TRACK_UID)
            && !IsMaster(TAG_EDITION_UID)
    ensures !IsMaster(TAG_CHAPTER_UID) && !IsMaster(TAG_ATTACHMENT_UID) && !IsMaster(TAG_BLOCK_ADD_ID_VALUE)
    ensures !IsMaster(TAG_NAME) && !IsMaster(TAG_LANGUAGE_BCP47) && !IsMaster(TAG_LANGUAGE) && !IsMaster(TAG_DEFAULT)
    ensures !IsMaster(TAG_STRING) && !IsMaster(TAG_BINARY)
  {
  }

  lemma LeafOk(id: nat, body: seq<byte>)
    requires ValidId(id) && !IsMaster(id)
    ensures Proper(false, Bin(id, body)) && AllProper(false, [Bin(id, body)])
  {
    hide OffProfile, IsMaster;
  }

  lemma UintOk(id: nat, v: int)
    requires ValidId(id) && !IsMaster(id)
    ensures Proper(false, Uint(id, v))
  {
    hide OffProfile, IsMaster, UintBytes;
  }

  lemma MaybeOk(present: bool, e: Elem)
    requires Proper(false, e)
    ensures AllProper(false, Maybe(present, e))
  {
    hide Proper;
  }

  lemma {:induction false} SelectorsOk(id: nat, vs: seq<nat>)
    requires ValidId(id) && !IsMaster(id)
    ensures AllProper(false, Selectors(id, vs))
  {
    hide Proper, AllProper, IsMaster, Uint;
    if vs == [] {
      NothingIsProper(false);
    } else {
      var init, last := vs[..|vs| - 1], vs[|vs| - 1];
      SelectorsOk(id, init);
      UintOk(id, last);
      MaybeOk(last != 0, Uint(id, last));
      ProperAppend(false, Selectors(id, init), Maybe(last != 0, Uint(id, last)));
    }
  }

  lemma TargetsOk(t: Targets)
    ensures AllProper(false, TargetKids(t))
  {
    TagIdsAreProper();
    hide Proper, AllProper, IsMaster, Uint, Selectors, Maybe;
    var value := if t.typeValue.Some? then t.typeValue.value else 0;
    var a := Maybe(t.typeValue.Some?, Uint(TARGET_TYPE_VALUE, value));
    var b := Maybe(t.typeName != [], Bin(TARGET_TYPE, t.typeName));
    UintOk(TARGET_TYPE_VALUE, value);
    MaybeOk(t.typeValue.Some?, Uint(TARGET_TYPE_VALUE, value));
    LeafOk(TARGET_TYPE, t.typeName);
    MaybeOk(t.typeName != [], Bin(TARGET_TYPE, t.typeName));
    SelectorsOk(TAG_TRACK_UID, t.tracks);
    SelectorsOk(TAG_EDITION_UID, t.editions);
    SelectorsOk(TAG_CHAPTER_UID, t.chapters);
    SelectorsOk(TAG_ATTACHMENT_UID, t.attachments);
    SelectorsOk(TAG_BLOCK_ADD_ID_VALUE, t.additionIds);
    var c, d, e := Selectors(TAG_TRACK_UID, t.tracks), Selectors(TAG_EDITION_UID, t.editions),
                   Selectors(TAG_CHAPTER_UID, t.chapters);
    var f, g := Selectors(TAG_ATTACHMENT_UID, t.attachments), Selectors(TAG_BLOCK_ADD_ID_VALUE, t.additionIds);
    ProperAppend(false, a, b);
    ProperAppend(false, a + b, c);
    ProperAppend(false, a + b + c, d);
    ProperAppend(false, a + b + c + d, e);
    ProperAppend(false, a + b + c + d + e, f);
    ProperAppend(false, a + b + c + d + e + f, g);
  }

  lemma LanguageOk(st: SimpleTag)
    ensures AllProper(false, LanguageKids(st))
  {
    TagIdsAreProper();
    hide Proper, AllProper, IsMaster, Maybe;
    LeafOk(TAG_LANGUAGE_BCP47, st.bcp47);
    LeafOk(TAG_LANGUAGE, st.language);
    MaybeOk(st.language != [] && st.language != UND_TEXT, Bin(TAG_LANGUAGE, st.language));
  }

  lemma ValueOk(v: TagValue)
    ensures AllProper(false, ValueKids(v))
  {
    TagIdsAreProper();
    hide Proper, AllProper, IsMaster;
    NothingIsProper(false);
    match v
    case Text(s) => LeafOk(TAG_STRING, s);
    case Binary(s) => LeafOk(TAG_BINARY, s);
    case NoValue =>
  }

  lemma {:induction false} SimpleKidsOk(st: SimpleTag)
    ensures AllProper(false, SimpleKids(st))
    decreases st, 1
  {
    TagIdsAreProper();
    hide Proper, AllProper, IsMaster, Uint, SimpleElems, Maybe, ValueKids, LanguageKids;
    SimpleElemsOk(st.children);
    LeafOk(TAG_NAME, st.name);
    LanguageOk(st);
    UintOk(TAG_DEFAULT, 0);
    MaybeOk(!st.isDefault, Uint(TAG_DEFAULT, 0));
    ValueOk(st.value);
    var a, b, c, d := [Bin(TAG_NAME, st.name)], LanguageKids(st), Maybe(!st.isDefault, Uint(TAG_DEFAULT, 0)),
                      ValueKids(st.value);
    ProperAppend(false, a, b);
    ProperAppend(false, a + b, c);
    ProperAppend(false, a + b + c, d);
    ProperAppend(false, a + b + c + d, SimpleElems(st.children));
  }

  lemma {:induction false} SimpleElemsOk(sts: seq<SimpleTag>)
    ensures AllProper(false, SimpleElems(sts))
    decreases sts, 0
  {
    hide Proper, SimpleKids;
    if sts != [] {
      SimpleKidsOk(sts[0]);
      MasterIsProper(false, SIMPLE_TAG, SimpleKids(sts[0]));
      SimpleElemsOk(sts[1..]);
      forall i | 0 <= i < |sts|
        ensures Proper(false, SimpleElems(sts)[i])
      {
        if i > 0 {
          assert SimpleElems(sts)[i] == SimpleElems(sts[1..])[i - 1];
        }
      }
    }
  }

  /** Tags are proper elements and, past the guard on their targets, of the profile. */
  lemma TagsAreProper(strict: bool, tags: seq<Tag>)
    requires strict ==> AllWebmTargets(tags)
    ensures AllProper(strict, TagElems(tags))
  {
    hide Proper, TargetKids, SimpleElems;
    forall i | 0 <= i < |tags|
      ensures Proper(false, TagElem(tags[i]))
    {
      TargetsOk(tags[i].targets);
      MasterIsProper(false, TARGETS, TargetKids(tags[i].targets));
      SimpleElemsOk(tags[i].simple);
      ProperAppend(false, [Master(TARGETS, TargetKids(tags[i].targets))], SimpleElems(tags[i].simple));
      MasterIsProper(false, TAG, TagKids(tags[i]));
    }
    if strict {
      TargetsGuardSuffices(tags);
      ProfileMakesAllProper(TagElems(tags));
    }
  }
}
