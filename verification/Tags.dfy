/** Tags as the caller describes them, what the muxer refuses, and the elements it makes of them. */
module Tags {
  import opened Wrappers
  import opened Bytes
  import opened Ids
  import opened Elements

  /** Zero means "all of that kind" in every list, and is expressed by omission. */
  datatype Targets = Targets(
    typeValue: Option<nat>, typeName: seq<byte>, tracks: seq<nat>, editions: seq<nat>, chapters: seq<nat>,
    attachments: seq<nat>, additionIds: seq<nat>)

  datatype TagValue = Text(text: seq<byte>) | Binary(data: seq<byte>) | NoValue

  /** An empty language or BCP 47 tag is none. */
  datatype SimpleTag = SimpleTag(
    name: seq<byte>, value: TagValue, language: seq<byte>, bcp47: seq<byte>, isDefault: bool, children: seq<SimpleTag>)

  datatype Tag = Tag(targets: Targets, simple: seq<SimpleTag>)

  // ----- what is refused -----

  predicate AllNamed(sts: seq<SimpleTag>) {
    forall i :: 0 <= i < |sts| ==> sts[i].name != [] && AllNamed(sts[i].children)
  }

  predicate ValidTag(t: Tag) {
    t.simple != [] && t.targets.typeValue != Some(0) && AllNamed(t.simple)
  }

  /** The targets that strict WebM lets through. */
  predicate WebmTargets(t: Targets) {
    t.editions == [] && t.chapters == [] && t.attachments == []
  }

  predicate AllZero(vs: seq<nat>) {
    forall i :: 0 <= i < |vs| ==> vs[i] == 0
  }

  /** A selector that is no wildcard is an element of version 5. */
  predicate NeedsV5(t: Tag) {
    !AllZero(t.targets.additionIds)
  }

  predicate AllTagsValid(tags: seq<Tag>) {
    forall i :: 0 <= i < |tags| ==> ValidTag(tags[i])
  }

  predicate AllWebmTargets(tags: seq<Tag>) {
    forall i :: 0 <= i < |tags| ==> WebmTargets(tags[i].targets)
  }

  predicate SomeTagNeedsV5(tags: seq<Tag>) {
    exists i :: 0 <= i < |tags| && NeedsV5(tags[i])
  }

  // ----- what is written -----

  function Selectors(id: nat, vs: seq<nat>): seq<Elem> {
    if vs == [] then [] else Selectors(id, vs[..|vs| - 1]) + Maybe(vs[|vs| - 1] != 0, Uint(id, vs[|vs| - 1]))
  }

  function TargetKids(t: Targets): seq<Elem> {
    Maybe(t.typeValue.Some?, Uint(TARGET_TYPE_VALUE, if t.typeValue.Some? then t.typeValue.value else 0))
    + Maybe(t.typeName != [], Bin(TARGET_TYPE, t.typeName))
    + Selectors(TAG_TRACK_UID, t.tracks) + Selectors(TAG_EDITION_UID, t.editions)
    + Selectors(TAG_CHAPTER_UID, t.chapters)
    + Selectors(TAG_ATTACHMENT_UID, t.attachments) + Selectors(TAG_BLOCK_ADD_ID_VALUE, t.additionIds)
  }

  const UND_TEXT: seq<byte> := [0x75, 0x6E, 0x64]

  function LanguageKids(st: SimpleTag): seq<Elem> {
    if st.bcp47 != [] then [Bin(TAG_LANGUAGE_BCP47, st.bcp47)]
    else Maybe(st.language != [] && st.language != UND_TEXT, Bin(TAG_LANGUAGE, st.language))
  }

  function ValueKids(v: TagValue): seq<Elem> {
    match v
    case Text(s) => [Bin(TAG_STRING, s)]
    case Binary(s) => [Bin(TAG_BINARY, s)]
    case NoValue => []
  }

  function SimpleKids(st: SimpleTag): seq<Elem>
    decreases st, 1
  {
    [Bin(TAG_NAME, st.name)] + LanguageKids(st) + Maybe(!st.isDefault, Uint(TAG_DEFAULT, 0)) + ValueKids(st.value)
    + SimpleElems(st.children)
  }

  function SimpleElems(sts: seq<SimpleTag>): (es: seq<Elem>)
    ensures |es| == |sts| && forall i :: 0 <= i < |es| ==> es[i] == Master(SIMPLE_TAG, SimpleKids(sts[i]))
    decreases sts, 0
  {
    if sts == [] then [] else [Master(SIMPLE_TAG, SimpleKids(sts[0]))] + SimpleElems(sts[1..])
  }

  function TagKids(t: Tag): seq<Elem> {
    [Master(TARGETS, TargetKids(t.targets))] + SimpleElems(t.simple)
  }

  function TagElem(t: Tag): Elem {
    Master(TAG, TagKids(t))
  }

  function TagElems(tags: seq<Tag>): (es: seq<Elem>)
    ensures |es| == |tags| && forall i :: 0 <= i < |es| ==> es[i] == TagElem(tags[i])
  {
    if tags == [] then [] else [TagElem(tags[0])] + TagElems(tags[1..])
  }
}
