/**
 * The setters whose hints become elements: which elements each can write, and what its guard
 * refuses under strict WebM. The guards do what they are for in all cases but one.
 */
module HintGuards {
  import opened Ids
  import opened Elements
  import opened WebmProfile
  import opened TreeRules

  datatype HintKind =
    | DocTypeExtensions | Linking | KnownDuration | DateUtc | Title
    | Interlacing | StereoModes | AlphaMode | Geometry | AspectRatio | Fourcc | Colour | Projection | LegacyVideo
    | AudienceFlags | MaxAdditionId | AdditionMappings | Timing | CodecTiming | Identity | AudioFields
    | Operation | Encodings | Translate | LegacyTrack
    | Chapters | Attachments

  const CHAP_PROCESS: nat := 0x6944
  const CONTENT_COMPRESSION: nat := 0x5034

  /** The elements that a setter can have written, outside the two masters above; IDs as in src/ids.rs. */
  predicate MayWrite(kind: HintKind, id: nat) {
    match kind
    case DocTypeExtensions => id == 0x4281 || id == 0x4283 || id == 0x4284
    case Linking =>
      || id == 0x73A4 || id == 0x7384 || id == 0x3CB923 || id == 0x3C83AB || id == 0x3EB923 || id == 0x3E83BB
      || id == 0x4444 || id == 0x6924 || id == 0x69A5 || id == 0x69BF || id == 0x69FC
    case KnownDuration => id == DURATION
    case DateUtc => id == 0x4461
    case Title => id == 0x7BA9
    case Interlacing => id == 0x9A || id == 0x9D
    case StereoModes => id == 0x53B8 || id == 0x53B9
    case AlphaMode => id == 0x53C0
    case Geometry =>
      || id == 0xB0 || id == 0xBA || id == 0x54BB || id == 0x54AA || id == 0x54CC || id == 0x54DD
      || id == 0x54B0 || id == 0x54BA || id == 0x54B2
    case AspectRatio => id == 0x54B3
    case Fourcc => id == UNCOMPRESSED_FOURCC
    case Colour => 0x55B0 <= id <= 0x55BD || id == 0x55D0 || 0x55D1 <= id <= 0x55DA
    case Projection => 0x7670 <= id <= 0x7675
    case LegacyVideo => id == 0x2FB523 || id == 0x2383E3
    case AudienceFlags => 0x55AA <= id <= 0x55AF
    case MaxAdditionId => id == 0x55EE
    case AdditionMappings => id == 0x41E4 || id == 0x41F0 || id == 0x41A4 || id == 0x41E7 || id == 0x41ED
    case Timing => id == 0x23E383 || id == 0x234E7A || id == 0x23314F
    case CodecTiming => id == 0x56AA || id == 0x56BB
    case Identity =>
      || id == 0xB9 || id == 0x88 || id == 0x536E || id == 0x258688 || id == 0x22B59C || id == 0x22B59D
      || id == 0x7446
    case AudioFields => id == 0xE1 || id == 0xB5 || id == 0x78B5 || id == 0x9F || id == 0x6264 || id == EMPHASIS
    case Operation => id == 0xE2 || id == 0xE3 || id == 0xE4 || id == 0xE5 || id == 0xE6 || id == 0xE9 || id == 0xED
    case Encodings =>
      || id == 0x6D80 || id == 0x6240 || id == 0x5031 || id == 0x5032 || id == 0x5033 || id == CONTENT_COMPRESSION
      || id == 0x5035 || id == 0x47E1 || id == 0x47E2 || id == 0x47E7 || id == 0x47E8 || 0x47E3 <= id <= 0x47E6
    case Translate => id == 0x6624 || id == 0x66A5 || id == 0x66BF || id == 0x66FC
    case LegacyTrack =>
      || id == 0x3A9697 || id == 0x3B4040 || id == 0x26B240 || id == 0xAA || id == 0x6DE7 || id == 0x6DF8
      || id == 0x537F || id == 0x6FAB || id == 0xC0 || id == 0xC1 || id == 0xC6 || id == 0xC7 || id == 0xC4
      || id == 0x7D7B
    case Chapters =>
      || id == 0xB6 || id == 0x73C4 || id == 0x5654 || id == 0x91 || id == 0x92 || id == 0x98 || id == 0x4598
      || id == 0x6E67 || id == 0x6EBC || id == 0x63C3 || id == CHAPTER_SKIP_TYPE || id == 0x80 || id == 0x85
      || id == 0x437C || id == 0x437D || id == 0x437E || id == CHAP_PROCESS
    case Attachments =>
      || id == 0x61A7 || id == 0x467E || id == 0x466E || id == 0x4660 || id == 0x465C || id == 0x46AE || id == 0x4675
      || id == 0x4661 || id == 0x4662
  }

  /** The elements that occur only inside a ChapProcess or a ContentCompression. */
  predicate MayWriteInside(kind: HintKind, id: nat) {
    match kind
    case Encodings => id == 0x4254 || id == 0x4255
    case Chapters => id == 0x6955 || id == 0x450D || id == 0x6911 || id == 0x6922 || id == 0x6933
    case _ => false
  }

  /** A tree that a setter of this kind can have built. */
  predicate Built(kind: HintKind, e: Elem, inside: bool)
    decreases e
  {
    && (MayWrite(kind, e.id) || (inside && MayWriteInside(kind, e.id)))
    && (e.Leaf? || forall i :: 0 <= i < |e.kids| ==>
          Built(kind, e.kids[i], inside || e.id == CHAP_PROCESS || e.id == CONTENT_COMPRESSION))
  }

  /** The setters that strict WebM refuses altogether. */
  predicate RefusedKind(kind: HintKind) {
    kind.Linking? || kind.LegacyVideo? || kind.MaxAdditionId? || kind.Operation? || kind.Translate? || kind.LegacyTrack?
    || kind.Attachments?
  }

  /** The elements that a setter's guard looks for. */
  predicate RefusedId(kind: HintKind, id: nat) {
    match kind
    case Timing => id == 0x234E7A || id == 0x23314F
    case Identity => id == 0x7446
    case Encodings => id == CONTENT_COMPRESSION || 0x47E3 <= id <= 0x47E6
    case Chapters => id == 0x98 || id == 0x4598 || id == 0x6E67 || id == 0x6EBC || id == 0x63C3 || id == CHAP_PROCESS
    case _ => false
  }

  predicate Mentions(kind: HintKind, e: Elem)
    decreases e
  {
    RefusedId(kind, e.id) || (!e.Leaf? && exists i :: 0 <= i < |e.kids| && Mentions(kind, e.kids[i]))
  }

  /** The guard of the setter, under strict WebM. */
  predicate Refuses(kind: HintKind, e: Elem) {
    RefusedKind(kind) || Mentions(kind, e)
  }

  // ----- the guards suffice -----

  lemma HeaderHints(kind: HintKind, id: nat)
    requires kind.DocTypeExtensions? || kind.KnownDuration? || kind.DateUtc? || kind.Title? || kind.Interlacing?
             || kind.StereoModes? || kind.AlphaMode? || kind.AspectRatio?
    requires MayWrite(kind, id)
    ensures !OffProfile(id)
  {
  }

  lemma VideoHints(kind: HintKind, id: nat)
    requires kind.Geometry? || kind.Colour? || kind.Projection?
    requires MayWrite(kind, id)
    ensures !OffProfile(id)
  {
  }

  lemma TrackHints(kind: HintKind, id: nat)
    requires kind.AudienceFlags? || kind.AdditionMappings? || kind.Timing? || kind.CodecTiming? || kind.AudioFields?
    requires MayWrite(kind, id) && !RefusedId(kind, id)
    ensures !OffProfile(id)
  {
  }

  lemma IdentityHints(id: nat)
    requires MayWrite(Identity, id) && !RefusedId(Identity, id)
    ensures !OffProfile(id)
  {
  }

  lemma EncodingHints(id: nat)
    requires MayWrite(Encodings, id) && !RefusedId(Encodings, id)
    ensures !OffProfile(id)
  {
  }

  lemma ChapterHints(id: nat)
    requires MayWrite(Chapters, id) && !RefusedId(Chapters, id)
    ensures !OffProfile(id)
  {
  }

  lemma HintIds(kind: HintKind, id: nat)
    requires MayWrite(kind, id) && !RefusedKind(kind) && !RefusedId(kind, id) && kind != Fourcc
    ensures !OffProfile(id)
  {
    hide OffProfile, MayWrite, RefusedId;
    match kind
    case Geometry => VideoHints(kind, id);
    case Colour => VideoHints(kind, id);
    case Projection => VideoHints(kind, id);
    case AudienceFlags => TrackHints(kind, id);
    case AdditionMappings => TrackHints(kind, id);
    case Timing => TrackHints(kind, id);
    case CodecTiming => TrackHints(kind, id);
    case AudioFields => TrackHints(kind, id);
    case Identity => IdentityHints(id);
    case Encodings => EncodingHints(id);
    case Chapters => ChapterHints(id);
    case _ => HeaderHints(kind, id);
  }

  lemma MastersAreRefused(kind: HintKind, id: nat)
    requires MayWrite(kind, id) && (id == CHAP_PROCESS || id == CONTENT_COMPRESSION)
    ensures RefusedId(kind, id)
  {
  }

  /** What a setter has built and its guard has let through is in the profile. */
  lemma {:induction false} BuiltIsInProfile(kind: HintKind, e: Elem)
    requires Built(kind, e, false) && !Refuses(kind, e) && kind != Fourcc
    ensures InProfile(e)
    decreases e
  {
    hide OffProfile, MayWrite, MayWriteInside, RefusedId;
    HintIds(kind, e.id);
    if !e.Leaf? {
      if e.id == CHAP_PROCESS || e.id == CONTENT_COMPRESSION {
        MastersAreRefused(kind, e.id);
      }
      forall i | 0 <= i < |e.kids|
        ensures InProfile(e.kids[i])
      {
        BuiltIsInProfile(kind, e.kids[i]);
      }
      AllOfThem(e.kids);
    }
  }

  lemma {:induction false} AllOfThem(es: seq<Elem>)
    requires forall i :: 0 <= i < |es| ==> InProfile(es[i])
    ensures AllInProfile(es)
  {
    hide InProfile;
    if es != [] {
      assert forall i :: 0 <= i < |es| - 1 ==> es[1..][i] == es[i + 1];
      AllOfThem(es[1..]);
    }
  }

  // ----- the guards refuse nothing else -----

  lemma RefusedVideoId(kind: HintKind, id: nat)
    requires kind.LegacyVideo? || kind.MaxAdditionId? || kind.Operation? || kind.Translate?
    requires MayWrite(kind, id)
    ensures OffProfile(id)
  {
  }

  lemma RefusedLinkingId(id: nat)
    requires MayWrite(Linking, id)
    ensures OffProfile(id)
  {
  }

  lemma RefusedTrackId(id: nat)
    requires MayWrite(LegacyTrack, id)
    ensures OffProfile(id)
  {
  }

  lemma RefusedAttachmentId(id: nat)
    requires MayWrite(Attachments, id)
    ensures OffProfile(id)
  {
  }

  lemma RefusedFieldId(kind: HintKind, id: nat)
    requires RefusedId(kind, id)
    ensures OffProfile(id)
  {
  }

  lemma RefusedKindId(kind: HintKind, id: nat)
    requires MayWrite(kind, id) && RefusedKind(kind)
    ensures OffProfile(id)
  {
    hide MayWrite, OffProfile;
    match kind
    case Linking => RefusedLinkingId(id);
    case LegacyTrack => RefusedTrackId(id);
    case Attachments => RefusedAttachmentId(id);
    case _ => RefusedVideoId(kind, id);
  }

  lemma {:induction false} MentionsOffProfile(kind: HintKind, e: Elem)
    requires Mentions(kind, e)
    ensures !InProfile(e)
    decreases e
  {
    hide OffProfile, RefusedId;
    if RefusedId(kind, e.id) {
      RefusedFieldId(kind, e.id);
    } else {
      var i :| 0 <= i < |e.kids| && Mentions(kind, e.kids[i]);
      MentionsOffProfile(kind, e.kids[i]);
      OneOfThem(e.kids, i);
    }
  }

  lemma {:induction false} OneOfThem(es: seq<Elem>, i: nat)
    requires i < |es| && !InProfile(es[i])
    ensures !AllInProfile(es)
  {
    hide InProfile;
    if i > 0 {
      OneOfThem(es[1..], i - 1);
    }
  }

  /** A guard refuses exactly the trees with an element off the profile. */
  lemma GuardsAreExact(kind: HintKind, e: Elem)
    requires Built(kind, e, false) && kind != Fourcc
    ensures Refuses(kind, e) <==> !InProfile(e)
  {
    hide OffProfile, MayWrite, MayWriteInside, RefusedId, Mentions;
    if RefusedKind(kind) {
      RefusedKindId(kind, e.id);
    } else if Mentions(kind, e) {
      MentionsOffProfile(kind, e);
    } else {
      BuiltIsInProfile(kind, e);
    }
  }

  /** No tree of this kind gets past the guard with an element off the profile. */
  ghost predicate GuardSuffices(kind: HintKind) {
    forall e :: Built(kind, e, false) && !Refuses(kind, e) ==> InProfile(e)
  }

  /** The one setter whose guard is missing is that of the FourCC. */
  lemma GuardsSufficeButOne(kind: HintKind)
    ensures GuardSuffices(kind) <==> kind != Fourcc
  {
    hide Built, Refuses, InProfile;
    if kind != Fourcc {
      forall e | Built(kind, e, false) && !Refuses(kind, e)
        ensures InProfile(e)
      {
        BuiltIsInProfile(kind, e);
      }
    } else {
      FourccGetsThrough();
    }
  }

  lemma FourccGetsThrough()
    ensures var e := Bin(UNCOMPRESSED_FOURCC, [0, 0, 0, 0]);
            Built(Fourcc, e, false) && !Refuses(Fourcc, e) && !InProfile(e)
  {
  }

  // ----- version 5 -----

  lemma V5Ids(kind: HintKind, id: nat)
    requires (MayWrite(kind, id) || MayWriteInside(kind, id)) && IsV5(id)
    ensures kind == Chapters || kind == AudioFields
  {
  }

  /** Only chapters and audio fields can hold an element of version 5. */
  lemma {:induction false} V5Hints(kind: HintKind, e: Elem, inside: bool)
    requires Built(kind, e, inside) && kind != Chapters && kind != AudioFields
    ensures !HasV5(e)
    decreases e
  {
    hide MayWrite, MayWriteInside, IsV5;
    if IsV5(e.id) {
      V5Ids(kind, e.id);
    }
    if !e.Leaf? {
      forall i | 0 <= i < |e.kids|
        ensures !HasV5(e.kids[i])
      {
        V5Hints(kind, e.kids[i], inside || e.id == CHAP_PROCESS || e.id == CONTENT_COMPRESSION);
      }
      NoneOfThem(e.kids);
    }
  }

  lemma {:induction false} NoneOfThem(es: seq<Elem>)
    requires forall i :: 0 <= i < |es| ==> !HasV5(es[i])
    ensures !AnyV5(es)
  {
    hide HasV5;
    if es != [] {
      assert forall i :: 0 <= i < |es| - 1 ==> es[1..][i] == es[i + 1];
      NoneOfThem(es[1..]);
    }
  }
}
