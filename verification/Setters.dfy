/** The queue-time setters: what they refuse, and what the queued state therefore keeps. */
module Setters {
  import opened Wrappers
  import opened Bytes
  import opened Ids
  import opened Elements
  import opened Lacing
  import opened WebmProfile
  import opened TreeRules
  import opened HintGuards
  import opened Tags
  import opened Muxer
  import opened MuxerProfile
  import opened MuxerFile

  /** Where a hint is written. */
  datatype HintPlace =
    | InHeader | BeforeScale | InInfo | InTrack(stream: nat) | InVideo(stream: nat) | InEdition | InAttachments

  function PlaceOf(kind: HintKind, stream: nat): HintPlace {
    match kind
    case DocTypeExtensions => InHeader
    case Linking => BeforeScale
    case KnownDuration => InInfo
    case DateUtc => InInfo
    case Title => InInfo
    case Chapters => InEdition
    case Attachments => InAttachments
    case Interlacing => InVideo(stream)
    case StereoModes => InVideo(stream)
    case AlphaMode => InVideo(stream)
    case Geometry => InVideo(stream)
    case AspectRatio => InVideo(stream)
    case Fourcc => InVideo(stream)
    case Colour => InVideo(stream)
    case Projection => InVideo(stream)
    case LegacyVideo => InVideo(stream)
    case _ => InTrack(stream)
  }

  /** A hint comes as the tree that is written for it; the stream matters for some kinds. */
  datatype Setter =
    | Hint(kind: HintKind, stream: nat, tree: Elem)
    | AddTag(tag: Tag)
    | FourCC(stream: nat, fourcc: seq<byte>)
    | FlagLacing(stream: nat, flag: Option<bool>)
    | Editions(displays: seq<Display>)
    | WithLenient | WithLive | WithHints | WithFinalization
    | WithLacing(mode: LacingMode)
    | WithLimits(ms: nat, bytes: nat)
    | WithFrontCues(reserved: nat)
    | WithExpansion(reserved: nat)

  /** What the caller says about a stream. */
  datatype Stream = Stream(
    media: Media, codec: Codec, codecId: seq<byte>, codecPrivate: seq<byte>, num: int, den: int, maxAdditionId: nat)

  /** Tracks are numbered in order, from 1. */
  function TracksFor(streams: seq<Stream>): (ts: seq<Track>)
    ensures |ts| == |streams| && Numbered(ts)
    ensures forall i :: 0 <= i < |ts| ==> ts[i].codec == streams[i].codec
  {
    seq(|streams|, i requires 0 <= i < |streams| =>
      var s := streams[i];
      Track(i + 1, s.media, s.codec, s.codecId, s.codecPrivate, s.num, s.den, s.maxAdditionId))
  }

  predicate AdmittedByWebm(codec: Codec) {
    codec == Vp8 || codec == Vp9 || codec == Av1 || codec == Vorbis || codec == Opus
  }

  /** What `MkvMuxer::new` takes: some stream and, for WebM, only codecs that it admits. */
  predicate Acceptable(webm: bool, streams: seq<Stream>) {
    streams != [] && (webm ==> forall i :: 0 <= i < |streams| ==> AdmittedByWebm(streams[i].codec))
  }

  /** A new muxer: for WebM it is strict from the start. */
  function New(webm: bool, streams: seq<Stream>): Setup {
    var n := |streams|;
    Setup(webm, webm, [], false, false, NoLacing, 5000, 5000000, TracksFor(streams), None, false, None, [], [],
          seq(n, _ => []), seq(n, _ => []), seq(n, _ => None), seq(n, _ => None), [], [], [], [])
  }

  predicate Printable(s: seq<byte>) {
    forall i :: 0 <= i < |s| ==> 0x20 <= s[i] <= 0x7E
  }

  predicate PrintableLanguages(ds: seq<Display>) {
    forall i, j :: 0 <= i < |ds| && 0 <= j < |ds[i].languages| ==> Printable(ds[i].languages[j])
  }

  predicate PlaceExists(l: Setup, place: HintPlace) {
    match place
    case InTrack(i) => i < |l.streams| && i < |l.trackKids|
    case InVideo(i) => i < |l.streams| && i < |l.videoKids| && l.streams[i].media == VideoMedia
    case _ => true
  }

  function Queued(l: Setup, place: HintPlace, tree: Elem): Setup
    requires PlaceExists(l, place)
  {
    match place
    case InHeader => l.(extensions := l.extensions + [tree])
    case BeforeScale => l.(linking := l.linking + [tree])
    case InInfo => l.(info := l.info + [tree])
    case InTrack(i) => l.(trackKids := l.trackKids[i := l.trackKids[i] + [tree]])
    case InVideo(i) => l.(videoKids := l.videoKids[i := l.videoKids[i] + [tree]])
    case InEdition => l.(chapters := l.chapters + [tree])
    case InAttachments => l.(attachments := l.attachments + [tree])
  }

  /** A Duration is fixed already. */
  predicate HoldsDuration(info: seq<Elem>) {
    exists i :: 0 <= i < |info| && info[i].id == DURATION
  }

  /** The checks of `add_tag`. */
  predicate TagAdmitted(l: Setup, tag: Tag) {
    ValidTag(tag) && (l.strict ==> WebmTargets(tag.targets)) && (l.webm ==> !NeedsV5(tag))
  }

  /**
   * One setter; `None` is its error. A hint goes through the guard of its kind and the one on
   * version 5; the FourCC is checked for its stream only.
   */
  function Set(l: Setup, s: Setter): Option<Setup> {
    match s
    case Hint(kind, i, tree) =>
      if !PlaceExists(l, PlaceOf(kind, i)) || (l.strict && Refuses(kind, tree)) || (l.webm && HasV5(tree))
         || (kind.KnownDuration? && l.finalize)
      then None
      else Some(Queued(l, PlaceOf(kind, i), tree))
    case AddTag(tag) => if TagAdmitted(l, tag) then Some(l.(tags := l.tags + [tag])) else None
    case FourCC(i, fourcc) =>
      if i >= |l.streams| || i >= |l.fourccs| || |fourcc| != 4 || l.streams[i].media != VideoMedia then None
      else Some(l.(fourccs := l.fourccs[i := Some(fourcc)]))
    case FlagLacing(i, flag) => if i >= |l.flagLacing| then None else Some(l.(flagLacing := l.flagLacing[i := flag]))
    case Editions(ds) => if (l.webm && ds != []) || !PrintableLanguages(ds) then None else Some(l.(editions := ds))
    case WithLenient => if l.webm then Some(l.(strict := false)) else None
    case WithLive =>
      if l.finalize || l.front.Some? || l.expansion.Some? then None else Some(l.(live := true))
    case WithHints => Some(l.(hints := true))
    case WithFinalization => if l.live || HoldsDuration(l.info) then None else Some(l.(finalize := true))
    case WithLacing(mode) => Some(l.(mode := mode))
    case WithLimits(ms, bytes) =>
      if ms == 0 || ms > 0x7FFF || bytes < 1024 then None else Some(l.(maxMs := ms, maxBytes := bytes))
    case WithFrontCues(n) => if l.live || n < 32 || n >= TWO_TO_THE_32 then None else Some(l.(front := Some(n)))
    case WithExpansion(n) => if l.live || n < 2 || n >= TWO_TO_THE_32 then None else Some(l.(expansion := Some(n)))
  }

  /** A setter that returns an error changes nothing. */
  function Configure(l: Setup, setters: seq<Setter>): Setup
    decreases |setters|
  {
    if setters == [] then l
    else
      match Set(l, setters[0])
      case None => Configure(l, setters[1..])
      case Some(m) => Configure(m, setters[1..])
  }

  predicate AllKidsProper(strict: bool, kids: seq<seq<Elem>>) {
    forall i :: 0 <= i < |kids| ==> AllProper(strict, kids[i])
  }

  /** Elements of version 5 are queued only where the header's version counts them. */
  predicate OldHints(l: Setup) {
    !AnyV5(l.extensions) && !AnyV5(l.linking) && !AnyV5(l.info) && !AnyV5(l.attachments) && !AnyKidsV5(l.videoKids)
  }

  /** No guarded hint is queued while the muxer is strict. */
  predicate Guarded(l: Setup) {
    && AllProper(l.strict, l.extensions) && AllProper(l.strict, l.linking) && AllProper(l.strict, l.info)
    && AllProper(l.strict, l.chapters) && AllProper(l.strict, l.attachments)
    && (l.strict ==> AllWebmTargets(l.tags))
    && OldHints(l)
    && AllKidsProper(l.strict, l.trackKids) && AllKidsProper(l.strict, l.videoKids)
  }

  /** A hint's tree is one that setters of its kind build; the FourCC has a setter of its own. */
  predicate ProperSetter(s: Setter) {
    s.Hint? ==> s.kind != Fourcc && Proper(false, s.tree) && Built(s.kind, s.tree, false)
  }

  lemma {:induction false} LenientProper(e: Elem)
    requires Proper(true, e)
    ensures Proper(false, e)
  {
    hide OffProfile, IsMaster;
    if e.Node? {
      forall i | 0 <= i < |e.kids|
        ensures Proper(false, e.kids[i])
      {
        LenientProper(e.kids[i]);
      }
    }
  }

  lemma LenientAll(strict: bool, es: seq<Elem>)
    requires AllProper(strict, es)
    ensures AllProper(false, es)
  {
    hide Proper;
    if strict {
      forall i | 0 <= i < |es|
        ensures Proper(false, es[i])
      {
        LenientProper(es[i]);
      }
    }
  }

  lemma LenientKids(strict: bool, kids: seq<seq<Elem>>)
    requires AllKidsProper(strict, kids)
    ensures AllKidsProper(false, kids)
  {
    hide AllProper;
    forall i | 0 <= i < |kids|
      ensures AllProper(false, kids[i])
    {
      LenientAll(strict, kids[i]);
    }
  }

  lemma KidsQueued(strict: bool, kids: seq<seq<Elem>>, i: nat, tree: Elem)
    requires AllKidsProper(strict, kids) && i < |kids| && Proper(strict, tree)
    ensures AllKidsProper(strict, kids[i := kids[i] + [tree]])
  {
    hide Proper, AllProper;
    OneIsProper(strict, tree);
    ProperAppend(strict, kids[i], [tree]);
  }

  lemma QueuedIsGuarded(l: Setup, place: HintPlace, tree: Elem)
    requires Guarded(l) && PlaceExists(l, place) && Proper(l.strict, tree)
    requires HasV5(tree) ==> place.InTrack? || place.InEdition?
    ensures Guarded(Queued(l, place, tree))
  {
    hide Proper, AllProper, AllKidsProper, WebmTargets, OldHints;
    QueuedIsOld(l, place, tree);
    OneIsProper(l.strict, tree);
    match place
    case InHeader => ProperAppend(l.strict, l.extensions, [tree]);
    case BeforeScale => ProperAppend(l.strict, l.linking, [tree]);
    case InInfo => ProperAppend(l.strict, l.info, [tree]);
    case InTrack(i) => KidsQueued(l.strict, l.trackKids, i, tree);
    case InVideo(i) => KidsQueued(l.strict, l.videoKids, i, tree);
    case InEdition => ProperAppend(l.strict, l.chapters, [tree]);
    case InAttachments => ProperAppend(l.strict, l.attachments, [tree]);
  }

  lemma QueuedIsOld(l: Setup, place: HintPlace, tree: Elem)
    requires OldHints(l) && PlaceExists(l, place) && (HasV5(tree) ==> place.InTrack? || place.InEdition?)
    ensures OldHints(Queued(l, place, tree))
  {
    hide HasV5, AnyV5, AnyKidsV5;
    match place
    case InHeader => V5Snoc(l.extensions, tree);
    case BeforeScale => V5Snoc(l.linking, tree);
    case InInfo => V5Snoc(l.info, tree);
    case InVideo(i) => V5KidsQueued(l.videoKids, i, tree);
    case InAttachments => V5Snoc(l.attachments, tree);
    case _ =>
  }

  lemma V5HasItsPlace(kind: HintKind, i: nat, tree: Elem)
    requires Built(kind, tree, false) && HasV5(tree)
    ensures PlaceOf(kind, i).InTrack? || PlaceOf(kind, i).InEdition?
  {
    hide Built, HasV5;
    if kind != Chapters && kind != AudioFields {
      V5Hints(kind, tree, false);
    }
  }

  /** Every setter keeps the queued state valid and guarded. */
  lemma SetKeepsGuard(l: Setup, s: Setter)
    requires ValidSetup(l) && Guarded(l) && ProperSetter(s) && Set(l, s).Some?
    ensures ValidSetup(Set(l, s).value) && Guarded(Set(l, s).value)
  {
    SetIsValid(l, s);
    hide Proper, AllProper, AllKidsProper, ValidSetup, Built, Refuses, HasV5, WebmTargets, ValidTag, NeedsV5, OldHints;
    match s
    case Hint(kind, i, tree) =>
      if l.strict {
        BuiltIsInProfile(kind, tree);
        ProfileMakesProper(tree);
      }
      if HasV5(tree) {
        V5HasItsPlace(kind, i, tree);
      }
      QueuedIsGuarded(l, PlaceOf(kind, i), tree);
    case WithLenient =>
      LenientAll(l.strict, l.extensions);
      LenientAll(l.strict, l.linking);
      LenientAll(l.strict, l.info);
      LenientAll(l.strict, l.chapters);
      LenientAll(l.strict, l.attachments);
      LenientKids(l.strict, l.trackKids);
      LenientKids(l.strict, l.videoKids);
    case _ =>
  }

  lemma SetIsValid(l: Setup, s: Setter)
    requires ValidSetup(l) && Set(l, s).Some?
    ensures ValidSetup(Set(l, s).value)
  {
    hide Numbered, FourccsOk, HasV5, AnyV5, Refuses, NeedsV5, ValidTag, WebmTargets, AnyKidsV5;
    match s
    case Hint(kind, i, tree) =>
      AttachmentsRefused(kind, i, tree);
      QueuedIsValid(l, PlaceOf(kind, i), tree);
    case AddTag(tag) => OneMoreTag(l.tags, tag);
    case FourCC(i, fourcc) => OneMoreFourcc(l.streams, l.fourccs, i, fourcc);
    case _ =>
  }

  lemma AttachmentsRefused(kind: HintKind, i: nat, tree: Elem)
    ensures PlaceOf(kind, i).InAttachments? ==> Refuses(kind, tree)
  {
    hide Mentions;
  }

  lemma QueuedIsValid(l: Setup, place: HintPlace, tree: Elem)
    requires ValidSetup(l) && PlaceExists(l, place) && (l.strict ==> !place.InAttachments?) && (l.webm ==> !HasV5(tree))
    ensures ValidSetup(Queued(l, place, tree))
  {
    hide Numbered, FourccsOk, HasV5, AnyV5, AnyKidsV5;
    match place
    case InTrack(i) => V5KidsQueued(l.trackKids, i, tree);
    case InEdition => V5Snoc(l.chapters, tree);
    case _ =>
  }

  lemma OneMoreTag(tags: seq<Tag>, tag: Tag)
    ensures SomeTagNeedsV5(tags + [tag]) <==> SomeTagNeedsV5(tags) || NeedsV5(tag)
  {
    hide NeedsV5;
    var more := tags + [tag];
    if SomeTagNeedsV5(tags) {
      var i :| 0 <= i < |tags| && NeedsV5(tags[i]);
      assert NeedsV5(more[i]);
    }
    if NeedsV5(tag) {
      assert NeedsV5(more[|tags|]);
    }
  }

  lemma V5KidsQueued(kids: seq<seq<Elem>>, i: nat, tree: Elem)
    requires i < |kids|
    ensures AnyKidsV5(kids[i := kids[i] + [tree]]) <==> AnyKidsV5(kids) || HasV5(tree)
  {
    hide HasV5, AnyV5;
    V5Snoc(kids[i], tree);
    var more := kids[i := kids[i] + [tree]];
    if AnyKidsV5(kids) {
      var j :| 0 <= j < |kids| && AnyV5(kids[j]);
      assert AnyV5(more[j]);
    }
    if HasV5(tree) {
      assert AnyV5(more[i]);
    }
    if AnyKidsV5(more) {
      var j :| 0 <= j < |more| && AnyV5(more[j]);
      assert j != i ==> more[j] == kids[j];
    }
  }

  lemma OneMoreFourcc(streams: seq<Track>, fourccs: seq<Option<seq<byte>>>, i: nat, fourcc: seq<byte>)
    requires FourccsOk(streams, fourccs) && i < |streams| && i < |fourccs|
    requires streams[i].media == VideoMedia && |fourcc| == 4
    ensures FourccsOk(streams, fourccs[i := Some(fourcc)])
  {
  }

  lemma NewIsGuarded(webm: bool, streams: seq<Stream>)
    ensures ValidSetup(New(webm, streams)) && Guarded(New(webm, streams))
  {
    hide Proper;
  }

  predicate ProperSetters(setters: seq<Setter>) {
    forall i :: 0 <= i < |setters| ==> ProperSetter(setters[i])
  }

  /** Whatever was queued, in whatever order, a muxer that is still strict holds no off-profile tree. */
  lemma {:induction false} ConfiguredIsGuarded(l: Setup, setters: seq<Setter>)
    requires ValidSetup(l) && Guarded(l) && ProperSetters(setters)
    ensures ValidSetup(Configure(l, setters)) && Guarded(Configure(l, setters))
    decreases |setters|
  {
    hide Guarded, ValidSetup, Set;
    if setters != [] {
      assert ProperSetters(setters[1..]);
      match Set(l, setters[0])
      case None => ConfiguredIsGuarded(l, setters[1..]);
      case Some(m) =>
        SetKeepsGuard(l, setters[0]);
        ConfiguredIsGuarded(m, setters[1..]);
    }
  }
}
