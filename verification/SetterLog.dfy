/**
 * The queued state, told from the list of setters that were taken: every field is what the last setter
 * for it said, or all that were queued for it in order, and whether a setter is taken depends on the
 * streams, the container and the setters taken before it.
 */
module SetterLog {
  import opened Wrappers
  import opened Bytes
  import opened Elements
  import opened Lacing
  import opened HintGuards
  import opened TreeRules
  import opened Tags
  import opened Muxer
  import opened MuxerFile
  import opened Setters
  import opened EndToEnd

  // ----- what a list of setters says -----

  /** WebM is strict until it is made lenient. */
  predicate IsStrict(webm: bool, taken: seq<Setter>) {
    webm && WithLenient !in taken
  }

  function TreesAt(taken: seq<Setter>, place: HintPlace): seq<Elem> {
    if taken == [] then []
    else
      var init, last := taken[..|taken| - 1], taken[|taken| - 1];
      TreesAt(init, place) + if last.Hint? && PlaceOf(last.kind, last.stream) == place then [last.tree] else []
  }

  function TagsIn(taken: seq<Setter>): seq<Tag> {
    if taken == [] then []
    else
      var init, last := taken[..|taken| - 1], taken[|taken| - 1];
      TagsIn(init) + if last.AddTag? then [last.tag] else []
  }

  function FourccIn(taken: seq<Setter>, i: nat): Option<seq<byte>> {
    if taken == [] then None
    else
      var init, last := taken[..|taken| - 1], taken[|taken| - 1];
      if last.FourCC? && last.stream == i then Some(last.fourcc) else FourccIn(init, i)
  }

  function FlagIn(taken: seq<Setter>, i: nat): Option<bool> {
    if taken == [] then None
    else
      var init, last := taken[..|taken| - 1], taken[|taken| - 1];
      if last.FlagLacing? && last.stream == i then last.flag else FlagIn(init, i)
  }

  function EditionsIn(taken: seq<Setter>): seq<Display> {
    if taken == [] then []
    else
      var init, last := taken[..|taken| - 1], taken[|taken| - 1];
      if last.Editions? then last.displays else EditionsIn(init)
  }

  function ModeIn(taken: seq<Setter>): LacingMode {
    if taken == [] then NoLacing
    else
      var init, last := taken[..|taken| - 1], taken[|taken| - 1];
      if last.WithLacing? then last.mode else ModeIn(init)
  }

  /** Five seconds and five megabytes, unless limits were set. */
  function LimitsIn(taken: seq<Setter>): (nat, nat) {
    if taken == [] then (5000, 5000000)
    else
      var init, last := taken[..|taken| - 1], taken[|taken| - 1];
      if last.WithLimits? then (last.ms, last.bytes) else LimitsIn(init)
  }

  function FrontIn(taken: seq<Setter>): Option<nat> {
    if taken == [] then None
    else
      var init, last := taken[..|taken| - 1], taken[|taken| - 1];
      if last.WithFrontCues? then Some(last.reserved) else FrontIn(init)
  }

  function ExpansionIn(taken: seq<Setter>): Option<nat> {
    if taken == [] then None
    else
      var init, last := taken[..|taken| - 1], taken[|taken| - 1];
      if last.WithExpansion? then Some(last.reserved) else ExpansionIn(init)
  }

  /** Hints on a stream need it, and hints on its picture need a video stream. */
  predicate HasPlace(streams: seq<Stream>, place: HintPlace) {
    match place
    case InTrack(i) => i < |streams|
    case InVideo(i) => i < |streams| && streams[i].media == VideoMedia
    case _ => true
  }

  /** Whether a setter is taken behind these. */
  predicate Takes(webm: bool, streams: seq<Stream>, taken: seq<Setter>, s: Setter) {
    match s
    case Hint(kind, i, tree) =>
      && HasPlace(streams, PlaceOf(kind, i))
      && !(IsStrict(webm, taken) && Refuses(kind, tree)) && !(webm && HasV5(tree))
      && !(kind.KnownDuration? && WithFinalization in taken)
    case AddTag(tag) =>
      ValidTag(tag) && (IsStrict(webm, taken) ==> WebmTargets(tag.targets)) && (webm ==> !NeedsV5(tag))
    case FourCC(i, fourcc) => |fourcc| == 4 && i < |streams| && streams[i].media == VideoMedia
    case FlagLacing(i, _) => i < |streams|
    case Editions(ds) => PrintableLanguages(ds) && (webm ==> ds == [])
    case WithLenient => webm
    case WithLive => WithFinalization !in taken && FrontIn(taken).None? && ExpansionIn(taken).None?
    case WithFinalization => WithLive !in taken && !HoldsDuration(TreesAt(taken, InInfo))
    case WithLimits(ms, bytes) => 1 <= ms <= 32767 && 1024 <= bytes
    case WithFrontCues(n) => WithLive !in taken && 32 <= n < 0x1_0000_0000
    case WithExpansion(n) => WithLive !in taken && 2 <= n < 0x1_0000_0000
    case _ => true
  }

  /** The setters that are taken, in order, behind those taken already. */
  function TakenAfter(webm: bool, streams: seq<Stream>, taken: seq<Setter>, setters: seq<Setter>): seq<Setter>
    decreases |setters|
  {
    if setters == [] then taken
    else TakenAfter(webm, streams, if Takes(webm, streams, taken, setters[0]) then taken + [setters[0]] else taken,
                    setters[1..])
  }

  function TrackTrees(taken: seq<Setter>, n: nat): (r: seq<seq<Elem>>)
    ensures |r| == n
  {
    seq(n, i requires 0 <= i < n => TreesAt(taken, InTrack(i)))
  }

  function VideoTrees(taken: seq<Setter>, n: nat): (r: seq<seq<Elem>>)
    ensures |r| == n
  {
    seq(n, i requires 0 <= i < n => TreesAt(taken, InVideo(i)))
  }

  function Fourccs(taken: seq<Setter>, n: nat): (r: seq<Option<seq<byte>>>)
    ensures |r| == n
  {
    seq(n, i requires 0 <= i < n => FourccIn(taken, i))
  }

  function Flags(taken: seq<Setter>, n: nat): (r: seq<Option<bool>>)
    ensures |r| == n
  {
    seq(n, i requires 0 <= i < n => FlagIn(taken, i))
  }

  /** The queued state that the setters make. */
  function Summary(webm: bool, streams: seq<Stream>, taken: seq<Setter>): Setup {
    var n := |streams|;
    Setup(webm, IsStrict(webm, taken), TreesAt(taken, InHeader), WithLive in taken, WithHints in taken, ModeIn(taken),
          LimitsIn(taken).0, LimitsIn(taken).1, TracksFor(streams), ExpansionIn(taken), WithFinalization in taken,
          FrontIn(taken), TreesAt(taken, BeforeScale), TreesAt(taken, InInfo),
          TrackTrees(taken, n), VideoTrees(taken, n), Fourccs(taken, n), Flags(taken, n),
          EditionsIn(taken), TreesAt(taken, InEdition), TreesAt(taken, InAttachments), TagsIn(taken))
  }

  // ----- one setter -----

  lemma Latest(taken: seq<Setter>, s: Setter)
    ensures var more := taken + [s]; more[..|more| - 1] == taken && more[|more| - 1] == s
  {
  }

  lemma ListsGrow(taken: seq<Setter>, s: Setter)
    ensures var more := taken + [s];
            && (forall place ::
                  TreesAt(more, place) == if s.Hint? && PlaceOf(s.kind, s.stream) == place then
                                            TreesAt(taken, place) + [s.tree]
                                          else TreesAt(taken, place))
            && TagsIn(more) == if s.AddTag? then TagsIn(taken) + [s.tag] else TagsIn(taken)
  {
    hide PlaceOf;
    Latest(taken, s);
    assert forall trees: seq<Elem> :: trees + [] == trees;
    assert TagsIn(taken) + [] == TagsIn(taken);
  }

  lemma LastsChange(taken: seq<Setter>, s: Setter)
    ensures var more := taken + [s];
            && (forall i: nat :: FourccIn(more, i) ==
                                 if s.FourCC? && s.stream == i then Some(s.fourcc) else FourccIn(taken, i))
            && (forall i: nat :: FlagIn(more, i) ==
                                 if s.FlagLacing? && s.stream == i then s.flag else FlagIn(taken, i))
            && EditionsIn(more) == (if s.Editions? then s.displays else EditionsIn(taken))
            && ModeIn(more) == (if s.WithLacing? then s.mode else ModeIn(taken))
            && LimitsIn(more) == (if s.WithLimits? then (s.ms, s.bytes) else LimitsIn(taken))
            && FrontIn(more) == (if s.WithFrontCues? then Some(s.reserved) else FrontIn(taken))
            && ExpansionIn(more) == if s.WithExpansion? then Some(s.reserved) else ExpansionIn(taken)
  {
    Latest(taken, s);
  }

  /** The lists for each stream change for one stream at most. */
  lemma TreesPerStream(taken: seq<Setter>, s: Setter, n: nat)
    ensures var more := taken + [s];
            (forall i :: 0 <= i < n && s.Hint? && PlaceOf(s.kind, s.stream) == InTrack(i) ==>
               TrackTrees(more, n) == TrackTrees(taken, n)[i := TrackTrees(taken, n)[i] + [s.tree]])
            && ((s.Hint? ==> !PlaceOf(s.kind, s.stream).InTrack?) ==> TrackTrees(more, n) == TrackTrees(taken, n))
    ensures var more := taken + [s];
            (forall i :: 0 <= i < n && s.Hint? && PlaceOf(s.kind, s.stream) == InVideo(i) ==>
               VideoTrees(more, n) == VideoTrees(taken, n)[i := VideoTrees(taken, n)[i] + [s.tree]])
            && ((s.Hint? ==> !PlaceOf(s.kind, s.stream).InVideo?) ==> VideoTrees(more, n) == VideoTrees(taken, n))
  {
    hide TreesAt, PlaceOf;
    ListsGrow(taken, s);
    var more := taken + [s];
    forall k | 0 <= k < n
      ensures TrackTrees(more, n)[k] == if s.Hint? && PlaceOf(s.kind, s.stream) == InTrack(k) then
                                          TrackTrees(taken, n)[k] + [s.tree]
                                        else TrackTrees(taken, n)[k]
      ensures VideoTrees(more, n)[k] == if s.Hint? && PlaceOf(s.kind, s.stream) == InVideo(k) then
                                          VideoTrees(taken, n)[k] + [s.tree]
                                        else VideoTrees(taken, n)[k]
    {
      assert TreesAt(more, InTrack(k)) == TrackTrees(more, n)[k] && TreesAt(more, InVideo(k)) == VideoTrees(more, n)[k];
    }
  }

  lemma LastsPerStream(taken: seq<Setter>, s: Setter, n: nat)
    ensures var more := taken + [s];
            && Fourccs(more, n)
            == (if s.FourCC? && s.stream < n then Fourccs(taken, n)[s.stream := Some(s.fourcc)] else Fourccs(taken, n))
            && Flags(more, n)
            == if s.FlagLacing? && s.stream < n then Flags(taken, n)[s.stream := s.flag] else Flags(taken, n)
  {
    hide FourccIn, FlagIn, EditionsIn, ModeIn, LimitsIn, FrontIn, ExpansionIn;
    LastsChange(taken, s);
  }

  /** A setter is an error exactly if it is not taken. */
  lemma ErrorsAreRefusals(webm: bool, streams: seq<Stream>, taken: seq<Setter>, s: Setter)
    ensures Set(Summary(webm, streams, taken), s).Some? <==> Takes(webm, streams, taken, s)
  {
    hide TreesAt, TagsIn, FourccIn, FlagIn, EditionsIn, ModeIn, LimitsIn, FrontIn, ExpansionIn, PlaceOf, Refuses, HasV5,
      ValidTag, WebmTargets, NeedsV5, PrintableLanguages, HoldsDuration;
    assert forall i :: 0 <= i < |streams| ==> TracksFor(streams)[i].media == streams[i].media;
  }

  /** Everything but the trees stays as it was. */
  lemma HintChangesTrees(webm: bool, streams: seq<Stream>, taken: seq<Setter>, s: Setter)
    requires s.Hint?
    ensures var l, more := Summary(webm, streams, taken), Summary(webm, streams, taken + [s]);
            more == l.(extensions := more.extensions, linking := more.linking, info := more.info,
                       trackKids := more.trackKids, videoKids := more.videoKids, chapters := more.chapters,
                       attachments := more.attachments)
  {
    hide TreesAt, TagsIn, FourccIn, FlagIn, EditionsIn, ModeIn, LimitsIn, FrontIn, ExpansionIn, Fourccs, Flags,
      TracksFor, TrackTrees, VideoTrees;
    ListsGrow(taken, s);
    LastsChange(taken, s);
    LastsPerStream(taken, s, |streams|);
    StillTaken(taken, s);
  }

  lemma StreamHintFollows(webm: bool, streams: seq<Stream>, taken: seq<Setter>, s: Setter)
    requires s.Hint? && PlaceExists(Summary(webm, streams, taken), PlaceOf(s.kind, s.stream))
    requires PlaceOf(s.kind, s.stream).InTrack? || PlaceOf(s.kind, s.stream).InVideo?
    ensures Queued(Summary(webm, streams, taken), PlaceOf(s.kind, s.stream), s.tree)
         == Summary(webm, streams, taken + [s])
  {
    HintChangesTrees(webm, streams, taken, s);
    hide TreesAt, TagsIn, FourccIn, FlagIn, EditionsIn, ModeIn, LimitsIn, FrontIn, ExpansionIn, PlaceOf, Fourccs, Flags,
      TracksFor, TrackTrees, VideoTrees, IsStrict;
    ListsGrow(taken, s);
    TreesPerStream(taken, s, |streams|);
  }

  lemma FileHintFollows(webm: bool, streams: seq<Stream>, taken: seq<Setter>, s: Setter)
    requires s.Hint? && PlaceExists(Summary(webm, streams, taken), PlaceOf(s.kind, s.stream))
    requires !PlaceOf(s.kind, s.stream).InTrack? && !PlaceOf(s.kind, s.stream).InVideo?
    ensures Queued(Summary(webm, streams, taken), PlaceOf(s.kind, s.stream), s.tree)
         == Summary(webm, streams, taken + [s])
  {
    HintChangesTrees(webm, streams, taken, s);
    hide TreesAt, TagsIn, FourccIn, FlagIn, EditionsIn, ModeIn, LimitsIn, FrontIn, ExpansionIn, PlaceOf, Fourccs, Flags,
      TracksFor, TrackTrees, VideoTrees, IsStrict;
    ListsGrow(taken, s);
    TreesPerStream(taken, s, |streams|);
  }

  lemma HintFollowsList(webm: bool, streams: seq<Stream>, taken: seq<Setter>, s: Setter)
    requires s.Hint? && PlaceExists(Summary(webm, streams, taken), PlaceOf(s.kind, s.stream))
    ensures Queued(Summary(webm, streams, taken), PlaceOf(s.kind, s.stream), s.tree)
         == Summary(webm, streams, taken + [s])
  {
    hide Summary, Queued, PlaceOf;
    if PlaceOf(s.kind, s.stream).InTrack? || PlaceOf(s.kind, s.stream).InVideo? {
      StreamHintFollows(webm, streams, taken, s);
    } else {
      FileHintFollows(webm, streams, taken, s);
    }
  }

  lemma StillTaken(taken: seq<Setter>, s: Setter)
    ensures forall t :: t in taken + [s] <==> t in taken || t == s
  {
  }

  /** A setter is taken exactly if it is no error, and then makes the state that its list says. */
  lemma SetFollowsList(webm: bool, streams: seq<Stream>, taken: seq<Setter>, s: Setter)
    ensures Set(Summary(webm, streams, taken), s)
         == if Takes(webm, streams, taken, s) then Some(Summary(webm, streams, taken + [s])) else None
  {
    ErrorsAreRefusals(webm, streams, taken, s);
    hide TreesAt, TagsIn, FourccIn, FlagIn, EditionsIn, ModeIn, LimitsIn, FrontIn, ExpansionIn, PlaceOf, Refuses, HasV5,
      ValidTag, WebmTargets, NeedsV5, PrintableLanguages, HoldsDuration, TrackTrees, VideoTrees, Fourccs, Flags, Takes,
      TracksFor, Queued;
    if s.Hint? {
      if Takes(webm, streams, taken, s) {
        HintFollowsList(webm, streams, taken, s);
      }
    } else {
      ListsGrow(taken, s);
      LastsChange(taken, s);
      TreesPerStream(taken, s, |streams|);
      LastsPerStream(taken, s, |streams|);
      StillTaken(taken, s);
    }
  }

  /** The whole configuration is what the taken setters say. */
  lemma {:induction false} ConfigureFollowsList(
    webm: bool, streams: seq<Stream>, taken: seq<Setter>, setters: seq<Setter>)
    ensures Configure(Summary(webm, streams, taken), setters)
         == Summary(webm, streams, TakenAfter(webm, streams, taken, setters))
    decreases |setters|
  {
    hide Set, Summary, Takes;
    if setters != [] {
      SetFollowsList(webm, streams, taken, setters[0]);
      ConfigureFollowsList(webm, streams,
                           if Takes(webm, streams, taken, setters[0]) then taken + [setters[0]] else taken,
                             setters[1..]);
    }
  }

  lemma NewIsSummary(webm: bool, streams: seq<Stream>)
    ensures New(webm, streams) == Summary(webm, streams, [])
  {
  }

  /** A muxer as its setters left it is the summary of those that were taken. */
  lemma ConfiguredIsSummary(webm: bool, streams: seq<Stream>, setters: seq<Setter>)
    requires ProperSetters(setters)
    ensures Configured(webm, streams, setters) == Summary(webm, streams, TakenAfter(webm, streams, [], setters))
  {
    hide Summary, Configure, New, Guarded, ValidSetup, ProperSetter;
    NewIsSummary(webm, streams);
    ConfigureFollowsList(webm, streams, [], setters);
  }

  /** The streams keep what the caller said about them, and are numbered from 1. */
  lemma TracksAreStreams(streams: seq<Stream>, i: nat)
    requires i < |streams|
    ensures var t, s := TracksFor(streams)[i], streams[i];
            && t.number == i + 1 && t.media == s.media && t.codec == s.codec && t.codecId == s.codecId
            && t.codecPrivate == s.codecPrivate && t.num == s.num && t.den == s.den
            && t.maxAdditionId == s.maxAdditionId
  {
  }
}
