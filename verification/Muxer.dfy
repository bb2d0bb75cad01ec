/**
 * The streaming muxer between its header and its trailer, as a state machine. A state holds the
 * fields of `MkvMuxer` that a run changes and, in place of the file, the Segment's children
 * written so far. Positions count from the start of the Segment's data.
 */
module Muxer {
  import opened Wrappers
  import opened Bytes
  import opened Ids
  import opened Elements
  import opened Lacing
  import opened Cues
  import opened Codecs
  import opened Tags

  const MAX_FRAMES_PER_LACE: nat := 8

  datatype Media = VideoMedia | AudioMedia | SubtitleMedia | OtherMedia

  /** The codecs that WebM admits, the one whose packets lose a header, and all others. */
  datatype Codec = Vp8 | Vp9 | Av1 | Vorbis | Opus | Aac | OtherCodec

  /**
   * `num / den` is the stream's time base in seconds. `codecId` and `codecPrivate` are what the codec
   * table makes of the codec and its extradata.
   */
  datatype Track = Track(
    number: nat, media: Media, codec: Codec, codecId: seq<byte>, codecPrivate: seq<byte>, num: int, den: int,
    maxAdditionId: nat)

  /**
   * `head` is the length of everything between the Segment's header and the first Cluster, and
   * `version` the DocTypeVersion in the EBML header.
   */
  datatype Config = Config(
    strict: bool, live: bool, hints: bool, mode: LacingMode, maxMs: nat, maxBytes: nat,
    tracks: seq<Track>, head: nat, version: nat)

  /** What `new` and the setters let through. */
  predicate ValidConfig(c: Config) {
    && 1 <= c.maxMs <= 0x7FFF && c.maxBytes >= 1024
    && forall i :: 0 <= i < |c.tracks| ==> c.tracks[i].number == i + 1
  }

  /** `pts` and `duration` are in the ticks of the stream. */
  datatype Packet = Packet(stream: nat, data: seq<byte>, pts: Option<int>, duration: Option<int>, key: bool)

  /** The bytes that go into the Block: AAC loses its transport header. */
  function FrameData(c: Config, p: Packet): Option<seq<byte>> {
    if p.stream >= |c.tracks| then None
    else if c.tracks[p.stream].codec == Aac then StripAdts(p.data)
    else Some(p.data)
  }

  /** Opus packets say their duration themselves. */
  function Ticks(p: Packet, t: Track): Option<int> {
    if t.codec != Opus then p.duration
    else
      var samples :- OpusSamples(p.data);
      Some(samples)
  }

  datatype Addition = Addition(id: nat, data: seq<byte>)

  datatype TimeSlice = TimeSlice(
    laceNumber: Option<nat>, frameNumber: Option<nat>, additionId: Option<nat>, delay: Option<nat>,
    duration: Option<nat>)

  datatype ReferenceFrame = ReferenceFrame(offset: Option<nat>, timestamp: Option<nat>)

  /** The last four are the reclaimed children of Appendix A.3 to A.14 of RFC 9559. */
  datatype GroupOptions = GroupOptions(
    additions: seq<Addition>, references: seq<int>, priority: nat, codecState: Option<seq<byte>>,
    discardPadding: Option<int>, blockVirtual: Option<seq<byte>>, referenceVirtual: Option<int>,
    slices: seq<TimeSlice>, referenceFrame: Option<ReferenceFrame>)

  /** What strict WebM refuses in a group. */
  predicate OffProfileGroup(g: GroupOptions) {
    g.priority != 0 || g.codecState.Some? || g.blockVirtual.Some? || g.referenceVirtual.Some? || g.slices != []
    || g.referenceFrame.Some?
  }

  datatype Wrap = Plain | WithAdditions(additions: seq<Addition>) | WithGroup(group: GroupOptions)

  /** A group's options, with the references that it is written with. */
  datatype BlockGroup = BlockGroup(options: GroupOptions, references: seq<int>)

  /** An accepted packet: its frame, its time and duration in milliseconds, and its group, if it has one. */
  datatype Frame = Frame(
    stream: nat, data: seq<byte>, ms: int, key: bool, length: Option<nat>, group: Option<BlockGroup>)

  function OptionsOf(f: Frame): Option<GroupOptions> {
    if f.group.Some? then Some(f.group.value.options) else None
  }

  function Datas(frames: seq<Frame>): (d: seq<seq<byte>>)
    ensures |d| == |frames| && forall i :: 0 <= i < |d| ==> d[i] == frames[i].data
  {
    if frames == [] then [] else [frames[0].data] + Datas(frames[1..])
  }

  // ----- the Segment's children -----

  /** A Block on disk, in a BlockGroup if it has siblings; `sources` are the packets it carries. */
  datatype BlockRec = BlockRec(block: Block, siblings: Option<seq<Elem>>, sources: seq<Frame>)

  function BlockElem(r: BlockRec): Elem {
    match r.siblings
    case None => SimpleBlock(r.block)
    case Some(siblings) => Master(BLOCK_GROUP, [Bin(BLOCK, BlockBody(r.block))] + siblings)
  }

  function BlockElems(rs: seq<BlockRec>): (es: seq<Elem>)
    ensures |es| == |rs| && forall i :: 0 <= i < |es| ==> es[i] == BlockElem(rs[i])
  {
    if rs == [] then [] else [BlockElem(rs[0])] + BlockElems(rs[1..])
  }

  datatype Item =
    | Cluster(time: nat, lead: seq<Elem>, blocks: seq<BlockRec>)
    | Fixed(elem: Elem)

  function ItemElem(item: Item): Elem {
    match item
    case Cluster(_, lead, blocks) => Open(CLUSTER, lead + BlockElems(blocks))
    case Fixed(elem) => elem
  }

  function ItemElems(items: seq<Item>): (es: seq<Elem>)
    ensures |es| == |items| && forall i :: 0 <= i < |es| ==> es[i] == ItemElem(items[i])
  {
    if items == [] then [] else [ItemElem(items[0])] + ItemElems(items[1..])
  }

  function ItemBytes(items: seq<Item>): seq<byte> {
    SerAll(ItemElems(items))
  }

  // ----- the muxer's fields -----

  datatype LaceBuffer = LaceBuffer(offset: int, key: bool, frames: seq<Frame>)

  /**
   * `cueAt` remembers which item each cue points into, and `accepted` every accepted packet; the
   * muxer has neither.
   */
  datatype State = State(
    items: seq<Item>,
    open: bool, tc: int, bytes: nat, count: nat, clusterAt: nat, bodyAt: nat, prevAt: Option<nat>,
    laces: seq<LaceBuffer>, cues: seq<CueRecord>, seen: seq<bool>, lastPts: seq<Option<int>>,
    streamPts: seq<int>, maxEnd: Option<int>, silent: seq<nat>,
    cueAt: seq<nat>, accepted: seq<Frame>)

  function Initial(c: Config): State {
    var n := |c.tracks|;
    State([], false, 0, 0, 0, 0, 0, None, seq(n, _ => LaceBuffer(0, false, [])), [], seq(n, _ => false),
          seq(n, _ => None), seq(n, _ => 0), None, [], [], [])
  }

  predicate Last(items: seq<Item>) {
    items != [] && items[|items| - 1].Cluster?
  }

  /** One slot per track; an open Cluster is the last item; a pending lace needs one. */
  predicate Ready(c: Config, s: State) {
    && |s.laces| == |s.seen| == |s.lastPts| == |s.streamPts| == |c.tracks|
    && (s.open ==> Last(s.items))
    && (forall i :: 0 <= i < |s.laces| ==> s.laces[i].frames != [] ==> s.open)
  }

  function Cursor(c: Config, s: State): nat {
    c.head + |ItemBytes(s.items)|
  }

  /** The items with one more Block in the last Cluster. */
  function Put(items: seq<Item>, r: BlockRec): seq<Item>
    requires Last(items)
  {
    var n := |items| - 1;
    items[..n] + [items[n].(blocks := items[n].blocks + [r])]
  }

  /** `output.write_all(&block_bytes)` and the two counters. */
  function WriteBlock(s: State, r: BlockRec): State
    requires Last(s.items)
  {
    s.(items := Put(s.items, r), bytes := s.bytes + |Ser(BlockElem(r))|, count := s.count + 1)
  }

  /** A cue for the Block about to be written. */
  function AddCue(c: Config, s: State, i: nat, ms: int, duration: Option<nat>): State
    requires Ready(c, s) && s.open && i < |c.tracks|
  {
    var relative := if Cursor(c, s) > s.bodyAt then Cursor(c, s) - s.bodyAt else 0;
    var cue := CueRecord(c.tracks[i].number, if ms > 0 then ms else 0, s.clusterAt, relative, s.count + 1, duration);
    s.(cues := s.cues + [cue], cueAt := s.cueAt + [|s.items| - 1], seen := s.seen[i := true])
  }

  // ----- lacing -----

  function LaceBlock(c: Config, i: nat, l: LaceBuffer): BlockRec
    requires i < |c.tracks|
  {
    var mode := if |l.frames| == 1 then NoLacing else c.mode;
    BlockRec(Block(c.tracks[i].number, l.offset, l.key, mode, Datas(l.frames)), None, l.frames)
  }

  predicate Indexable(media: Media, key: bool) {
    media == VideoMedia ==> key
  }

  function FlushLace(c: Config, s: State, i: nat): (r: State)
    requires Ready(c, s) && i < |c.tracks|
    ensures Ready(c, r) && r.open == s.open && r.tc == s.tc
    ensures r.laces == s.laces[i := s.laces[i].(frames := [])]
  {
    var l := s.laces[i];
    if l.frames == [] then s
    else
      var taken := s.(laces := s.laces[i := l.(frames := [])]);
      var cued := if !s.seen[i] && Indexable(c.tracks[i].media, l.key) then AddCue(c, taken, i, s.tc + l.offset, None)
                  else taken;
      WriteBlock(cued, LaceBlock(c, i, l))
  }

  /** Flush every pending lace from track `i` on, leaving out `keep`. */
  function FlushFrom(c: Config, s: State, i: nat, keep: Option<nat>): (r: State)
    requires Ready(c, s) && i <= |c.tracks|
    ensures Ready(c, r) && r.open == s.open && r.tc == s.tc
    decreases |c.tracks| - i
  {
    if i == |c.tracks| then s
    else FlushFrom(c, if keep == Some(i) then s else FlushLace(c, s, i), i + 1, keep)
  }

  /** The track's own lace belongs to the Cluster that is about to end. */
  function EndLace(c: Config, s: State, i: nat): (r: State)
    requires Ready(c, s) && i < |c.tracks|
    ensures Ready(c, r) && r.open == s.open && r.tc == s.tc
    ensures c.mode == NoLacing ==> r == s
    ensures c.mode != NoLacing ==> r.laces == s.laces[i := s.laces[i].(frames := [])]
  {
    if c.mode == NoLacing then s else FlushLace(c, s, i)
  }

  predicate MustFlush(c: Config, l: LaceBuffer, f: Frame) {
    l.frames != [] &&
    (l.key != f.key || |l.frames| >= MAX_FRAMES_PER_LACE || (c.mode == FixedSize && |l.frames[0].data| != |f.data|))
  }

  function AppendToLace(c: Config, s: State, i: nat, offset: int, f: Frame): (r: State)
    requires Ready(c, s) && s.open && i < |c.tracks|
    ensures Ready(c, r)
  {
    var flushed := if MustFlush(c, s.laces[i], f) then FlushLace(c, s, i) else s;
    var l := flushed.laces[i];
    var seeded := if l.frames == [] then l.(offset := offset, key := f.key) else l;
    flushed.(laces := flushed.laces[i := seeded.(frames := l.frames + [f])])
  }

  // ----- Clusters -----

  function NonNegative(ms: int): nat {
    if ms > 0 then ms else 0
  }

  function SilentElems(numbers: seq<nat>): seq<Elem> {
    if numbers == [] then [] else [Uint(SILENT_TRACK_NUMBER, numbers[0])] + SilentElems(numbers[1..])
  }

  /** Timestamp, then the optional position hints. */
  function Lead(c: Config, ms: int, at: nat, prev: Option<nat>): seq<Elem> {
    [Uint(TIMECODE, NonNegative(ms))]
    + (if c.hints && !c.strict then [Uint(POSITION, if c.live then 0 else at)] else [])
    + (if c.hints && prev.Some? then [Uint(PREV_SIZE, if at > prev.value then at - prev.value else 0)] else [])
  }

  function FullLead(c: Config, s: State, ms: int): seq<Elem> {
    Lead(c, ms, Cursor(c, s), s.prevAt)
    + (if s.silent == [] then [] else [Master(SILENT_TRACKS, SilentElems(s.silent))])
  }

  /** The strict-WebM guard on SilentTracks, which `start_cluster` meets in the middle of its work. */
  predicate SilentBlocked(c: Config, s: State) {
    c.strict && s.silent != []
  }

  function StartCluster(c: Config, s: State, ms: int): (r: State)
    requires Ready(c, s) && forall i :: 0 <= i < |s.laces| ==> s.laces[i].frames == []
    ensures Ready(c, r) && r.open && r.laces == s.laces && r.tc == NonNegative(ms)
  {
    var at := Cursor(c, s);
    s.(items := s.items + [Cluster(NonNegative(ms), FullLead(c, s, ms), [])],
       open := true, tc := NonNegative(ms), bytes := 0, count := 0, clusterAt := at, bodyAt := at + 5,
       prevAt := Some(at), seen := seq(|c.tracks|, _ => false), silent := [])
  }

  /** What the guard leaves behind: a Cluster header with its Timestamp, and moved offsets. */
  function Aborted(c: Config, s: State, ms: int): State {
    var at := Cursor(c, s);
    s.(items := s.items + [Cluster(NonNegative(ms), Lead(c, ms, at, s.prevAt), [])],
       clusterAt := at, bodyAt := at + 5, prevAt := Some(at))
  }

  predicate NeedsCluster(c: Config, s: State, ms: int) {
    !s.open || ms - s.tc > c.maxMs || ms - s.tc > 0x7FFF || ms - s.tc < 0 || s.bytes >= c.maxBytes
  }

  // ----- one packet -----

  function TruncDiv(a: int, b: int): int
    requires b != 0
  {
    var q := (if a < 0 then -a else a) / (if b < 0 then -b else b);
    if (a < 0) == (b < 0) then q else -q
  }

  /** The source's `i64`: a cast keeps the low 64 bits. */
  function I64(v: int): int {
    (v + TWO_TO_THE_63) % TWO_TO_THE_64 - TWO_TO_THE_63
  }

  function PtsToMs(v: int, t: Track): (ms: int)
    ensures -TWO_TO_THE_63 <= ms < TWO_TO_THE_63
  {
    I64(if t.den == 0 then v else TruncDiv(v * t.num * 1000, t.den))
  }

  /** `saturating_add`. */
  function SaturatingAdd(a: int, b: nat): int {
    if a + b < TWO_TO_THE_63 then a + b else TWO_TO_THE_63 - 1
  }

  function DurationMs(p: Packet, t: Track): Option<nat> {
    match Ticks(p, t)
    case None => None
    case Some(d) => if PtsToMs(d, t) >= 0 then Some(PtsToMs(d, t)) else None
  }

  predicate AdditionsOk(t: Track, additions: seq<Addition>) {
    && t.maxAdditionId != 0
    && (forall i :: 0 <= i < |additions| ==> 0 < additions[i].id <= t.maxAdditionId)
    && (forall i, j :: 0 <= i < j < |additions| ==> additions[i].id != additions[j].id)
  }

  /** The checks before any byte is written: the group to write, if any, or a rejection. */
  function Admit(c: Config, stream: nat, wrap: Wrap): Option<Option<GroupOptions>> {
    match wrap
    case Plain => if stream < |c.tracks| then Some(None) else None
    case WithAdditions(additions) =>
      if stream >= |c.tracks| then None
      else if additions == [] then Some(None)
      else if !AdditionsOk(c.tracks[stream], additions) then None
      else Some(Some(GroupOptions(additions, [], 0, None, None, None, None, [], None)))
    case WithGroup(g) =>
      if c.strict && OffProfileGroup(g) then None
      else if stream >= |c.tracks| then None
      else if g.additions != [] && !AdditionsOk(c.tracks[stream], g.additions) then None
      else Some(Some(g))
  }

  function Mores(additions: seq<Addition>): seq<Elem> {
    if additions == [] then []
    else
      var a := additions[0];
      [Master(BLOCK_MORE, [Bin(BLOCK_ADDITIONAL, a.data)] + if a.id != 1 then [Uint(BLOCK_ADD_ID, a.id)] else [])]
      + Mores(additions[1..])
  }

  function References(refs: seq<int>): seq<Elem> {
    if refs == [] then [] else [Int(REFERENCE_BLOCK, refs[0])] + References(refs[1..])
  }

  function NumberOr(v: Option<nat>): nat {
    if v.Some? then v.value else 0
  }

  function SignedOr(v: Option<int>): int {
    if v.Some? then v.value else 0
  }

  function BytesOr(v: Option<seq<byte>>): seq<byte> {
    if v.Some? then v.value else []
  }

  /** An unsigned child that is there if its value is. */
  function MaybeUint(id: nat, v: Option<nat>): seq<Elem> {
    Maybe(v.Some?, Uint(id, NumberOr(v)))
  }

  function SliceKids(t: TimeSlice): seq<Elem> {
    MaybeUint(LACE_NUMBER, t.laceNumber) + MaybeUint(FRAME_NUMBER, t.frameNumber)
    + MaybeUint(TIME_SLICE_BLOCK_ADDITION_ID, t.additionId) + MaybeUint(DELAY, t.delay)
    + MaybeUint(SLICE_DURATION, t.duration)
  }

  function SliceElems(ts: seq<TimeSlice>): (es: seq<Elem>)
    ensures |es| == |ts| && forall i :: 0 <= i < |es| ==> es[i] == Master(TIME_SLICE, SliceKids(ts[i]))
  {
    if ts == [] then [] else [Master(TIME_SLICE, SliceKids(ts[0]))] + SliceElems(ts[1..])
  }

  function FrameKids(f: Option<ReferenceFrame>): seq<Elem> {
    match f
    case None => []
    case Some(r) => MaybeUint(REFERENCE_OFFSET, r.offset) + MaybeUint(REFERENCE_TIMESTAMP, r.timestamp)
  }

  function LegacyElems(g: GroupOptions): seq<Elem> {
    Maybe(g.blockVirtual.Some?, Bin(BLOCK_VIRTUAL, BytesOr(g.blockVirtual)))
    + Maybe(g.referenceVirtual.Some?, Int(REFERENCE_VIRTUAL, SignedOr(g.referenceVirtual)))
    + Maybe(g.slices != [], Master(SLICES, SliceElems(g.slices)))
    + Maybe(g.referenceFrame.Some?, Master(REFERENCE_FRAME, FrameKids(g.referenceFrame)))
  }

  /** What follows the Block in its BlockGroup. */
  function Siblings(g: GroupOptions, refs: seq<int>, duration: Option<nat>): seq<Elem> {
    (if g.additions == [] then [] else [Master(BLOCK_ADDITIONS, Mores(g.additions))])
    + (if duration.Some? then [Uint(BLOCK_DURATION, duration.value)] else [])
    + (if g.priority != 0 then [Uint(REFERENCE_PRIORITY, g.priority)] else [])
    + References(refs)
    + (if g.codecState.Some? then [Bin(CODEC_STATE, g.codecState.value)] else [])
    + (if g.discardPadding.Some? then [Int(DISCARD_PADDING, g.discardPadding.value)] else [])
    + LegacyElems(g)
  }

  function SiblingsOf(f: Frame): Option<seq<Elem>> {
    if f.group.Some? then Some(Siblings(f.group.value.options, f.group.value.references, f.length)) else None
  }

  /** The explicit references; otherwise none for a keyframe, and the last Block of the track for the rest. */
  function ReferencesOf(s: State, p: Packet, g: GroupOptions, ms: int): seq<int>
    requires p.stream < |s.lastPts|
  {
    if g.references != [] then g.references
    else if p.key then []
    else [if s.lastPts[p.stream].Some? then s.lastPts[p.stream].value - ms else 0]
  }

  function EffectivePts(s: State, p: Packet): int
    requires p.stream < |s.streamPts|
  {
    if p.pts.Some? then p.pts.value else s.streamPts[p.stream]
  }

  /** The running time of the stream, and the latest end time of any packet. */
  function Timed(c: Config, s: State, p: Packet): (r: State)
    requires Ready(c, s) && p.stream < |c.tracks|
    ensures Ready(c, r)
  {
    var eff := EffectivePts(s, p);
    var ms := PtsToMs(eff, c.tracks[p.stream]);
    var ticks := Ticks(p, c.tracks[p.stream]);
    var advanced := if ticks.Some? then eff + ticks.value else if p.pts.Some? then eff else s.streamPts[p.stream];
    var length := if DurationMs(p, c.tracks[p.stream]).Some? then DurationMs(p, c.tracks[p.stream]).value else 0;
    var end := SaturatingAdd(ms, length);
    s.(streamPts := s.streamPts[p.stream := advanced],
       maxEnd := if s.maxEnd.Some? && end <= s.maxEnd.value then s.maxEnd else Some(end))
  }

  datatype Outcome = Accepted | Rejected | Halted

  datatype Step = Step(state: State, outcome: Outcome)

  /** The packet as it goes on from the checks. */
  function FrameOf(c: Config, s: State, p: Packet, group: Option<GroupOptions>): (f: Frame)
    requires Ready(c, s) && p.stream < |c.tracks| && FrameData(c, p).Some?
    ensures f.stream == p.stream && f.key == p.key && OptionsOf(f) == group
  {
    var t := c.tracks[p.stream];
    var ms := PtsToMs(EffectivePts(s, p), t);
    Frame(p.stream, FrameData(c, p).value, ms, p.key, DurationMs(p, t),
          if group.Some? then Some(BlockGroup(group.value, ReferencesOf(s, p, group.value, ms))) else None)
  }

  /** The Block of one packet that is not laced. */
  function UnlacedBlock(c: Config, s: State, f: Frame): BlockRec
    requires f.stream < |c.tracks|
  {
    var b := Block(c.tracks[f.stream].number, f.ms - s.tc, f.group.None? && f.key, NoLacing, [f.data]);
    BlockRec(b, SiblingsOf(f), [f])
  }

  /** Every subtitle is indexed; of the other tracks, the first random access point of each Cluster. */
  function CueFor(c: Config, s: State, f: Frame): (r: State)
    requires Ready(c, s) && s.open && f.stream < |c.tracks|
    ensures Ready(c, r) && r.items == s.items
  {
    var i, t := f.stream, c.tracks[f.stream];
    if (t.media == SubtitleMedia || !s.seen[i]) && Indexable(t.media, f.key)
    then AddCue(c, s, i, f.ms, f.length)
    else s
  }

  /** A packet into the open Cluster: its cue, and its Block or its place in the lace. */
  function Place(c: Config, s: State, f: Frame): (r: State)
    requires Ready(c, s) && s.open && f.stream < |c.tracks|
    ensures Ready(c, r)
  {
    var i := f.stream;
    var placed :=
      if f.group.None? && c.mode != NoLacing then AppendToLace(c, s, i, f.ms - s.tc, f)
      else
        WriteBlock(CueFor(c, s, f), UnlacedBlock(c, s, f));
    placed.(lastPts := placed.lastPts[i := Some(f.ms)], accepted := placed.accepted + [f])
  }

  /** Every other track's pending lace is flushed, and the track's own before a Block of its own. */
  function Settled(c: Config, s: State, p: Packet, group: Option<GroupOptions>): (r: State)
    requires Ready(c, s) && p.stream < |c.tracks|
    ensures Ready(c, r)
  {
    if c.mode == NoLacing then s else FlushFrom(c, s, 0, if group.Some? then None else Some(p.stream))
  }

  predicate NothingPending(s: State) {
    forall i :: 0 <= i < |s.laces| ==> s.laces[i].frames == []
  }

  function WritePacket(c: Config, s: State, p: Packet, wrap: Wrap): (r: Step)
    requires Ready(c, s) && OnlyOnePending(c, s)
    ensures r.outcome != Halted ==> Ready(c, r.state)
  {
    match Admit(c, p.stream, wrap)
    case None => Step(s, Rejected)
    case Some(group) =>
      if FrameData(c, p).None? then Step(s, Rejected)
      else
        var f := FrameOf(c, s, p, group);
        var settled := Settled(c, Timed(c, s, p), p, group);
        if !NeedsCluster(c, settled, f.ms) then Placed(c, settled, f)
        else
          var ended := EndLace(c, settled, p.stream);
          SettledIsSettled(c, Timed(c, s, p), p, group);
          if SilentBlocked(c, ended) then Step(Aborted(c, ended, f.ms), Halted)
          else Placed(c, StartCluster(c, ended, f.ms), f)
  }

  function Placed(c: Config, s: State, f: Frame): (r: Step)
    requires Ready(c, s) && s.open && f.stream < |c.tracks|
    ensures Ready(c, r.state) && r.outcome != Halted
  {
    if -0x8000 <= f.ms - s.tc <= 0x7FFF then Step(Place(c, s, f), Accepted) else Step(s, Rejected)
  }

  /** At most one lace is pending, and none without lacing. */
  predicate OnlyOnePending(c: Config, s: State) {
    && (forall i, j :: 0 <= i < j < |s.laces| ==> s.laces[i].frames == [] || s.laces[j].frames == [])
    && (c.mode == NoLacing ==> NothingPending(s))
  }

  /** Only the lace of `keep`, if any, survives a flush of the others. */
  lemma {:induction false} FlushFromFlushes(c: Config, s: State, i: nat, keep: Option<nat>)
    requires Ready(c, s) && i <= |c.tracks|
    ensures var r := FlushFrom(c, s, i, keep);
            && (forall j :: i <= j < |r.laces| && keep != Some(j) ==> r.laces[j].frames == [])
            && (forall j :: 0 <= j < |r.laces| && (j < i || keep == Some(j)) ==> r.laces[j] == s.laces[j])
    decreases |c.tracks| - i
  {
    hide FlushLace;
    if i < |c.tracks| {
      FlushFromFlushes(c, if keep == Some(i) then s else FlushLace(c, s, i), i + 1, keep);
    }
  }

  lemma SettledIsSettled(c: Config, s: State, p: Packet, group: Option<GroupOptions>)
    requires Ready(c, s) && p.stream < |c.tracks| && OnlyOnePending(c, s)
    ensures var r := Settled(c, s, p, group);
            && (forall j :: 0 <= j < |r.laces| && (group.Some? || j != p.stream) ==> r.laces[j].frames == [])
            && OnlyOnePending(c, r)
            && NothingPending(EndLace(c, r, p.stream))
            && (c.mode == NoLacing ==> r == s)
  {
    hide FlushLace, FlushFrom;
    if c.mode != NoLacing {
      FlushFromFlushes(c, s, 0, if group.Some? then None else Some(p.stream));
    }
  }

  // ----- runs -----

  datatype Call =
    | Write(packet: Packet, wrap: Wrap)
    | LiveTags(tags: seq<Tag>)
    | Silence(numbers: seq<nat>)

  /**
   * Live Tags go through the checks of `add_tag` and, for version 5, through one on the header that
   * is already written; a WebM header never declares that version.
   */
  predicate TagsAdmitted(c: Config, tags: seq<Tag>) {
    c.live && AllTagsValid(tags) && (c.strict ==> AllWebmTargets(tags)) && (SomeTagNeedsV5(tags) ==> c.version >= 5)
  }

  /** Tags between Clusters: they end the open Cluster, after its pending laces. */
  function WriteLiveTags(c: Config, s: State, tags: seq<Tag>): (r: Step)
    requires Ready(c, s) && OnlyOnePending(c, s)
    ensures Ready(c, r.state) && r.outcome != Halted
  {
    if !TagsAdmitted(c, tags) then Step(s, Rejected)
    else
      var flushed := FlushAll(c, s);
      AllFlushed(c, s);
      Step(flushed.(open := false, items := flushed.items + [Fixed(TopLevel(TAGS, TagElems(tags), c.strict))]),
           Accepted)
  }

  function FlushAll(c: Config, s: State): (r: State)
    requires Ready(c, s)
    ensures Ready(c, r)
  {
    if c.mode == NoLacing then s else FlushFrom(c, s, 0, None)
  }

  lemma AllFlushed(c: Config, s: State)
    requires Ready(c, s) && OnlyOnePending(c, s)
    ensures NothingPending(FlushAll(c, s))
  {
    hide FlushFrom;
    if c.mode != NoLacing {
      FlushFromFlushes(c, s, 0, None);
    }
  }

  function Apply(c: Config, s: State, call: Call): (r: Step)
    requires Ready(c, s) && OnlyOnePending(c, s)
    ensures r.outcome != Halted ==> Ready(c, r.state)
  {
    match call
    case Write(p, wrap) => WritePacket(c, s, p, wrap)
    case LiveTags(tags) => WriteLiveTags(c, s, tags)
    case Silence(numbers) => Step(s.(silent := numbers), Accepted)
  }
}
