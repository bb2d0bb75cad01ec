/**
 * The muxer object: the methods of `MkvMuxer`, each of which changes the fields and the output
 * exactly as the state machine says.
 */
module MkvMuxers {
  import opened Wrappers
  import opened Bytes
  import opened Ebml
  import opened Crc32
  import opened Ids
  import opened Elements
  import opened Lacing
  import opened Cues
  import opened FrontCues
  import opened SeekHeads
  import opened Floats
  import opened Tags
  import opened TagWriter
  import opened Muxer
  import opened MuxerLayout
  import opened MuxerRun
  import opened MuxerFile
  import opened FilePatches
  import opened Trailer
  import opened Setters
  import opened HeaderWriter
  import opened BlockGroups
  import opened MuxerSteps
  import opened TrailerSteps

  /**
   * `run` groups the fields that a run changes, positions counted from the Segment's data, which
   * starts at `layout.segmentDataStart`; the output is the file, written at its end but for patches.
   */
  class MkvMuxer {
    var setup: Setup
    const base: seq<byte>
    var output: seq<byte>
    var headerWritten: bool
    var trailerWritten: bool
    var layout: Layout
    var run: State
    var config: Config

    /** The header is on disk, and its offsets are what they claim to be. */
    ghost predicate LaidOut()
      reads this`setup, this`headerWritten, this`layout, this`config
    {
      headerWritten && ValidSetup(setup) && config == ConfigOf(setup) && layout == LayoutOf(setup, base)
    }

    /** Between the header and the trailer. */
    ghost predicate Valid()
      reads this
    {
      LaidOut() && !trailerWritten && FileIs(setup, base, output, run) && Inv(config, run)
    }

    /** Before the header. */
    ghost predicate Fresh()
      reads this
    {
      !headerWritten && !trailerWritten && ValidSetup(setup) && Guarded(setup) && output == base
        && run.(silent := []) == Empty(|setup.streams|)
    }

    constructor (webm: bool, streams: seq<Stream>, contents: seq<byte>)
      ensures Fresh() && setup == New(webm, streams) && base == contents
    {
      NewIsGuarded(webm, streams);
      setup := New(webm, streams);
      base := contents;
      output := contents;
      headerWritten, trailerWritten := false, false;
      layout := Layout(0, false, 0, None, None, None, 0, []);
      config := Config(false, false, false, NoLacing, 1, 1024, TracksFor(streams), 0, 4);
      run := Empty(|streams|);
    }

    /** `new_matroska` and `new_webm`: no muxer without a stream, or for a codec that WebM does not admit. */
    static method Create(webm: bool, streams: seq<Stream>, contents: seq<byte>) returns (muxer: Option<MkvMuxer>)
      ensures muxer.Some? <==> Acceptable(webm, streams)
      ensures muxer.Some? ==>
                && fresh(muxer.value) && muxer.value.Fresh() && muxer.value.setup == New(webm, streams)
                && muxer.value.base == contents
    {
      if streams == [] {
        return None;
      }
      if webm {
        for i := 0 to |streams|
          invariant forall j :: 0 <= j < i ==> AdmittedByWebm(streams[j].codec)
        {
          if !AdmittedByWebm(streams[i].codec) {
            return None;
          }
        }
      }
      var created := new MkvMuxer(webm, streams, contents);
      return Some(created);
    }

    /** Any setter: an error after the header, and otherwise what the queued state makes of it. */
    method Configure(s: Setter) returns (ok: bool)
      requires Fresh() || headerWritten
      requires ProperSetter(s)
      modifies this`setup
      ensures ok == (!headerWritten && Set(old(setup), s).Some?)
      ensures setup == if ok then Set(old(setup), s).value else old(setup)
      ensures !headerWritten ==> Fresh()
    {
      hide Set, ValidSetup, Guarded;
      if headerWritten {
        return false;
      }
      match Set(setup, s) {
        case None => return false;
        case Some(next) =>
          SetKeepsGuard(setup, s);
          SetKeepsStreams(setup, s);
          setup := next;
          return true;
      }
    }

    /**
     * The header: everything in front of the first Cluster, and from then on `Valid`. Names of an
     * edition without chapters are refused.
     */
    method WriteHeader() returns (ok: bool)
      requires headerWritten || (Fresh() && HeaderFits(setup))
      modifies this`output, this`headerWritten, this`layout, this`config
      ensures ok == (!old(headerWritten) && (setup.editions == [] || setup.chapters != []))
      ensures headerWritten == (old(headerWritten) || ok)
      ensures !ok ==> output == old(output) && layout == old(layout) && config == old(config)
      ensures ok ==> IsStart(setup, base, output, layout, config, run)
    {
      hide ValidSetup, Guarded, HeaderFits, Empty, LayoutOf, ConfigOf, IsStart, Inv, Initial, FileIs, IsFile;
      if headerWritten {
        return false;
      }
      if setup.editions != [] && setup.chapters == [] {
        return false;
      }
      Begin();
      return true;
    }

    /** The header's bytes, and the state of a muxer that has written them. */
    method Begin()
      requires Fresh() && HeaderFits(setup)
      modifies this`output, this`headerWritten, this`layout, this`config
      ensures headerWritten && IsStart(setup, base, output, layout, config, run)
    {
      hide ValidSetup, Guarded, HeaderFits, Empty, LayoutOf, ConfigOf, IsHeader, IsStart, Inv, Initial, FileIs,
        IsFile, Unpatched;
      var all, y, c := LayOut(setup, base, |output|);
      FirstState(setup, base, all, y, c, run);
      output := output + all;
      layout, config := y, c;
      headerWritten := true;
    }

    /** One Block: its bytes and its counters. */
    method WriteBlockBytes(bytes: seq<byte>, r: BlockRec)
      requires FileIs(setup, base, output, run) && Last(run.items) && bytes == Ser(BlockElem(r))
      modifies this`output, this`run
      ensures FileIs(setup, base, output, run) && IsBlockWritten(old(run), r, run)
    {
      hide FileIs, Ser, BlockElem, Put;
      BlockGoesToDisk(setup, base, output, run, r);
      output := output + bytes;
      run := run.(bytes := run.bytes + |bytes|, count := run.count + 1, items := Put(run.items, r));
    }

    /** A cue for the Block that is written next. */
    method PushCue(i: nat, ms: int, duration: Option<nat>)
      requires FileIs(setup, base, output, run) && Ready(config, run) && run.open && i < |config.tracks|
      requires config == ConfigOf(setup) && layout.segmentDataStart == |Opening(setup, base)|
      modifies this`run
      ensures FileIs(setup, base, output, run) && IsCued(config, old(run), i, ms, duration, run)
    {
      hide Cursor, ItemBytes, Opening, Prelude, ValidSetup, HeadLength;
      CursorHere(setup, base, output, run);
      var pos := |output| - layout.segmentDataStart;
      var preBlockRel := if pos > run.bodyAt then pos - run.bodyAt else 0;
      var cue := CueRecord(config.tracks[i].number, if ms > 0 then ms else 0, run.clusterAt, preBlockRel,
                           run.count + 1, duration);
      run := run.(cues := run.cues + [cue], cueAt := run.cueAt + [|run.items| - 1], seen := run.seen[i := true]);
    }

    /** Drain one lace buffer into a SimpleBlock. */
    method FlushLace(i: nat)
      requires Valid() && CanFlush(config, run, i)
      modifies this`output, this`run
      ensures Valid() && IsFlushed(config, old(run), i, run)
    {
      hide FileIs, Ser, BlockElem, Fits, Inv, Cursor, WriteBlock, Laceable, BlockBody, Lace, LayoutOf, ValidSetup,
        InfoKids, HeadLength, Opening, Encodable;
      ghost var s := run;
      FlushLaceKeeps(config, s, i);
      InvReady(config, s);
      var l := run.laces[i];
      if l.frames == [] {
        return;
      }
      run := run.(laces := run.laces[i := l.(frames := [])]);
      assert FileIs(setup, base, output, run) by { SameFile(setup, base, output, s, run); }
      var mode := if |l.frames| == 1 then NoLacing else config.mode;
      if !run.seen[i] && Indexable(config.tracks[i].media, l.key) {
        LayoutStart(setup, base);
        PushCue(i, run.tc + l.offset, None);
      }
      var r := LaceBlock(config, i, l);
      EncodableSimple(r);
      var block := BuildSimpleBlock(Block(config.tracks[i].number, l.offset, l.key, mode, Datas(l.frames)));
      WriteBlockBytes(block, r);
    }

    /** Flush every pending lace but that of `keep`. */
    method FlushPending(keep: Option<nat>)
      requires Valid() && Ready(config, run) && AllEncodable(FlushFrom(config, run, 0, keep).items)
      modifies this`output, this`run
      ensures Valid() && IsFlushedFrom(config, old(run), 0, keep, run)
    {
      hide FileIs, Inv, AllEncodable, FlushFrom, Muxer.FlushLace, CanFlush, LayoutOf, ValidSetup, InfoKids, HeadLength;
      ghost var s, t := run, FlushFrom(config, run, 0, keep);
      for i := 0 to |config.tracks|
        invariant Valid() && config == old(config)
        invariant IsFlushedFrom(config, run, i, keep, t)
      {
        FlushNext(config, run, i, keep, t);
        if keep != Some(i) {
          FlushLace(i);
        }
      }
      FlushDone(config, run, keep);
    }

    /**
     * Open a Cluster at the end of the file. The strict-WebM guard on SilentTracks comes after the
     * Cluster header, its Timestamp and its hints have been written.
     */
    method StartCluster(ms: int) returns (ok: bool)
      requires Valid() && NothingPending(run)
      requires |SerAll(SilentElems(run.silent))| < SIZE_LIMIT
      modifies this`output, this`run
      ensures ok == !SilentBlocked(config, old(run))
      ensures ok ==> Valid() && IsStarted(config, old(run), ms, run)
      ensures !ok ==>
                && LaidOut() && !trailerWritten && FileIs(setup, base, output, run)
                && run == Aborted(config, old(run), ms)
    {
      hide FileIs, Inv, Ser, SerAll, IdBytes, LayoutOf, ValidSetup, InfoKids, Lead, Cursor, SilentElems, HeadLength,
        Opening;
      ghost var s := run;
      InvReady(config, s);
      LayoutStart(setup, base);
      CursorHere(setup, base, output, run);
      var at := |output| - layout.segmentDataStart;
      var id := WriteElementId(CLUSTER);
      var unknown := WriteVint(UNKNOWN_SIZE, 0);
      var header := id + unknown;
      assert |header| == 5 by { ClusterHeader(); }
      var lead := BuildLead(config, ms, at, run.prevAt);
      ghost var elems := Lead(config, ms, at, run.prevAt);
      var time := NonNegative(ms);
      if run.silent != [] && config.strict {
        run := run.(items := run.items + [Cluster(time, Lead(config, ms, at, run.prevAt), [])],
                    clusterAt := at, bodyAt := at + |header|, prevAt := Some(at));
        ClusterGoesToDisk(setup, base, output, s, run, time, elems);
        output := output + (header + lead);
        return false;
      }
      if run.silent != [] {
        var silent := BuildSilentTracks(run.silent);
        SerSnoc(elems, Master(SILENT_TRACKS, SilentElems(run.silent)));
        elems := elems + [Master(SILENT_TRACKS, SilentElems(run.silent))];
        lead := lead + silent;
      }
      assert elems == FullLead(config, s, ms) by { LeadIsFull(config, s, ms); }
      StartClusterKeeps(config, s, ms);
      run := run.(items := run.items + [Cluster(time, FullLead(config, run, ms), [])],
                  open := true, tc := time, bytes := 0, count := 0,
                  clusterAt := at, bodyAt := at + |header|, prevAt := Some(at),
                  seen := seq(|config.tracks|, _ => false), silent := []);
      ClusterGoesToDisk(setup, base, output, s, run, time, elems);
      output := output + (header + lead);
      return true;
    }

    /** One frame into its track's lace, after the flush that makes room for it. */
    method AppendToLace(i: nat, offset: int, f: Frame)
      requires Valid() && run.open && i < |config.tracks|
               && (MustFlush(config, run.laces[i], f) ==> CanFlush(config, run, i))
      modifies this`output, this`run
      ensures LaidOut() && !trailerWritten && FileIs(setup, base, output, run)
      ensures IsAppended(config, old(run), i, offset, f, run)
    {
      hide FileIs, Inv, LayoutOf, ValidSetup, InfoKids, HeadLength, Muxer.FlushLace, CanFlush, Tracked;
      ghost var s := run;
      InvReady(config, s);
      if MustFlush(config, run.laces[i], f) {
        FlushLace(i);
      }
      ghost var t := run;
      if run.laces[i].frames == [] {
        run := run.(laces := run.laces[i := LaceBuffer(offset, f.key, run.laces[i].frames)]);
      }
      run := run.(laces := run.laces[i := run.laces[i].(frames := run.laces[i].frames + [f])]);
      SameFile(setup, base, output, t, run);
    }

    /** A Block of its own, with its cue. */
    method WriteUnlaced(f: Frame)
      requires LaidOut() && FileIs(setup, base, output, run) && Ready(config, run) && run.open
               && f.stream < |config.tracks|
      requires Encodable(UnlacedBlock(config, run, f)) && IsTyped(f)
      modifies this`output, this`run
      ensures FileIs(setup, base, output, run)
      ensures IsUnlaced(config, old(run), f, run)
    {
      hide FileIs, LayoutOf, ValidSetup, InfoKids, HeadLength, Cursor, Encodable, Ser, BlockElem, Siblings, Typed,
        Opening, Put;
      ghost var s := run;
      var i, t := f.stream, config.tracks[f.stream];
      var r := UnlacedBlock(config, run, f);
      if (t.media == SubtitleMedia || !run.seen[i]) && Indexable(t.media, f.key) {
        LayoutStart(setup, base);
        PushCue(i, f.ms, f.length);
      }
      var bytes := BuildUnlaced(r, f);
      WriteBlockBytes(bytes, r);
    }

    /** A packet into the open Cluster. */
    method PlacePacket(f: Frame)
      requires Valid() && CanPlace(config, run, f) && IsTyped(f)
      modifies this`output, this`run
      ensures LaidOut() && !trailerWritten && FileIs(setup, base, output, run)
      ensures IsPlaced(config, old(run), f, run)
    {
      hide FileIs, Inv, LayoutOf, ValidSetup, InfoKids, HeadLength, CanFlush, Muxer.AppendToLace, Encodable,
        AllEncodable, UnlacedBlock, CueFor, IsTyped;
      ghost var s := run;
      PlaceEncodable(config, s, f);
      if f.group.None? && config.mode != NoLacing {
        AppendToLace(f.stream, f.ms - run.tc, f);
      } else {
        WriteUnlaced(f);
      }
      ghost var u := run;
      run := run.(lastPts := run.lastPts[f.stream := Some(f.ms)], accepted := run.accepted + [f]);
      SameFile(setup, base, output, u, run);
    }

    /** The running time of the stream and the latest end time. */
    method Advance(p: Packet)
      requires Valid() && p.stream < |config.tracks| && Ready(config, run)
      modifies this`run
      ensures Valid() && IsTimed(config, old(run), p, run)
    {
      hide FileIs, Inv, LayoutOf, ValidSetup, InfoKids, HeadLength, PtsToMs, SaturatingAdd, Ticks, DurationMs,
        EffectivePts, IsTimed;
      ghost var s := run;
      var t := config.tracks[p.stream];
      var eff := EffectivePts(run, p);
      var ticks := Ticks(p, t);
      if ticks.Some? {
        run := run.(streamPts := run.streamPts[p.stream := eff + ticks.value]);
      } else if p.pts.Some? {
        run := run.(streamPts := run.streamPts[p.stream := eff]);
      }
      var ms := PtsToMs(eff, t);
      var length: nat := if DurationMs(p, t).Some? then DurationMs(p, t).value else 0;
      var end := SaturatingAdd(ms, length);
      if !(run.maxEnd.Some? && end <= run.maxEnd.value) {
        run := run.(maxEnd := Some(end));
      }
      TimedIs(config, s, p, run);
      UnrelatedFields(config, s, run);
      SameFile(setup, base, output, s, run);
    }

    /** The laces that have to be on disk before this packet. */
    method Settle(p: Packet, group: Option<GroupOptions>)
      requires Valid() && p.stream < |config.tracks| && Ready(config, run)
      requires AllEncodable(Settled(config, run, p, group).items)
      modifies this`output, this`run
      ensures Valid() && IsSettled(config, old(run), p, group, run)
    {
      hide FileIs, Inv, LayoutOf, ValidSetup, InfoKids, HeadLength, FlushFrom, AllEncodable;
      if config.mode != NoLacing {
        FlushPending(if group.Some? then None else Some(p.stream));
      }
    }

    /** The lace of the track itself, when its Cluster ends. */
    method EndLace(i: nat)
      requires Valid() && i < |config.tracks| && (config.mode == NoLacing || CanFlush(config, run, i))
      modifies this`output, this`run
      ensures Valid() && IsLaceEnded(config, old(run), i, run)
    {
      hide FileIs, Inv, LayoutOf, ValidSetup, InfoKids, HeadLength, Muxer.FlushLace, CanFlush;
      InvReady(config, run);
      if config.mode != NoLacing {
        FlushLace(i);
      }
    }

    /** A new Cluster if the packet needs one, and the packet into it if its offset fits 16 bits. */
    method OpenAndPlace(f: Frame, ghost r: Step) returns (outcome: Outcome)
      requires Valid() && f.stream < |config.tracks| && |SerAll(SilentElems(run.silent))| < SIZE_LIMIT
      requires GoesOn(config, run, f, r) && AllEncodable(r.state.items)
      requires NeedsCluster(config, run, f.ms) ==> config.mode == NoLacing || CanFlush(config, run, f.stream)
      requires IsTyped(f)
      modifies this`output, this`run
      ensures LaidOut() && !trailerWritten && FileIs(setup, base, output, run)
      ensures r == Step(run, outcome)
    {
      hide FileIs, Inv, LayoutOf, ValidSetup, InfoKids, HeadLength, AllEncodable, Typed, SerAll, SilentElems,
        Muxer.Place, Aborted, Muxer.StartCluster, Muxer.EndLace, CanFlush;
      ghost var u := run;
      if NeedsCluster(config, run, f.ms) {
        EndLaceOthers(config, u, f.stream);
        EndLace(f.stream);
        ghost var ended := run;
        StartClusterOthers(config, ended, f.ms);
        var ok := StartCluster(f.ms);
        if !ok {
          return Halted;
        }
      }
      if f.ms - run.tc < -0x8000 || f.ms - run.tc > 0x7FFF {
        return Rejected;
      }
      PlacePacket(f);
      return Accepted;
    }

    /** A packet that has passed the checks. */
    method WriteAdmitted(p: Packet, f: Frame, ghost r: Step) returns (outcome: Outcome)
      requires Valid() && IsOnTheWay(config, run, p, f, r)
      modifies this`output, this`run
      ensures LaidOut() && !trailerWritten && FileIs(setup, base, output, run)
      ensures r == Step(run, outcome)
    {
      hide FileIs, Inv, LayoutOf, ValidSetup, InfoKids, HeadLength, AllEncodable, SerAll, SilentElems, Settled, Timed,
        GoesOn, IsTyped, NeedsCluster, CanFlush;
      Advance(p);
      Settle(p, OptionsOf(f));
      outcome := OpenAndPlace(f, r);
    }

    /** One packet, from its checks to its Block. */
    method WritePacket(p: Packet, wrap: Wrap) returns (outcome: Outcome)
      requires Valid() && ValidConfig(config) && CanWrite(config, run, p, wrap)
      modifies this`output, this`run
      ensures IsWritten(config, old(run), p, wrap, outcome, run)
      ensures LaidOut() && !trailerWritten && FileIs(setup, base, output, run)
      ensures outcome != Halted ==> Valid()
    {
      hide FileIs, Inv, LayoutOf, ValidSetup, InfoKids, HeadLength, Admit, AllEncodable, Muxer.WritePacket, Typed,
        SerAll, SilentElems, PtsToMs, IsOnTheWay, Sound;
      ghost var s := run;
      WritePacketKeeps(config, s, p, wrap);
      InvReady(config, s);
      var admitted := Admit(config, p.stream, wrap);
      if admitted.None? || FrameData(config, p).None? {
        RejectedAtOnce(config, s, p, wrap);
        return Rejected;
      }
      AdmitRange(config, p.stream, wrap);
      PacketOnTheWay(config, s, p, wrap);
      ghost var r := Muxer.WritePacket(config, s, p, wrap);
      var f := FrameOf(config, run, p, admitted.value);
      outcome := WriteAdmitted(p, f, r);
    }

    /** The pending laces, as `write_live_tags` and `write_trailer` flush them. */
    method FlushEverything()
      requires Valid() && Ready(config, run) && AllEncodable(FlushAll(config, run).items)
      modifies this`output, this`run
      ensures Valid() && IsAllFlushed(config, old(run), run)
    {
      hide FileIs, Inv, LayoutOf, ValidSetup, InfoKids, HeadLength, FlushFrom, AllEncodable;
      if config.mode != NoLacing {
        FlushPending(None);
      }
    }

    /** The tracks that the next Cluster lists as silent. */
    method SetNextClusterSilentTracks(numbers: seq<nat>)
      requires Valid() || Fresh()
      modifies this`run
      ensures run == old(run).(silent := numbers)
      ensures old(Valid()) ==> Valid()
      ensures old(Fresh()) ==> Fresh()
    {
      hide FileIs, Inv, LayoutOf, ValidSetup, InfoKids, HeadLength, Guarded;
      ghost var s := run;
      run := run.(silent := numbers);
      if headerWritten {
        InvReady(config, s);
        UnrelatedFields(config, s, run);
        SameFile(setup, base, output, s, run);
      }
    }

    /** Tags between Clusters of a live stream: they end the open Cluster. */
    method WriteLiveTags(tags: seq<Tag>) returns (ok: bool)
      requires Valid() && CanTag(config, run, tags)
      modifies this`output, this`run
      ensures Valid() && IsTagged(config, old(run), tags, ok, run)
    {
      hide FileIs, Inv, LayoutOf, ValidSetup, InfoKids, HeadLength, FlushAll, AllEncodable, TopLevel, Ser, SerAll,
        TagsFit, TagsAdmitted;
      ghost var s := run;
      if !TagsAdmitted(config, tags) {
        return false;
      }
      FlushEverything();
      ghost var flushed := run;
      run := run.(open := false, items := run.items + [Fixed(TopLevel(TAGS, TagElems(tags), config.strict))]);
      TagsFollow(config, s, tags, run);
      var body := BuildTags(tags);
      var bytes := WriteTopLevel([], TAGS, body, config.strict, TagElems(tags));
      FixedGoesToDisk(setup, base, output, flushed, run, TopLevel(TAGS, TagElems(tags), config.strict));
      assert [] + Ser(TopLevel(TAGS, TagElems(tags), config.strict))
             == Ser(TopLevel(TAGS, TagElems(tags), config.strict));
      output := output + bytes;
      return true;
    }

    // ----- the trailer -----

    /** The index behind the last Cluster. */
    method WriteCues() returns (rel: Option<nat>)
      requires LaidOut() && FileIs(setup, base, output, run) && CanIndex(setup, run)
      requires !setup.live && (run.cues == [] || InSlot(setup, run.cues).None?)
      modifies this`output
      ensures IsIndexed(setup, base, run, rel, output)
    {
      hide FileIs, LayoutOf, ValidSetup, InfoKids, HeadLength, IsIndexed, Ser, Fits, CuesElem, InSlot, AllNarrow,
        InnerLength, Opening, Cursor;
      var built := BuildCuesBytes(run.cues, setup.strict, 0);
      if built.None? {
        NoIndex(setup, base, run, output);
        return None;
      }
      LayoutStart(setup, base);
      CursorHere(setup, base, output, run);
      IndexAtEnd(setup, base, run, output);
      var cuesAbs := |output|;
      output := output + built.value;
      return Some(if cuesAbs > layout.segmentDataStart then cuesAbs - layout.segmentDataStart else 0);
    }

    /** The index in the slot reserved for it, or behind the last Cluster when it does not fit. */
    method WriteFrontCues(slotAbs: nat) returns (rel: Option<nat>)
      requires LaidOut() && FileIs(setup, base, output, run) && CanIndex(setup, run)
      requires !setup.live && layout.frontCuesSlotAbs == Some(slotAbs)
      modifies this`output
      ensures IsIndexed(setup, base, run, rel, output)
    {
      hide FileIs, ValidSetup, InfoKids, HeadLength, IsIndexed, Ser, SerAll, Fits, CuesElem, AllNarrow, InnerLength,
        Opening, Cursor, SlotContent, OneShort, VintWidth, FrontAt, PatchAt;
      if run.cues == [] {
        NoIndex(setup, base, run, output);
        return None;
      }
      SlotIsSmall(setup);
      var out := FrontCuesSlot(run.cues, setup.strict, setup.front.value);
      if out.None? {
        rel := WriteCues();
        return;
      }
      IndexInSlot(setup, base, run, output);
      output := PatchAt(output, slotAbs, out.value);
      return Some(if slotAbs > layout.segmentDataStart then slotAbs - layout.segmentDataStart else 0);
    }

    method WriteIndex() returns (rel: Option<nat>)
      requires LaidOut() && FileIs(setup, base, output, run) && CanIndex(setup, run)
      modifies this`output
      ensures IsIndexed(setup, base, run, rel, output)
    {
      hide FileIs, ValidSetup, InfoKids, HeadLength, IsIndexed, CanIndex, Opening;
      if setup.live {
        NoIndex(setup, base, run, output);
        return None;
      } else if layout.frontCuesSlotAbs.Some? {
        rel := WriteFrontCues(layout.frontCuesSlotAbs.value);
      } else {
        rel := WriteCues();
      }
    }

    /** The Cues entry of the SeekHead: its position, or a Void in its place. */
    method PatchCuesSeekEntry(rel: Option<nat>)
      requires LaidOut() && !setup.live && IsIndexed(setup, base, run, rel, output)
      modifies this`output
      ensures IsSought(setup, base, run, output)
    {
      hide ValidSetup, InfoKids, HeadLength, IsIndexed, IsSought, Opening, PatchAt, Ser, VoidSeekEntry, BE;
      SeekPatched(setup, base, run, rel, output);
      match rel {
        case Some(off) =>
          var payload := PushBE(off, 8);
          output := PatchAt(output, layout.seekCuesEntryOffset + SEEK_POSITION_OFFSET, payload);
        case None =>
          var filler := BuildVoidSeekEntry();
          output := PatchAt(output, layout.seekCuesEntryOffset, filler);
      }
    }

    /** The Duration over its Void, and the Info CRC-32 that it changes. */
    method PatchInfoDuration(patchAbs: nat, endMs: int)
      requires LaidOut() && IsSought(setup, base, run, output)
      requires run.maxEnd == Some(endMs) && layout.durationPatchAbs == Some(patchAbs)
      modifies this`output, this`layout
      ensures IsComplete(setup, base, run, output)
      ensures layout == old(layout).(infoBodyCache := SerAll(InfoKids(setup, Some(MeasuredEnd(endMs)))))
    {
      hide ValidSetup, InfoKids, InfoStart, HeadLength, IsSought, IsComplete, Opening, PatchAt, Ser, SerAll,
        DurationElem, IdBytes, Crc, LE4, DurationAt, InfoCrcAt;
      DurationFilled(setup, base, run, output);
      var float := FloatBytes(if endMs > 0 then endMs else 0);
      PatchedBody(setup, float);
      DurationBytes(float);
      var elem := WriteElementId(DURATION);
      elem := elem + [0x88] + float;
      output := PatchAt(output, patchAbs, elem);
      layout := layout.(infoBodyCache := PatchAt(layout.infoBodyCache, layout.durationPatchInBody, elem));
      if layout.infoCrcPayloadAbs.Some? {
        var crc := Crc32Ieee(layout.infoBodyCache);
        output := PatchAt(output, layout.infoCrcPayloadAbs.value, LE4(crc));
      }
    }

    /** The end of the file; a second call does nothing. */
    method WriteTrailer()
      requires trailerWritten || (Valid() && CanFinish(setup, run))
      modifies this`output, this`run, this`layout, this`trailerWritten
      ensures trailerWritten
      ensures old(trailerWritten) ==> output == old(output) && run == old(run) && layout == old(layout)
      ensures !old(trailerWritten) ==> IsEnded(setup, base, old(run), run, output)
    {
      hide FileIs, Inv, ValidSetup, InfoKids, HeadLength, FlushAll, AllEncodable, CanIndex, IsIndexed, IsSought,
        IsComplete, Opening;
      if trailerWritten {
        return;
      }
      FlushEverything();
      var rel := WriteIndex();
      if layout.seekHeadWritten {
        PatchCuesSeekEntry(rel);
      } else {
        NothingToSeek(setup, base, run, rel, output);
      }
      if layout.durationPatchAbs.Some? && run.maxEnd.Some? {
        PatchInfoDuration(layout.durationPatchAbs.value, run.maxEnd.value);
      } else {
        CompleteWithout(setup, base, run, output);
      }
      trailerWritten := true;
    }
  }
}
