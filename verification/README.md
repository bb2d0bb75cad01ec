# The streaming Matroska muxer and its WebM scan, in Dafny

The library writes Matroska and WebM files packet by packet, and scans WebM files for conformance.
This project models both, the EBML codec under them, and two smaller byte-level cores, and proves
what they guarantee over every input and every run.

- **EBML primitives** (`Bytes`, `Ebml`, `Crc32`, `Elements`, `Splitter`, `TreeReader`, `Voids`,
  `Floats`, `Sizes`, `TreeRules`). Readers and writers of VINTs, IDs, integers and elements are methods with the
  source's loops; each is proved against a decoding or encoding function, and those against each
  other. `Elements.Elem` is an element tree and `Elements.Ser` its bytes.
- **The scan** (`WebmProfile`, `Scanner`, `ScannerOrder`, `ScannerTiles`, `ScannerCovers`,
  `ScannerInverts`, `ScannerReport`). The walk over a shared report, on every byte string: order,
  depth, what it looks at whatever is damaged, what each field of the report says, what a clean
  result means, and that the scan lists exactly the elements of a serialised document.
- **Lacing and the index** (`Lacing`, `Cues`, `FrontCues`). The three lace encoders and the
  SimpleBlock against the decoders of RFC 9559, and the Cues element against a reader of its own.
- **The muxer as a state machine** (`Codecs`, `Tags`, `Muxer`, `MuxerLayout`, `MuxerCues`,
  `MuxerFrames`, `MuxerBudget`, `MuxerChain`, `MuxerProfile`, `MuxerRun`, `MuxerTheorems`,
  `MuxerIndex`, `MuxerPolicy`, `MuxerSkeleton`, `PacketLog`, `MuxerAborts`, `MuxerWitnesses`,
  `MuxerVersions`). A state is the muxer's fields and the Segment's children written so far.
  `MuxerRun.Inv` is what every step keeps, and `MuxerTheorems` says what follows for whole runs of
  packets, live Tags and silent-track lists. `PacketLog` tells the accepted frames, with their times,
  durations and references, from the packets alone; `MuxerIndex` tells the cues from the Blocks,
  `MuxerPolicy` why a lace or a Cluster ended, and `MuxerSkeleton` what stands beside the frames.
- **The file around the Clusters** (`SeekHeads`, `MuxerFile`, `FilePatches`, `Trailer`, `HintGuards`,
  `TagRules`, `Setters`, `SetterLog`). The header's layout, the three patches that the trailer makes
  in place, what the guards of the single setters are good for, and the queued state told from the
  list of setters that were taken.
- **The muxer object** (`HeaderWriter`, `TagWriter`, `BlockGroups`, `MuxerSteps`, `TrailerSteps`,
  `MkvMuxers`).
  Class `MkvMuxer` has the source's methods. Each changes its fields and the bytes of its output,
  and each `ensures` that both are what the state machine says.
- **From end to end** (`Conformance`, `StrictWebm`, `EndToEnd`, `FourccWitness`, `Versions`,
  `Durations`, `SeekHeadTruth`). Setters, header, any run, and the trailer if it is reached: the file
  scans clean, a muxer that is still strict has written a conformant file if and only if no FourCC
  was queued, the header says version 5 if and only if the file needs it, every cue can be followed
  in the bytes, the Duration is the latest end of a packet, and the SeekHead marks as absent exactly
  what the Segment lacks.
- **Reading the file back** (`GroupReader`, `ReadBack`, `FileReader`, `Playback`, `TagReader`,
  `HeaderReader`, `HintReader`, `FileContents`, `SeekReader`, `RunReader`). Readers that have nothing
  but the finished bytes, with the IDs, codes and defaults of the standards as literals of their own,
  get back the packets, the header, the tracks, the hints, the tags, the chapters' edition, the index,
  the SeekHead, and what the Clusters say about where they lie.
- **Secondary cores** (`Avc`, `FrameRates`, `BitReaders`). Annex B splitting and repacking, exact
  frame rates, emulation prevention and Exp-Golomb codes.

Three conventions hold throughout. Positions inside the Segment count from its data, whose place in
the file is fixed by the header. Where `write_vint` panics, on sizes from 2^56 - 1 on, the encoding
functions are total and the theorems about bytes ask for `Fits` or `Encodable` instead.
And a guard that fails in the middle of `start_cluster` ends a run: the outcome is then `Halted`,
and what still holds of the file is `MuxerRun.Sound`.

Where the code and its comments disagree, the model follows the code:

- The comment on the byte budget promises that a Cluster exceeds it by at most one Block
  (src/mux.rs:2348-2357). That holds in every run exactly without lacing or without tracks
  (`MuxerTheorems.OneBlockBoundExactly`); with lacing it is two (`MuxerTheorems.BudgetHolds`).
- The comment on PrevSize calls the distance of two Cluster starts the size of the earlier Cluster
  (src/mux.rs:502-507). That holds exactly if no live Tags stand between them
  (`MuxerTheorems.PrevSizeIsClusterSize`, and three calls that break it in
  `MuxerWitnesses.TagsBreakPrevSize`); the backward walk works either way.
- `set_video_uncompressed_fourcc` has no WebM guard (src/mux.rs:3514-3538), although the FourCC is
  unsupported (src/webm.rs:290). It is the only setter whose guard does not suffice
  (`HintGuards.GuardsSufficeButOne`). Hence the if-and-only-if in `EndToEnd.OutputScansClean`, and a
  strict muxer whose file is not conformant before its first packet
  (`FourccWitness.StrictFileIsNotConformant`).
- The SilentTracks guard fails in the middle of opening a Cluster (src/mux.rs:6612-6625). A muxer
  that is used on after that error takes offsets from the Cluster before
  (`MuxerAborts.AfterTheGuard`, and a run in `MuxerWitnesses.TimeIsWrongAfterTheGuard`).
- `scan_stopped_at` is documented as the first inconsistency (src/webm.rs:453-459). A later element
  that breaks its extent overwrites it (src/webm.rs:574-591): `ScannerReport.StopCanMoveOn` has eight
  bytes, and `ScannerReport.StopIsFirstExactly` says exactly when it is the first.
- A scan without `scan_stopped_at` need not have covered the file without overlap
  (`ScannerTiles.CleanScanCanOverlap` has eight bytes that show it); `ScannerTiles.CleanScanTiles`
  says exactly when it has, as a condition on the headers in the bytes.
- Not every whole frame rate survives the rounding of its frame duration:
  `FrameRates.WholeRateReturnsExactly` says which do, and `FrameRates.HighRatesCollide` has one that
  does not.

## Model

| member | source | states |
|---|---|---|
| Ebml.ReadVint | src/ebml.rs:23-60 | The reader's loop computes the VINT decoding, errors and the unknown-size value included |
| Ebml.WriteVint | src/ebml.rs:65-96 | The writer's loops produce the VINT of the smallest legal width from the minimum on, or `FF` for an unknown size |
| Ebml.VintRoundTrip | src/ebml.rs:23-96 | Every size below 2^56 - 1, at every minimum width up to 8, reads back whatever bytes follow |
| Ebml.VintIsMinimal | src/ebml.rs:65-96 | No narrower VINT of at least the minimum width denotes the size |
| Ebml.WriteElementId | src/ebml.rs:100-117 | The ID's bytes, marker kept |
| Ebml.ReadElementHeader | src/ebml.rs:130-141 | The reader computes the header decoding, and fails where it does |
| Ebml.HeaderRoundTrip | src/ebml.rs:100-141 | Every valid ID and every size read back from a written header, with its length |
| Ebml.ReadUint | src/ebml.rs:144-158 | The fold of up to eight bytes is their big-endian number; more is an error |
| Ebml.UintRoundTrip | src/mux.rs:7421-7432 | Every 64-bit value reads back from its octets |
| Ebml.UintIsMinimal | src/mux.rs:7421-7432 | No fewer octets denote the value, and zero takes one |
| Ebml.ReadInt | src/ebml.rs:160-167 | Sign extension by a left and a right shift gives the two's complement value |
| Ebml.IntRoundTrip | src/mux.rs:7438-7453 | Every signed 64-bit value reads back from its octets, and from no fewer |
| Elements.WriteUintElement | src/mux.rs:7421-7432 | Appends the element of the value at its minimal length |
| Elements.WriteIntElement | src/mux.rs:7438-7453 | Appends the element of the signed value at its minimal length |
| Elements.WriteBytesElement | src/mux.rs:7461-7465 | Appends a binary element |
| Elements.WriteMasterElement | src/mux.rs:7473-7477 | Appends a master around a body that serialises its children |
| Elements.WriteMasterElementWithCrc | src/mux.rs:7517-7524 | The same with the CRC-32 of the children as first child |
| Elements.BuildCrc32Child | src/mux.rs:7497-7508 | The six bytes of the CRC-32 element of the data |
| Elements.HeaderDecodes | src/ebml.rs:130-141 | A reader of any element's bytes sees the ID, the size field and the header length it was written with |
| Crc32.BuildTable | src/ebml.rs:260-287 | Entry n of the table is n after eight turns of the reflected register |
| Crc32.Crc32Ieee | src/ebml.rs:260-287 | The table-driven loop equals the bit-by-bit reflected division on every input |
| Crc32.PolynomialIs | src/ebml.rs:260-287 | The division is by x^32 + x^26 + x^23 + x^22 + x^16 + x^12 + x^11 + x^10 + x^8 + x^7 + x^5 + x^4 + x^2 + x + 1 |
| Crc32.ByteStepBijective | src/ebml.rs:260-287 | For each message byte the step is a bijection of the register |
| Crc32.CrcDetects | src/ebml.rs:260-287 | Two messages that differ only inside four consecutive bytes, one byte included, never share a CRC |
| Crc32.BurstDetected | src/ebml.rs:260-287 | Two different bursts of at most 32 bits, anywhere in a message, leave different registers |
| Splitter.SplitInvertsSer | src/ebml.rs:130-141 | Reading the bytes of a list of bounded elements gives their IDs and bodies in order |
| Voids.MakeVoid | src/mux.rs:7607-7627 | The loop over size widths finds one and builds a filler of exactly the size asked for |
| Voids.VoidFillsExactly | src/mux.rs:7607-7627 | For every size from 2 on the filler has exactly that size and reads as one Void with nothing behind it |
| Voids.HandWrittenVoids | src/mux.rs:7643-7650 | The fillers that the source writes out byte by byte are those of 21 and 11 bytes |
| Floats.FloatIsNearest | src/mux.rs:6922 | The eight bytes of a count below 2^64 are the double nearest to it among all finite ones, ties to the even |
| Floats.FloatIsExact | src/mux.rs:6922 | They denote the count itself if and only if all its bits behind the first 53 are zero |
| Floats.FloatBytesRead | src/ebml.rs:177-181 | And read back as that double |
| Scanner.ReportCell.Record | src/webm.rs:502-529 | One classification, with its counter, the cap on findings and the list of unlisted IDs |
| Scanner.ReportCell.WalkChildren | src/webm.rs:538-618 | The loop and its recursion end on every byte string; the report and the final position are those of the walk |
| Scanner.ReportCell.CaptureDocType | src/webm.rs:606-614 | The first well-formed DocType of at most 64 bytes is kept |
| Scanner.Scan | src/webm.rs:492-499 | The whole scan yields the report of the walk over the whole file |
| ScannerOrder.WalkOrdered | src/webm.rs:538-618 | Recorded offsets never go back, depth stays at most 66, and without damage no offset is recorded twice |
| ScannerOrder.RecordedAtMostThrice | src/webm.rs:546-617 | No element is recorded more than three times, and one at the stopping position more than once only if the walk broke there |
| ScannerOrder.AgainOnlyIfBroken | src/webm.rs:546-617 | An element that is recorded more than once was recorded in one extent only, and breaks that extent: its size is unknown where none may be, or it passes the extent's end, which is the end of the walk or of a sized master whose header comes before |
| ScannerOrder.ScanIsOrdered | src/webm.rs:492-499 | For the scan of any byte string: order, depth, at most three records of an element, and more than one only where it breaks the file's or an earlier sized master's extent |
| ScannerOrder.ScanCounts | src/webm.rs:502-529 | The status counters add up to the number of recorded elements, and `scan_stopped_at` is empty exactly without damage |
| ScannerTiles.CleanScanTiles | src/webm.rs:538-618 | A scan without damage has covered the file without gap or overlap if and only if, wherever the walk meets an unknown-size Segment or Cluster, its header ends inside the extent that it is found in |
| ScannerTiles.CleanScanTilesIfNothingCrosses | src/webm.rs:538-618 | In particular it has if, anywhere in the bytes, nothing that reads as such a header crosses what reads as the end of a sized master before it |
| ScannerTiles.CleanScanCanOverlap | src/webm.rs:572-591 | Eight bytes that scan without damage although a Cluster header crosses the end of its BlockGroup |
| ScannerCovers.ScanGoesOn | src/webm.rs:538-618 | For the scan of any bytes: the position behind every recorded element of known extent, whatever is damaged inside it, is the end of what it stands in or is looked at itself, and so is the first position inside every master within the depth cap or of unknown size |
| ScannerReport.ScanReportsElements | src/webm.rs:502-529 | For the scan of any bytes: `findings` are offset, ID and status of the unsupported and deprecated elements in order, cut at 4096, `findings_truncated` if and only if there are more, `unlisted_ids` the distinct unlisted IDs as first seen under the same cap, and each counter the number of elements of its status |
| ScannerReport.ScanReportsDocument | src/webm.rs:492-499 | The same of a document within the depth cap, told from its elements in preorder with their offsets, and no damage |
| ScannerReport.ScanFindsDocType | src/webm.rs:606-614 | `doc_type` is the text of the first DocType below the top level that has at most 64 bytes and is well-formed without its trailing zeros |
| ScannerReport.StopIsFirstExactly | src/webm.rs:453-459 | `scan_stopped_at` is the first damage if and only if everything that breaks an extent lies where that does |
| ScannerReport.StopCanMoveOn | src/webm.rs:574-591 | Eight bytes with their first damage at offset 2 for which the report says 6 |
| ScannerInverts.ScanInvertsSerialiser | src/webm.rs:538-618 | Scanning the bytes of a well-formed document gives exactly the events of its tree, and no damage |
| ScannerInverts.EventsArePreorder | src/webm.rs:538-618 | Within the depth cap those events list every element with its offset in preorder |
| ScannerInverts.ScanListsDocument | src/webm.rs:492-499 | The scan of a document within the cap lists its elements in preorder and counts them |
| ScannerInverts.DocumentsAreTiled | src/webm.rs:538-618 | The scan of every well-formed document covers it without gap or overlap |
| Lacing.WriteSignedVint | src/mux.rs:7219-7230 | The search for a width and the bias produce the signed VINT |
| Lacing.SignedRoundTrip | src/mux.rs:7219-7257 | Every difference from -(2^55-1) to 2^55 reads back from no wider a VINT than needed, and reads as an unknown size exactly for the values 2^(7n-1) |
| Lacing.WriteVintFixed | src/mux.rs:7242-7257 | The VINT of exactly the width, the all-ones payload included |
| Lacing.EmitXiphLacing | src/mux.rs:7140-7155 | The loops over 255s write the Xiph lace |
| Lacing.EmitFixedLacing | src/mux.rs:7162-7172 | The count and the frames of a fixed-size lace |
| Lacing.EmitEbmlLacing | src/mux.rs:7179-7195 | The first size and the signed differences of an EBML lace |
| Lacing.LaceRoundTrip | src/mux.rs:7140-7195 | Decoding by section 10.3 of RFC 9559 gives back every list of 2 to 256 frames from its Xiph, EBML or (equal sizes) fixed lace, the last size implicit |
| Lacing.FixedLaceReadsExactly | src/mux.rs:7162-7172 | A fixed-size lace reads back exactly the lists of equally long frames |
| Lacing.BuildSimpleBlock | src/mux.rs:6950-6997 | The element of the Block, with its track, offset, flags and lace |
| Lacing.BlockRoundTrip | src/mux.rs:6950-6997 | A Block body reads back as the same track, 16-bit offset, key flag, lacing mode and frames |
| Cues.GroupedKeepsRecords | src/mux.rs:6711-6715 | Grouping gives strictly increasing times, and at each time the recorded cues of that time in recording order |
| Cues.FlatIsSorted | src/mux.rs:6711-6715 | The groups one after the other are sorted by time |
| Cues.StableSortIsUnique | src/mux.rs:6711-6715 | So they are the stable sort of the recorded cues, the only list with these two properties |
| Cues.CuesReadBack | src/mux.rs:6696-6770 | Parsing the bytes of the Cues element, at any size width, gives the groups with all their entries and fields |
| Cues.IndexReadsBack | src/mux.rs:6696-6770 | The same from the data of the element, with or without a CRC-32 in front |
| FrontCues.BuildCuesBytes | src/mux.rs:6696-6770 | The loops write exactly the Cues element of the recorded cues, or nothing without any |
| FrontCues.WritePoint | src/mux.rs:6716-6754 | One CuePoint: its time and the entries of that time in order |
| FrontCues.WritePosition | src/mux.rs:6719-6752 | One entry with its fields in the order of the standard |
| FrontCues.CuesInnerLength | src/mux.rs:7633-7638 | The size read back from behind the ID |
| FrontCues.FrontCuesSlot | src/mux.rs:6657-6689 | The bytes that go into the reserved slot, or the fallback |
| FrontCues.SlotIsTiled | src/mux.rs:6657-6689 | The slot is used exactly if the index fits, and is then exactly one Cues element and one Void or nothing |
| Codecs.StripInvertsFraming | src/aac.rs:75-89 | An access unit framed with any ADTS header comes back, CRC or not; a frame of several is refused |
| Codecs.OnlyFramesParse | src/aac.rs:44-66 | Whatever parses as ADTS is such a frame, field by field, and everything else passes unchanged |
| Codecs.OpusSamplesAreTime | src/mux.rs:7275-7306 | The samples of an Opus packet are its frames times the frame time of section 3.1 of RFC 6716 at 48 kHz; none only where the packet is cut off |
| MuxerRun.WritePacketKeeps | src/mux.rs:6143-6397 | One packet keeps the invariant; it ends the run exactly if it is admitted, needs a new Cluster and silent tracks are pending under strict WebM; otherwise it is accepted exactly if it passes the checks and its time is not below -32768 ms, and the log of accepted frames grows by just it |
| PacketLog.MsIsExact | src/mux.rs:7259-7268 | The millisecond of a number of ticks is unique; if nothing overflows, ms * den <= ticks * num * 1000 < (ms + 1) * den from 0 on, mirrored below, and the ticks themselves for a time base without denominator |
| PacketLog.AdmittedExactly | src/mux.rs:6438-6560 | A packet is admitted if and only if its stream exists, its additions are numbered from 1 to the stream's maximum without repetition, its group is in the profile under strict WebM, and it is one access unit if it is AAC; and what group it then goes into |
| PacketLog.AcceptedIsLogged | src/mux.rs:6143-6397 | The accepted frames of every run, told from the packets alone: one for each packet that passes its checks and is not below -32768 ms, with its data, its key flag, its time (its own or its stream's running time, in the milliseconds of `MsIsExact`), its duration in the same milliseconds, and its explicit or derived references |
| PacketLog.CutShortIsLogged | src/mux.rs:6143-6397 | The same of a run that the guard cuts short, for the calls up to there |
| MuxerRun.WriteLiveTagsKeeps | src/mux.rs:4611-4667 | Live Tags, admitted or not, keep the invariant and lose no frame |
| MuxerRun.StartClusterKeeps | src/mux.rs:6566-6637 | Opening a Cluster with no lace pending keeps the invariant |
| MuxerRun.FlushLaceKeeps | src/mux.rs:6829-6880 | Draining one lace keeps the invariant |
| MuxerRun.AbortedIsSound | src/mux.rs:6612-6625 | The SilentTracks guard leaves a file of which everything but the run's going on still holds |
| MuxerAborts.AfterTheGuard | src/mux.rs:6592-6637 | Used on after that guard, the muxer puts the next packet into the Cluster it has aborted, at a time that is wrong by exactly the distance of that Cluster from the one before |
| MuxerTheorems.CuesNeverLie | src/mux.rs:6224-6316 | In every run each cue names the start of a Cluster, and there the offset, number and track of a Block, with its time or 0 if that is negative, laced or not |
| MuxerIndex.IndexIsExact | src/mux.rs:6262-6312 | At every moment of every run the recorded cues are exactly those of the Blocks in the file that have to be indexed, in file order, each with its track, time, Cluster, position, number and duration |
| MuxerIndex.OneCuePerClusterAndTrack | src/mux.rs:6286-6312 | A Cluster and a track that is no subtitle track have one cue if a Block of the track there was opened by a key frame, or by any frame if it is no video, and none otherwise; it is that of the first such Block |
| MuxerIndex.EverySubtitleIsIndexed | src/mux.rs:6262-6279 | Every subtitle Block that did not wait in a lace has a cue of its own, with its duration |
| MuxerTheorems.FramesAreConserved | src/mux.rs:6143-6397 | In every run the accepted frames, in call order, are those of the Blocks in file order and then those of one lace |
| MuxerTheorems.TrailerLosesNothing | src/mux.rs:6085-6098 | After the trailer's flush every accepted frame is in a Block and nothing is pending |
| MuxerTheorems.TimestampsAreExact | src/mux.rs:6238-6260 | For every Block, Cluster time plus offset is the time of the packet that opened it; the offset fits 16 bits and, from time 0 on, the Cluster's duration |
| MuxerTheorems.BudgetHolds | src/mux.rs:6238-6242 | In every Cluster the Blocks but the last, or but the last two under lacing, stay below the byte budget |
| MuxerPolicy.BlocksAndClustersAreFull | src/mux.rs:6788-6822 | In every run no Block could have taken in the first frame of the Block behind it: lacing is off, one of them is in a group, the tracks or key flags differ, the first has eight frames, or their lengths differ under fixed-size lacing; and a Cluster directly behind another begins before it, passes its duration, begins at 0, or finds its bytes spent |
| MuxerTheorems.OneBlockBoundExactly | src/mux.rs:2348-2357 | The documented bound of one Block holds in all runs if and only if there is no lacing or no track |
| MuxerTheorems.BackwardWalkWorks | src/mux.rs:6592-6611 | With position hints, subtracting PrevSize again and again visits every earlier Cluster of every run back to the first |
| MuxerTheorems.PrevSizeIsClusterSize | src/mux.rs:502-507 | PrevSize is the whole size of the previous Cluster if and only if nothing stands between the two |
| MuxerWitnesses.TagsBreakPrevSize | src/mux.rs:502-507 | A packet, live Tags and a packet make a PrevSize that is not the size of the first Cluster, for every live configuration with hints and without lacing |
| MuxerWitnesses.TimeIsWrongAfterTheGuard | src/mux.rs:6612-6637 | A strict run that stops at the guard and then accepts the packet of millisecond 1 as millisecond 40001 |
| MuxerTheorems.FieldsMatchTheFile | src/mux.rs:6873-6878 | The byte and Block counters are the sums over the open Cluster, which is the last child; at most one lace is pending, and only in an open Cluster |
| MuxerSkeleton.FlushedParts | src/mux.rs:4611-4667 | The children of the Segment behind the header are, in order, a Cluster for each packet that opens one, at its time or 0 if that is negative and with the list of silent tracks last set before it, and the Tags of each call that is admitted |
| SeekHeads.PatchPosition | src/mux.rs:7654-7656 | Eight bytes at an entry's position field set that entry's position and nothing else |
| SeekHeads.PatchVoid | src/mux.rs:7643-7650 | Twenty-one bytes at an entry make it a Void and change nothing else |
| MuxerFile.HeadLayout | src/mux.rs:5164-5184 | Every part of the header lies at the offset that is remembered for it, whatever is patched |
| MuxerFile.SeekEntriesResolve | src/mux.rs:6003-6060 | Each of the first five Seek entries points at an element of its ID, or is a Void, and then nothing in front of the Clusters has its ID |
| HeaderWriter.BuildInitialSeekHead | src/mux.rs:7564-7577 | Six entries of 21 bytes with no position yet |
| HeaderWriter.BuildSeekEntry | src/mux.rs:7582-7601 | One entry of 21 bytes with its ID and position |
| HeaderWriter.BuildVoidSeekEntry | src/mux.rs:7643-7650 | A filler of the same 21 bytes |
| HeaderWriter.FillSeekHead | src/mux.rs:6003-6060 | The five patches give the SeekHead of the measured offsets |
| HeaderWriter.WriteEbmlHeader | src/mux.rs:5033-5068 | The EBML header with its DocType, the version that the queued state needs, and the extensions |
| HeaderWriter.BuildInfoBody | src/mux.rs:5116-5157 | The Info children around TimestampScale and the two application names, with a filler where the Duration will go, and the filler's offset |
| HeaderWriter.WriteTrackEntry | src/mux.rs:5189-5933 | One track: number, type, FlagLacing with its override, hints, codec, and a FourCC whatever the profile |
| HeaderReader.TracksRead | src/mux.rs:5189-5933 | A reader of the Tracks gets for every stream its number and UID, the type 1, 2 or 17 of section 5.1.4.1.3 of RFC 9559, FlagLacing, CodecID, CodecPrivate and FourCC |
| HeaderWriter.WriteTopLevel | src/mux.rs:5158-5163 | A Top-Level master, with its CRC-32 unless WebM is strict |
| HeaderWriter.WriteChapters | src/mux.rs:7692-7729 | Chapters with one edition: its UID unless WebM is strict, its names, the chapters |
| HeaderWriter.WriteDisplay | src/mux.rs:7708-7715 | One name of an edition with its languages |
| TagWriter.BuildTags | src/mux.rs:7924-7954 | The Tag masters one after the other, with their Targets and SimpleTags |
| TagWriter.BuildTargets | src/mux.rs:7969-8008 | The selectors in their order, zeros left out |
| TagWriter.BuildSimpleTag | src/mux.rs:8027-8053 | Name, language, flag, value and the nested tags, to any depth |
| TagReader.TagsRead | src/mux.rs:7924-8053 | A reader of Tags gets back their targets without wildcards, and their SimpleTags with name, language, flag, value and nested tags to any depth |
| HeaderWriter.WriteMasters | src/mux.rs:5116-6001 | Info, Tracks and the optional masters behind them, with their offsets |
| HeaderWriter.BuildHeader | src/mux.rs:5016-6079 | The buffer that `write_header` builds and patches is the serialised header, and the offsets it remembers are those of its parts |
| FilePatches.PatchCuesPosition | src/mux.rs:6888-6910 | Patching the Cues position turns the bytes of one file into those of the file with that entry, and touches no other byte |
| FilePatches.PatchCuesVoid | src/mux.rs:6888-6910 | The same for the Void that replaces the entry |
| FilePatches.PatchDuration | src/mux.rs:6917-6935 | The two writes turn the bytes into those of the file with the Duration and the CRC-32 of the new Info body |
| FilePatches.PatchFront | src/mux.rs:6657-6689 | Writing the slot turns the bytes into those of the file with the index in it |
| Trailer.SeekHeadIsTruthful | src/mux.rs:6099-6118 | After the trailer each of the six entries points at an element of its ID, or is a Void, and then nothing in front of the Clusters or behind them has its ID |
| SeekHeadTruth.SeekHeadIsComplete | src/mux.rs:6085-6129 | After any run without live streaming an entry is a Void if and only if the whole Segment has no element of its ID, and any other points at one |
| Trailer.FoundBytes | src/mux.rs:6099-6118 | And a reader finds that element's header at that position of the file |
| Trailer.InfoCrcMatches | src/mux.rs:6917-6935 | In the bytes of the finished file Info starts at its offset, its first child is a CRC-32, and the four bytes of that are the CRC of the bytes behind it, which are the Info children with the measured Duration |
| Durations.DurationIsLatestEnd | src/mux.rs:6196-6211 | The finished file's Duration is the latest end of all packets that pass the run's checks, or 0 if that is negative, where an end is the packet's time plus its duration in the milliseconds of `MsIsExact`: exactly below 2^53 ms and as the nearest double beyond; there is none without a packet |
| HintGuards.GuardsSufficeButOne | src/mux.rs:2565-2573 | For every kind of setter: all trees that it can build and its own guard lets through are in the profile, if and only if it is not the one of the FourCC |
| HintGuards.GuardsAreExact | src/mux.rs:2565-2573 | And every other guard refuses, of the trees that its setter can build, exactly those with an element off the profile |
| TagRules.TagProfile | src/mux.rs:2550-2563 | A Tag is in the profile if and only if its edition, chapter and attachment lists hold only wildcards |
| TagRules.TagsAreProper | src/mux.rs:2550-2563 | So the guard on the targets suffices for strict WebM |
| TagRules.TagV5 | src/mux.rs:7999-8006 | A Tag holds an element of version 5 if and only if one of its selectors is no wildcard |
| Setters.SetKeepsGuard | src/mux.rs:2565-2589 | Every setter, with the guard of its own, keeps the queued state valid, no off-profile hint in it while it is strict, and version 5 out of WebM |
| Setters.ConfiguredIsGuarded | src/mux.rs:2526-2573 | So does every sequence of setters, failing ones included |
| SetterLog.SetFollowsList | src/mux.rs:2303-2704 | A setter is an error exactly if the streams, the container and the setters taken before it say so, and otherwise makes the state that the list with it says |
| SetterLog.ConfiguredIsSummary | src/mux.rs:2303-2704 | After any sequence of setters every field is what the last setter taken for it said, by default 5000 ms and 5000000 bytes, or all that were queued for it in order |
| SetterLog.TracksAreStreams | src/mux.rs:2217-2286 | The tracks are the streams in order, numbered from 1 |
| BlockGroups.BuildBlockGroup | src/mux.rs:7028-7132 | The BlockGroup with its Block and its optional children in their order, the reclaimed ones included |
| BlockGroups.BuildMores | src/mux.rs:7054-7065 | The BlockMore list of the additions, the ID left out where it is 1 |
| BlockGroups.WriteReferences | src/mux.rs:7075-7077 | One ReferenceBlock per reference, in order |
| BlockGroups.WriteLegacy | src/mux.rs:7089-7127 | The reclaimed children, slices and reference frame included, in their order |
| BlockGroups.GroupTellsKeyFrames | src/mux.rs:6329-6345 | Without explicit references a group has no ReferenceBlock if and only if its packet is a key frame, and a derived one leads back to the track's last Block |
| GroupReader.GroupReadsBack | src/mux.rs:7028-7132 | A reader with the defaults of the standard (BlockAddID 1, ReferencePriority 0) gets back from a BlockGroup its Block, the additions with IDs and data, the duration, the priority, the references, the codec state, the discard padding and the reclaimed children |
| MuxerSteps.BuildLead | src/mux.rs:6582-6611 | The Timestamp and the hints of a Cluster |
| MuxerSteps.BuildSilentTracks | src/mux.rs:6612-6625 | The SilentTracks master of a list of track numbers |
| MkvMuxers.MkvMuxer.constructor | src/mux.rs:2217-2286 | A new muxer with the defaults, tracks numbered from 1, strict if it is a WebM one |
| MkvMuxers.MkvMuxer.Create | src/mux.rs:2201-2215 | No muxer without a stream or, for WebM, with a codec outside the whitelist; any other list of streams gives one |
| MkvMuxers.MkvMuxer.Configure | src/mux.rs:2303-2704 | Any setter: an error that changes nothing, or exactly its change |
| MkvMuxers.MkvMuxer.WriteHeader | src/mux.rs:5016-6079 | The output gains exactly the header, the remembered offsets are right, and the run is at its start; a second call, or names of an edition without chapters, change nothing |
| MkvMuxers.MkvMuxer.WriteBlockBytes | src/mux.rs:6384-6388 | The Block's bytes go to the end of the file and both counters advance |
| MkvMuxers.MkvMuxer.PushCue | src/mux.rs:6280-6312 | The cue recorded is that of the Block written next |
| MkvMuxers.MkvMuxer.FlushLace | src/mux.rs:6829-6880 | One lace becomes a Block at the end of the file, with its cue and counters; an empty one changes nothing |
| MkvMuxers.MkvMuxer.FlushPending | src/mux.rs:6224-6232 | The loop flushes every pending lace but the packet's own, in track order |
| MkvMuxers.MkvMuxer.Settle | src/mux.rs:6224-6232 | Under lacing, everything but the packet's own lace is on disk; before a group, that too |
| MkvMuxers.MkvMuxer.EndLace | src/mux.rs:6247-6251 | The track's own lace is on disk before its Cluster ends |
| MkvMuxers.MkvMuxer.StartCluster | src/mux.rs:6566-6637 | A Cluster header with its Timestamp and hints at the end of the file, or the state that the SilentTracks guard leaves |
| MkvMuxers.MkvMuxer.AppendToLace | src/mux.rs:6788-6822 | The frame joins its lace after the flush that makes room |
| MkvMuxers.MkvMuxer.WriteUnlaced | src/mux.rs:6280-6391 | One Block of one frame, its cue before it |
| MkvMuxers.MkvMuxer.PlacePacket | src/mux.rs:6255-6397 | The packet goes into the open Cluster or its lace, and into the log |
| MkvMuxers.MkvMuxer.Advance | src/mux.rs:6174-6211 | The stream's running time and the latest end time |
| MkvMuxers.MkvMuxer.OpenAndPlace | src/mux.rs:6238-6397 | A new Cluster where one is needed, and the packet in it, or a rejection, or the end of the run |
| MkvMuxers.MkvMuxer.WritePacket | src/mux.rs:6143-6397 | The whole step: outcome, fields and output bytes are those of the state machine |
| MkvMuxers.MkvMuxer.SetNextClusterSilentTracks | src/mux.rs:3906-3908 | The list for the next Cluster, and nothing else |
| MkvMuxers.MkvMuxer.WriteLiveTags | src/mux.rs:4611-4667 | Laces flushed, the Cluster ended, one Tags element at the end of the file; or, where a tag is refused or needs a version that the header lacks, an error that changes nothing |
| MkvMuxers.MkvMuxer.FlushEverything | src/mux.rs:6092-6098 | No lace is left pending |
| MkvMuxers.MkvMuxer.WriteCues | src/mux.rs:6643-6650 | The index at the end of the file, and its position |
| MkvMuxers.MkvMuxer.WriteFrontCues | src/mux.rs:6657-6689 | The index in its slot, or at the end, or none |
| MkvMuxers.MkvMuxer.WriteIndex | src/mux.rs:6104-6110 | None in a live stream, otherwise in the slot or at the end |
| MkvMuxers.MkvMuxer.PatchCuesSeekEntry | src/mux.rs:6888-6910 | The file with its Cues entry set or voided |
| MkvMuxers.MkvMuxer.PatchInfoDuration | src/mux.rs:6917-6935 | The finished file, with the milliseconds as a double and the CRC-32 over them |
| MkvMuxers.MkvMuxer.WriteTrailer | src/mux.rs:6085-6129 | Nothing pending and the finished file, byte for byte; a second call changes nothing |
| StrictWebm.FileScansClean | src/webm.rs:472-477 | The bytes of any such file scan without damage, and a strict one is conformant if and only if no FourCC is queued |
| EndToEnd.OutputScansClean | src/webm.rs:472-499 | At every moment of every run from offset 0, however it was set up and even where a guard cuts it short: no damage, and strict means conformant exactly without a FourCC |
| EndToEnd.FinishedOutputScansClean | src/webm.rs:472-499 | The same after the trailer |
| FourccWitness.StrictFileIsNotConformant | src/mux.rs:3514-3538 | One video stream of any admitted codec and one call of the FourCC setter: the muxer is strict, no size overflows, and its file is not conformant |
| Versions.VersionIsHonest | src/mux.rs:2598-2611 | At every moment of every run, however it was set up: the header says DocTypeVersion 5 if and only if some element in the file needs it, and never in WebM, lenient or not |
| MuxerVersions.RunFromOld | src/mux.rs:4632-4650 | Under a header of version 4 no call of any run writes an element that needs 5 |
| EndToEnd.CuesSeekInFinishedFile | src/mux.rs:6085-6129 | In the bytes of the finished file every cue leads to a Cluster header and, at its relative position, to a Block element of its track |
| ReadBack.ClusterReadsBack | src/mux.rs:6566-6637 | Reading a Cluster's bytes gives its time and its Blocks with track, offset, flags and frames, and for those in a group its options and duration |
| FileReader.ClusterEnds | src/mux.rs:6569-6581 | In the bytes an unknown-size Cluster ends exactly where its last child does, at a Top-Level ID or the end |
| FileReader.SegmentReads | src/mux.rs:6569-6581 | Reading a Segment's bytes finds what reading its children as elements finds |
| FileReader.FramesReadBack | src/mux.rs:6143-6397 | Reading the bytes of the finished file, from the EBML header on, gives every accepted frame in the order of the calls, in Blocks with their tracks, flags and times |
| Playback.PacketsReadBack | src/mux.rs:6143-6397 | The same told from the packets: the Blocks read carry, in order, exactly the frames that `AcceptedIsLogged` tells, each with its track, data, key flag, duration and group, and Cluster time plus offset is the time of a Block's first packet |
| Playback.BlocksHaveTracks | src/mux.rs:5189-5220 | Every Block read from the finished bytes has its track number among the tracks read from the header |
| FileContents.HeaderReadsBack | src/mux.rs:5016-5220 | A reader of the finished bytes gets the EBML header with DocType and versions, Info with TimestampScale 1000000, the two application names and the measured Duration, and the tracks |
| FileContents.TagsReadBack | src/mux.rs:7924-8053 | And the queued tags, and the edition of Chapters with its UID and names |
| FileContents.FileIndexReadsBack | src/mux.rs:6643-6770 | And an index that lists exactly the Blocks that have to be indexed, grouped by time; none in a live stream or without such Blocks |
| HintReader.HintsReadBack | src/mux.rs:5016-6079 | And every queued hint in the order of the setters where it belongs: in the EBML header, Info, the entry or the Video master of its own track, the edition, or Attachments |
| SeekReader.SeekHeadReadsBack | src/mux.rs:6003-6118 | And, unless the stream is live, a SeekHead whose entries lead to the headers of their elements and list exactly those of the six kinds that the Segment has |
| RunReader.RunReadsBack | src/mux.rs:6582-6625 | And behind the header, in order, the Clusters and live Tags of `FlushedParts`: a Cluster's Timestamp is its time, its Position and PrevSize are where it and its predecessor were found, its silent tracks are its list, and each Tags element gives its tags back |
| RunReader.StartReadsBack | src/mux.rs:5069-5115 | The Segment begins with the SeekHead, a filler of exactly the size asked for, Info and Tracks, and in a live stream with Info and Tracks |
| Avc.FindStartCode | src/avc.rs:198-210 | The first start code, or none |
| Avc.AnnexBIter.Next | src/avc.rs:174-191 | The next unit of the split, and the position from which the rest is split |
| Avc.SplitInvertsJoin | src/avc.rs:165-191 | Units free of start codes and of a zero at the end come back from any stream of them, with any number of zeros before each code, anything without a code in front and zeros behind |
| Avc.EveryStreamIsJoined | src/avc.rs:165-191 | Every byte string is such a stream of clean units, and splits into them |
| Avc.SetsAreFirstSeen | src/avc.rs:81-92 | The collected sets are the distinct units whose first byte has the type in its low five bits, in the order of first appearance |
| Avc.SlicesAreTheRest | src/avc.rs:93-99 | What is packetised is every unit of a type other than 7 and 8, in order |
| Avc.FramedReadsBack | src/avc.rs:93-99 | Four-byte lengths lead back to the units if and only if each is shorter than 2^32 |
| Avc.BuildConfigurationRecord | src/avc.rs:112-156 | The record's bytes, or none without a first SPS of four bytes |
| Avc.RecordReadsBack | src/avc.rs:112-156 | Reading the record gives the first SPS's profile and level and up to 31 and 255 sets, if and only if their lengths fit 16 bits |
| Avc.AnnexBToAvcc | src/avc.rs:71-106 | The loop over the iterator computes the record and the packets of the split |
| Avc.RepackedReadsBack | src/avc.rs:71-156 | For every stream of clean units, both outputs read back: the packets to the units of other types in order, the record to the first-seen sets of types 7 and 8 |
| FrameRates.FrameRateFromDefaultDuration | src/demux/video_config.rs:621-647 | The loop over the denominators and Euclid's loop compute the rate |
| FrameRates.RateIsExact | src/demux/video_config.rs:621-647 | A rate over 1 or 1001 has a frame duration that rounds to the stated one; any other result is the quotient in lowest terms; none only for 0 or an overflowing denominator |
| FrameRates.FoundExactlyIfThereIsOne | src/demux/video_config.rs:627-637 | A denominator is taken exactly if some rate over it has that rounded duration |
| FrameRates.WholeRateReturnsExactly | src/demux/video_config.rs:621-647 | For every whole rate n, with d its rounded duration: n is recovered if and only if d > 0 and n is the whole number nearest to 10^9 / d, that is n*d <= 10^9 + d/2 < (n+1)*d |
| FrameRates.WholeRatesReturn | src/demux/video_config.rs:621-647 | Every whole rate from 1 to 31622 is recovered from its rounded duration |
| FrameRates.HighRatesCollide | src/demux/video_config.rs:621-647 | 50000 and 50001 share a duration, so the condition does fail |
| FrameRates.RatesOver1001Return | src/demux/video_config.rs:627-637 | Every rate n/1001 is recovered if and only if its duration d is positive, no whole rate has it, and n is the whole number nearest to 1001 * 10^9 / d |
| FrameRates.TelevisionRatesReturn | src/demux/video_config.rs:621-647 | Every rate 1000n/1001 below 1000 is recovered |
| BitReaders.Unescape | src/demux/video_config.rs:541-553 | The loop removes each 3 behind two zeros |
| BitReaders.UnescapeInvertsEscape | src/demux/video_config.rs:541-553 | It gives back every byte string from its escaped form |
| BitReaders.UnescapeIsIdentity | src/demux/video_config.rs:541-553 | It leaves a string alone if and only if no 3 follows two zeros |
| BitReaders.BitReader.Bit | src/demux/video_config.rs:565-570 | The next bit, most significant first, or none at the end |
| BitReaders.BitReader.Bits | src/demux/video_config.rs:573-579 | The field's value, or none when the data are too short |
| BitReaders.BitReader.Skip | src/demux/video_config.rs:582-589 | Moves exactly so far, or not at all |
| BitReaders.BitReader.Zeros | src/demux/video_config.rs:600-606 | The leading zeros and the one behind them, up to 31 |
| BitReaders.BitReader.Suffix | src/demux/video_config.rs:607-610 | The value of as many bits again |
| BitReaders.BitReader.Ue | src/demux/video_config.rs:599-612 | The Exp-Golomb value and the position behind its code, or none |
| BitReaders.BitReader.Se | src/demux/video_config.rs:592-596 | The signed value of the code |
| BitReaders.UeRoundTrip | src/demux/video_config.rs:599-612 | Every value below 2^32 - 1 is read from its code of section 9.1 of ITU-T H.264, whatever follows |
| BitReaders.UeIsUnique | src/demux/video_config.rs:599-612 | Whatever is read as a value is that value's code |
| BitReaders.SeRoundTrip | src/demux/video_config.rs:592-596 | Every value between -2^31 and 2^31 is read from the code of its index |

## Left out

- MuxerRun.WritePacketKeeps: the sum of a stream's running time and a duration, the product with the time base and the difference of two times are unbounded; where they pass 64 bits (128 for the product), the source panics or wraps, by build. Casts and the saturating sum are modelled.
- MkvMuxers.MkvMuxer.WritePacket: the same, and it asks that no size overflows its VINT, where the source panics.
- MkvMuxers.MkvMuxer.Advance: the same sums and products of times are unbounded.
- MkvMuxers.MkvMuxer.Configure: a hint other than a tag, a FourCC, a FlagLacing or the names of an edition comes as the tree that is written for it; the range checks on its single fields are left out, and a second call of a setter appends where the source replaces.
- HeaderWriter.BuildInfoBody: linking, date, title and a fixed duration come as the trees that their setters queue.
- HeaderWriter.WriteTrackEntry: the bodies of the hints, and the pixel sizes and audio fields that come from the stream, are such trees; they stand in front of the codec, in the order of the calls.
- HeaderWriter.WriteMasters: chapters and attachments are such trees.
- HeaderWriter.BuildHeader: for the same trees.
- MkvMuxers.MkvMuxer.WriteHeader: for the same trees.
- Setters.SetKeepsGuard: a setter's tree is any that consists of the elements it can write, which is more than it builds.
- Setters.ConfiguredIsGuarded: for the same trees.
- Reads and writes of the output cannot fail, and its position is its end except inside the three patches.
- The fields that a run changes are one record of the class, with positions counted from the Segment's data; the header's absolute offsets are another.
- Calls out of order: packets before the header, and packets or a header after the trailer.
- The Matroska codec ID and the normalised CodecPrivate of a stream are given; the codec table and the AAC and Opus configuration are left out.
- UTF-8 is checked for the DocType only; other strings are bytes.
- `read_float` for four bytes, `read_string`, `read_bytes` and `skip` would add only easy members.
- The demuxer and the schema validator are not part of this model; the readers here follow RFC 8794, RFC 9559, ISO/IEC 14496-15 and ITU-T H.264.
- The codec and ID registries, track parsing for H.264, H.265, VP9 and AV1, probing and container registration.
