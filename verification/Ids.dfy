/** Element IDs, marker bits included: the ones the muxer itself writes. */
module Ids {
  const EBML_HEADER: nat := 0x1A45DFA3
  const EBML_VERSION: nat := 0x4286
  const EBML_READ_VERSION: nat := 0x42F7
  const EBML_MAX_ID_LENGTH: nat := 0x42F2
  const EBML_MAX_SIZE_LENGTH: nat := 0x42F3
  const EBML_DOC_TYPE: nat := 0x4282
  const EBML_DOC_TYPE_VERSION: nat := 0x4287
  const EBML_DOC_TYPE_READ_VERSION: nat := 0x4285
  const VOID: nat := 0xEC
  const CRC32: nat := 0xBF

  const SEGMENT: nat := 0x18538067
  const SEEK_HEAD: nat := 0x114D9B74
  const SEEK: nat := 0x4DBB
  const SEEK_ID: nat := 0x53AB
  const SEEK_POSITION: nat := 0x53AC
  const INFO: nat := 0x1549A966
  const TRACKS: nat := 0x1654AE6B
  const CLUSTER: nat := 0x1F43B675
  const CUES: nat := 0x1C53BB6B
  const ATTACHMENTS: nat := 0x1941A469
  const CHAPTERS: nat := 0x1043A770
  const TAGS: nat := 0x1254C367

  const TIMECODE_SCALE: nat := 0x2AD7B1
  const DURATION: nat := 0x4489
  const MUXING_APP: nat := 0x4D80
  const WRITING_APP: nat := 0x5741

  const TRACK_ENTRY: nat := 0xAE
  const TRACK_NUMBER: nat := 0xD7
  const TRACK_UID: nat := 0x73C5
  const TRACK_TYPE: nat := 0x83
  const FLAG_LACING: nat := 0x9C
  const CODEC_ID: nat := 0x86
  const CODEC_PRIVATE: nat := 0x63A2
  const VIDEO: nat := 0xE0
  const UNCOMPRESSED_FOURCC: nat := 0x2EB524

  const EDITION_ENTRY: nat := 0x45B9
  const EDITION_UID: nat := 0x45BC
  const EDITION_DISPLAY: nat := 0x4520
  const EDITION_STRING: nat := 0x4521
  const EDITION_LANGUAGE_IETF: nat := 0x45E4
  const CHAPTER_SKIP_TYPE: nat := 0x4588
  const EMPHASIS: nat := 0x52F1
  const TAG_BLOCK_ADD_ID_VALUE: nat := 0x63C7

  const TAG: nat := 0x7373
  const TARGETS: nat := 0x63C0
  const TARGET_TYPE_VALUE: nat := 0x68CA
  const TARGET_TYPE: nat := 0x63CA
  const TAG_TRACK_UID: nat := 0x63C5
  const TAG_EDITION_UID: nat := 0x63C9
  const TAG_CHAPTER_UID: nat := 0x63C4
  const TAG_ATTACHMENT_UID: nat := 0x63C6
  const SIMPLE_TAG: nat := 0x67C8
  const TAG_NAME: nat := 0x45A3
  const TAG_STRING: nat := 0x4487
  const TAG_LANGUAGE: nat := 0x447A
  const TAG_LANGUAGE_BCP47: nat := 0x447B
  const TAG_DEFAULT: nat := 0x4484
  const TAG_BINARY: nat := 0x4485

  const BLOCK_VIRTUAL: nat := 0xA2
  const REFERENCE_VIRTUAL: nat := 0xFD
  const SLICES: nat := 0x8E
  const TIME_SLICE: nat := 0xE8
  const LACE_NUMBER: nat := 0xCC
  const FRAME_NUMBER: nat := 0xCD
  const TIME_SLICE_BLOCK_ADDITION_ID: nat := 0xCB
  const DELAY: nat := 0xCE
  const SLICE_DURATION: nat := 0xCF
  const REFERENCE_FRAME: nat := 0xC8
  const REFERENCE_OFFSET: nat := 0xC9
  const REFERENCE_TIMESTAMP: nat := 0xCA

  const TIMECODE: nat := 0xE7
  const POSITION: nat := 0xA7
  const PREV_SIZE: nat := 0xAB
  const SILENT_TRACKS: nat := 0x5854
  const SILENT_TRACK_NUMBER: nat := 0x58D7
  const SIMPLE_BLOCK: nat := 0xA3
  const BLOCK_GROUP: nat := 0xA0
  const BLOCK: nat := 0xA1
  const BLOCK_ADDITIONS: nat := 0x75A1
  const BLOCK_MORE: nat := 0xA6
  const BLOCK_ADDITIONAL: nat := 0xA5
  const BLOCK_ADD_ID: nat := 0xEE
  const BLOCK_DURATION: nat := 0x9B
  const REFERENCE_PRIORITY: nat := 0xFA
  const REFERENCE_BLOCK: nat := 0xFB
  const CODEC_STATE: nat := 0xA4
  const DISCARD_PADDING: nat := 0x75A2

  const CUE_POINT: nat := 0xBB
  const CUE_TIME: nat := 0xB3
  const CUE_TRACK_POSITIONS: nat := 0xB7
  const CUE_TRACK: nat := 0xF7
  const CUE_CLUSTER_POSITION: nat := 0xF1
  const CUE_RELATIVE_POSITION: nat := 0xF0
  const CUE_DURATION: nat := 0xB2
  const CUE_BLOCK_NUMBER: nat := 0x5378
}
