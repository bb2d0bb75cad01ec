/** What the muxer looks for inside the packets of AAC and Opus streams. */
module Codecs {
  import opened Wrappers
  import opened Bytes

  // ----- AAC: the ADTS transport header -----

  datatype Adts = Adts(headerLength: nat, frameLength: nat, rawBlocks: nat)

  /** A header whose sync word, layer, sampling index and length all check out. */
  function ParseAdts(data: seq<byte>): (r: Option<Adts>)
    ensures r.Some? ==> 7 <= r.value.headerLength <= r.value.frameLength == |data|
  {
    if |data| < 7 || data[0] != 0xFF || data[1] / 16 != 15 || data[1] / 2 % 4 != 0 then None
    else if data[2] / 4 % 16 > 12 then None
    else
      var high: nat, middle: nat, low: nat := data[3] % 4, data[4], data[5] / 32;
      var frameLength := high * 2048 + middle * 8 + low;
      var headerLength := if data[1] % 2 == 1 then 7 else 9;
      if frameLength != |data| || frameLength < headerLength then None
      else Some(Adts(headerLength, frameLength, data[6] % 4 + 1))
  }

  /** The bare access unit; `None` for a frame that holds several. */
  function StripAdts(data: seq<byte>): Option<seq<byte>> {
    match ParseAdts(data)
    case Some(info) => if info.rawBlocks > 1 then None else Some(data[info.headerLength..info.frameLength])
    case None => Some(data)
  }

  /** The fields of section 1.A.2.2 of ISO/IEC 14496-3, without the sync word, the zero layer and the length. */
  datatype AdtsFields = AdtsFields(
    id: nat, protected: bool, profile: nat, rate: nat, privateBit: nat, channels: nat, original: nat, home: nat,
    copyright: nat, copyrightStart: nat, fullness: nat, blocks: nat, crc: seq<byte>)

  predicate ValidFields(f: AdtsFields) {
    && f.id < 2 && f.profile < 4 && f.rate <= 12 && f.privateBit < 2 && f.channels < 8 && f.original < 2 && f.home < 2
    && f.copyright < 2 && f.copyrightStart < 2 && f.fullness < 2048 && 1 <= f.blocks <= 4
    && |f.crc| == if f.protected then 2 else 0
  }

  function AdtsLength(f: AdtsFields, payload: seq<byte>): nat {
    7 + |f.crc| + |payload|
  }

  /** An ADTS frame: 56 bits of header, field by field, the CRC, and the payload. */
  function AdtsFrame(f: AdtsFields, payload: seq<byte>): (s: seq<byte>)
    requires ValidFields(f) && AdtsLength(f, payload) < 8192
    ensures |s| == AdtsLength(f, payload)
  {
    var n := AdtsLength(f, payload);
    [0xFF,
     0xF0 + f.id * 8 + (if f.protected then 0 else 1),
     f.profile * 64 + f.rate * 4 + f.privateBit * 2 + f.channels / 4,
     f.channels % 4 * 64 + f.original * 32 + f.home * 16 + f.copyright * 8 + f.copyrightStart * 4 + n / 2048,
     n / 8 % 256,
     n % 8 * 32 + f.fullness / 64,
     f.fullness % 64 * 4 + (f.blocks - 1)] + f.crc + payload
  }

  /** A frame of one access unit loses exactly its header; one of several is refused. */
  lemma StripInvertsFraming(f: AdtsFields, payload: seq<byte>)
    requires ValidFields(f) && AdtsLength(f, payload) < 8192
    ensures StripAdts(AdtsFrame(f, payload)) == if f.blocks == 1 then Some(payload) else None
  {
    var s := AdtsFrame(f, payload);
    var n := AdtsLength(f, payload);
    SyncRead(f.id, if f.protected then 0 else 1, s[1]);
    RateRead(f.profile, f.rate, f.privateBit * 2 + f.channels / 4, s[2]);
    LastBits(f.channels % 4 * 16 + f.original * 8 + f.home * 4 + f.copyright * 2 + f.copyrightStart, n / 2048, s[3]);
    LengthRead(n, f.fullness / 64, s[5]);
    LastBits(f.fullness % 64, f.blocks - 1, s[6]);
    assert ParseAdts(s) == Some(Adts(7 + |f.crc|, n, f.blocks));
    assert s[7 + |f.crc|..n] == payload;
  }

  lemma SyncRead(id: nat, absent: nat, b: byte)
    requires id < 2 && absent < 2 && b == 0xF0 + id * 8 + absent
    ensures b / 16 == 15 && b / 2 % 4 == 0 && b % 2 == absent
  {
  }

  lemma RateRead(profile: nat, rate: nat, rest: nat, b: byte)
    requires rate < 16 && rest < 4 && b == profile * 64 + rate * 4 + rest
    ensures b / 4 % 16 == rate
  {
    assert b / 4 == profile * 16 + rate;
  }

  lemma LastBits(high: nat, low: nat, b: byte)
    requires low < 4 && b == 4 * high + low
    ensures b % 4 == low && b / 4 == high
  {
  }

  lemma LengthRead(n: nat, rest: nat, b: byte)
    requires n < 8192 && rest < 32 && b == n % 8 * 32 + rest
    ensures n / 2048 < 4 && b / 32 == n % 8
    ensures n / 2048 * 2048 + n / 8 % 256 * 8 + n % 8 == n
  {
    assert n / 8 / 256 == n / 2048;
  }

  /** The fields that a header carries. */
  function FieldsOf(data: seq<byte>): AdtsFields
    requires ParseAdts(data).Some?
  {
    var protected := data[1] % 2 == 0;
    var channels: nat, fullness: nat := data[2] % 2, data[5] % 32;
    AdtsFields(data[1] / 8 % 2, protected, data[2] / 64, data[2] / 4 % 16, data[2] / 2 % 2, channels * 4 + data[3] / 64,
               data[3] / 32 % 2, data[3] / 16 % 2, data[3] / 8 % 2, data[3] / 4 % 2, fullness * 64 + data[6] / 4,
               data[6] % 4 + 1, if protected then data[7..9] else [])
  }

  /** Whatever parses is such a frame, so data that are none pass unchanged. */
  lemma OnlyFramesParse(data: seq<byte>)
    ensures match ParseAdts(data)
            case Some(info) =>
              var f := FieldsOf(data);
              && ValidFields(f) && info == Adts(7 + |f.crc|, |data|, f.blocks) && |data| < 8192
              && data == AdtsFrame(f, data[info.headerLength..])
            case None => StripAdts(data) == Some(data)
  {
    if ParseAdts(data).Some? {
      var f := FieldsOf(data);
      var payload := data[7 + |f.crc|..];
      assert AdtsLength(f, payload) == |data|;
      FrameBytes(data, f);
      assert data == data[..7] + f.crc + payload;
      assert AdtsFrame(f, payload)[..7] == data[..7];
    }
  }

  lemma FrameBytes(data: seq<byte>, f: AdtsFields)
    requires ParseAdts(data).Some? && f == FieldsOf(data)
    ensures ValidFields(f) && |data| < 8192
    ensures data[0] == 0xFF
    ensures data[1] == 0xF0 + f.id * 8 + (if f.protected then 0 else 1)
    ensures data[2] == f.profile * 64 + f.rate * 4 + f.privateBit * 2 + f.channels / 4
    ensures data[3] == f.channels % 4 * 64 + f.original * 32 + f.home * 16 + f.copyright * 8 + f.copyrightStart * 4
            + |data| / 2048
    ensures data[4] == |data| / 8 % 256
    ensures data[5] == |data| % 8 * 32 + f.fullness / 64
    ensures data[6] == f.fullness % 64 * 4 + (f.blocks - 1)
  {
    var b1: nat, b2: nat, b3: nat, b5: nat, b6: nat := data[1], data[2], data[3], data[5], data[6];
    Byte1(b1);
    Byte2(b2, b3);
    Byte3(b2, b3);
    var high: nat, middle: nat, low: nat := data[3] % 4, data[4], data[5] / 32;
    LengthWritten(|data|, high, middle, low);
    Byte6(b5, b6);
  }

  lemma Byte1(b: nat)
    requires b < 256 && b / 16 == 15 && b / 2 % 4 == 0
    ensures b == 0xF0 + b / 8 % 2 * 8 + b % 2
  {
  }

  lemma Byte2(b: nat, next: nat)
    requires b < 256 && next < 256
    ensures b == b / 64 * 64 + b / 4 % 16 * 4 + b / 2 % 2 * 2 + (b % 2 * 4 + next / 64) / 4
  {
    assert (b % 2 * 4 + next / 64) / 4 == b % 2;
    assert b / 4 / 16 == b / 64;
    assert b / 2 / 2 == b / 4;
  }

  lemma Byte3(previous: nat, b: nat)
    requires b < 256
    ensures b == (previous % 2 * 4 + b / 64) % 4 * 64 + b / 32 % 2 * 32 + b / 16 % 2 * 16 + b / 8 % 2 * 8
            + b / 4 % 2 * 4 + b % 4
  {
    assert (previous % 2 * 4 + b / 64) % 4 == b / 64;
    assert b / 32 / 2 == b / 64;
    assert b / 16 / 2 == b / 32;
    assert b / 8 / 2 == b / 16;
    assert b / 4 / 2 == b / 8;
  }

  lemma LengthWritten(n: nat, high: nat, middle: nat, low: nat)
    requires high < 4 && middle < 256 && low < 8 && n == high * 2048 + middle * 8 + low
    ensures n < 8192 && high == n / 2048 && middle == n / 8 % 256 && low == n % 8
  {
    assert n / 8 == high * 256 + middle;
  }

  lemma Byte6(previous: nat, b: nat)
    requires b < 256 && previous < 256
    ensures var fullness := previous % 32 * 64 + b / 4;
            && fullness < 2048 && previous == previous / 32 * 32 + fullness / 64
            && b == fullness % 64 * 4 + b % 4
  {
    var fullness := previous % 32 * 64 + b / 4;
    assert fullness / 64 == previous % 32 && fullness % 64 == b / 4;
  }

  // ----- Opus: the duration of a packet -----

  /** Samples at 48 kHz per frame, by the configuration number of the TOC byte. */
  function OpusFrameSize(config: nat): Option<nat> {
    match config
    case 0 | 4 | 8 | 12 | 14 | 18 | 22 | 26 | 30 => Some(480)
    case 1 | 5 | 9 | 13 | 15 | 19 | 23 | 27 | 31 => Some(960)
    case 2 | 6 | 10 => Some(1920)
    case 3 | 7 | 11 => Some(2880)
    case 16 | 20 | 24 | 28 => Some(120)
    case 17 | 21 | 25 | 29 => Some(240)
    case _ => None
  }

  /** Samples at 48 kHz in a packet. */
  function OpusSamples(data: seq<byte>): Option<nat> {
    if data == [] then None
    else
      var size :- OpusFrameSize(data[0] / 8);
      match data[0] % 4
      case 0 => Some(size)
      case 3 => if |data| < 2 then None else Some(size * (data[1] % 64))
      case _ => Some(size * 2)
  }

  /**
   * Section 3.1 of RFC 6716: SILK frames of 10, 20, 40 or 60 ms, hybrid frames of 10 or 20, CELT
   * frames of 2.5, 5, 10 or 20; in tenths of a millisecond.
   */
  function FrameTenths(config: nat): nat
    requires config < 32
  {
    if config < 12 then [100, 200, 400, 600][config % 4]
    else if config < 16 then [100, 200][config % 2]
    else [25, 50, 100, 200][config % 4]
  }

  /** How many frames a packet announces: one, two, or the count in its second byte. */
  function FrameCount(data: seq<byte>): nat
    requires data != []
  {
    if data[0] % 4 == 0 then 1 else if data[0] % 4 < 3 then 2 else if |data| < 2 then 0 else data[1] % 64
  }

  /** The samples are the packet's time at 48 kHz; only a packet cut off before its frame count has none. */
  lemma OpusSamplesAreTime(data: seq<byte>)
    ensures OpusSamples(data).None? <==> data == [] || (data[0] % 4 == 3 && |data| < 2)
    ensures OpusSamples(data).Some? ==> 10 * OpusSamples(data).value == 48 * FrameTenths(data[0] / 8) * FrameCount(data)
  {
    if data != [] {
      FrameSizeIsTime(data[0] / 8);
      if data[0] % 4 == 3 && |data| >= 2 {
        var n := data[1] % 64;
        var size := OpusFrameSize(data[0] / 8).value;
        assert 10 * (size * n) == 10 * size * n;
      }
    }
  }

  lemma FrameSizeIsTime(config: nat)
    requires config < 32
    ensures OpusFrameSize(config).Some? && 10 * OpusFrameSize(config).value == 48 * FrameTenths(config)
  {
  }
}
