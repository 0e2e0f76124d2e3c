/**
 * The canonical 44-byte RIFF/WAVE header followed by 16-bit PCM samples, and
 * the `WavFile` sample buffer that produces it.
 *
 * Layout (offset, length, field), per the RIFF/WAVE container of the
 * Multimedia Programming Interface and Data Specifications 1.0:
 *   0 4 "RIFF"        4 4 total size - 8     8 4 "WAVE"       12 4 "fmt "
 *  16 4 16           20 2 format tag 1      22 2 channels     24 4 sample rate
 *  28 4 byte rate    32 2 block align       34 2 bits (16)    36 4 "data"
 *  40 4 data size    44 .. samples, each a little-endian i16
 */
module Wav {
  import opened LittleEndian
  import opened BinarySerialize

  /** The bytes of an ASCII tag. */
  function Ascii(s: string): (b: seq<uint8>)
    requires forall i :: 0 <= i < |s| ==> s[i] as int < 0x80
    ensures |b| == |s| && forall i :: 0 <= i < |s| ==> b[i] as int == s[i] as int
  {
    if s == [] then [] else [s[0] as int as uint8] + Ascii(s[1..])
  }

  const RIFF: seq<uint8> := Ascii("RIFF")
  const WAVE: seq<uint8> := Ascii("WAVE")
  const FMT: seq<uint8> := Ascii("fmt ")
  const DATA: seq<uint8> := Ascii("data")

  /** Bytes before the sample payload. */
  const HeaderSize: nat := 44

  /** The sample buffer as the `Vec<i16>` that gets serialized. */
  function Samples(s: seq<int16>): (e: Encodable)
    ensures Homogeneous(e)
    ensures e.Vec? && |e.elems| == |s|
    ensures forall i :: 0 <= i < |s| ==> e.elems[i] == I16(s[i])
  {
    Vec(seq(|s|, i requires 0 <= i < |s| => I16(s[i])))
  }

  /** `Vec<i16>::needed_size`: zero when empty, otherwise two bytes per sample. */
  lemma SamplesSize(s: seq<int16>)
    ensures BinarySerialize.NeededSize(Samples(s)) == 2 * |s|
  {
    if |s| > 0 {
      assert Samples(s).elems[0] == I16(s[0]);
    }
  }

  /** Average bytes per second, `sample_rate * bits * channels / 8`, truncating. */
  function ByteRate(channels: uint16, sampleRate: uint32): nat
  {
    sampleRate as int * 16 * channels as int / 8
  }

  /** Bytes per frame, `bits * channels / 8`, truncating. */
  function BlockAlign(channels: uint16): nat
  {
    16 * channels as int / 8
  }

  /**
   * With 16-bit samples neither division truncates: two bytes per sample per
   * channel, and two bytes per channel in a frame.
   */
  lemma ExactFormatFields(channels: uint16, sampleRate: uint32)
    ensures ByteRate(channels, sampleRate) == 2 * sampleRate as int * channels as int
    ensures BlockAlign(channels) == 2 * channels as int
  {
    var p := sampleRate as int * channels as int;
    assert sampleRate as int * 16 * channels as int == 8 * (2 * p);
  }

  /**
   * Neither `u32` product behind the byte rate (evaluated left to right:
   * first `sample_rate * bits`, then `* channels`) nor the `u16` product
   * behind the block alignment overflows (Rust panics on overflow in debug
   * builds).
   */
  predicate FormatFieldsFit(channels: uint16, sampleRate: uint32)
  {
    sampleRate as int * 16 < 0x1_0000_0000 &&
    sampleRate as int * 16 * channels as int < 0x1_0000_0000 &&
    16 * channels as int < 0x1_0000
  }

  lemma FormatFieldsInRange(channels: uint16, sampleRate: uint32)
    requires FormatFieldsFit(channels, sampleRate)
    ensures ByteRate(channels, sampleRate) < 0x1_0000_0000
    ensures BlockAlign(channels) < 0x1_0000
  {
  }

  /**
   * The header for `n` samples. Both size fields go through `as u32`, which
   * keeps the low 32 bits.
   */
  function Header(channels: uint16, sampleRate: uint32, n: nat): (h: seq<uint8>)
    requires FormatFieldsFit(channels, sampleRate)
    ensures |h| == HeaderSize
  {
    RiffDescriptor(n) + FmtChunk(channels, sampleRate) + DataChunkHeader(n)
  }

  /** Bytes [0, 12): "RIFF", the total size minus 8, "WAVE". */
  function RiffDescriptor(n: nat): (h: seq<uint8>)
    ensures |h| == 12
  {
    RIFF + EncodeU32(TruncateU32(HeaderSize + 2 * n - 8)) + WAVE
  }

  /** Bytes [12, 36): the "fmt " sub-chunk for 16-bit PCM. */
  function FmtChunk(channels: uint16, sampleRate: uint32): (h: seq<uint8>)
    requires FormatFieldsFit(channels, sampleRate)
    ensures |h| == 24
  {
    FormatFieldsInRange(channels, sampleRate);
    FMT + EncodeU32(16) + EncodeU16(FormatCode(PCM)) + EncodeU16(channels)
    + EncodeU32(sampleRate) + EncodeU32(ByteRate(channels, sampleRate) as uint32)
    + EncodeU16(BlockAlign(channels) as uint16) + EncodeU16(16)
  }

  /** Bytes [36, 44): "data" and the payload size. */
  function DataChunkHeader(n: nat): (h: seq<uint8>)
    ensures |h| == 8
  {
    DATA + EncodeU32(TruncateU32(2 * n))
  }

  /** The complete file: the header, then every sample in order. */
  function WavBytes(channels: uint16, sampleRate: uint32, s: seq<int16>): seq<uint8>
    requires FormatFieldsFit(channels, sampleRate)
  {
    Header(channels, sampleRate, |s|) + Wire(Samples(s))
  }

  /**
   * What a reader of the file checks, field by field: the four tags, both
   * size fields consistent with the length, the "fmt " fields, and sample
   * `i` as the little-endian `i16` at offset 44 + 2i.
   */
  ghost predicate IsCanonicalWav(b: seq<uint8>, channels: uint16, sampleRate: uint32, s: seq<int16>)
  {
    |b| == HeaderSize + 2 * |s| &&
    b[0..4] == RIFF &&
    DecodeU32(b[4..8]) as int + 8 == |b| &&
    b[8..12] == WAVE &&
    b[12..16] == FMT &&
    DecodeU32(b[16..20]) == 16 &&
    DecodeU16(b[20..22]) == FormatCode(PCM) &&
    DecodeU16(b[22..24]) == channels &&
    DecodeU32(b[24..28]) == sampleRate &&
    DecodeU32(b[28..32]) as int == ByteRate(channels, sampleRate) &&
    DecodeU16(b[32..34]) as int == BlockAlign(channels) &&
    DecodeU16(b[34..36]) == 16 &&
    b[36..40] == DATA &&
    DecodeU32(b[40..44]) as int == 2 * |s| &&
    forall i :: 0 <= i < |s| ==> DecodeI16(b[HeaderSize + 2 * i..HeaderSize + 2 * i + 2]) == s[i]
  }

  /** The payload of `s` holds sample `i` at bytes [2i, 2i+2). */
  lemma PayloadAt(s: seq<int16>, i: nat)
    requires i < |s|
    ensures |Wire(Samples(s))| == 2 * |s|
    ensures Wire(Samples(s))[2 * i..2 * i + 2] == EncodeI16(s[i])
  {
    var es := Samples(s).elems;
    WireAllAt(es, |es|, i);
  }

  /**
   * The encoder's output passes every check a reader makes, as long as the
   * total size minus 8 fits the 32-bit size field.
   */
  lemma {:induction false} WavBytesIsCanonical(channels: uint16, sampleRate: uint32, s: seq<int16>)
    requires FormatFieldsFit(channels, sampleRate)
    requires HeaderSize + 2 * |s| - 8 < 0x1_0000_0000
    ensures IsCanonicalWav(WavBytes(channels, sampleRate, s), channels, sampleRate, s)
  {
    var n := |s|;
    var b := WavBytes(channels, sampleRate, s);
    var payload := Wire(Samples(s));
    SamplesSize(s);
    WireLength(Samples(s));
    ChunksOf(b, RiffDescriptor(n), FmtChunk(channels, sampleRate), DataChunkHeader(n), payload);
    RiffDescriptorFields(b, n);
    FmtChunkFields(b, channels, sampleRate);
    DataChunkHeaderFields(b, n);
    forall i | 0 <= i < n
      ensures DecodeI16(b[HeaderSize + 2 * i..HeaderSize + 2 * i + 2]) == s[i]
    {
      PayloadAt(s, i);
      assert b[HeaderSize + 2 * i..HeaderSize + 2 * i + 2] == payload[2 * i..2 * i + 2];
    }
  }

  /** Where the three header parts and the payload sit in the file. */
  lemma ChunksOf(b: seq<uint8>, riff: seq<uint8>, fmt: seq<uint8>, data: seq<uint8>, payload: seq<uint8>)
    requires |riff| == 12 && |fmt| == 24 && |data| == 8
    requires b == riff + fmt + data + payload
    ensures b[0..12] == riff && b[12..36] == fmt && b[36..HeaderSize] == data
    ensures b[HeaderSize..] == payload
  {
  }

  /** A run `prefix + field` at offset `k` of `b` has `prefix` at `k` and `field` right after it. */
  lemma FieldOf(b: seq<uint8>, k: nat, prefix: seq<uint8>, field: seq<uint8>)
    requires k + |prefix| + |field| <= |b|
    requires b[k..k + |prefix| + |field|] == prefix + field
    ensures b[k..k + |prefix|] == prefix
    ensures b[k + |prefix|..k + |prefix| + |field|] == field
  {
    assert b[k..k + |prefix|] == b[k..k + |prefix| + |field|][..|prefix|];
    assert b[k + |prefix|..k + |prefix| + |field|] == b[k..k + |prefix| + |field|][|prefix|..];
  }

  lemma RiffDescriptorFields(b: seq<uint8>, n: nat)
    requires HeaderSize + 2 * n - 8 < 0x1_0000_0000
    requires |b| == HeaderSize + 2 * n && b[0..12] == RiffDescriptor(n)
    ensures b[0..4] == RIFF && DecodeU32(b[4..8]) as int + 8 == |b| && b[8..12] == WAVE
  {
    var size := EncodeU32(TruncateU32(HeaderSize + 2 * n - 8));
    FieldOf(b, 0, RIFF + size, WAVE);
    FieldOf(b, 0, RIFF, size);
  }

  lemma FmtChunkFields(b: seq<uint8>, channels: uint16, sampleRate: uint32)
    requires FormatFieldsFit(channels, sampleRate)
    requires |b| >= 36 && b[12..36] == FmtChunk(channels, sampleRate)
    ensures b[12..16] == FMT
    ensures DecodeU32(b[16..20]) == 16
    ensures DecodeU16(b[20..22]) == FormatCode(PCM)
    ensures DecodeU16(b[22..24]) == channels
    ensures DecodeU32(b[24..28]) == sampleRate
    ensures DecodeU32(b[28..32]) as int == ByteRate(channels, sampleRate)
    ensures DecodeU16(b[32..34]) as int == BlockAlign(channels)
    ensures DecodeU16(b[34..36]) == 16
  {
    FormatFieldsInRange(channels, sampleRate);
    var p1 := FMT;
    var p2 := p1 + EncodeU32(16);
    var p3 := p2 + EncodeU16(FormatCode(PCM));
    var p4 := p3 + EncodeU16(channels);
    var p5 := p4 + EncodeU32(sampleRate);
    var p6 := p5 + EncodeU32(ByteRate(channels, sampleRate) as uint32);
    var p7 := p6 + EncodeU16(BlockAlign(channels) as uint16);
    assert FmtChunk(channels, sampleRate) == p7 + EncodeU16(16);
    FieldOf(b, 12, p7, EncodeU16(16));
    FieldOf(b, 12, p6, EncodeU16(BlockAlign(channels) as uint16));
    FieldOf(b, 12, p5, EncodeU32(ByteRate(channels, sampleRate) as uint32));
    FieldOf(b, 12, p4, EncodeU32(sampleRate));
    FieldOf(b, 12, p3, EncodeU16(channels));
    FieldOf(b, 12, p2, EncodeU16(FormatCode(PCM)));
    FieldOf(b, 12, p1, EncodeU32(16));
  }

  lemma DataChunkHeaderFields(b: seq<uint8>, n: nat)
    requires |b| >= HeaderSize && b[36..HeaderSize] == DataChunkHeader(n)
    requires 2 * n < 0x1_0000_0000
    ensures b[36..40] == DATA && DecodeU32(b[40..44]) as int == 2 * n
  {
    FieldOf(b, 36, DATA, EncodeU32(TruncateU32(2 * n)));
  }

  /**
   * The reader's checks pin down every byte: a file that passes them is the
   * encoder's output.
   */
  lemma {:induction false} CanonicalIsWavBytes(b: seq<uint8>, channels: uint16, sampleRate: uint32, s: seq<int16>)
    requires FormatFieldsFit(channels, sampleRate)
    requires IsCanonicalWav(b, channels, sampleRate, s)
    ensures b == WavBytes(channels, sampleRate, s)
  {
    var n := |s|;
    RiffDescriptorFromFields(b, n);
    FmtChunkFromFields(b, channels, sampleRate);
    DataChunkHeaderFromFields(b, n);
    Join(b, 12, 36, RiffDescriptor(n), FmtChunk(channels, sampleRate));
    Join(b, 36, HeaderSize, RiffDescriptor(n) + FmtChunk(channels, sampleRate), DataChunkHeader(n));
    PayloadFromSamples(b, s);
    Join(b, HeaderSize, |b|, Header(channels, sampleRate, n), Wire(Samples(s)));
  }

  lemma RiffDescriptorFromFields(b: seq<uint8>, n: nat)
    requires |b| == HeaderSize + 2 * n
    requires b[0..4] == RIFF && DecodeU32(b[4..8]) as int + 8 == |b| && b[8..12] == WAVE
    ensures b[0..12] == RiffDescriptor(n)
  {
    EncodeDecodeU32(b[4..8]);
    assert b[0..12] == b[0..4] + b[4..8] + b[8..12];
  }

  lemma FmtChunkFromFields(b: seq<uint8>, channels: uint16, sampleRate: uint32)
    requires FormatFieldsFit(channels, sampleRate)
    requires |b| >= 36
    requires b[12..16] == FMT
    requires DecodeU32(b[16..20]) == 16
    requires DecodeU16(b[20..22]) == FormatCode(PCM)
    requires DecodeU16(b[22..24]) == channels
    requires DecodeU32(b[24..28]) == sampleRate
    requires DecodeU32(b[28..32]) as int == ByteRate(channels, sampleRate)
    requires DecodeU16(b[32..34]) as int == BlockAlign(channels)
    requires DecodeU16(b[34..36]) == 16
    ensures b[12..36] == FmtChunk(channels, sampleRate)
  {
    EncodeDecodeU32(b[16..20]);
    EncodeDecodeU16(b[20..22]);
    EncodeDecodeU16(b[22..24]);
    EncodeDecodeU32(b[24..28]);
    EncodeDecodeU32(b[28..32]);
    EncodeDecodeU16(b[32..34]);
    EncodeDecodeU16(b[34..36]);
    assert b[12..36] == b[12..16] + b[16..20] + b[20..22] + b[22..24] + b[24..28]
      + b[28..32] + b[32..34] + b[34..36];
  }

  lemma DataChunkHeaderFromFields(b: seq<uint8>, n: nat)
    requires |b| >= HeaderSize
    requires b[36..40] == DATA && DecodeU32(b[40..44]) as int == 2 * n
    ensures b[36..44] == DataChunkHeader(n)
  {
    EncodeDecodeU32(b[40..44]);
    assert b[36..44] == b[36..40] + b[40..44];
  }

  lemma PayloadFromSamples(b: seq<uint8>, s: seq<int16>)
    requires |b| == HeaderSize + 2 * |s|
    requires forall i :: 0 <= i < |s| ==> DecodeI16(b[HeaderSize + 2 * i..HeaderSize + 2 * i + 2]) == s[i]
    ensures b[HeaderSize..|b|] == Wire(Samples(s))
  {
    var payload := Wire(Samples(s));
    SamplesSize(s);
    WireLength(Samples(s));
    forall j | 0 <= j < 2 * |s|
      ensures b[HeaderSize..|b|][j] == payload[j]
    {
      var i := j / 2;
      PayloadAt(s, i);
      EncodeDecodeI16(b[HeaderSize + 2 * i..HeaderSize + 2 * i + 2]);
      assert b[HeaderSize + j] == b[HeaderSize + 2 * i..HeaderSize + 2 * i + 2][j - 2 * i];
    }
  }

  /** The four ASCII tags, byte by byte. */
  lemma TagBytes()
    ensures RIFF == [0x52, 0x49, 0x46, 0x46] && WAVE == [0x57, 0x41, 0x56, 0x45]
    ensures FMT == [0x66, 0x6D, 0x74, 0x20] && DATA == [0x64, 0x61, 0x74, 0x61]
  {
  }

  /**
   * Past 4 GiB the total-size field cannot match the length: `as u32` keeps
   * only the low 32 bits of `needed_size - 8`.
   */
  lemma SizeFieldWraps(channels: uint16, sampleRate: uint32, s: seq<int16>)
    requires FormatFieldsFit(channels, sampleRate)
    requires HeaderSize + 2 * |s| - 8 >= 0x1_0000_0000
    ensures |WavBytes(channels, sampleRate, s)| == HeaderSize + 2 * |s|
    ensures DecodeU32(WavBytes(channels, sampleRate, s)[4..8]) as int
            == (HeaderSize + 2 * |s| - 8) % 0x1_0000_0000
  {
    var b := WavBytes(channels, sampleRate, s);
    SamplesSize(s);
    WireLength(Samples(s));
    assert b[4..8] == EncodeU32(TruncateU32(HeaderSize + 2 * |s| - 8));
  }

  /** One channel at 8000 Hz, samples 0, -1, 32767, -32768: 52 bytes. */
  lemma MonoExample()
    ensures FormatFieldsFit(1, 8000)
    ensures WavBytes(1, 8000, [0, -1, 32767, -32768]) ==
      [0x52, 0x49, 0x46, 0x46, 0x2C, 0x00, 0x00, 0x00, 0x57, 0x41, 0x56, 0x45]
      + [0x66, 0x6D, 0x74, 0x20, 0x10, 0x00, 0x00, 0x00, 0x01, 0x00, 0x01, 0x00,
         0x40, 0x1F, 0x00, 0x00, 0x80, 0x3E, 0x00, 0x00, 0x02, 0x00, 0x10, 0x00]
      + [0x64, 0x61, 0x74, 0x61, 0x08, 0x00, 0x00, 0x00]
      + [0x00, 0x00, 0xFF, 0xFF, 0xFF, 0x7F, 0x00, 0x80]
  {
    TagBytes();
    assert RiffDescriptor(4) == [0x52, 0x49, 0x46, 0x46, 0x2C, 0x00, 0x00, 0x00, 0x57, 0x41, 0x56, 0x45];
    MonoFmtChunk();
    assert DataChunkHeader(4) == [0x64, 0x61, 0x74, 0x61, 0x08, 0x00, 0x00, 0x00];
    MonoPayload();
  }

  /** The "fmt " sub-chunk for one channel at 8000 Hz: 16000 bytes per second, 2 per frame. */
  lemma MonoFmtChunk()
    ensures FormatFieldsFit(1, 8000)
    ensures FmtChunk(1, 8000) == [0x66, 0x6D, 0x74, 0x20, 0x10, 0x00, 0x00, 0x00, 0x01, 0x00, 0x01, 0x00,
      0x40, 0x1F, 0x00, 0x00, 0x80, 0x3E, 0x00, 0x00, 0x02, 0x00, 0x10, 0x00]
  {
    TagBytes();
    assert ByteRate(1, 8000) == 0x3E80;
  }

  /** Samples 0, -1, 32767, -32768 as little-endian two's complement. */
  lemma MonoPayload()
    ensures Wire(Samples([0, -1, 32767, -32768])) == [0x00, 0x00, 0xFF, 0xFF, 0xFF, 0x7F, 0x00, 0x80]
  {
    var s: seq<int16> := [0, -1, 32767, -32768];
    var es := Samples(s).elems;
    assert WireAll(es, 4) == WireAll(es, 3) + EncodeI16(-32768);
    assert WireAll(es, 3) == WireAll(es, 2) + EncodeI16(32767);
    assert WireAll(es, 2) == WireAll(es, 1) + EncodeI16(-1);
    assert WireAll(es, 1) == EncodeI16(0);
  }

  /** Two channels at 44100 Hz and no samples: the bare 44-byte header. */
  lemma EmptyStereoExample()
    ensures FormatFieldsFit(2, 44100)
    ensures WavBytes(2, 44100, []) ==
      [0x52, 0x49, 0x46, 0x46, 0x24, 0x00, 0x00, 0x00, 0x57, 0x41, 0x56, 0x45]
      + [0x66, 0x6D, 0x74, 0x20, 0x10, 0x00, 0x00, 0x00, 0x01, 0x00, 0x02, 0x00,
         0x44, 0xAC, 0x00, 0x00, 0x10, 0xB1, 0x02, 0x00, 0x04, 0x00, 0x10, 0x00]
      + [0x64, 0x61, 0x74, 0x61, 0x00, 0x00, 0x00, 0x00]
  {
    TagBytes();
    assert RiffDescriptor(0) == [0x52, 0x49, 0x46, 0x46, 0x24, 0x00, 0x00, 0x00, 0x57, 0x41, 0x56, 0x45];
    StereoFmtChunk();
    assert DataChunkHeader(0) == [0x64, 0x61, 0x74, 0x61, 0x00, 0x00, 0x00, 0x00];
    var none: seq<int16> := [];
    assert Wire(Samples(none)) == [];
    assert WavBytes(2, 44100, none) == Header(2, 44100, 0) + [];
  }

  /** The "fmt " sub-chunk for two channels at 44100 Hz: 176400 bytes per second, 4 per frame. */
  lemma StereoFmtChunk()
    ensures FormatFieldsFit(2, 44100)
    ensures FmtChunk(2, 44100) == [0x66, 0x6D, 0x74, 0x20, 0x10, 0x00, 0x00, 0x00, 0x01, 0x00, 0x02, 0x00,
      0x44, 0xAC, 0x00, 0x00, 0x10, 0xB1, 0x02, 0x00, 0x04, 0x00, 0x10, 0x00]
  {
    TagBytes();
    assert ByteRate(2, 44100) == 0x2_B110;
  }

  /**
   * Writing `field` at offset `k` over a buffer whose first `k` bytes are
   * `prefix` leaves `prefix + field` as its first `k + |field|` bytes.
   */
  lemma Extend(before: seq<uint8>, after: seq<uint8>, prefix: seq<uint8>, field: seq<uint8>)
    requires |prefix| + |field| <= |after|
    requires SameOutside(before, after, |prefix|, |prefix| + |field|)
    requires before[..|prefix|] == prefix
    requires after[|prefix|..|prefix| + |field|] == field
    ensures after[..|prefix| + |field|] == prefix + field
  {
    assert after[..|prefix|] == prefix;
  }

  /**
   * The same, for a run of bytes that starts at offset `k` rather than 0.
   */
  lemma ExtendAt(before: seq<uint8>, after: seq<uint8>, k: nat, prefix: seq<uint8>, field: seq<uint8>)
    requires k + |prefix| + |field| <= |after|
    requires SameOutside(before, after, k + |prefix|, k + |prefix| + |field|)
    requires before[k..k + |prefix|] == prefix
    requires after[k + |prefix|..k + |prefix| + |field|] == field
    ensures after[k..k + |prefix| + |field|] == prefix + field
  {
    assert after[k..k + |prefix|] == prefix;
  }

  /** A buffer whose first `k` bytes are `x` and next bytes up to `n` are `y` starts with `x + y`. */
  lemma Join(b: seq<uint8>, k: nat, n: nat, x: seq<uint8>, y: seq<uint8>)
    requires k <= n <= |b|
    requires b[..k] == x && b[k..n] == y
    ensures b[..n] == x + y
  {
  }

  /** Nothing changed outside [0, n) means the tail from `n` on is unchanged. */
  lemma SameTail(a: seq<uint8>, b: seq<uint8>, n: nat)
    requires n <= |a|
    requires SameOutside(a, b, 0, n)
    ensures b[n..] == a[n..]
  {
  }

  /** `SameOutside` composes: two writes inside [lo, hi) are one write inside it. */
  lemma SameOutsideTrans(a: seq<uint8>, b: seq<uint8>, c: seq<uint8>, lo: int, hi: int, lo': int, hi': int)
    requires SameOutside(a, b, lo, hi)
    requires SameOutside(b, c, lo', hi')
    requires lo <= lo' && hi' <= hi
    ensures SameOutside(a, c, lo, hi)
  {
  }

  /**
   * The sample buffer: an append-only sequence of `i16` samples with the
   * channel count and sample rate fixed at creation, 16 bits per sample and
   * the PCM format tag.
   */
  class WavFile {
    const format: WavFormat := PCM
    const channels: uint16
    const sampleRate: uint32
    const bitsPerSample: uint16 := 16
    var samples: seq<int16>

    /** `WavFile::new`: an empty buffer. */
    constructor (channels: uint16, sampleRate: uint32)
      ensures this.channels == channels && this.sampleRate == sampleRate
      ensures samples == []
      ensures NeededSize() == HeaderSize
    {
      this.channels := channels;
      this.sampleRate := sampleRate;
      samples := [];
    }

    /** `push_sample`: appends one sample; the needed size grows by two bytes. */
    method PushSample(sample: int16)
      modifies this
      ensures samples == old(samples) + [sample]
      ensures NeededSize() == old(NeededSize()) + 2
    {
      samples := samples + [sample];
    }

    /** `needed_size`: the header plus the sample vector's size. */
    function NeededSize(): (n: nat)
      reads this
      ensures n == HeaderSize + 2 * |samples|
    {
      SamplesSize(samples);
      HeaderSize + BinarySerialize.NeededSize(Samples(samples))
    }

    /**
     * `serialize`: fails, writing nothing, when the buffer is shorter than
     * `needed_size`; otherwise writes the header field by field, then the
     * samples, and touches no byte past the encoding.
     */
    method Serialize(buf: array<uint8>) returns (r: Outcome)
      requires FormatFieldsFit(channels, sampleRate)
      modifies buf
      ensures r == Ok <==> NeededSize() <= buf.Length
      ensures r == Err ==> buf[..] == old(buf[..])
      ensures r == Ok ==> buf[..NeededSize()] == WavBytes(channels, sampleRate, samples)
      ensures r == Ok ==> buf[NeededSize()..] == old(buf[NeededSize()..])
    {
      if buf.Length < NeededSize() {
        return Err;
      }
      var n := NeededSize();
      ghost var start := buf[..];
      WriteRiffDescriptor(buf);
      ghost var prev := buf[..];
      WriteFmtChunk(buf);
      Extend(prev, buf[..], RiffDescriptor(|samples|), FmtChunk(channels, sampleRate));
      SameOutsideTrans(start, prev, buf[..], 0, n, 12, 36);
      prev := buf[..];
      WriteDataChunk(buf);
      SameOutsideTrans(start, prev, buf[..], 0, n, 36, n);
      assert buf[..36] == prev[..36];
      Join(buf[..], 36, n, RiffDescriptor(|samples|) + FmtChunk(channels, sampleRate),
        DataChunkHeader(|samples|) + Wire(Samples(samples)));
      SameTail(start, buf[..], n);
      assert old(buf[n..]) == start[n..];
      return Ok;
    }

    /** Lines writing bytes [0, 12): the "RIFF" chunk descriptor. */
    method WriteRiffDescriptor(buf: array<uint8>)
      requires NeededSize() <= buf.Length
      modifies buf
      ensures buf[..12] == RiffDescriptor(|samples|)
      ensures SameOutside(old(buf[..]), buf[..], 0, 12)
    {
      ghost var start := buf[..];
      CopyFromSlice(buf, 0, RIFF);
      ghost var prev := buf[..];
      var fileSize := TruncateU32(NeededSize() - 8);
      CopyFromSlice(buf, 4, EncodeU32(fileSize));
      Extend(prev, buf[..], RIFF, EncodeU32(fileSize));
      SameOutsideTrans(start, prev, buf[..], 0, 12, 4, 8);
      prev := buf[..];
      CopyFromSlice(buf, 8, WAVE);
      Extend(prev, buf[..], RIFF + EncodeU32(fileSize), WAVE);
      SameOutsideTrans(start, prev, buf[..], 0, 12, 8, 12);
    }

    /**
     * Lines writing bytes [12, 36): the "fmt " sub-chunk. Each `?` sees a
     * window of exactly the field's size, so none of them fails.
     */
    method WriteFmtChunk(buf: array<uint8>)
      requires FormatFieldsFit(channels, sampleRate)
      requires HeaderSize <= buf.Length
      modifies buf
      ensures buf[12..36] == FmtChunk(channels, sampleRate)
      ensures SameOutside(old(buf[..]), buf[..], 12, 36)
    {
      ghost var start := buf[..];
      CopyFromSlice(buf, 12, FMT);
      ghost var prev := buf[..];
      ghost var written := FMT;

      var ok := SerializeU32(16, buf, 16, 20);
      assert ok == Ok;
      ExtendAt(prev, buf[..], 12, written, EncodeU32(16));
      SameOutsideTrans(start, prev, buf[..], 12, 36, 16, 20);
      written, prev := written + EncodeU32(16), buf[..];

      ok := SerializeFormat(format, buf, 20, 22);
      assert ok == Ok;
      ExtendAt(prev, buf[..], 12, written, EncodeU16(FormatCode(PCM)));
      SameOutsideTrans(start, prev, buf[..], 12, 36, 20, 22);
      written, prev := written + EncodeU16(FormatCode(PCM)), buf[..];

      ok := SerializeU16(channels, buf, 22, 24);
      assert ok == Ok;
      ExtendAt(prev, buf[..], 12, written, EncodeU16(channels));
      SameOutsideTrans(start, prev, buf[..], 12, 36, 22, 24);
      written, prev := written + EncodeU16(channels), buf[..];

      ok := SerializeU32(sampleRate, buf, 24, 28);
      assert ok == Ok;
      ExtendAt(prev, buf[..], 12, written, EncodeU32(sampleRate));
      SameOutsideTrans(start, prev, buf[..], 12, 36, 24, 28);
      written, prev := written + EncodeU32(sampleRate), buf[..];

      FormatFieldsInRange(channels, sampleRate);
      var avgBytesPerSec := (sampleRate as int * bitsPerSample as int * channels as int / 8) as uint32;
      ok := SerializeU32(avgBytesPerSec, buf, 28, 32);
      assert ok == Ok;
      ExtendAt(prev, buf[..], 12, written, EncodeU32(avgBytesPerSec));
      SameOutsideTrans(start, prev, buf[..], 12, 36, 28, 32);
      written, prev := written + EncodeU32(avgBytesPerSec), buf[..];

      var blockAlign := (bitsPerSample as int * channels as int / 8) as uint16;
      ok := SerializeU16(blockAlign, buf, 32, 34);
      assert ok == Ok;
      ExtendAt(prev, buf[..], 12, written, EncodeU16(blockAlign));
      SameOutsideTrans(start, prev, buf[..], 12, 36, 32, 34);
      written, prev := written + EncodeU16(blockAlign), buf[..];

      ok := SerializeU16(bitsPerSample, buf, 34, 36);
      assert ok == Ok;
      ExtendAt(prev, buf[..], 12, written, EncodeU16(bitsPerSample));
      SameOutsideTrans(start, prev, buf[..], 12, 36, 34, 36);
    }

    /**
     * Lines writing bytes [36, needed_size): "data", the payload size, then
     * the samples into `&mut buffer[44..]`.
     */
    method WriteDataChunk(buf: array<uint8>)
      requires NeededSize() <= buf.Length
      modifies buf
      ensures buf[36..NeededSize()] == DataChunkHeader(|samples|) + Wire(Samples(samples))
      ensures SameOutside(old(buf[..]), buf[..], 36, NeededSize())
    {
      var n := NeededSize();
      ghost var start := buf[..];
      CopyFromSlice(buf, 36, DATA);
      ghost var prev := buf[..];
      var dataSize := TruncateU32(BinarySerialize.NeededSize(Samples(samples)));
      CopyFromSlice(buf, 40, EncodeU32(dataSize));
      ExtendAt(prev, buf[..], 36, DATA, EncodeU32(dataSize));
      SameOutsideTrans(start, prev, buf[..], 36, n, 40, 44);
      prev := buf[..];
      SamplesSize(samples);
      var ok := BinarySerialize.Serialize(Samples(samples), buf, HeaderSize, buf.Length);
      assert ok == Ok;
      ExtendAt(prev, buf[..], 36, DATA + EncodeU32(dataSize), Wire(Samples(samples)));
      SameOutsideTrans(start, prev, buf[..], 36, n, HeaderSize, n);
    }
  }
}
