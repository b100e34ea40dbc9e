/** The WAV file written when the user downloads the generated speech: a
    44-byte RIFF header of the PCM WAVE form (a 'fmt ' chunk with format
    tag 1 and a 'data' chunk), then one little-endian 16-bit sample per
    stored sample. Mono, 16 bits per sample, at the stored sample rate. */
module Wav {
  import opened Wrappers

  type Byte = x: int | 0 <= x < 256
  /** Rust `u32`: the sample rate and every 32-bit header field */
  type U32 = x: int | 0 <= x < 0x1_0000_0000

  const HeaderSize: nat := 44
  const Channels: nat := 1
  const BitsPerSample: nat := 16
  /** PCM format tag of the 'fmt ' chunk */
  const PcmFormat: nat := 1
  const FmtChunkSize: nat := 16

  function Pow256(n: nat): (p: nat)
    ensures p >= 1
  {
    if n == 0 then 1 else 256 * Pow256(n - 1)
  }

  /** The unsigned number a little-endian byte string denotes. */
  function FromLe(bs: seq<Byte>): (x: nat)
    ensures x < Pow256(|bs|)
  {
    if bs == [] then 0 else bs[0] + 256 * FromLe(bs[1..])
  }

  /** `to_le_bytes` of an unsigned value of `width` bytes: the inverse of FromLe. */
  function LeBytes(x: nat, width: nat): (bs: seq<Byte>)
    requires x < Pow256(width)
    ensures |bs| == width
    ensures FromLe(bs) == x
  {
    if width == 0 then []
    else
      assert x / 256 < Pow256(width - 1);
      [x % 256] + LeBytes(x / 256, width - 1)
  }

  /** Encoding after decoding gives back the same bytes. */
  lemma {:induction false} LeBytesFromLe(bs: seq<Byte>)
    ensures LeBytes(FromLe(bs), |bs|) == bs
  {
    if bs != [] {
      var rest := FromLe(bs[1..]);
      assert (bs[0] + 256 * rest) % 256 == bs[0];
      assert (bs[0] + 256 * rest) / 256 == rest;
      LeBytesFromLe(bs[1..]);
    }
  }

  function U16Le(x: nat): (bs: seq<Byte>)
    requires x < 0x1_0000
    ensures |bs| == 2 && FromLe(bs) == x
  {
    LeBytes(x, 2)
  }

  function U32Le(x: U32): (bs: seq<Byte>)
    ensures |bs| == 4 && FromLe(bs) == x
  {
    LeBytes(x, 4)
  }

  /** The chunk identifiers "RIFF", "WAVE", "fmt " and "data" in ASCII. */
  const RiffId: seq<Byte> := [0x52, 0x49, 0x46, 0x46]
  const WaveId: seq<Byte> := [0x57, 0x41, 0x56, 0x45]
  const FmtId: seq<Byte> := [0x66, 0x6D, 0x74, 0x20]
  const DataId: seq<Byte> := [0x64, 0x61, 0x74, 0x61]

  /** The header fields as computed by the writer. */
  datatype Fields = Fields(
    riffSize: U32,
    fmtSize: nat,
    format: nat,
    channels: nat,
    sampleRate: U32,
    byteRate: U32,
    blockAlign: nat,
    bitsPerSample: nat,
    dataSize: U32)

  /** `(len * 2) as u32`: the cast truncates to the low 32 bits. */
  function DataSize(count: nat): U32 { (2 * count) % 0x1_0000_0000 }

  /** `sample_rate * 1 * 16 / 8` in `u32`, wrapping like a release build. */
  function ByteRate(sampleRate: U32): U32
  {
    ((sampleRate * Channels * BitsPerSample) % 0x1_0000_0000) / 8
  }

  /** `36 + data_size` in `u32`, wrapping like a release build. */
  function RiffSize(count: nat): U32 { (36 + DataSize(count)) % 0x1_0000_0000 }

  function WriterFields(sampleRate: U32, count: nat): Fields
  {
    Fields(RiffSize(count), FmtChunkSize, PcmFormat, Channels, sampleRate,
           ByteRate(sampleRate), Channels * BitsPerSample / 8, BitsPerSample, DataSize(count))
  }

  /** For every file below 2 GiB of samples and every rate below 2^28 Hz
      the fields are exactly those of the PCM WAVE form for 16-bit mono:
      a data chunk of 2n bytes, a RIFF size of 36 + 2n, two bytes per
      frame and 2·rate bytes per second. */
  lemma WriterFieldsExact(sampleRate: U32, count: nat)
    requires sampleRate < 0x1000_0000
    requires 2 * count + 36 < 0x1_0000_0000
    ensures var f := WriterFields(sampleRate, count);
      f.dataSize == 2 * count && f.riffSize == 36 + 2 * count
      && f.byteRate == 2 * sampleRate && f.blockAlign == 2
      && f.channels == 1 && f.format == 1 && f.bitsPerSample == 16 && f.fmtSize == 16
  {
  }

  function Header(f: Fields): (bs: seq<Byte>)
    requires f.fmtSize < 0x1_0000_0000 && f.format < 0x1_0000 && f.channels < 0x1_0000
    requires f.blockAlign < 0x1_0000 && f.bitsPerSample < 0x1_0000
    ensures |bs| == HeaderSize
  {
    RiffId + U32Le(f.riffSize) + WaveId
    + FmtId + U32Le(f.fmtSize) + U16Le(f.format) + U16Le(f.channels)
    + U32Le(f.sampleRate) + U32Le(f.byteRate) + U16Le(f.blockAlign) + U16Le(f.bitsPerSample)
    + DataId + U32Le(f.dataSize)
  }

  function WavHeader(sampleRate: U32, count: nat): (bs: seq<Byte>)
    ensures |bs| == HeaderSize
  {
    Header(WriterFields(sampleRate, count))
  }

  /** A reader of the canonical 44-byte header: checks the three chunk
      identifiers and reads every field at its offset. */
  function ParseHeader(bs: seq<Byte>): (r: Option<Fields>)
    ensures r.Some? ==> (|bs| >= HeaderSize && bs[..4] == RiffId && bs[8..12] == WaveId
                         && bs[12..16] == FmtId && bs[36..40] == DataId)
  {
    if |bs| < HeaderSize || bs[..4] != RiffId || bs[8..12] != WaveId
       || bs[12..16] != FmtId || bs[36..40] != DataId
    then None
    else Some(Fields(FromLe(bs[4..8]), FromLe(bs[16..20]), FromLe(bs[20..22]), FromLe(bs[22..24]),
                     FromLe(bs[24..28]), FromLe(bs[28..32]), FromLe(bs[32..34]), FromLe(bs[34..36]),
                     FromLe(bs[40..44])))
  }

  /** Reading back a written header, whatever follows it, recovers every
      field the writer computed. */
  lemma HeaderRoundTrip(sampleRate: U32, count: nat, body: seq<Byte>)
    ensures ParseHeader(WavHeader(sampleRate, count) + body) == Some(WriterFields(sampleRate, count))
  {
    var f := WriterFields(sampleRate, count);
    HeaderFieldsAt(f, body);
  }

  /** A header reads back as the fields it was made from. */
  lemma HeaderFieldsAt(f: Fields, body: seq<Byte>)
    requires f.fmtSize < 0x1_0000_0000 && f.format < 0x1_0000 && f.channels < 0x1_0000
    requires f.blockAlign < 0x1_0000 && f.bitsPerSample < 0x1_0000
    ensures ParseHeader(Header(f) + body) == Some(f)
  {
    HeaderBytes(f, body);
  }

  /** Every field of a header, and every chunk identifier, sits at its
      offset. */
  lemma HeaderBytes(f: Fields, body: seq<Byte>)
    requires f.fmtSize < 0x1_0000_0000 && f.format < 0x1_0000 && f.channels < 0x1_0000
    requires f.blockAlign < 0x1_0000 && f.bitsPerSample < 0x1_0000
    ensures var bs := Header(f) + body;
      bs[..4] == RiffId && bs[4..8] == U32Le(f.riffSize) && bs[8..12] == WaveId
      && bs[12..16] == FmtId && bs[16..20] == U32Le(f.fmtSize) && bs[20..22] == U16Le(f.format)
      && bs[22..24] == U16Le(f.channels) && bs[24..28] == U32Le(f.sampleRate)
      && bs[28..32] == U32Le(f.byteRate) && bs[32..34] == U16Le(f.blockAlign)
      && bs[34..36] == U16Le(f.bitsPerSample) && bs[36..40] == DataId && bs[40..44] == U32Le(f.dataSize)
  {
    var front := RiffId + U32Le(f.riffSize) + WaveId
      + FmtId + U32Le(f.fmtSize) + U16Le(f.format) + U16Le(f.channels);
    var back := U32Le(f.sampleRate) + U32Le(f.byteRate) + U16Le(f.blockAlign) + U16Le(f.bitsPerSample)
      + DataId + U32Le(f.dataSize);
    var bs := Header(f) + body;
    assert bs == front + (back + body);
    FrontFields(f, back + body);
    BackFields(f, body);
    Shifted(front, back + body, 24, 28);
    Shifted(front, back + body, 28, 32);
    Shifted(front, back + body, 32, 34);
    Shifted(front, back + body, 34, 36);
    Shifted(front, back + body, 36, 40);
    Shifted(front, back + body, 40, 44);
  }

  lemma Shifted(a: seq<Byte>, b: seq<Byte>, i: nat, j: nat)
    requires |a| <= i <= j <= |a| + |b|
    ensures (a + b)[i..j] == b[i - |a|..j - |a|]
  {
  }

  lemma FrontFields(f: Fields, rest: seq<Byte>)
    requires f.fmtSize < 0x1_0000_0000 && f.format < 0x1_0000 && f.channels < 0x1_0000
    ensures var bs := RiffId + U32Le(f.riffSize) + WaveId
      + FmtId + U32Le(f.fmtSize) + U16Le(f.format) + U16Le(f.channels) + rest;
      bs[..4] == RiffId && bs[4..8] == U32Le(f.riffSize) && bs[8..12] == WaveId
      && bs[12..16] == FmtId && bs[16..20] == U32Le(f.fmtSize) && bs[20..22] == U16Le(f.format)
      && bs[22..24] == U16Le(f.channels)
  {
    var bs := RiffId + U32Le(f.riffSize) + WaveId + FmtId + U32Le(f.fmtSize) + U16Le(f.format) + U16Le(f.channels) + rest;
    assert bs[..4] == RiffId;
    assert bs[4..8] == U32Le(f.riffSize);
    assert bs[8..12] == WaveId;
    assert bs[12..16] == FmtId;
    assert bs[16..20] == U32Le(f.fmtSize);
    assert bs[20..22] == U16Le(f.format);
    assert bs[22..24] == U16Le(f.channels);
  }

  lemma BackFields(f: Fields, body: seq<Byte>)
    requires f.blockAlign < 0x1_0000 && f.bitsPerSample < 0x1_0000
    ensures var bs := U32Le(f.sampleRate) + U32Le(f.byteRate) + U16Le(f.blockAlign) + U16Le(f.bitsPerSample)
      + DataId + U32Le(f.dataSize) + body;
      bs[..4] == U32Le(f.sampleRate) && bs[4..8] == U32Le(f.byteRate) && bs[8..10] == U16Le(f.blockAlign)
      && bs[10..12] == U16Le(f.bitsPerSample) && bs[12..16] == DataId && bs[16..20] == U32Le(f.dataSize)
  {
    var bs := U32Le(f.sampleRate) + U32Le(f.byteRate) + U16Le(f.blockAlign) + U16Le(f.bitsPerSample)
      + DataId + U32Le(f.dataSize) + body;
    assert bs[12..16] == DataId;
    assert bs[16..20] == U32Le(f.dataSize);
  }

  /** Rust's `as i16` of a float: truncation toward zero (the operand is
      already within range here). */
  function TruncateToward0(x: real): int
  {
    if x >= 0.0 then x.Floor else -((-x).Floor)
  }

  /** `(sample.max(-1.0).min(1.0) * 32767.0) as i16`. */
  function SampleValue(x: real): (v: int)
    ensures -32767 <= v <= 32767
    ensures x >= 1.0 ==> v == 32767
    ensures x <= -1.0 ==> v == -32767
    ensures (v < 0) == (x <= -1.0 / 32767.0)
  {
    var clamped := if x < -1.0 then -1.0 else if x > 1.0 then 1.0 else x;
    TruncateToward0(clamped * 32767.0)
  }

  /** `i16::to_le_bytes`: two's complement, low byte first. */
  function I16Le(v: int): (bs: seq<Byte>)
    requires -0x8000 <= v < 0x8000
    ensures |bs| == 2
  {
    U16Le(if v < 0 then v + 0x1_0000 else v)
  }

  /** Reads a signed 16-bit little-endian sample. */
  function DecodeI16(bs: seq<Byte>): int
    requires |bs| == 2
  {
    var u := FromLe(bs);
    if u >= 0x8000 then u - 0x1_0000 else u
  }

  lemma DecodeI16Le(v: int)
    requires -0x8000 <= v < 0x8000
    ensures DecodeI16(I16Le(v)) == v
  {
  }

  /** The sample bytes of the file: each sample as a 16-bit value, in order. */
  function PcmBody(samples: seq<real>): (bs: seq<Byte>)
    ensures |bs| == 2 * |samples|
  {
    if samples == [] then []
    else PcmBody(samples[..|samples| - 1]) + I16Le(SampleValue(samples[|samples| - 1]))
  }

  /** Every sample reads back, from its own two bytes, as its 16-bit value. */
  lemma {:induction false} PcmBodyReadsBack(samples: seq<real>, i: nat)
    requires i < |samples|
    ensures DecodeI16(PcmBody(samples)[2 * i .. 2 * i + 2]) == SampleValue(samples[i])
    decreases |samples|
  {
    var n := |samples| - 1;
    var init := samples[..n];
    var last := I16Le(SampleValue(samples[n]));
    assert PcmBody(samples) == PcmBody(init) + last;
    if i < n {
      assert PcmBody(samples)[2 * i .. 2 * i + 2] == PcmBody(init)[2 * i .. 2 * i + 2];
      PcmBodyReadsBack(init, i);
    } else {
      assert PcmBody(samples)[2 * i .. 2 * i + 2] == last;
      DecodeI16Le(SampleValue(samples[n]));
    }
  }

  /** The file as a whole: the header, then the samples. */
  function WavFile(sampleRate: U32, samples: seq<real>): (file: seq<Byte>)
    ensures |file| == HeaderSize + 2 * |samples|
  {
    WavHeader(sampleRate, |samples|) + PcmBody(samples)
  }

  /** A reader of the written file finds the writer's header fields and,
      at byte 44 + 2i, sample i as a 16-bit value. */
  lemma WavFileReadsBack(sampleRate: U32, samples: seq<real>)
    ensures ParseHeader(WavFile(sampleRate, samples)) == Some(WriterFields(sampleRate, |samples|))
    ensures forall i :: 0 <= i < |samples| ==>
      DecodeI16(WavFile(sampleRate, samples)[HeaderSize + 2 * i .. HeaderSize + 2 * i + 2]) == SampleValue(samples[i])
  {
    HeaderRoundTrip(sampleRate, |samples|, PcmBody(samples));
    WavFileSamples(sampleRate, samples);
  }

  lemma WavFileSamples(sampleRate: U32, samples: seq<real>)
    ensures forall i :: 0 <= i < |samples| ==>
      DecodeI16(WavFile(sampleRate, samples)[HeaderSize + 2 * i .. HeaderSize + 2 * i + 2]) == SampleValue(samples[i])
  {
    var header := WavHeader(sampleRate, |samples|);
    var file := header + PcmBody(samples);
    assert |header| == HeaderSize;
    forall i | 0 <= i < |samples|
      ensures DecodeI16(file[HeaderSize + 2 * i .. HeaderSize + 2 * i + 2]) == SampleValue(samples[i])
    {
      Shifted(header, PcmBody(samples), HeaderSize + 2 * i, HeaderSize + 2 * i + 2);
      PcmBodyReadsBack(samples, i);
    }
  }

  /** `write_wav_file` without the file: the header for the stored rate
      and count, then every stored sample as a 16-bit value, in order. */
  method WriteWav(sampleRate: U32, samples: seq<real>) returns (file: seq<Byte>)
    ensures file == WavFile(sampleRate, samples)
  {
    var body := EncodeSamples(samples);
    file := WavHeader(sampleRate, |samples|) + body;
  }

  /** The sample loop of `write_wav_file`: each sample clamped, scaled and
      written as two little-endian bytes, in order. */
  method EncodeSamples(samples: seq<real>) returns (body: seq<Byte>)
    ensures body == PcmBody(samples)
  {
    body := [];
    var i := 0;
    while i < |samples|
      invariant 0 <= i <= |samples|
      invariant body == PcmBody(samples[..i])
    {
      PcmBodySnoc(samples, i);
      body := body + I16Le(SampleValue(samples[i]));
      i := i + 1;
    }
    assert samples[..i] == samples;
  }

  lemma PcmBodySnoc(samples: seq<real>, i: nat)
    requires i < |samples|
    ensures PcmBody(samples[..i + 1]) == PcmBody(samples[..i]) + I16Le(SampleValue(samples[i]))
  {
    assert samples[..i + 1][..i] == samples[..i];
  }
}
