/**
 The canonical 44-byte RIFF/WAVE header for 16-bit PCM, the sample data that follows it,
 a reader for both, and the float-to-`short` quantisation rules of the two writers.
 */
module Wav {
  import opened Bytes
  import opened Wrappers

  const HeaderSize: nat := 44

  /** short.MaxValue, the scale factor of both writers */
  const ShortMax: int := 32767

  /** The numeric fields of the header, as unsigned values a reader of the file sees. */
  datatype Header = Header(
    riffSize: UInt32,      // offset 4
    fmtSize: UInt32,       // offset 16
    audioFormat: UInt16,   // offset 20
    numChannels: UInt16,   // offset 22
    sampleRate: UInt32,    // offset 24
    byteRate: UInt32,      // offset 28
    blockAlign: UInt16,    // offset 32
    bitsPerSample: UInt16, // offset 34
    dataSize: UInt32)      // offset 40

  /** A parsed file: its header and its 16-bit samples in stored (interleaved) order. */
  datatype WavFile = WavFile(header: Header, samples: seq<Int16>)

  /** The header layout: three tagged chunks, every number little-endian. */
  function HeaderBytes(h: Header): (r: seq<byte>)
    ensures |r| == HeaderSize
  {
    Ascii("RIFF") + LE32(h.riffSize) + Ascii("WAVE")
    + Ascii("fmt ") + LE32(h.fmtSize) + LE16(h.audioFormat) + LE16(h.numChannels)
    + LE32(h.sampleRate) + LE32(h.byteRate) + LE16(h.blockAlign) + LE16(h.bitsPerSample)
    + Ascii("data") + LE32(h.dataSize)
  }

  /** Reads a header: the four tags must be in place and every field is read at its fixed offset. */
  function ReadHeader(b: seq<byte>): Option<Header>
  {
    if |b| < HeaderSize || b[0..4] != Ascii("RIFF") || b[8..12] != Ascii("WAVE")
       || b[12..16] != Ascii("fmt ") || b[36..40] != Ascii("data")
    then None
    else Some(Header(U32(b[4..8]), U32(b[16..20]), U16(b[20..22]), U16(b[22..24]),
                     U32(b[24..28]), U32(b[28..32]), U16(b[32..34]), U16(b[34..36]),
                     U32(b[40..44])))
  }

  /** Every field of a written header reads back at its offset, whatever follows the header. */
  lemma ReadHeaderBytes(h: Header, rest: seq<byte>)
    ensures ReadHeader(HeaderBytes(h) + rest) == Some(h)
  {
    var b := HeaderBytes(h) + rest;
    assert b[0..4] == Ascii("RIFF");
    assert b[4..8] == LE32(h.riffSize);
    assert b[8..12] == Ascii("WAVE");
    assert b[12..16] == Ascii("fmt ");
    assert b[16..20] == LE32(h.fmtSize);
    assert b[20..22] == LE16(h.audioFormat);
    assert b[22..24] == LE16(h.numChannels);
    assert b[24..28] == LE32(h.sampleRate);
    assert b[28..32] == LE32(h.byteRate);
    assert b[32..34] == LE16(h.blockAlign);
    assert b[34..36] == LE16(h.bitsPerSample);
    assert b[36..40] == Ascii("data");
    assert b[40..44] == LE32(h.dataSize);
    LE32RoundTrip(h.riffSize);
    LE32RoundTrip(h.fmtSize);
    LE16RoundTrip(h.audioFormat);
    LE16RoundTrip(h.numChannels);
    LE32RoundTrip(h.sampleRate);
    LE32RoundTrip(h.byteRate);
    LE16RoundTrip(h.blockAlign);
    LE16RoundTrip(h.bitsPerSample);
    LE32RoundTrip(h.dataSize);
  }

  /** Whatever ReadHeader accepts is exactly the written form of what it returns. */
  lemma ReadHeaderExact(b: seq<byte>)
    requires ReadHeader(b).Some?
    ensures HeaderBytes(ReadHeader(b).value) == b[..HeaderSize]
  {
    var h := ReadHeader(b).value;
    U32RoundTrip(b[4..8]);
    U32RoundTrip(b[16..20]);
    U16RoundTrip(b[20..22]);
    U16RoundTrip(b[22..24]);
    U32RoundTrip(b[24..28]);
    U32RoundTrip(b[28..32]);
    U16RoundTrip(b[32..34]);
    U16RoundTrip(b[34..36]);
    U32RoundTrip(b[40..44]);
    assert b[..HeaderSize] == b[0..4] + b[4..8] + b[8..12] + b[12..16] + b[16..20] + b[20..22]
      + b[22..24] + b[24..28] + b[28..32] + b[32..34] + b[34..36] + b[36..40] + b[40..44];
  }

  /** The data chunk: each sample as a little-endian `short`, in order. */
  function PcmBytes(q: seq<Int16>): (r: seq<byte>)
    ensures |r| == 2 * |q|
  {
    if q == [] then [] else PcmBytes(q[..|q| - 1]) + Int16Bytes(q[|q| - 1])
  }

  /** Reads a data chunk back into signed 16-bit samples, two bytes each. */
  function ReadPcm(b: seq<byte>): (q: seq<Int16>)
    requires |b| % 2 == 0
    ensures |q| == |b| / 2
  {
    if b == [] then [] else ReadPcm(b[..|b| - 2]) + [S16(b[|b| - 2..])]
  }

  /** Appending one sample appends its two bytes to the data chunk. */
  lemma PcmBytesSnoc(q: seq<Int16>, v: Int16)
    ensures PcmBytes(q + [v]) == PcmBytes(q) + Int16Bytes(v)
  {
    assert (q + [v])[..|q|] == q;
  }

  /** Reading two more bytes reads one more sample. */
  lemma ReadPcmSnoc(a: seq<byte>, c: seq<byte>)
    requires |a| % 2 == 0 && |c| == 2
    ensures ReadPcm(a + c) == ReadPcm(a) + [S16(c)]
  {
    var b := a + c;
    assert b[..|b| - 2] == a;
    assert b[|b| - 2..] == c;
  }

  lemma {:induction false} ReadPcmBytes(q: seq<Int16>)
    ensures ReadPcm(PcmBytes(q)) == q
  {
    if q != [] {
      var init, last := q[..|q| - 1], q[|q| - 1];
      assert q == init + [last];
      PcmBytesSnoc(init, last);
      ReadPcmSnoc(PcmBytes(init), Int16Bytes(last));
      ReadPcmBytes(init);
    }
  }

  lemma {:induction false} PcmBytesOfRead(b: seq<byte>)
    requires |b| % 2 == 0
    ensures PcmBytes(ReadPcm(b)) == b
  {
    if b != [] {
      var init, last := b[..|b| - 2], b[|b| - 2..];
      assert b == init + last;
      ReadPcmSnoc(init, last);
      PcmBytesSnoc(ReadPcm(init), S16(last));
      PcmBytesOfRead(init);
      S16RoundTrip(last);
    }
  }

  /** Sample k of the data chunk occupies bytes 2k and 2k+1. */
  lemma {:induction false} PcmBytesAt(q: seq<Int16>, k: nat)
    requires k < |q|
    ensures PcmBytes(q)[2 * k..2 * k + 2] == Int16Bytes(q[k])
  {
    var init := q[..|q| - 1];
    if k < |q| - 1 {
      PcmBytesAt(init, k);
      assert PcmBytes(q) == PcmBytes(init) + Int16Bytes(q[|q| - 1]);
      assert PcmBytes(q)[2 * k..2 * k + 2] == PcmBytes(init)[2 * k..2 * k + 2];
    }
  }

  /** The whole file: header, then one `short` per sample. */
  function WavBytes(w: WavFile): seq<byte>
  {
    HeaderBytes(w.header) + PcmBytes(w.samples)
  }

  /** Reads a file: the header, then the number of bytes its data-size field announces. */
  function ReadWav(b: seq<byte>): Option<WavFile>
  {
    match ReadHeader(b)
    case None => None
    case Some(h) =>
      if |b| < HeaderSize + h.dataSize || h.dataSize % 2 != 0 then None
      else Some(WavFile(h, ReadPcm(b[HeaderSize..HeaderSize + h.dataSize])))
  }

  /** A file whose data-size field is right reads back as the header and samples that were written. */
  lemma ReadWavBytes(w: WavFile)
    requires w.header.dataSize == 2 * |w.samples|
    ensures ReadWav(WavBytes(w)) == Some(w)
  {
    var h, data := w.header, PcmBytes(w.samples);
    var b := HeaderBytes(h) + data;
    ReadHeaderBytes(h, data);
    assert ReadHeader(b) == Some(h);
    assert |b| == HeaderSize + h.dataSize;
    assert b[HeaderSize..HeaderSize + h.dataSize] == data;
    ReadPcmBytes(w.samples);
    assert ReadWav(b) == Some(WavFile(h, w.samples));
  }

  /** What the header of a canonical 16-bit PCM file of the given length says about itself. */
  predicate CanonicalPcm16(h: Header, fileLength: int)
  {
    && h.fmtSize == 16
    && h.audioFormat == 1
    && h.bitsPerSample == 16
    && h.blockAlign == h.numChannels * h.bitsPerSample / 8
    && h.byteRate == h.sampleRate * h.blockAlign
    && h.riffSize == fileLength - 8
    && h.dataSize == fileLength - HeaderSize
  }

  /** A 16-bit PCM header whose sizes fit n samples, whose block align is two bytes per channel
      and whose byte rate is one block per sample frame is canonical. */
  lemma CanonicalOfFields(h: Header, n: nat)
    requires h.fmtSize == 16 && h.audioFormat == 1 && h.bitsPerSample == 16
    requires h.riffSize == 36 + 2 * n && h.dataSize == 2 * n
    requires h.blockAlign == h.numChannels * 2 && h.byteRate == h.sampleRate * h.numChannels * 2
    ensures CanonicalPcm16(h, HeaderSize + 2 * n)
  {
    assert h.numChannels * h.bitsPerSample / 8 == h.numChannels * 2;
    assert h.sampleRate * h.numChannels * 2 == h.sampleRate * (h.numChannels * 2);
  }

  /** The C# conversion of a floating-point value to an integer type: truncation toward zero. */
  function TruncateTowardZero(x: real): (r: int)
    ensures x >= 0.0 ==> r as real <= x < r as real + 1.0
    ensures x < 0.0 ==> r as real - 1.0 < x <= r as real
  {
    if x >= 0.0 then x.Floor else -((-x).Floor)
  }

  /** Mathf.Clamp(x, lo, hi) */
  function Clamp(x: real, lo: real, hi: real): (r: real)
    requires lo <= hi
    ensures lo <= r <= hi
    ensures lo <= x <= hi ==> r == x
    ensures x < lo ==> r == lo
    ensures x > hi ==> r == hi
  {
    if x < lo then lo else if x > hi then hi else x
  }

  predicate InUnitRange(x: real)
  {
    -1.0 <= x <= 1.0
  }

  /** `(short)(sample * short.MaxValue)`, defined only for samples in [-1, 1]. The stored sample,
      read back and divided by short.MaxValue, is within one quantisation step of the input
      and not farther from zero. */
  function QuantizeUnclamped(sample: real): (q: Int16)
    requires InUnitRange(sample)
    ensures -ShortMax <= q <= ShortMax
    ensures sample >= 0.0 ==> sample - 1.0 / 32767.0 < q as real / 32767.0 <= sample
    ensures sample < 0.0 ==> sample <= q as real / 32767.0 < sample + 1.0 / 32767.0
  {
    TruncateTowardZero(sample * ShortMax as real)
  }

  /** `(short)(Mathf.Clamp(sample, -1f, 1f) * short.MaxValue)`: defined for every sample; it
      agrees with the unclamped rule on [-1, 1] and saturates outside it. */
  function QuantizeClamped(sample: real): (q: Int16)
    ensures -ShortMax <= q <= ShortMax
    ensures InUnitRange(sample) ==> q == QuantizeUnclamped(sample)
    ensures sample >= 1.0 ==> q == ShortMax
    ensures sample <= -1.0 ==> q == -ShortMax
  {
    QuantizeUnclamped(Clamp(sample, -1.0, 1.0))
  }

  predicate AllInUnitRange(samples: seq<real>)
  {
    forall i :: 0 <= i < |samples| ==> InUnitRange(samples[i])
  }

  /** The unclamped rule applied to every sample, in order. */
  function QuantizeAllUnclamped(samples: seq<real>): seq<Int16>
    requires AllInUnitRange(samples)
  {
    seq(|samples|, i requires 0 <= i < |samples| => QuantizeUnclamped(samples[i]))
  }

  /** The clamped rule applied to every sample, in order. */
  function QuantizeAllClamped(samples: seq<real>): seq<Int16>
  {
    seq(|samples|, i requires 0 <= i < |samples| => QuantizeClamped(samples[i]))
  }

  /** A sample in [-1, 1] is stored to within one quantisation step, by either policy. */
  lemma QuantizedWithinOneStep(sample: real)
    requires InUnitRange(sample)
    ensures -1.0 / 32767.0 < QuantizeUnclamped(sample) as real / 32767.0 - sample < 1.0 / 32767.0
    ensures QuantizeClamped(sample) == QuantizeUnclamped(sample)
  {
  }

  /** On in-range input the two quantisation policies give the same samples. */
  lemma ClampedAgreesInRange(samples: seq<real>)
    requires AllInUnitRange(samples)
    ensures QuantizeAllClamped(samples) == QuantizeAllUnclamped(samples)
  {
  }
}
