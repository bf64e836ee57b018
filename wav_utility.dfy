/**
 WavUtility: converts an audio clip's sample buffer into the bytes of a 16-bit PCM WAV file,
 written through a BinaryWriter into a MemoryStream, and optionally saved to a file. Unlike
 SaveRecordingToFile, every sample is clamped to [-1, 1] before it is scaled.
 */
module WavUtility {
  import opened Bytes
  import opened Wrappers
  import opened Wav
  import opened Streams

  /** The `ushort bitDepth` of the writer. */
  const BitDepth: UInt16 := 16

  /** byteRate = sampleRate * channels * bitDepth / 8, in unchecked `int` arithmetic. */
  function ByteRate(channels: UInt16, frequency: Int32): (r: Int32)
    ensures 0 <= frequency * channels * 16 < 0x8000_0000 ==> r == frequency * channels * 2
    ensures (frequency * channels * 16) % TwoTo32 >= 0x8000_0000 ==> r <= 0
  {
    DivTrunc(Wrap32(frequency * channels * BitDepth), 8)
  }

  /** The header WriteWavFile writes for n samples, as a reader sees each field. `channels` is
      cast to `ushort` first; the byte rate is the unchecked `int` product
      sampleRate * channels * bitDepth divided by 8 with C#'s truncating division. */
  function ClipHeader(n: nat, channels: Int32, frequency: Int32): (h: Header)
    ensures h.fmtSize == 16 && h.audioFormat == 1 && h.bitsPerSample == 16
    ensures h.dataSize == 2 * n % TwoTo32 && h.riffSize == (h.dataSize + 36) % TwoTo32
    ensures h.numChannels == ToUInt16(channels) && h.blockAlign == ToUInt16(2 * h.numChannels)
    ensures h.sampleRate == frequency % TwoTo32
    ensures 0 <= frequency * h.numChannels * 16 < 0x8000_0000 ==> h.byteRate == frequency * h.numChannels * 2
  {
    AddMod32(n * 2, 36);
    var c := ToUInt16(channels);
    assert c * BitDepth / 8 == 2 * c;
    Mod32Small(frequency * c * 2);
    Header(
      (36 + n * 2) % TwoTo32,                                   // 36 + samples * 2
      16,                                                       // fmt chunk size
      1,                                                        // audio format: PCM
      c,                                                        // channels
      frequency % TwoTo32,                                      // sampleRate
      ByteRate(c, frequency) % TwoTo32,                         // byteRate
      ToUInt16(c * BitDepth / 8),                               // (ushort)blockAlign
      BitDepth,                                                 // (ushort)bitDepth
      (n * 2) % TwoTo32)                                        // samples * 2
  }

  /** The header fields in the form WriteWavFile writes them through BinaryWriter.Write. */
  lemma ClipHeaderWrites(n: nat, channels: Int32, frequency: Int32)
    ensures var c := ToUInt16(channels);
      HeaderBytes(ClipHeader(n, channels, frequency)) ==
      (Ascii("RIFF") + Int32Bytes(Wrap32(36 + n * 2)) + Ascii("WAVE"))
      + (Ascii("fmt ") + Int32Bytes(16) + UInt16Bytes(1) + UInt16Bytes(c)
         + Int32Bytes(frequency) + Int32Bytes(ByteRate(c, frequency))
         + UInt16Bytes(ToUInt16(c * BitDepth / 8)) + UInt16Bytes(BitDepth))
      + (Ascii("data") + Int32Bytes(Wrap32(n * 2)))
  {
    var h := ClipHeader(n, channels, frequency);
    Int32BytesOfWrap(36 + n * 2);
    Int32BytesOfWrap(n * 2);
    assert LE32(h.riffSize) == Int32Bytes(Wrap32(36 + n * 2));
    assert LE32(h.dataSize) == Int32Bytes(Wrap32(n * 2));
  }

  /** The bytes WriteWavFile writes for a clip: the header, then every sample clamped and scaled. */
  function ClipWavBytes(samples: seq<real>, channels: Int32, frequency: Int32): (r: seq<byte>)
    ensures |r| == HeaderSize + 2 * |samples|
    ensures ReadHeader(r) == Some(ClipHeader(|samples|, channels, frequency))
  {
    ReadHeaderBytes(ClipHeader(|samples|, channels, frequency), PcmBytes(QuantizeAllClamped(samples)));
    WavBytes(WavFile(ClipHeader(|samples|, channels, frequency), QuantizeAllClamped(samples)))
  }

  /** The RIFF chunk header: the tag, the size of the rest of the file and the WAVE tag. */
  method WriteRiffHeader(writer: BinaryWriter, sampleCount: nat)
    modifies writer.output
    ensures writer.output.contents == old(writer.output.contents)
              + (Ascii("RIFF") + Int32Bytes(Wrap32(36 + sampleCount * 2)) + Ascii("WAVE"))
  {
    ghost var start := writer.output.contents;
    var riffTag, waveTag := Ascii("RIFF"), Ascii("WAVE");
    var riffSize := Wrap32(36 + sampleCount * 2);
    writer.WriteBytes(riffTag);
    writer.WriteInt32(riffSize);
    Appended(start, riffTag, Int32Bytes(riffSize));
    writer.WriteBytes(waveTag);
    Appended(start, riffTag + Int32Bytes(riffSize), waveTag);
  }

  /** The fmt chunk: its tag and size, then the format fields in file order. */
  method WriteFmtChunk(writer: BinaryWriter, channels: UInt16, sampleRate: Int32, byteRate: Int32,
                       blockAlign: UInt16)
    modifies writer.output
    ensures writer.output.contents == old(writer.output.contents)
              + (Ascii("fmt ") + Int32Bytes(16) + UInt16Bytes(1) + UInt16Bytes(channels)
                 + Int32Bytes(sampleRate) + Int32Bytes(byteRate) + UInt16Bytes(blockAlign)
                 + UInt16Bytes(BitDepth))
  {
    ghost var start := writer.output.contents;
    var fmtTag := Ascii("fmt ");
    ghost var written := fmtTag;
    writer.WriteBytes(fmtTag);
    writer.WriteInt32(16);
    Appended(start, written, Int32Bytes(16));
    written := written + Int32Bytes(16);
    writer.WriteUInt16(1);
    Appended(start, written, UInt16Bytes(1));
    written := written + UInt16Bytes(1);
    writer.WriteUInt16(channels);
    Appended(start, written, UInt16Bytes(channels));
    written := written + UInt16Bytes(channels);
    writer.WriteInt32(sampleRate);
    Appended(start, written, Int32Bytes(sampleRate));
    written := written + Int32Bytes(sampleRate);
    writer.WriteInt32(byteRate);
    Appended(start, written, Int32Bytes(byteRate));
    written := written + Int32Bytes(byteRate);
    writer.WriteUInt16(blockAlign);
    Appended(start, written, UInt16Bytes(blockAlign));
    written := written + UInt16Bytes(blockAlign);
    writer.WriteUInt16(BitDepth);
    Appended(start, written, UInt16Bytes(BitDepth));
  }

  /** The data chunk header: the tag and the size of the sample data. */
  method WriteDataHeader(writer: BinaryWriter, sampleCount: nat)
    modifies writer.output
    ensures writer.output.contents == old(writer.output.contents)
              + (Ascii("data") + Int32Bytes(Wrap32(sampleCount * 2)))
  {
    ghost var start := writer.output.contents;
    var dataTag := Ascii("data");
    var dataSize := Wrap32(sampleCount * 2);
    writer.WriteBytes(dataTag);
    writer.WriteInt32(dataSize);
    Appended(start, dataTag, Int32Bytes(dataSize));
  }

  /** The header part of WriteWavFile: the thirteen BinaryWriter.Write calls of the header. */
  method WriteClipHeader(writer: BinaryWriter, sampleCount: nat, channels: Int32, frequency: Int32)
    modifies writer.output
    ensures writer.output.contents ==
            old(writer.output.contents) + HeaderBytes(ClipHeader(sampleCount, channels, frequency))
  {
    ghost var start := writer.output.contents;
    var ch := ToUInt16(channels);
    var sampleRate := frequency;
    var byteRate := ByteRate(ch, sampleRate);
    var blockAlign := ch * BitDepth / 8;
    ghost var riff := Ascii("RIFF") + Int32Bytes(Wrap32(36 + sampleCount * 2)) + Ascii("WAVE");
    ghost var fmt := Ascii("fmt ") + Int32Bytes(16) + UInt16Bytes(1) + UInt16Bytes(ch)
                     + Int32Bytes(sampleRate) + Int32Bytes(byteRate) + UInt16Bytes(ToUInt16(blockAlign))
                     + UInt16Bytes(BitDepth);
    ghost var data := Ascii("data") + Int32Bytes(Wrap32(sampleCount * 2));
    WriteRiffHeader(writer, sampleCount);
    WriteFmtChunk(writer, ch, sampleRate, byteRate, ToUInt16(blockAlign));
    Appended(start, riff, fmt);
    WriteDataHeader(writer, sampleCount);
    Appended(start, riff + fmt, data);
    ClipHeaderWrites(sampleCount, channels, frequency);
  }

  /** Appends the WAV file of the clip's samples to the stream: the header, then each sample
      clamped to [-1, 1], scaled by short.MaxValue and written as a `short`, in buffer order. */
  method WriteWavFile(stream: ByteStream, samples: seq<real>, channels: Int32, frequency: Int32)
    modifies stream
    ensures stream.contents == old(stream.contents) + ClipWavBytes(samples, channels, frequency)
  {
    ghost var start := stream.contents;
    ghost var h := ClipHeader(|samples|, channels, frequency);
    ghost var q := QuantizeAllClamped(samples);
    var writer := new BinaryWriter(stream);
    WriteClipHeader(writer, |samples|, channels, frequency);
    for i := 0 to |samples|
      invariant stream.contents == start + (HeaderBytes(h) + PcmBytes(q[..i]))
    {
      var s := QuantizeClamped(samples[i]);
      writer.WriteInt16(s);
      assert s == q[i];
      assert q[..i + 1][..i] == q[..i];
      assert PcmBytes(q[..i + 1]) == PcmBytes(q[..i]) + Int16Bytes(s);
    }
    assert q[..|samples|] == q;
  }

  /** The bytes of the WAV file of the clip, and the bytes written to the file when saveToFile
      is set (None when nothing is written). */
  method FromAudioClip(samples: seq<real>, channels: Int32, frequency: Int32, saveToFile: bool)
    returns (bytes: seq<byte>, saved: Option<seq<byte>>)
    ensures bytes == ClipWavBytes(samples, channels, frequency)
    ensures saved == if saveToFile then Some(bytes) else None
  {
    var stream := new ByteStream();
    WriteWavFile(stream, samples, channels, frequency);
    bytes := stream.contents;
    saved := None;
    if saveToFile {
      saved := Some(bytes);
    }
  }

  /** Below the 32-bit limits every header field WriteWavFile writes has its exact value: the
      RIFF size 36 + 2n, the data size 2n, the byte rate frequency * channels * 2 and the block
      align channels * 2. */
  lemma ClipHeaderValues(n: nat, channels: Int32, frequency: Int32)
    requires 36 + 2 * n < TwoTo32
    requires 0 <= channels < 0x8000 && 0 <= frequency
    requires frequency * channels * 16 < 0x8000_0000
    ensures var h := ClipHeader(n, channels, frequency);
            && CanonicalPcm16(h, HeaderSize + 2 * n)
            && h.riffSize == 36 + 2 * n
            && h.dataSize == 2 * n
            && h.numChannels == channels
            && h.sampleRate == frequency
            && h.byteRate == frequency * channels * 2
            && h.blockAlign == channels * 2
  {
    var h := ClipHeader(n, channels, frequency);
    assert h.numChannels == channels && h.sampleRate == frequency;
    ClipByteRateExact(n, channels, frequency);
    CanonicalOfFields(h, n);
  }

  /** Below the limit of the `int` product, the byte rate is frequency * channels * 2. */
  lemma ClipByteRateExact(n: nat, channels: Int32, frequency: Int32)
    requires 0 <= channels < 0x8000 && 0 <= frequency
    requires frequency * channels * 16 < 0x8000_0000
    ensures ClipHeader(n, channels, frequency).byteRate == frequency * channels * 2
  {
    var h := ClipHeader(n, channels, frequency);
    var c := h.numChannels;
    assert c == channels;
    MulNonNegative(frequency, c);
    assert frequency * c * 16 == frequency * channels * 16;
  }

  /** Below the 32-bit limits, the bytes are a canonical 16-bit PCM WAV file of length 44 + 2n
      that reads back as the clip's header and its clamped, quantised samples in buffer order. */
  lemma ClipIsCanonical(samples: seq<real>, channels: Int32, frequency: Int32)
    requires 36 + 2 * |samples| < TwoTo32
    requires 0 <= channels < 0x8000 && 0 <= frequency
    requires frequency * channels * 16 < 0x8000_0000
    ensures var file := ClipWavBytes(samples, channels, frequency);
            var h := ClipHeader(|samples|, channels, frequency);
            && |file| == HeaderSize + 2 * |samples|
            && CanonicalPcm16(h, |file|)
            && ReadWav(file) == Some(WavFile(h, QuantizeAllClamped(samples)))
  {
    var h := ClipHeader(|samples|, channels, frequency);
    ClipHeaderValues(|samples|, channels, frequency);
    ReadWavBytes(WavFile(h, QuantizeAllClamped(samples)));
  }

  /** For samples in [-1, 1], decoding the data chunk and dividing by short.MaxValue gives back
      every sample, in order, to within one quantisation step 1/32767. */
  lemma ClipReadsBackWithinOneStep(samples: seq<real>, channels: Int32, frequency: Int32)
    requires AllInUnitRange(samples)
    requires 2 * |samples| < TwoTo32
    ensures var w := ReadWav(ClipWavBytes(samples, channels, frequency));
            && w.Some? && |w.value.samples| == |samples|
            && forall k :: 0 <= k < |samples| ==>
                 -1.0 / 32767.0 < w.value.samples[k] as real / 32767.0 - samples[k] < 1.0 / 32767.0
  {
    var h := ClipHeader(|samples|, channels, frequency);
    var q := QuantizeAllClamped(samples);
    Mod32Small(2 * |samples|);
    assert ClipWavBytes(samples, channels, frequency) == WavBytes(WavFile(h, q));
    ReadWavBytes(WavFile(h, q));
    forall k | 0 <= k < |samples|
      ensures -1.0 / 32767.0 < q[k] as real / 32767.0 - samples[k] < 1.0 / 32767.0
    {
      QuantizedWithinOneStep(samples[k]);
    }
  }

  /** Every sample clamped to [-1, 1]. */
  function ClampAll(samples: seq<real>): (r: seq<real>)
    ensures |r| == |samples| && AllInUnitRange(r)
  {
    seq(|samples|, i requires 0 <= i < |samples| => Clamp(samples[i], -1.0, 1.0))
  }

  /** Out-of-range samples saturate: the file of a clip is the file of its samples clamped to
      [-1, 1], so nothing wraps around. */
  lemma ClipOfClamped(samples: seq<real>, channels: Int32, frequency: Int32)
    ensures ClipWavBytes(samples, channels, frequency) == ClipWavBytes(ClampAll(samples), channels, frequency)
  {
    var c := ClampAll(samples);
    assert QuantizeAllClamped(samples) == QuantizeAllClamped(c) by {
      forall i | 0 <= i < |samples|
        ensures QuantizeClamped(samples[i]) == QuantizeClamped(c[i])
      {
        assert c[i] == Clamp(samples[i], -1.0, 1.0);
      }
    }
  }

  /** The clip [1.5, -2.0] is stored exactly as the clip [1.0, -1.0]. */
  lemma OverRangeClipSaturates(channels: Int32, frequency: Int32)
    ensures ClipWavBytes([1.5, -2.0], channels, frequency) == ClipWavBytes([1.0, -1.0], channels, frequency)
  {
    assert QuantizeAllClamped([1.5, -2.0]) == [ShortMax, -ShortMax] == QuantizeAllClamped([1.0, -1.0]);
  }

  /** Sample k of the buffer is stored at offsets 44 + 2k and 45 + 2k, as its clamped value: a
      sample at or beyond full scale is stored as +32767 or -32767, never wrapped. */
  lemma ClipSampleStored(samples: seq<real>, channels: Int32, frequency: Int32, k: nat)
    requires k < |samples|
    ensures var file := ClipWavBytes(samples, channels, frequency);
            && file[HeaderSize + 2 * k..HeaderSize + 2 * k + 2] == Int16Bytes(QuantizeClamped(samples[k]))
            && (samples[k] >= 1.0 ==> file[HeaderSize + 2 * k..HeaderSize + 2 * k + 2] == [0xFF, 0x7F])
            && (samples[k] <= -1.0 ==> file[HeaderSize + 2 * k..HeaderSize + 2 * k + 2] == [0x01, 0x80])
  {
    var q := QuantizeAllClamped(samples);
    var header := HeaderBytes(ClipHeader(|samples|, channels, frequency));
    var pcm := PcmBytes(q);
    var file := ClipWavBytes(samples, channels, frequency);
    assert file == header + pcm;
    PcmBytesAt(q, k);
    SliceAfter(header, pcm, 2 * k, 2 * k + 2);
    var stored := file[HeaderSize + 2 * k..HeaderSize + 2 * k + 2];
    assert stored == Int16Bytes(q[k]);
    assert q[k] == QuantizeClamped(samples[k]);
    FullScaleBytes();
  }

  /** The two full-scale values as they are stored. */
  lemma FullScaleBytes()
    ensures Int16Bytes(ShortMax) == [0xFF, 0x7F]
    ensures Int16Bytes(-ShortMax) == [0x01, 0x80]
  {
    assert -ShortMax % TwoTo16 == 0x8001;
  }

  /** Appending to a stream that holds start + written holds start + (written + piece). */
  lemma Appended(start: seq<byte>, written: seq<byte>, piece: seq<byte>)
    ensures start + written + piece == start + (written + piece)
  {
  }

  /** A slice of the part after a prefix. */
  lemma SliceAfter(a: seq<byte>, b: seq<byte>, i: nat, j: nat)
    requires i <= j <= |b|
    ensures (a + b)[|a| + i..|a| + j] == b[i..j]
  {
  }
}
