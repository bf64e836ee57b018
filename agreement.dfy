/**
 The two WAV writers of the project side by side: SaveRecordingToFile in NonVRTrialManager and
 WavUtility.WriteWavFile produce the same bytes for the same clip as long as its samples lie in
 [-1, 1] and the byte rate does not overflow an `int` in either computation. Outside those bounds
 they part ways, and the lemmas below exhibit inputs on which they do.
 */
module Agreement {
  import opened Bytes
  import opened Wav
  import NonVRTrialManager
  import WavUtility

  /** With a channel count that fits a `ushort` and a byte-rate product below 2^31, the two
      writers compute the same header. */
  lemma HeadersAgree(n: nat, channels: Int32, frequency: Int32)
    requires 0 <= channels < TwoTo16 && 0 <= frequency
    requires frequency * channels * 16 < 0x8000_0000
    ensures WavUtility.ClipHeader(n, channels, frequency) == NonVRTrialManager.RecordingHeader(n, channels, frequency)
  {
    var rate := frequency * channels;
    assert rate * 16 == frequency * channels * WavUtility.BitDepth;
    assert Wrap32(rate * 16) == rate * 16;
    assert DivTrunc(rate * 16, 8) == rate * 2;
    assert WavUtility.ByteRate(channels, frequency) == frequency * channels * 2;
    assert channels * WavUtility.BitDepth / 8 == channels * 2;
  }

  /** Under the same bounds, and for samples in [-1, 1] where clamping changes nothing, the two
      writers produce identical files. */
  lemma OutputsAgree(samples: seq<real>, channels: Int32, frequency: Int32)
    requires AllInUnitRange(samples)
    requires 0 <= channels < TwoTo16 && 0 <= frequency
    requires frequency * channels * 16 < 0x8000_0000
    ensures WavUtility.ClipWavBytes(samples, channels, frequency) ==
            NonVRTrialManager.RecordingBytes(samples, channels, frequency)
  {
    HeadersAgree(|samples|, channels, frequency);
    ClampedAgreesInRange(samples);
  }

  /** The byte-rate bound is needed: at 2^27 Hz mono, WavUtility's product rate * 1 * 16 wraps
      to a negative `int` and its byte-rate field reads 0xF0000000, while SaveRecordingToFile's
      rate * 1 * 2 does not wrap and its field reads 0x10000000. */
  lemma ByteRatesDiverge(n: nat)
    ensures WavUtility.ClipHeader(n, 1, 0x0800_0000).byteRate == 0xF000_0000
    ensures NonVRTrialManager.RecordingHeader(n, 1, 0x0800_0000).byteRate == 0x1000_0000
  {
    assert Wrap32(0x0800_0000 * 1 * 16) == -0x8000_0000;
    assert DivTrunc(-0x8000_0000, 8) == -0x1000_0000;
  }

  /** The channel bound is needed: WavUtility casts the channel count to `ushort` before it
      multiplies, SaveRecordingToFile multiplies the `int` first, so with 65537 channels the
      byte-rate fields differ. */
  lemma ChannelCastsDiverge(n: nat)
    ensures WavUtility.ClipHeader(n, 0x1_0001, 8000).byteRate == 16000
    ensures NonVRTrialManager.RecordingHeader(n, 0x1_0001, 8000).byteRate == 8000 * 0x1_0001 * 2
  {
    assert ToUInt16(0x1_0001) == 1;
    assert Wrap32(8000 * 1 * 16) == 128000;
  }
}
