# 16-bit PCM WAV writers and trial-table logic of a Unity experiment runner

This project models, in Dafny, the parts of a Unity behavioural experiment that are not engine glue.

**The WAV encoder.** It turns an interleaved buffer of floating-point audio samples, a channel count and a sample rate into a canonical 44-byte RIFF/WAVE header followed by one little-endian 16-bit sample per input sample. The repository holds two independent copies of it:

- `SaveRecordingToFile` in `NonVRTrialManager` writes the fields one by one into a `FileStream` through `BitConverter`. It scales each sample by `short.MaxValue` without clamping.
- `WavUtility.WriteWavFile` writes the same fields through a `BinaryWriter` into a `MemoryStream`. It clamps each sample to [-1, 1] first. `WavUtility.FromAudioClip` returns the stream's bytes and optionally saves them.

**The trial logic of `NonVRTrialManager`.**

- `LoadCSV` parses the trial table.
- `RandomRotationForAffordance` maps an affordance condition to a rotation.
- The familiarisation loop shows each object once.

## Modules

| module | file | what it holds |
|---|---|---|
| `Wrappers` | `wrappers.dfy` | the `Option` datatype |
| `Bytes` | `bytes.dfy` | .NET integer widths, unchecked `int` wrap-around (`Wrap32`), the `(ushort)` cast, C#'s truncating division, and little-endian encoders with their decoders and round trips |
| `Streams` | `streams.dfy` | an append-only byte stream (`FileStream`/`MemoryStream` positioned at its end) and a `BinaryWriter` class over it |
| `Wav` | `wav.dfy` | the `Header` and `WavFile` datatypes, the header layout and a reader for it, the data chunk and its reader, and the clamped and unclamped quantisation rules |
| `Text` | `text.dfy` | `String.Split(char)`, `String.Join`, `String.Trim()` and `Char.IsWhiteSpace` |
| `NonVRTrialManager` | `non_vr_trial_manager.dfy` | `SaveRecordingToFile`, `LoadCSV` (a class with the `trials` field), `RandomRotationForAffordance` and the `FamiliarizationPhase` loop |
| `WavUtility` | `wav_utility.dfy` | `WriteWavFile` (one helper per chunk of the header) and `FromAudioClip` |
| `Agreement` | `agreement.dfy` | when the two writers produce the same bytes, and inputs on which they do not |

## How the model works

**Stateful code is imperative Dafny.** Code that changes state step by step is written as Dafny methods:

- `SaveRecordingToFile` and `WriteWavFile` append to a `ByteStream` object in a loop.
- `LoadCSV` fills the `trials` field of a `TrialManager` object.
- `FamiliarizationPhase` keeps its `seenObjects` set in a loop.

**Each method is proved against a specification function.** That function is `RecordingBytes`, `ClipWavBytes`, `ParseTrials` or `Familiarization`. The properties the source promises are then proved about those functions: field values, length, read-back, order, de-duplication and the two writers' agreement.

**Samples are `real` numbers.** The float-to-`short` conversion is truncation toward zero.

**Integer overflow is written out.** Every unchecked C# `int` expression is modelled by its wrapped value. A reader of the file sees each 4-byte field modulo 2^32 and each 2-byte field modulo 2^16. The writers are therefore total. The lemmas that state exact field values carry the no-overflow hypotheses instead.

**Neither writer has an error path.** Neither routine checks the channel count, the sample rate, or that the buffer length is a multiple of the channel count. Both write a header for whatever they are given, and so does the model. A zero channel count gives a header with zero channels and a zero block align.

## Model

| member | source | states |
|---|---|---|
| Bytes.Wrap32 | Assets/NonVRTrialManager.cs:207 | the value of an unchecked `int` expression is the 32-bit value congruent to it modulo 2^32, and is the exact value when that fits |
| Bytes.ToUInt16 | Assets/NonVRTrialManager.cs:217 | an unchecked `(ushort)` cast keeps the value modulo 2^16, and is the identity on 0..65535 |
| Bytes.DivTrunc | Assets/NewBehaviourScript.cs:32 | C# integer division truncates toward zero: the quotient bounds the dividend from below for non-negative, from above for negative dividends |
| Bytes.Ascii | Assets/NonVRTrialManager.cs:206 | UTF-8 encoding of an ASCII tag gives one byte per character, with the character's code |
| Bytes.LE16 | Assets/NewBehaviourScript.cs:42-47 | a `ushort` is laid out as two bytes, least significant first (LE16RoundTrip and U16RoundTrip show the layout is a bijection) |
| Bytes.LE32 | Assets/NewBehaviourScript.cs:38-49 | a 32-bit value is laid out as four bytes, least significant first (LE32RoundTrip and U32RoundTrip show the layout is a bijection) |
| Bytes.LE16RoundTrip | Assets/NewBehaviourScript.cs:42-47 | a 16-bit field decodes back to the value written |
| Bytes.U16RoundTrip | Assets/NewBehaviourScript.cs:42-47 | every two bytes are the encoding of the unsigned value they read as |
| Bytes.LE32RoundTrip | Assets/NewBehaviourScript.cs:38-49 | a 32-bit field decodes back to any value in 0..2^32-1 |
| Bytes.U32RoundTrip | Assets/NewBehaviourScript.cs:38-49 | every four bytes are the encoding of the unsigned value they read as |
| Bytes.S16RoundTrip | Assets/NonVRTrialManager.cs:228 | every two bytes are the encoding of the `short` they read as |
| Bytes.Int32Bytes | Assets/NonVRTrialManager.cs:207 | `BitConverter.GetBytes(int)`, also `BinaryWriter.Write(int)` at Assets/NewBehaviourScript.cs:38: four bytes that a reader sees as the value modulo 2^32 |
| Bytes.UInt16Bytes | Assets/NonVRTrialManager.cs:213-214 | `BitConverter.GetBytes(ushort)`, also `BinaryWriter.Write(ushort)`: two bytes that read back as the value |
| Bytes.Int16Bytes | Assets/NonVRTrialManager.cs:228 | `BitConverter.GetBytes(short)`, also `BinaryWriter.Write(short)` at Assets/NewBehaviourScript.cs:54: two bytes that read back as the same signed value |
| Bytes.Int32BytesOfWrap | Assets/NonVRTrialManager.cs:207 | writing a wrapped `int` expression writes the low 32 bits of its exact value |
| Bytes.ToUInt16OfWrap | Assets/NonVRTrialManager.cs:217 | casting a wrapped `int` expression to `ushort` keeps the low 16 bits of its exact value |
| Bytes.Int32FieldReadsBack | Assets/NonVRTrialManager.cs:222 | a 4-byte field written from an `int` expression reads back as the expression's exact value when it lies in 0..2^32-1 |
| Streams.ByteStream.constructor | Assets/NewBehaviourScript.cs:10 | a new memory stream, or a file opened with FileMode.Create, is empty |
| Streams.ByteStream.Write | Assets/NonVRTrialManager.cs:206 | `Write(buffer, offset, count)` appends exactly `buffer[offset..offset+count]` and nothing else |
| Streams.BinaryWriter.constructor | Assets/NewBehaviourScript.cs:35 | the writer writes into the given stream |
| Streams.BinaryWriter.WriteBytes | Assets/NewBehaviourScript.cs:37 | `Write(byte[])` appends the bytes |
| Streams.BinaryWriter.WriteInt32 | Assets/NewBehaviourScript.cs:38 | `Write(int)` appends the 4 little-endian bytes of the value modulo 2^32 |
| Streams.BinaryWriter.WriteUInt16 | Assets/NewBehaviourScript.cs:42 | `Write(ushort)` appends the 2 little-endian bytes of the value |
| Streams.BinaryWriter.WriteInt16 | Assets/NewBehaviourScript.cs:54 | `Write(short)` appends the 2 little-endian bytes of the two's-complement value |
| Wav.HeaderBytes | Assets/NonVRTrialManager.cs:205-222 | the header layout (three tags, then every field little-endian at its fixed offset) is exactly 44 bytes |
| Wav.ReadHeaderBytes | Assets/NewBehaviourScript.cs:37-49 | every field of a written header reads back at its fixed offset, whatever follows the header |
| Wav.ReadHeaderExact | Assets/NewBehaviourScript.cs:37-49 | whatever header the reader accepts is exactly the written form of what it returns, so the layout is a bijection |
| Wav.PcmBytes | Assets/NonVRTrialManager.cs:224-230 | the data chunk holds two bytes per sample |
| Wav.ReadPcmBytes | Assets/NonVRTrialManager.cs:224-230 | the data chunk decodes back to the samples written, in order |
| Wav.PcmBytesOfRead | Assets/NewBehaviourScript.cs:51-55 | every byte string of even length is the data chunk of the samples it decodes to |
| Wav.PcmBytesAt | Assets/NewBehaviourScript.cs:51-55 | sample k occupies bytes 2k and 2k+1 of the data chunk |
| Wav.ReadWavBytes | Assets/NewBehaviourScript.cs:37-55 | a file whose data-size field equals twice its sample count reads back as its header and samples |
| Wav.TruncateTowardZero | Assets/NonVRTrialManager.cs:227 | the float-to-`short` cast truncates toward zero: the result is within 1 of the input and not farther from zero |
| Wav.Clamp | Assets/NewBehaviourScript.cs:53 | `Mathf.Clamp(x, lo, hi)` lies in [lo, hi], is x inside it, lo below it and hi above it |
| Wav.QuantizeUnclamped | Assets/NonVRTrialManager.cs:227 | `(short)(sample * short.MaxValue)` for a sample in [-1, 1] lies in [-32767, 32767], and divided by 32767 is within 1/32767 of the sample and not farther from zero |
| Wav.QuantizeClamped | Assets/NewBehaviourScript.cs:53 | the clamped rule always lies in [-32767, 32767], equals the unclamped rule on [-1, 1], and saturates at 32767 for samples >= 1 and at -32767 for samples <= -1 |
| Wav.ClampedAgreesInRange | Assets/NewBehaviourScript.cs:53 | on samples in [-1, 1] the clamped and unclamped rules quantise every sample alike |
| Text.Split | Assets/NonVRTrialManager.cs:61 | `Split(char)` never returns an empty array |
| Text.SplitAvoids | Assets/NonVRTrialManager.cs:64 | no piece of a split holds the separator |
| Text.JoinSplit | Assets/NonVRTrialManager.cs:61 | joining the pieces of a split with the separator gives the string back, so nothing is lost |
| Text.SplitPiece | Assets/NonVRTrialManager.cs:64 | a piece without the separator splits to itself |
| Text.SplitAfterPiece | Assets/NonVRTrialManager.cs:64 | splitting a separator-free piece, a separator and more text gives the piece and then the split of the rest |
| Text.SplitJoin | Assets/NonVRTrialManager.cs:64 | separator-free pieces joined and split again give the pieces back |
| Text.TrimStart | Assets/NonVRTrialManager.cs:64 | the start-trimmed string is no longer than the input and does not begin with white space |
| Text.TrimEnd | Assets/NonVRTrialManager.cs:64 | the end-trimmed string is no longer than the input and does not end with white space |
| Text.Trim | Assets/NonVRTrialManager.cs:64 | `Trim()` gives a string no longer than the input with white space at neither end |
| Text.TrimStartSuffix | Assets/NonVRTrialManager.cs:64 | TrimStart keeps a suffix of the string that does not begin with white space |
| Text.TrimStartRemovesWhiteSpace | Assets/NonVRTrialManager.cs:64 | everything TrimStart removes is white space |
| Text.TrimEndPrefix | Assets/NonVRTrialManager.cs:64 | TrimEnd keeps a prefix of the string that does not end with white space |
| Text.TrimEndRemovesWhiteSpace | Assets/NonVRTrialManager.cs:64 | everything TrimEnd removes is white space |
| Text.TrimIdentity | Assets/NonVRTrialManager.cs:64 | Trim's result has no white space at either end, and Trim leaves such a string unchanged |
| NonVRTrialManager.RecordingHeader | Assets/NonVRTrialManager.cs:205-222 | the header as a reader sees it, for any inputs: fmt size 16, PCM format, 16 bits; the data size is 2n and the RIFF size 36 more, both modulo 2^32; the channel field is the count modulo 2^16 and the block align twice that modulo 2^16; the rate is the frequency modulo 2^32; the byte rate is frequency * channels * 2 whenever that fits in 32 bits |
| NonVRTrialManager.RecordingHeaderWrites | Assets/NonVRTrialManager.cs:205-222 | the header record is exactly the thirteen pieces the routine writes, each unchecked `int` through BitConverter |
| NonVRTrialManager.RecordingBytes | Assets/NonVRTrialManager.cs:198-230 | the file is 44 + 2n bytes long and its header reads back as the recording's header, whatever the inputs |
| NonVRTrialManager.WriteRecordingHeader | Assets/NonVRTrialManager.cs:205-222 | after the header writes the new file holds exactly the 44 header bytes of the recording |
| NonVRTrialManager.SaveRecordingToFile | Assets/NonVRTrialManager.cs:190-234 | the file holds the recording's header then every sample, unclamped and quantised, in buffer order |
| NonVRTrialManager.RecordingHeaderValues | Assets/NonVRTrialManager.cs:200-222 | below the 32-bit limits the header is canonical 16-bit PCM: RIFF size 44 + 2n - 8 = 36 + 2n, fmt size 16, format 1, 16 bits, the channel count, the rate, byte rate rate * channels * 2, block align channels * 2, data size 2n |
| NonVRTrialManager.RecordingIsCanonical | Assets/NonVRTrialManager.cs:200-230 | below the 32-bit limits the file is 44 + 2n bytes long, canonical, and reads back as its header and quantised samples in buffer order |
| NonVRTrialManager.RecordingReadsBackWithinOneStep | Assets/NonVRTrialManager.cs:224-230 | every stored sample divided by 32767 is within 1/32767 of the input sample, position by position |
| NonVRTrialManager.RecordingSampleRateBytes | Assets/NonVRTrialManager.cs:215 | a mono 44100 Hz recording carries 0x44 0xAC 0x00 0x00 at offsets 24 to 27 (little-endian) |
| NonVRTrialManager.ParseLine | Assets/NonVRTrialManager.cs:64-72 | an empty line (such as the one after a final newline) yields no trial, and no field of a parsed trial contains a comma |
| NonVRTrialManager.ParseTrials | Assets/NonVRTrialManager.cs:61-62 | there are fewer trials than lines of the text: the column-header line never yields one, and each other line yields at most one |
| NonVRTrialManager.TrialManager.constructor | Assets/NonVRTrialManager.cs:44 | a new manager has no trials |
| NonVRTrialManager.TrialManager.LoadCSV | Assets/NonVRTrialManager.cs:58-74 | the trial list is replaced by the trials of the table: every line after the first, trimmed and split on commas, with at least five fields gives the trial of its first five fields, in line order |
| NonVRTrialManager.TrialsOfLinesAppend | Assets/NonVRTrialManager.cs:62-73 | lines are parsed independently: the trials of two blocks of lines are the trials of each, in order |
| NonVRTrialManager.TrialsComeFromLines | Assets/NonVRTrialManager.cs:62-73 | there are at most as many trials as lines and each trial is the parse of one of the lines |
| NonVRTrialManager.ShortLineDropped | Assets/NonVRTrialManager.cs:65 | a line whose trimmed split has fewer than five fields contributes nothing, wherever it stands |
| NonVRTrialManager.ParseLineOfFields | Assets/NonVRTrialManager.cs:64-72 | a trimmed line of comma-free fields gives the trial of its first five fields, extra ones ignored, and nothing with fewer than five |
| NonVRTrialManager.TrialLineParses | Assets/NonVRTrialManager.cs:64-72 | the comma-joined line of a trial with comma- and newline-free fields parses back to that trial |
| NonVRTrialManager.TrialsOfParsingLines | Assets/NonVRTrialManager.cs:62-73 | lines each of which yields one given trial yield those trials in order |
| NonVRTrialManager.TrialsOfTrialLines | Assets/NonVRTrialManager.cs:62-73 | the lines of such trials parse back to the trials, in order |
| NonVRTrialManager.ParseTrialsOfTable | Assets/NonVRTrialManager.cs:58-74 | a table with any header line and one line per trial loads back as exactly those trials: the header line is skipped and order is kept |
| NonVRTrialManager.RandomRotationForAffordance | Assets/NonVRTrialManager.cs:178-188 | the rotation is one of the four of the table, and it is non-zero exactly for "bad1", "bad2" and "bad3" ("good" and every other string give zero) |
| NonVRTrialManager.Familiarization | Assets/NonVRTrialManager.cs:92-110 | no more trials are shown than the list holds; FamiliarizationShowsEachNameOnce states which ones |
| NonVRTrialManager.FamiliarizationPhase | Assets/NonVRTrialManager.cs:92-110 | the trials shown are, in list order, those that are the first of their object name and whose object has a prefab |
| NonVRTrialManager.FamiliarizationShowsEachNameOnce | Assets/NonVRTrialManager.cs:92-110 | only trials of the list with a prefab are shown, no object name is shown twice, and every name of the list that has a prefab is shown |
| WavUtility.ByteRate | Assets/NewBehaviourScript.cs:32 | the unchecked `int` product rate * channels * 16 divided by 8 with truncation is rate * channels * 2 when the product fits in an `int`, and zero or negative when it overflows into the sign bit |
| WavUtility.ClipHeader | Assets/NewBehaviourScript.cs:29-49 | the header as a reader sees it, for any inputs: fmt size 16, PCM format, 16 bits; the data size is 2n and the RIFF size 36 more, both modulo 2^32; the channel field is the `ushort` cast of the count and the block align twice that modulo 2^16; the rate is the frequency modulo 2^32; the byte rate is rate * channels * 2 whenever rate * channels * 16 fits in an `int` |
| WavUtility.ClipWavBytes | Assets/NewBehaviourScript.cs:23-57 | the bytes are 44 + 2n long and their header reads back as the clip's header, whatever the inputs |
| WavUtility.ClipHeaderWrites | Assets/NewBehaviourScript.cs:37-49 | the header record is exactly the thirteen values the routine writes, as its three chunks |
| WavUtility.WriteRiffHeader | Assets/NewBehaviourScript.cs:37-39 | appends "RIFF", the wrapped `int` 36 + 2n and "WAVE" |
| WavUtility.WriteFmtChunk | Assets/NewBehaviourScript.cs:40-47 | appends "fmt ", 16, format 1, channels, rate, byte rate, block align and 16 bits, in that order |
| WavUtility.WriteDataHeader | Assets/NewBehaviourScript.cs:48-49 | appends "data" and the wrapped `int` 2n |
| WavUtility.WriteClipHeader | Assets/NewBehaviourScript.cs:29-49 | appends exactly the 44 header bytes of the clip to the stream |
| WavUtility.WriteWavFile | Assets/NewBehaviourScript.cs:23-57 | appends the clip's header then every sample, clamped and quantised, in buffer order, and nothing else |
| WavUtility.FromAudioClip | Assets/NewBehaviourScript.cs:7-21 | returns the clip's WAV bytes whatever saveToFile is, and saves exactly those bytes when saveToFile is set and nothing otherwise |
| WavUtility.ClipHeaderValues | Assets/NewBehaviourScript.cs:29-49 | below the 32-bit limits the header is canonical 16-bit PCM: RIFF size 36 + 2n, fmt size 16, format 1, 16 bits, byte rate rate * channels * 16 / 8 = rate * channels * 2, block align channels * 16 / 8 = channels * 2, data size 2n |
| WavUtility.ClipIsCanonical | Assets/NewBehaviourScript.cs:23-57 | below the 32-bit limits the bytes are 44 + 2n long, canonical, and read back as the header and the clamped quantised samples in buffer order |
| WavUtility.ClipReadsBackWithinOneStep | Assets/NewBehaviourScript.cs:51-55 | for samples in [-1, 1] every stored sample divided by 32767 is within 1/32767 of the input sample |
| WavUtility.ClampAll | Assets/NewBehaviourScript.cs:53 | clamping every sample keeps the length and puts every sample in [-1, 1] |
| WavUtility.ClipOfClamped | Assets/NewBehaviourScript.cs:53 | the file of any clip equals the file of its samples clamped to [-1, 1]: over-range input saturates and never wraps |
| WavUtility.OverRangeClipSaturates | Assets/NewBehaviourScript.cs:53 | the clip [1.5, -2.0] is stored exactly like the clip [1.0, -1.0] |
| WavUtility.ClipSampleStored | Assets/NewBehaviourScript.cs:51-55 | sample k is stored at offsets 44 + 2k and 45 + 2k as its clamped value: 0xFF 0x7F for samples >= 1 and 0x01 0x80 for samples <= -1 |
| Agreement.HeadersAgree | Assets/NewBehaviourScript.cs:29-49 | for a channel count in 0..65535 and a rate with rate * channels * 16 < 2^31, both writers compute the same header (36 + 2n = 44 + 2n - 8) |
| Agreement.OutputsAgree | Assets/NewBehaviourScript.cs:23-57 | under the same bounds and for samples in [-1, 1], both writers produce identical bytes |
| Agreement.ByteRatesDiverge | Assets/NewBehaviourScript.cs:32 | the byte-rate bound is needed: at 2^27 Hz mono WavUtility writes 0xF0000000 where SaveRecordingToFile writes 0x10000000 |
| Agreement.ChannelCastsDiverge | Assets/NewBehaviourScript.cs:30 | the channel bound is needed: with 65537 channels WavUtility's byte rate uses the `ushort` count 1, SaveRecordingToFile's uses 65537 |

## Left out

- **Engine orchestration.** Unity engine sequencing is not modelled: coroutines, `WaitForSeconds`, key polling, `Instantiate`/`Destroy`, UI text and screens, `Start`, `WaitForStartKey`, `ShowObject` and `RunTrials`. It has no contract beyond its order of calls.
- **Capture.** The microphone and `AudioClip.GetData` are foreign calls. Every writer takes the filled sample buffer, the channel count and the frequency as inputs, and `n` is the buffer's length.
- **File system and logging.** `Path.Combine`, `Directory.CreateDirectory`, `File.WriteAllBytes`, `Debug.Log`, `WriteCsvHeader` and `LogTrialData` are not modelled. Neither is the file write itself, beyond the bytes the writers produce. I/O errors are not modelled.
- **Disposal.** `using` and `Dispose` of the streams are not modelled. Disposing does not change the bytes.
- SaveRecordingToFile: requires samples in [-1, 1]. The C# cast of an out-of-range float to `short` is unspecified, so the model does not say which bytes such a sample gives. RecordingBytes, RecordingIsCanonical and RecordingReadsBackWithinOneStep carry the same requirement.
- **Floating-point rounding.** Samples are real numbers. The single-precision rounding of `sample * short.MaxValue` before the cast is not modelled, and neither is NaN.
- **Byte order.** `BitConverter` is assumed to run on a little-endian host. Host byte order is not modelled.
- WriteWavFile: takes the sample buffer directly. The `int` product `clip.samples * clip.channels` that sizes it is not modelled, and neither is that product's own overflow.
- FromAudioClip: does not model the `filepath` out-parameter, which is built by `Path.Combine`. `saved` stands for the bytes `File.WriteAllBytes` receives.
- FamiliarizationPhase: abstracts the prefab search (`objectPrefabs.Find` with a case-insensitive substring match) as a predicate `hasPrefab` on the object name. Showing an object is reduced to appending the trial to the list of shown trials.
- **Trial table whitespace.** `Char.IsWhiteSpace` is modelled by its fixed set of Unicode white-space characters. Other culture-dependent string behaviour is irrelevant to `Split(char)` and `Trim()`.
