/**
 The experiment runner's own logic that is not engine glue: the WAV file written for each
 trial's recording (SaveRecordingToFile), the trial table parser (LoadCSV), the rotation
 chosen for an affordance, and the de-duplication of objects in the familiarisation phase.
 */
module NonVRTrialManager {
  import opened Bytes
  import opened Wrappers
  import opened Wav
  import opened Text
  import opened Streams

  // ---------------------------------------------------------------------------------------
  // SaveRecordingToFile

  /** The header SaveRecordingToFile writes for n samples, as a reader sees each field. The
      arithmetic is unchecked C# `int` arithmetic written out by BitConverter, so a reader
      sees each value modulo 2^32 (modulo 2^16 after a `(ushort)` cast). */
  function RecordingHeader(n: nat, channels: Int32, frequency: Int32): (h: Header)
    ensures h.fmtSize == 16 && h.audioFormat == 1 && h.bitsPerSample == 16
    ensures h.dataSize == 2 * n % TwoTo32 && h.riffSize == (h.dataSize + 36) % TwoTo32
    ensures h.numChannels == ToUInt16(channels) && h.blockAlign == ToUInt16(2 * h.numChannels)
    ensures h.sampleRate == frequency % TwoTo32
    ensures 0 <= frequency * channels * 2 < TwoTo32 ==> h.byteRate == frequency * channels * 2
  {
    ToUInt16Twice(channels);
    AddMod32(n * 2, 36);
    Mod32Small(frequency * channels * 2);
    Header(
      (44 + n * 2 - 8) % TwoTo32,             // RIFF chunk size: headerSize + sampleCount * 2 - 8
      16,                                     // fmt chunk size
      1,                                      // audio format: PCM
      ToUInt16(channels),                     // (ushort)recording.channels
      frequency % TwoTo32,                    // sample rate
      (frequency * channels * 2) % TwoTo32,   // byte rate
      ToUInt16(channels * 2),                 // block align: (ushort)(recording.channels * 2)
      16,                                     // bits per sample
      (n * 2) % TwoTo32)                      // data chunk size: sampleCount * 2
  }

  /** The header fields in the form SaveRecordingToFile writes them: the unchecked `int`
      expressions through BitConverter.GetBytes, on a little-endian host. */
  lemma RecordingHeaderWrites(n: nat, channels: Int32, frequency: Int32)
    ensures HeaderBytes(RecordingHeader(n, channels, frequency)) ==
      Ascii("RIFF") + Int32Bytes(Wrap32(44 + n * 2 - 8)) + Ascii("WAVE")
      + Ascii("fmt ") + Int32Bytes(16) + UInt16Bytes(1) + UInt16Bytes(ToUInt16(channels))
      + Int32Bytes(frequency) + Int32Bytes(Wrap32(frequency * channels * 2))
      + UInt16Bytes(ToUInt16(Wrap32(channels * 2))) + UInt16Bytes(16)
      + Ascii("data") + Int32Bytes(Wrap32(n * 2))
  {
    var h := RecordingHeader(n, channels, frequency);
    Int32BytesOfWrap(44 + n * 2 - 8);
    Int32BytesOfWrap(frequency * channels * 2);
    ToUInt16OfWrap(channels * 2);
    Int32BytesOfWrap(n * 2);
    assert LE32(h.riffSize) == Int32Bytes(Wrap32(44 + n * 2 - 8));
    assert LE32(h.byteRate) == Int32Bytes(Wrap32(frequency * channels * 2));
    assert LE16(h.blockAlign) == UInt16Bytes(ToUInt16(Wrap32(channels * 2)));
    assert LE32(h.dataSize) == Int32Bytes(Wrap32(n * 2));
  }

  /** The bytes of the file SaveRecordingToFile writes for a clip whose samples lie in [-1, 1]. */
  function RecordingBytes(samples: seq<real>, channels: Int32, frequency: Int32): (r: seq<byte>)
    requires AllInUnitRange(samples)
    ensures |r| == HeaderSize + 2 * |samples|
    ensures ReadHeader(r) == Some(RecordingHeader(|samples|, channels, frequency))
  {
    ReadHeaderBytes(RecordingHeader(|samples|, channels, frequency), PcmBytes(QuantizeAllUnclamped(samples)));
    WavBytes(WavFile(RecordingHeader(|samples|, channels, frequency), QuantizeAllUnclamped(samples)))
  }

  /** The header part of SaveRecordingToFile: the RIFF header, the fmt chunk and the data chunk's
      header, written field by field into the freshly created file. */
  method WriteRecordingHeader(fileStream: ByteStream, sampleCount: nat, channels: Int32, frequency: Int32)
    requires fileStream.contents == []
    modifies fileStream
    ensures fileStream.contents == HeaderBytes(RecordingHeader(sampleCount, channels, frequency))
  {
    var headerSize := 44;
    var riffTag, waveTag, fmtTag, dataTag := Ascii("RIFF"), Ascii("WAVE"), Ascii("fmt "), Ascii("data");
    var riffSize := Int32Bytes(Wrap32(headerSize + sampleCount * 2 - 8));
    var byteRate := Int32Bytes(Wrap32(frequency * channels * 2));
    var blockAlign := UInt16Bytes(ToUInt16(Wrap32(channels * 2)));
    var dataSize := Int32Bytes(Wrap32(sampleCount * 2));

    // RIFF header
    fileStream.Write(riffTag, 0, 4);
    assert fileStream.contents == riffTag;
    fileStream.Write(riffSize, 0, 4);
    fileStream.Write(waveTag, 0, 4);

    // fmt chunk
    fileStream.Write(fmtTag, 0, 4);
    fileStream.Write(Int32Bytes(16), 0, 4);                  // Subchunk1Size
    fileStream.Write(UInt16Bytes(1), 0, 2);                  // AudioFormat
    fileStream.Write(UInt16Bytes(ToUInt16(channels)), 0, 2); // NumChannels
    fileStream.Write(Int32Bytes(frequency), 0, 4);           // SampleRate
    fileStream.Write(byteRate, 0, 4);                        // ByteRate
    fileStream.Write(blockAlign, 0, 2);                      // BlockAlign
    fileStream.Write(UInt16Bytes(16), 0, 2);                 // BitsPerSample

    // data chunk
    fileStream.Write(dataTag, 0, 4);
    fileStream.Write(dataSize, 0, 4);
    RecordingHeaderWrites(sampleCount, channels, frequency);
  }

  /** Writes the clip's interleaved samples as a 16-bit PCM WAV file and returns what the file
      holds: the header, then one `short` per sample in the order of the buffer. */
  method SaveRecordingToFile(samples: seq<real>, channels: Int32, frequency: Int32)
    returns (file: seq<byte>)
    requires AllInUnitRange(samples)
    ensures file == RecordingBytes(samples, channels, frequency)
  {
    ghost var h := RecordingHeader(|samples|, channels, frequency);
    ghost var q := QuantizeAllUnclamped(samples);
    var fileStream := new ByteStream();
    var sampleCount := |samples|;
    WriteRecordingHeader(fileStream, sampleCount, channels, frequency);

    // Write sample data
    for i := 0 to |samples|
      invariant fileStream.contents == HeaderBytes(h) + PcmBytes(q[..i])
    {
      var intData := QuantizeUnclamped(samples[i]);
      var bytesData := Int16Bytes(intData);
      fileStream.Write(bytesData, 0, |bytesData|);
      assert intData == q[i];
      assert q[..i + 1][..i] == q[..i];
      assert PcmBytes(q[..i + 1]) == PcmBytes(q[..i]) + bytesData;
    }
    assert q[..|samples|] == q;
    file := fileStream.contents;
  }

  /** Below the 32-bit limits every header field SaveRecordingToFile writes has its exact value:
      the RIFF size 44 + 2n - 8 = 36 + 2n, the data size 2n, the byte rate frequency * channels * 2
      and the block align channels * 2. */
  lemma RecordingHeaderValues(n: nat, channels: Int32, frequency: Int32)
    requires 36 + 2 * n < TwoTo32
    requires 0 <= channels < 0x8000 && 0 <= frequency
    requires frequency * channels * 2 < TwoTo32
    ensures var h := RecordingHeader(n, channels, frequency);
            && CanonicalPcm16(h, HeaderSize + 2 * n)
            && h.riffSize == 36 + 2 * n
            && h.dataSize == 2 * n
            && h.numChannels == channels
            && h.sampleRate == frequency
            && h.byteRate == frequency * channels * 2
            && h.blockAlign == channels * 2
  {
    var h := RecordingHeader(n, channels, frequency);
    MulNonNegative(frequency, channels);
    CanonicalOfFields(h, n);
  }

  /** Below the 32-bit limits, the written file is a canonical 16-bit PCM WAV file of length
      44 + 2n that reads back as the recording's header and its quantised samples in their
      original interleaved order. */
  lemma RecordingIsCanonical(samples: seq<real>, channels: Int32, frequency: Int32)
    requires AllInUnitRange(samples)
    requires 36 + 2 * |samples| < TwoTo32
    requires 0 <= channels < 0x8000 && 0 <= frequency
    requires frequency * channels * 2 < TwoTo32
    ensures var file := RecordingBytes(samples, channels, frequency);
            var h := RecordingHeader(|samples|, channels, frequency);
            && |file| == HeaderSize + 2 * |samples|
            && CanonicalPcm16(h, |file|)
            && ReadWav(file) == Some(WavFile(h, QuantizeAllUnclamped(samples)))
  {
    var h := RecordingHeader(|samples|, channels, frequency);
    RecordingHeaderValues(|samples|, channels, frequency);
    ReadWavBytes(WavFile(h, QuantizeAllUnclamped(samples)));
  }

  /** Decoding the written file's data chunk and dividing by short.MaxValue gives back every
      sample, in order, to within one quantisation step 1/32767. */
  lemma RecordingReadsBackWithinOneStep(samples: seq<real>, channels: Int32, frequency: Int32)
    requires AllInUnitRange(samples)
    requires 2 * |samples| < TwoTo32
    ensures var w := ReadWav(RecordingBytes(samples, channels, frequency));
            && w.Some? && |w.value.samples| == |samples|
            && forall k :: 0 <= k < |samples| ==>
                 -1.0 / 32767.0 < w.value.samples[k] as real / 32767.0 - samples[k] < 1.0 / 32767.0
  {
    var h := RecordingHeader(|samples|, channels, frequency);
    var q := QuantizeAllUnclamped(samples);
    Mod32Small(2 * |samples|);
    assert RecordingBytes(samples, channels, frequency) == WavBytes(WavFile(h, q));
    ReadWavBytes(WavFile(h, q));
    forall k | 0 <= k < |samples|
      ensures -1.0 / 32767.0 < q[k] as real / 32767.0 - samples[k] < 1.0 / 32767.0
    {
      QuantizedWithinOneStep(samples[k]);
    }
  }

  /** All multi-byte fields are little-endian: a 44100 Hz recording carries 0x44 0xAC 0x00 0x00
      at offsets 24 to 27. */
  lemma RecordingSampleRateBytes(samples: seq<real>)
    requires AllInUnitRange(samples)
    ensures RecordingBytes(samples, 1, 44100)[24..28] == [0x44, 0xAC, 0x00, 0x00]
  {
    var b := RecordingBytes(samples, 1, 44100);
    assert U32(b[24..28]) == 44100;
    U32RoundTrip(b[24..28]);
    SampleRate44100Bytes();
  }

  /** The little-endian bytes of 44100. */
  lemma SampleRate44100Bytes()
    ensures LE32(44100) == [0x44, 0xAC, 0x00, 0x00]
  {
  }

  // ---------------------------------------------------------------------------------------
  // LoadCSV

  /** One row of the trial table. */
  datatype Trial = Trial(task: string, objectName: string, verbIng: string, affordance: string,
                         handCondition: string)

  /** The trial a line of the table yields: its trimmed text split on commas, when that gives at
      least five fields; the first five, in order, are the trial's fields. */
  function ParseLine(line: string): (r: Option<Trial>)
    ensures line == [] ==> r.None?
    ensures r.Some? ==> && ',' !in r.value.task && ',' !in r.value.objectName && ',' !in r.value.verbIng
                        && ',' !in r.value.affordance && ',' !in r.value.handCondition
  {
    SplitAvoids(Trim(line), ',');
    var parts := Split(Trim(line), ',');
    if |parts| < 5 then None else Some(Trial(parts[0], parts[1], parts[2], parts[3], parts[4]))
  }

  /** The trials one line contributes: none, or the one it parses to. */
  function LineTrials(line: string): seq<Trial>
  {
    match ParseLine(line)
    case None => []
    case Some(t) => [t]
  }

  /** The trials of a sequence of table lines, in line order. */
  function TrialsOfLines(lines: seq<string>): seq<Trial>
  {
    if lines == [] then [] else TrialsOfLines(lines[..|lines| - 1]) + LineTrials(lines[|lines| - 1])
  }

  /** The trials of a table: every line after the first (the column header). */
  function ParseTrials(text: string): (r: seq<Trial>)
    ensures |r| < |Split(text, '\n')|
  {
    TrialsComeFromLines(Split(text, '\n')[1..]);
    TrialsOfLines(Split(text, '\n')[1..])
  }

  /** The state of the trial manager that LoadCSV fills. */
  class TrialManager {
    var trials: seq<Trial>

    constructor ()
      ensures trials == []
    {
      trials := [];
    }

    /** Replaces the trial list by the trials of the table text. */
    method LoadCSV(text: string)
      modifies this
      ensures trials == ParseTrials(text)
    {
      trials := [];
      var lines := Split(text, '\n');
      for i := 1 to |lines|
        invariant trials == TrialsOfLines(lines[1..i])
      {
        ghost var next := lines[1..i + 1];
        assert next[..|next| - 1] == lines[1..i] && next[|next| - 1] == lines[i];
        assert TrialsOfLines(next) == trials + LineTrials(lines[i]);
        var parts := Split(Trim(lines[i]), ',');
        if |parts| < 5 {
          continue;
        }
        trials := trials + [Trial(parts[0], parts[1], parts[2], parts[3], parts[4])];
      }
      assert lines[1..|lines|] == lines[1..];
    }
  }

  /** The lines of a table are parsed independently of each other. */
  lemma {:induction false} TrialsOfLinesAppend(a: seq<string>, b: seq<string>)
    ensures TrialsOfLines(a + b) == TrialsOfLines(a) + TrialsOfLines(b)
  {
    if b != [] {
      var init := b[..|b| - 1];
      TrialsOfLinesAppend(a, init);
      assert (a + b)[..|a + b| - 1] == a + init;
      assert (a + b)[|a + b| - 1] == b[|b| - 1];
    } else {
      assert a + b == a;
    }
  }

  /** No trial is invented: there are at most as many trials as lines, and each trial is the
      parse of one of the lines. */
  lemma {:induction false} TrialsComeFromLines(lines: seq<string>)
    ensures |TrialsOfLines(lines)| <= |lines|
    ensures forall k :: 0 <= k < |TrialsOfLines(lines)| ==>
              exists j :: 0 <= j < |lines| && ParseLine(lines[j]) == Some(TrialsOfLines(lines)[k])
  {
    if lines != [] {
      var init := lines[..|lines| - 1];
      var last := lines[|lines| - 1];
      var prev := TrialsOfLines(init);
      TrialsComeFromLines(init);
      var r := TrialsOfLines(lines);
      assert r == prev + LineTrials(last);
      forall k | 0 <= k < |r|
        ensures exists j :: 0 <= j < |lines| && ParseLine(lines[j]) == Some(r[k])
      {
        if k < |prev| {
          var j :| 0 <= j < |init| && ParseLine(init[j]) == Some(prev[k]);
          assert lines[j] == init[j];
        } else {
          assert ParseLine(lines[|lines| - 1]) == Some(r[k]);
        }
      }
    }
  }

  /** A line with fewer than five fields contributes nothing, wherever it stands. */
  lemma ShortLineDropped(a: seq<string>, line: string, b: seq<string>)
    requires |Split(Trim(line), ',')| < 5
    ensures TrialsOfLines(a + [line] + b) == TrialsOfLines(a + b)
  {
    SingleLine(line);
    calc {
      TrialsOfLines(a + [line] + b);
      { TrialsOfLinesAppend(a + [line], b); }
      TrialsOfLines(a + [line]) + TrialsOfLines(b);
      { TrialsOfLinesAppend(a, [line]); }
      TrialsOfLines(a) + TrialsOfLines(b);
      { TrialsOfLinesAppend(a, b); }
      TrialsOfLines(a + b);
    }
  }

  lemma SingleLine(line: string)
    ensures TrialsOfLines([line]) == LineTrials(line)
  {
    assert [line][..0] == [];
  }

  /** A line made of comma-free fields and without white space at its ends yields the trial of
      its first five fields, and nothing when it has fewer than five. */
  lemma ParseLineOfFields(fields: seq<string>)
    requires |fields| >= 1
    requires forall i :: 0 <= i < |fields| ==> ',' !in fields[i]
    requires Trimmed(Join(fields, ','))
    ensures ParseLine(Join(fields, ',')) ==
            if |fields| < 5 then None
            else Some(Trial(fields[0], fields[1], fields[2], fields[3], fields[4]))
  {
    TrimIdentity(Join(fields, ','));
    SplitJoin(fields, ',');
  }

  /** The line a trial is written as in the table: its five fields joined by commas. */
  function TrialLine(t: Trial): string
  {
    Join([t.task, t.objectName, t.verbIng, t.affordance, t.handCondition], ',')
  }

  /** A trial whose fields hold no comma or newline and whose line has no white space at its ends. */
  predicate Writable(t: Trial)
  {
    && (forall s | s in [t.task, t.objectName, t.verbIng, t.affordance, t.handCondition] ::
          ',' !in s && '\n' !in s)
    && Trimmed(TrialLine(t))
  }

  /** One line per trial, in order. */
  function TrialLines(trials: seq<Trial>): (lines: seq<string>)
    ensures |lines| == |trials|
  {
    seq(|trials|, i requires 0 <= i < |trials| => TrialLine(trials[i]))
  }

  /** The text of a table: a header line, then one line per trial. */
  function TableText(header: string, trials: seq<Trial>): string
  {
    Join([header] + TrialLines(trials), '\n')
  }

  /** Joining pieces without c on a separator other than c gives a string without c. */
  lemma {:induction false} JoinAvoids(parts: seq<string>, sep: char, c: char)
    requires |parts| >= 1 && c != sep
    requires forall i :: 0 <= i < |parts| ==> c !in parts[i]
    ensures c !in Join(parts, sep)
  {
    if |parts| > 1 {
      JoinAvoids(parts[1..], sep, c);
    }
  }

  /** The line of a writable trial parses back to that trial. */
  lemma TrialLineParses(t: Trial)
    requires Writable(t)
    ensures LineTrials(TrialLine(t)) == [t]
  {
    var fields := [t.task, t.objectName, t.verbIng, t.affordance, t.handCondition];
    assert forall i :: 0 <= i < |fields| ==> fields[i] in fields;
    ParseLineOfFields(fields);
  }


  /** Lines each of which yields one given trial yield those trials, in order. */
  lemma {:induction false} TrialsOfParsingLines(lines: seq<string>, trials: seq<Trial>)
    requires |lines| == |trials|
    requires forall i :: 0 <= i < |lines| ==> LineTrials(lines[i]) == [trials[i]]
    ensures TrialsOfLines(lines) == trials
  {
    if lines != [] {
      var n := |lines| - 1;
      TrialsOfParsingLines(lines[..n], trials[..n]);
      assert trials == trials[..n] + [trials[n]];
    }
  }


  /** The lines of writable trials parse back to those trials, in order. */
  lemma TrialsOfTrialLines(trials: seq<Trial>)
    requires forall i :: 0 <= i < |trials| ==> Writable(trials[i])
    ensures TrialsOfLines(TrialLines(trials)) == trials
  {
    var lines := TrialLines(trials);
    forall i | 0 <= i < |lines|
      ensures LineTrials(lines[i]) == [trials[i]]
    {
      TrialLineParses(trials[i]);
    }
    TrialsOfParsingLines(lines, trials);
  }

  /** Writing trials as a table after any header line and loading it gives the trials back:
      the first line is skipped, each line yields its trial's fields in order, and the trials
      keep their order. */
  lemma ParseTrialsOfTable(header: string, trials: seq<Trial>)
    requires '\n' !in header
    requires forall i :: 0 <= i < |trials| ==> Writable(trials[i])
    ensures ParseTrials(TableText(header, trials)) == trials
  {
    var lines := TrialLines(trials);
    forall i | 0 <= i < |lines|
      ensures '\n' !in lines[i]
    {
      var t := trials[i];
      var fields := [t.task, t.objectName, t.verbIng, t.affordance, t.handCondition];
      assert forall k :: 0 <= k < |fields| ==> fields[k] in fields;
      JoinAvoids(fields, ',', '\n');
    }
    var all := [header] + lines;
    assert forall i :: 0 <= i < |all| ==> '\n' !in all[i];
    SplitJoin(all, '\n');
    assert all[1..] == lines;
    TrialsOfTrialLines(trials);
  }

  // ---------------------------------------------------------------------------------------
  // RandomRotationForAffordance

  datatype Vector3 = Vector3(x: real, y: real, z: real)

  const Zero: Vector3 := Vector3(0.0, 0.0, 0.0)

  /** The Euler rotation an object is shown at for an affordance condition. */
  function RandomRotationForAffordance(affordance: string): (r: Vector3)
    ensures r in {Zero, Vector3(0.0, 90.0, 0.0), Vector3(0.0, 180.0, 0.0), Vector3(90.0, 0.0, 0.0)}
    ensures r != Zero <==> affordance in {"bad1", "bad2", "bad3"}
  {
    if affordance == "good" then Zero
    else if affordance == "bad1" then Vector3(0.0, 90.0, 0.0)
    else if affordance == "bad2" then Vector3(0.0, 180.0, 0.0)
    else if affordance == "bad3" then Vector3(90.0, 0.0, 0.0)
    else Zero
  }

  // ---------------------------------------------------------------------------------------
  // FamiliarizationPhase

  /** trials[i] is the first trial that names its object. */
  predicate FirstOfName(trials: seq<Trial>, i: nat)
    requires i < |trials|
  {
    forall j :: 0 <= j < i ==> trials[j].objectName != trials[i].objectName
  }

  /** The trials among trials[..n] shown in the familiarisation phase, in order: those that are
      the first of their object name and whose object has a prefab. */
  function Familiarization(trials: seq<Trial>, hasPrefab: string -> bool, n: nat): (r: seq<Trial>)
    requires n <= |trials|
    ensures |r| <= n
  {
    if n == 0 then []
    else
      Familiarization(trials, hasPrefab, n - 1)
      + if FirstOfName(trials, n - 1) && hasPrefab(trials[n - 1].objectName) then [trials[n - 1]] else []
  }

  /** The loop of the familiarisation phase: the trials whose object is shown, in order. A name is
      added to the seen set only after its object was shown, so a name without a prefab stays
      unseen and is looked up again at its next occurrence. */
  method FamiliarizationPhase(trials: seq<Trial>, hasPrefab: string -> bool) returns (shown: seq<Trial>)
    ensures shown == Familiarization(trials, hasPrefab, |trials|)
  {
    var seenObjects: set<string> := {};
    shown := [];
    for i := 0 to |trials|
      invariant shown == Familiarization(trials, hasPrefab, i)
      invariant seenObjects == set j | 0 <= j < i && hasPrefab(trials[j].objectName) :: trials[j].objectName
    {
      var trial := trials[i];
      if trial.objectName in seenObjects {
        continue;
      }
      if !hasPrefab(trial.objectName) {
        continue;
      }
      shown := shown + [trial];
      seenObjects := seenObjects + {trial.objectName};
    }
  }

  /** The object names of a sequence of trials. */
  function Names(ts: seq<Trial>): set<string>
  {
    set k | 0 <= k < |ts| :: ts[k].objectName
  }

  /** The object names among trials[..n] that have a prefab. */
  function PrefabNames(trials: seq<Trial>, hasPrefab: string -> bool, n: nat): set<string>
    requires n <= |trials|
  {
    set j | 0 <= j < n && hasPrefab(trials[j].objectName) :: trials[j].objectName
  }

  /** Appending a trial adds its name to the names of a sequence. */
  lemma NamesSnoc(ts: seq<Trial>, t: Trial)
    ensures Names(ts + [t]) == Names(ts) + {t.objectName}
  {
    var u := ts + [t];
    forall x | x in Names(u)
      ensures x in Names(ts) + {t.objectName}
    {
      var k :| 0 <= k < |u| && u[k].objectName == x;
      if k < |ts| {
        assert u[k] == ts[k];
      }
    }
    forall x | x in Names(ts) + {t.objectName}
      ensures x in Names(u)
    {
      if x in Names(ts) {
        var k :| 0 <= k < |ts| && ts[k].objectName == x;
        assert u[k] == ts[k];
      } else {
        assert u[|ts|] == t;
      }
    }
  }

  /** One more trial adds its name to the prefab names when its object has a prefab. */
  lemma PrefabNamesStep(trials: seq<Trial>, hasPrefab: string -> bool, n: nat)
    requires 0 < n <= |trials|
    ensures var t := trials[n - 1];
            PrefabNames(trials, hasPrefab, n)
            == PrefabNames(trials, hasPrefab, n - 1) + (if hasPrefab(t.objectName) then {t.objectName} else {})
  {
    var t := trials[n - 1];
    var before := PrefabNames(trials, hasPrefab, n - 1);
    forall x | x in PrefabNames(trials, hasPrefab, n)
      ensures x in before || (hasPrefab(t.objectName) && x == t.objectName)
    {
      var j :| 0 <= j < n && hasPrefab(trials[j].objectName) && trials[j].objectName == x;
      if j < n - 1 {
        assert x in before;
      }
    }
  }

  /** Familiarisation shows only trials of the list whose object has a prefab, shows each object
      name at most once, and shows every name of the list whose object has a prefab. */
  lemma {:induction false} FamiliarizationShowsEachNameOnce(trials: seq<Trial>, hasPrefab: string -> bool, n: nat)
    requires n <= |trials|
    ensures var r := Familiarization(trials, hasPrefab, n);
            && (forall k :: 0 <= k < |r| ==> r[k] in trials[..n] && hasPrefab(r[k].objectName))
            && (forall a, b :: 0 <= a < b < |r| ==> r[a].objectName != r[b].objectName)
            && Names(r) == PrefabNames(trials, hasPrefab, n)
  {
    if n > 0 {
      FamiliarizationShowsEachNameOnce(trials, hasPrefab, n - 1);
      var prev := Familiarization(trials, hasPrefab, n - 1);
      var r := Familiarization(trials, hasPrefab, n);
      var t := trials[n - 1];
      assert trials[..n - 1] == trials[..n][..n - 1];
      PrefabNamesStep(trials, hasPrefab, n);
      if FirstOfName(trials, n - 1) && hasPrefab(t.objectName) {
        assert r == prev + [t];
        NamesSnoc(prev, t);
        forall k | 0 <= k < |prev|
          ensures prev[k].objectName != t.objectName
        {
          var j :| 0 <= j < n - 1 && trials[j] == prev[k];
        }
      } else {
        assert r == prev;
        if hasPrefab(t.objectName) {
          var j :| 0 <= j < n - 1 && trials[j].objectName == t.objectName;
          assert t.objectName in PrefabNames(trials, hasPrefab, n - 1);
        }
      }
    }
  }
}
