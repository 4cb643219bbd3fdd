/** The WAV writer: the sample format chosen at construction decides both
    the file's spec and how each sample is converted. */
module PcmWriter {
  import opened Base
  import opened Errors
  import opened Settings

  datatype SampleFormat = Int | Float

  datatype WavSpec = WavSpec(channels: nat, sampleRate: nat, bitsPerSample: nat, sampleFormat: SampleFormat)

  /** A sample as it is written to the file. */
  datatype PcmSample = I16(i: int) | F32(f: real)

  /** File creation, per-sample write and finalize outcomes: `None` on
      success or the error's message. */
  datatype PcmEnv = PcmEnv(
    create: (Path, WavSpec) -> Option<string>,
    write: (seq<PcmSample>, PcmSample) -> Option<string>,
    finalize: seq<PcmSample> -> Option<string>)

  datatype PcmFileWriter = PcmFileWriter(spec: WavSpec, format: PCMSampleFormat, path: Path, written: seq<PcmSample>)

  /** The spec for a format: 16-bit integer or 32-bit float samples, with the
      channel count and sample rate passed through unchanged. */
  function SpecFor(channels: nat, sampleRate: nat, format: PCMSampleFormat): (s: WavSpec)
    ensures format.Int16? ==> s.bitsPerSample == 16 && s.sampleFormat == Int
    ensures format.Float32? ==> s.bitsPerSample == 32 && s.sampleFormat == Float
    ensures s.channels == channels && s.sampleRate == sampleRate
  {
    match format
    case Int16 => WavSpec(channels, sampleRate, 16, Int)
    case Float32 => WavSpec(channels, sampleRate, 32, Float)
  }

  /** The spec determines the sample format it was made for. */
  lemma SpecForInjective(channels: nat, sampleRate: nat, f: PCMSampleFormat, g: PCMSampleFormat)
    requires SpecFor(channels, sampleRate, f) == SpecFor(channels, sampleRate, g)
    ensures f == g
  {
  }

  /** `PCMFileWriter::new`. */
  function NewPcm(channels: nat, sampleRate: nat, format: PCMSampleFormat, path: Path, env: PcmEnv)
    : (r: Result<PcmFileWriter, MIDIRendererError>)
    ensures env.create(path, SpecFor(channels, sampleRate, format)).Some? ==>
      r == Err(Writer(env.create(path, SpecFor(channels, sampleRate, format)).value))
    ensures env.create(path, SpecFor(channels, sampleRate, format)).None? ==>
      r == Ok(PcmFileWriter(SpecFor(channels, sampleRate, format), format, path, []))
  {
    var spec := SpecFor(channels, sampleRate, format);
    match env.create(path, spec)
    case Some(msg) => Err(Writer(msg))
    case None => Ok(PcmFileWriter(spec, format, path, []))
  }

  /** The 16-bit value for a sample: `(sample * i16::MAX) as i16`. */
  function ToI16(sample: real): (n: int)
    ensures -32768 <= n <= 32767
    ensures -1.0 <= sample <= 1.0 ==> -32767 <= n <= 32767 && -1.0 < sample * 32767.0 - n as real < 1.0
    ensures sample >= 0.0 ==> 0 <= n && n as real <= sample * 32767.0
    ensures sample <= 0.0 ==> n <= 0 && sample * 32767.0 <= n as real
    ensures sample >= 1.0 ==> n == 32767
    ensures sample * 32767.0 <= -32768.0 ==> n == -32768
  {
    TruncToI16(sample * 32767.0)
  }

  /** The conversion keeps the order of samples (louder never becomes quieter). */
  lemma ToI16Monotone(a: real, b: real)
    requires a <= b
    ensures ToI16(a) <= ToI16(b)
  {
    var x := a * 32767.0;
    var y := b * 32767.0;
    assert x <= y;
    if x >= 0.0 {
      assert x.Floor <= y.Floor;
    } else if y >= 0.0 {
    } else {
      assert (-y).Floor <= (-x).Floor;
    }
  }

  /** The converted sample for the writer's format: Int16 goes through
      `ToI16`, Float32 is unchanged. */
  function Converted(format: PCMSampleFormat, sample: real): (s: PcmSample)
    ensures format.Int16? ==> s == I16(ToI16(sample))
    ensures format.Float32? ==> s == F32(sample)
  {
    match format
    case Int16 => I16(ToI16(sample))
    case Float32 => F32(sample)
  }

  /** `write_sample`: the converted sample is written; a write error becomes
      a writer error and nothing is recorded. */
  function WriteSample(w: PcmFileWriter, sample: real, env: PcmEnv): (r: (Result<(), MIDIRendererError>, PcmFileWriter))
    ensures var s := Converted(w.format, sample);
      && (env.write(w.written, s).None? ==> r == (Ok(()), w.(written := w.written + [s])))
      && (env.write(w.written, s).Some? ==> r == (Err(Writer(env.write(w.written, s).value)), w))
  {
    var s := Converted(w.format, sample);
    match env.write(w.written, s)
    case None => (Ok(()), w.(written := w.written + [s]))
    case Some(msg) => (Err(Writer(msg)), w)
  }

  /** Writes a block sample by sample, stopping at the first error. */
  function WriteSamples(w: PcmFileWriter, samples: seq<real>, env: PcmEnv): (r: (Result<(), MIDIRendererError>, PcmFileWriter))
    ensures |r.1.written| <= |w.written| + |samples|
    ensures |r.1.written| >= |w.written| && r.1.written[..|w.written|] == w.written
    ensures r.0.Ok? ==> |r.1.written| == |w.written| + |samples|
    ensures r.0.Ok? ==> forall i :: 0 <= i < |samples| ==> r.1.written[|w.written| + i] == Converted(w.format, samples[i])
    ensures r.1.spec == w.spec && r.1.format == w.format && r.1.path == w.path
    decreases |samples|
  {
    if |samples| == 0 then (Ok(()), w)
    else
      var a := WriteSample(w, samples[0], env);
      if a.0.Err? then a
      else
        var b := WriteSamples(a.1, samples[1..], env);
        assert forall i :: 1 <= i < |samples| ==> samples[1..][i - 1] == samples[i];
        b
  }

  /** `finalize`. */
  function Finalize(w: PcmFileWriter, env: PcmEnv): (r: Result<(), MIDIRendererError>)
    ensures env.finalize(w.written).None? <==> r.Ok?
    ensures env.finalize(w.written).Some? ==> r == Err(Writer(env.finalize(w.written).value))
  {
    match env.finalize(w.written)
    case None => Ok(())
    case Some(msg) => Err(Writer(msg))
  }
}
