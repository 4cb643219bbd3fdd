/** The Ogg Vorbis writer: parameter clamping at construction, pairing of
    samples into stereo blocks, and the final flush. */
module VorbisWriter {
  import opened Base
  import opened Errors
  import opened Pairing

  /** The lowest of the common sample rates, used as the encoder's floor. */
  const MinSampleRate: nat := 8000

  /** What the encoder is created with; the VBR target is the given bitrate. */
  datatype VorbisParams = VorbisParams(sampleRate: nat, channels: nat, targetBitrate: nat)

  /** File creation and encoder creation outcomes: `None` on success or the
      error's message. */
  datatype VorbisEnv = VorbisEnv(createFile: Path -> Option<string>, newEncoder: VorbisParams -> Option<string>)

  datatype VorbisFileWriter = VorbisFileWriter(params: VorbisParams, path: Path, paired: Paired)

  /** Construction either yields a writer, fails with an error, or panics
      (the `unwrap` of a zero bitrate). */
  datatype Created = Created(writer: VorbisFileWriter) | Failed(error: MIDIRendererError) | Panics

  function Max(a: nat, b: nat): nat
  {
    if a >= b then a else b
  }

  /** The encoder parameters: the sample rate raised to at least 8000, the
      channel count (through `as u8`) raised to at least 2, the bitrate as given. */
  function ParamsFor(channels: nat, sampleRate: nat, bitrate: nat): (p: VorbisParams)
    ensures p.sampleRate >= MinSampleRate && p.channels >= 2 && p.targetBitrate == bitrate
    ensures sampleRate >= MinSampleRate ==> p.sampleRate == sampleRate
    ensures sampleRate < MinSampleRate ==> p.sampleRate == MinSampleRate
    ensures channels % 256 >= 2 ==> p.channels == channels % 256
    ensures channels % 256 < 2 ==> p.channels == 2
  {
    VorbisParams(Max(sampleRate, MinSampleRate), Max(channels % 256, 2), bitrate)
  }

  /** `VorbisFileWriter::new`: the file is created first; then a zero bitrate
      panics; then the encoder is created. */
  function NewVorbis(channels: nat, sampleRate: nat, bitrate: nat, path: Path, env: VorbisEnv): (r: Created)
    ensures env.createFile(path).Some? ==> r == Failed(Writer(env.createFile(path).value))
    ensures env.createFile(path).None? && bitrate == 0 ==> r.Panics?
    ensures env.createFile(path).None? && bitrate > 0 ==>
      var p := ParamsFor(channels, sampleRate, bitrate);
      && (env.newEncoder(p).Some? ==> r == Failed(Writer(env.newEncoder(p).value)))
      && (env.newEncoder(p).None? ==> r == Created(VorbisFileWriter(p, path, EmptyPaired)))
    ensures r.Failed? ==> r.error.Writer?
  {
    match env.createFile(path)
    case Some(msg) => Failed(Writer(msg))
    case None =>
      if bitrate == 0 then Panics
      else
        var p := ParamsFor(channels, sampleRate, bitrate);
        match env.newEncoder(p)
        case Some(msg) => Failed(Writer(msg))
        case None => Created(VorbisFileWriter(p, path, EmptyPaired))
  }

  /** A writer that is created is never mono and never below 8000 Hz. */
  lemma CreatedParamsInRange(channels: nat, sampleRate: nat, bitrate: nat, path: Path, env: VorbisEnv)
    requires NewVorbis(channels, sampleRate, bitrate, path, env).Created?
    ensures var w := NewVorbis(channels, sampleRate, bitrate, path, env).writer;
      w.params.channels >= 2 && w.params.sampleRate >= MinSampleRate && w.params.targetBitrate == bitrate > 0
  {
  }

  /** `write_sample`: one block ([c], [sample]) is encoded per pair of
      samples. With no sample cached the sample is cached; with c cached,
      the block goes to the encoder and the cache empties; an encoder error
      is returned and leaves the writer as it was. The parameters and the
      path never change. */
  function WriteSample(w: VorbisFileWriter, sample: real, sink: FrameSink)
    : (r: (Result<(), MIDIRendererError>, VorbisFileWriter))
    ensures r.1.params == w.params && r.1.path == w.path
    ensures w.paired.cache.None? ==> r.0.Ok? && r.1.paired == Paired(Some(sample), w.paired.frames)
    ensures w.paired.cache.Some? && sink(w.paired.frames, Frame(w.paired.cache.value, sample)).None? ==>
      r.0.Ok? && r.1.paired == Paired(None, w.paired.frames + [Frame(w.paired.cache.value, sample)])
    ensures w.paired.cache.Some? && sink(w.paired.frames, Frame(w.paired.cache.value, sample)).Some? ==>
      r.0 == Err(Writer(sink(w.paired.frames, Frame(w.paired.cache.value, sample)).value)) && r.1 == w
  {
    var p := Pairing.WriteSample(w.paired, sample, sink);
    (p.0, w.(paired := p.1))
  }

  /** A block written sample by sample through `WriteSample`, stopping at
      the first error: the samples pair up exactly as `Pairing.WriteSamples`
      pairs them, and the parameters and path are kept. */
  function WriteSamples(w: VorbisFileWriter, samples: seq<real>, sink: FrameSink)
    : (r: (Result<(), MIDIRendererError>, VorbisFileWriter))
    ensures r.1.params == w.params && r.1.path == w.path
    ensures var p := Pairing.WriteSamples(w.paired, samples, sink); r.0 == p.0 && r.1.paired == p.1
    decreases |samples|
  {
    if |samples| == 0 then (Ok(()), w)
    else
      var a := WriteSample(w, samples[0], sink);
      if a.0.Err? then a else WriteSamples(a.1, samples[1..], sink)
  }

  /** `finalize`: the encoder is finished; a held-back sample is dropped. */
  function Finalize(w: VorbisFileWriter, finish: Option<string>): (r: (Result<(), MIDIRendererError>, seq<Frame>))
    ensures r.1 == w.paired.frames
    ensures r.0.Ok? <==> finish.None?
    ensures finish.Some? ==> r.0 == Err(Writer(finish.value))
  {
    Pairing.Finalize(w.paired, finish)
  }
}
