/** The MP3 writer: encoder configuration, the bitrate table, pairing of
    samples into stereo frames, and the final flush. The LAME library and
    the file system appear as the outcomes of each call. */
module LameWriter {
  import opened Base
  import opened Errors
  import opened Pairing

  /** The constant bitrates the encoder offers, in kbit/s. */
  const BitrateTable: seq<nat> := [64, 80, 96, 128, 160, 192, 256, 320]
  const DefaultKbps: nat := 192

  /** `get_bitrate`: the whole number of kbit/s if it is in the table, and
      192 kbit/s for anything else. */
  function GetBitrate(bitrate: nat): (kbps: nat)
    ensures kbps in BitrateTable
    ensures bitrate / 1000 in BitrateTable ==> kbps == bitrate / 1000
    ensures bitrate / 1000 !in BitrateTable ==> kbps == DefaultKbps
  {
    match bitrate / 1000
    case 64 => 64
    case 80 => 80
    case 96 => 96
    case 128 => 128
    case 160 => 160
    case 192 => 192
    case 256 => 256
    case 320 => 320
    case _ => 192
  }

  /** Every rate of the table, given in bit/s, is chosen as itself. */
  lemma GetBitrateKeepsTableRates(kbps: nat)
    requires kbps in BitrateTable
    ensures GetBitrate(kbps * 1000) == kbps
  {
  }

  /** What the encoder is configured with. The channel count goes through
      `as u8`. */
  datatype LameConfig = LameConfig(channels: nat, sampleRate: nat, kbps: nat)

  /** The outcome of each configuration call, in call order: `None` on
      success or the error's message. */
  datatype LameEnv = LameEnv(
    builderAvailable: bool,
    setChannels: nat -> Option<string>, setSampleRate: nat -> Option<string>,
    setBrate: nat -> Option<string>, setQuality: Option<string>, build: Option<string>,
    createFile: Path -> Option<string>)

  datatype LameFileWriter = LameFileWriter(config: LameConfig, path: Path, paired: Paired)

  const NoEncoderMessage: string := "Unable to create LAME encoder"

  /** The first failing configuration step's message, in the order the
      constructor makes the calls. */
  function FirstFailure(channels: nat, sampleRate: nat, bitrate: nat, path: Path, env: LameEnv): Option<string>
  {
    if env.setChannels(channels % 256).Some? then env.setChannels(channels % 256)
    else if env.setSampleRate(sampleRate).Some? then env.setSampleRate(sampleRate)
    else if env.setBrate(GetBitrate(bitrate)).Some? then env.setBrate(GetBitrate(bitrate))
    else if env.setQuality.Some? then env.setQuality
    else if env.build.Some? then env.build
    else env.createFile(path)
  }

  /** `LameFileWriter::new`. */
  function NewLame(channels: nat, sampleRate: nat, bitrate: nat, path: Path, env: LameEnv)
    : (r: Result<LameFileWriter, MIDIRendererError>)
    ensures !env.builderAvailable ==> r == Err(Writer(NoEncoderMessage))
    ensures r.Err? ==> r.error.Writer?
    ensures r.Ok? <==> env.builderAvailable && FirstFailure(channels, sampleRate, bitrate, path, env).None?
    ensures env.builderAvailable && FirstFailure(channels, sampleRate, bitrate, path, env).Some? ==>
      r == Err(Writer(FirstFailure(channels, sampleRate, bitrate, path, env).value))
    ensures r.Ok? ==>
      && r.value.paired == EmptyPaired
      && r.value.config == LameConfig(channels % 256, sampleRate, GetBitrate(bitrate)) && r.value.path == path
  {
    if !env.builderAvailable then Err(Writer(NoEncoderMessage))
    else match FirstFailure(channels, sampleRate, bitrate, path, env)
      case Some(msg) => Err(Writer(msg))
      case None => Ok(LameFileWriter(LameConfig(channels % 256, sampleRate, GetBitrate(bitrate)), path, EmptyPaired))
  }

  /** `write_sample`: one frame is encoded (and written) per pair of samples.
      With no sample cached the sample is cached; with c cached, the frame
      (c, sample) goes to the encoder and the cache empties; an encoder or
      file error is returned and leaves the writer as it was. The
      configuration and the path never change. */
  function WriteSample(w: LameFileWriter, sample: real, sink: FrameSink): (r: (Result<(), MIDIRendererError>, LameFileWriter))
    ensures r.1.config == w.config && r.1.path == w.path
    ensures w.paired.cache.None? ==> r.0.Ok? && r.1.paired == Paired(Some(sample), w.paired.frames)
    ensures w.paired.cache.Some? && sink(w.paired.frames, Frame(w.paired.cache.value, sample)).None? ==>
      r.0.Ok? && r.1.paired == Paired(None, w.paired.frames + [Frame(w.paired.cache.value, sample)])
    ensures w.paired.cache.Some? && sink(w.paired.frames, Frame(w.paired.cache.value, sample)).Some? ==>
      r.0 == Err(Writer(sink(w.paired.frames, Frame(w.paired.cache.value, sample)).value)) && r.1 == w
  {
    var p := Pairing.WriteSample(w.paired, sample, sink);
    (p.0, w.(paired := p.1))
  }

  /** A block written sample by sample through `WriteSample`, stopping at
      the first error: the samples pair up exactly as `Pairing.WriteSamples`
      pairs them, and the configuration and path are kept. */
  function WriteSamples(w: LameFileWriter, samples: seq<real>, sink: FrameSink)
    : (r: (Result<(), MIDIRendererError>, LameFileWriter))
    ensures r.1.config == w.config && r.1.path == w.path
    ensures var p := Pairing.WriteSamples(w.paired, samples, sink); r.0 == p.0 && r.1.paired == p.1
    decreases |samples|
  {
    if |samples| == 0 then (Ok(()), w)
    else
      var a := WriteSample(w, samples[0], sink);
      if a.0.Err? then a else WriteSamples(a.1, samples[1..], sink)
  }

  /** `finalize`: the flush outcome, then the file write outcome; a held-back
      sample is never encoded. */
  function Finalize(w: LameFileWriter, flush: Option<string>, write: Option<string>)
    : (r: (Result<(), MIDIRendererError>, seq<Frame>))
    ensures r.1 == w.paired.frames
    ensures r.0.Ok? <==> flush.None? && write.None?
    ensures flush.Some? ==> r.0 == Err(Writer(flush.value))
    ensures flush.None? && write.Some? ==> r.0 == Err(Writer(write.value))
  {
    Pairing.Finalize(w.paired, if flush.Some? then flush else write)
  }
}
