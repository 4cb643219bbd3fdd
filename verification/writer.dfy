/** The output file writer: the file name's extension and path, the choice
    of codec writer, DSP in front of the codec, and the stereo splitter. */
module Writer {
  import opened Base
  import opened Errors
  import opened Settings
  import opened Dsp
  import opened Pairing
  import opened PcmWriter
  import opened LameWriter
  import opened VorbisWriter

  /** The common sample rates; the lowest is the Vorbis encoder's floor. */
  const CommonSampleRates: seq<nat> :=
    [8000, 11025, 16000, 22050, 44100, 48000, 82200, 96000, 176400, 192000, 352800, 384000]

  const CommonBitrates: seq<nat> := [64000, 80000, 96000, 128000, 160000, 192000, 256000, 320000]

  /** The common bitrates are exactly the MP3 table, given in bit/s. */
  lemma CommonBitratesMatchTable()
    ensures |CommonBitrates| == |BitrateTable|
    ensures forall i :: 0 <= i < |CommonBitrates| ==> GetBitrate(CommonBitrates[i]) == BitrateTable[i]
    ensures CommonSampleRates[0] == VorbisWriter.MinSampleRate
  {
  }

  function Extension(f: OutputAudioFormat): (e: string)
    ensures f.Pcm? ==> e == ".wav"
    ensures f.Vorbis? ==> e == ".ogg"
    ensures f.Lame? ==> e == ".mp3"
  {
    match f
    case Pcm(_) => ".wav"
    case Vorbis(_) => ".ogg"
    case Lame(_) => ".mp3"
  }

  /** The output path: the directory joined with the file name, or the bare
      file name when no directory is set. */
  function OutputPath(dir: Option<Path>, name: string): (p: Path)
    ensures dir.Some? ==> p == Join(dir.value, name)
    ensures dir.None? ==> p == Path([name])
    ensures FileName(p) == (if name == ".." then None else Some(name))
  {
    match dir
    case Some(d) => Join(d, name)
    case None => Path([name])
  }

  datatype Codec = PcmCodec(pcm: PcmFileWriter) | LameCodec(lame: LameFileWriter) | VorbisCodec(vorbis: VorbisFileWriter)

  datatype FileWriter = FileWriter(codec: Codec, dsp: AudioDsp)

  /** Everything outside the model the writers talk to: the codec
      libraries' outcomes, the limiter, and the file system. */
  datatype WriterEnv = WriterEnv(
    pcm: PcmEnv, lame: LameEnv, vorbis: VorbisEnv, lameSink: FrameSink, vorbisSink: FrameSink, limiter: LimiterEngine)

  datatype Opened = Opened(writer: FileWriter) | OpenFailed(error: MIDIRendererError) | OpenPanics

  /** `ForteAudioFileWriter::new`: the extension is appended to the name, the
      codec writer follows the format with the settings' channel count and
      sample rate, its errors propagate unchanged, and the DSP is built from
      the settings. */
  function NewFileWriter(rs: RenderSettings, filename: string, env: WriterEnv): (r: Opened)
    ensures var path := OutputPath(rs.outputDir, filename + Extension(rs.audioFormat));
      var ch := rs.audioChannels; var sr := rs.sampleRate;
      && (rs.audioFormat.Pcm? ==>
            match NewPcm(ch, sr, rs.audioFormat.format, path, env.pcm)
            case Ok(w) => r.Opened? && r.writer.codec == PcmCodec(w)
            case Err(e) => r == OpenFailed(e))
      && (rs.audioFormat.Lame? ==>
            match NewLame(ch, sr, rs.audioFormat.bitrate, path, env.lame)
            case Ok(w) => r.Opened? && r.writer.codec == LameCodec(w)
            case Err(e) => r == OpenFailed(e))
      && (rs.audioFormat.Vorbis? ==>
            match NewVorbis(ch, sr, rs.audioFormat.bitrate, path, env.vorbis)
            case Created(w) => r.Opened? && r.writer.codec == VorbisCodec(w)
            case Failed(e) => r == OpenFailed(e)
            case Panics => r.OpenPanics?)
    ensures r.Opened? ==> r.writer.dsp == NewDsp(rs.audioChannels, rs.sampleRate, rs.dspSettings, env.limiter)
  {
    var path := OutputPath(rs.outputDir, filename + Extension(rs.audioFormat));
    var ch := rs.audioChannels;
    var sr := rs.sampleRate;
    var dsp := NewDsp(ch, sr, rs.dspSettings, env.limiter);
    match rs.audioFormat
    case Pcm(format) =>
      (match NewPcm(ch, sr, format, path, env.pcm)
       case Ok(w) => Opened(FileWriter(PcmCodec(w), dsp))
       case Err(e) => OpenFailed(e))
    case Lame(bitrate) =>
      (match NewLame(ch, sr, bitrate, path, env.lame)
       case Ok(w) => Opened(FileWriter(LameCodec(w), dsp))
       case Err(e) => OpenFailed(e))
    case Vorbis(bitrate) =>
      match NewVorbis(ch, sr, bitrate, path, env.vorbis)
      case Created(w) => Opened(FileWriter(VorbisCodec(w), dsp))
      case Failed(e) => OpenFailed(e)
      case Panics => OpenPanics
  }

  /** The codec writer's `write_samples`: sample by sample, stopping at the
      first error. */
  function CodecWrite(c: Codec, samples: seq<real>, env: WriterEnv): (r: (Result<(), MIDIRendererError>, Codec))
    ensures c.PcmCodec? ==>
      && r.1.PcmCodec? && r.1.pcm.spec == c.pcm.spec && r.1.pcm.path == c.pcm.path
      && |r.1.pcm.written| >= |c.pcm.written| && r.1.pcm.written[..|c.pcm.written|] == c.pcm.written
      && (r.0.Ok? ==> |r.1.pcm.written| == |c.pcm.written| + |samples|)
    ensures c.LameCodec? ==>
      && r.1.LameCodec? && r.1.lame.config == c.lame.config && r.1.lame.path == c.lame.path
      && |r.1.lame.paired.frames| >= |c.lame.paired.frames|
      && r.1.lame.paired.frames[..|c.lame.paired.frames|] == c.lame.paired.frames
    ensures c.VorbisCodec? ==>
      && r.1.VorbisCodec? && r.1.vorbis.params == c.vorbis.params && r.1.vorbis.path == c.vorbis.path
      && |r.1.vorbis.paired.frames| >= |c.vorbis.paired.frames|
      && r.1.vorbis.paired.frames[..|c.vorbis.paired.frames|] == c.vorbis.paired.frames
  {
    match c
    case PcmCodec(w) =>
      var a := PcmWriter.WriteSamples(w, samples, env.pcm);
      (a.0, PcmCodec(a.1))
    case LameCodec(w) =>
      var a := LameWriter.WriteSamples(w, samples, env.lameSink);
      (a.0, LameCodec(a.1))
    case VorbisCodec(w) =>
      var a := VorbisWriter.WriteSamples(w, samples, env.vorbisSink);
      (a.0, VorbisCodec(a.1))
  }

  /** `write_samples`: the block goes through the DSP first, and the codec
      writer receives the processed block. */
  method WriteSamples(w: FileWriter, samples: seq<real>, env: WriterEnv)
    returns (res: Result<(), MIDIRendererError>, w': FileWriter, processed: seq<real>)
    requires Valid(w.dsp)
    requires w.dsp.limiters.Some? && |samples| > 0 ==> w.dsp.channels > 0
    ensures |processed| == |samples|
    ensures w.dsp.limiters.None? ==> processed == samples && w'.dsp == w.dsp
    ensures w.dsp.limiters.Some? && w.dsp.channels > 0 ==>
      forall i :: 0 <= i < |samples| ==>
        processed[i] == env.limiter.output(w.dsp.sampleRate, w.dsp.settings,
          w.dsp.limiters.value[i % w.dsp.channels].seen + ChannelSamples(samples, i % w.dsp.channels, w.dsp.channels, i),
          samples[i])
    ensures (res, w'.codec) == CodecWrite(w.codec, processed, env)
    ensures Valid(w'.dsp)
  {
    var d;
    d, processed := Process(w.dsp, samples, env.limiter);
    var c := CodecWrite(w.codec, processed, env);
    res := c.0;
    w' := FileWriter(c.1, d);
  }

  /** The finalize outcomes of the three codec libraries. */
  datatype FinalizeEnv = FinalizeEnv(lameFlush: Option<string>, lameWrite: Option<string>, vorbisFinish: Option<string>)

  /** `finalize`: the codec writer's own finalize. */
  function Finalize(w: FileWriter, env: WriterEnv, fin: FinalizeEnv): (r: Result<(), MIDIRendererError>)
    ensures w.codec.PcmCodec? ==> r == PcmWriter.Finalize(w.codec.pcm, env.pcm)
    ensures w.codec.LameCodec? ==> r == LameWriter.Finalize(w.codec.lame, fin.lameFlush, fin.lameWrite).0
    ensures w.codec.VorbisCodec? ==> r == VorbisWriter.Finalize(w.codec.vorbis, fin.vorbisFinish).0
    ensures r.Err? ==> r.error.Writer?
  {
    match w.codec
    case PcmCodec(p) => PcmWriter.Finalize(p, env.pcm)
    case LameCodec(l) => LameWriter.Finalize(l, fin.lameFlush, fin.lameWrite).0
    case VorbisCodec(v) => VorbisWriter.Finalize(v, fin.vorbisFinish).0
  }

  /** `left` holds the even-index samples and `right` the odd-index ones,
      each in order. */
  predicate IsSplit(v: seq<real>, left: seq<real>, right: seq<real>)
  {
    && |left| == (|v| + 1) / 2 && |right| == |v| / 2
    && (forall i :: 0 <= i < |left| ==> left[i] == v[2 * i])
    && (forall i :: 0 <= i < |right| ==> right[i] == v[2 * i + 1])
  }

  /** `split_stereo`: each sample goes to the left list if its index is even
      and to the right list otherwise. */
  method SplitStereo(v: seq<real>) returns (left: seq<real>, right: seq<real>)
    ensures IsSplit(v, left, right)
    ensures |left| + |right| == |v|
  {
    left, right := [], [];
    for i := 0 to |v|
      invariant |left| == (i + 1) / 2 && |right| == i / 2
      invariant forall k :: 0 <= k < |left| ==> left[k] == v[2 * k]
      invariant forall k :: 0 <= k < |right| ==> right[k] == v[2 * k + 1]
    {
      if i % 2 == 0 {
        left := left + [v[i]];
      } else {
        right := right + [v[i]];
      }
    }
  }

  /** Re-interleaving: left, right, left, right, ... */
  function Interleave(left: seq<real>, right: seq<real>): (v: seq<real>)
    requires |right| <= |left| <= |right| + 1
    ensures |v| == |left| + |right|
    ensures forall i :: 0 <= i < |left| ==> v[2 * i] == left[i]
    ensures forall i :: 0 <= i < |right| ==> v[2 * i + 1] == right[i]
    decreases |left|
  {
    if |left| == 0 then []
    else if |right| == 0 then [left[0]]
    else
      var rest := Interleave(left[1..], right[1..]);
      var v := [left[0], right[0]] + rest;
      assert forall i :: 1 <= i < |left| ==> v[2 * i] == rest[2 * (i - 1)];
      assert forall i :: 1 <= i < |right| ==> v[2 * i + 1] == rest[2 * (i - 1) + 1];
      v
  }

  /** Interleaving the halves of a split gives back the original block. */
  lemma InterleaveSplit(v: seq<real>, left: seq<real>, right: seq<real>)
    requires IsSplit(v, left, right)
    ensures Interleave(left, right) == v
  {
    var w := Interleave(left, right);
    forall k | 0 <= k < |v|
      ensures w[k] == v[k]
    {
      if k % 2 == 0 {
        assert w[2 * (k / 2)] == left[k / 2];
      } else {
        assert w[2 * (k / 2) + 1] == right[k / 2];
      }
    }
  }

  /** Splitting an interleaving gives back its halves. */
  lemma SplitInterleave(left: seq<real>, right: seq<real>)
    requires |right| <= |left| <= |right| + 1
    ensures IsSplit(Interleave(left, right), left, right)
  {
  }

  /** The MP3 and Vorbis writers encode exactly the frames the splitter
      would make of the block: frame i is (left[i], right[i]). */
  lemma PairedFramesAreSplit(samples: seq<real>, left: seq<real>, right: seq<real>, sink: FrameSink)
    requires NeverFails(sink) && IsSplit(samples, left, right)
    ensures var frames := Pairing.WriteSamples(EmptyPaired, samples, sink).1.frames;
      && |frames| == |right|
      && forall i :: 0 <= i < |frames| ==> frames[i] == Frame(left[i], right[i])
  {
    WriteSamplesPairs(EmptyPaired, samples, sink);
  }
}
