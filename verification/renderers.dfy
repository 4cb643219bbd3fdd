/** The events a renderer accepts and the length check every renderer makes
    before it fills a buffer. A voice channel of the synthesizer is modelled
    by the history of what it was sent; the synthesis itself is an engine
    that maps such a history to samples. */
module Renderers {
  import opened Base
  import opened Settings

  datatype ControlEvent = Raw(controller: nat, value: nat) | PitchBendValue(bend: real)

  datatype ChannelAudioEvent =
    | NoteOn(key: nat, vel: nat)
    | NoteOff(key: nat)
    | Control(control: ControlEvent)
    | AllNotesOff
    | ResetControl

  /** Configuration events; soundfonts are named by their paths. */
  datatype ChannelConfigEvent = SetLayerCount(limit: Option<nat>) | SetSoundfonts(soundfonts: seq<Path>)

  datatype SynthEvent =
    | Channel(channel: nat, audio: ChannelAudioEvent)
    | AllChannels(audio: ChannelAudioEvent)
    | ChannelConfig(channel: nat, config: ChannelConfigEvent)

  /** What a voice channel has been through, in order: audio events, config
      events, and reads of a number of samples. */
  datatype ChannelEvent = Audio(audio: ChannelAudioEvent) | Config(config: ChannelConfigEvent) | Read(count: nat)

  datatype VoiceChannel = VoiceChannel(init: ChannelInitOptions, useThreadpool: bool, history: seq<ChannelEvent>)

  /** The synthesizer: the samples a channel produces when asked for a number
      of them after a history, and its active voice count after a history. */
  datatype SynthEngine = SynthEngine(
    read: (ChannelInitOptions, seq<ChannelEvent>, nat) -> seq<real>,
    voices: (ChannelInitOptions, seq<ChannelEvent>) -> nat)

  const U32Modulus: nat := 0x1_0000_0000

  /** The check of `read_samples`: the buffer length (as `u32`) must be a
      whole number of frames; a zero channel count fails it as well, since
      the remainder by zero panics. */
  predicate ReadAllowed(len: nat, channels: nat)
  {
    channels > 0 && (len % U32Modulus) % channels == 0
  }

  /** A positive multiple of a number is at least that number. */
  lemma {:induction false} MultipleAtLeast(k: nat, c: nat)
    requires k >= 1
    ensures k * c >= c
    decreases k
  {
    if k > 1 {
      MultipleAtLeast(k - 1, c);
      assert k * c == (k - 1) * c + c;
    }
  }

  /** Adding one frame keeps the remainder. */
  lemma AddFrameKeepsRemainder(x: nat, channels: nat)
    requires channels > 0
    ensures (x + channels) % channels == x % channels
  {
    var q, r := x / channels, x % channels;
    var q', r' := (x + channels) / channels, (x + channels) % channels;
    assert x == q * channels + r;
    assert x + channels == q' * channels + r';
    assert (q + 1) * channels == q * channels + channels;
    if q + 1 > q' {
      MultipleAtLeast(q + 1 - q', channels);
    } else if q' > q + 1 {
      MultipleAtLeast(q' - (q + 1), channels);
    }
  }

  /** A whole number of frames leaves no remainder. */
  lemma {:induction false} WholeFramesNoRemainder(frames: nat, channels: nat)
    requires channels > 0
    ensures (frames * channels) % channels == 0
    decreases frames
  {
    if frames > 0 {
      var x := (frames - 1) * channels;
      WholeFramesNoRemainder(frames - 1, channels);
      assert frames * channels == x + channels;
      AddFrameKeepsRemainder(x, channels);
    }
  }

  /** A buffer below 2^32 samples passes the check exactly when it holds a
      whole number of frames. */
  lemma ReadAllowedIffWholeFrames(len: nat, channels: nat)
    requires channels > 0 && len < U32Modulus
    ensures ReadAllowed(len, channels) <==> len == (len / channels) * channels
  {
    if len == (len / channels) * channels {
      WholeFramesNoRemainder(len / channels, channels);
    }
  }

  /** The samples a channel writes into a buffer of `n` zeros: the engine's
      output cut to `n` samples, padded with zeros if it is shorter. */
  function Fit(s: seq<real>, n: nat): (r: seq<real>)
    ensures |r| == n
    ensures forall k :: 0 <= k < n ==> r[k] == (if k < |s| then s[k] else 0.0)
  {
    if |s| >= n then s[..n] else s + seq(n - |s|, _ => 0.0)
  }

  /** The audio events a channel has received, in order. */
  function Delivered(h: seq<ChannelEvent>): (r: seq<ChannelAudioEvent>)
    ensures |r| <= |h|
  {
    if |h| == 0 then []
    else Delivered(h[..|h| - 1]) + (if h[|h| - 1].Audio? then [h[|h| - 1].audio] else [])
  }

  /** The config events a channel has received, in order. */
  function Configs(h: seq<ChannelEvent>): (r: seq<ChannelConfigEvent>)
    ensures |r| <= |h|
  {
    if |h| == 0 then []
    else Configs(h[..|h| - 1]) + (if h[|h| - 1].Config? then [h[|h| - 1].config] else [])
  }

  /** The sizes of the reads a channel has served, in order. */
  function Reads(h: seq<ChannelEvent>): (r: seq<nat>)
    ensures |r| <= |h|
  {
    if |h| == 0 then []
    else Reads(h[..|h| - 1]) + (if h[|h| - 1].Read? then [h[|h| - 1].count] else [])
  }

  /** Appending to a history adds to the delivered and config streams
      exactly what the appended part holds. */
  lemma {:induction false} StreamsOfConcat(a: seq<ChannelEvent>, b: seq<ChannelEvent>)
    ensures Delivered(a + b) == Delivered(a) + Delivered(b)
    ensures Configs(a + b) == Configs(a) + Configs(b)
    ensures Reads(a + b) == Reads(a) + Reads(b)
    decreases |b|
  {
    if |b| > 0 {
      var b' := b[..|b| - 1];
      assert (a + b)[..|a + b| - 1] == a + b';
      StreamsOfConcat(a, b');
    } else {
      assert a + b == a;
    }
  }

  /** The history entries for a list of audio events. */
  function AsAudio(es: seq<ChannelAudioEvent>): (r: seq<ChannelEvent>)
    ensures |r| == |es|
    ensures forall k :: 0 <= k < |es| ==> r[k] == Audio(es[k])
  {
    seq(|es|, k requires 0 <= k < |es| => Audio(es[k]))
  }

  /** Delivering audio events adds exactly them to the delivered stream and
      nothing to the config stream. */
  lemma {:induction false} AsAudioStreams(es: seq<ChannelAudioEvent>)
    ensures Delivered(AsAudio(es)) == es
    ensures Configs(AsAudio(es)) == [] && Reads(AsAudio(es)) == []
    decreases |es|
  {
    if |es| > 0 {
      var es' := es[..|es| - 1];
      assert AsAudio(es)[..|es| - 1] == AsAudio(es');
      AsAudioStreams(es');
    }
  }
}
