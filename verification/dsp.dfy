/** The DSP stage in front of every codec writer: one lookahead limiter per
    audio channel, fed the interleaved samples of its channel, or a bit-exact
    passthrough when the limiter is disabled. The limiter's arithmetic is a
    foreign engine and appears as the `LimiterEngine` oracle. */
module Dsp {
  import opened Base

  datatype DSPLimiterSettings = DSPLimiterSettings(
    enabled: bool, attackMs: nat, releaseMs: nat, threshold: real, lookaheadMs: nat)

  datatype DSPSettings = DSPSettings(limiter: DSPLimiterSettings)

  const DefaultLimiterSettings: DSPLimiterSettings := DSPLimiterSettings(true, 30, 100, 0.0, 5)

  const DefaultDspSettings: DSPSettings := DSPSettings(DefaultLimiterSettings)

  /** One limiter's state, seen from outside: the samples it has processed so far. */
  datatype Limiter = Limiter(seen: seq<real>)

  /** The foreign limiter: the latency it reports for a sample rate and
      settings, and its output for an input sample given everything it has
      processed before. */
  datatype LimiterEngine = LimiterEngine(
    offset: (nat, DSPLimiterSettings) -> nat,
    output: (nat, DSPLimiterSettings, seq<real>, real) -> real)

  datatype AudioDsp = AudioDsp(
    channels: nat, sampleRate: nat, settings: DSPLimiterSettings, offset: nat, limiters: Option<seq<Limiter>>)

  predicate Valid(d: AudioDsp)
  {
    d.limiters.Some? ==> |d.limiters.value| == d.channels
  }

  /** `ForteAudioDSP::new`. */
  function NewDsp(channels: nat, sampleRate: nat, settings: DSPSettings, engine: LimiterEngine): (d: AudioDsp)
    ensures Valid(d)
    ensures !settings.limiter.enabled ==> d.limiters.None? && d.offset == 0
    ensures settings.limiter.enabled ==>
              && d.limiters.Some? && |d.limiters.value| == channels
              && (forall c :: 0 <= c < channels ==> d.limiters.value[c].seen == [])
    ensures settings.limiter.enabled && channels > 0 ==> d.offset == engine.offset(sampleRate, settings.limiter)
    ensures channels == 0 ==> d.offset == 0
    ensures d.channels == channels
  {
    if settings.limiter.enabled then
      AudioDsp(channels, sampleRate, settings.limiter,
        if channels > 0 then engine.offset(sampleRate, settings.limiter) else 0,
        Some(seq(channels, _ => Limiter([]))))
    else AudioDsp(channels, sampleRate, settings.limiter, 0, None)
  }

  /** The samples among the first `n` of an interleaved block that belong to
      channel `c` of `channels`, in order. */
  function ChannelSamples(block: seq<real>, c: nat, channels: nat, n: nat): (r: seq<real>)
    requires channels > 0 && n <= |block|
  {
    if n == 0 then []
    else ChannelSamples(block, c, channels, n - 1) + (if (n - 1) % channels == c then [block[n - 1]] else [])
  }

  /** `process`: sample i goes through limiter i mod channels, starting again
      from channel 0 at every call. */
  method Process(d: AudioDsp, block: seq<real>, engine: LimiterEngine) returns (d': AudioDsp, out: seq<real>)
    requires Valid(d)
    requires d.limiters.Some? && |block| > 0 ==> d.channels > 0
    ensures Valid(d')
    ensures d.limiters.None? ==> out == block && d' == d
    ensures |out| == |block|
    ensures d.limiters.Some? ==> d'.limiters.Some? && d' == d.(limiters := d'.limiters)
    ensures d.limiters.Some? && d.channels > 0 ==>
      forall i :: 0 <= i < |block| ==>
        out[i] == engine.output(d.sampleRate, d.settings,
          d.limiters.value[i % d.channels].seen + ChannelSamples(block, i % d.channels, d.channels, i), block[i])
    ensures d.limiters.Some? && d.channels > 0 ==>
      forall c :: 0 <= c < d.channels ==>
        d'.limiters.value[c].seen == d.limiters.value[c].seen + ChannelSamples(block, c, d.channels, |block|)
  {
    if d.limiters.None? {
      return d, block;
    }
    if |block| == 0 {
      return d, [];
    }
    var ch := d.channels;
    var ls := d.limiters.value;
    out := [];
    for i := 0 to |block|
      invariant |out| == i && |ls| == ch
      invariant forall k :: 0 <= k < i ==>
        out[k] == engine.output(d.sampleRate, d.settings,
          d.limiters.value[k % ch].seen + ChannelSamples(block, k % ch, ch, k), block[k])
      invariant forall c :: 0 <= c < ch ==>
        ls[c].seen == d.limiters.value[c].seen + ChannelSamples(block, c, ch, i)
    {
      var c := i % ch;
      out := out + [engine.output(d.sampleRate, d.settings, ls[c].seen, block[i])];
      ls := ls[c := Limiter(ls[c].seen + [block[i]])];
    }
    d' := d.(limiters := Some(ls));
  }
}
