/** The standard renderer: audio events are cached per channel and handed
    over in one go before the next read (or when the cache grows too big);
    config events reach their channel at once; a read mixes every channel's
    output into the buffer. */
module StandardRenderer {
  import opened Base
  import opened Settings
  import opened Renderers

  const MaxEventCacheSize: nat := 1024 * 1024

  /** `cachedCount` counts the audio events waiting in `caches`. */
  datatype Renderer = Renderer(
    cachedCount: nat, caches: seq<seq<ChannelAudioEvent>>, channels: seq<VoiceChannel>,
    sampleRate: nat, audioChannels: nat)

  function TotalCached(caches: seq<seq<ChannelAudioEvent>>): (n: nat)
    ensures n == 0 <==> forall i :: 0 <= i < |caches| ==> caches[i] == []
  {
    if |caches| == 0 then 0 else TotalCached(caches[..|caches| - 1]) + |caches[|caches| - 1]|
  }

  /** Every channel has one cache. */
  predicate Shaped(r: Renderer)
  {
    |r.caches| == |r.channels|
  }

  /** The renderer's invariant: the counter counts the cached events, and
      never stays above the limit after an event is sent. */
  predicate Valid(r: Renderer)
  {
    Shaped(r) && r.cachedCount == TotalCached(r.caches) && r.cachedCount <= MaxEventCacheSize
  }

  function FreshChannel(s: SingleChannelSettings): (c: VoiceChannel)
    ensures c.history == [] && c.init == s.init && c.useThreadpool == s.useThreadpool
  {
    VoiceChannel(s.init, s.useThreadpool, [])
  }

  /** `k` copies of `s`, one after the other. */
  function Repeat<T>(k: nat, s: seq<T>): (r: seq<T>)
    ensures |r| == k * |s|
  {
    if k == 0 then [] else
      var r := Repeat(k - 1, s) + s;
      assert |r| == (k - 1) * |s| + |s| == k * |s|;
      r
  }

  function FreshChannels(settings: seq<SingleChannelSettings>): (r: seq<VoiceChannel>)
    ensures |r| == |settings|
    ensures forall j :: 0 <= j < |settings| ==> r[j] == FreshChannel(settings[j])
  {
    seq(|settings|, j requires 0 <= j < |settings| => FreshChannel(settings[j]))
  }

  /** `ForteStandardRenderer::new`: one fresh voice channel per channel
      setting for each instance, each with an empty cache. */
  method New(state: ForteState, instances: nat) returns (r: Renderer)
    ensures Valid(r) && r.cachedCount == 0
    ensures r.channels == Repeat(instances, FreshChannels(state.synth.channelSettings))
    ensures forall i :: 0 <= i < |r.caches| ==> r.caches[i] == []
    ensures r.sampleRate == state.render.sampleRate && r.audioChannels == state.render.audioChannels
  {
    var settings := state.synth.channelSettings;
    var blank := FreshChannels(settings);
    var channels: seq<VoiceChannel> := [];
    var caches: seq<seq<ChannelAudioEvent>> := [];
    for inst := 0 to instances
      invariant channels == Repeat(inst, blank)
      invariant |caches| == |channels| && forall i :: 0 <= i < |caches| ==> caches[i] == []
    {
      for j := 0 to |settings|
        invariant channels == Repeat(inst, blank) + blank[..j]
        invariant |caches| == |channels| && forall i :: 0 <= i < |caches| ==> caches[i] == []
      {
        channels := channels + [FreshChannel(settings[j])];
        caches := caches + [[]];
        assert blank[..j + 1] == blank[..j] + [blank[j]];
      }
      assert blank[..|settings|] == blank;
    }
    r := Renderer(0, caches, channels, state.render.sampleRate, state.render.audioChannels);
  }

  /** `flush_events`: with events cached, each channel receives its cache
      in order and the caches are emptied. */
  function Flush(r: Renderer): (r': Renderer)
    requires Shaped(r)
    ensures Shaped(r') && r'.cachedCount == 0 && |r'.channels| == |r.channels|
    ensures r'.sampleRate == r.sampleRate && r'.audioChannels == r.audioChannels
    ensures r.cachedCount == TotalCached(r.caches) ==> forall i :: 0 <= i < |r'.caches| ==> r'.caches[i] == []
  {
    if r.cachedCount == 0 then r
    else
      r.(channels := seq(|r.channels|, i requires 0 <= i < |r.channels| =>
                           r.channels[i].(history := r.channels[i].history + AsAudio(r.caches[i]))),
         caches := seq(|r.caches|, _ => []),
         cachedCount := 0)
  }

  /** What `send_event` leads to: the new renderer, or a panic when the
      channel number is out of range. */
  datatype Sent = Sent(renderer: Renderer) | Panics

  /** Flushes when the counter has gone above the limit. */
  function FlushIfFull(r: Renderer): (r': Renderer)
    requires Shaped(r)
    ensures Shaped(r') && r'.cachedCount <= MaxEventCacheSize && |r'.channels| == |r.channels|
    ensures r'.sampleRate == r.sampleRate && r'.audioChannels == r.audioChannels
  {
    if r.cachedCount > MaxEventCacheSize then Flush(r) else r
  }

  /** `send_event`. */
  function SendEvent(r: Renderer, e: SynthEvent): (s: Sent)
    requires Shaped(r)
    ensures s.Panics? <==> (e.Channel? && e.channel >= |r.caches|) || (e.ChannelConfig? && e.channel >= |r.channels|)
    ensures s.Sent? ==> Shaped(s.renderer) && |s.renderer.channels| == |r.channels|
    ensures s.Sent? ==> s.renderer.sampleRate == r.sampleRate && s.renderer.audioChannels == r.audioChannels
    ensures s.Sent? ==> s.renderer.cachedCount <= MaxEventCacheSize || e.ChannelConfig?
  {
    match e
    case Channel(ch, a) =>
      if ch >= |r.caches| then Panics
      else Sent(FlushIfFull(r.(caches := r.caches[ch := r.caches[ch] + [a]], cachedCount := r.cachedCount + 1)))
    case AllChannels(a) =>
      Sent(FlushIfFull(r.(caches := AppendToAll(r.caches, a), cachedCount := r.cachedCount + |r.caches|)))
    case ChannelConfig(ch, c) =>
      if ch >= |r.channels| then Panics
      else Sent(r.(channels := r.channels[ch := r.channels[ch].(history := r.channels[ch].history + [Config(c)])]))
  }

  /** Changing one cache changes the total by the difference in its length. */
  lemma {:induction false} TotalCachedUpdate(caches: seq<seq<ChannelAudioEvent>>, ch: nat, x: seq<ChannelAudioEvent>)
    requires ch < |caches|
    ensures TotalCached(caches[ch := x]) + |caches[ch]| == TotalCached(caches) + |x|
    decreases |caches|
  {
    var n := |caches|;
    var u := caches[ch := x];
    assert u[..n - 1] == if ch < n - 1 then caches[..n - 1][ch := x] else caches[..n - 1];
    if ch < n - 1 {
      TotalCachedUpdate(caches[..n - 1], ch, x);
    }
  }

  /** Every cache with one more event at its end. */
  function AppendToAll(caches: seq<seq<ChannelAudioEvent>>, a: ChannelAudioEvent): (u: seq<seq<ChannelAudioEvent>>)
    ensures |u| == |caches|
    ensures forall i :: 0 <= i < |caches| ==> u[i] == caches[i] + [a]
  {
    seq(|caches|, i requires 0 <= i < |caches| => caches[i] + [a])
  }

  /** Appending one event to every cache adds one per cache to the total. */
  lemma {:induction false} TotalCachedAppendAll(caches: seq<seq<ChannelAudioEvent>>, a: ChannelAudioEvent)
    ensures TotalCached(AppendToAll(caches, a)) == TotalCached(caches) + |caches|
    decreases |caches|
  {
    var u := AppendToAll(caches, a);
    if |caches| > 0 {
      var c' := caches[..|caches| - 1];
      TotalCachedAppendAll(c', a);
      assert u[..|caches| - 1] == AppendToAll(c', a);
    }
  }

  /** Sending an event keeps the counter equal to the number of cached
      events and within the limit. */
  lemma SendKeepsValid(r: Renderer, e: SynthEvent)
    requires Valid(r) && SendEvent(r, e).Sent?
    ensures Valid(SendEvent(r, e).renderer)
  {
    match e
    case Channel(ch, a) =>
      TotalCachedUpdate(r.caches, ch, r.caches[ch] + [a]);
    case AllChannels(a) =>
      TotalCachedAppendAll(r.caches, a);
    case ChannelConfig(_, _) =>
  }

  /** Everything a channel has been sent, in order: what it has received
      and what still waits in its cache. */
  function Pending(r: Renderer, ch: nat): seq<ChannelAudioEvent>
    requires Shaped(r) && ch < |r.channels|
  {
    Delivered(r.channels[ch].history) + r.caches[ch]
  }

  /** A flush loses nothing and reorders nothing, and delivers no config
      and no read. */
  lemma FlushKeepsPending(r: Renderer, ch: nat)
    requires Shaped(r) && ch < |r.channels|
    ensures Pending(Flush(r), ch) == Pending(r, ch)
    ensures Configs(Flush(r).channels[ch].history) == Configs(r.channels[ch].history)
    ensures Reads(Flush(r).channels[ch].history) == Reads(r.channels[ch].history)
  {
    if r.cachedCount != 0 {
      var h := r.channels[ch].history;
      StreamsOfConcat(h, AsAudio(r.caches[ch]));
      AsAudioStreams(r.caches[ch]);
    }
  }

  /** An audio event for one channel joins the end of that channel's
      stream; every other channel's stream and every config stream stay. */
  lemma SendChannelAppends(r: Renderer, ch: nat, a: ChannelAudioEvent, other: nat)
    requires Shaped(r) && ch < |r.channels| && other < |r.channels|
    ensures SendEvent(r, Channel(ch, a)).Sent?
    ensures var r' := SendEvent(r, Channel(ch, a)).renderer;
      && Pending(r', other) == Pending(r, other) + (if other == ch then [a] else [])
      && Configs(r'.channels[other].history) == Configs(r.channels[other].history)
  {
    var r1 := r.(caches := r.caches[ch := r.caches[ch] + [a]], cachedCount := r.cachedCount + 1);
    FlushKeepsPending(r1, other);
  }

  /** An event for all channels joins the end of every channel's stream. */
  lemma SendAllAppends(r: Renderer, a: ChannelAudioEvent, ch: nat)
    requires Shaped(r) && ch < |r.channels|
    ensures SendEvent(r, AllChannels(a)).Sent?
    ensures var r' := SendEvent(r, AllChannels(a)).renderer;
      && Pending(r', ch) == Pending(r, ch) + [a]
      && Configs(r'.channels[ch].history) == Configs(r.channels[ch].history)
  {
    var r1 := r.(caches := AppendToAll(r.caches, a), cachedCount := r.cachedCount + |r.caches|);
    FlushKeepsPending(r1, ch);
  }

  /** A config event is applied to its channel at once, ahead of any audio
      event still cached for it; no audio stream changes. */
  lemma SendConfigAppliesAtOnce(r: Renderer, ch: nat, c: ChannelConfigEvent, other: nat)
    requires Shaped(r) && ch < |r.channels| && other < |r.channels|
    ensures SendEvent(r, ChannelConfig(ch, c)).Sent?
    ensures var r' := SendEvent(r, ChannelConfig(ch, c)).renderer;
      && Pending(r', other) == Pending(r, other)
      && r'.caches == r.caches
      && Configs(r'.channels[other].history) == Configs(r.channels[other].history) + (if other == ch then [c] else [])
  {
    StreamsOfConcat(r.channels[ch].history, [Config(c)]);
    assert Delivered([Config(c)]) == [] && Configs([Config(c)]) == [c] by {
      assert [Config(c)][..0] == [];
    }
  }

  /** A consequence: a note sent to a channel, then a config for that
      channel, with no flush in between, leaves the channel having seen the
      config but not the note. */
  lemma ConfigOvertakesCachedNote(r: Renderer, ch: nat, a: ChannelAudioEvent, c: ChannelConfigEvent)
    requires Valid(r) && ch < |r.channels| && r.cachedCount < MaxEventCacheSize
    ensures SendEvent(r, Channel(ch, a)).Sent?
    ensures var r1 := SendEvent(r, Channel(ch, a)).renderer;
      && SendEvent(r1, ChannelConfig(ch, c)).Sent?
      && var r2 := SendEvent(r1, ChannelConfig(ch, c)).renderer;
      && r2.channels[ch].history == r.channels[ch].history + [Config(c)]
      && r2.caches[ch] == r.caches[ch] + [a]
  {
  }

  /** A channel's samples for a read of `n`. */
  function ChannelBlock(ch: VoiceChannel, engine: SynthEngine, n: nat): (b: seq<real>)
    ensures |b| == n
  {
    Fit(engine.read(ch.init, ch.history, n), n)
  }

  /** Each channel's samples for a read of `n`. */
  function Blocks(r: Renderer, engine: SynthEngine, n: nat): (b: seq<seq<real>>)
    ensures |b| == |r.channels|
    ensures forall c :: 0 <= c < |b| ==> b[c] == ChannelBlock(r.channels[c], engine, n)
  {
    seq(|r.channels|, c requires 0 <= c < |r.channels| => ChannelBlock(r.channels[c], engine, n))
  }

  /** The k-th sample of each block. */
  function Column(blocks: seq<seq<real>>, k: nat): (col: seq<real>)
    ensures |col| == |blocks|
    ensures forall c :: 0 <= c < |blocks| ==> col[c] == if k < |blocks[c]| then blocks[c][k] else 0.0
  {
    seq(|blocks|, c requires 0 <= c < |blocks| => if k < |blocks[c]| then blocks[c][k] else 0.0)
  }

  /** One more block adds its k-th sample to the k-th column sum. */
  lemma ColumnStep(blocks: seq<seq<real>>, c: nat, k: nat)
    requires c < |blocks| && k < |blocks[c]|
    ensures SumReal(Column(blocks[..c + 1], k)) == SumReal(Column(blocks[..c], k)) + blocks[c][k]
  {
    var col := Column(blocks[..c + 1], k);
    assert col[..c] == Column(blocks[..c], k);
  }

  /** `sum_simd`: the block added onto the buffer sample by sample. */
  function AddInto(buffer: seq<real>, block: seq<real>): (r: seq<real>)
    requires |block| == |buffer|
    ensures |r| == |buffer|
    ensures forall k :: 0 <= k < |buffer| ==> r[k] == buffer[k] + block[k]
  {
    seq(|buffer|, k requires 0 <= k < |buffer| => buffer[k] + block[k])
  }

  /** `render_to`: cached events are flushed, every channel renders the
      buffer's length of samples, and each channel's samples are added onto
      the buffer (which is not cleared first). */
  method RenderTo(r: Renderer, buffer: seq<real>, engine: SynthEngine) returns (r': Renderer, out: seq<real>)
    requires Shaped(r)
    ensures var f := Flush(r); var blocks := Blocks(f, engine, |buffer|);
      && |out| == |buffer|
      && (forall k :: 0 <= k < |buffer| ==> out[k] == buffer[k] + SumReal(Column(blocks, k)))
      && |r'.channels| == |f.channels| && r'.caches == f.caches && r'.cachedCount == 0
      && (forall c :: 0 <= c < |r'.channels| ==>
            r'.channels[c] == f.channels[c].(history := f.channels[c].history + [Read(|buffer|)]))
    ensures r'.sampleRate == r.sampleRate && r'.audioChannels == r.audioChannels
  {
    var f := Flush(r);
    var blocks := Blocks(f, engine, |buffer|);
    out := buffer;
    var channels: seq<VoiceChannel> := [];
    for c := 0 to |f.channels|
      invariant |out| == |buffer|
      invariant forall k :: 0 <= k < |buffer| ==> out[k] == buffer[k] + SumReal(Column(blocks[..c], k))
      invariant |channels| == c
      invariant forall i :: 0 <= i < c ==> channels[i] == f.channels[i].(history := f.channels[i].history + [Read(|buffer|)])
    {
      forall k | 0 <= k < |buffer|
        ensures SumReal(Column(blocks[..c + 1], k)) == SumReal(Column(blocks[..c], k)) + blocks[c][k]
      {
        ColumnStep(blocks, c, k);
      }
      out := AddInto(out, blocks[c]);
      channels := channels + [f.channels[c].(history := f.channels[c].history + [Read(|buffer|)])];
    }
    assert blocks[..|f.channels|] == blocks;
    r' := f.(channels := channels);
  }

  /** Reading leaves every channel's audio and config streams as they were. */
  lemma ReadKeepsStreams(h: seq<ChannelEvent>, n: nat)
    ensures Delivered(h + [Read(n)]) == Delivered(h)
    ensures Configs(h + [Read(n)]) == Configs(h)
    ensures Reads(h + [Read(n)]) == Reads(h) + [n]
  {
    assert (h + [Read(n)])[..|h|] == h;
  }

  /** Two renderers of the same shape whose channels have each been sent
      the same audio events and received the same config events. */
  predicate KeepsStreams(r: Renderer, r': Renderer)
  {
    && Shaped(r) && Shaped(r') && |r'.channels| == |r.channels|
    && r'.sampleRate == r.sampleRate && r'.audioChannels == r.audioChannels
    && forall c :: 0 <= c < |r.channels| ==>
         && Pending(r', c) == Pending(r, c)
         && Configs(r'.channels[c].history) == Configs(r.channels[c].history)
  }

  /** `read_samples`: the length check, then `render_to`. */
  method ReadSamples(r: Renderer, buffer: seq<real>, engine: SynthEngine)
    returns (panics: bool, r': Renderer, out: seq<real>)
    requires Shaped(r)
    ensures panics <==> !ReadAllowed(|buffer|, r.audioChannels)
    ensures !panics ==> |out| == |buffer| && Shaped(r') && r'.cachedCount == 0
    ensures !panics ==> var blocks := Blocks(Flush(r), engine, |buffer|);
      forall k :: 0 <= k < |buffer| ==> out[k] == buffer[k] + SumReal(Column(blocks, k))
    ensures !panics ==> KeepsStreams(r, r')
    ensures !panics ==> forall c :: 0 <= c < |r.channels| ==>
      Reads(r'.channels[c].history) == Reads(r.channels[c].history) + [|buffer|]
  {
    if !ReadAllowed(|buffer|, r.audioChannels) {
      return true, r, buffer;
    }
    panics := false;
    r', out := RenderTo(r, buffer, engine);
    forall c | 0 <= c < |r.channels|
      ensures Pending(r', c) == Pending(r, c)
      ensures Configs(r'.channels[c].history) == Configs(r.channels[c].history)
      ensures Reads(r'.channels[c].history) == Reads(r.channels[c].history) + [|buffer|]
    {
      FlushKeepsPending(r, c);
      ReadKeepsStreams(Flush(r).channels[c].history, |buffer|);
    }
  }

  /** Each channel's active voice count. */
  function ChannelVoices(r: Renderer, engine: SynthEngine): (v: seq<nat>)
    ensures |v| == |r.channels|
    ensures forall c :: 0 <= c < |v| ==> v[c] == engine.voices(r.channels[c].init, r.channels[c].history)
  {
    VoicesOf(r.channels, engine)
  }

  function VoicesOf(channels: seq<VoiceChannel>, engine: SynthEngine): (v: seq<nat>)
    ensures |v| == |channels|
    ensures forall c :: 0 <= c < |v| ==> v[c] == engine.voices(channels[c].init, channels[c].history)
  {
    if |channels| == 0 then []
    else [engine.voices(channels[0].init, channels[0].history)] + VoicesOf(channels[1..], engine)
  }

  /** `voice_count`: the sum of every channel's active voices. */
  function VoiceCount(r: Renderer, engine: SynthEngine): nat
  {
    SumNat(ChannelVoices(r, engine))
  }

  lemma {:induction false} SumNatZero(xs: seq<nat>)
    ensures SumNat(xs) == 0 <==> forall i :: 0 <= i < |xs| ==> xs[i] == 0
    decreases |xs|
  {
    if |xs| > 0 {
      SumNatZero(xs[..|xs| - 1]);
      assert forall i :: 0 <= i < |xs| - 1 ==> xs[..|xs| - 1][i] == xs[i];
    }
  }

  /** The voice count is zero exactly when no channel has an active voice,
      and it is at least any one channel's count. */
  lemma {:induction false} VoiceCountSilentIff(r: Renderer, engine: SynthEngine)
    ensures VoiceCount(r, engine) == 0 <==>
      forall c :: 0 <= c < |r.channels| ==> engine.voices(r.channels[c].init, r.channels[c].history) == 0
  {
    SumNatZero(ChannelVoices(r, engine));
  }
}
