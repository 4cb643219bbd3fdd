/** The persisted settings records, their defaults, display strings, and the
    unification of global and per-channel synthesizer settings into sixteen
    channel entries. */
module Settings {
  import opened Base
  import opened Modes
  import opened Dsp
  import opened SoundfontList

  datatype SynthCfgType = Global | PerChannel

  datatype ChannelInitOptions = ChannelInitOptions(fadeOutKilling: bool, drumsOnly: bool)

  /** One MIDI channel's synthesizer settings. `layerLimit` is `Some(n)` when
      the layer limit is enabled with `n` layers and `None` when disabled. */
  datatype SingleChannelSettings = SingleChannelSettings(
    init: ChannelInitOptions, layerLimit: Option<nat>, soundfonts: seq<SfListItem>,
    useThreadpool: bool, volume: real)

  const DefaultChannelInit: ChannelInitOptions := ChannelInitOptions(true, false)

  const DefaultChannelSettings: SingleChannelSettings :=
    SingleChannelSettings(DefaultChannelInit, Some(16), [], true, 1.0)

  const ChannelCount: nat := 16

  /** `channelSettings` is the per-channel list the render pipeline reads. */
  datatype SynthSettings = SynthSettings(
    sfcfgType: SynthCfgType, chcfgType: SynthCfgType, globalSettings: SingleChannelSettings,
    individualSettings: seq<SingleChannelSettings>, channelSettings: seq<SingleChannelSettings>)

  const DefaultSynthSettings: SynthSettings :=
    SynthSettings(Global, Global, DefaultChannelSettings,
      seq(16, _ => DefaultChannelSettings), seq(16, _ => DefaultChannelSettings))

  datatype PCMSampleFormat = Int16 | Float32

  datatype OutputAudioFormat = Pcm(format: PCMSampleFormat) | Vorbis(bitrate: nat) | Lame(bitrate: nat)

  datatype VelocityRange = VelocityRange(lo: nat, hi: nat)

  datatype RenderSettings = RenderSettings(
    sampleRate: nat, audioChannels: nat, dspSettings: DSPSettings, renderMode: RenderMode,
    velIgnoreRange: VelocityRange, realtimeBufferMs: real, parallelMidis: nat,
    outputDir: Option<Path>, audioFormat: OutputAudioFormat, concurrency: Concurrency, useLimiter: bool)

  const DefaultRenderSettings: RenderSettings :=
    RenderSettings(48000, 2, DefaultDspSettings, Standard, VelocityRange(0, 0), 100.0 / 6.0, 1,
      None, Pcm(Float32), DefaultConcurrency, false)

  datatype UiState = UiState(rendering: bool, renderSettingsVisible: bool)

  datatype ForteState = ForteState(synth: SynthSettings, render: RenderSettings, ui: UiState)

  const DefaultState: ForteState :=
    ForteState(DefaultSynthSettings, DefaultRenderSettings, UiState(false, false))

  /** The defaults, stated field by field. */
  lemma DefaultsAre()
    ensures DefaultChannelSettings.layerLimit == Some(16) && DefaultChannelSettings.soundfonts == []
    ensures DefaultChannelSettings.useThreadpool && DefaultChannelSettings.init.fadeOutKilling
    ensures !DefaultChannelSettings.init.drumsOnly
    ensures DefaultSynthSettings.sfcfgType == Global && DefaultSynthSettings.chcfgType == Global
    ensures |DefaultSynthSettings.individualSettings| == 16
    ensures forall i :: 0 <= i < 16 ==> DefaultSynthSettings.individualSettings[i] == DefaultChannelSettings
    ensures DefaultRenderSettings.sampleRate == 48000 && DefaultRenderSettings.audioChannels == 2
    ensures DefaultRenderSettings.renderMode == Standard && DefaultRenderSettings.velIgnoreRange == VelocityRange(0, 0)
    ensures DefaultRenderSettings.parallelMidis == 1 && DefaultRenderSettings.audioFormat == Pcm(Float32)
    ensures DefaultRenderSettings.outputDir == None && DefaultRenderSettings.concurrency == NoConcurrency
    ensures var l := DefaultRenderSettings.dspSettings.limiter;
      l.enabled && l.attackMs == 30 && l.releaseMs == 100 && l.threshold == 0.0 && l.lookaheadMs == 5
  {
  }

  /** Where channel i's non-soundfont settings come from. */
  function ConfigSource(s: SynthSettings, i: nat): SingleChannelSettings
    requires i < 16
    requires s.chcfgType.PerChannel? ==> |s.individualSettings| >= 16
  {
    if s.chcfgType.Global? then s.globalSettings else s.individualSettings[i]
  }

  /** Where channel i's soundfont list comes from. */
  function SoundfontSource(s: SynthSettings, i: nat): seq<SfListItem>
    requires i < 16
    requires s.sfcfgType.PerChannel? ==> |s.individualSettings| >= 16
  {
    if s.sfcfgType.Global? then s.globalSettings.soundfonts else s.individualSettings[i].soundfonts
  }

  predicate CanUnify(s: SynthSettings)
  {
    (s.chcfgType.PerChannel? || s.sfcfgType.PerChannel?) ==> |s.individualSettings| >= 16
  }

  /** `unify`: first every entry takes the channel configuration, then its
      soundfonts are overwritten from the soundfont configuration. */
  function Unify(s: SynthSettings): (r: seq<SingleChannelSettings>)
    requires CanUnify(s)
    ensures |r| == 16
    ensures forall i :: 0 <= i < 16 ==> r[i] == ConfigSource(s, i).(soundfonts := SoundfontSource(s, i))
  {
    var configured := seq(16, i requires 0 <= i < 16 => ConfigSource(s, i));
    seq(16, i requires 0 <= i < 16 => configured[i].(soundfonts := SoundfontSource(s, i)))
  }

  /** Changing how soundfonts are configured never changes any other field,
      and changing how channels are configured never changes the soundfonts. */
  lemma UnifyIndependence(s: SynthSettings, sf: SynthCfgType, ch: SynthCfgType)
    requires |s.individualSettings| >= 16
    ensures var a := Unify(s); var b := Unify(s.(sfcfgType := sf)); var c := Unify(s.(chcfgType := ch));
      forall i :: 0 <= i < 16 ==>
        a[i].(soundfonts := []) == b[i].(soundfonts := []) && a[i].soundfonts == c[i].soundfonts
  {
  }

  /** With both kinds Global, every channel is exactly the global settings. */
  lemma UnifyGlobal(s: SynthSettings)
    requires s.chcfgType.Global? && s.sfcfgType.Global?
    ensures Unify(s) == seq(16, _ => s.globalSettings)
  {
  }

  function PCMSampleFormatName(f: PCMSampleFormat): (s: string)
    ensures f.Int16? ==> s == "16-bit integer"
    ensures f.Float32? ==> s == "32-bit float"
  {
    match f
    case Int16 => "16-bit integer"
    case Float32 => "32-bit float"
  }

  function OutputAudioFormatName(f: OutputAudioFormat): (s: string)
    ensures f.Pcm? ==> s == "WAV"
    ensures f.Vorbis? ==> s == "OGG"
    ensures f.Lame? ==> s == "MP3"
  {
    match f
    case Pcm(_) => "WAV"
    case Vorbis(_) => "OGG"
    case Lame(_) => "MP3"
  }

  /** The displayed name determines the kind of format. */
  lemma FormatNamesDistinct(f: OutputAudioFormat, g: OutputAudioFormat)
    requires OutputAudioFormatName(f) == OutputAudioFormatName(g)
    ensures f.Pcm? == g.Pcm? && f.Vorbis? == g.Vorbis? && f.Lame? == g.Lame?
  {
  }
}
