/** The channel configuration editor's state and how it is written into a
    channel's settings. */
module ChannelConfig {
  import opened Base
  import opened Settings

  datatype ChannelConfig = ChannelConfig(
    limitLayers: bool, layerCount: nat, init: ChannelInitOptions, useThreadpool: bool, volume: real)

  /** `EguiChannelConfig::new`: layer limit on with 10 layers, the default
      channel init options, no threadpool, full volume. */
  function NewConfig(): (c: ChannelConfig)
    ensures c.limitLayers && c.layerCount == 10 && !c.useThreadpool && c.volume == 1.0
    ensures c.init == DefaultChannelSettings.init
    ensures c.init.fadeOutKilling && !c.init.drumsOnly
  {
    ChannelConfig(true, 10, DefaultChannelSettings.init, false, 1.0)
  }

  /** `save_to_state_settings`: overwrites every field of the channel
      settings except its soundfont list. */
  function SaveToStateSettings(c: ChannelConfig, s: SingleChannelSettings): (r: SingleChannelSettings)
    ensures r.layerLimit.Some? <==> c.limitLayers
    ensures r.layerLimit.Some? ==> r.layerLimit.value == c.layerCount
    ensures r.init == c.init && r.useThreadpool == c.useThreadpool && r.volume == c.volume
    ensures r.soundfonts == s.soundfonts
  {
    s.(init := c.init, layerLimit := if c.limitLayers then Some(c.layerCount) else None,
       useThreadpool := c.useThreadpool, volume := c.volume)
  }

  /** Only the soundfont list of the target survives a save, so the last save wins. */
  lemma SaveOverwrites(c: ChannelConfig, d: ChannelConfig, s: SingleChannelSettings, t: SingleChannelSettings)
    requires s.soundfonts == t.soundfonts
    ensures SaveToStateSettings(c, SaveToStateSettings(d, s)) == SaveToStateSettings(c, t)
  {
  }

  /** Saving the same configuration twice is saving it once. */
  lemma SaveIdempotent(c: ChannelConfig, s: SingleChannelSettings)
    ensures SaveToStateSettings(c, SaveToStateSettings(c, s)) == SaveToStateSettings(c, s)
  {
    SaveOverwrites(c, c, s, s);
  }
}
