/** The synthesizer tab's write-back of its soundfont lists and channel
    configurations into the per-channel settings. */
module SynthTab {
  import opened Settings
  import opened SoundfontList
  import opened ChannelConfig

  datatype SynthTab = SynthTab(
    sfLoadType: SynthCfgType, channelCfgType: SynthCfgType,
    sfGlobalList: seq<SfListItem>, sfSplitLists: seq<seq<SfListItem>>,
    channelCfgGlobal: ChannelConfig, channelCfgs: seq<ChannelConfig>)

  /** `ForteSynthTab::new`: both kinds Global, sixteen empty split lists and
      sixteen default channel configurations. */
  function NewTab(): (t: SynthTab)
    ensures t.sfLoadType == Global && t.channelCfgType == Global
    ensures t.sfGlobalList == [] && |t.sfSplitLists| == 16 && |t.channelCfgs| == 16
    ensures forall i :: 0 <= i < 16 ==> t.sfSplitLists[i] == [] && t.channelCfgs[i] == NewConfig()
    ensures t.channelCfgGlobal == NewConfig()
  {
    SynthTab(Global, Global, [], seq(16, _ => []), NewConfig(), seq(16, _ => NewConfig()))
  }

  /** The soundfont list channel i ends up with. */
  function SoundfontsFor(t: SynthTab, channels: seq<SingleChannelSettings>, i: nat): seq<SfListItem>
    requires i < |channels|
  {
    if t.sfLoadType.Global? then t.sfGlobalList
    else if i < |t.sfSplitLists| then t.sfSplitLists[i]
    else channels[i].soundfonts
  }

  /** The settings channel i ends up with, once its soundfonts are in place. */
  function ConfiguredFor(t: SynthTab, s: SingleChannelSettings, i: nat): SingleChannelSettings
  {
    if t.channelCfgType.Global? then SaveToStateSettings(t.channelCfgGlobal, s)
    else if i < |t.channelCfgs| then SaveToStateSettings(t.channelCfgs[i], s)
    else s
  }

  /** A per-channel tab indexes the channel settings with every list and
      configuration it holds, so there must be at least that many channels. */
  predicate FitsChannels(t: SynthTab, channels: seq<SingleChannelSettings>)
  {
    && (t.sfLoadType.PerChannel? ==> |t.sfSplitLists| <= |channels|)
    && (t.channelCfgType.PerChannel? ==> |t.channelCfgs| <= |channels|)
  }

  /** `apply_to_state`: first every channel's soundfonts are assigned, then
      its configuration is saved over it (which keeps the soundfonts). */
  method ApplyToState(t: SynthTab, channels: seq<SingleChannelSettings>) returns (r: seq<SingleChannelSettings>)
    requires FitsChannels(t, channels)
    ensures |r| == |channels|
    ensures forall i :: 0 <= i < |r| ==> r[i].soundfonts == SoundfontsFor(t, channels, i)
    ensures forall i :: 0 <= i < |r| ==>
      r[i] == ConfiguredFor(t, channels[i].(soundfonts := SoundfontsFor(t, channels, i)), i)
  {
    r := channels;
    if t.sfLoadType.Global? {
      for i := 0 to |r|
        invariant |r| == |channels|
        invariant forall k :: 0 <= k < i ==> r[k] == channels[k].(soundfonts := t.sfGlobalList)
        invariant forall k :: i <= k < |r| ==> r[k] == channels[k]
      {
        r := r[i := r[i].(soundfonts := t.sfGlobalList)];
      }
    } else {
      for i := 0 to |t.sfSplitLists|
        invariant |r| == |channels|
        invariant forall k :: 0 <= k < i ==> r[k] == channels[k].(soundfonts := t.sfSplitLists[k])
        invariant forall k :: i <= k < |r| ==> r[k] == channels[k]
      {
        r := r[i := r[i].(soundfonts := t.sfSplitLists[i])];
      }
    }
    assert forall k :: 0 <= k < |r| ==> r[k] == channels[k].(soundfonts := SoundfontsFor(t, channels, k));
    ghost var placed := r;
    if t.channelCfgType.Global? {
      for i := 0 to |r|
        invariant |r| == |channels|
        invariant forall k :: 0 <= k < i ==> r[k] == SaveToStateSettings(t.channelCfgGlobal, placed[k])
        invariant forall k :: i <= k < |r| ==> r[k] == placed[k]
      {
        r := r[i := SaveToStateSettings(t.channelCfgGlobal, r[i])];
      }
    } else {
      for i := 0 to |t.channelCfgs|
        invariant |r| == |channels|
        invariant forall k :: 0 <= k < i ==> r[k] == SaveToStateSettings(t.channelCfgs[k], placed[k])
        invariant forall k :: i <= k < |r| ==> r[k] == placed[k]
      {
        r := r[i := SaveToStateSettings(t.channelCfgs[i], r[i])];
      }
    }
  }

  /** Every assignment applies both halves to each channel, so the order of
      the two passes does not matter for the outcome: saving the configuration
      first and assigning the soundfonts afterwards gives the same channel. */
  lemma ConfigThenSoundfontsAgrees(t: SynthTab, channels: seq<SingleChannelSettings>, i: nat)
    requires i < |channels|
    ensures ConfiguredFor(t, channels[i], i).(soundfonts := SoundfontsFor(t, channels, i))
         == ConfiguredFor(t, channels[i].(soundfonts := SoundfontsFor(t, channels, i)), i)
  {
  }
}
