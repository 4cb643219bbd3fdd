# forte batch conversion, modelled in Dafny

forte converts MIDI files to audio with the XSynth synthesizer. This project
models what happens when the user presses Convert in the render tab:

- the soundfont pool loads every distinct soundfont once, into a shared cache;
- the MIDI pool builds one MIDI renderer per file and runs at most
  `max_parallel` of them at a time, always starting the first idle job;
- each MIDI renderer replays the file's event batches into the standard
  renderer's per-channel event caches;
- it renders audio in slices of at most 10 ms and carries the fraction of a
  sample each slice leaves over;
- it drains the synthesizer's tail until a block is silent;
- it hands the samples through the limiter stage to a WAV, MP3 or Ogg
  Vorbis writer.

The GUI pieces that feed this are modelled too:

- the MIDI list and soundfont list operations;
- the render-settings panel;
- the channel configuration and the synth tab's "apply to state";
- settings unification and defaults;
- the mode and concurrency index codecs;
- the time and file-size formatters;
- the error texts.

How the model is built:

- Threads, atomics and channels become explicit sequential steps. A job that
  finishes, a soundfont load that completes, and a cancellation that the
  renderer notices (`stopAt`) are each a step or a parameter.
- Foreign engines are function-valued parameters:
  - the MIDI parser and its tempo pipeline;
  - the XSynth voice channels, represented by their event history;
  - the lookahead limiter;
  - the hound, LAME and Vorbis encoders;
  - the SFZ parser;
  - the file system.
- Floating-point quantities are modelled as `real`. Rust's `as` casts are
  written out as truncating functions (`Base.TruncToNat`, `Base.TruncToI16`).

The source snapshots disagree in a few places, and the model follows the code:

- `Concurrency`'s second case is `ParallelItems` in state.rs and
  `ParallelMIDIs` in midi_pool.rs. It is one case here.
- `layer_limit` is a `usize` with a separate flag in settings.rs and an
  `Option` in channel_cfg.rs. The model uses `Option<nat>`, and the default
  (16, enabled) becomes `Some(16)`.
- The writer trait takes `write_samples(Vec)`, while the codecs implement
  `write_sample(f32)`. A codec's block write is its per-sample write repeated,
  stopping at the first error.
- The pools and the synth tab read `synth_settings.channel_settings`, a field
  the synth settings declaration in settings.rs does not have. The model adds
  it as the per-channel list the render pipeline reads.
- midi_pool.rs and render_settings.rs read `render_settings.concurrency` and
  `render_settings.use_limiter`, two fields the `RenderSettings` declaration
  in settings.rs does not have (`concurrency` is declared on `ForteState` in
  state.rs). The model adds both to its render settings; nothing in the
  source gives `use_limiter` a default, and the model's default is `false`.
- channel_cfg.rs declares and writes `volume` on the per-channel settings
  (src/elements/channel_cfg.rs:10,31), while the `SingleChannelSettings`
  declaration in settings.rs has no such field. The model adds it; the
  default channel settings' volume of 1.0 has no source and mirrors the
  configuration window's initial value.
- midi_pool.rs builds `MIDIRendererError::LoadError`/`RendererError`, while
  error_types.rs names the cases `Load`/`Renderer`/`Writer`. The model uses
  the error_types.rs names.

Behaviour the code has that a reader might not expect, modelled as written:

- `MIDIRenderer::run` does not drop notes whose velocity falls in the
  configured ignore range.
- `run` ignores program changes and every event other than note on/off,
  control change and pitch wheel.
- The output name is the MIDI file name plus ".wav", and the writer then
  appends its own extension, e.g. `song.mid.wav.ogg`.
- No code path sets a MIDI renderer's status to Error, so the pool's Error
  branch is only reachable from outside the model.
- A channel configuration event is applied at once, ahead of audio events
  for that channel that are still cached (`StandardRenderer.ConfigOvertakesCachedNote`).
- `cancel_render` in tabs/render.rs assigns through `self.state`, a field the
  tab does not have. The model cancels both pools and turns rendering off,
  which is what the method evidently means.

## Model

| member | source | states |
|---|---|---|
| Base.Join | src/writer.rs:35-39 | pushing a file name onto a directory adds exactly one last component and keeps the directory's components |
| Base.FileName | src/xsynth/midi_pool.rs:129-130 | a path has a file name exactly when its last component exists and is not "..", and the name is that component |
| Base.TruncToNat | src/utils.rs:18-20 | the `as u64` cast: 0 for non-positive values, otherwise the whole part of the value |
| Base.TruncToI16 | src/writer/pcm.rs:46-48 | the `as i16` cast: always within the i16 range and within 1 of the value when it fits; it truncates toward zero (a non-negative value gives a non-negative result no larger than it, a non-positive value a non-positive result no smaller than it) and saturates (32767 for values from 32767 up, -32768 for values from -32768 down) |
| Base.NatToString | src/utils.rs:27 | decimal printing gives at least one digit, a single digit exactly for numbers below 10, and no leading zero |
| Base.ParseNatToString | src/utils.rs:27 | reading the printed digits back gives the number |
| Base.ZeroPad2 | src/utils.rs:22 | `{:02}` gives at least two digits, exactly two below 100, and reads back as the number |
| Base.Filter | src/elements/midi_list.rs:131-138 | `filter` + `collect` keeps only elements passing the test, and keeps every element that passes |
| Base.FilterCounts | src/elements/midi_list.rs:131-138 | an element passing the test occurs in the result as often as in the input, any other not at all |
| Base.FilterIdempotent | src/elements/midi_list.rs:131-138 | filtering a second time changes nothing |
| Errors.FileLoadErrorMessage | src/errors/error_types.rs:11-19 | "Invalid File Format", "File Not Found", or "File Corrupt: " followed by the detail |
| Errors.MIDILoadErrorMessage | src/errors/error_types.rs:31-37 | the three MIDI load failures display as fixed texts, with the file-system detail in parentheses |
| Errors.RendererErrorMessage | src/errors/error_types.rs:28-41 | load errors display as their MIDI load text; renderer and writer errors get the prefixes "Renderer Error: " and "Writer Error: " |
| Errors.FileLoadErrorPrefixesDistinct | src/errors/error_types.rs:14-16 | the first characters of a file-load message tell which variant it came from |
| Errors.RendererErrorPrefixesDistinct | src/errors/error_types.rs:31-39 | the first characters of a renderer-error message tell which variant it came from |
| Errors.FileLoadErrorMessageInjective | src/errors/error_types.rs:11-19 | two file-load errors with the same text are the same error |
| Errors.RendererErrorMessageInjective | src/errors/error_types.rs:28-41 | two renderer errors with the same text are the same error, detail included |
| Errors.LoadMessageShape | src/errors/error_types.rs:32-36 | the three MIDI load texts differ at fixed positions after the common "MIDI Load Error: " prefix |
| Modes.ModeIndex | src/state.rs:1-12 | Standard encodes as 0 and RealtimeSimulation as 1 |
| Modes.ConcurrencyIndex | src/state.rs:14-27 | None encodes as 0, ParallelItems as 1, ParallelTracks as 2 and Both as 3, and nothing else has those indices |
| Modes.ModeFromIndex | src/elements/render_settings.rs:22-28 | only index 1 decodes to RealtimeSimulation; every other index decodes to Standard |
| Modes.ConcurrencyFromIndex | src/elements/render_settings.rs:42-50 | 0 decodes to None, 1 to ParallelItems, 2 to ParallelTracks, 3 to Both, and every index from 4 up to None |
| Modes.ModeRoundTrip | src/elements/render_settings.rs:22-28 | decoding a mode's index gives the mode back |
| Modes.ConcurrencyRoundTrip | src/elements/render_settings.rs:42-50 | decoding a concurrency setting's index gives the setting back |
| Modes.ConcurrencyIndexRoundTrip | src/elements/render_settings.rs:42-50 | every index below 4 is the encoding of what it decodes to |
| Modes.EncodingsInjective | src/state.rs:2-20 | distinct modes, and distinct concurrency settings, have distinct indices |
| Settings.DefaultsAre | src/settings.rs:54-197 | the default channel settings (layer limit 16 enabled, no soundfonts, thread pool on, fade-out killing on, not drums-only), 16 default individual entries, both configuration types Global, 48 kHz stereo Standard rendering with velocity range 0..=0, one parallel MIDI, 32-bit float WAV, no output folder, no concurrency, and the limiter defaults of src/dsp.rs:15-25 |
| Settings.Unify | src/settings.rs:92-123 | exactly 16 channels; channel i takes its non-soundfont settings from the global or the i-th individual entry according to `chcfg_type`, and its soundfonts from the global or the i-th individual list according to `sfcfg_type` |
| Settings.UnifyIndependence | src/settings.rs:98-120 | changing `sfcfg_type` changes only soundfonts, and changing `chcfg_type` never changes soundfonts |
| Settings.UnifyGlobal | src/settings.rs:98-114 | with both types Global every channel is a copy of the global settings |
| Settings.PCMSampleFormatName | src/settings.rs:139-146 | the display texts of the PCM sample formats |
| Settings.OutputAudioFormatName | src/settings.rs:156-164 | the display texts "WAV", "OGG" and "MP3" of the output formats |
| Settings.FormatNamesDistinct | src/settings.rs:156-164 | two output formats with the same display text are the same kind of format |
| RenderSettingsPanel.ClampNat | src/elements/render_settings.rs:84-95 | an integer drag value lands within its range and is unchanged when already inside it |
| RenderSettingsPanel.ClampReal | src/elements/render_settings.rs:108-112 | a real drag value lands within its range and is unchanged when already inside it |
| RenderSettingsPanel.ApplyMode | src/elements/render_settings.rs:10-28 | the mode is kept when the combo shows its own index and decoded otherwise; the result is RealtimeSimulation exactly for index 1 |
| RenderSettingsPanel.ApplyConcurrency | src/elements/render_settings.rs:30-50 | the setting is kept when the combo shows its own index; otherwise index 1 selects ParallelItems, 2 ParallelTracks, 3 Both, and 0 or anything from 4 up selects None |
| RenderSettingsPanel.ApplyChannels | src/elements/render_settings.rs:60-75 | the channel count written back is the selected index plus one |
| RenderSettingsPanel.ApplyVelocity | src/elements/render_settings.rs:81-102 | the low end is clamped to [0, previous high end] and the high end to [0, 127] |
| RenderSettingsPanel.ApplyFps | src/elements/render_settings.rs:104-116 | the buffer length stays positive; it is unchanged when the clamped fps equals the shown 1000/buffer, and otherwise buffer × fps = 1000 with fps clamped to [1, 100000] |
| RenderSettingsPanel.ShowRenderSettings | src/elements/render_settings.rs:4-118 | each setting is updated by its own widget as above, the sample rate lands in [8000, 384000], and the DSP settings, parallel MIDI count, output folder and format are untouched |
| RenderSettingsPanel.Displayed | src/elements/render_settings.rs:10-116 | the values the panel shows for the current settings, with the combo indices inside the combos' ranges |
| RenderSettingsPanel.UntouchedPanelKeepsSettings | src/elements/render_settings.rs:4-118 | a frame in which the user edits nothing leaves in-range settings unchanged |
| RenderSettingsPanel.ShowKeepsInRange | src/elements/render_settings.rs:4-118 | settings within the panel's ranges stay within them after any edit that keeps the velocity range ordered |
| ChannelConfig.NewConfig | src/elements/channel_cfg.rs:14-22 | a new channel configuration limits layers to 10, uses no thread pool, has volume 1.0 and the default channel init options |
| ChannelConfig.SaveToStateSettings | src/elements/channel_cfg.rs:24-32 | the layer limit is `Some(layer_count)` exactly when layers are limited; init, thread pool and volume are copied; soundfonts are never touched |
| ChannelConfig.SaveOverwrites | src/elements/channel_cfg.rs:24-32 | a save erases everything an earlier save wrote; only the soundfonts carry over |
| ChannelConfig.SaveIdempotent | src/elements/channel_cfg.rs:24-32 | saving the same configuration twice is saving it once |
| SynthTab.NewTab | src/tabs/synth.rs:35-57 | both configuration types Global, empty global and 16 empty per-channel soundfont lists, and 16 plus one default channel configurations |
| SynthTab.ApplyToState | src/tabs/synth.rs:191-217 | every channel's soundfonts become the global list or its own split list, and then the global or its own channel configuration is saved into it |
| SynthTab.ConfigThenSoundfontsAgrees | src/tabs/synth.rs:191-217 | assigning soundfonts before saving configurations gives the same channel as the opposite order |
| SoundfontList.NewList | src/elements/sf_list.rs:61-68 | a list built from items keeps them, starts ids at 0 and has no configuration windows |
| SoundfontList.AddItem | src/elements/sf_list.rs:70-112 | FileNotFound, then InvalidFormat for an extension other than "sfz", then Corrupt with the parser's message; a failure leaves the list unchanged; success appends one enabled, unselected item with the next id, bank and preset 0 and linear interpolation, and increments the id counter |
| SoundfontList.AddAllIdsIncrease | src/elements/sf_list.rs:180-194 | adding several dropped files only appends, and the appended items carry strictly increasing ids at or above the previous counter |
| SoundfontList.SelectAll | src/elements/sf_list.rs:114-124 | every item becomes selected, nothing else changes |
| SoundfontList.RemoveSelected | src/elements/sf_list.rs:126-136 | only unselected items stay, each unselected item as often as it occurs, and every configuration window is closed |
| SoundfontList.RemoveSelectedKeepsOrder | src/elements/sf_list.rs:126-136 | removal distributes over concatenation, so the kept items stay in their order |
| SoundfontList.RemoveSelectedSingle | src/elements/sf_list.rs:126-136 | a single item is kept exactly when it is unselected |
| SoundfontList.Clear | src/elements/sf_list.rs:138-141 | the list and the configuration windows become empty |
| SoundfontList.RemoveSelectedIdempotent | src/elements/sf_list.rs:126-136 | removing the selection twice is removing it once |
| SoundfontList.SelectAllThenRemoveEmpties | src/elements/sf_list.rs:114-136 | selecting everything and removing the selection empties the list |
| SoundfontList.OpenConfigWindow | src/elements/sf_list.rs:330-334 | a double click opens a window for an item only when none is open for its id |
| SoundfontList.PruneWindows | src/elements/sf_list.rs:196-202 | exactly the visible windows stay, in order |
| SoundfontList.OpenKeepsWindowIdsUnique | src/elements/sf_list.rs:330-334 | no two windows are ever open for the same item |
| MidiList.LoadErrorDetail | src/elements/midi_list.rs:73-86 | the Corrupt detail for each MIDI load failure |
| MidiList.LoadErrorDetailInjective | src/elements/midi_list.rs:73-86 | different load failures give different details |
| MidiList.AddItem | src/elements/midi_list.rs:40-96 | FileNotFound, then InvalidFormat for an extension other than "mid", then Corrupt with the failure's detail; it succeeds exactly when the file exists, is ".mid" and opens; a failure leaves the list unchanged; success appends one unselected item with the reader's length, size and note count |
| MidiList.AddFolder | src/elements/midi_list.rs:98-117 | an unreadable folder gives FileNotFound and adds nothing |
| MidiList.AddEntriesAppendsMidis | src/elements/midi_list.rs:101-111 | the folder loop only appends, and only unselected items for ".mid" files listed in the folder or below it |
| MidiList.AddFolderAppendsMidis | src/elements/midi_list.rs:98-117 | importing a folder only appends, and only unselected items for ".mid" files of that tree |
| MidiList.SelectAll | src/elements/midi_list.rs:119-129 | every item becomes selected; length and order are kept |
| MidiList.RemoveSelected | src/elements/midi_list.rs:131-138 | only unselected items stay, and each unselected item stays as often as it occurs in the list |
| MidiList.RemoveSelectedKeepsOrder | src/elements/midi_list.rs:131-138 | removal distributes over concatenation, so the kept items stay in their order |
| MidiList.RemoveSelectedSingle | src/elements/midi_list.rs:131-138 | a single item is kept exactly when it is unselected |
| MidiList.RemoveSelectedIdempotent | src/elements/midi_list.rs:131-138 | removing the selection twice is removing it once |
| MidiList.SelectAllThenRemoveEmpties | src/elements/midi_list.rs:119-142 | selecting everything and removing the selection leaves the empty list that `clear` leaves |
| MidiList.TotalProgress | src/elements/midi_list.rs:156-178 | indexing the list panics exactly when a started stats entry has no list item (the list was shortened by Delete or Ctrl+A while the pool kept one entry per job); otherwise the progress is a finite number exactly when there are stats entries and every started file has a non-zero length, and then it times the entry count is the sum of the shares time/length (0 for files not started) |
| MidiList.ShareSumBounded | src/elements/midi_list.rs:156-178 | while no file has been rendered past its length the summed shares lie in [0, entry count], so the bar stays within [0, 1] |
| Utils.TimeFieldsOf | src/utils.rs:17-20 | minutes × 60 + seconds is the whole number of seconds, seconds are below 60, and the tenths digit is the whole number of tenths mod 10 |
| Utils.TimeString | src/utils.rs:17-23 | the text is digits, ':', two digits, '.', one digit, and exactly "MM:SS.d" below 100 minutes |
| Utils.TimeStringRoundTrip | src/utils.rs:17-23 | reading the minutes, seconds and tenths back from the text gives the computed fields |
| Utils.FileSizeString | src/utils.rs:25-35 | bytes below 1000, KB below one million, MB from one million on |
| Utils.FileSizeUnit | src/utils.rs:25-35 | the text always ends in "B", is never "error", and its unit matches the size range |
| Utils.ReleaseFilename | src/utils.rs:75-79 | "forte-OS-ARCH", with ".exe" exactly on Windows |
| Utils.ReleaseFilenameShape | src/utils.rs:75-79 | the name starts with "forte-OS-ARCH" and is four characters longer exactly on Windows |
| Dsp.NewDsp | src/dsp.rs:40-66 | with the limiter disabled there are no limiters and the offset is 0; enabled, there is one fresh limiter per channel and the offset is the limiter's offset (0 without channels) |
| Dsp.Process | src/dsp.rs:68-74 | disabled, the block passes unchanged; enabled, the length is kept, sample i is the output of limiter i mod channels, and each limiter has seen exactly its channel's samples in order, counting from index 0 of every block |
| PcmWriter.SpecFor | src/writer/pcm.rs:21-31 | Int16 is 16-bit integer and Float32 32-bit float, with the channels and sample rate passed through |
| PcmWriter.SpecForInjective | src/writer/pcm.rs:21-31 | the WAV spec determines the sample format |
| PcmWriter.NewPcm | src/writer/pcm.rs:14-40 | a creation failure becomes a Writer error with its message; otherwise an empty writer with that spec |
| PcmWriter.ToI16 | src/writer/pcm.rs:46-48 | sample × 32767 cast to i16: in range, within 1 of the scaled sample for samples in [-1, 1], truncated toward zero, and saturated at 32767 for samples from 1 up and at -32768 once the scaled sample reaches -32768 |
| PcmWriter.ToI16Monotone | src/writer/pcm.rs:46-48 | a louder sample never converts to a smaller integer |
| PcmWriter.Converted | src/writer/pcm.rs:44-58 | an Int16 writer stores the i16 conversion, a Float32 writer the sample itself |
| PcmWriter.WriteSample | src/writer/pcm.rs:44-58 | a successful write appends the converted sample; a failed one returns a Writer error and stores nothing |
| PcmWriter.WriteSamples | src/writer/pcm.rs:44-58 | writing a block only appends, and on success appends every converted sample in order |
| PcmWriter.Finalize | src/writer/pcm.rs:60-66 | a finalize failure becomes a Writer error |
| Pairing.WriteSample | src/writer/lame.rs:70-96 | an empty cache takes the sample; a cached sample c and the new sample are encoded as one frame (c, sample) and the cache empties; an encode failure returns a Writer error and keeps c |
| Pairing.WriteSamples | src/writer/lame.rs:70-96 | writing a block never removes frames already encoded |
| Pairing.WriteSamplesPairs | src/writer/lame.rs:70-96 | with an encoder that does not fail, 2k samples encode k frames of consecutive pairs in order, and an odd last sample stays cached |
| Pairing.Finalize | src/writer/vorbis.rs:62-67 | finishing encodes nothing more, so a cached unpaired sample is dropped; a finish failure becomes a Writer error |
| LameWriter.GetBitrate | src/writer/lame.rs:54-66 | bitrate/1000 is kept when it is a LAME rate (64 … 320 kbps), anything else gives 192 kbps |
| LameWriter.GetBitrateKeepsTableRates | src/writer/lame.rs:54-66 | each LAME rate given in bits per second selects itself |
| LameWriter.NewLame | src/writer/lame.rs:15-52 | no builder gives "Unable to create LAME encoder"; the first failing configuration step gives its Writer error; otherwise the channel count as u8, the sample rate, the selected bitrate and an empty cache |
| LameWriter.WriteSample | src/writer/lame.rs:70-96 | with no sample cached the sample is cached; with one cached, the frame (cached, sample) goes to the encoder and the cache empties; an encode or file write error is returned as a Writer error and leaves the writer as it was; configuration and path never change |
| LameWriter.WriteSamples | src/writer/lame.rs:70-96 | a block written sample by sample, stopping at the first error, pairs up exactly as `Pairing.WriteSamples` pairs it, and keeps configuration and path |
| LameWriter.Finalize | src/writer/lame.rs:98-112 | a flush failure, then a file write failure, become Writer errors; the encoded frames are those paired so far |
| VorbisWriter.ParamsFor | src/writer/vorbis.rs:26-33 | the sample rate is at least 8000 and the channel count (as u8) at least 2; otherwise both pass through, and the target bitrate is the given one |
| VorbisWriter.NewVorbis | src/writer/vorbis.rs:15-45 | a file creation failure, then an encoder failure, become Writer errors; a zero bitrate panics; otherwise an empty writer with those parameters |
| VorbisWriter.CreatedParamsInRange | src/writer/vorbis.rs:26-39 | a created encoder is never mono, never below 8000 Hz, and has a positive target bitrate |
| VorbisWriter.WriteSample | src/writer/vorbis.rs:49-60 | with no sample cached the sample is cached; with one cached, the block ([cached], [sample]) goes to the encoder and the cache empties; an encoder error is returned as a Writer error and leaves the writer as it was; parameters and path never change |
| VorbisWriter.WriteSamples | src/writer/vorbis.rs:49-60 | a block written sample by sample, stopping at the first error, pairs up exactly as `Pairing.WriteSamples` pairs it, and keeps parameters and path |
| VorbisWriter.Finalize | src/writer/vorbis.rs:62-67 | a finish failure becomes a Writer error; the encoded frames are those paired so far |
| Writer.CommonBitratesMatchTable | src/writer.rs:9-15 | every common bitrate selects its own LAME rate, in order, and the first common sample rate is the Vorbis floor |
| Writer.Extension | src/writer.rs:29-33 | ".wav", ".ogg" or ".mp3" by output format |
| Writer.OutputPath | src/writer.rs:35-41 | the output folder joined with the name, or the bare name; either way the file name is the given name |
| Writer.NewFileWriter | src/writer.rs:28-74 | the name gets the format's extension; the codec writer for the format is built with the settings' channels and sample rate, and its error or panic is the result; a built writer gets a new DSP stage for those settings |
| Writer.CodecWrite | src/writer.rs:78 | each codec keeps its configuration and only appends to what it has written; the MP3 and Vorbis codecs write the block through their own per-sample writes |
| Writer.WriteSamples | src/writer.rs:76-79 | the block passes through the DSP stage first, and the codec receives the processed block |
| Writer.Finalize | src/writer.rs:81-83 | finalizing is the codec's finalize, and its failures are Writer errors |
| Writer.SplitStereo | src/writer.rs:86-100 | left holds the even-index samples and right the odd-index ones, in order, together all of them |
| Writer.Interleave | src/writer.rs:86-100 | the inverse of the split: left samples at even and right samples at odd positions |
| Writer.InterleaveSplit | src/writer.rs:86-100 | re-interleaving the two halves gives the input back |
| Writer.SplitInterleave | src/writer.rs:86-100 | splitting an interleaving gives its two halves back |
| Writer.PairedFramesAreSplit | src/writer/lame.rs:72-91 | the frames the MP3 and Vorbis writers encode from a block are exactly the (left, right) pairs of `split_stereo` |
| Renderers.ReadAllowedIffWholeFrames | src/xsynth/renderers.rs:22 | below 2^32 the length check passes exactly for a whole number of frames |
| Renderers.Fit | src/xsynth/midi_pool.rs:230 | `resize` keeps the first n samples and pads with zeros |
| Renderers.AsAudioStreams | src/xsynth/renderers/standard.rs:77 | cached events wrapped as `ChannelEvent::Audio` reach the channel as exactly those audio events and no configuration |
| StandardRenderer.TotalCached | src/xsynth/renderers/standard.rs:14-15 | the total is 0 exactly when every channel's cache is empty |
| StandardRenderer.FreshChannel | src/xsynth/renderers/standard.rs:35-45 | a new voice channel has the channel's init options and thread-pool choice and has seen no events |
| StandardRenderer.FreshChannels | src/xsynth/renderers/standard.rs:34-48 | one new voice channel per channel setting, in order |
| StandardRenderer.New | src/xsynth/renderers/standard.rs:22-61 | `instances` copies of the channels, every cache empty, a count of 0, and the settings' sample rate and channel count |
| StandardRenderer.Flush | src/xsynth/renderers/standard.rs:63-82 | afterwards the count is 0, and when the count was right every cache is empty |
| StandardRenderer.FlushIfFull | src/xsynth/renderers/standard.rs:118-120 | afterwards the count is at most MAX_EVENT_CACHE_SIZE |
| StandardRenderer.SendEvent | src/xsynth/renderers/standard.rs:113-135 | an out-of-range channel panics; otherwise the count is at most MAX_EVENT_CACHE_SIZE after an audio event |
| StandardRenderer.AppendToAll | src/xsynth/renderers/standard.rs:122-125 | every channel's cache gets the event at its end |
| StandardRenderer.SendKeepsValid | src/xsynth/renderers/standard.rs:113-135 | the count stays equal to the number of cached events |
| StandardRenderer.FlushKeepsPending | src/xsynth/renderers/standard.rs:63-82 | a flush changes neither the audio events each channel has pending, delivered or cached, in order, nor its configurations, nor its reads |
| StandardRenderer.SendChannelAppends | src/xsynth/renderers/standard.rs:115-121 | a channel event is appended to that channel's pending events only |
| StandardRenderer.SendAllAppends | src/xsynth/renderers/standard.rs:122-130 | an all-channels event is appended to every channel's pending events |
| StandardRenderer.SendConfigAppliesAtOnce | src/xsynth/renderers/standard.rs:131-133 | a configuration event reaches its channel at once and leaves every cache as it was |
| StandardRenderer.ConfigOvertakesCachedNote | src/xsynth/renderers/standard.rs:131-133 | a configuration sent after a still-cached note reaches the channel before that note |
| StandardRenderer.Blocks | src/xsynth/renderers/standard.rs:91-98 | one block per channel, rendered from that channel's events |
| StandardRenderer.Column | src/xsynth/renderers/standard.rs:100-103 | the k-th sample of every channel's block |
| StandardRenderer.AddInto | src/xsynth/renderers/standard.rs:101 | `sum_simd` adds a block into the buffer sample by sample |
| StandardRenderer.RenderTo | src/xsynth/renderers/standard.rs:84-105 | the caches are flushed first; each output sample is the buffer's sample plus the sum over channels of their blocks' samples; every channel records one read of the buffer's length |
| StandardRenderer.ReadSamples | src/xsynth/renderers.rs:21-24 | panics exactly when the length is not a whole number of frames; otherwise each output sample is the buffer's sample plus every channel's block after a flush, each channel's audio events (delivered or cached) and configurations are kept in order, and each channel records one more read, of the buffer's length |
| StandardRenderer.ChannelVoices | src/xsynth/renderers/standard.rs:141-146 | each channel's voice count |
| StandardRenderer.VoicesOf | src/xsynth/renderers/standard.rs:141-146 | one voice count per channel, in channel order, as the engine reports it for that channel's history |
| StandardRenderer.VoiceCountSilentIff | src/xsynth/renderers/standard.rs:141-146 | the summed voice count is 0 exactly when every channel is silent |
| MidiPool.MaxParallel | src/xsynth/midi_pool.rs:378-381 | 1 for no concurrency or parallel tracks, `parallel_midis` for parallel MIDIs or both |
| MidiPool.NewPool | src/xsynth/midi_pool.rs:341-388 | an empty list fails with "Empty MIDI List"; it succeeds exactly when every file loads, with one fresh Idle job per file in order; otherwise it returns the first failing file's error, and every job built before it has its allow flag cleared |
| MidiPool.CountStatus | src/xsynth/midi_pool.rs:420-428 | the count of jobs with a status never exceeds the number of jobs |
| MidiPool.CountPositive | src/xsynth/midi_pool.rs:420-428 | the count is positive exactly when some job has that status |
| MidiPool.SpawnNextKeepsIdleSuffix | src/xsynth/midi_pool.rs:397-418 | starting the first Idle job keeps the idle jobs a suffix of the list |
| MidiPool.SpawnNext | src/xsynth/midi_pool.rs:397-428 | a job starts exactly when fewer than `max_parallel` render and one is Idle; then exactly the first Idle job becomes Rendering; otherwise nothing changes |
| MidiPool.Run | src/xsynth/midi_pool.rs:390-395 | afterwards the pool is rendering, and either `max_parallel` jobs render or none is left Idle |
| MidiPool.FinishJob | src/xsynth/midi_pool.rs:265-266 | a renderer thread's end marks its Rendering job Finished and changes nothing else |
| MidiPool.ReportStats | src/xsynth/midi_pool.rs:270-273 | a renderer's stats update touches only its job's stats |
| MidiPool.FinishJobKeepsInvariants | src/xsynth/midi_pool.rs:420-428 | a job finishing keeps the idle jobs a suffix and the Rendering count within the limit |
| MidiPool.Cancel | src/xsynth/midi_pool.rs:485-491 | every job's allow flag is cleared, the list is emptied and rendering stops |
| MidiPool.Status | src/xsynth/midi_pool.rs:430-453 | the first Rendering or Error job's status, else the last job's, else Finished for an empty pool; every Finished job before that point drops its renderer; an Error cancels the pool, and Finished stops rendering |
| MidiPool.GetStats | src/xsynth/midi_pool.rs:463-479 | one entry per job, None exactly for Idle jobs, otherwise that job's stats |
| MidiPool.SetSoundfontsTargets | src/xsynth/midi_pool.rs:455-461 | exactly the jobs still holding a renderer, in list order |
| MidiPool.FinishedStatusMeansAllFinished | src/xsynth/midi_pool.rs:430-453 | with idle jobs at the end, a Finished answer means every job has finished |
| MidiRenderer.ToSynthEvent | src/xsynth/midi_pool.rs:284-316 | note on, note off, control change and pitch wheel become one channel event on their own channel; every other event is dropped |
| MidiRenderer.ToMidiEvent | src/xsynth/midi_pool.rs:284-316 | the inverse: a channel event read back as the MIDI event it came from |
| MidiRenderer.ToSynthEventRoundTrip | src/xsynth/midi_pool.rs:284-316 | reading back a sent event gives the original MIDI event |
| MidiRenderer.RenderedTrans | src/xsynth/midi_pool.rs:212-224 | two consecutive rendered stretches are one stretch of their summed time and frames |
| MidiRenderer.RenderPiece | src/xsynth/midi_pool.rs:225-243 | frames = floor(sample rate × t + carry) and the new carry is the rest; the read panics exactly for a length that is not whole frames, which cannot happen for 10 ms within 32 bits; time grows by t, the stats record it, and without the limiter the samples sent are the mixed output |
| MidiRenderer.RenderBatch | src/xsynth/midi_pool.rs:212-244 | the delta is cut into pieces of exactly 10 ms followed by one last piece of at most 10 ms, all positive and summing to the delta; every channel serves one read per piece, in order, and the reads' sample counts add up to the frames times the channel count; frames + new carry = old carry + sample rate × delta, time grows by delta, and nothing panics when the rates fit in 32 bits |
| MidiRenderer.Finish | src/xsynth/midi_pool.rs:225-243 | the loop of `render_batch` after its first piece: more 10 ms pieces while over 10 ms is left, then the remainder, each one read, ending on the whole delta |
| MidiRenderer.FinalizeLengthAsWritten | src/xsynth/midi_pool.rs:248-250 | the buffer `finalize` reads fails the length check for stereo at an odd sample rate |
| MidiRenderer.FinalizeAsWrittenPanicsAt11025 | src/xsynth/midi_pool.rs:248-250 | stereo at 11025 Hz, a common rate, panics |
| MidiRenderer.FinalizeLength | src/xsynth/midi_pool.rs:248-250 | one second of whole frames: at least the sample rate and always passing the check |
| MidiRenderer.Finalize | src/xsynth/midi_pool.rs:246-267 | for a buffer of `len` samples: the first read panics exactly when `len` is not a whole number of frames; otherwise every forwarded block is a full buffer that is not silent, the first silent block is not forwarded, the status becomes Finished, and no event stream changes |
| MidiRenderer.FinalizeAsWritten | src/xsynth/midi_pool.rs:246-267 | `finalize` with the buffer sized as the program sizes it: stereo at an odd sample rate panics on the first drain read; otherwise the blocks are `sample_rate` samples long and the status becomes Finished |
| MidiRenderer.LoadedPaths | src/xsynth/midi_pool.rs:199-204 | exactly the channel's soundfont paths present in the cache |
| MidiRenderer.SetSoundfonts | src/xsynth/midi_pool.rs:189-210 | channel i receives one SetSoundfonts configuration with its cached soundfonts; pending audio is untouched; it panics when there are more channel settings than channels |
| MidiRenderer.EventsForRoundTrip | src/xsynth/midi_pool.rs:284-316 | a channel receives one event per MIDI event on that channel, and each reads back as a MIDI event |
| MidiRenderer.BatchTime | src/xsynth/midi_pool.rs:280-282 | a batch advances time by its delta when positive, otherwise not at all |
| MidiRenderer.SendEvents | src/xsynth/midi_pool.rs:284-316 | it panics exactly when an event names a missing channel; otherwise each channel's pending events grow by its events in order and nothing else changes |
| MidiRenderer.PlayBatch | src/xsynth/midi_pool.rs:280-316 | a batch renders its delta before dispatching its events |
| MidiRenderer.Received | src/xsynth/midi_pool.rs:275-278 | the batches played are a prefix of the file's, cut where the allow flag was cleared |
| MidiRenderer.PlayAll | src/xsynth/midi_pool.rs:275-317 | playing the received batches advances the clock by their summed time and appends every channel's events to its pending stream in file order; it cannot panic when every event's channel exists and the rates fit in 32 bits |
| MidiRenderer.EndNotes | src/xsynth/midi_pool.rs:319-322 | every channel's pending events end with AllNotesOff then ResetControl |
| MidiRenderer.Run | src/xsynth/midi_pool.rs:269-324 | the status ends Finished; the clock advances by the received batches' summed time; the samples sent are the rendered frames followed by the non-silent tail blocks; each channel's pending stream gains its events in file order and then AllNotesOff and ResetControl; with the corrected `finalize` buffer (`MidiRenderer.FinalizeLength`, see Findings), a panic happens only for an event on a missing channel or rates beyond 32 bits, and every tail block is one second of whole frames |
| MidiRenderer.OutputName | src/xsynth/midi_pool.rs:129-139 | the file name, or "out" without one, followed by ".wav" |
| MidiRenderer.NewRenderer | src/xsynth/midi_pool.rs:105-123 | one channel per channel setting, each told its layer limit once, with empty caches and the settings' audio parameters |
| MidiRenderer.LoadNew | src/xsynth/midi_pool.rs:65-179 | a MIDI open failure becomes a load error, then the writer's error or panic is the result; a loaded renderer is Idle with zero clock, carry, stats and output, a limiter exactly when it is enabled, and every channel configured with its layer limit |
| RenderManager.FirstOccurrencesProps | src/xsynth/render_manager.rs:34-46 | the deduplicated list has one item per path, exactly the input's paths, and each item is the first with its path |
| RenderManager.CollectSoundfonts | src/xsynth/render_manager.rs:34-46 | the collected list is the deduplication of every channel's soundfonts, channel by channel |
| RenderManager.New | src/xsynth/render_manager.rs:31-64 | the soundfont pool loads the deduplicated soundfonts; the manager fails exactly when the list is empty or a file fails to load, and then its error is the empty-list error or the error of the first file that fails; on success one fresh job per file |
| RenderManager.Combine | src/xsynth/render_manager.rs:66-80 | a Rendering or Finished MIDI pool gives RenderingMIDIs or RenderFinished; otherwise Loading, Error and Finished of the soundfont pool give LoadingSoundfonts, SFLoadError and SoundfontsFinished |
| RenderManager.SoundfontErrorNeedsQuietMidiPool | src/xsynth/render_manager.rs:66-80 | a soundfont error is reported only while the MIDI pool is Idle or failed |
| RenderManager.Status | src/xsynth/render_manager.rs:66-80 | both pools are asked, soundfonts first, and their answers combined |
| RenderManager.Render | src/xsynth/render_manager.rs:82-85 | the renderers still held get their soundfonts before the MIDI pool starts |
| RenderManager.Cancel | src/xsynth/render_manager.rs:99-102 | every soundfont worker and every job loses its allow flag, and the MIDI pool is emptied |
| SoundfontPool.LoadNew | src/xsynth/soundfont_pool.rs:31-34 | a worker starts Loading and allowed |
| SoundfontPool.NewPool | src/xsynth/soundfont_pool.rs:73-90 | one loading worker per soundfont, in order, with no deduplication |
| SoundfontPool.Complete | src/xsynth/soundfont_pool.rs:40-52 | a successful load becomes Finished and reaches the cache only while allowed; a failed one becomes Error and leaves the cache alone |
| SoundfontPool.Cancel | src/xsynth/soundfont_pool.rs:92-96 | every worker loses its allow flag and keeps its status |
| SoundfontPool.Scan | src/xsynth/soundfont_pool.rs:112-118 | Error exactly when some worker failed, otherwise the last worker's status, or Finished for none |
| SoundfontPool.Status | src/xsynth/soundfont_pool.rs:98-125 | Error exactly when a worker failed, Finished exactly when all finished, else Loading; Finished workers are dropped, and an Error cancels the rest |
| SoundfontPool.ErrorPersists | src/xsynth/soundfont_pool.rs:98-125 | once a worker has failed the pool reports Error, and keeps doing so on the next call and after any load step |
| SoundfontPool.CancelledLoadNotCached | src/xsynth/soundfont_pool.rs:40-48 | a load finishing after cancellation never reaches the cache |
| SoundfontPool.AllowedLoadCached | src/xsynth/soundfont_pool.rs:40-48 | a successful load while allowed is cached under its path |
| RenderTab.RendererGuiError | src/tabs/render.rs:207-212 | a construction failure shows "Renderer Error" with the error's text |
| RenderTab.FinishedMeansNothingToSpawn | src/tabs/render.rs:66-70 | a Finished answer means no job is left to start, so the conversion ends on that frame |
| RenderTab.ManagerStatus | src/tabs/render.rs:39 | polling keeps jobs started in order and the Rendering count within the limit, and a Finished MIDI answer means no job is left to start |
| RenderTab.HasFinished | src/xsynth/midi_pool.rs:481-483 | asking again keeps the pool well kept, and a yes means no job is left to start |
| RenderTab.Poll | src/tabs/render.rs:31-86 | not rendering: nothing happens and the manager is dropped; otherwise the manager survives exactly while the conversion goes on, a soundfont error stops it with "Invalid Soundfont chain", and progress is the MIDI pool's stats unless it has finished |
| RenderTab.Start | src/tabs/render.rs:194-214 | the output folder is set and one job per list item is created in order; a failure stops rendering and shows the error, and an empty list gives "Empty MIDI List" |
| RenderTab.CancelRender | src/tabs/render.rs:249-255 | rendering stops and both pools are cancelled |

## Left out

- MidiRenderer.LoadNew: requires Standard mode, because the Realtime Simulation renderer (src/xsynth/renderers/buffered.rs) is not part of this model.
- The MIDI parser thread and the writer thread: the parsed batches are a parameter, and the samples handed to the writer are the sequence `sent`.
  - The bounded channel's capacity and back-pressure are not modelled.
  - The writer thread's own `write_samples`/`finalize` calls are modelled by `Writer.WriteSamples` and `Writer.Finalize`, but they are not connected to `sent`.
- Atomics and threads become steps: `MidiPool.FinishJob`, `MidiPool.ReportStats` and `SoundfontPool.Complete` are the other threads' effects; the cancellation a renderer notices is the `stopAt` parameter of `MidiRenderer.Run`.
- MidiRenderer.Finalize: drains at most `fuel` blocks, because the source's loop ends only if the synthesizer falls silent; the foreign voice engine gives no such guarantee.
- MidiRenderer.Finalize: takes its buffer length as a parameter; `MidiRenderer.FinalizeAsWritten` passes the program's length, `MidiRenderer.Run` the corrected `FinalizeLength` (see Findings).
- MidiRenderer.Run: drains with the corrected buffer length, so it does not show the panic the program has for stereo at an odd sample rate; that panic is stated by `MidiRenderer.FinalizeAsWritten`.
- MidiRenderer.RenderBatch: states what each piece reads and how the pieces add up, but not the samples each piece sends; those (the mixed output when there is no limiter) are stated per piece by `MidiRenderer.RenderPiece`.
- Renderers.ReadAllowed: `channels as u32` (src/xsynth/renderers.rs:22) is read as the channel count, 1 for mono and 2 for stereo. The discriminants of xsynth_core's `ChannelCount` are not part of this model. If they were the defaults 0 and 1, every mono read would panic on a remainder by zero and no stereo read would fail the check. `StandardRenderer.ReadSamples`, `MidiRenderer.RenderPiece`, `MidiRenderer.Finalize` and the finding about src/xsynth/midi_pool.rs:248-250 rest on this reading.
- MidiList.AddItem: the `open` oracle returns a loaded file or a load error only; the two panics after a successful open (the statistics `unwrap` and the `fs::metadata(path).unwrap()` at src/elements/midi_list.rs:55,59) are not modelled.
- Pairing.WriteSample: the encoder and the file write are one fallible step (`FrameSink`); when the encode succeeds and the file write fails, the program has already fed the frame to the encoder, and the model treats it like an encode failure with nothing encoded.
- StandardRenderer.SendEvent: does not model the u32 wrap-around of `cached_event_count`, which the flush at 2^20 events prevents except for an all-channels event on more than about 4·10^9 channels.
- Floating point is real arithmetic. This covers `remaining_time -= 0.01` drift, f32 sample rounding, the pitch-bend scaling, and the one-decimal KB/MB formatting (`Utils.FileSizeString` takes the formatter as a parameter).
- MidiList.TotalProgress: a non-finite f32 result (no stats, or a started file of length 0) is `None` instead of NaN or infinity.
- Foreign engines are parameters:
  - MIDI file parsing and statistics;
  - XSynth voice channels and soundfont loading;
  - the lookahead limiter's arithmetic;
  - the hound, LAME and Vorbis encoders;
  - the SFZ parser;
  - file-system checks.
- I/O, drawing and event plumbing of egui are not modelled:
  - the file dialogs, key handling and tables;
  - the config windows' contents (src/elements/sf_cfg.rs);
  - persistent messages;
  - src/app.rs, src/main.rs and src/tabs/about.rs.
- Saving and loading the configuration file (src/settings.rs:219-277) and the update check (`get_latest_version`, `check_for_updates`) are not modelled; they are file and network I/O.
- Dsp.Process: requires a channel count above 0 when the limiter is on and the block is not empty, where the source would panic on `% 0`.
- Settings.Unify: requires at least 16 individual entries when either type is PerChannel, where the source would panic on a short slice.
- SynthTab.ApplyToState: requires the split lists and channel configurations to cover the channel settings, where the source would panic on an index.
- RenderSettingsPanel.ApplyChannels: requires a channel count of at least 1, where the source's `audio_channels - 1` would underflow.
- RenderSettingsPanel.ShowRenderSettings: requires a channel count of at least 1 and a positive buffer length, for the same reason and to keep 1000/buffer defined.
- RenderTab.Poll: models the decision logic of `show` only; the bottom panel, the settings panel and the list drawing are left out.

## Findings

| source | as written | input that shows it | evidently intended | confidence | as-written member | corrected member |
|---|---|---|---|---|---|---|
| src/xsynth/midi_pool.rs:248-250 | `finalize` resizes its buffer to `sample_rate` samples whatever the channel count, and `read_samples` asserts the length is a multiple of the channel count | stereo output at 11025 Hz, one of the common sample rates: 11025 % 2 = 1, so the first drain read panics (reading `ChannelCount as u32` as the count, 2 for stereo) | read one second of whole frames, `sample_rate × channels` samples | not executed; assumes `ChannelCount as u32` is the channel count, which xsynth_core defines outside this model | MidiRenderer.FinalizeLengthAsWritten (witness MidiRenderer.FinalizeAsWrittenPanicsAt11025) | MidiRenderer.FinalizeLength |
