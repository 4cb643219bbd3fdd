/** The decision logic of the render settings panel: what each widget's value
    does to the render settings. A widget's value is the value the user left
    in it this frame; a widget's clamp range is applied to that value
    explicitly, as the widget does. */
module RenderSettingsPanel {
  import opened Modes
  import opened Settings

  /** The values the panel's widgets hold after this frame's interaction. */
  datatype PanelInput = PanelInput(
    modeIndex: nat, concurrencyIndex: nat, sampleRate: nat, channelsIndex: nat,
    useLimiter: bool, loVel: nat, hiVel: nat, fps: real)

  function ClampNat(x: nat, lo: nat, hi: nat): (r: nat)
    requires lo <= hi
    ensures lo <= r <= hi
    ensures lo <= x <= hi ==> r == x
  {
    if x < lo then lo else if x > hi then hi else x
  }

  function ClampReal(x: real, lo: real, hi: real): (r: real)
    requires lo <= hi
    ensures lo <= r <= hi
    ensures lo <= x <= hi ==> r == x
  {
    if x < lo then lo else if x > hi then hi else x
  }

  const MinSampleRate: nat := 8000
  const MaxSampleRate: nat := 384000
  const MaxVelocity: nat := 127
  const MinFps: real := 1.0
  const MaxFps: real := 100000.0

  /** The mode after the mode drop-down: written only when the chosen index
      differs from the current mode's index. */
  function ApplyMode(current: RenderMode, index: nat): (m: RenderMode)
    ensures index == ModeIndex(current) ==> m == current
    ensures index != ModeIndex(current) ==> m == ModeFromIndex(index)
    ensures index == 1 <==> m.RealtimeSimulation?
  {
    if index != ModeIndex(current) then ModeFromIndex(index) else current
  }

  /** The concurrency policy after its drop-down, written only on change. */
  function ApplyConcurrency(current: Concurrency, index: nat): (c: Concurrency)
    ensures index == ConcurrencyIndex(current) ==> c == current
    ensures index < 4 ==> ConcurrencyIndex(c) == index
    ensures index == 0 ==> c.NoConcurrency?
    ensures index == 1 ==> c.ParallelItems?
    ensures index == 2 ==> c.ParallelTracks?
    ensures index == 3 ==> c.Both?
    ensures index >= 4 ==> c.NoConcurrency?
  {
    if index != ConcurrencyIndex(current) then ConcurrencyFromIndex(index) else current
  }

  /** The channel selector shows `audio_channels - 1` and writes back
      `index + 1` when the index changed. */
  function ApplyChannels(current: nat, index: nat): (n: nat)
    requires current >= 1
    ensures n >= 1
    ensures n == index + 1
  {
    if index != current - 1 then index + 1 else current
  }

  /** The velocity ignore range: the low end is clamped to at most the high
      end as it was before this frame, the high end to at most 127; the range
      is rewritten only when either end changed. */
  function ApplyVelocity(current: VelocityRange, loIn: nat, hiIn: nat): (v: VelocityRange)
    ensures v.lo <= current.hi && v.hi <= MaxVelocity
    ensures v.lo == ClampNat(loIn, 0, current.hi) && v.hi == ClampNat(hiIn, 0, MaxVelocity)
  {
    var lo := ClampNat(loIn, 0, current.hi);
    var hi := ClampNat(hiIn, 0, MaxVelocity);
    if lo != current.lo || hi != current.hi then VelocityRange(lo, hi) else current
  }

  /** The realtime buffer length in milliseconds after the fps field: the
      field shows 1000 / buffer, and a changed value writes 1000 / fps back. */
  function ApplyFps(buffer: real, fpsIn: real): (b: real)
    requires buffer > 0.0
    ensures b > 0.0
    ensures ClampReal(fpsIn, MinFps, MaxFps) == 1000.0 / buffer ==> b == buffer
    ensures ClampReal(fpsIn, MinFps, MaxFps) != 1000.0 / buffer ==>
      b * ClampReal(fpsIn, MinFps, MaxFps) == 1000.0 && 0.01 <= b <= 1000.0
  {
    var fps := ClampReal(fpsIn, MinFps, MaxFps);
    if fps != 1000.0 / buffer then 1000.0 / fps else buffer
  }

  /** One frame of the panel. The audio channel count must be at least 1,
      since the selector subtracts 1 from it. */
  function ShowRenderSettings(rs: RenderSettings, input: PanelInput): (r: RenderSettings)
    requires rs.audioChannels >= 1 && rs.realtimeBufferMs > 0.0
    ensures r.renderMode == ApplyMode(rs.renderMode, input.modeIndex)
    ensures r.concurrency == ApplyConcurrency(rs.concurrency, input.concurrencyIndex)
    ensures MinSampleRate <= r.sampleRate <= MaxSampleRate
    ensures r.audioChannels == input.channelsIndex + 1
    ensures r.useLimiter == input.useLimiter
    ensures r.velIgnoreRange == ApplyVelocity(rs.velIgnoreRange, input.loVel, input.hiVel)
    ensures r.realtimeBufferMs == ApplyFps(rs.realtimeBufferMs, input.fps)
    ensures r.audioChannels >= 1 && r.realtimeBufferMs > 0.0
    ensures r.dspSettings == rs.dspSettings && r.parallelMidis == rs.parallelMidis
    ensures r.outputDir == rs.outputDir && r.audioFormat == rs.audioFormat
  {
    rs.(renderMode := ApplyMode(rs.renderMode, input.modeIndex),
        concurrency := ApplyConcurrency(rs.concurrency, input.concurrencyIndex),
        sampleRate := ClampNat(input.sampleRate, MinSampleRate, MaxSampleRate),
        audioChannels := ApplyChannels(rs.audioChannels, input.channelsIndex),
        useLimiter := input.useLimiter,
        velIgnoreRange := ApplyVelocity(rs.velIgnoreRange, input.loVel, input.hiVel),
        realtimeBufferMs := ApplyFps(rs.realtimeBufferMs, input.fps))
  }

  /** What the widgets display for the current settings, before any interaction. */
  function Displayed(rs: RenderSettings): (p: PanelInput)
    requires rs.audioChannels >= 1 && rs.realtimeBufferMs > 0.0
    ensures p.modeIndex < 2 && p.concurrencyIndex < 4
  {
    PanelInput(ModeIndex(rs.renderMode), ConcurrencyIndex(rs.concurrency), rs.sampleRate,
      rs.audioChannels - 1, rs.useLimiter, rs.velIgnoreRange.lo, rs.velIgnoreRange.hi,
      1000.0 / rs.realtimeBufferMs)
  }

  /** Settings whose values already lie within the widgets' ranges. */
  predicate InRange(rs: RenderSettings)
  {
    && rs.audioChannels >= 1 && rs.realtimeBufferMs > 0.0
    && MinSampleRate <= rs.sampleRate <= MaxSampleRate
    && rs.velIgnoreRange.lo <= rs.velIgnoreRange.hi <= MaxVelocity
    && MinFps <= 1000.0 / rs.realtimeBufferMs <= MaxFps
  }

  /** A frame in which the user touches nothing leaves in-range settings
      exactly as they were. */
  lemma UntouchedPanelKeepsSettings(rs: RenderSettings)
    requires InRange(rs)
    ensures ShowRenderSettings(rs, Displayed(rs)) == rs
  {
    ModeRoundTrip(rs.renderMode);
    ConcurrencyRoundTrip(rs.concurrency);
  }

  /** The frame keeps the settings in range whenever the high velocity end is
      not lowered below the low end. */
  lemma ShowKeepsInRange(rs: RenderSettings, input: PanelInput)
    requires InRange(rs)
    requires ClampNat(input.loVel, 0, rs.velIgnoreRange.hi) <= ClampNat(input.hiVel, 0, MaxVelocity)
    ensures InRange(ShowRenderSettings(rs, input))
  {
    var b := ApplyFps(rs.realtimeBufferMs, input.fps);
    var fps := ClampReal(input.fps, MinFps, MaxFps);
    if fps != 1000.0 / rs.realtimeBufferMs {
      assert b * fps == 1000.0;
      assert 1000.0 / b == fps;
    }
  }
}
