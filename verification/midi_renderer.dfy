/** One MIDI file's renderer: it is built with its synthesizer and output
    writer, receives the soundfonts once they are loaded, and then turns the
    file's event batches into synthesizer events and audio. Audio is
    rendered in pieces of at most 10 ms, carrying the fraction of a sample
    each piece leaves over into the next. The samples handed to the writer
    thread are kept as the stream `sent`; the MIDI parser's output is the
    sequence of batches. */
module MidiRenderer {
  import opened Base
  import opened Errors
  import opened Settings
  import opened Renderers
  import opened SoundfontList
  import SR = StandardRenderer
  import SP = SoundfontPool
  import W = Writer
  import MP = MidiPool

  /** The MIDI events the renderer acts on, with their channel; every other
      event of the file is `OtherEvent`. */
  datatype MidiEvent =
    | NoteOnEvent(channel: nat, key: nat, velocity: nat)
    | NoteOffEvent(channel: nat, key: nat)
    | ControlChangeEvent(channel: nat, controller: nat, value: nat)
    | PitchWheelEvent(channel: nat, pitch: int)
    | OtherEvent

  /** The events of one tick, after `delta` seconds. */
  datatype Batch = Batch(delta: real, events: seq<MidiEvent>)

  /** The synthesizer event `run` sends for a MIDI event: notes and
      controllers go to their channel unchanged, the pitch wheel is scaled
      into [-1, 1), and every other event is dropped. */
  function ToSynthEvent(e: MidiEvent): (r: Option<SynthEvent>)
    ensures r.None? <==> e.OtherEvent?
    ensures r.Some? ==> r.value.Channel? && r.value.channel == e.channel
  {
    match e
    case NoteOnEvent(ch, key, vel) => Some(Channel(ch, NoteOn(key, vel)))
    case NoteOffEvent(ch, key) => Some(Channel(ch, NoteOff(key)))
    case ControlChangeEvent(ch, c, v) => Some(Channel(ch, Control(Raw(c, v))))
    case PitchWheelEvent(ch, p) => Some(Channel(ch, Control(PitchBendValue(p as real / 8192.0))))
    case OtherEvent => None
  }

  /** The MIDI event a channel event stands for, read back. */
  function ToMidiEvent(channel: nat, a: ChannelAudioEvent): (r: Option<MidiEvent>)
    ensures r.Some? ==> !r.value.OtherEvent? && r.value.channel == channel
  {
    match a
    case NoteOn(key, vel) => Some(NoteOnEvent(channel, key, vel))
    case NoteOff(key) => Some(NoteOffEvent(channel, key))
    case Control(Raw(c, v)) => Some(ControlChangeEvent(channel, c, v))
    case Control(PitchBendValue(b)) => Some(PitchWheelEvent(channel, (b * 8192.0).Floor))
    case AllNotesOff => None
    case ResetControl => None
  }

  /** No information is lost on the way to the synthesizer: every event that
      is sent can be read back from what was sent. */
  lemma ToSynthEventRoundTrip(e: MidiEvent)
    requires !e.OtherEvent?
    ensures ToMidiEvent(ToSynthEvent(e).value.channel, ToSynthEvent(e).value.audio) == Some(e)
  {
    if e.PitchWheelEvent? {
      assert e.pitch as real / 8192.0 * 8192.0 == e.pitch as real;
    }
  }

  /** The xsynth volume limiter, seen from outside: the samples it has
      limited so far. */
  datatype VolumeLimiter = VolumeLimiter(seen: seq<real>)

  /** The foreign parts a renderer talks to: the synthesizer, and the volume
      limiter's output for a block given everything it has limited before. */
  datatype Engines = Engines(synth: SynthEngine, limit: (seq<real>, seq<real>) -> seq<real>)

  datatype MidiRenderer = MidiRenderer(
    renderer: SR.Renderer, limiter: Option<VolumeLimiter>, sampleRate: nat, channels: nat,
    missed: real, time: real, stats: MP.RenderStats, sent: seq<real>, status: MP.RendererStatus)

  /** What every step keeps: the synthesizer's stream parameters are the
      renderer's, and less than one sample is carried over. */
  predicate Ok(m: MidiRenderer)
  {
    && SR.Shaped(m.renderer)
    && m.renderer.sampleRate == m.sampleRate && m.renderer.audioChannels == m.channels
    && 0.0 <= m.missed < 1.0
  }

  const MaxBatchTime: real := 0.01

  /** Audio parameters whose reads of up to one second plus one frame fit
      the renderer's 32-bit length check. */
  predicate ReadsFit(sampleRate: nat, channels: nat)
  {
    channels > 0 && (sampleRate + 1) * channels < U32Modulus
  }

  lemma MulMono(a: nat, b: nat, c: nat)
    requires a < b
    ensures a * c <= b * c
  {
    assert b * c == a * c + (b - a) * c;
  }

  /** `m'` is `m` after `t` seconds of audio were rendered into `frames`
      frames: the frames and the new carried fraction account for exactly
      the samples of `t` seconds plus the old fraction, and the writer got
      `frames` frames more. */
  predicate Advanced(m: MidiRenderer, m': MidiRenderer, t: real, frames: nat)
  {
    && Ok(m') && m'.status == m.status
    && m'.sampleRate == m.sampleRate && m'.channels == m.channels
    && m'.limiter.Some? == m.limiter.Some?
    && frames as real + m'.missed == m.missed + m.sampleRate as real * t
    && m'.time == m.time + t
    && |m.sent| <= |m'.sent| == |m.sent| + frames * m.channels && m'.sent[..|m.sent|] == m.sent
  }

  /** Two stretches one after the other are one stretch. */
  lemma AdvancedTrans(m0: MidiRenderer, m1: MidiRenderer, m2: MidiRenderer, t1: real, t2: real, f1: nat, f2: nat)
    requires Advanced(m0, m1, t1, f1) && Advanced(m1, m2, t2, f2)
    ensures Advanced(m0, m2, t1 + t2, f1 + f2)
  {
    var sr := m0.sampleRate as real;
    assert sr * (t1 + t2) == sr * t1 + sr * t2;
    assert (f1 + f2) * m0.channels == f1 * m0.channels + f2 * m0.channels;
    assert m2.sent[..|m0.sent|] == m2.sent[..|m1.sent|][..|m0.sent|];
  }

  /** Rendering without events: the channels were sent and configured as
      before, and the stats show the new time and voice count. */
  predicate Rendered(m: MidiRenderer, m': MidiRenderer, t: real, frames: nat, env: Engines)
  {
    && Advanced(m, m', t, frames) && SR.KeepsStreams(m.renderer, m'.renderer)
    && m'.stats == MP.RenderStats(m'.time, SR.VoiceCount(m'.renderer, env.synth))
  }

  lemma KeepsStreamsTrans(a: SR.Renderer, b: SR.Renderer, c: SR.Renderer)
    requires SR.KeepsStreams(a, b) && SR.KeepsStreams(b, c)
    ensures SR.KeepsStreams(a, c)
  {
  }

  /** Every channel of `r'` served the reads of `r` and then reads of
      `sizes` samples, in order. */
  predicate ReadsAppended(r: SR.Renderer, r': SR.Renderer, sizes: seq<nat>)
  {
    |r'.channels| == |r.channels|
    && forall c :: 0 <= c < |r.channels| ==>
         Reads(r'.channels[c].history) == Reads(r.channels[c].history) + sizes
  }

  lemma ReadsAppendedTrans(r0: SR.Renderer, r1: SR.Renderer, r2: SR.Renderer, s1: seq<nat>, s2: seq<nat>)
    requires ReadsAppended(r0, r1, s1) && ReadsAppended(r1, r2, s2)
    ensures ReadsAppended(r0, r2, s1 + s2)
  {
    forall c | 0 <= c < |r0.channels|
      ensures Reads(r2.channels[c].history) == Reads(r0.channels[c].history) + (s1 + s2)
    {
      assert Reads(r2.channels[c].history) == Reads(r0.channels[c].history) + s1 + s2;
    }
  }

  /** How `render_batch` slices a stretch: pieces of exactly 10 ms, then
      one last piece of at most 10 ms, adding up to the stretch. */
  predicate Sliced(pieces: seq<real>, total: real)
  {
    && |pieces| >= 1
    && (forall k :: 0 <= k < |pieces| ==> 0.0 < pieces[k] <= MaxBatchTime)
    && (forall k :: 0 <= k < |pieces| - 1 ==> pieces[k] == MaxBatchTime)
    && SumReal(pieces) == total
  }

  lemma SumRealSnoc(xs: seq<real>, x: real)
    ensures SumReal(xs + [x]) == SumReal(xs) + x
  {
    assert (xs + [x])[..|xs|] == xs;
  }

  lemma SumNatSnoc(xs: seq<nat>, x: nat)
    ensures SumNat(xs + [x]) == SumNat(xs) + x
  {
    assert (xs + [x])[..|xs|] == xs;
  }

  /** One more read of `f` frames keeps the reads' total at the frames
      times the channel count. */
  lemma SizesAdd(sizes: seq<nat>, frames: nat, f: nat, channels: nat)
    requires SumNat(sizes) == frames * channels
    ensures SumNat(sizes + [f * channels]) == (frames + f) * channels
  {
    SumNatSnoc(sizes, f * channels);
    assert (frames + f) * channels == frames * channels + f * channels;
  }

  lemma RenderedTrans(m0: MidiRenderer, m1: MidiRenderer, m2: MidiRenderer, t1: real, t2: real, f1: nat, f2: nat, env: Engines)
    requires Rendered(m0, m1, t1, f1, env) && Rendered(m1, m2, t2, f2, env)
    ensures Rendered(m0, m2, t1 + t2, f1 + f2, env)
  {
    AdvancedTrans(m0, m1, m2, t1, t2, f1, f2);
    KeepsStreamsTrans(m0.renderer, m1.renderer, m2.renderer);
  }

  /** A piece of at most 10 ms holds at most a second's frames plus one. */
  lemma PieceFits(sampleRate: nat, channels: nat, t: real, missed: real, frames: nat)
    requires 0.0 < t <= MaxBatchTime && 0.0 <= missed < 1.0 && ReadsFit(sampleRate, channels)
    requires frames as real <= sampleRate as real * t + missed
    ensures frames * channels < U32Modulus
  {
    var sr := sampleRate as real;
    var inPiece := sr * t;
    assert inPiece <= sr * MaxBatchTime <= sr;
    assert frames as real < sr + 1.0;
    assert frames <= sampleRate;
    MulMono(frames, sampleRate + 1, channels);
  }

  /** One piece of `render_batch`, at most 10 ms long: the whole samples in
      it (plus the fraction carried over) are read for every audio channel,
      the stats take the new time and voice count, the limiter (if any) is
      applied, and the block goes to the writer. The read panics when the
      buffer fails the renderer's length check. */
  method RenderPiece(m: MidiRenderer, t: real, env: Engines) returns (panics: bool, m': MidiRenderer, frames: nat)
    requires Ok(m) && t > 0.0
    ensures panics <==> !ReadAllowed(frames * m.channels, m.channels)
    ensures m.channels > 0 && frames * m.channels < U32Modulus ==> !panics
    ensures t <= MaxBatchTime && ReadsFit(m.sampleRate, m.channels) ==> !panics
    ensures frames as real <= m.sampleRate as real * t + m.missed < frames as real + 1.0
    ensures !panics ==> Rendered(m, m', t, frames, env)
    ensures !panics ==> ReadsAppended(m.renderer, m'.renderer, [frames * m.channels])
    ensures !panics && m.limiter.None? ==>
      var blocks := SR.Blocks(SR.Flush(m.renderer), env.synth, frames * m.channels);
      forall k :: 0 <= k < frames * m.channels ==> m'.sent[|m.sent| + k] == SumReal(SR.Column(blocks, k))
  {
    var samples := m.sampleRate as real * t + m.missed;
    frames := samples.Floor;
    var missed := samples - frames as real;
    var count := frames * m.channels;
    var buffer := seq(count, _ => 0.0);
    var r, out;
    panics, r, out := SR.ReadSamples(m.renderer, buffer, env.synth);
    if t <= MaxBatchTime && ReadsFit(m.sampleRate, m.channels) {
      PieceFits(m.sampleRate, m.channels, t, m.missed, frames);
    }
    if m.channels > 0 && count < U32Modulus {
      WholeFramesNoRemainder(frames, m.channels);
    }
    if panics {
      m' := m;
      return;
    }
    var time := m.time + t;
    var stats := MP.RenderStats(time, SR.VoiceCount(r, env.synth));
    var block, limiter := out, m.limiter;
    if m.limiter.Some? {
      block := Fit(env.limit(m.limiter.value.seen, out), |out|);
      limiter := Some(VolumeLimiter(m.limiter.value.seen + out));
    }
    m' := m.(renderer := r, limiter := limiter, missed := missed, time := time, stats := stats, sent := m.sent + block);
    assert m'.sent[..|m.sent|] == m.sent;
  }

  lemma RenderedShape(m: MidiRenderer, m': MidiRenderer, t: real, frames: nat, env: Engines)
    requires Rendered(m, m', t, frames, env)
    ensures Ok(m') && m'.sampleRate == m.sampleRate && m'.channels == m.channels
  {
  }

  /** One more piece after a stretch already rendered in reads of `sizes`
      samples: the piece is one more read, of its own frames. */
  method Continue(m: MidiRenderer, cur: MidiRenderer, done: real, frames: nat, ghost sizes: seq<nat>, t: real, env: Engines)
    returns (panics: bool, m': MidiRenderer, frames': nat, ghost sizes': seq<nat>)
    requires Ok(m) && Rendered(m, cur, done, frames, env) && t > 0.0
    requires ReadsAppended(m.renderer, cur.renderer, sizes) && SumNat(sizes) == frames * m.channels
    ensures !panics ==> Rendered(m, m', done + t, frames', env)
    ensures !panics ==> ReadsAppended(m.renderer, m'.renderer, sizes') && SumNat(sizes') == frames' * m.channels
    ensures |sizes'| == |sizes| + 1
    ensures t <= MaxBatchTime && ReadsFit(m.sampleRate, m.channels) ==> !panics
  {
    RenderedShape(m, cur, done, frames, env);
    var f;
    panics, m', f := RenderPiece(cur, t, env);
    frames' := frames + f;
    sizes' := sizes + [f * m.channels];
    if !panics {
      RenderedTrans(m, cur, m', done, t, frames, f, env);
      SizesAdd(sizes, frames, f, m.channels);
      ReadsAppendedTrans(m.renderer, cur.renderer, m'.renderer, sizes, [f * m.channels]);
    }
  }

  /** The 10 ms steps of a stretch count down. */
  lemma StepCountsDown(eventTime: real, done: real)
    requires eventTime - done > MaxBatchTime
    ensures 0 <= ((eventTime - (done + MaxBatchTime)) * 100.0).Floor < ((eventTime - done) * 100.0).Floor
  {
    assert (eventTime - (done + MaxBatchTime)) * 100.0 == (eventTime - done) * 100.0 - 1.0;
  }

  /** The first piece of a stretch: one read of its own frames. */
  method Start(m: MidiRenderer, t: real, env: Engines) returns (panics: bool, m': MidiRenderer, frames: nat, ghost sizes: seq<nat>)
    requires Ok(m) && t > 0.0
    ensures !panics ==> Rendered(m, m', t, frames, env)
    ensures !panics ==> ReadsAppended(m.renderer, m'.renderer, sizes) && SumNat(sizes) == frames * m.channels
    ensures |sizes| == 1
    ensures t <= MaxBatchTime && ReadsFit(m.sampleRate, m.channels) ==> !panics
  {
    panics, m', frames := RenderPiece(m, t, env);
    sizes := [frames * m.channels];
    SumNatSnoc([], frames * m.channels);
  }

  lemma SlicedOne(t: real)
    requires 0.0 < t <= MaxBatchTime
    ensures Sliced([t], t)
  {
    SumRealSnoc([], t);
  }

  /** Ten-millisecond pieces and then a last one slice the whole stretch. */
  lemma SlicedLast(pieces: seq<real>, last: real)
    requires |pieces| >= 1 && forall k :: 0 <= k < |pieces| ==> pieces[k] == MaxBatchTime
    requires 0.0 < last <= MaxBatchTime
    ensures Sliced(pieces + [last], SumReal(pieces) + last)
  {
    SumRealSnoc(pieces, last);
  }

  /** `cur` is `m` after `done` seconds rendered in 10 ms pieces, each one
      read of `sizes`. */
  predicate Midway(m: MidiRenderer, cur: MidiRenderer, done: real, frames: nat, pieces: seq<real>, sizes: seq<nat>, env: Engines)
  {
    && Ok(m) && done > 0.0 && Rendered(m, cur, done, frames, env)
    && |pieces| >= 1 && |sizes| == |pieces| && SumReal(pieces) == done
    && (forall k :: 0 <= k < |pieces| ==> pieces[k] == MaxBatchTime)
    && ReadsAppended(m.renderer, cur.renderer, sizes) && SumNat(sizes) == frames * m.channels
  }

  /** One more 10 ms piece. */
  method Step(m: MidiRenderer, cur: MidiRenderer, done: real, frames: nat, ghost pieces: seq<real>, ghost sizes: seq<nat>, env: Engines)
    returns (panics: bool, m': MidiRenderer, frames': nat, ghost pieces': seq<real>, ghost sizes': seq<nat>)
    requires Midway(m, cur, done, frames, pieces, sizes, env)
    ensures !panics ==> Midway(m, m', done + MaxBatchTime, frames', pieces', sizes', env)
    ensures ReadsFit(m.sampleRate, m.channels) ==> !panics
  {
    panics, m', frames', sizes' := Continue(m, cur, done, frames, sizes, MaxBatchTime, env);
    SumRealSnoc(pieces, MaxBatchTime);
    pieces' := pieces + [MaxBatchTime];
  }

  /** The last piece, of at most 10 ms, ends the stretch. */
  method Last(m: MidiRenderer, cur: MidiRenderer, eventTime: real, done: real, frames: nat, ghost pieces: seq<real>, ghost sizes: seq<nat>, env: Engines)
    returns (panics: bool, m': MidiRenderer, frames': nat, ghost pieces': seq<real>, ghost sizes': seq<nat>)
    requires Midway(m, cur, done, frames, pieces, sizes, env) && done < eventTime <= done + MaxBatchTime
    ensures !panics ==> Rendered(m, m', eventTime, frames', env)
    ensures !panics ==> Sliced(pieces', eventTime) && |sizes'| == |pieces'|
    ensures !panics ==> ReadsAppended(m.renderer, m'.renderer, sizes') && SumNat(sizes') == frames' * m.channels
    ensures ReadsFit(m.sampleRate, m.channels) ==> !panics
  {
    var last := eventTime - done;
    assert done + last == eventTime;
    panics, m', frames', sizes' := Continue(m, cur, done, frames, sizes, last, env);
    SlicedLast(pieces, last);
    pieces' := pieces + [last];
  }

  /** The rest of `render_batch` once `done` seconds of the stretch were
      rendered in 10 ms pieces: more such pieces while over 10 ms is left,
      then the remainder. */
  method Finish(m: MidiRenderer, cur: MidiRenderer, eventTime: real, done: real, frames: nat, ghost pieces: seq<real>, ghost sizes: seq<nat>, env: Engines)
    returns (panics: bool, m': MidiRenderer, frames': nat, ghost pieces': seq<real>, ghost sizes': seq<nat>)
    requires Midway(m, cur, done, frames, pieces, sizes, env) && done < eventTime
    ensures !panics ==> Rendered(m, m', eventTime, frames', env)
    ensures !panics ==> Sliced(pieces', eventTime) && |sizes'| == |pieces'|
    ensures !panics ==> ReadsAppended(m.renderer, m'.renderer, sizes') && SumNat(sizes') == frames' * m.channels
    ensures ReadsFit(m.sampleRate, m.channels) ==> !panics
  {
    m', frames', pieces', sizes', panics := cur, frames, pieces, sizes, false;
    var d := done;
    while eventTime - d > MaxBatchTime
      invariant d < eventTime && Midway(m, m', d, frames', pieces', sizes', env)
      invariant ReadsFit(m.sampleRate, m.channels) ==> !panics
      decreases ((eventTime - d) * 100.0).Floor
    {
      StepCountsDown(eventTime, d);
      panics, m', frames', pieces', sizes' := Step(m, m', d, frames', pieces', sizes', env);
      if panics {
        return;
      }
      d := d + MaxBatchTime;
    }
    panics, m', frames', pieces', sizes' := Last(m, m', eventTime, d, frames', pieces', sizes', env);
  }

  /** `render_batch`: a stretch of `eventTime` seconds is rendered in pieces
      of 10 ms, then whatever is left; the frames rendered plus the fraction
      carried over add up to exactly the stretch's samples. Each piece is
      one read of every channel: `pieces` are the pieces' lengths and
      `sizes` the reads' sample counts, in order. */
  method RenderBatch(m: MidiRenderer, eventTime: real, env: Engines)
    returns (panics: bool, m': MidiRenderer, frames: nat, ghost pieces: seq<real>, ghost sizes: seq<nat>)
    requires Ok(m) && eventTime > 0.0
    ensures !panics ==> Rendered(m, m', eventTime, frames, env)
    ensures !panics ==> Sliced(pieces, eventTime) && |sizes| == |pieces|
    ensures !panics ==> ReadsAppended(m.renderer, m'.renderer, sizes) && SumNat(sizes) == frames * m.channels
    ensures ReadsFit(m.sampleRate, m.channels) ==> !panics
  {
    if eventTime <= MaxBatchTime {
      panics, m', frames, sizes := Start(m, eventTime, env);
      pieces := [eventTime];
      SlicedOne(eventTime);
      return;
    }
    panics, m', frames, sizes := Start(m, MaxBatchTime, env);
    pieces := [MaxBatchTime];
    if panics {
      return;
    }
    SlicedOne(MaxBatchTime);
    assert Midway(m, m', MaxBatchTime, frames, pieces, sizes, env);
    panics, m', frames, pieces, sizes := Finish(m, m', eventTime, MaxBatchTime, frames, pieces, sizes, env);
  }

  /** The buffer `finalize` reads each round, as the program sizes it: the
      sample rate, whatever the channel count. For stereo at an odd sample
      rate (11025 Hz is one of the common rates) it is not a whole number of
      frames, so the renderer's length check fails. */
  function FinalizeLengthAsWritten(sampleRate: nat, channels: nat): (n: nat)
    requires sampleRate < U32Modulus
    ensures channels == 2 && sampleRate % 2 == 1 ==> !ReadAllowed(n, channels)
  {
    sampleRate
  }

  /** The finding's witness: finalizing a stereo conversion at 11025 Hz
      panics on its first read. */
  lemma FinalizeAsWrittenPanicsAt11025()
    ensures !ReadAllowed(FinalizeLengthAsWritten(11025, 2), 2)
  {
  }

  /** The length `finalize` evidently means, one second of frames, and the
      one this model uses: it always passes the check when it fits in 32
      bits. */
  function FinalizeLength(sampleRate: nat, channels: nat): (n: nat)
    ensures channels > 0 ==> n >= sampleRate
    ensures channels > 0 && n < U32Modulus ==> ReadAllowed(n, channels)
  {
    if channels == 0 then 0
    else
      WholeFramesNoRemainder(sampleRate, channels);
      MultipleAtLeast(channels, sampleRate);
      sampleRate * channels
  }

  /** `finalize`'s stop test: no sample is louder than 0.0001. */
  predicate Silent(block: seq<real>)
  {
    forall k :: 0 <= k < |block| ==> -0.0001 <= block[k] <= 0.0001
  }

  function Concat(blocks: seq<seq<real>>): (r: seq<real>)
  {
    if |blocks| == 0 then [] else Concat(blocks[..|blocks| - 1]) + blocks[|blocks| - 1]
  }

  lemma ConcatSnoc(blocks: seq<seq<real>>, b: seq<real>)
    ensures Concat(blocks + [b]) == Concat(blocks) + b
  {
    assert (blocks + [b])[..|blocks|] == blocks;
  }

  /** `finalize`: a buffer of `len` samples at a time is read (no limiter,
      no stats) and sent to the writer until a read comes back silent; the
      silent read itself is not sent. `fuel` bounds the number of reads.
      Afterwards the renderer is Finished. */
  method Finalize(m: MidiRenderer, env: Engines, len: nat, fuel: nat)
    returns (panics: bool, m': MidiRenderer, blocks: seq<seq<real>>, silent: bool)
    requires Ok(m)
    ensures panics <==> fuel > 0 && !ReadAllowed(len, m.channels)
    ensures !panics ==>
      && Ok(m') && SR.KeepsStreams(m.renderer, m'.renderer)
      && m' == m.(renderer := m'.renderer, sent := m'.sent, status := MP.Finished)
      && m'.sent == m.sent + Concat(blocks)
      && (forall j :: 0 <= j < |blocks| ==> |blocks[j]| == len && !Silent(blocks[j]))
      && (silent || |blocks| == fuel) && |blocks| <= fuel
  {
    m', blocks, silent, panics := m, [], false, false;
    var round := 0;
    while round < fuel && !silent
      invariant round <= fuel && |blocks| <= round
      invariant !panics && (silent || |blocks| == round)
      invariant (round > 0 ==> ReadAllowed(len, m.channels)) && (silent ==> round > 0)
      invariant Ok(m') && SR.KeepsStreams(m.renderer, m'.renderer)
      invariant m' == m.(renderer := m'.renderer, sent := m'.sent)
      invariant m'.sent == m.sent + Concat(blocks)
      invariant forall j :: 0 <= j < |blocks| ==> |blocks[j]| == len && !Silent(blocks[j])
    {
      var r, out;
      panics, r, out := ReadRound(m'.renderer, len, env);
      if panics {
        return;
      }
      KeepsStreamsTrans(m.renderer, m'.renderer, r);
      if Silent(out) {
        silent := true;
      } else {
        ConcatSnoc(blocks, out);
        blocks := blocks + [out];
      }
      m' := m'.(renderer := r, sent := m.sent + Concat(blocks));
      round := round + 1;
    }
    m' := m'.(status := MP.Finished);
  }

  /** `finalize` with the buffer the program actually reads: a stereo
      conversion at an odd sample rate panics on its first read, and every
      block sent is `sample_rate` samples long, half a second of stereo. */
  method FinalizeAsWritten(m: MidiRenderer, env: Engines, fuel: nat)
    returns (panics: bool, m': MidiRenderer, blocks: seq<seq<real>>, silent: bool)
    requires Ok(m) && m.sampleRate < U32Modulus
    ensures m.channels == 2 && m.sampleRate % 2 == 1 && fuel > 0 ==> panics
    ensures !panics ==>
      && m'.status == MP.Finished && m'.sent == m.sent + Concat(blocks)
      && forall j :: 0 <= j < |blocks| ==> |blocks[j]| == m.sampleRate
  {
    panics, m', blocks, silent := Finalize(m, env, FinalizeLengthAsWritten(m.sampleRate, m.channels), fuel);
  }

  /** One read of `finalize` into a fresh buffer of `len` zeros. */
  method ReadRound(r: SR.Renderer, len: nat, env: Engines) returns (panics: bool, r': SR.Renderer, out: seq<real>)
    requires SR.Shaped(r)
    ensures panics <==> !ReadAllowed(len, r.audioChannels)
    ensures !panics ==> SR.KeepsStreams(r, r') && |out| == len
  {
    panics, r', out := SR.ReadSamples(r, seq(len, _ => 0.0), env.synth);
  }

  /** The paths of a channel's soundfonts that are in the cache, in list
      order (a path listed twice is passed twice). */
  function LoadedPaths(items: seq<SfListItem>, cache: SP.Cache): (ps: seq<Path>)
    ensures |ps| <= |items|
    ensures forall p :: p in ps <==> p in cache && exists i :: 0 <= i < |items| && items[i].path == p
  {
    if |items| == 0 then []
    else
      var init := items[..|items| - 1];
      var last := items[|items| - 1];
      var ps := LoadedPaths(init, cache) + (if last.path in cache then [last.path] else []);
      assert forall i :: 0 <= i < |init| ==> items[i] == init[i];
      ps
  }

  /** `set_soundfonts`: channel i gets the cached soundfonts of the i-th
      channel setting, at once and ahead of any cached audio event; a
      setting without a channel panics. */
  method SetSoundfonts(m: MidiRenderer, settings: seq<SingleChannelSettings>, cache: SP.Cache)
    returns (panics: bool, m': MidiRenderer)
    requires Ok(m)
    ensures panics <==> |settings| > |m.renderer.channels|
    ensures !panics ==>
      && Ok(m') && m' == m.(renderer := m'.renderer)
      && |m'.renderer.channels| == |m.renderer.channels| && m'.renderer.caches == m.renderer.caches
      && forall c :: 0 <= c < |m.renderer.channels| ==>
           && SR.Pending(m'.renderer, c) == SR.Pending(m.renderer, c)
           && Configs(m'.renderer.channels[c].history) ==
                Configs(m.renderer.channels[c].history)
                + (if c < |settings| then [ChannelConfigEvent.SetSoundfonts(LoadedPaths(settings[c].soundfonts, cache))] else [])
  {
    var n := |m.renderer.channels|;
    m' := m;
    for i := 0 to |settings|
      invariant i <= n && Ok(m') && m' == m.(renderer := m'.renderer)
      invariant |m'.renderer.channels| == n && m'.renderer.caches == m.renderer.caches
      invariant forall c :: 0 <= c < n ==>
        && SR.Pending(m'.renderer, c) == SR.Pending(m.renderer, c)
        && Configs(m'.renderer.channels[c].history) ==
             Configs(m.renderer.channels[c].history)
             + (if c < i then [ChannelConfigEvent.SetSoundfonts(LoadedPaths(settings[c].soundfonts, cache))] else [])
    {
      if i >= n {
        return true, m';
      }
      var config := ChannelConfigEvent.SetSoundfonts(LoadedPaths(settings[i].soundfonts, cache));
      var r := m'.renderer;
      forall c | 0 <= c < n
        ensures var r' := SR.SendEvent(r, ChannelConfig(i, config)).renderer;
          && SR.Pending(r', c) == SR.Pending(r, c)
          && Configs(r'.channels[c].history) == Configs(r.channels[c].history) + (if c == i then [config] else [])
      {
        SR.SendConfigAppliesAtOnce(r, i, config, c);
      }
      m' := m'.(renderer := SR.SendEvent(r, ChannelConfig(i, config)).renderer);
    }
    panics := false;
  }

  /** The audio event a MIDI event adds to channel `c`'s stream. */
  function AudioFor(e: MidiEvent, c: nat): (r: seq<ChannelAudioEvent>)
    ensures |r| <= 1
  {
    match ToSynthEvent(e)
    case Some(Channel(ch, a)) => if ch == c then [a] else []
    case _ => []
  }

  /** Channel `c`'s part of a list of events, in order. */
  function EventsFor(es: seq<MidiEvent>, c: nat): (r: seq<ChannelAudioEvent>)
    ensures |r| <= |es|
  {
    if |es| == 0 then [] else EventsFor(es[..|es| - 1], c) + AudioFor(es[|es| - 1], c)
  }

  /** Channel `c`'s part of a list of batches, in order. */
  function StreamFor(bs: seq<Batch>, c: nat): seq<ChannelAudioEvent>
  {
    if |bs| == 0 then [] else StreamFor(bs[..|bs| - 1], c) + EventsFor(bs[|bs| - 1].events, c)
  }

  /** A channel's stream holds exactly the channel events of the MIDI events
      addressed to it, read back in order. */
  lemma {:induction false} EventsForRoundTrip(es: seq<MidiEvent>, c: nat)
    ensures forall k :: 0 <= k < |EventsFor(es, c)| ==> ToMidiEvent(c, EventsFor(es, c)[k]).Some?
    ensures |EventsFor(es, c)| == |Filter(es, (e: MidiEvent) => !e.OtherEvent? && e.channel == c)|
    decreases |es|
  {
    if |es| > 0 {
      var init := es[..|es| - 1];
      EventsForRoundTrip(init, c);
      assert es == init + [es[|es| - 1]];
      var addressed := (e: MidiEvent) => !e.OtherEvent? && e.channel == c;
      FilterConcat(init, [es[|es| - 1]], addressed);
      FilterSingle(es[|es| - 1], addressed);
      if !es[|es| - 1].OtherEvent? {
        ToSynthEventRoundTrip(es[|es| - 1]);
      }
    }
  }

  /** Every event names a channel the renderer has. */
  predicate ChannelsOk(es: seq<MidiEvent>, n: nat)
  {
    forall j :: 0 <= j < |es| && !es[j].OtherEvent? ==> es[j].channel < n
  }

  predicate ChannelsInRange(bs: seq<Batch>, n: nat)
  {
    forall i :: 0 <= i < |bs| ==> ChannelsOk(bs[i].events, n)
  }

  /** The time a batch advances the rendering by. */
  function BatchTime(b: Batch): (t: real)
    ensures t >= 0.0 && (b.delta > 0.0 ==> t == b.delta)
  {
    if b.delta > 0.0 then b.delta else 0.0
  }

  function PlayedTime(bs: seq<Batch>): (t: real)
    ensures t >= 0.0
  {
    if |bs| == 0 then 0.0 else PlayedTime(bs[..|bs| - 1]) + BatchTime(bs[|bs| - 1])
  }

  /** One MIDI event: it joins its channel's stream, or panics when the
      renderer has no such channel. */
  method SendOne(m: MidiRenderer, e: MidiEvent) returns (panics: bool, m': MidiRenderer)
    requires Ok(m)
    ensures panics <==> !e.OtherEvent? && e.channel >= |m.renderer.channels|
    ensures !panics ==>
      && Ok(m') && m' == m.(renderer := m'.renderer) && |m'.renderer.channels| == |m.renderer.channels|
      && forall c :: 0 <= c < |m.renderer.channels| ==>
           && SR.Pending(m'.renderer, c) == SR.Pending(m.renderer, c) + AudioFor(e, c)
           && Configs(m'.renderer.channels[c].history) == Configs(m.renderer.channels[c].history)
  {
    m' := m;
    var r := m.renderer;
    match ToSynthEvent(e)
    case None =>
      panics := false;
    case Some(ev) =>
      if e.channel >= |r.channels| {
        return true, m';
      }
      panics := false;
      forall c | 0 <= c < |r.channels|
        ensures var r' := SR.SendEvent(r, ev).renderer;
          && SR.Pending(r', c) == SR.Pending(r, c) + AudioFor(e, c)
          && Configs(r'.channels[c].history) == Configs(r.channels[c].history)
      {
        SR.SendChannelAppends(r, ev.channel, ev.audio, c);
      }
      m' := m.(renderer := SR.SendEvent(r, ev).renderer);
  }

  lemma EventsForStep(es: seq<MidiEvent>, k: nat, n: nat)
    requires k < |es| && ChannelsOk(es[..k], n) && (es[k].OtherEvent? || es[k].channel < n)
    ensures ChannelsOk(es[..k + 1], n)
    ensures forall c :: EventsFor(es[..k + 1], c) == EventsFor(es[..k], c) + AudioFor(es[k], c)
  {
    assert es[..k + 1][..k] == es[..k];
  }

  /** The events of one batch, in order; an event for a channel the
      renderer does not have panics. */
  method SendEvents(m: MidiRenderer, es: seq<MidiEvent>) returns (panics: bool, m': MidiRenderer)
    requires Ok(m)
    ensures panics <==> !ChannelsOk(es, |m.renderer.channels|)
    ensures !panics ==>
      && Ok(m') && m' == m.(renderer := m'.renderer) && |m'.renderer.channels| == |m.renderer.channels|
      && forall c :: 0 <= c < |m.renderer.channels| ==>
           && SR.Pending(m'.renderer, c) == SR.Pending(m.renderer, c) + EventsFor(es, c)
           && Configs(m'.renderer.channels[c].history) == Configs(m.renderer.channels[c].history)
  {
    var n := |m.renderer.channels|;
    m' := m;
    for k := 0 to |es|
      invariant Ok(m') && m' == m.(renderer := m'.renderer) && |m'.renderer.channels| == n
      invariant ChannelsOk(es[..k], n)
      invariant forall c :: 0 <= c < n ==>
        && SR.Pending(m'.renderer, c) == SR.Pending(m.renderer, c) + EventsFor(es[..k], c)
        && Configs(m'.renderer.channels[c].history) == Configs(m.renderer.channels[c].history)
    {
      var cur := m';
      var stop;
      stop, m' := SendOne(cur, es[k]);
      if stop {
        assert !ChannelsOk(es, n) by {
          assert !es[k].OtherEvent? && es[k].channel >= n;
        }
        return true, m';
      }
      EventsForStep(es, k, n);
    }
    assert es[..|es|] == es;
    panics := false;
  }

  lemma BatchStep(bs: seq<Batch>, i: nat, c: nat)
    requires i < |bs|
    ensures StreamFor(bs[..i + 1], c) == StreamFor(bs[..i], c) + EventsFor(bs[i].events, c)
    ensures PlayedTime(bs[..i + 1]) == PlayedTime(bs[..i]) + BatchTime(bs[i])
  {
    assert bs[..i + 1][..i] == bs[..i];
  }

  /** The time before a batch: rendered by `render_batch` when positive. */
  method Elapse(m: MidiRenderer, b: Batch, env: Engines) returns (panics: bool, m': MidiRenderer, frames: nat)
    requires Ok(m)
    ensures !panics ==> Advanced(m, m', BatchTime(b), frames) && SR.KeepsStreams(m.renderer, m'.renderer)
    ensures ReadsFit(m.sampleRate, m.channels) ==> !panics
  {
    m', frames, panics := m, 0, false;
    if b.delta > 0.0 {
      ghost var pieces, sizes;
      panics, m', frames, pieces, sizes := RenderBatch(m, b.delta, env);
    } else {
      assert m.sent[..|m.sent|] == m.sent;
    }
  }

  /** One batch of `run`: the time before it is rendered if positive, then
      its events are sent. */
  method PlayBatch(m: MidiRenderer, b: Batch, env: Engines) returns (panics: bool, m': MidiRenderer, frames: nat)
    requires Ok(m)
    ensures !panics ==> ChannelsOk(b.events, |m.renderer.channels|)
    ensures ChannelsOk(b.events, |m.renderer.channels|) && ReadsFit(m.sampleRate, m.channels) ==> !panics
    ensures !panics ==>
      && Advanced(m, m', BatchTime(b), frames) && |m'.renderer.channels| == |m.renderer.channels|
      && forall c :: 0 <= c < |m.renderer.channels| ==>
           && SR.Pending(m'.renderer, c) == SR.Pending(m.renderer, c) + EventsFor(b.events, c)
           && Configs(m'.renderer.channels[c].history) == Configs(m.renderer.channels[c].history)
  {
    var cur;
    panics, cur, frames := Elapse(m, b, env);
    if panics {
      m' := cur;
      return;
    }
    panics, m' := SendEvents(cur, b.events);
  }

  /** The batches the renderer receives before it sees its allow flag
      cleared: the first `stopAt` of them, or all. */
  function Received(batches: seq<Batch>, stopAt: nat): (r: seq<Batch>)
    ensures |r| <= |batches| && r == batches[..|r|]
    ensures |r| == stopAt || |r| == |batches|
  {
    if stopAt < |batches| then batches[..stopAt] else batches
  }

  /** `m'` is `m` after the batches `bs` were played into `frames` frames:
      every channel was sent its events from them, and their time was
      rendered. */
  predicate PlayedUpTo(m: MidiRenderer, m': MidiRenderer, bs: seq<Batch>, frames: nat)
  {
    && Ok(m) && Advanced(m, m', PlayedTime(bs), frames) && |m'.renderer.channels| == |m.renderer.channels|
    && ChannelsInRange(bs, |m.renderer.channels|)
    && forall c :: 0 <= c < |m.renderer.channels| ==>
         && SR.Pending(m'.renderer, c) == SR.Pending(m.renderer, c) + StreamFor(bs, c)
         && Configs(m'.renderer.channels[c].history) == Configs(m.renderer.channels[c].history)
  }

  /** One more batch of `run`'s loop. */
  method PlayNext(m: MidiRenderer, cur: MidiRenderer, played: seq<Batch>, i: nat, frames: nat, env: Engines)
    returns (panics: bool, m': MidiRenderer, frames': nat)
    requires Ok(m) && i < |played| && PlayedUpTo(m, cur, played[..i], frames)
    ensures panics ==> !ChannelsOk(played[i].events, |m.renderer.channels|) || !ReadsFit(m.sampleRate, m.channels)
    ensures !panics ==> PlayedUpTo(m, m', played[..i + 1], frames')
  {
    var f;
    panics, m', f := PlayBatch(cur, played[i], env);
    frames' := frames + f;
    if panics {
      return;
    }
    PlayedStep(m, cur, m', played, i, frames, f);
  }

  lemma PlayedStep(m: MidiRenderer, cur: MidiRenderer, m': MidiRenderer, played: seq<Batch>, i: nat, frames: nat, f: nat)
    requires Ok(m) && i < |played| && PlayedUpTo(m, cur, played[..i], frames)
    requires ChannelsOk(played[i].events, |cur.renderer.channels|)
    requires Advanced(cur, m', BatchTime(played[i]), f) && |m'.renderer.channels| == |cur.renderer.channels|
    requires forall c :: 0 <= c < |cur.renderer.channels| ==>
      && SR.Pending(m'.renderer, c) == SR.Pending(cur.renderer, c) + EventsFor(played[i].events, c)
      && Configs(m'.renderer.channels[c].history) == Configs(cur.renderer.channels[c].history)
    ensures PlayedUpTo(m, m', played[..i + 1], frames + f)
  {
    StreamsStep(m, cur, m', played, i);
    BatchStep(played, i, 0);
    AdvancedTrans(m, cur, m', PlayedTime(played[..i]), BatchTime(played[i]), frames, f);
  }

  lemma StreamsStep(m: MidiRenderer, cur: MidiRenderer, m': MidiRenderer, played: seq<Batch>, i: nat)
    requires SR.Shaped(m.renderer) && SR.Shaped(cur.renderer) && SR.Shaped(m'.renderer) && i < |played|
    requires |cur.renderer.channels| == |m.renderer.channels| == |m'.renderer.channels|
    requires ChannelsInRange(played[..i], |m.renderer.channels|) && ChannelsOk(played[i].events, |m.renderer.channels|)
    requires forall c :: 0 <= c < |m.renderer.channels| ==>
      && SR.Pending(cur.renderer, c) == SR.Pending(m.renderer, c) + StreamFor(played[..i], c)
      && Configs(cur.renderer.channels[c].history) == Configs(m.renderer.channels[c].history)
    requires forall c :: 0 <= c < |m.renderer.channels| ==>
      && SR.Pending(m'.renderer, c) == SR.Pending(cur.renderer, c) + EventsFor(played[i].events, c)
      && Configs(m'.renderer.channels[c].history) == Configs(cur.renderer.channels[c].history)
    ensures ChannelsInRange(played[..i + 1], |m.renderer.channels|)
    ensures forall c :: 0 <= c < |m.renderer.channels| ==>
      && SR.Pending(m'.renderer, c) == SR.Pending(m.renderer, c) + StreamFor(played[..i + 1], c)
      && Configs(m'.renderer.channels[c].history) == Configs(m.renderer.channels[c].history)
  {
    forall c | 0 <= c < |m.renderer.channels|
      ensures StreamFor(played[..i + 1], c) == StreamFor(played[..i], c) + EventsFor(played[i].events, c)
    {
      BatchStep(played, i, c);
    }
    assert forall k :: 0 <= k < i ==> played[..i + 1][k] == played[..i][k];
  }

  /** The batches of `run`'s loop, in order, stopping at the first panic. */
  method PlayAll(m: MidiRenderer, played: seq<Batch>, env: Engines) returns (panics: bool, m': MidiRenderer, frames: nat)
    requires Ok(m)
    ensures !panics ==> PlayedUpTo(m, m', played, frames)
    ensures ChannelsInRange(played, |m.renderer.channels|) && ReadsFit(m.sampleRate, m.channels) ==> !panics
  {
    m', frames, panics := m, 0, false;
    assert m.sent[..|m.sent|] == m.sent;
    for i := 0 to |played|
      invariant PlayedUpTo(m, m', played[..i], frames)
    {
      panics, m', frames := PlayNext(m, m', played, i, frames, env);
      if panics {
        return;
      }
    }
    assert played[..|played|] == played;
  }

  /** The end of `run`: All Notes Off, then Reset Control, for every channel. */
  function EndNotes(r: SR.Renderer): (r': SR.Renderer)
    requires SR.Shaped(r)
    ensures SR.Shaped(r') && |r'.channels| == |r.channels|
    ensures r'.sampleRate == r.sampleRate && r'.audioChannels == r.audioChannels
    ensures forall c :: 0 <= c < |r.channels| ==>
      && SR.Pending(r', c) == SR.Pending(r, c) + [AllNotesOff, ResetControl]
      && Configs(r'.channels[c].history) == Configs(r.channels[c].history)
  {
    var r1 := SR.SendEvent(r, AllChannels(AllNotesOff)).renderer;
    var r2 := SR.SendEvent(r1, AllChannels(ResetControl)).renderer;
    assert forall c :: 0 <= c < |r.channels| ==>
      && SR.Pending(r2, c) == SR.Pending(r, c) + [AllNotesOff, ResetControl]
      && Configs(r2.channels[c].history) == Configs(r.channels[c].history) by {
      forall c | 0 <= c < |r.channels|
        ensures SR.Pending(r2, c) == SR.Pending(r, c) + [AllNotesOff, ResetControl]
        ensures Configs(r2.channels[c].history) == Configs(r.channels[c].history)
      {
        SR.SendAllAppends(r, AllNotesOff, c);
        SR.SendAllAppends(r1, ResetControl, c);
      }
    }
    r2
  }

  /** `run`: every batch received is played; then every channel gets All
      Notes Off and Reset Control, and `finalize` renders the tail. Unless
      it panics, each channel has then been sent exactly its MIDI events in
      file order followed by those two; the renderer's clock has advanced by
      the batches' positive delta times; and the frames sent before the tail
      plus the carried fraction are exactly that time's samples. With audio
      parameters that fit the length check, it panics exactly when an event
      names a channel the renderer does not have. */
  method Run(m: MidiRenderer, batches: seq<Batch>, stopAt: nat, env: Engines, fuel: nat)
    returns (panics: bool, m': MidiRenderer, frames: nat, tail: seq<seq<real>>)
    requires Ok(m)
    ensures var played := Received(batches, stopAt);
      && (!panics ==> ChannelsInRange(played, |m.renderer.channels|))
      && (ChannelsInRange(played, |m.renderer.channels|) && ReadsFit(m.sampleRate, m.channels) ==> !panics)
    ensures !panics ==> RunDone(m, m', Received(batches, stopAt), frames, tail)
    ensures !panics ==> forall j :: 0 <= j < |tail| ==> |tail[j]| == FinalizeLength(m.sampleRate, m.channels)
  {
    var played := Received(batches, stopAt);
    var played', silent;
    panics, played', frames := PlayAll(m, played, env);
    tail := [];
    if panics {
      m' := played';
      return;
    }
    var before := played'.(renderer := EndNotes(played'.renderer));
    if ReadsFit(m.sampleRate, m.channels) {
      MulMono(m.sampleRate, m.sampleRate + 1, m.channels);
    }
    panics, m', tail, silent := Finalize(before, env, FinalizeLength(m.sampleRate, m.channels), fuel);
    if !panics {
      RunStreams(m, played', before, m', played);
      RunClock(m, played', m', played, frames);
      RunSent(m, played', m', frames, tail);
    }
  }

  /** What `run` has done once the tail is rendered: each channel has been
      sent its events from the batches played, then All Notes Off and Reset
      Control, and no config changed; the clock and the frames sent account
      for the batches' time, and the tail follows them. */
  predicate RunDone(m: MidiRenderer, m': MidiRenderer, played: seq<Batch>, frames: nat, tail: seq<seq<real>>)
    requires Ok(m)
  {
    && Ok(m') && m'.status == MP.Finished && |m'.renderer.channels| == |m.renderer.channels|
    && (forall c :: 0 <= c < |m.renderer.channels| ==>
          && SR.Pending(m'.renderer, c) == SR.Pending(m.renderer, c) + StreamFor(played, c) + [AllNotesOff, ResetControl]
          && Configs(m'.renderer.channels[c].history) == Configs(m.renderer.channels[c].history))
    && TimeAccounted(m, m', played, frames, tail)
  }

  predicate TimeAccounted(m: MidiRenderer, m': MidiRenderer, played: seq<Batch>, frames: nat, tail: seq<seq<real>>)
  {
    ClockAccounted(m, m', played, frames) && SentAccounted(m, m', frames, tail)
  }

  predicate ClockAccounted(m: MidiRenderer, m': MidiRenderer, played: seq<Batch>, frames: nat)
  {
    && m'.time == m.time + PlayedTime(played)
    && frames as real + m'.missed == m.missed + m.sampleRate as real * PlayedTime(played)
  }

  predicate SentAccounted(m: MidiRenderer, m': MidiRenderer, frames: nat, tail: seq<seq<real>>)
  {
    && |m'.sent| == |m.sent| + frames * m.channels + |Concat(tail)|
    && m'.sent[..|m.sent|] == m.sent && m'.sent[|m.sent| + frames * m.channels..] == Concat(tail)
    && forall j :: 0 <= j < |tail| ==> !Silent(tail[j])
  }

  lemma RunClock(m: MidiRenderer, p: MidiRenderer, m': MidiRenderer, played: seq<Batch>, frames: nat)
    requires Advanced(m, p, PlayedTime(played), frames)
    requires m'.time == p.time && m'.missed == p.missed
    ensures ClockAccounted(m, m', played, frames)
  {
  }

  lemma RunSent(m: MidiRenderer, p: MidiRenderer, m': MidiRenderer, frames: nat, tail: seq<seq<real>>)
    requires |m.sent| <= |p.sent| == |m.sent| + frames * m.channels && p.sent[..|m.sent|] == m.sent
    requires m'.sent == p.sent + Concat(tail)
    requires forall j :: 0 <= j < |tail| ==> !Silent(tail[j])
    ensures SentAccounted(m, m', frames, tail)
  {
    assert m'.sent[..|m.sent|] == p.sent[..|m.sent|];
  }

  lemma RunStreams(m: MidiRenderer, p: MidiRenderer, before: MidiRenderer, m': MidiRenderer, played: seq<Batch>)
    requires Ok(m) && SR.Shaped(p.renderer) && |p.renderer.channels| == |m.renderer.channels|
    requires forall c :: 0 <= c < |m.renderer.channels| ==>
      && SR.Pending(p.renderer, c) == SR.Pending(m.renderer, c) + StreamFor(played, c)
      && Configs(p.renderer.channels[c].history) == Configs(m.renderer.channels[c].history)
    requires before.renderer == EndNotes(p.renderer)
    requires SR.KeepsStreams(before.renderer, m'.renderer)
    ensures forall c :: 0 <= c < |m.renderer.channels| ==>
      && SR.Pending(m'.renderer, c) == SR.Pending(m.renderer, c) + StreamFor(played, c) + [AllNotesOff, ResetControl]
      && Configs(m'.renderer.channels[c].history) == Configs(m.renderer.channels[c].history)
  {
    forall c | 0 <= c < |m.renderer.channels|
      ensures SR.Pending(m'.renderer, c) == SR.Pending(m.renderer, c) + StreamFor(played, c) + [AllNotesOff, ResetControl]
      ensures Configs(m'.renderer.channels[c].history) == Configs(m.renderer.channels[c].history)
    {
      KeepsStreamsAfterEnd(m.renderer, p.renderer, before.renderer, m'.renderer, StreamFor(played, c), c);
    }
  }

  /** Reading after the end notes keeps every channel's streams. */
  lemma KeepsStreamsAfterEnd(r0: SR.Renderer, r1: SR.Renderer, r2: SR.Renderer, r3: SR.Renderer, s: seq<ChannelAudioEvent>, c: nat)
    requires SR.Shaped(r0) && SR.Shaped(r1) && SR.Shaped(r2) && SR.KeepsStreams(r2, r3)
    requires c < |r0.channels| && |r1.channels| == |r0.channels| && |r2.channels| == |r1.channels|
    requires SR.Pending(r1, c) == SR.Pending(r0, c) + s
    requires SR.Pending(r2, c) == SR.Pending(r1, c) + [AllNotesOff, ResetControl]
    requires Configs(r1.channels[c].history) == Configs(r0.channels[c].history)
    requires Configs(r2.channels[c].history) == Configs(r1.channels[c].history)
    ensures SR.Pending(r3, c) == SR.Pending(r0, c) + s + [AllNotesOff, ResetControl]
    ensures Configs(r3.channels[c].history) == Configs(r0.channels[c].history)
  {
  }

  /** The name of the output file, before the writer adds its extension:
      the MIDI file's name with ".wav" appended, or "out.wav" for a path
      without a file name. */
  function OutputName(path: Path): (name: string)
    ensures |name| >= 4 && name[|name| - 4..] == ".wav"
    ensures name[..|name| - 4] == if FileName(path).Some? then FileName(path).value else "out"
  {
    match FileName(path)
    case Some(f) => f + ".wav"
    case None => "out.wav"
  }

  /** What `load_new` leads to: a renderer with the file's batches and its
      writer, an error, or a panic while opening the writer. */
  datatype Loaded = Loaded(renderer: MidiRenderer, batches: seq<Batch>, writer: W.FileWriter) | LoadFailed(error: MIDIRendererError) | LoadPanics

  /** The channel `NewRenderer` builds from one channel setting, before and
      after it is told its layer limit. */
  function LayeredChannel(s: SingleChannelSettings, told: bool): (v: VoiceChannel)
    ensures v.init == s.init && v.useThreadpool == s.useThreadpool
    ensures |v.history| == if told then 1 else 0
  {
    SR.FreshChannel(s).(history := if told then [Config(SetLayerCount(s.layerLimit))] else [])
  }

  /** A renderer with no cached events whose first `i` channels have been
      told their layer limit and whose others are still fresh. */
  predicate LayersSet(r: SR.Renderer, settings: seq<SingleChannelSettings>, i: nat)
  {
    && SR.Valid(r) && r.cachedCount == 0 && |r.channels| == |settings|
    && forall c :: 0 <= c < |settings| ==> r.caches[c] == [] && r.channels[c] == LayeredChannel(settings[c], c < i)
  }

  /** The layer-count configuration of channel `i` touches that channel's
      history alone. */
  lemma LayerConfigStep(r: SR.Renderer, settings: seq<SingleChannelSettings>, i: nat)
    requires LayersSet(r, settings, i) && i < |settings|
    ensures var r' := SR.SendEvent(r, ChannelConfig(i, SetLayerCount(settings[i].layerLimit))).renderer;
      && LayersSet(r', settings, i + 1)
      && r'.sampleRate == r.sampleRate && r'.audioChannels == r.audioChannels
  {
    var e := SetLayerCount(settings[i].layerLimit);
    var r' := r.(channels := r.channels[i := r.channels[i].(history := r.channels[i].history + [Config(e)])]);
    assert SR.SendEvent(r, ChannelConfig(i, e)).renderer == r';
    assert r'.caches == r.caches;
    assert r'.channels[i] == LayeredChannel(settings[i], true);
  }

  /** The renderer `load_new` builds: one standard renderer instance whose
      every channel has been told its layer limit. */
  method NewRenderer(state: ForteState) returns (r: SR.Renderer)
    ensures LayersSet(r, state.synth.channelSettings, |state.synth.channelSettings|)
    ensures r.sampleRate == state.render.sampleRate && r.audioChannels == state.render.audioChannels
  {
    var settings := state.synth.channelSettings;
    r := SR.New(state, 1);
    var blank := SR.FreshChannels(settings);
    assert SR.Repeat(0, blank) == [];
    assert SR.Repeat(1, blank) == [] + blank == blank;
    assert r.channels == blank;
    forall c | 0 <= c < |settings|
      ensures r.caches[c] == [] && r.channels[c] == LayeredChannel(settings[c], c < 0)
    {
      assert r.channels[c] == SR.FreshChannel(settings[c]);
    }
    for i := 0 to |settings|
      invariant LayersSet(r, settings, i)
      invariant r.sampleRate == state.render.sampleRate && r.audioChannels == state.render.audioChannels
    {
      LayerConfigStep(r, settings, i);
      r := SR.SendEvent(r, ChannelConfig(i, SetLayerCount(settings[i].layerLimit))).renderer;
    }
  }

  /** `MIDIRenderer::load_new` in the standard render mode: the MIDI file is
      opened first and its failure is a load error; then the renderer is
      built, and the writer is opened under the derived name, its error or
      panic propagating. The new renderer is Idle, has rendered nothing, and
      has a fresh volume limiter exactly when the settings ask for one. */
  method LoadNew(state: ForteState, path: Path, midi: Result<seq<Batch>, MIDILoadError>, wenv: W.WriterEnv)
    returns (r: Loaded)
    requires state.render.renderMode.Standard?
    ensures midi.Err? ==> r == LoadFailed(Load(midi.error))
    ensures midi.Ok? ==>
      match W.NewFileWriter(state.render, OutputName(path), wenv)
      case OpenFailed(e) => r == LoadFailed(e)
      case OpenPanics => r.LoadPanics?
      case Opened(w) => r.Loaded? && r.writer == w && r.batches == midi.value
    ensures r.Loaded? ==>
      var m := r.renderer; var settings := state.synth.channelSettings;
      && Ok(m) && SR.Valid(m.renderer) && m.status == MP.Idle
      && m.missed == 0.0 && m.time == 0.0 && m.sent == [] && m.stats == MP.RenderStats(0.0, 0)
      && m.sampleRate == state.render.sampleRate && m.channels == state.render.audioChannels
      && (m.limiter.Some? <==> state.render.useLimiter) && (m.limiter.Some? ==> m.limiter.value.seen == [])
      && |m.renderer.channels| == |settings|
      && forall i :: 0 <= i < |settings| ==>
           && m.renderer.caches[i] == []
           && m.renderer.channels[i].init == settings[i].init
           && m.renderer.channels[i].history == [Config(SetLayerCount(settings[i].layerLimit))]
  {
    if midi.Err? {
      return LoadFailed(Load(midi.error));
    }
    var renderer := NewRenderer(state);
    match W.NewFileWriter(state.render, OutputName(path), wenv)
    case OpenFailed(e) =>
      r := LoadFailed(e);
    case OpenPanics =>
      r := LoadPanics;
    case Opened(w) =>
      var limiter := if state.render.useLimiter then Some(VolumeLimiter([])) else None;
      var m := MidiRenderer(renderer, limiter, state.render.sampleRate, state.render.audioChannels,
        0.0, 0.0, MP.RenderStats(0.0, 0), [], MP.Idle);
      r := Loaded(m, midi.value, w);
  }
}
