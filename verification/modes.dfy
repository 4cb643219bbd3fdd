/** The render mode and concurrency policy and their integer encodings, used
    by the settings panel's drop-down lists. */
module Modes {

  datatype RenderMode = Standard | RealtimeSimulation

  /** `NoConcurrency` is the source's `None` (renamed so it does not clash
      with `Option.None`); `ParallelItems` is named `ParallelMIDIs` in the MIDI
      pool's snapshot of this enumeration; both name discriminant 1. */
  datatype Concurrency = NoConcurrency | ParallelItems | ParallelTracks | Both

  const DefaultRenderMode: RenderMode := Standard
  const DefaultConcurrency: Concurrency := NoConcurrency

  /** `RenderMode as usize`. */
  function ModeIndex(m: RenderMode): (i: nat)
    ensures i < 2
    ensures m.Standard? <==> i == 0
  {
    match m
    case Standard => 0
    case RealtimeSimulation => 1
  }

  /** `Concurrency as usize`. */
  function ConcurrencyIndex(c: Concurrency): (i: nat)
    ensures i < 4
    ensures c.NoConcurrency? <==> i == 0
    ensures c.ParallelItems? <==> i == 1
    ensures c.ParallelTracks? <==> i == 2
    ensures c.Both? <==> i == 3
  {
    match c
    case NoConcurrency => 0
    case ParallelItems => 1
    case ParallelTracks => 2
    case Both => 3
  }

  /** The drop-down's index turned back into a mode; any index other than 1
      selects Standard. */
  function ModeFromIndex(i: nat): (m: RenderMode)
    ensures m.RealtimeSimulation? <==> i == 1
  {
    match i
    case 0 => Standard
    case 1 => RealtimeSimulation
    case _ => Standard
  }

  /** The drop-down's index turned back into a policy: 0 None, 1 parallel
      items, 2 parallel tracks, 3 both; an index past 3 selects None. */
  function ConcurrencyFromIndex(i: nat): (c: Concurrency)
    ensures i == 0 ==> c.NoConcurrency?
    ensures i == 1 ==> c.ParallelItems?
    ensures i == 2 ==> c.ParallelTracks?
    ensures i == 3 ==> c.Both?
    ensures i >= 4 ==> c.NoConcurrency?
  {
    match i
    case 0 => NoConcurrency
    case 1 => ParallelItems
    case 2 => ParallelTracks
    case 3 => Both
    case _ => NoConcurrency
  }

  lemma ModeRoundTrip(m: RenderMode)
    ensures ModeFromIndex(ModeIndex(m)) == m
  {
  }

  lemma ConcurrencyRoundTrip(c: Concurrency)
    ensures ConcurrencyFromIndex(ConcurrencyIndex(c)) == c
  {
  }

  lemma ConcurrencyIndexRoundTrip(i: nat)
    requires i < 4
    ensures ConcurrencyIndex(ConcurrencyFromIndex(i)) == i
  {
  }

  lemma EncodingsInjective(m1: RenderMode, m2: RenderMode, c1: Concurrency, c2: Concurrency)
    ensures ModeIndex(m1) == ModeIndex(m2) ==> m1 == m2
    ensures ConcurrencyIndex(c1) == ConcurrencyIndex(c2) ==> c1 == c2
  {
    ModeRoundTrip(m1);
    ModeRoundTrip(m2);
    ConcurrencyRoundTrip(c1);
    ConcurrencyRoundTrip(c2);
  }
}
