/** The render manager: the soundfont pool and the MIDI pool of one
    conversion, started together and summed up in one status. */
module RenderManager {
  import opened Base
  import opened Errors
  import opened Settings
  import opened SoundfontList
  import SP = SoundfontPool
  import MP = MidiPool

  datatype ManagerStatus = LoadingSoundfonts | SoundfontsFinished | SFLoadError | RenderingMIDIs | RenderFinished

  datatype Manager = Manager(sfPool: SP.Pool, midiPool: MP.Pool)

  /** All channels' soundfonts, channel by channel, each in list order. */
  function Flatten(channels: seq<SingleChannelSettings>): (r: seq<SfListItem>)
  {
    if |channels| == 0 then [] else Flatten(channels[..|channels| - 1]) + channels[|channels| - 1].soundfonts
  }

  predicate HasPath(items: seq<SfListItem>, p: Path)
  {
    exists i :: 0 <= i < |items| && items[i].path == p
  }

  /** The first item for each path, in order of first appearance. */
  function FirstOccurrences(xs: seq<SfListItem>): (r: seq<SfListItem>)
  {
    if |xs| == 0 then []
    else
      var prev := FirstOccurrences(xs[..|xs| - 1]);
      if HasPath(prev, xs[|xs| - 1].path) then prev else prev + [xs[|xs| - 1]]
  }

  /** The deduplicated list has one item per path, and exactly the paths of
      the input; each of its items is the input's first item for that path. */
  lemma {:induction false} FirstOccurrencesProps(xs: seq<SfListItem>)
    ensures var r := FirstOccurrences(xs);
      && (forall i, j :: 0 <= i < j < |r| ==> r[i].path != r[j].path)
      && (forall p :: HasPath(r, p) <==> HasPath(xs, p))
      && (forall i :: 0 <= i < |r| ==> exists k :: 0 <= k < |xs| && xs[k] == r[i] && !HasPath(xs[..k], r[i].path))
    decreases |xs|
  {
    if |xs| > 0 {
      var init := xs[..|xs| - 1];
      var x := xs[|xs| - 1];
      FirstOccurrencesProps(init);
      var prev := FirstOccurrences(init);
      forall p | HasPath(xs, p)
        ensures HasPath(FirstOccurrences(xs), p)
      {
        var k :| 0 <= k < |xs| && xs[k].path == p;
        var r := FirstOccurrences(xs);
        if k < |xs| - 1 {
          assert init[k].path == p;
          assert HasPath(init, p);
          var j :| 0 <= j < |prev| && prev[j].path == p;
          assert r[j] == prev[j];
        } else if HasPath(prev, p) {
          var j :| 0 <= j < |prev| && prev[j].path == p;
          assert r[j] == prev[j];
        } else {
          assert r[|prev|] == x;
        }
      }
      forall i | 0 <= i < |FirstOccurrences(xs)|
        ensures exists k :: 0 <= k < |xs| && xs[k] == FirstOccurrences(xs)[i] && !HasPath(xs[..k], FirstOccurrences(xs)[i].path)
      {
        if i < |prev| {
          var k :| 0 <= k < |init| && init[k] == prev[i] && !HasPath(init[..k], prev[i].path);
          assert xs[..k] == init[..k];
        } else {
          assert xs[..|xs| - 1] == init;
          assert !HasPath(init, x.path);
        }
      }
    }
  }

  /** One more item is kept exactly when its path is new. */
  lemma FirstOccurrencesSnoc(xs: seq<SfListItem>, x: SfListItem)
    ensures FirstOccurrences(xs + [x]) ==
      if HasPath(FirstOccurrences(xs), x.path) then FirstOccurrences(xs) else FirstOccurrences(xs) + [x]
  {
    assert (xs + [x])[..|xs|] == xs;
  }

  /** The `find` over the items collected so far. */
  method Find(items: seq<SfListItem>, path: Path) returns (found: bool)
    ensures found <==> HasPath(items, path)
  {
    found := false;
    for i := 0 to |items|
      invariant found <==> exists j :: 0 <= j < i && items[j].path == path
    {
      if items[i].path == path {
        found := true;
      }
    }
  }

  /** One channel's part of the collection: its soundfonts in order, each
      skipped when its path is already collected. */
  method CollectChannel(items: seq<SfListItem>, before: seq<SfListItem>, sfs: seq<SfListItem>)
    returns (items': seq<SfListItem>)
    requires items == FirstOccurrences(before)
    ensures items' == FirstOccurrences(before + sfs)
  {
    items' := items;
    assert before + sfs[..0] == before;
    for k := 0 to |sfs|
      invariant items' == FirstOccurrences(before + sfs[..k])
    {
      assert before + sfs[..k + 1] == (before + sfs[..k]) + [sfs[k]];
      FirstOccurrencesSnoc(before + sfs[..k], sfs[k]);
      var found := Find(items', sfs[k].path);
      if !found {
        items' := items' + [sfs[k]];
      }
    }
    assert sfs[..|sfs|] == sfs;
  }

  lemma FlattenStep(channels: seq<SingleChannelSettings>, c: nat)
    requires c < |channels|
    ensures Flatten(channels[..c + 1]) == Flatten(channels[..c]) + channels[c].soundfonts
  {
    assert channels[..c + 1][..c] == channels[..c];
  }

  /** `RenderThreadManager::new`'s collection of soundfonts: every channel's
      soundfonts, skipping any whose path is already collected. */
  method CollectSoundfonts(channels: seq<SingleChannelSettings>) returns (items: seq<SfListItem>)
    ensures items == FirstOccurrences(Flatten(channels))
  {
    items := [];
    for c := 0 to |channels|
      invariant items == FirstOccurrences(Flatten(channels[..c]))
    {
      FlattenStep(channels, c);
      items := CollectChannel(items, Flatten(channels[..c]), channels[c].soundfonts);
    }
    assert channels[..|channels|] == channels;
  }

  /** `RenderThreadManager::new`: the soundfont pool starts loading every
      distinct soundfont, then the MIDI pool is built; the MIDI pool's error
      is the manager's error. */
  method New(state: ForteState, midis: seq<Path>, load: Path -> Option<MIDIRendererError>)
    returns (r: Result<Manager, MIDIRendererError>)
    ensures |midis| == 0 ==> r == Err(Renderer(MP.EmptyListMessage))
    ensures r.Ok? <==> |midis| > 0 && forall i :: 0 <= i < |midis| ==> load(midis[i]).None?
    ensures r.Err? && |midis| > 0 ==>
      exists i :: 0 <= i < |midis| && load(midis[i]) == Some(r.error) && forall j :: 0 <= j < i ==> load(midis[j]).None?
    ensures r.Ok? ==> r.value.sfPool == SP.NewPool(FirstOccurrences(Flatten(state.synth.channelSettings)))
    ensures r.Ok? ==>
      && |r.value.midiPool.jobs| == |midis| && !r.value.midiPool.isRendering
      && r.value.midiPool.maxParallel == MP.MaxParallel(state.render.concurrency, state.render.parallelMidis)
      && forall i :: 0 <= i < |midis| ==> r.value.midiPool.jobs[i] == MP.FreshJob(midis[i])
  {
    var items := CollectSoundfonts(state.synth.channelSettings);
    var sfPool := SP.NewPool(items);
    var b := MP.NewPool(state.render.concurrency, state.render.parallelMidis, midis, load);
    match b
    case Built(pool) => r := Ok(Manager(sfPool, pool));
    case Aborted(e, dropped) =>
      r := Err(e);
      if |midis| > 0 {
        assert load(midis[|dropped|]) == Some(r.error);
      }
  }

  /** How the two pools' answers combine: a rendering or finished MIDI pool
      speaks for the manager; otherwise the soundfont pool does. */
  function Combine(sf: SP.WorkerStatus, midi: MP.RendererStatus): (s: ManagerStatus)
    ensures s.RenderingMIDIs? <==> midi.Rendering?
    ensures s.RenderFinished? <==> midi.Finished?
    ensures s.LoadingSoundfonts? <==> sf.Loading? && (midi.Idle? || midi.Error?)
    ensures s.SFLoadError? <==> sf.Error? && (midi.Idle? || midi.Error?)
    ensures s.SoundfontsFinished? <==> sf.Finished? && (midi.Idle? || midi.Error?)
  {
    match midi
    case Rendering => RenderingMIDIs
    case Finished => RenderFinished
    case _ =>
      match sf
      case Loading => LoadingSoundfonts
      case Error => SFLoadError
      case Finished => SoundfontsFinished
  }

  /** Busy or finished MIDI rendering hides a soundfont error: the
      soundfont status reaches the answer only while the MIDI pool is Idle
      or failed. */
  lemma SoundfontErrorNeedsQuietMidiPool(sf: SP.WorkerStatus, midi: MP.RendererStatus)
    ensures Combine(sf, midi).SFLoadError? ==> sf.Error?
    ensures midi.Rendering? || midi.Finished? ==> !Combine(sf, midi).SFLoadError?
  {
  }

  /** `status`: the soundfont pool's status, then the MIDI pool's; each
      call may prune or cancel its pool. */
  method Status(m: Manager) returns (s: ManagerStatus, m': Manager, sfStatus: SP.WorkerStatus, midiStatus: MP.RendererStatus)
    ensures (sfStatus, m'.sfPool) == SP.Status(m.sfPool)
    ensures s == Combine(sfStatus, midiStatus)
    ensures forall k :: 0 <= k < |m.midiPool.jobs| && MP.IsBusy(m.midiPool.jobs[k].status) && MP.NoBusyBefore(m.midiPool.jobs, k) ==>
      midiStatus == m.midiPool.jobs[k].status
    ensures MP.NoBusyBefore(m.midiPool.jobs, |m.midiPool.jobs|) ==>
      midiStatus == if |m.midiPool.jobs| == 0 then MP.Finished else m.midiPool.jobs[|m.midiPool.jobs| - 1].status
    ensures midiStatus.Error? ==> m'.midiPool == MP.Cancel(m.midiPool).0
    ensures !midiStatus.Error? ==>
      && |m'.midiPool.jobs| == |m.midiPool.jobs| && m'.midiPool.maxParallel == m.midiPool.maxParallel
      && forall i :: 0 <= i < |m.midiPool.jobs| ==> m'.midiPool.jobs[i].status == m.midiPool.jobs[i].status
  {
    var sf := SP.Status(m.sfPool);
    sfStatus := sf.0;
    var midiPool, cancelled;
    midiStatus, midiPool, cancelled := MP.Status(m.midiPool);
    s := Combine(sfStatus, midiStatus);
    m' := Manager(sf.1, midiPool);
  }

  /** `render`: the MIDI renderers still held get their soundfonts, then
      the MIDI pool starts. */
  method Render(m: Manager) returns (m': Manager, configured: seq<nat>)
    requires MP.ActiveLen(m.midiPool) <= m.midiPool.maxParallel
    ensures configured == MP.SetSoundfontsTargets(m.midiPool)
    ensures m'.sfPool == m.sfPool && m'.midiPool.isRendering
    ensures |m'.midiPool.jobs| == |m.midiPool.jobs| && m'.midiPool.maxParallel == m.midiPool.maxParallel
    ensures MP.ActiveLen(m'.midiPool) <= m'.midiPool.maxParallel
    ensures MP.ActiveLen(m'.midiPool) == m'.midiPool.maxParallel || !MP.HasIdle(m'.midiPool.jobs)
    ensures MP.IdleSuffix(m.midiPool.jobs) ==> MP.IdleSuffix(m'.midiPool.jobs)
  {
    configured := MP.SetSoundfontsTargets(m.midiPool);
    var p := MP.Run(m.midiPool);
    m' := m.(midiPool := p);
  }

  /** `cancel`: both pools are cancelled. */
  function Cancel(m: Manager): (r: (Manager, seq<MP.Job>))
    ensures r.0.midiPool.jobs == [] && !r.0.midiPool.isRendering
    ensures |r.0.sfPool.workers| == |m.sfPool.workers|
    ensures forall i :: 0 <= i < |m.sfPool.workers| ==> !r.0.sfPool.workers[i].allow
    ensures |r.1| == |m.midiPool.jobs| && forall i :: 0 <= i < |r.1| ==> !r.1[i].allow
  {
    var c := MP.Cancel(m.midiPool);
    (Manager(SP.Cancel(m.sfPool), c.0), c.1)
  }
}
