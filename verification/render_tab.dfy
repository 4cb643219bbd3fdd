/** The render tab's part in a conversion: starting it, polling the
    manager once per frame, and cancelling it. The tab keeps a manager
    exactly while the interface shows a conversion in progress. */
module RenderTab {
  import opened Base
  import opened Errors
  import opened Settings
  import opened MidiList
  import MP = MidiPool
  import RM = RenderManager

  datatype Tab = Tab(list: seq<ListItem>, manager: Option<RM.Manager>)

  /** A message box: title and text. */
  datatype GuiError = GuiError(title: string, message: string)

  const SoundfontLoaderError: GuiError := GuiError("Soundfont Loader Error", "Invalid Soundfont chain")

  function RendererGuiError(e: MIDIRendererError): (g: GuiError)
    ensures g.title == "Renderer Error" && g.message == RendererErrorMessage(e)
  {
    GuiError("Renderer Error", RendererErrorMessage(e))
  }

  /** What the MIDI pool keeps true between frames: jobs start in list order
      and no more than the limit render at once. */
  predicate PoolOk(p: MP.Pool)
  {
    MP.IdleSuffix(p.jobs) && MP.ActiveLen(p) <= p.maxParallel
  }

  /** The tab's invariant: a conversion in progress has a manager, and a
      manager's MIDI pool is well kept. */
  predicate TabOk(t: Tab, ui: UiState)
  {
    && (ui.rendering ==> t.manager.Some?)
    && (t.manager.Some? ==> PoolOk(t.manager.value.midiPool))
  }

  /** Counts depend on the statuses alone. */
  lemma {:induction false} CountSameStatuses(a: seq<MP.Job>, b: seq<MP.Job>, s: MP.RendererStatus)
    requires |a| == |b| && forall i :: 0 <= i < |a| ==> a[i].status == b[i].status
    ensures MP.CountStatus(a, s) == MP.CountStatus(b, s)
    decreases |a|
  {
    if |a| > 0 {
      CountSameStatuses(a[..|a| - 1], b[..|b| - 1], s);
    }
  }

  /** If some job is busy, there is a first busy job. */
  lemma {:induction false} FirstBusy(jobs: seq<MP.Job>, from: nat)
    requires from <= |jobs| && MP.NoBusyBefore(jobs, from)
    requires exists k :: from <= k < |jobs| && MP.IsBusy(jobs[k].status)
    ensures exists k :: 0 <= k < |jobs| && MP.IsBusy(jobs[k].status) && MP.NoBusyBefore(jobs, k)
    decreases |jobs| - from
  {
    if !MP.IsBusy(jobs[from].status) {
      FirstBusy(jobs, from + 1);
    }
  }

  /** A Finished answer from the MIDI pool means no job is busy, and with
      jobs started in order, that no job is left to start. */
  lemma FinishedMeansNothingToSpawn(p: MP.Pool, s: MP.RendererStatus)
    requires MP.IdleSuffix(p.jobs) && s.Finished?
    requires forall k :: 0 <= k < |p.jobs| && MP.IsBusy(p.jobs[k].status) && MP.NoBusyBefore(p.jobs, k) ==>
      s == p.jobs[k].status
    requires MP.NoBusyBefore(p.jobs, |p.jobs|) ==>
      s == if |p.jobs| == 0 then MP.Finished else p.jobs[|p.jobs| - 1].status
    ensures !MP.HasIdle(p.jobs)
  {
    if exists k :: 0 <= k < |p.jobs| && MP.IsBusy(p.jobs[k].status) {
      FirstBusy(p.jobs, 0);
    } else if |p.jobs| > 0 {
      MP.FinishedStatusMeansAllFinished(p, s);
    }
  }

  /** `status` keeps the MIDI pool well kept: an Error empties it, and
      otherwise no job's status changes. */
  method ManagerStatus(m: RM.Manager) returns (s: RM.ManagerStatus, m': RM.Manager, midiStatus: MP.RendererStatus)
    requires PoolOk(m.midiPool)
    ensures PoolOk(m'.midiPool)
    ensures s == RM.Combine(RM.SP.Status(m.sfPool).0, midiStatus)
    ensures midiStatus.Finished? ==> !MP.HasIdle(m'.midiPool.jobs)
  {
    var sfStatus;
    s, m', sfStatus, midiStatus := RM.Status(m);
    if !midiStatus.Error? {
      CountSameStatuses(m.midiPool.jobs, m'.midiPool.jobs, MP.Rendering);
      assert forall i :: 0 <= i < |m.midiPool.jobs| ==> m'.midiPool.jobs[i].status == m.midiPool.jobs[i].status;
      if midiStatus.Finished? {
        FinishedMeansNothingToSpawn(m.midiPool, midiStatus);
      }
    }
  }

  /** `has_finished`: the MIDI pool's status is asked again. */
  method HasFinished(m: RM.Manager) returns (finished: bool, m': RM.Manager)
    requires PoolOk(m.midiPool)
    ensures PoolOk(m'.midiPool) && m'.sfPool == m.sfPool
    ensures finished ==> !MP.HasIdle(m'.midiPool.jobs)
  {
    var s, p, cancelled := MP.Status(m.midiPool);
    finished := s.Finished?;
    m' := m.(midiPool := p);
    if !s.Error? {
      CountSameStatuses(m.midiPool.jobs, p.jobs, MP.Rendering);
      assert forall i :: 0 <= i < |m.midiPool.jobs| ==> p.jobs[i].status == m.midiPool.jobs[i].status;
      if finished {
        FinishedMeansNothingToSpawn(m.midiPool, s);
      }
    }
  }

  /** One frame of the tab (`show`, up to the progress update): while a
      conversion runs the manager's status decides the step; a frame that
      does not keep the conversion going drops the manager. Afterwards the
      progress is the per-file stats unless the MIDI pool has finished. */
  method Poll(t: Tab, ui: UiState) returns (t': Tab, ui': UiState, errors: seq<GuiError>, progress: Option<seq<Option<MP.RenderStats>>>)
    requires TabOk(t, ui)
    ensures TabOk(t', ui')
    ensures t'.manager.Some? <==> ui'.rendering
    ensures t'.list == t.list && ui'.renderSettingsVisible == ui.renderSettingsVisible
    ensures !ui.rendering ==> ui' == ui && t'.manager.None? && errors == [] && progress.None?
    ensures errors != [] ==> errors == [SoundfontLoaderError] && !ui'.rendering
    ensures progress.Some? ==> t'.manager.Some? && progress.value == MP.GetStats(t'.manager.value.midiPool)
  {
    var ended := true;
    t', ui', errors := t, ui, [];
    var manager := t.manager;
    if ui.rendering {
      var m := t.manager.value;
      var s, midiStatus;
      s, m, midiStatus := ManagerStatus(m);
      match s
      case LoadingSoundfonts =>
        ended := false;
      case SFLoadError =>
        ui' := ui'.(rendering := false);
        m := RM.Cancel(m).0;
        errors := [SoundfontLoaderError];
      case SoundfontsFinished =>
        var configured;
        m, configured := RM.Render(m);
        ended := false;
      case RenderingMIDIs =>
        var started, p := MP.SpawnNext(m.midiPool);
        m := m.(midiPool := p);
        ended := false;
      case RenderFinished =>
        var started, p := MP.SpawnNext(m.midiPool);
        m := m.(midiPool := p);
        assert !started;
        if !started {
          ui' := ui'.(rendering := false);
          m := RM.Cancel(m).0;
        }
      manager := Some(m);
    }
    if ended {
      manager := None;
    }
    progress := None;
    if manager.Some? {
      var finished, m := HasFinished(manager.value);
      manager := Some(m);
      if !finished {
        progress := Some(MP.GetStats(m.midiPool));
      }
    }
    t' := t.(manager := manager);
  }

  /** The Convert step, once an output folder is chosen: the conversion
      starts with the list's files in order, writing into that folder; if
      the manager cannot be built the conversion stops again with an error. */
  method Start(t: Tab, state: ForteState, dir: Path, load: Path -> Option<MIDIRendererError>)
    returns (t': Tab, state': ForteState, errors: seq<GuiError>)
    requires !state.ui.rendering
    ensures TabOk(t', state'.ui)
    ensures t'.manager.Some? <==> state'.ui.rendering
    ensures state'.render == state.render.(outputDir := Some(dir)) && state'.synth == state.synth
    ensures t'.list == t.list
    ensures t'.manager.Some? ==>
      && |t'.manager.value.midiPool.jobs| == |t.list|
      && forall i :: 0 <= i < |t.list| ==> t'.manager.value.midiPool.jobs[i].path == t.list[i].path
    ensures t'.manager.None? <==> errors != []
    ensures |t.list| == 0 ==> errors == [RendererGuiError(Renderer(MP.EmptyListMessage))]
  {
    state' := state.(ui := state.ui.(rendering := true), render := state.render.(outputDir := Some(dir)));
    var midis := seq(|t.list|, i requires 0 <= i < |t.list| => t.list[i].path);
    var r := RM.New(state', midis, load);
    match r
    case Ok(m) =>
      var jobs := m.midiPool.jobs;
      assert forall k :: 0 <= k < |jobs| ==> jobs[k].status.Idle?;
      MP.CountPositive(jobs, MP.Rendering);
      t', errors := t.(manager := Some(m)), [];
    case Err(e) =>
      state' := state'.(ui := state'.ui.(rendering := false));
      t', errors := t.(manager := None), [RendererGuiError(e)];
  }

  /** `cancel_render`: the conversion stops and both pools are cancelled;
      the manager itself is dropped by the next frame. */
  function CancelRender(t: Tab, ui: UiState): (r: (Tab, UiState))
    requires TabOk(t, ui)
    ensures TabOk(r.0, r.1) && !r.1.rendering
    ensures r.0.manager.Some? <==> t.manager.Some?
    ensures r.0.manager.Some? ==> r.0.manager.value.midiPool.jobs == [] && !r.0.manager.value.midiPool.isRendering
    ensures r.0.manager.Some? ==> forall i :: 0 <= i < |r.0.manager.value.sfPool.workers| ==> !r.0.manager.value.sfPool.workers[i].allow
  {
    var m := if t.manager.Some? then Some(RM.Cancel(t.manager.value).0) else None;
    (t.(manager := m), ui.(rendering := false))
  }
}
