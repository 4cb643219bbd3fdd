/** The MIDI job scheduler. Each job is one MIDI file with a render thread;
    threads become explicit steps: `SpawnNext` starts a job, and the
    environment steps `FinishJob` and `ReportStats` stand for what a running
    thread does to the job's shared status and statistics. */
module MidiPool {
  import opened Base
  import opened Errors
  import opened Modes

  /** Per-job statistics shared with the render thread (declared beside the
      render manager in the program). */
  datatype RenderStats = RenderStats(time: real, voiceCount: nat)

  datatype RendererStatus = Idle | Rendering | Finished | Error

  /** One container: the job's status, its allow flag (shared with its
      threads), whether the pool still holds its renderer, and its stats. */
  datatype Job = Job(path: Path, status: RendererStatus, allow: bool, hasRenderer: bool, stats: RenderStats)

  datatype Pool = Pool(maxParallel: nat, jobs: seq<Job>, isRendering: bool)

  /** The outcome of construction: the pool, or the error together with the
      jobs already built, whose threads now see their allow flag cleared. */
  datatype Built = Built(pool: Pool) | Aborted(error: MIDIRendererError, dropped: seq<Job>)

  const EmptyListMessage: string := "Empty MIDI List"

  /** How many jobs may render at once. */
  function MaxParallel(c: Concurrency, parallelMidis: nat): (n: nat)
    ensures c.NoConcurrency? || c.ParallelTracks? ==> n == 1
    ensures c.ParallelItems? || c.Both? ==> n == parallelMidis
  {
    match c
    case NoConcurrency => 1
    case ParallelTracks => 1
    case ParallelItems => parallelMidis
    case Both => parallelMidis
  }

  function FreshJob(path: Path): Job
  {
    Job(path, Idle, true, true, RenderStats(0.0, 0))
  }

  /** `MIDIPool::new`. `load` is the outcome of loading one MIDI file's
      renderer: `None` on success, or the error. */
  method NewPool(c: Concurrency, parallelMidis: nat, midis: seq<Path>, load: Path -> Option<MIDIRendererError>)
    returns (b: Built)
    ensures |midis| == 0 ==> b == Aborted(Renderer(EmptyListMessage), [])
    ensures b.Built? <==> |midis| > 0 && forall i :: 0 <= i < |midis| ==> load(midis[i]).None?
    ensures b.Built? ==>
      && b.pool.maxParallel == MaxParallel(c, parallelMidis) && !b.pool.isRendering
      && |b.pool.jobs| == |midis|
      && forall i :: 0 <= i < |midis| ==> b.pool.jobs[i] == FreshJob(midis[i])
    ensures b.Aborted? && |midis| > 0 ==>
      && |b.dropped| < |midis| && load(midis[|b.dropped|]) == Some(b.error)
      && (forall i :: 0 <= i < |b.dropped| ==> load(midis[i]).None?)
      && (forall i :: 0 <= i < |b.dropped| ==> b.dropped[i] == FreshJob(midis[i]).(allow := false))
  {
    if |midis| == 0 {
      return Aborted(Renderer(EmptyListMessage), []);
    }
    var jobs: seq<Job> := [];
    for i := 0 to |midis|
      invariant |jobs| == i
      invariant forall k :: 0 <= k < i ==> load(midis[k]).None? && jobs[k] == FreshJob(midis[k])
    {
      match load(midis[i])
      case Some(err) =>
        var dropped := seq(|jobs|, k requires 0 <= k < |jobs| => jobs[k].(allow := false));
        return Aborted(err, dropped);
      case None =>
        jobs := jobs + [FreshJob(midis[i])];
    }
    return Built(Pool(MaxParallel(c, parallelMidis), jobs, false));
  }

  /** The number of jobs with a given status. */
  function CountStatus(jobs: seq<Job>, s: RendererStatus): (n: nat)
    ensures n <= |jobs|
  {
    if |jobs| == 0 then 0
    else CountStatus(jobs[..|jobs| - 1], s) + (if jobs[|jobs| - 1].status == s then 1 else 0)
  }

  /** `get_active_len`. */
  function ActiveLen(p: Pool): nat
  {
    CountStatus(p.jobs, Rendering)
  }

  predicate IsFirstIdle(jobs: seq<Job>, k: int)
  {
    0 <= k < |jobs| && jobs[k].status.Idle? && forall j :: 0 <= j < k ==> !jobs[j].status.Idle?
  }

  predicate HasIdle(jobs: seq<Job>)
  {
    exists k :: 0 <= k < |jobs| && jobs[k].status.Idle?
  }

  /** Changing one job's status from a to b moves one job between the counts. */
  lemma {:induction false} CountAfterUpdate(jobs: seq<Job>, k: nat, j: Job, s: RendererStatus)
    requires k < |jobs|
    ensures CountStatus(jobs[k := j], s)
         == CountStatus(jobs, s) - (if jobs[k].status == s then 1 else 0) + (if j.status == s then 1 else 0)
    decreases |jobs|
  {
    var n := |jobs| - 1;
    if k < n {
      assert jobs[k := j][..n] == jobs[..n][k := j];
      CountAfterUpdate(jobs[..n], k, j, s);
    } else {
      assert jobs[k := j][..n] == jobs[..n];
    }
  }

  /** With no job of status s the count is 0; with one it is positive. */
  lemma {:induction false} CountPositive(jobs: seq<Job>, s: RendererStatus)
    ensures CountStatus(jobs, s) > 0 <==> exists k :: 0 <= k < |jobs| && jobs[k].status == s
    decreases |jobs|
  {
    if |jobs| > 0 {
      var n := |jobs| - 1;
      CountPositive(jobs[..n], s);
      if exists k :: 0 <= k < |jobs| && jobs[k].status == s {
        var k :| 0 <= k < |jobs| && jobs[k].status == s;
        if k < n {
          assert jobs[..n][k].status == s;
        }
      }
      if exists k :: 0 <= k < n && jobs[..n][k].status == s {
        var k :| 0 <= k < n && jobs[..n][k].status == s;
        assert jobs[k].status == s;
      }
    }
  }

  /** Idle jobs form a suffix of the list: jobs are started in list order. */
  predicate IdleSuffix(jobs: seq<Job>)
  {
    forall i, j :: 0 <= i < j < |jobs| && jobs[i].status.Idle? ==> jobs[j].status.Idle?
  }

  lemma SpawnNextKeepsIdleSuffix(p: Pool, k: nat)
    requires IdleSuffix(p.jobs) && IsFirstIdle(p.jobs, k)
    ensures IdleSuffix(p.jobs[k := p.jobs[k].(status := Rendering)])
  {
  }

  /** `spawn_next`: below the parallel limit, the first Idle job in list
      order starts rendering and the answer is true; otherwise nothing
      changes and the answer is false. */
  method SpawnNext(p: Pool) returns (started: bool, p': Pool)
    ensures started <==> ActiveLen(p) < p.maxParallel && HasIdle(p.jobs)
    ensures !started ==> p' == p
    ensures started ==> exists k :: IsFirstIdle(p.jobs, k) && p' == p.(jobs := p.jobs[k := p.jobs[k].(status := Rendering)])
    ensures started ==> ActiveLen(p') == ActiveLen(p) + 1
    ensures |p'.jobs| == |p.jobs| && p'.maxParallel == p.maxParallel && p'.isRendering == p.isRendering
    ensures IdleSuffix(p.jobs) ==> IdleSuffix(p'.jobs)
  {
    if ActiveLen(p) >= p.maxParallel {
      return false, p;
    }
    for i := 0 to |p.jobs|
      invariant forall j :: 0 <= j < i ==> !p.jobs[j].status.Idle?
    {
      if p.jobs[i].status.Idle? {
        assert IsFirstIdle(p.jobs, i);
        p' := p.(jobs := p.jobs[i := p.jobs[i].(status := Rendering)]);
        CountAfterUpdate(p.jobs, i, p.jobs[i].(status := Rendering), Rendering);
        if IdleSuffix(p.jobs) {
          SpawnNextKeepsIdleSuffix(p, i);
        }
        return true, p';
      }
    }
    return false, p;
  }

  /** `run`: `maxParallel` attempts to spawn, then the pool is rendering.
      Afterwards either the limit is reached or no job is left Idle. */
  method Run(p: Pool) returns (p': Pool)
    requires ActiveLen(p) <= p.maxParallel
    ensures p'.isRendering && p'.maxParallel == p.maxParallel && |p'.jobs| == |p.jobs|
    ensures ActiveLen(p') <= p'.maxParallel
    ensures ActiveLen(p') == p'.maxParallel || !HasIdle(p'.jobs)
    ensures IdleSuffix(p.jobs) ==> IdleSuffix(p'.jobs)
  {
    p' := p;
    for i := 0 to p.maxParallel
      invariant p'.maxParallel == p.maxParallel && |p'.jobs| == |p.jobs|
      invariant IdleSuffix(p.jobs) ==> IdleSuffix(p'.jobs)
      invariant ActiveLen(p') <= p.maxParallel
      invariant ActiveLen(p') >= ActiveLen(p) + i || ActiveLen(p') == p.maxParallel || !HasIdle(p'.jobs)
    {
      var started;
      started, p' := SpawnNext(p');
    }
    p' := p'.(isRendering := true);
  }

  /** The environment step of a render thread that completed `run`. */
  function FinishJob(p: Pool, k: nat): (p': Pool)
    requires k < |p.jobs|
    ensures p.jobs[k].status.Rendering? ==> p'.jobs == p.jobs[k := p.jobs[k].(status := Finished)]
    ensures !p.jobs[k].status.Rendering? ==> p' == p
    ensures p'.maxParallel == p.maxParallel && p'.isRendering == p.isRendering
  {
    if p.jobs[k].status.Rendering? then p.(jobs := p.jobs[k := p.jobs[k].(status := Finished)]) else p
  }

  /** The environment step of a render thread publishing its progress. */
  function ReportStats(p: Pool, k: nat, s: RenderStats): (p': Pool)
    requires k < |p.jobs|
    ensures p'.jobs == p.jobs[k := p.jobs[k].(stats := s)]
    ensures p'.maxParallel == p.maxParallel && p'.isRendering == p.isRendering
  {
    p.(jobs := p.jobs[k := p.jobs[k].(stats := s)])
  }

  /** The environment steps keep every invariant the scheduler relies on. */
  lemma FinishJobKeepsInvariants(p: Pool, k: nat)
    requires k < |p.jobs| && IdleSuffix(p.jobs) && ActiveLen(p) <= p.maxParallel
    ensures IdleSuffix(FinishJob(p, k).jobs) && ActiveLen(FinishJob(p, k)) <= p.maxParallel
  {
    if p.jobs[k].status.Rendering? {
      CountAfterUpdate(p.jobs, k, p.jobs[k].(status := Finished), Rendering);
    }
  }

  function IsBusy(s: RendererStatus): bool
  {
    s.Error? || s.Rendering?
  }

  predicate NoBusyBefore(jobs: seq<Job>, k: int)
    requires k <= |jobs|
  {
    forall j :: 0 <= j < k ==> !IsBusy(jobs[j].status)
  }

  /** `cancel`: every job's allow flag is cleared, as its threads see it, and
      the pool forgets its jobs. */
  function Cancel(p: Pool): (r: (Pool, seq<Job>))
    ensures r.0.jobs == [] && !r.0.isRendering && r.0.maxParallel == p.maxParallel
    ensures |r.1| == |p.jobs|
    ensures forall i :: 0 <= i < |p.jobs| ==> r.1[i] == p.jobs[i].(allow := false)
  {
    (p.(jobs := [], isRendering := false), seq(|p.jobs|, i requires 0 <= i < |p.jobs| => p.jobs[i].(allow := false)))
  }

  /** `status`: jobs are scanned in order; the first Error or Rendering job
      decides the answer, and otherwise the last job's status does
      (Finished for an empty pool). Every Finished job the scan passes loses
      its renderer. An Error cancels the pool; Finished ends rendering. */
  method Status(p: Pool) returns (s: RendererStatus, p': Pool, cancelled: seq<Job>)
    ensures forall k :: 0 <= k < |p.jobs| && IsBusy(p.jobs[k].status) && NoBusyBefore(p.jobs, k) ==>
      s == p.jobs[k].status
    ensures NoBusyBefore(p.jobs, |p.jobs|) ==> s == (if |p.jobs| == 0 then Finished else p.jobs[|p.jobs| - 1].status)
    ensures s.Error? ==> p' == Cancel(p).0
    ensures s.Error? ==> |cancelled| == |p.jobs| && forall i :: 0 <= i < |p.jobs| ==>
      cancelled[i] == p.jobs[i].(allow := false, hasRenderer := p.jobs[i].hasRenderer && !(p.jobs[i].status.Finished? && NoBusyBefore(p.jobs, i)))
    ensures !s.Error? ==> cancelled == [] && |p'.jobs| == |p.jobs| && p'.maxParallel == p.maxParallel
    ensures !s.Error? ==> forall i :: 0 <= i < |p.jobs| ==>
      p'.jobs[i] == p.jobs[i].(hasRenderer := p.jobs[i].hasRenderer && !(p.jobs[i].status.Finished? && NoBusyBefore(p.jobs, i)))
    ensures s.Finished? ==> !p'.isRendering
    ensures s.Idle? || s.Rendering? ==> p'.isRendering == p.isRendering
  {
    s := Finished;
    var jobs := p.jobs;
    var stop := |jobs|;
    for i := 0 to |jobs|
      invariant |jobs| == |p.jobs|
      invariant NoBusyBefore(p.jobs, i)
      invariant i > 0 ==> s == p.jobs[i - 1].status
      invariant i == 0 ==> s == Finished
      invariant forall j :: 0 <= j < i ==> jobs[j] == p.jobs[j].(hasRenderer := p.jobs[j].hasRenderer && !p.jobs[j].status.Finished?)
      invariant forall j :: i <= j < |jobs| ==> jobs[j] == p.jobs[j]
    {
      s := jobs[i].status;
      if s.Finished? {
        jobs := jobs[i := jobs[i].(hasRenderer := false)];
      }
      if IsBusy(s) {
        stop := i;
        break;
      }
    }
    assert forall i :: 0 <= i < |p.jobs| ==>
      jobs[i] == p.jobs[i].(hasRenderer := p.jobs[i].hasRenderer && !(p.jobs[i].status.Finished? && NoBusyBefore(p.jobs, i)));
    if s.Error? {
      var r := Cancel(p.(jobs := jobs));
      p', cancelled := r.0, r.1;
    } else if s.Finished? {
      p', cancelled := p.(jobs := jobs, isRendering := false), [];
    } else {
      p', cancelled := p.(jobs := jobs), [];
    }
  }

  /** `get_stats`: one entry per job, absent exactly for the Idle ones. */
  function GetStats(p: Pool): (r: seq<Option<RenderStats>>)
    ensures |r| == |p.jobs|
    ensures forall i :: 0 <= i < |p.jobs| ==> (r[i].None? <==> p.jobs[i].status.Idle?)
    ensures forall i :: 0 <= i < |p.jobs| && r[i].Some? ==> r[i].value == p.jobs[i].stats
  {
    seq(|p.jobs|, i requires 0 <= i < |p.jobs| => if p.jobs[i].status.Idle? then None else Some(p.jobs[i].stats))
  }

  /** `set_soundfonts`: the jobs whose renderer is still held receive the
      soundfont configuration, in list order. */
  function SetSoundfontsTargets(p: Pool): (ks: seq<nat>)
    ensures forall a, b :: 0 <= a < b < |ks| ==> ks[a] < ks[b]
    ensures forall k: nat :: k in ks <==> k < |p.jobs| && p.jobs[k].hasRenderer
  {
    TargetsFrom(p.jobs, 0)
  }

  function TargetsFrom(jobs: seq<Job>, i: nat): (ks: seq<nat>)
    requires i <= |jobs|
    ensures forall a, b :: 0 <= a < b < |ks| ==> ks[a] < ks[b]
    ensures forall k: nat :: k in ks <==> i <= k < |jobs| && jobs[k].hasRenderer
    ensures forall a :: 0 <= a < |ks| ==> i <= ks[a] < |jobs|
    decreases |jobs| - i
  {
    if i == |jobs| then []
    else if jobs[i].hasRenderer then [i] + TargetsFrom(jobs, i + 1)
    else TargetsFrom(jobs, i + 1)
  }

  /** With jobs started in list order, a Finished answer from `status` means
      every job has finished, so `spawn_next` has nothing left to start. */
  lemma FinishedStatusMeansAllFinished(p: Pool, s: RendererStatus)
    requires IdleSuffix(p.jobs) && |p.jobs| > 0
    requires NoBusyBefore(p.jobs, |p.jobs|) && p.jobs[|p.jobs| - 1].status.Finished?
    ensures forall i :: 0 <= i < |p.jobs| ==> p.jobs[i].status.Finished?
    ensures !HasIdle(p.jobs)
  {
  }
}
