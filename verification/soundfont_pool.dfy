/** The soundfont loader: one worker per soundfont loads it into the shared
    cache, and the pool sums its workers up in one status. A worker's load
    finishing is an environment step. */
module SoundfontPool {
  import opened Base
  import opened SoundfontList

  datatype WorkerStatus = Loading | Finished | Error

  datatype Worker = Worker(item: SfListItem, status: WorkerStatus, allow: bool)

  datatype Pool = Pool(workers: seq<Worker>)

  /** The shared cache: the loaded soundfont (named by its list item) for
      each path. */
  type Cache = map<Path, SfListItem>

  /** `SoundfontThread::load_new`: the worker starts Loading and allowed. */
  function LoadNew(item: SfListItem): (w: Worker)
    ensures w.status.Loading? && w.allow && w.item == item
  {
    Worker(item, Loading, true)
  }

  /** `SoundfontPool::new`: one loading worker per soundfont, in order. */
  function NewPool(items: seq<SfListItem>): (p: Pool)
    ensures |p.workers| == |items|
    ensures forall i :: 0 <= i < |items| ==> p.workers[i].item == items[i]
    ensures forall i :: 0 <= i < |items| ==> p.workers[i].status.Loading? && p.workers[i].allow
  {
    Pool(seq(|items|, i requires 0 <= i < |items| => LoadNew(items[i])))
  }

  /** The environment step of worker `k` finishing its load: on success the
      soundfont enters the cache only if the worker is still allowed, and the
      worker is Finished either way; on failure the worker is in Error and
      the cache is untouched. A worker that is not Loading has already
      finished and does nothing. */
  function Complete(p: Pool, cache: Cache, k: nat, ok: bool): (r: (Pool, Cache))
    requires k < |p.workers|
    ensures |r.0.workers| == |p.workers|
    ensures forall i :: 0 <= i < |p.workers| && i != k ==> r.0.workers[i] == p.workers[i]
    ensures !p.workers[k].status.Loading? ==> r == (p, cache)
    ensures p.workers[k].status.Loading? ==>
      && r.0.workers[k] == p.workers[k].(status := if ok then Finished else Error)
      && r.1 == if ok && p.workers[k].allow then cache[p.workers[k].item.path := p.workers[k].item] else cache
  {
    var w := p.workers[k];
    if !w.status.Loading? then (p, cache)
    else if ok then
      (Pool(p.workers[k := w.(status := Finished)]), if w.allow then cache[w.item.path := w.item] else cache)
    else (Pool(p.workers[k := w.(status := Error)]), cache)
  }

  /** `cancel`: every worker is told to stop. */
  function Cancel(p: Pool): (r: Pool)
    ensures |r.workers| == |p.workers|
    ensures forall i :: 0 <= i < |p.workers| ==> r.workers[i] == p.workers[i].(allow := false)
  {
    Pool(seq(|p.workers|, i requires 0 <= i < |p.workers| => p.workers[i].(allow := false)))
  }

  function IsUnfinished(w: Worker): bool
  {
    !w.status.Finished?
  }

  /** The status loop: the last status seen, stopping at the first Error. */
  function Scan(ws: seq<Worker>): (s: WorkerStatus)
    ensures s.Error? <==> exists i :: 0 <= i < |ws| && ws[i].status.Error?
    ensures (forall i :: 0 <= i < |ws| ==> !ws[i].status.Error?) ==>
      s == if |ws| == 0 then Finished else ws[|ws| - 1].status
  {
    if |ws| == 0 then Finished
    else if ws[0].status.Error? then Error
    else if |ws| == 1 then ws[0].status
    else
      var s := Scan(ws[1..]);
      assert forall i :: 1 <= i < |ws| ==> ws[1..][i - 1] == ws[i];
      s
  }

  /** `status`: an empty pool is Finished; otherwise Finished workers are
      dropped, and the answer is Error if any remaining worker failed (which
      cancels the pool), else the last remaining worker's status, else
      Finished. */
  function Status(p: Pool): (r: (WorkerStatus, Pool))
    ensures r.0.Error? <==> exists i :: 0 <= i < |p.workers| && p.workers[i].status.Error?
    ensures r.0.Finished? <==> forall i :: 0 <= i < |p.workers| ==> p.workers[i].status.Finished?
    ensures r.0.Loading? <==>
      (exists i :: 0 <= i < |p.workers| && p.workers[i].status.Loading?)
      && (forall i :: 0 <= i < |p.workers| ==> !p.workers[i].status.Error?)
    ensures |p.workers| > 0 && !r.0.Error? ==> r.1.workers == Filter(p.workers, IsUnfinished)
    ensures r.0.Error? ==> r.1 == Cancel(Pool(Filter(p.workers, IsUnfinished)))
  {
    if |p.workers| == 0 then (Finished, p)
    else
      var kept := Filter(p.workers, IsUnfinished);
      var s := Scan(kept);
      assert forall i :: 0 <= i < |p.workers| && !p.workers[i].status.Finished? ==> p.workers[i] in kept;
      if s.Error? then (s, Cancel(Pool(kept))) else (s, Pool(kept))
  }

  /** Once a worker has failed the pool reports Error and keeps doing so:
      the failed worker is never dropped, cancelling keeps it, and no load
      step changes it. */
  lemma ErrorPersists(p: Pool, cache: Cache, k: nat, ok: bool)
    requires exists i :: 0 <= i < |p.workers| && p.workers[i].status.Error?
    ensures Status(p).0.Error? && Status(Status(p).1).0.Error?
    ensures k < |p.workers| ==> Status(Complete(p, cache, k, ok).0).0.Error?
  {
    var i :| 0 <= i < |p.workers| && p.workers[i].status.Error?;
    var kept := Filter(p.workers, IsUnfinished);
    assert p.workers[i] in kept;
    var j :| 0 <= j < |kept| && kept[j] == p.workers[i];
    assert Status(p).1.workers[j].status.Error?;
    if k < |p.workers| {
      assert Complete(p, cache, k, ok).0.workers[i].status.Error?;
    }
  }

  /** A load that completes after the pool was cancelled never reaches the
      cache. */
  lemma CancelledLoadNotCached(p: Pool, cache: Cache, k: nat, ok: bool)
    requires k < |p.workers|
    ensures Complete(Cancel(p), cache, k, ok).1 == cache
  {
  }

  /** A load that succeeds while allowed puts its soundfont in the cache
      under its path. */
  lemma AllowedLoadCached(p: Pool, cache: Cache, k: nat)
    requires k < |p.workers| && p.workers[k].status.Loading? && p.workers[k].allow
    ensures var c := Complete(p, cache, k, true).1;
      p.workers[k].item.path in c && c[p.workers[k].item.path] == p.workers[k].item
  {
  }
}
