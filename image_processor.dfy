/**
 * The worker-pool dispatcher of task1/imageProcessor.js: a FIFO job queue,
 * a list of pooled workers each carrying `busy` and the `resolve`/`reject`
 * of the job it runs, and the handlers that react to a worker's `message`,
 * `error` and `exit` events.
 *
 * A worker thread is an opaque id. Worker objects live on after they leave
 * the pool (their handlers can still fire), so their records are kept in a
 * map indexed by id, like a heap; `workers` is the pool list itself.
 * `postMessage` is recorded as a `Post`, and calling a job's `resolve` or
 * `reject` is recorded as a `Call`.
 */
module ImageProcessor {
  import opened Wrappers

  type WorkerId = nat

  /** A runJob promise, identified by the order in which runJob created it. */
  type JobId = nat

  /** A queued job `{ data, resolve, reject }`; `id` names its promise's resolve/reject pair. */
  datatype Job = Job(data: string, id: JobId)

  /**
   * A worker's fields: `busy`, and the job whose `resolve` and `reject` it
   * holds (the code sets the two together in dispatch and clears them
   * together in the message handler).
   */
  datatype WorkerRec = WorkerRec(busy: bool, job: Option<JobId>)

  /** `worker.postMessage(data)`. */
  datatype Post = Post(worker: WorkerId, data: string)

  /** Why a job was rejected: an `error` event, or `new Error(`Exit ${code}`)`. */
  datatype Reason = WorkerError(err: string) | ExitCode(code: int)

  /** A call of a job's resolve or reject function. */
  datatype Call = Resolve(job: JobId, result: string) | Reject(job: JobId, reason: Reason)

  /** The module-level state: pool list, worker objects, job queue, and what was posted and called. */
  datatype PoolState = PoolState(
    workers: seq<WorkerId>,
    recs: map<WorkerId, WorkerRec>,
    queue: seq<Job>,
    posted: seq<Post>,
    calls: seq<Call>)

  // ---------------------------------------------------------------------------
  // Queries on the pool list
  // ---------------------------------------------------------------------------

  /** Every pooled worker has a worker object. */
  ghost predicate Registered(workers: seq<WorkerId>, recs: map<WorkerId, WorkerRec>)
  {
    forall i :: 0 <= i < |workers| ==> workers[i] in recs
  }

  /** No worker appears twice in the pool list. */
  ghost predicate Distinct(workers: seq<WorkerId>)
  {
    forall i, j :: 0 <= i < j < |workers| ==> workers[i] != workers[j]
  }

  /** `workers.find(w => !w.busy)`, as an index: the first worker that is not busy. */
  function FindFree(workers: seq<WorkerId>, recs: map<WorkerId, WorkerRec>): (r: Option<nat>)
    requires Registered(workers, recs)
    ensures r.Some? ==> r.value < |workers| && !recs[workers[r.value]].busy &&
                        forall j :: 0 <= j < r.value ==> recs[workers[j]].busy
    ensures r.None? ==> forall j :: 0 <= j < |workers| ==> recs[workers[j]].busy
  {
    if |workers| == 0 then None
    else if !recs[workers[0]].busy then Some(0)
    else match FindFree(workers[1..], recs)
      case None => None
      case Some(i) => Some(i + 1)
  }

  /** `workers.indexOf(w)`, with None for -1: the first position holding `w`. */
  function IndexOf(workers: seq<WorkerId>, w: WorkerId): (r: Option<nat>)
    ensures r.Some? ==> r.value < |workers| && workers[r.value] == w &&
                        forall j :: 0 <= j < r.value ==> workers[j] != w
    ensures r.None? <==> w !in workers
  {
    if |workers| == 0 then None
    else if workers[0] == w then Some(0)
    else match IndexOf(workers[1..], w)
      case None => (assert workers == [workers[0]] + workers[1..]; None)
      case Some(i) => Some(i + 1)
  }

  /** The pool list without `w`: a reference definition of removal that keeps the order of the rest. */
  function Without(workers: seq<WorkerId>, w: WorkerId): (r: seq<WorkerId>)
  {
    if |workers| == 0 then []
    else (if workers[0] == w then [] else [workers[0]]) + Without(workers[1..], w)
  }

  /** removeWorker: splice out the first occurrence of `w`, if there is one. */
  function Removed(workers: seq<WorkerId>, w: WorkerId): (r: seq<WorkerId>)
    ensures w !in workers ==> r == workers
    ensures w in workers ==> |r| == |workers| - 1
    ensures multiset(r) == multiset(workers) - multiset{w}
  {
    match IndexOf(workers, w)
    case None => workers
    case Some(i) =>
      assert workers == workers[..i] + [w] + workers[i + 1..];
      workers[..i] + workers[i + 1..]
  }

  lemma {:induction false} WithoutAbsent(workers: seq<WorkerId>, w: WorkerId)
    requires w !in workers
    ensures Without(workers, w) == workers
  {
    if |workers| > 0 {
      WithoutAbsent(workers[1..], w);
      assert workers == [workers[0]] + workers[1..];
    }
  }

  lemma {:induction false} WithoutConcat(a: seq<WorkerId>, b: seq<WorkerId>, w: WorkerId)
    ensures Without(a + b, w) == Without(a, w) + Without(b, w)
  {
    if |a| == 0 {
      assert a + b == b;
    } else {
      var head := if a[0] == w then [] else [a[0]];
      assert (a + b)[0] == a[0] && (a + b)[1..] == a[1..] + b;
      calc {
        Without(a + b, w);
        head + Without(a[1..] + b, w);
        { WithoutConcat(a[1..], b, w); }
        head + (Without(a[1..], w) + Without(b, w));
        (head + Without(a[1..], w)) + Without(b, w);
        Without(a, w) + Without(b, w);
      }
    }
  }

  lemma WithoutSplice(a: seq<WorkerId>, w: WorkerId, b: seq<WorkerId>)
    requires w !in a && w !in b
    ensures Without(a + [w] + b, w) == a + b
  {
    assert Without([w], w) == [] by {
      assert [w][1..] == [];
    }
    calc {
      Without(a + [w] + b, w);
      { WithoutConcat(a + [w], b, w); }
      Without(a + [w], w) + Without(b, w);
      { WithoutConcat(a, [w], w); }
      Without(a, w) + Without(b, w);
      { WithoutAbsent(a, w); WithoutAbsent(b, w); }
      a + b;
    }
  }

  /**
   * On a pool list without duplicates, removeWorker deletes exactly `w` and
   * keeps every other worker in its order.
   */
  lemma RemovedIsWithout(workers: seq<WorkerId>, w: WorkerId)
    requires Distinct(workers)
    ensures Removed(workers, w) == Without(workers, w)
    ensures w !in Removed(workers, w)
  {
    match IndexOf(workers, w)
    case None =>
      WithoutAbsent(workers, w);
    case Some(i) =>
      var a, b := workers[..i], workers[i + 1..];
      assert workers == a + [w] + b;
      assert w !in a;
      assert w !in b by {
        forall j | 0 <= j < |b| ensures b[j] != w {
          assert b[j] == workers[i + 1 + j];
          assert workers[i] != workers[i + 1 + j];
        }
      }
      assert Removed(workers, w) == a + b;
      WithoutSplice(a, w, b);
  }

  // ---------------------------------------------------------------------------
  // The operations, on the whole state
  // ---------------------------------------------------------------------------

  /** The state invariant: the pool list is registered and duplicate-free, and a worker is busy exactly when it holds a job. */
  ghost predicate WellFormed(s: PoolState)
  {
    Registered(s.workers, s.recs) && Distinct(s.workers) &&
    forall w :: w in s.recs ==> (s.recs[w].busy <==> s.recs[w].job.Some?)
  }

  /**
   * dispatch: with a queued job and a free worker, shift the front job and
   * hand it to the first free worker; otherwise do nothing. At most one job
   * moves per call.
   */
  function Dispatched(s: PoolState): (r: PoolState)
    requires Registered(s.workers, s.recs)
    ensures r.workers == s.workers && r.calls == s.calls && Registered(r.workers, r.recs)
    ensures |s.queue| == 0 || FindFree(s.workers, s.recs).None? ==> r == s
    ensures |s.posted| <= |r.posted| <= |s.posted| + 1
    ensures |r.queue| + |r.posted| == |s.queue| + |s.posted|
    ensures r.recs.Keys == s.recs.Keys
    ensures forall v :: v in s.recs && v !in s.workers ==> r.recs[v] == s.recs[v]
  {
    if |s.queue| == 0 then s
    else match FindFree(s.workers, s.recs)
      case None => s
      case Some(i) =>
        var job := s.queue[0];
        var w := s.workers[i];
        s.(queue := s.queue[1..],
           recs := s.recs[w := WorkerRec(true, Some(job.id))],
           posted := s.posted + [Post(w, job.data)])
  }

  /**
   * When a job is queued and some pooled worker is free, dispatch gives the
   * front job to a worker that was not busy, and every worker before it in
   * the pool was busy; the worker becomes busy holding that job, the job
   * leaves the front of the queue, and only that worker's data is posted.
   */
  lemma DispatchAssigns(s: PoolState, f: nat)
    requires Registered(s.workers, s.recs)
    requires |s.queue| > 0 && f < |s.workers| && !s.recs[s.workers[f]].busy
    ensures exists i :: 0 <= i < |s.workers| && !s.recs[s.workers[i]].busy &&
              (forall j :: 0 <= j < i ==> s.recs[s.workers[j]].busy) &&
              Dispatched(s) == s.(queue := s.queue[1..],
                                  recs := s.recs[s.workers[i] := WorkerRec(true, Some(s.queue[0].id))],
                                  posted := s.posted + [Post(s.workers[i], s.queue[0].data)])
  {
    var i := FindFree(s.workers, s.recs).value;
    assert 0 <= i < |s.workers| && !s.recs[s.workers[i]].busy;
  }

  lemma DispatchKeepsWellFormed(s: PoolState)
    requires WellFormed(s)
    ensures WellFormed(Dispatched(s))
  {
  }

  /** runJob's push: the job goes to the back of the queue. */
  function Queued(s: PoolState, job: Job): (r: PoolState)
    ensures r.queue == s.queue + [job] && r.queue[|r.queue| - 1] == job
    ensures r.workers == s.workers && r.recs == s.recs && r.posted == s.posted && r.calls == s.calls
  {
    s.(queue := s.queue + [job])
  }

  /** spawnWorker: a new, idle worker object appended to the pool list. */
  function Spawned(s: PoolState, w: WorkerId): (r: PoolState)
    ensures r.workers == s.workers + [w] && w in r.recs && r.recs[w] == WorkerRec(false, None)
    ensures forall v :: v in s.recs && v != w ==> v in r.recs && r.recs[v] == s.recs[v]
    ensures r.queue == s.queue && r.posted == s.posted && r.calls == s.calls
  {
    s.(workers := s.workers + [w], recs := s.recs[w := WorkerRec(false, None)])
  }

  /**
   * removeWorker followed by spawnWorker, the common tail of the error and
   * exit handlers (before dispatch): the pool keeps its size when `w` was in
   * it and grows by one when `w` had already been removed; the new worker is
   * last and idle.
   */
  function Replaced(s: PoolState, w: WorkerId, newId: WorkerId): (r: PoolState)
    ensures |r.workers| == |s.workers| + (if w in s.workers then 0 else 1)
    ensures r.workers[|r.workers| - 1] == newId && newId in r.recs && r.recs[newId] == WorkerRec(false, None)
    ensures r.queue == s.queue && r.posted == s.posted && r.calls == s.calls
  {
    Spawned(s.(workers := Removed(s.workers, w)), newId)
  }

  /** The `message` handler: clear `busy`, resolve the held job with the result, clear resolve/reject, dispatch. */
  function Messaged(s: PoolState, w: WorkerId, result: string): (r: PoolState)
    requires Registered(s.workers, s.recs) && w in s.recs
    ensures r.workers == s.workers
    ensures r.calls == s.calls + (if s.recs[w].job.Some? then [Resolve(s.recs[w].job.value, result)] else [])
    ensures w in r.recs && (w !in s.workers ==> r.recs[w] == WorkerRec(false, None))
    ensures r.recs[w].busy ==> w in s.workers && |s.queue| > 0 && r.recs[w] == WorkerRec(true, Some(s.queue[0].id))
  {
    var rec := s.recs[w];
    Dispatched(s.(recs := s.recs[w := WorkerRec(false, None)],
                  calls := if rec.job.Some? then s.calls + [Resolve(rec.job.value, result)] else s.calls))
  }

  /**
   * The `error` handler: reject the held job with the error, remove the
   * worker, spawn a replacement and dispatch. The worker's own record is
   * left as it was.
   */
  function Errored(s: PoolState, w: WorkerId, err: string, newId: WorkerId): (r: PoolState)
    requires Registered(s.workers, s.recs) && w in s.recs
    ensures r.calls == s.calls + (if s.recs[w].job.Some? then [Reject(s.recs[w].job.value, WorkerError(err))] else [])
    ensures |r.workers| == |s.workers| + (if w in s.workers then 0 else 1)
    ensures r.workers[|r.workers| - 1] == newId
  {
    var rec := s.recs[w];
    var s1 := s.(calls := if rec.job.Some? then s.calls + [Reject(rec.job.value, WorkerError(err))] else s.calls);
    RegisteredAfterReplace(s1, w, newId);
    Dispatched(Replaced(s1, w, newId))
  }

  /**
   * The `exit` handler: on a non-zero code reject the held job with
   * `Exit <code>`; then remove the worker, spawn a replacement and dispatch.
   */
  function Exited(s: PoolState, w: WorkerId, code: int, newId: WorkerId): (r: PoolState)
    requires Registered(s.workers, s.recs) && w in s.recs
    ensures r.calls == s.calls + (if code != 0 && s.recs[w].job.Some? then [Reject(s.recs[w].job.value, ExitCode(code))] else [])
    ensures |r.workers| == |s.workers| + (if w in s.workers then 0 else 1)
    ensures r.workers[|r.workers| - 1] == newId
  {
    var rec := s.recs[w];
    var s1 := s.(calls := if code != 0 && rec.job.Some? then s.calls + [Reject(rec.job.value, ExitCode(code))] else s.calls);
    RegisteredAfterReplace(s1, w, newId);
    Dispatched(Replaced(s1, w, newId))
  }

  lemma RegisteredAfterReplace(s: PoolState, w: WorkerId, newId: WorkerId)
    requires Registered(s.workers, s.recs)
    ensures Registered(Replaced(s, w, newId).workers, Replaced(s, w, newId).recs)
  {
    var r := Removed(s.workers, w);
    forall i | 0 <= i < |r| ensures r[i] in s.recs {
      assert r[i] in multiset(r);
    }
  }

  // ---------------------------------------------------------------------------
  // Keeping the pool busy
  // ---------------------------------------------------------------------------

  /** Work conservation: while a job waits in the queue, every pooled worker is busy. */
  ghost predicate WorkConserving(s: PoolState)
  {
    |s.queue| > 0 ==> forall i :: 0 <= i < |s.workers| ==> s.workers[i] in s.recs && s.recs[s.workers[i]].busy
  }

  /** The number of pooled workers that are not busy. */
  function FreeCount(workers: seq<WorkerId>, recs: map<WorkerId, WorkerRec>): (n: nat)
    requires Registered(workers, recs)
  {
    if |workers| == 0 then 0
    else (if recs[workers[0]].busy then 0 else 1) + FreeCount(workers[1..], recs)
  }

  lemma {:induction false} FreeCountZero(workers: seq<WorkerId>, recs: map<WorkerId, WorkerRec>)
    requires Registered(workers, recs)
    ensures FreeCount(workers, recs) == 0 <==> forall i :: 0 <= i < |workers| ==> recs[workers[i]].busy
  {
    if |workers| > 0 {
      FreeCountZero(workers[1..], recs);
      assert forall i :: 1 <= i < |workers| ==> workers[i] == workers[1..][i - 1];
    }
  }

  lemma {:induction false} FreeCountConcat(a: seq<WorkerId>, b: seq<WorkerId>, recs: map<WorkerId, WorkerRec>)
    requires Registered(a, recs) && Registered(b, recs)
    ensures Registered(a + b, recs)
    ensures FreeCount(a + b, recs) == FreeCount(a, recs) + FreeCount(b, recs)
  {
    if |a| == 0 {
      assert a + b == b;
    } else {
      assert (a + b)[0] == a[0] && (a + b)[1..] == a[1..] + b;
      FreeCountConcat(a[1..], b, recs);
    }
  }

  /** Changing the record of a worker outside the pool list does not change the count. */
  lemma {:induction false} FreeCountOther(workers: seq<WorkerId>, recs: map<WorkerId, WorkerRec>, w: WorkerId, rec: WorkerRec)
    requires Registered(workers, recs) && w !in workers
    ensures Registered(workers, recs[w := rec])
    ensures FreeCount(workers, recs[w := rec]) == FreeCount(workers, recs)
  {
    if |workers| > 0 {
      assert w !in workers[1..];
      FreeCountOther(workers[1..], recs, w, rec);
    }
  }

  /** Changing the record of one pooled worker changes the count by that worker alone. */
  lemma {:induction false} FreeCountUpdate(workers: seq<WorkerId>, recs: map<WorkerId, WorkerRec>, w: WorkerId, rec: WorkerRec)
    requires Registered(workers, recs) && Distinct(workers) && w in workers
    ensures Registered(workers, recs[w := rec])
    ensures FreeCount(workers, recs[w := rec]) + (if recs[w].busy then 0 else 1)
         == FreeCount(workers, recs) + (if rec.busy then 0 else 1)
  {
    assert Distinct(workers[1..]) by {
      forall i, j | 0 <= i < j < |workers[1..]| ensures workers[1..][i] != workers[1..][j] {
        assert workers[i + 1] != workers[j + 1];
      }
    }
    if workers[0] == w {
      assert w !in workers[1..] by {
        forall j | 0 <= j < |workers[1..]| ensures workers[1..][j] != w {
          assert workers[0] != workers[j + 1];
        }
      }
      FreeCountOther(workers[1..], recs, w, rec);
    } else {
      assert w in workers[1..] by {
        var k :| 0 <= k < |workers| && workers[k] == w;
        assert workers[1..][k - 1] == w;
      }
      FreeCountUpdate(workers[1..], recs, w, rec);
    }
  }

  /** Removing a worker keeps the list registered and duplicate-free. */
  lemma RemovedDistinct(workers: seq<WorkerId>, recs: map<WorkerId, WorkerRec>, w: WorkerId)
    requires Registered(workers, recs) && Distinct(workers)
    ensures Registered(Removed(workers, w), recs) && Distinct(Removed(workers, w))
  {
    match IndexOf(workers, w)
    case None =>
    case Some(i) =>
      var r := Removed(workers, w);
      assert forall k :: 0 <= k < |r| ==> r[k] == workers[if k < i then k else k + 1];
  }

  lemma FreeCountSplice(a: seq<WorkerId>, w: WorkerId, b: seq<WorkerId>, recs: map<WorkerId, WorkerRec>)
    requires Registered(a + [w] + b, recs)
    ensures Registered(a + b, recs)
    ensures FreeCount(a + b, recs) <= FreeCount(a + [w] + b, recs)
  {
    assert forall k :: 0 <= k < |a| ==> a[k] == (a + [w] + b)[k];
    assert forall k :: 0 <= k < |b| ==> b[k] == (a + [w] + b)[|a| + 1 + k];
    assert (a + [w] + b)[|a|] == w;
    assert a + [w] + b == a + ([w] + b);
    FreeCountConcat(a, [w] + b, recs);
    FreeCountConcat([w], b, recs);
    FreeCountConcat(a, b, recs);
  }

  /** Removing a worker never adds free workers. */
  lemma RemovedFreeCount(workers: seq<WorkerId>, recs: map<WorkerId, WorkerRec>, w: WorkerId)
    requires Registered(workers, recs)
    ensures Registered(Removed(workers, w), recs)
    ensures FreeCount(Removed(workers, w), recs) <= FreeCount(workers, recs)
  {
    match IndexOf(workers, w)
    case None =>
    case Some(i) =>
      var a, b := workers[..i], workers[i + 1..];
      assert workers == a + [w] + b;
      FreeCountSplice(a, w, b, recs);
  }

  /**
   * dispatch restores work conservation whenever at most one job is queued
   * or at most one pooled worker is free, which is all that a push, a
   * released worker or a replacement worker can produce.
   */
  lemma DispatchConserves(s: PoolState)
    requires WellFormed(s)
    requires |s.queue| <= 1 || FreeCount(s.workers, s.recs) <= 1
    ensures WellFormed(Dispatched(s)) && WorkConserving(Dispatched(s))
  {
    var r := Dispatched(s);
    FreeCountZero(s.workers, s.recs);
    if |s.queue| > 0 && FindFree(s.workers, s.recs).Some? && |s.queue| > 1 {
      var w := s.workers[FindFree(s.workers, s.recs).value];
      FreeCountUpdate(s.workers, s.recs, w, WorkerRec(true, Some(s.queue[0].id)));
      FreeCountZero(r.workers, r.recs);
    }
  }

  /** runJob keeps the pool busy while work is queued. */
  lemma RunJobConserves(s: PoolState, job: Job)
    requires WellFormed(s) && WorkConserving(s)
    ensures WellFormed(Dispatched(Queued(s, job))) && WorkConserving(Dispatched(Queued(s, job)))
  {
    FreeCountZero(s.workers, s.recs);
    DispatchConserves(Queued(s, job));
  }

  /** The message handler keeps the pool busy while work is queued. */
  lemma MessageConserves(s: PoolState, w: WorkerId, result: string)
    requires WellFormed(s) && WorkConserving(s) && w in s.recs
    ensures WellFormed(Messaged(s, w, result)) && WorkConserving(Messaged(s, w, result))
  {
    var rec := WorkerRec(false, None);
    var s1 := s.(recs := s.recs[w := rec],
                 calls := if s.recs[w].job.Some? then s.calls + [Resolve(s.recs[w].job.value, result)] else s.calls);
    FreeCountZero(s.workers, s.recs);
    if w in s.workers {
      FreeCountUpdate(s.workers, s.recs, w, rec);
    } else {
      FreeCountOther(s.workers, s.recs, w, rec);
    }
    DispatchConserves(s1);
  }

  /** The new worker is not in the pool list that removeWorker leaves. */
  lemma NewIdNotPooled(s: PoolState, w: WorkerId, newId: WorkerId)
    requires Registered(s.workers, s.recs) && newId !in s.recs
    ensures newId !in Removed(s.workers, w)
  {
    var rest := Removed(s.workers, w);
    forall k | 0 <= k < |rest| ensures rest[k] != newId {
      assert rest[k] in multiset(rest);
      assert rest[k] in s.workers;
    }
  }

  /** Replacing a worker keeps the state well formed and adds at most one free worker. */
  lemma ReplacedFreeCount(s: PoolState, w: WorkerId, newId: WorkerId)
    requires WellFormed(s) && newId !in s.recs
    ensures WellFormed(Replaced(s, w, newId))
    ensures FreeCount(Replaced(s, w, newId).workers, Replaced(s, w, newId).recs) <= FreeCount(s.workers, s.recs) + 1
  {
    var rest := Removed(s.workers, w);
    var idle := WorkerRec(false, None);
    var r := Replaced(s, w, newId);
    assert r.workers == rest + [newId] && r.recs == s.recs[newId := idle];
    RemovedDistinct(s.workers, s.recs, w);
    RemovedFreeCount(s.workers, s.recs, w);
    NewIdNotPooled(s, w, newId);
    FreeCountOther(rest, s.recs, newId, idle);
    FreeCountConcat(rest, [newId], r.recs);
  }

  /** Replacing a worker and dispatching keeps the pool busy while work is queued. */
  lemma ReplaceConserves(s: PoolState, w: WorkerId, newId: WorkerId)
    requires WellFormed(s) && WorkConserving(s) && newId !in s.recs
    ensures Registered(Replaced(s, w, newId).workers, Replaced(s, w, newId).recs)
    ensures WellFormed(Dispatched(Replaced(s, w, newId))) && WorkConserving(Dispatched(Replaced(s, w, newId)))
  {
    ReplacedFreeCount(s, w, newId);
    FreeCountZero(s.workers, s.recs);
    DispatchConserves(Replaced(s, w, newId));
  }

  /** The error handler keeps the pool busy while work is queued. */
  lemma ErrorConserves(s: PoolState, w: WorkerId, err: string, newId: WorkerId)
    requires WellFormed(s) && WorkConserving(s) && w in s.recs && newId !in s.recs
    ensures WellFormed(Errored(s, w, err, newId)) && WorkConserving(Errored(s, w, err, newId))
  {
    var rec := s.recs[w];
    ReplaceConserves(s.(calls := if rec.job.Some? then s.calls + [Reject(rec.job.value, WorkerError(err))] else s.calls), w, newId);
  }

  /** The exit handler keeps the pool busy while work is queued. */
  lemma ExitConserves(s: PoolState, w: WorkerId, code: int, newId: WorkerId)
    requires WellFormed(s) && WorkConserving(s) && w in s.recs && newId !in s.recs
    ensures WellFormed(Exited(s, w, code, newId)) && WorkConserving(Exited(s, w, code, newId))
  {
    var rec := s.recs[w];
    ReplaceConserves(s.(calls := if code != 0 && rec.job.Some? then s.calls + [Reject(rec.job.value, ExitCode(code))] else s.calls), w, newId);
  }

  // ---------------------------------------------------------------------------
  // Promise settlement
  // ---------------------------------------------------------------------------

  /** How job `j`'s promise settled: the first call of its resolve or reject; later calls are ignored. */
  function Outcome(calls: seq<Call>, j: JobId): (r: Option<Call>)
    ensures r.Some? ==> r.value in calls && r.value.job == j
    ensures r.None? <==> forall k :: 0 <= k < |calls| ==> calls[k].job != j
    ensures r.Some? ==> exists k :: 0 <= k < |calls| && calls[k] == r.value &&
                          forall m :: 0 <= m < k ==> calls[m].job != j
  {
    if |calls| == 0 then None
    else
      var o := Outcome(calls[..|calls| - 1], j);
      if o.Some? then o
      else if calls[|calls| - 1].job == j then Some(calls[|calls| - 1])
      else None
  }

  /** Once settled, a promise keeps its outcome whatever is called afterwards. */
  lemma {:induction false} SettledStays(calls: seq<Call>, more: seq<Call>, j: JobId)
    requires Outcome(calls, j).Some?
    ensures Outcome(calls + more, j) == Outcome(calls, j)
  {
    if |more| == 0 {
      assert calls + more == calls;
    } else {
      var init := more[..|more| - 1];
      SettledStays(calls, init, j);
      assert (calls + more)[..|calls + more| - 1] == calls + init;
    }
  }

  /**
   * The error handler on a pooled worker holding job `j`: the job is
   * rejected with the error, the worker leaves the pool (which keeps its
   * size), and its own record is untouched.
   */
  lemma ErrorOnPooled(s: PoolState, w: WorkerId, j: JobId, err: string, newId: WorkerId)
    requires WellFormed(s) && w in s.workers && s.recs[w].job == Some(j) && newId !in s.recs
    ensures var r := Errored(s, w, err, newId);
            r.calls == s.calls + [Reject(j, WorkerError(err))] &&
            |r.workers| == |s.workers| && w !in r.workers && w in r.recs && r.recs[w] == s.recs[w]
  {
    var s1 := s.(calls := s.calls + [Reject(j, WorkerError(err))]);
    RegisteredAfterReplace(s1, w, newId);
    RemovedIsWithout(s.workers, w);
    var r1 := Replaced(s1, w, newId);
    assert r1.workers == Removed(s.workers, w) + [newId];
  }

  /**
   * A worker that crashes while running job `j` emits `error` and then
   * `exit` with a non-zero code. Both handlers remove it and spawn a
   * replacement, so the pool ends one worker larger than it started; the
   * job is rejected with the error, and the exit's second rejection is
   * ignored.
   */
  lemma ErrorThenExit(s: PoolState, w: WorkerId, j: JobId, err: string, code: int, n1: WorkerId, n2: WorkerId)
    requires WellFormed(s) && w in s.workers && s.recs[w].job == Some(j)
    requires Outcome(s.calls, j).None?
    requires n1 !in s.recs
    ensures var s1 := Errored(s, w, err, n1);
            w in s1.recs &&
            var s2 := Exited(s1, w, code, n2);
            |s2.workers| == |s.workers| + 1 &&
            Outcome(s2.calls, j) == Some(Reject(j, WorkerError(err)))
  {
    var c1 := s.calls + [Reject(j, WorkerError(err))];
    assert Outcome(c1, j) == Some(Reject(j, WorkerError(err))) by {
      assert c1[..|c1| - 1] == s.calls;
    }
    ErrorOnPooled(s, w, j, err, n1);
    var s1 := Errored(s, w, err, n1);
    var s2 := Exited(s1, w, code, n2);
    if code != 0 {
      assert s2.calls == c1 + [Reject(j, ExitCode(code))];
      SettledStays(c1, [Reject(j, ExitCode(code))], j);
    }
  }

  /**
   * Every job id in the state was handed out before `n`: the ids of queued
   * jobs, of jobs held by worker objects, and of jobs resolved or rejected.
   */
  ghost predicate JobsBelow(s: PoolState, n: nat)
  {
    (forall i :: 0 <= i < |s.queue| ==> s.queue[i].id < n) &&
    (forall v :: v in s.recs && s.recs[v].job.Some? ==> s.recs[v].job.value < n) &&
    (forall k :: 0 <= k < |s.calls| ==> s.calls[k].job < n)
  }

  /** A job id not handed out yet names a promise that nothing has settled. */
  lemma FreshJobUnsettled(s: PoolState, n: nat)
    requires JobsBelow(s, n)
    ensures Outcome(s.calls, n).None?
    ensures forall i :: 0 <= i < |s.queue| ==> s.queue[i].id != n
  {
  }

  /** Dispatch moves a queued job id into a worker record and hands out none. */
  lemma DispatchKeepsJobsBelow(s: PoolState, n: nat)
    requires Registered(s.workers, s.recs) && JobsBelow(s, n)
    ensures JobsBelow(Dispatched(s), n)
  {
  }

  /** A replacement worker holds no job. */
  lemma ReplaceKeepsJobsBelow(s: PoolState, w: WorkerId, newId: WorkerId, n: nat)
    requires Registered(s.workers, s.recs) && JobsBelow(s, n)
    ensures Registered(Replaced(s, w, newId).workers, Replaced(s, w, newId).recs)
    ensures JobsBelow(Replaced(s, w, newId), n)
  {
    RegisteredAfterReplace(s, w, newId);
  }

  /** The message handler hands out no job id: it settles and re-dispatches jobs already created. */
  lemma MessageKeepsJobsBelow(s: PoolState, w: WorkerId, result: string, n: nat)
    requires Registered(s.workers, s.recs) && w in s.recs && JobsBelow(s, n)
    ensures JobsBelow(Messaged(s, w, result), n)
  {
    var rec := s.recs[w];
    DispatchKeepsJobsBelow(s.(recs := s.recs[w := WorkerRec(false, None)],
                              calls := if rec.job.Some? then s.calls + [Resolve(rec.job.value, result)] else s.calls), n);
  }

  /** The error handler hands out no job id. */
  lemma ErrorKeepsJobsBelow(s: PoolState, w: WorkerId, err: string, newId: WorkerId, n: nat)
    requires Registered(s.workers, s.recs) && w in s.recs && JobsBelow(s, n)
    ensures JobsBelow(Errored(s, w, err, newId), n)
  {
    var rec := s.recs[w];
    var s1 := s.(calls := if rec.job.Some? then s.calls + [Reject(rec.job.value, WorkerError(err))] else s.calls);
    ReplaceKeepsJobsBelow(s1, w, newId, n);
    DispatchKeepsJobsBelow(Replaced(s1, w, newId), n);
  }

  /** The exit handler hands out no job id. */
  lemma ExitKeepsJobsBelow(s: PoolState, w: WorkerId, code: int, newId: WorkerId, n: nat)
    requires Registered(s.workers, s.recs) && w in s.recs && JobsBelow(s, n)
    ensures JobsBelow(Exited(s, w, code, newId), n)
  {
    var rec := s.recs[w];
    var s1 := s.(calls := if code != 0 && rec.job.Some? then s.calls + [Reject(rec.job.value, ExitCode(code))] else s.calls);
    ReplaceKeepsJobsBelow(s1, w, newId, n);
    DispatchKeepsJobsBelow(Replaced(s1, w, newId), n);
  }

  /** Recording a resolve or reject of a job already created keeps the invariants. */
  lemma RecordCallKeeps(s: PoolState, c: Call, n: nat)
    requires JobsBelow(s, n) && c.job < n
    ensures JobsBelow(s.(calls := s.calls + [c]), n)
    ensures WellFormed(s.(calls := s.calls + [c])) == WellFormed(s)
    ensures WorkConserving(s.(calls := s.calls + [c])) == WorkConserving(s)
  {
  }

  // ---------------------------------------------------------------------------
  // The module as an object
  // ---------------------------------------------------------------------------

  /**
   * The module-level `workers` and `queue` arrays with the worker objects
   * they reach. `nextWorker` and `nextJob` stand for the identities of the
   * next `new Worker` and the next runJob promise.
   */
  class Pool {
    var workers: seq<WorkerId>
    var recs: map<WorkerId, WorkerRec>
    var queue: seq<Job>
    var posted: seq<Post>
    var calls: seq<Call>
    var nextWorker: WorkerId
    var nextJob: JobId

    function State(): PoolState
      reads this
    {
      PoolState(workers, recs, queue, posted, calls)
    }

    /**
     * The state is well formed, no worker object has id nextWorker or
     * beyond, and no job id nextJob or beyond: `new Worker` and
     * `new Promise` give fresh identities.
     */
    ghost predicate Consistent()
      reads this
    {
      WellFormed(State()) && JobsBelow(State(), nextJob) && forall w :: w in recs ==> w < nextWorker
    }

    ghost predicate Valid()
      reads this
    {
      Consistent() && WorkConserving(State())
    }

    /** The start-up loop: spawn `os.cpus().length - 1` workers. */
    constructor (cpuCount: nat)
      ensures Valid()
      ensures |workers| == (if cpuCount == 0 then 0 else cpuCount - 1)
      ensures forall i :: 0 <= i < |workers| ==> workers[i] in recs && recs[workers[i]] == WorkerRec(false, None)
      ensures queue == [] && posted == [] && calls == [] && nextJob == 0
    {
      workers, recs, queue, posted, calls := [], map[], [], [], [];
      nextWorker, nextJob := 0, 0;
      new;
      var poolSize: int := cpuCount - 1;
      var i := 0;
      while i < poolSize
        invariant Consistent() && queue == [] && posted == [] && calls == [] && nextJob == 0
        invariant 0 <= i && (i <= poolSize || i == 0) && |workers| == i
        invariant forall k :: 0 <= k < |workers| ==> workers[k] in recs && recs[workers[k]] == WorkerRec(false, None)
      {
        SpawnWorker();
        i := i + 1;
      }
    }

    /** spawnWorker: a new worker object, idle, appended to the pool list. */
    method SpawnWorker()
      requires Consistent()
      modifies this
      ensures Consistent()
      ensures State() == Spawned(old(State()), old(nextWorker))
      ensures nextWorker == old(nextWorker) + 1 && nextJob == old(nextJob)
    {
      var w := nextWorker;
      nextWorker := nextWorker + 1;
      workers := workers + [w];
      recs := recs[w := WorkerRec(false, None)];
    }

    /** removeWorker: splice `w` out of the pool list if it is there. */
    method RemoveWorker(w: WorkerId)
      requires Consistent()
      modifies this
      ensures Consistent()
      ensures State() == old(State()).(workers := Removed(old(workers), w))
      ensures nextWorker == old(nextWorker) && nextJob == old(nextJob)
    {
      ghost var rest := Removed(workers, w);
      RemovedDistinct(workers, recs, w);
      var idx := IndexOf(workers, w);
      if idx.Some? {
        workers := workers[..idx.value] + workers[idx.value + 1..];
      }
      assert workers == rest;
    }

    /** dispatch: hand the front job to the first free worker, if there are both. */
    method Dispatch()
      requires Consistent()
      modifies this
      ensures Consistent()
      ensures State() == Dispatched(old(State()))
      ensures nextWorker == old(nextWorker) && nextJob == old(nextJob)
    {
      DispatchKeepsWellFormed(State());
      if |queue| == 0 {
        return;
      }
      var free := FindFree(workers, recs);
      if free.None? {
        return;
      }
      var job := queue[0];
      queue := queue[1..];
      var w := workers[free.value];
      recs := recs[w := WorkerRec(true, Some(job.id))];
      posted := posted + [Post(w, job.data)];
    }

    /** runJob: queue the job behind the waiting ones and dispatch once; the promise is `id`. */
    method RunJob(data: string) returns (id: JobId)
      requires Valid()
      modifies this
      ensures Valid()
      ensures id == old(nextJob) && nextJob == old(nextJob) + 1 && nextWorker == old(nextWorker)
      ensures State() == Dispatched(Queued(old(State()), Job(data, id)))
      ensures Outcome(old(calls), id).None?
      ensures forall i :: 0 <= i < |old(queue)| ==> old(queue)[i].id != id
    {
      FreshJobUnsettled(State(), nextJob);
      RunJobConserves(State(), Job(data, nextJob));
      id := nextJob;
      nextJob := nextJob + 1;
      queue := queue + [Job(data, id)];
      Dispatch();
    }

    /** The `message` handler of worker `w`. */
    method OnMessage(w: WorkerId, result: string)
      requires Valid() && w in recs
      modifies this
      ensures Valid()
      ensures State() == Messaged(old(State()), w, result)
      ensures nextWorker == old(nextWorker) && nextJob == old(nextJob)
    {
      ghost var s0 := State();
      MessageConserves(s0, w, result);
      MessageKeepsJobsBelow(s0, w, result, nextJob);
      var rec := recs[w];
      recs := recs[w := WorkerRec(false, None)];
      if rec.job.Some? {
        calls := calls + [Resolve(rec.job.value, result)];
      }
      ghost var s1 := s0.(recs := s0.recs[w := WorkerRec(false, None)],
                          calls := if rec.job.Some? then s0.calls + [Resolve(rec.job.value, result)] else s0.calls);
      assert State() == s1;
      DispatchKeepsJobsBelow(s1, nextJob);
      Dispatch();
    }

    /** The `error` handler of worker `w`. */
    method OnError(w: WorkerId, err: string)
      requires Valid() && w in recs
      modifies this
      ensures Valid()
      ensures State() == Errored(old(State()), w, err, old(nextWorker))
      ensures nextWorker == old(nextWorker) + 1 && nextJob == old(nextJob)
    {
      ghost var s0, n0 := State(), nextWorker;
      ErrorConserves(s0, w, err, n0);
      var rec := recs[w];
      if rec.job.Some? {
        RecordCallKeeps(s0, Reject(rec.job.value, WorkerError(err)), nextJob);
        calls := calls + [Reject(rec.job.value, WorkerError(err))];
      }
      ghost var s1 := s0.(calls := if rec.job.Some? then s0.calls + [Reject(rec.job.value, WorkerError(err))] else s0.calls);
      assert State() == s1;
      RemoveWorker(w);
      SpawnWorker();
      assert State() == Replaced(s1, w, n0);
      Dispatch();
      assert Errored(s0, w, err, n0) == Dispatched(Replaced(s1, w, n0));
    }

    /** The `exit` handler of worker `w`. */
    method OnExit(w: WorkerId, code: int)
      requires Valid() && w in recs
      modifies this
      ensures Valid()
      ensures State() == Exited(old(State()), w, code, old(nextWorker))
      ensures nextWorker == old(nextWorker) + 1 && nextJob == old(nextJob)
    {
      ghost var s0, n0 := State(), nextWorker;
      ExitConserves(s0, w, code, n0);
      var rec := recs[w];
      if code != 0 && rec.job.Some? {
        RecordCallKeeps(s0, Reject(rec.job.value, ExitCode(code)), nextJob);
        calls := calls + [Reject(rec.job.value, ExitCode(code))];
      }
      ghost var s1 := s0.(calls := if code != 0 && rec.job.Some? then s0.calls + [Reject(rec.job.value, ExitCode(code))] else s0.calls);
      assert State() == s1;
      RemoveWorker(w);
      SpawnWorker();
      assert State() == Replaced(s1, w, n0);
      Dispatch();
      assert Exited(s0, w, code, n0) == Dispatched(Replaced(s1, w, n0));
    }
  }
}
