/** Jobs and their attempts (pkg/worker/job.go), and the Postgres table that queues them
    (pkg/worker/pgq). Times are whole seconds. */
module Jobs {
  import opened Text

  const MIN_RETRY_BACKOFF := 5

  datatype JobStatus = Pending | Done | Failed | Panicked

  datatype Job = Job(id: string, kind: string, runAt: int, payload: string, status: JobStatus, createdAt: int, updatedAt: int,
                     result: string, attemptsDone: nat, lastAttemptAt: int, lastError: string)

  /** What came of invoking the job function, if it was invoked. */
  datatype Outcome =
    | Cancelled(cause: string)
    | Success(result: string)
    | Retryable(retryAfter: int, cause: string)
    | Failure(cause: string)
    | Panic(cause: string)

  function Backoff(retryAfter: int): int {
    if retryAfter <= MIN_RETRY_BACKOFF then MIN_RETRY_BACKOFF else retryAfter
  }

  /** Job.Attempt as a function of the job. */
  function Attempted(j: Job, now: int, o: Outcome): Job {
    var tried := match o
      case Cancelled(c) => j.(status := Pending, runAt := now + MIN_RETRY_BACKOFF, lastError := "cancelled: " + c)
      case Success(r) => j.(status := Done, result := r)
      case Retryable(after, c) => j.(status := Pending, runAt := now + Backoff(after), lastError := "retryable-error: " + c)
      case Failure(c) => j.(status := Failed, lastError := c)
      case Panic(c) => j.(status := Panicked, lastError := "panic: " + c);
    tried.(attemptsDone := j.attemptsDone + 1, lastAttemptAt := now, updatedAt := now)
  }

  /** What a job says of the outcome of its last attempt: done with the result, failed or
      panicked with the error, or pending with the error it is retried for. */
  predicate Reports(j: Job, o: Outcome) {
    match o
    case Success(r) => j.status == Done && j.result == r
    case Failure(c) => j.status == Failed && j.lastError == c
    case Panic(c) => j.status == Panicked && j.lastError == "panic: " + c
    case Cancelled(c) => j.status == Pending && j.lastError == "cancelled: " + c
    case Retryable(_, c) => j.status == Pending && j.lastError == "retryable-error: " + c
  }

  /** One attempt after another: counted, dated, and nothing lost of what it does not report. */
  predicate OneMoreAttempt(was: Job, j: Job, o: Outcome, now: int) {
    && j.id == was.id && j.kind == was.kind && j.payload == was.payload && j.createdAt == was.createdAt
    && j.attemptsDone == was.attemptsDone + 1 && j.lastAttemptAt == now && j.updatedAt == now
    && (!o.Success? ==> j.result == was.result)
    && (o.Success? ==> j.lastError == was.lastError)
  }

  /** Job.Attempt: the outcome first, then the bookkeeping that runs whatever happened. */
  method Attempt(job: Job, now: int, o: Outcome) returns (j: Job)
    ensures j == Attempted(job, now, o)
    ensures Reports(j, o) && OneMoreAttempt(job, j, o, now)
    ensures o.Cancelled? ==> j.runAt == now + 5
    ensures o.Retryable? ==> j.runAt - now >= 5 && j.runAt - now >= o.retryAfter && (j.runAt - now == 5 || j.runAt - now == o.retryAfter)
    ensures !o.Cancelled? && !o.Retryable? ==> j.runAt == job.runAt
  {
    j := job;
    match o {
      case Cancelled(cause) =>
        j := j.(status := Pending, runAt := now + MIN_RETRY_BACKOFF);
        j := j.(lastError := "cancelled: " + cause);
      case Success(result) =>
        j := j.(result := result);
        j := j.(status := Done);
      case Retryable(after, cause) =>
        j := j.(runAt := now + Backoff(after));
        j := j.(lastError := "retryable-error: " + cause);
        j := j.(status := Pending);
      case Failure(cause) =>
        j := j.(lastError := cause);
        j := j.(status := Failed);
      case Panic(cause) =>
        j := j.(lastError := "panic: " + cause);
        j := j.(status := Panicked);
    }
    j := j.(attemptsDone := j.attemptsDone + 1, lastAttemptAt := now, updatedAt := now);
  }

  /** The row saveJobResult leaves: run_at and the specification columns are not written, and
      a row that is no longer pending is not matched at all. */
  function SavedRow(row: Job, j: Job): Job {
    if row.status != Pending then row
    else row.(updatedAt := j.updatedAt, status := j.status, result := j.result, attemptsDone := row.attemptsDone + 1,
              lastError := j.lastError, lastAttemptAt := j.lastAttemptAt)
  }

  predicate Ready(row: Job, kinds: set<string>, now: int) {
    row.kind in kinds && row.status == Pending && row.runAt < now
  }

  /** The row an INSERT leaves: execution columns take their defaults. */
  function Inserted(j: Job): Job {
    j.(result := "", attemptsDone := 0, lastAttemptAt := 0, lastError := "")
  }

  /** The rows of a batch, inserted in turn; None when an id is taken or repeated. */
  function InsertAll(rows: map<string, Job>, jobs: seq<Job>): Option<map<string, Job>> {
    if jobs == [] then Some(rows)
    else
      match InsertAll(rows, jobs[..|jobs| - 1])
      case None => None
      case Some(m) =>
        var j := jobs[|jobs| - 1];
        if j.id in m then None else Some(m[j.id := Inserted(j)])
  }

  /** What Enqueue leaves; None is ErrJobExists or, for no jobs at all, the error of an INSERT
      without values. */
  function Enqueued(rows: map<string, Job>, jobs: seq<Job>): Option<map<string, Job>> {
    if jobs == [] then None else InsertAll(rows, jobs)
  }

  lemma {:induction false} InsertFails(rows: map<string, Job>, jobs: seq<Job>, n: nat)
    requires n <= |jobs| && InsertAll(rows, jobs[..n]).None?
    ensures InsertAll(rows, jobs).None?
    decreases |jobs|
  {
    if n == |jobs| {
      assert jobs[..n] == jobs;
    } else {
      assert jobs[..|jobs| - 1][..n] == jobs[..n];
      InsertFails(rows, jobs[..|jobs| - 1], n);
    }
  }

  /** No id is taken or repeated. */
  predicate Fresh(rows: map<string, Job>, jobs: seq<Job>) {
    && (forall i :: 0 <= i < |jobs| ==> jobs[i].id !in rows)
    && (forall i, j :: 0 <= i < j < |jobs| ==> jobs[i].id != jobs[j].id)
  }

  /** The row of a job just enqueued: all that the job says, and nothing of any attempt. */
  predicate Enqueues(row: Job, j: Job) {
    && row.id == j.id && row.kind == j.kind && row.payload == j.payload && row.status == j.status
    && row.runAt == j.runAt && row.createdAt == j.createdAt && row.updatedAt == j.updatedAt
    && row.attemptsDone == 0 && row.result == "" && row.lastError == "" && row.lastAttemptAt == 0
  }

  /** `after` is `rows` with each job added under its id, and nothing else. */
  ghost predicate AddsExactly(rows: map<string, Job>, jobs: seq<Job>, after: map<string, Job>) {
    && (forall id :: id in rows ==> id in after && after[id] == rows[id])
    && (forall i :: 0 <= i < |jobs| ==> jobs[i].id in after && Enqueues(after[jobs[i].id], jobs[i]))
    && (forall id :: id in after ==> id in rows || exists i :: 0 <= i < |jobs| && jobs[i].id == id)
  }

  lemma AddsOneMore(rows: map<string, Job>, init: seq<Job>, j: Job, m: map<string, Job>)
    requires AddsExactly(rows, init, m) && Fresh(rows, init)
    ensures j.id !in m <==> Fresh(rows, init + [j])
    ensures j.id !in m ==> AddsExactly(rows, init + [j], m[j.id := Inserted(j)])
  {
    hide Inserted;
    var jobs := init + [j];
    assert jobs[|init|] == j;
    assert forall i :: 0 <= i < |init| ==> jobs[i] == init[i];
    if j.id in m {
      if j.id !in rows {
        var i :| 0 <= i < |init| && init[i].id == j.id;
        assert jobs[i].id == jobs[|init|].id;
      }
    } else {
      OneMoreId(rows, init, j, m);
    }
  }

  lemma OneMoreId(rows: map<string, Job>, init: seq<Job>, j: Job, m: map<string, Job>)
    requires AddsExactly(rows, init, m) && Fresh(rows, init) && j.id !in m
    ensures AddsExactly(rows, init + [j], m[j.id := Inserted(j)])
  {
    var jobs := init + [j];
    assert jobs[|init|] == j;
    assert forall i :: 0 <= i < |init| ==> jobs[i] == init[i];
    var after := m[j.id := Inserted(j)];
    forall id | id in after ensures id in rows || exists i :: 0 <= i < |jobs| && jobs[i].id == id {
      if id == j.id {
        assert jobs[|init|].id == id;
      } else if id !in rows {
        var i :| 0 <= i < |init| && init[i].id == id;
        assert jobs[i].id == id;
      }
    }
  }

  lemma {:induction false} InsertAllOrNothing(rows: map<string, Job>, jobs: seq<Job>)
    ensures InsertAll(rows, jobs).Some? <==> Fresh(rows, jobs)
    ensures InsertAll(rows, jobs).Some? ==> AddsExactly(rows, jobs, InsertAll(rows, jobs).value)
  {
    hide Fresh, AddsExactly, Inserted;
    if jobs == [] {
      NothingAdded(rows);
    } else {
      var init, j := jobs[..|jobs| - 1], jobs[|jobs| - 1];
      InsertAllOrNothing(rows, init);
      assert jobs == init + [j];
      if InsertAll(rows, init).Some? {
        AddsOneMore(rows, init, j, InsertAll(rows, init).value);
      } else {
        if Fresh(rows, init + [j]) {
          FreshPrefix(rows, init, j);
        }
      }
    }
  }

  /** Enqueueing is all or nothing: it succeeds exactly when there is a job, no id is taken
      and none is repeated, and then adds exactly the given jobs. */
  lemma EnqueueAllOrNothing(rows: map<string, Job>, jobs: seq<Job>)
    ensures Enqueued(rows, jobs).Some? <==> jobs != [] && Fresh(rows, jobs)
    ensures Enqueued(rows, jobs).Some? ==> AddsExactly(rows, jobs, Enqueued(rows, jobs).value)
  {
    hide Fresh, AddsExactly;
    InsertAllOrNothing(rows, jobs);
  }

  lemma NothingAdded(rows: map<string, Job>)
    ensures Fresh(rows, []) && AddsExactly(rows, [], rows)
  {
  }

  lemma FreshPrefix(rows: map<string, Job>, init: seq<Job>, j: Job)
    requires Fresh(rows, init + [j])
    ensures Fresh(rows, init)
  {
    assert forall i :: 0 <= i < |init| ==> (init + [j])[i] == init[i];
  }

  /** The queue as an object; every method is one statement or transaction. */
  class Queue {
    var rows: map<string, Job>
    /** current_timestamp */
    var clock: int
    const extendInterval: nat

    constructor (extendInterval: nat, now: int)
      ensures rows == map[] && clock == now && this.extendInterval == extendInterval
    {
      rows, clock, this.extendInterval := map[], now, extendInterval;
    }

    method Enqueue(jobs: seq<Job>) returns (ok: bool)
      modifies this`rows
      ensures ok <==> Enqueued(old(rows), jobs).Some?
      ensures ok ==> rows == Enqueued(old(rows), jobs).value
      ensures !ok ==> rows == old(rows)
    {
      if jobs == [] {
        return false;
      }
      var all := rows;
      for i := 0 to |jobs|
        invariant InsertAll(rows, jobs[..i]) == Some(all)
      {
        assert jobs[..i + 1][..i] == jobs[..i];
        if jobs[i].id in all {
          InsertFails(rows, jobs, i + 1);
          return false;
        }
        all := all[jobs[i].id := Inserted(jobs[i])];
      }
      assert jobs[..|jobs|] == jobs;
      rows := all;
      ok := true;
    }

    method ExtendWaitTime(id: string)
      modifies this`rows
      ensures rows == if id in old(rows) then old(rows)[id := old(rows)[id].(runAt := clock + extendInterval)] else old(rows)
    {
      if id in rows {
        rows := rows[id := rows[id].(runAt := clock + extendInterval)];
      }
    }

    /** Selects a ready job and extends its lease in one transaction. */
    method PickupJob(kinds: set<string>) returns (job: Option<Job>)
      modifies this`rows
      ensures job.None? <==> forall id :: id in old(rows) ==> !Ready(old(rows)[id], kinds, clock)
      ensures job.None? ==> rows == old(rows)
      ensures job.Some? ==> exists id :: id in old(rows) && job.value == old(rows)[id] && Ready(old(rows)[id], kinds, clock)
                              && rows == old(rows)[id := old(rows)[id].(runAt := clock + extendInterval)]
      ensures job.Some? ==> job.value.kind in kinds && job.value.status == Pending && job.value.runAt < clock
      ensures job.None? ==> forall id :: id in old(rows) && old(rows)[id].kind in kinds && old(rows)[id].status == Pending ==>
        clock <= old(rows)[id].runAt
    {
      var ready := set id | id in rows && Ready(rows[id], kinds, clock);
      if ready == {} {
        assert forall id :: id in rows && Ready(rows[id], kinds, clock) ==> id in ready;
        assert forall id :: id in rows && rows[id].kind in kinds && rows[id].status == Pending ==> !Ready(rows[id], kinds, clock);
        return None;
      }
      var id :| id in ready;
      job := Some(rows[id]);
      ExtendWaitTime(id);
    }

    method SaveJobResult(j: Job)
      modifies this`rows
      ensures rows == if j.id in old(rows) then old(rows)[j.id := SavedRow(old(rows)[j.id], j)] else old(rows)
      ensures j.id in old(rows) && old(rows)[j.id].status == Pending ==>
        var was, row := old(rows)[j.id], rows[j.id];
        && row.status == j.status && row.result == j.result && row.lastError == j.lastError
        && row.lastAttemptAt == j.lastAttemptAt && row.updatedAt == j.updatedAt && row.attemptsDone == was.attemptsDone + 1
        && row.runAt == was.runAt && row.kind == was.kind && row.payload == was.payload && row.createdAt == was.createdAt
      ensures j.id in old(rows) && old(rows)[j.id].status != Pending ==> rows == old(rows)
    {
      if j.id in rows {
        rows := rows[j.id := SavedRow(rows[j.id], j)];
      }
    }

    /** One Dequeue with nobody else at work: the picked row ends as saved over its leased
        copy, and no other row is touched. */
    method Dequeue(kinds: set<string>, now: int, o: Outcome) returns (id: Option<string>)
      requires forall k :: k in rows ==> rows[k].id == k
      modifies this`rows
      ensures id.None? <==> forall k :: k in old(rows) ==> !Ready(old(rows)[k], kinds, clock)
      ensures id.None? ==> rows == old(rows)
      ensures id.Some? ==>
        && id.value in old(rows) && Ready(old(rows)[id.value], kinds, clock)
        && rows == old(rows)[id.value := SavedRow(old(rows)[id.value].(runAt := clock + extendInterval),
                                                  Attempted(old(rows)[id.value], now, o))]
        && old(rows)[id.value].kind in kinds && old(rows)[id.value].status == Pending && old(rows)[id.value].runAt < clock
        && Reports(rows[id.value], o) && OneMoreAttempt(old(rows)[id.value], rows[id.value], o, now)
        && rows[id.value].runAt == clock + extendInterval
    {
      var job := PickupJob(kinds);
      if job.None? {
        return None;
      }
      var done := Attempt(job.value, now, o);
      SaveJobResult(done);
      id := Some(done.id);
    }
  }
}
