/** The leased queue as a protocol: workers pick up, beat, stop beating, save or vanish while
    time passes. Sources: pkg/worker/pgq/pgq.go, pkg/worker/pgq/pgq_utils.go. */
module Leases {
  import opened Text
  import opened Jobs

  /** A worker between pickup and save: its copy of the job, its last lease extension, and
      whether its heartbeat still runs. */
  datatype Holder = Holder(job: Job, lastBeat: int, beating: bool)

  datatype World = World(rows: map<string, Job>, holders: map<nat, Holder>, now: int)

  const START := World(map[], map[], 0)

  datatype Step =
    | Tick(now: int)
    | Enqueue(jobs: seq<Job>)
    | Pickup(w: nat, id: string)
    | Beat(w: nat)
    | StopBeating(w: nat)
    | Save(w: nat, outcome: Outcome)
    | Vanish(w: nat)

  /** extend is the length of a lease. None where the step is not possible. */
  function Next(w: World, s: Step, extend: nat): Option<World> {
    match s
    case Tick(now) =>
      if w.now <= now then Some(w.(now := now)) else None
    case Enqueue(jobs) =>
      var rows := Enqueued(w.rows, jobs);
      if rows.None? then None else Some(w.(rows := rows.value))
    case Pickup(p, id) =>
      if p in w.holders || id !in w.rows || !Ready(w.rows[id], {w.rows[id].kind}, w.now) then None
      else Some(w.(rows := w.rows[id := w.rows[id].(runAt := w.now + extend)],
                   holders := w.holders[p := Holder(w.rows[id], w.now, true)]))
    case Beat(p) =>
      if p !in w.holders || !w.holders[p].beating || w.holders[p].job.id !in w.rows then None
      else
        var id := w.holders[p].job.id;
        Some(w.(rows := w.rows[id := w.rows[id].(runAt := w.now + extend)],
                holders := w.holders[p := w.holders[p].(lastBeat := w.now)]))
    case StopBeating(p) =>
      if p !in w.holders then None else Some(w.(holders := w.holders[p := w.holders[p].(beating := false)]))
    case Save(p, outcome) =>
      if p !in w.holders || w.holders[p].job.id !in w.rows then None
      else
        var id := w.holders[p].job.id;
        Some(w.(rows := w.rows[id := SavedRow(w.rows[id], Attempted(w.holders[p].job, w.now, outcome))],
                holders := w.holders - {p}))
    case Vanish(p) =>
      Some(w.(holders := w.holders - {p}))
  }

  function Run(w: World, steps: seq<Step>, extend: nat): Option<World> {
    if steps == [] then Some(w)
    else
      match Run(w, steps[..|steps| - 1], extend)
      case None => None
      case Some(w') => Next(w', steps[|steps| - 1], extend)
  }

  // ------------------------------------------------ what holds at any speed

  predicate KeysMatch(w: World) {
    && (forall id :: id in w.rows ==> w.rows[id].id == id)
    && (forall p :: p in w.holders ==> w.holders[p].job.id in w.rows)
  }

  lemma StepKeysMatch(w: World, s: Step, extend: nat)
    requires KeysMatch(w) && Next(w, s, extend).Some?
    ensures KeysMatch(Next(w, s, extend).value)
  {
    if s.Enqueue? {
      EnqueueAllOrNothing(w.rows, s.jobs);
    }
  }

  predicate Terminal(j: Job) { j.status != Pending }

  /** A row in a terminal status, compared without its lease. */
  predicate Frozen(w: World, id: string, row: Job) {
    id in w.rows && w.rows[id].(runAt := 0) == row.(runAt := 0)
  }

  lemma StepFrozen(w: World, s: Step, extend: nat, id: string, row: Job)
    requires Frozen(w, id, row) && Terminal(row) && Next(w, s, extend).Some?
    ensures Frozen(Next(w, s, extend).value, id, row)
  {
    if s.Enqueue? {
      EnqueueAllOrNothing(w.rows, s.jobs);
    }
  }

  /** Once a job is DONE, FAILED or PANIC, no number of overlapping, late or repeated workers
      changes anything but its run_at. No timing is assumed. */
  lemma {:induction false} TerminalForever(w: World, steps: seq<Step>, extend: nat, id: string)
    requires Run(w, steps, extend).Some? && id in w.rows && Terminal(w.rows[id])
    ensures Frozen(Run(w, steps, extend).value, id, w.rows[id])
  {
    if steps != [] {
      TerminalForever(w, steps[..|steps| - 1], extend, id);
      StepFrozen(Run(w, steps[..|steps| - 1], extend).value, steps[|steps| - 1], extend, id, w.rows[id]);
    }
  }

  predicate Matches(w: World, s: Step, id: string) {
    s.Save? && s.w in w.holders && w.holders[s.w].job.id == id && id in w.rows && w.rows[id].status == Pending
  }

  /** What a save that finds its row pending leaves in it, at any speed: the outcome, one more
      attempt, and the end of the lease. */
  lemma SaveReports(w: World, p: nat, o: Outcome, extend: nat)
    requires KeysMatch(w) && p in w.holders && Matches(w, Save(p, o), w.holders[p].job.id)
    ensures Next(w, Save(p, o), extend).Some?
    ensures var id := w.holders[p].job.id;
      var was, row := w.rows[id], Next(w, Save(p, o), extend).value.rows[id];
      && Reports(row, o)
      && row.attemptsDone == was.attemptsDone + 1 && row.lastAttemptAt == w.now && row.updatedAt == w.now
      && row.runAt == was.runAt && row.kind == was.kind && row.payload == was.payload && row.createdAt == was.createdAt
  {
  }

  /** The outcome decides what becomes of the job. After a result, an error or a panic it keeps
      saying so and nobody picks it up again, in any run; after a cancellation or a retryable
      error it can be picked up exactly when its lease is over. */
  lemma OutcomeDecides(w: World, p: nat, o: Outcome, extend: nat, steps: seq<Step>, q: nat, now: int)
    requires KeysMatch(w) && p in w.holders && Matches(w, Save(p, o), w.holders[p].job.id)
    ensures var id := w.holders[p].job.id;
      var saved := Next(w, Save(p, o), extend).value;
      && (o.Success? || o.Failure? || o.Panic? ==>
            Run(saved, steps, extend).Some? ==>
              var later := Run(saved, steps, extend).value;
              id in later.rows && Reports(later.rows[id], o) && Next(later, Pickup(q, id), extend).None?)
      && (o.Cancelled? || o.Retryable? ==>
            (Next(saved.(now := now), Pickup(p, id), extend).Some? <==> now > w.rows[id].runAt))
  {
    hide Run;
    SaveReports(w, p, o, extend);
    var id := w.holders[p].job.id;
    var saved := Next(w, Save(p, o), extend).value;
    if (o.Success? || o.Failure? || o.Panic?) && Run(saved, steps, extend).Some? {
      TerminalForever(saved, steps, extend, id);
    }
  }

  /** Saves of a run that found the row still pending. */
  function MatchedSaves(steps: seq<Step>, extend: nat, id: string): nat
    requires Run(START, steps, extend).Some?
  {
    if steps == [] then 0
    else
      var before := Run(START, steps[..|steps| - 1], extend).value;
      MatchedSaves(steps[..|steps| - 1], extend, id) + (if Matches(before, steps[|steps| - 1], id) then 1 else 0)
  }

  /** The stored counter is the number of saves that took effect, at any speed. */
  lemma {:induction false} AttemptsCountSaves(steps: seq<Step>, extend: nat, id: string)
    requires Run(START, steps, extend).Some?
    ensures KeysMatch(Run(START, steps, extend).value)
    ensures var w := Run(START, steps, extend).value;
      (if id in w.rows then w.rows[id].attemptsDone else 0) == MatchedSaves(steps, extend, id)
  {
    if steps != [] {
      var init, s := steps[..|steps| - 1], steps[|steps| - 1];
      AttemptsCountSaves(init, extend, id);
      var w := Run(START, init, extend).value;
      StepKeysMatch(w, s, extend);
      if s.Enqueue? {
        EnqueueAllOrNothing(w.rows, s.jobs);
      }
    }
  }

  // ----------------------------------------------------- what needs the clock

  /** A heartbeat is due every `refresh`, and lands within `delay`. */
  datatype Timing = Timing(refresh: nat, delay: nat, extend: nat)

  /** Time may pass to `now` only if no live worker has missed a beat by more than the delay,
      and every worker whose heartbeat stopped is gone by the end of its lease. */
  predicate Timely(w: World, now: int, t: Timing) {
    forall p :: p in w.holders ==>
      now <= w.holders[p].lastBeat + (if w.holders[p].beating then t.refresh + t.delay else t.extend)
  }

  function TimedNext(w: World, s: Step, t: Timing): Option<World> {
    if s.Tick? && !Timely(w, s.now, t) then None else Next(w, s, t.extend)
  }

  function TimedRun(steps: seq<Step>, t: Timing): Option<World> {
    if steps == [] then Some(START)
    else
      match TimedRun(steps[..|steps| - 1], t)
      case None => None
      case Some(w) => TimedNext(w, steps[|steps| - 1], t)
  }

  /** At most one live worker holds a job. */
  predicate Exclusive(w: World) {
    forall p, q :: p in w.holders && q in w.holders && p != q ==> w.holders[p].job.id != w.holders[q].job.id
  }

  /** The worker is inside its lease, on a pending row it has not lost count of. */
  predicate InLease(w: World, h: Holder, t: Timing) {
    && h.lastBeat <= w.now <= h.lastBeat + t.extend
    && h.job.id in w.rows
    && w.rows[h.job.id].runAt >= h.lastBeat + t.extend
    && w.rows[h.job.id].status == Pending
    && w.rows[h.job.id].attemptsDone == h.job.attemptsDone
  }

  /** Every live worker is so, and alone. */
  predicate LeaseInv(w: World, t: Timing) {
    && KeysMatch(w)
    && Exclusive(w)
    && forall p :: p in w.holders ==> InLease(w, w.holders[p], t)
  }

  lemma StepExclusive(w: World, s: Step, t: Timing)
    requires LeaseInv(w, t) && Next(w, s, t.extend).Some?
    ensures Exclusive(Next(w, s, t.extend).value)
  {
    hide Enqueued, SavedRow, Attempted, InLease;
    KeysOf(w);
    if s.Pickup? {
      HeldIsNotReady(w, t, s.id);
    }
  }

  lemma StepInLease(w: World, s: Step, t: Timing, p: nat)
    requires LeaseInv(w, t) && t.refresh + t.delay <= t.extend && TimedNext(w, s, t).Some?
    requires p in TimedNext(w, s, t).value.holders
    ensures InLease(TimedNext(w, s, t).value, TimedNext(w, s, t).value.holders[p], t)
  {
    hide Enqueued, SavedRow, Attempted;
    KeysOf(w);
    match s {
      case Enqueue(jobs) => EnqueueKeepsRows(w, jobs, t.extend);
      case Pickup(_, id) => HeldIsNotReady(w, t, id);
      case _ =>
    }
  }

  lemma StepLeaseInv(w: World, s: Step, t: Timing)
    requires LeaseInv(w, t) && t.refresh + t.delay <= t.extend && TimedNext(w, s, t).Some?
    ensures LeaseInv(TimedNext(w, s, t).value, t)
  {
    hide KeysMatch, Exclusive, InLease, Next;
    StepKeysMatch(w, s, t.extend);
    StepExclusive(w, s, t);
    forall p | p in TimedNext(w, s, t).value.holders
      ensures InLease(TimedNext(w, s, t).value, TimedNext(w, s, t).value.holders[p], t)
    {
      StepInLease(w, s, t, p);
    }
  }

  lemma EnqueueKeepsRows(w: World, jobs: seq<Job>, extend: nat)
    requires Next(w, Enqueue(jobs), extend).Some?
    ensures var w' := Next(w, Enqueue(jobs), extend).value;
      w'.holders == w.holders && w'.now == w.now && forall id :: id in w.rows ==> id in w'.rows && w'.rows[id] == w.rows[id]
  {
    EnqueueAllOrNothing(w.rows, jobs);
  }

  /** A held row is inside its lease, so nobody can pick it up. */
  lemma HeldIsNotReady(w: World, t: Timing, id: string)
    requires LeaseInv(w, t) && id in w.rows && Ready(w.rows[id], {w.rows[id].kind}, w.now)
    ensures forall p :: p in w.holders ==> w.holders[p].job.id != id
  {
    hide KeysMatch, Exclusive;
  }

  lemma KeysOf(w: World)
    requires KeysMatch(w)
    ensures forall p :: p in w.holders ==> w.holders[p].job.id in w.rows
    ensures forall id :: id in w.rows ==> w.rows[id].id == id
  {
  }

  lemma {:induction false} RunLeaseInv(steps: seq<Step>, t: Timing)
    requires t.refresh + t.delay <= t.extend && TimedRun(steps, t).Some?
    ensures LeaseInv(TimedRun(steps, t).value, t)
  {
    if steps != [] {
      RunLeaseInv(steps[..|steps| - 1], t);
      StepLeaseInv(TimedRun(steps[..|steps| - 1], t).value, steps[|steps| - 1], t);
    }
  }

  ghost predicate AlwaysExclusive(t: Timing) {
    forall steps :: TimedRun(steps, t).Some? ==> Exclusive(TimedRun(steps, t).value)
  }

  const SAMPLE := Job("j", "k", 0, "", Pending, 0, 0, "", 0, 0, "")

  ghost predicate Reaches(t: Timing, w: World) { exists steps :: TimedRun(steps, t) == Some(w) }

  lemma Goes(t: Timing, w: World, s: Step, w': World)
    requires Reaches(t, w) && TimedNext(w, s, t) == Some(w')
    ensures Reaches(t, w')
  {
    hide TimedNext;
    var steps :| TimedRun(steps, t) == Some(w);
    var all := steps + [s];
    assert all[..|all| - 1] == steps;
    assert TimedRun(all, t) == Some(w');
  }

  /** One sample job, held by worker 1 since time 1. */
  function HeldBy1(extend: nat, now: int): World {
    World(map["j" := SAMPLE.(runAt := 1 + extend)], map[1 := Holder(SAMPLE, 1, true)], now)
  }

  lemma ReachesHeld(t: Timing)
    ensures Reaches(t, HeldBy1(t.extend, 1))
  {
    assert TimedRun([], t) == Some(START);
    assert [SAMPLE][..0] == [];
    assert InsertAll(map[], []) == Some(map[]);
    assert Enqueued(map[], [SAMPLE]) == Some(map["j" := SAMPLE]);
    var w1 := World(map["j" := SAMPLE], map[], 0);
    Goes(t, START, Enqueue([SAMPLE]), w1);
    var w2 := w1.(now := 1);
    Goes(t, w1, Tick(1), w2);
    var w3 := TimedNext(w2, Pickup(1, "j"), t).value;
    assert w3.rows == HeldBy1(t.extend, 1).rows && w3.holders == HeldBy1(t.extend, 1).holders;
    Goes(t, w2, Pickup(1, "j"), HeldBy1(t.extend, 1));
  }

  /** When a beat may land after the lease, two workers can end up with one job. */
  lemma LateBeatsOverlap(t: Timing)
    requires t.refresh + t.delay > t.extend
    ensures !AlwaysExclusive(t)
  {
    var late := 1 + t.refresh + t.delay;
    ReachesHeld(t);
    var w4 := HeldBy1(t.extend, late);
    Goes(t, HeldBy1(t.extend, 1), Tick(late), w4);
    var w5 := TimedNext(w4, Pickup(2, "j"), t).value;
    Goes(t, w4, Pickup(2, "j"), w5);
    assert w5.holders[1].job.id == w5.holders[2].job.id;
    assert !Exclusive(w5);
  }

  /** Mutual exclusion of the queue, exactly: every reachable state has at most one live
      worker per job if and only if a beat, with its delay, always lands within the lease. */
  lemma ExclusiveIffBeatsLandInLease(t: Timing)
    ensures AlwaysExclusive(t) <==> t.refresh + t.delay <= t.extend
  {
    if t.refresh + t.delay <= t.extend {
      forall steps | TimedRun(steps, t).Some? ensures Exclusive(TimedRun(steps, t).value) {
        RunLeaseInv(steps, t);
      }
    } else {
      LateBeatsOverlap(t);
    }
  }

  /** With the constants of the queue, beats may be up to ten seconds late. */
  lemma QueueToleratesTenSeconds(delay: nat)
    ensures AlwaysExclusive(Timing(20, delay, 30)) <==> delay <= 10
  {
    ExclusiveIffBeatsLandInLease(Timing(20, delay, 30));
  }

  /** In such runs a save always takes effect, and the counter the worker holds in memory
      after its attempt is the one the row then stores. */
  lemma CountersAgree(steps: seq<Step>, t: Timing, p: nat, outcome: Outcome)
    requires t.refresh + t.delay <= t.extend && TimedRun(steps, t).Some?
    requires p in TimedRun(steps, t).value.holders
    ensures var w := TimedRun(steps, t).value;
      var attempted := Attempted(w.holders[p].job, w.now, outcome);
      && Matches(w, Save(p, outcome), attempted.id)
      && TimedNext(w, Save(p, outcome), t).Some?
      && TimedNext(w, Save(p, outcome), t).value.rows[attempted.id].attemptsDone == attempted.attemptsDone
      && TimedNext(w, Save(p, outcome), t).value.rows[attempted.id].status == attempted.status
      && Reports(TimedNext(w, Save(p, outcome), t).value.rows[attempted.id], outcome)
  {
    RunLeaseInv(steps, t);
  }

  /** Saving a retry leaves run_at at the end of the lease: the job can next be picked up
      right after that, whatever time the retry asked for. */
  lemma RetryWaitsForLease(w: World, p: nat, outcome: Outcome, extend: nat, now: int)
    requires KeysMatch(w) && Next(w, Save(p, outcome), extend).Some? && w.rows[w.holders[p].job.id].status == Pending
    requires outcome.Retryable? || outcome.Cancelled?
    ensures var id := w.holders[p].job.id;
      var after := Next(w, Save(p, outcome), extend).value;
      && after.rows[id].runAt == w.rows[id].runAt
      && (Next(after.(now := now), Pickup(p, id), extend).Some? <==> now > w.rows[id].runAt)
  {
  }

  /** So the wait a retry asks for is kept exactly when it ends no later than the first
      instant after the lease. */
  lemma RetryAfterKeptIff(w: World, p: nat, outcome: Outcome, extend: nat)
    requires KeysMatch(w) && Next(w, Save(p, outcome), extend).Some? && w.rows[w.holders[p].job.id].status == Pending
    requires outcome.Retryable? || outcome.Cancelled?
    ensures var id := w.holders[p].job.id;
      var after := Next(w, Save(p, outcome), extend).value;
      var asked := Attempted(w.holders[p].job, w.now, outcome).runAt;
      (forall now :: Next(after.(now := now), Pickup(p, id), extend).Some? ==> now >= asked) <==> asked <= w.rows[id].runAt + 1
  {
    var id := w.holders[p].job.id;
    var after := Next(w, Save(p, outcome), extend).value;
    forall now
      ensures Next(after.(now := now), Pickup(p, id), extend).Some? <==> now > w.rows[id].runAt
    {
      RetryWaitsForLease(w, p, outcome, extend, now);
    }
    assert Next(after.(now := w.rows[id].runAt + 1), Pickup(p, id), extend).Some?;
  }

  // ------------------------------------------------------ retries over timed runs

  /** What holds of every holder in every timed run, overlapping or not. */
  predicate BeatInv(w: World, t: Timing) {
    && KeysMatch(w)
    && forall p :: p in w.holders ==>
         var h := w.holders[p];
         && h.lastBeat <= w.now
         && w.rows[h.job.id].runAt >= h.lastBeat + t.extend
         && (h.beating ==> w.now <= h.lastBeat + t.refresh + t.delay)
  }

  lemma StepBeatInv(w: World, s: Step, t: Timing)
    requires BeatInv(w, t) && TimedNext(w, s, t).Some?
    ensures BeatInv(TimedNext(w, s, t).value, t)
  {
    hide KeysMatch, Enqueued, Attempted, Inserted;
    KeysOf(w);
    StepKeysMatch(w, s, t.extend);
    if s.Enqueue? {
      EnqueueAllOrNothing(w.rows, s.jobs);
    }
  }

  lemma {:induction false} RunBeatInv(steps: seq<Step>, t: Timing)
    requires TimedRun(steps, t).Some?
    ensures BeatInv(TimedRun(steps, t).value, t)
  {
    hide TimedNext;
    if steps != [] {
      RunBeatInv(steps[..|steps| - 1], t);
      StepBeatInv(TimedRun(steps[..|steps| - 1], t).value, steps[|steps| - 1], t);
    }
  }

  /** After this retry is saved, nobody can pick the job up before the time it asked for. */
  ghost predicate WaitKept(w: World, p: nat, outcome: Outcome, extend: nat)
    requires Next(w, Save(p, outcome), extend).Some?
  {
    forall now :: Next(Next(w, Save(p, outcome), extend).value.(now := now), Pickup(p, w.holders[p].job.id), extend).Some? ==>
      now >= Attempted(w.holders[p].job, w.now, outcome).runAt
  }

  /** A live worker with its heartbeat running saves a retry over its pending row. */
  predicate RetryMatches(w: World, p: nat, after: int, cause: string, extend: nat) {
    && p in w.holders && w.holders[p].beating
    && Matches(w, Save(p, Retryable(after, cause)), w.holders[p].job.id)
    && Next(w, Save(p, Retryable(after, cause)), extend).Some?
  }

  /** In every timed run the wait is kept by every such worker. */
  ghost predicate RetriesKept(after: int, t: Timing) {
    forall w, p, cause :: Reaches(t, w) && RetryMatches(w, p, after, cause, t.extend) ==>
      WaitKept(w, p, Retryable(after, cause), t.extend)
  }

  /** Before its first beat, as late as that may come, a worker asks for a longer wait than
      what is left of the lease. */
  lemma LongWaitIsCut(after: int, cause: string, t: Timing)
    requires Backoff(after) + t.refresh + t.delay > t.extend + 1
    ensures Reaches(t, HeldBy1(t.extend, 1 + t.refresh + t.delay))
    ensures RetryMatches(HeldBy1(t.extend, 1 + t.refresh + t.delay), 1, after, cause, t.extend)
    ensures !WaitKept(HeldBy1(t.extend, 1 + t.refresh + t.delay), 1, Retryable(after, cause), t.extend)
  {
    var w := HeldBy1(t.extend, 1 + t.refresh + t.delay);
    ReachesHeld(t);
    Goes(t, HeldBy1(t.extend, 1), Tick(1 + t.refresh + t.delay), w);
    RetryAfterKeptIff(w, 1, Retryable(after, cause), t.extend);
  }

  /** Which waits are kept, over all timed runs: exactly those short enough for a lease that
      may be as old as a late beat. */
  lemma RetriesKeptIff(after: int, t: Timing)
    ensures RetriesKept(after, t) <==> Backoff(after) + t.refresh + t.delay <= t.extend + 1
  {
    hide WaitKept, Reaches;
    if Backoff(after) + t.refresh + t.delay <= t.extend + 1 {
      forall w, p, cause | Reaches(t, w) && RetryMatches(w, p, after, cause, t.extend)
        ensures WaitKept(w, p, Retryable(after, cause), t.extend)
      {
        ShortWaitIsKept(w, p, after, cause, t);
      }
    } else {
      LongWaitIsCut(after, "", t);
    }
  }

  lemma ShortWaitIsKept(w: World, p: nat, after: int, cause: string, t: Timing)
    requires Backoff(after) + t.refresh + t.delay <= t.extend + 1
    requires Reaches(t, w) && RetryMatches(w, p, after, cause, t.extend)
    ensures WaitKept(w, p, Retryable(after, cause), t.extend)
  {
    var steps :| TimedRun(steps, t) == Some(w);
    RunBeatInv(steps, t);
    RetryAfterKeptIff(w, p, Retryable(after, cause), t.extend);
  }

  /** With the constants of the queue and beats on time, a job that asks to wait eleven seconds
      or less is never run sooner; one that asks for more may be. */
  lemma QueueKeepsElevenSeconds(after: int)
    ensures RetriesKept(after, Timing(20, 0, 30)) <==> after <= 11
  {
    RetriesKeptIff(after, Timing(20, 0, 30));
  }

  /** One that asks for a minute, saved as it is picked up, can run again after thirty-one
      seconds. */
  lemma MinuteIsCut(cause: string)
    ensures Reaches(Timing(20, 0, 30), HeldBy1(30, 1))
    ensures RetryMatches(HeldBy1(30, 1), 1, 60, cause, 30)
    ensures Next(Next(HeldBy1(30, 1), Save(1, Retryable(60, cause)), 30).value.(now := 32), Pickup(1, "j"), 30).Some?
    ensures Attempted(SAMPLE, 1, Retryable(60, cause)).runAt == 61
  {
    ReachesHeld(Timing(20, 0, 30));
    RetryWaitsForLease(HeldBy1(30, 1), 1, Retryable(60, cause), 30, 32);
  }
}
