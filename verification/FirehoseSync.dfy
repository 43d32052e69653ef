/** Running the steps of a plan: Sync in modules/firehose/driver_sync.go under the retries of
    core/sync.go, one sync at a time (serial), with failures and crashes before and after
    every effect. */
module FirehoseSync {
  import opened Text
  import opened Resources
  import opened Keda
  import opened FirehoseConfig
  import opened FirehosePlan
  import opened Syncing
  import opened FirehoseRequests
  import ConsumerGroup
  import FirehoseLife

  datatype Effect = Deployed(create: bool, conf: Config) | GroupReset(group: string, offset: string)

  /** One call to the cluster: the position in the plan it serves (one past the end for the
      deployment at stop time), whether it took place, and whether it reported success. */
  datatype Call = Call(index: nat, effect: Effect, applied: bool, ok: bool)

  /** How a run of the driver goes: no trouble, an error before any call, an error of the call
      itself whether or not it took place, or an error while refreshing the output. */
  datatype Trouble = Fine | Refused(error: Error) | Fails(error: Error, applied: bool) | NoOutput(error: Error)

  datatype Answer = Answer(call: Option<Call>, result: Result<PlanState>)

  /** The configuration a release step deploys; it is not stored. */
  function StepConf(step: Step, conf: Config): Config {
    if step.ReleaseStop? || conf.stopped then Paused(conf.(replicas := 0)) else conf
  }

  function EffectOf(step: Step, conf: Config, offset: string): Effect {
    if step.KafkaReset? then GroupReset(Get(conf.env, CONSUMER_ID), offset)
    else Deployed(step.ReleaseCreate?, StepConf(step, conf))
  }

  predicate StopDue(c: Config, now: int) { c.stopTime.Some? && c.stopTime.value < now }

  /** Sync on a configuration as read; index is the position of the next step. */
  function DriverSync(conf: Config, st: PlanState, index: nat, now: int, trouble: Trouble, output: Blob): Answer {
    var data := st.moduleData;
    if trouble.Refused? then Answer(None, Err(trouble.error))
    else if data.pending != [] then
      var effect := EffectOf(data.pending[0], conf, data.resetTo);
      if trouble.Fails? then Answer(Some(Call(index, effect, trouble.applied, false)), Err(trouble.error))
      else Answer(Some(Call(index, effect, true, true)),
                  Ok(State(Pending, st.output, data.(pending := data.pending[1..]), Some(now), NO_SYNC_RESULT)))
    else
      var due := StopDue(conf, now);
      var effect := Deployed(false, conf.(replicas := 0, stopped := true));
      if due && trouble.Fails? then Answer(Some(Call(index, effect, trouble.applied, false)), Err(trouble.error))
      else
        Answer(if due then Some(Call(index, effect, true, true)) else None,
               if trouble.NoOutput? then Err(trouble.error)
               else Ok(State(Completed, output, NOTHING_PENDING, if due then None else conf.stopTime, NO_SYNC_RESULT)))
  }

  /** The driver at work. */
  class Driver {
    /** Every call made to the cluster so far. */
    var calls: seq<Call>

    constructor ()
      ensures calls == []
    {
      calls := [];
    }

    method Reach(index: nat, effect: Effect, trouble: Trouble) returns (e: Result<()>)
      requires !trouble.Refused?
      modifies this
      ensures calls == old(calls) + [Call(index, effect, trouble.Fails? ==> trouble.applied, !trouble.Fails?)]
      ensures e == if trouble.Fails? then Err(trouble.error) else Ok(())
    {
      calls := calls + [Call(index, effect, trouble.Fails? ==> trouble.applied, !trouble.Fails?)];
      e := if trouble.Fails? then Err(trouble.error) else Ok(());
    }

    method Sync(config: Config, st: PlanState, index: nat, now: int, trouble: Trouble, output: Blob) returns (r: Result<PlanState>)
      modifies this
      ensures var a := DriverSync(config, st, index, now, trouble, output);
        r == a.result && calls == old(calls) + (if a.call.Some? then [a.call.value] else [])
    {
      var modData := st.moduleData;
      var conf := config;
      var finalState := State(Pending, st.output, NOTHING_PENDING, None, NO_SYNC_RESULT);
      if trouble.Refused? {
        return Err(trouble.error);
      }
      if |modData.pending| > 0 {
        var pendingStep := modData.pending[0];
        modData := modData.(pending := modData.pending[1..]);
        var effect;
        if pendingStep.KafkaReset? {
          effect := GroupReset(Get(conf.env, CONSUMER_ID), modData.resetTo);
        } else {
          if pendingStep.ReleaseStop? || conf.stopped {
            conf := conf.(replicas := 0);
            if conf.autoscaler.Some? {
              conf := OnSpec(conf, PauseAt(conf.autoscaler.value.spec, 0));
            }
          }
          effect := Deployed(pendingStep.ReleaseCreate?, conf);
        }
        var e := Reach(index, effect, trouble);
        if e.Err? {
          return Err(e.error);
        }
        finalState := finalState.(nextSyncAt := Some(now), moduleData := modData);
        return Ok(finalState);
      }
      finalState := finalState.(nextSyncAt := conf.stopTime);
      if conf.stopTime.Some? && conf.stopTime.value < now {
        conf := conf.(replicas := 0, stopped := true);
        var e := Reach(index, Deployed(false, conf), trouble);
        if e.Err? {
          return Err(e.error);
        }
        finalState := finalState.(nextSyncAt := None);
      }
      if trouble.NoOutput? {
        return Err(trouble.error);
      }
      r := Ok(finalState.(output := output, status := Completed, moduleData := NOTHING_PENDING));
    }
  }

  // ------------------------------------------------------------------ runs

  /** What becomes of a sync: it dies before the driver is called (or its dependencies do not
      resolve), its result is saved, or it dies before saving. */
  datatype Fate = NotReached | Saved | Lost

  datatype Event = Event(now: int, dc: DriverConf, trouble: Trouble, output: Blob, fate: Fate)

  /** Retries allowed (0 is without end), the wait between them, and the length of a lease. */
  datatype Limits = Limits(maxRetries: nat, backoff: nat, lease: nat)

  /** A firehose being synced: what is stored, the plan its pending steps are the rest of, the
      calls made for it, and how many saved syncs found it pending. */
  datatype World = World(stored: Config, plan: seq<Step>, state: PlanState, calls: seq<Call>, counted: nat, now: int)

  function Begin(p: Planned): World {
    World(p.config, p.state.moduleData.pending, p.state, [], 0, if p.state.nextSyncAt.Some? then p.state.nextSyncAt.value else 0)
  }

  function Done(w: World): int { |w.plan| - |w.state.moduleData.pending| }

  function AnswerTo(w: World, e: Event, o: Owner): Answer
    requires Hashes(o)
  {
    var conf := ConfigRead(w.stored, e.dc, o);
    if !conf.Read? || Done(w) < 0 then Answer(None, Err(ErrInternal))
    else DriverSync(conf.value, w.state, Done(w), e.now, e.trouble, e.output)
  }

  /** One sync; None if the resource is not due. */
  function Next(w: World, e: Event, o: Owner, lim: Limits): Option<World>
    requires Hashes(o)
  {
    if e.now < w.now || w.state.nextSyncAt.None? || e.now < w.state.nextSyncAt.value then None
    else
      var a := AnswerTo(w, e, o);
      var leased := w.state.(nextSyncAt := Some(e.now + lim.lease));
      var calls := if a.call.Some? then w.calls + [a.call.value] else w.calls;
      match e.fate
      case NotReached => Some(w.(state := leased, now := e.now))
      case Lost => Some(w.(state := leased, calls := calls, now := e.now))
      case Saved =>
        Some(w.(state := AfterSync(w.state, a.result, lim.maxRetries, e.now + lim.backoff), calls := calls, now := e.now,
                counted := w.counted + if w.state.status == Pending then 1 else 0))
  }

  function Run(w: World, events: seq<Event>, o: Owner, lim: Limits): Option<World>
    requires Hashes(o)
  {
    if events == [] then Some(w)
    else
      match Run(w, events[..|events| - 1], o, lim)
      case None => None
      case Some(w') => Next(w', events[|events| - 1], o, lim)
  }

  // ------------------------------------------------------------ ordered steps

  ghost predicate Succeeded(calls: seq<Call>, i: nat) {
    exists h :: 0 <= h < |calls| && calls[h].index == i && calls[h].ok
  }

  /** No step is called before its predecessors have succeeded, and none after a later one
      has been called. */
  ghost predicate InOrder(calls: seq<Call>) {
    && (forall j :: 0 <= j < |calls| ==> forall i: nat :: i < calls[j].index ==> Succeeded(calls[..j], i))
    && (forall i, j :: 0 <= i < j < |calls| ==> calls[i].index <= calls[j].index)
  }

  /** The calls so far, when `done` steps are done: in order, none past the next step, and every
      step done has succeeded. */
  ghost predicate CallsFit(calls: seq<Call>, done: int) {
    && InOrder(calls)
    && (forall j :: 0 <= j < |calls| ==> calls[j].index <= done)
    && (forall i: nat :: i < done ==> Succeeded(calls, i))
  }

  /** The pending steps are the rest of the plan, and the steps before them have succeeded. */
  ghost predicate OnTrack(w: World) {
    && Settled(w.stored)
    && EndsInRelease(w.plan)
    && 0 <= Done(w) && w.state.moduleData.pending == w.plan[Done(w)..]
    && w.state.status in {Pending, Failed, Completed}
    && (w.state.status == Completed ==> Done(w) == |w.plan|)
    && (w.state.status == Failed ==> w.state.nextSyncAt.None?)
    && (w.state.status == Pending ==> w.state.nextSyncAt.Some?)
    && CallsFit(w.calls, Done(w))
  }

  lemma BeginOnTrack(p: Planned)
    requires GoodPlan(p)
    ensures OnTrack(Begin(p))
  {
    hide Settled;
  }

  lemma SucceededGrows(calls: seq<Call>, c: Call, i: nat)
    requires Succeeded(calls, i)
    ensures Succeeded(calls + [c], i)
  {
    var h :| 0 <= h < |calls| && calls[h].index == i && calls[h].ok;
    assert (calls + [c])[h] == calls[h];
  }

  lemma InOrderGrows(calls: seq<Call>, c: Call)
    requires InOrder(calls)
    requires forall i: nat :: i < c.index ==> Succeeded(calls, i)
    requires forall j :: 0 <= j < |calls| ==> calls[j].index <= c.index
    ensures InOrder(calls + [c])
  {
    var all := calls + [c];
    forall j, i: nat | 0 <= j < |all| && i < all[j].index ensures Succeeded(all[..j], i) {
      if j < |calls| {
        assert all[..j] == calls[..j] && all[j] == calls[j];
      } else {
        assert all[..j] == calls;
      }
    }
  }

  /** What one run of the driver does to the pending steps. */
  lemma AnswerSteps(w: World, e: Event, o: Owner)
    requires Hashes(o) && OnTrack(w)
    ensures var a := AnswerTo(w, e, o);
      && (a.call.Some? ==> a.call.value.index == Done(w))
      && (a.result.Ok? && w.state.moduleData.pending != [] ==>
            && a.result.value.status == Pending && a.call.Some? && a.call.value.ok && a.result.value.nextSyncAt == Some(e.now)
            && a.result.value.moduleData.pending == w.state.moduleData.pending[1..])
      && (a.result.Ok? && w.state.moduleData.pending == [] ==>
            a.result.value.status == Completed && a.result.value.moduleData.pending == [])
  {
    hide Settled, ConfigRead, StepConf, EffectOf, CallsFit, EndsInRelease;
  }

  /** The next step is called once more, and may now be done. */
  lemma CallsGrow(calls: seq<Call>, c: Call)
    requires CallsFit(calls, c.index)
    ensures CallsFit(calls + [c], c.index)
    ensures c.ok ==> CallsFit(calls + [c], c.index + 1)
  {
    hide InOrder, Succeeded;
    InOrderGrows(calls, c);
    forall i: nat | i < c.index ensures Succeeded(calls + [c], i) {
      SucceededGrows(calls, c, i);
    }
    if c.ok {
      LastSucceeds(calls, c);
    }
  }

  lemma StepOnTrack(w: World, e: Event, o: Owner, lim: Limits)
    requires Hashes(o) && OnTrack(w) && Next(w, e, o, lim).Some?
    ensures OnTrack(Next(w, e, o, lim).value)
  {
    hide Settled, ConfigRead, AnswerTo, CallsFit, EndsInRelease;
    AnswerSteps(w, e, o);
    var a := AnswerTo(w, e, o);
    if a.call.Some? {
      CallsGrow(w.calls, a.call.value);
    }
    if w.state.moduleData.pending != [] {
      assert w.plan[Done(w)..][1..] == w.plan[Done(w) + 1..];
    }
  }

  lemma LastSucceeds(calls: seq<Call>, c: Call)
    requires c.ok
    ensures Succeeded(calls + [c], c.index)
  {
    assert (calls + [c])[|calls|] == c;
  }

  lemma {:induction false} RunOnTrack(p: Planned, events: seq<Event>, o: Owner, lim: Limits)
    requires Hashes(o) && GoodPlan(p) && Run(Begin(p), events, o, lim).Some?
    ensures OnTrack(Run(Begin(p), events, o, lim).value)
  {
    hide OnTrack, Next, GoodPlan;
    if events == [] {
      BeginOnTrack(p);
    } else {
      RunOnTrack(p, events[..|events| - 1], o, lim);
      StepOnTrack(Run(Begin(p), events[..|events| - 1], o, lim).value, events[|events| - 1], o, lim);
    }
  }

  /** Ordered, at least once: whatever fails, crashes or gets lost, the calls of a run follow
      the plan in order, each step is first called after the one before has succeeded, and
      completion means every step has. */
  lemma StepsRunInOrder(p: Planned, events: seq<Event>, o: Owner, lim: Limits)
    requires Hashes(o) && GoodPlan(p) && Run(Begin(p), events, o, lim).Some?
    ensures var w := Run(Begin(p), events, o, lim).value;
      && InOrder(w.calls)
      && (w.state.status == Completed ==> forall i: nat :: i < |p.state.moduleData.pending| ==> Succeeded(w.calls, i))
  {
    hide Settled, EndsInRelease, InOrder, Succeeded, Next, GoodPlan;
    RunOnTrack(p, events, o, lim);
    RunKeepsPlan(p, events, o, lim);
  }

  /** A sync never changes what is stored of the configuration. */
  lemma {:induction false} RunKeepsPlan(p: Planned, events: seq<Event>, o: Owner, lim: Limits)
    requires Hashes(o) && Run(Begin(p), events, o, lim).Some?
    ensures Run(Begin(p), events, o, lim).value.stored == p.config
    ensures Run(Begin(p), events, o, lim).value.plan == p.state.moduleData.pending
  {
    hide AnswerTo, AfterSync;
    if events != [] {
      RunKeepsPlan(p, events[..|events| - 1], o, lim);
    }
  }

  // ------------------------------------------------------------ termination

  /** The saved syncs that d steps done and r retries of the next can take. */
  function Budget(d: int, r: nat, m: nat): int { d * m + r }

  lemma BudgetGrows(d: int, r: nat, k: int, m: nat)
    requires d <= k && r < m
    ensures Budget(d, r + 1, m) == Budget(d, r, m) + 1 <= Budget(d + 1, 0, m) <= Budget(k + 1, 0, m)
  {
    assert (d + 1) * m == d * m + m;
    assert (k - d) * m >= 0 && (k + 1) * m == (d + 1) * m + (k - d) * m;
  }

  /** Saved syncs so far: at most maxRetries for each step done, plus the present retries. */
  predicate WithinBudget(w: World, lim: Limits) {
    && w.state.syncResult.retries <= lim.maxRetries
    && (w.state.status != Failed ==> w.state.syncResult.retries < lim.maxRetries)
    && w.counted <= (if w.state.status == Pending then Budget(Done(w), w.state.syncResult.retries, lim.maxRetries)
                     else Budget(|w.plan| + 1, 0, lim.maxRetries))
  }

  lemma StepWithinBudget(w: World, e: Event, o: Owner, lim: Limits)
    requires Hashes(o) && OnTrack(w) && WithinBudget(w, lim) && lim.maxRetries > 0 && Next(w, e, o, lim).Some?
    ensures WithinBudget(Next(w, e, o, lim).value, lim)
  {
    hide Settled, ConfigRead, AnswerTo, CallsFit, EndsInRelease, Budget, Message;
    AnswerSteps(w, e, o);
    if AnswerTo(w, e, o).result.Ok? {
      AnswersAreFresh(w, e, o);
    }
    if w.state.status != Failed {
      BudgetGrows(Done(w), w.state.syncResult.retries, |w.plan|, lim.maxRetries);
    }
  }

  lemma AnswersAreFresh(w: World, e: Event, o: Owner)
    requires Hashes(o) && AnswerTo(w, e, o).result.Ok?
    ensures AnswerTo(w, e, o).result.value.syncResult == NO_SYNC_RESULT
    ensures AnswerTo(w, e, o).result.value.IsScheduled()
  {
    hide ConfigRead, EffectOf;
  }

  lemma {:induction false} RunWithinBudget(p: Planned, events: seq<Event>, o: Owner, lim: Limits)
    requires Hashes(o) && GoodPlan(p) && lim.maxRetries > 0 && Run(Begin(p), events, o, lim).Some?
    ensures OnTrack(Run(Begin(p), events, o, lim).value)
    ensures WithinBudget(Run(Begin(p), events, o, lim).value, lim)
  {
    hide OnTrack, Next, Settled, EndsInRelease;
    if events == [] {
      BeginOnTrack(p);
    } else {
      RunWithinBudget(p, events[..|events| - 1], o, lim);
      StepOnTrack(Run(Begin(p), events[..|events| - 1], o, lim).value, events[|events| - 1], o, lim);
      StepWithinBudget(Run(Begin(p), events[..|events| - 1], o, lim).value, events[|events| - 1], o, lim);
    }
  }

  /** A plan of k steps is over after (k + 1) * M counted syncs, and retries stay within M. */
  lemma SyncsAreBounded(p: Planned, events: seq<Event>, o: Owner, lim: Limits)
    requires Hashes(o) && GoodPlan(p) && lim.maxRetries > 0 && Run(Begin(p), events, o, lim).Some?
    ensures var w := Run(Begin(p), events, o, lim).value;
      var most := (|p.state.moduleData.pending| + 1) * lim.maxRetries;
      && w.counted <= most
      && (w.state.status == Pending ==> w.counted < most)
      && w.state.syncResult.retries <= lim.maxRetries
  {
    hide Settled, EndsInRelease, CallsFit, Next, GoodPlan;
    RunWithinBudget(p, events, o, lim);
    RunKeepsPlan(p, events, o, lim);
    var w := Run(Begin(p), events, o, lim).value;
    if w.state.status != Failed {
      BudgetGrows(Done(w), w.state.syncResult.retries, |w.plan|, lim.maxRetries);
    }
  }

  /** n syncs that fail before reaching the cluster. */
  function Failures(n: nat, t: nat, start: int): seq<Event> {
    if n == 0 then [] else Failures(n - 1, t, start) + [Event(start + (n - 1) * t, NO_DRIVER_CONF, Refused(ErrInternal), "", Saved)]
  }

  lemma FailureGoesOn(w: World, e: Event, o: Owner, lim: Limits)
    requires Hashes(o) && OnTrack(w) && w.state.status == Pending && lim.maxRetries == 0
    requires w.now <= e.now && w.state.nextSyncAt == Some(e.now) && e.trouble == Refused(ErrInternal) && e.fate == Saved
    ensures var r := Next(w, e, o, lim);
      && r.Some? && r.value.counted == w.counted + 1 && r.value.state.status == Pending
      && r.value.state.nextSyncAt == Some(e.now + lim.backoff) && r.value.now == e.now
  {
    hide Settled, ConfigRead, CallsFit, EndsInRelease;
    assert AnswerTo(w, e, o).result == Err(ErrInternal);
  }

  lemma OneMoreWait(n: nat, t: nat)
    requires n > 0
    ensures n * t == (n - 1) * t + t
  {
  }

  lemma BeginPending(p: Planned)
    requires GoodPlan(p)
    ensures Begin(p).state.status == Pending && Begin(p).state.nextSyncAt == Some(Begin(p).now) && Begin(p).counted == 0
  {
    hide Settled;
  }

  lemma FailuresSnoc(n: nat, t: nat, start: int)
    requires n > 0
    ensures var all := Failures(n, t, start);
      && |all| > 0 && all[..|all| - 1] == Failures(n - 1, t, start)
      && all[|all| - 1] == Event(start + (n - 1) * t, NO_DRIVER_CONF, Refused(ErrInternal), "", Saved)
  {
  }

  lemma {:induction false} FailuresGoOn(p: Planned, n: nat, o: Owner, lim: Limits)
    requires Hashes(o) && GoodPlan(p) && lim.maxRetries == 0
    ensures var r := Run(Begin(p), Failures(n, lim.backoff, Begin(p).now), o, lim);
      && r.Some? && OnTrack(r.value) && r.value.counted == n && r.value.state.status == Pending
      && r.value.state.nextSyncAt == Some(Begin(p).now + n * lim.backoff)
      && r.value.now <= Begin(p).now + n * lim.backoff
  {
    hide Next, OnTrack, GoodPlan, Failures, Begin;
    if n == 0 {
      BeginOnTrack(p);
      BeginPending(p);
      assert Failures(0, lim.backoff, Begin(p).now) == [] by { NoFailures(lim.backoff, Begin(p).now); }
    } else {
      var all := Failures(n, lim.backoff, Begin(p).now);
      FailuresGoOn(p, n - 1, o, lim);
      FailuresSnoc(n, lim.backoff, Begin(p).now);
      OneMoreWait(n, lim.backoff);
      var w := Run(Begin(p), all[..|all| - 1], o, lim).value;
      FailureGoesOn(w, all[|all| - 1], o, lim);
      StepOnTrack(w, all[|all| - 1], o, lim);
    }
  }

  lemma NoFailures(t: nat, start: int)
    ensures Failures(0, t, start) == []
  {
  }

  ghost predicate Bounded(p: Planned, bound: nat, o: Owner, lim: Limits)
    requires Hashes(o)
  {
    forall events :: Run(Begin(p), events, o, lim).Some? ==> Run(Begin(p), events, o, lim).value.counted <= bound
  }

  /** Syncing ends, for any plan, exactly when retries are limited. */
  lemma EndsIffRetriesLimited(p: Planned, o: Owner, lim: Limits)
    requires Hashes(o) && GoodPlan(p)
    ensures (exists bound: nat :: Bounded(p, bound, o, lim)) <==> lim.maxRetries > 0
  {
    if lim.maxRetries > 0 {
      var most := (|p.state.moduleData.pending| + 1) * lim.maxRetries;
      forall events | Run(Begin(p), events, o, lim).Some? ensures Run(Begin(p), events, o, lim).value.counted <= most {
        SyncsAreBounded(p, events, o, lim);
      }
      assert Bounded(p, most, o, lim);
    } else if bound: nat :| Bounded(p, bound, o, lim) {
      FailuresGoOn(p, bound + 1, o, lim);
      assert false;
    }
  }

  lemma {:induction false} NothingAfter(w: World, events: seq<Event>, o: Owner, lim: Limits)
    requires Hashes(o) && w.state.nextSyncAt.None?
    ensures events != [] ==> Run(w, events, o, lim).None?
  {
    hide AnswerTo, AfterSync;
    if |events| > 1 {
      NothingAfter(w, events[..|events| - 1], o, lim);
    } else if |events| == 1 {
      assert events[..0] == [];
    }
  }

  /** A saved sync that is refused as invalid is the last one, after any run and under any
      limit: the firehose is left in the error status with the steps it had, and no sync
      follows. */
  lemma InvalidIsLast(p: Planned, events: seq<Event>, e: Event, more: seq<Event>, o: Owner, lim: Limits)
    requires Hashes(o)
    ensures Run(Begin(p), events, o, lim).Some? && Next(Run(Begin(p), events, o, lim).value, e, o, lim).Some? && e.fate == Saved
            && AnswerTo(Run(Begin(p), events, o, lim).value, e, o).result == Err(ErrInvalid) ==>
      var w, w' := Run(Begin(p), events, o, lim).value, Next(Run(Begin(p), events, o, lim).value, e, o, lim).value;
      && w'.state.status == Failed && w'.state.nextSyncAt.None? && w'.state.moduleData == w.state.moduleData
      && w'.state.syncResult.retries == w.state.syncResult.retries + 1
      && (Run(w', more, o, lim).Some? ==> more == [])
  {
    hide AnswerTo, Run;
    if Run(Begin(p), events, o, lim).Some? {
      var w := Run(Begin(p), events, o, lim).value;
      if Next(w, e, o, lim).Some? && e.fate == Saved && AnswerTo(w, e, o).result == Err(ErrInvalid) {
        NothingAfter(Next(w, e, o, lim).value, more, o, lim);
      }
    }
  }

  // ------------------------------------------------------------ progress

  /** n syncs at one time, each reaching the cluster without trouble and saved. */
  function Untroubled(n: nat, now: int, dc: DriverConf, output: Blob): seq<Event> {
    if n == 0 then [] else Untroubled(n - 1, now, dc, output) + [Event(now, dc, Fine, output, Saved)]
  }

  /** One of them does the next step, or completes if none is left. */
  lemma UntroubledStep(w: World, e: Event, o: Owner, lim: Limits)
    requires Hashes(o) && OnTrack(w) && w.state.status == Pending && w.now <= e.now && w.state.nextSyncAt.value <= e.now
    requires e.trouble == Fine && e.fate == Saved
    ensures var r := Next(w, e, o, lim);
      && r.Some? && OnTrack(r.value) && r.value.now == e.now
      && (if w.state.moduleData.pending == [] then r.value.state.status == Completed && Completes(w, e, o)
          else r.value.state.status == Pending && r.value.state.nextSyncAt == Some(e.now)
               && r.value.state.moduleData.pending == w.state.moduleData.pending[1..])
  {
    hide ConfigRead, Settled, CallsFit, EndsInRelease;
    SettledReads(w.stored, e.dc, o);
    assert AnswerTo(w, e, o).result.Ok?;
    AnswerSteps(w, e, o);
    StepOnTrack(w, e, o, lim);
  }

  lemma {:induction false} UntroubledRun(w: World, n: nat, now: int, dc: DriverConf, output: Blob, o: Owner, lim: Limits)
    requires Hashes(o) && OnTrack(w) && w.state.status == Pending && w.now <= now
    requires w.state.nextSyncAt.Some? && w.state.nextSyncAt.value <= now
    requires n <= |w.state.moduleData.pending|
    ensures var r := Run(w, Untroubled(n, now, dc, output), o, lim);
      && r.Some? && OnTrack(r.value) && r.value.state.status == Pending && r.value.now <= now
      && r.value.state.nextSyncAt.Some? && r.value.state.nextSyncAt.value <= now
      && r.value.state.moduleData.pending == w.state.moduleData.pending[n..]
  {
    hide OnTrack, Next;
    if n == 0 {
      assert OnTrack(w);
    } else {
      var all := Untroubled(n, now, dc, output);
      assert all[..|all| - 1] == Untroubled(n - 1, now, dc, output);
      UntroubledRun(w, n - 1, now, dc, output, o, lim);
      UntroubledStep(Run(w, all[..|all| - 1], o, lim).value, all[|all| - 1], o, lim);
    }
  }

  /** Progress: from any pending state of any run, as many due, untroubled, saved syncs as
      there are steps left, and one more, complete the plan, whatever went wrong before. */
  lemma UntroubledSyncsComplete(p: Planned, before: seq<Event>, now: int, dc: DriverConf, output: Blob, o: Owner, lim: Limits)
    requires Hashes(o) && GoodPlan(p) && Run(Begin(p), before, o, lim).Some?
    requires Run(Begin(p), before, o, lim).value.state.status == Pending
    ensures var w := Run(Begin(p), before, o, lim).value;
      && w.state.nextSyncAt.Some?
      && (w.now <= now && w.state.nextSyncAt.value <= now ==>
            var left := |w.state.moduleData.pending|;
            && Run(w, Untroubled(left, now, dc, output), o, lim).Some?
            && Run(w, Untroubled(left + 1, now, dc, output), o, lim).Some?
            && Run(w, Untroubled(left, now, dc, output), o, lim).value.state.status == Pending
            && Completes(Run(w, Untroubled(left, now, dc, output), o, lim).value, Event(now, dc, Fine, output, Saved), o)
            && Run(w, Untroubled(left + 1, now, dc, output), o, lim).value.state.status == Completed)
  {
    hide Next, Settled, CallsFit, EndsInRelease, GoodPlan, Completes;
    RunOnTrack(p, before, o, lim);
    var w := Run(Begin(p), before, o, lim).value;
    if w.now <= now && w.state.nextSyncAt.value <= now {
      var left := |w.state.moduleData.pending|;
      UntroubledRun(w, left, now, dc, output, o, lim);
      var all := Untroubled(left + 1, now, dc, output);
      assert all[..|all| - 1] == Untroubled(left, now, dc, output);
      UntroubledStep(Run(w, Untroubled(left, now, dc, output), o, lim).value, all[|all| - 1], o, lim);
    }
  }

  // ------------------------------------------------------------ what is deployed

  /** The last release that took place. */
  function LastRelease(calls: seq<Call>): Option<Config> {
    if calls == [] then None
    else
      var c := calls[|calls| - 1];
      if c.applied && c.effect.Deployed? then Some(c.effect.conf) else LastRelease(calls[..|calls| - 1])
  }

  /** There is an autoscaler that can start replicas: switched on, and neither paused nor held
      at zero. */
  predicate Free(c: Config) {
    && c.autoscaler.Some? && c.autoscaler.value.enabled && !c.autoscaler.value.spec.paused
    && !(c.autoscaler.value.spec.pausedWithReplica && c.autoscaler.value.spec.pausedReplica == 0)
  }

  /** Everything stored that no reading of the driver's own configuration may replace: the release
      name, the namespace once there is one, the chart, the offset to start from and every entry of
      the environment. */
  predicate SameFirehose(c: Config, stored: Config) {
    && c.deploymentId == stored.deploymentId && c.resetOffset == stored.resetOffset
    && c.chart == stored.chart && c.telegraf == stored.telegraf
    && (stored.namespace != "" ==> c.namespace == stored.namespace)
    && (forall k :: k in stored.env ==> k in c.env && c.env[k] == stored.env[k])
  }

  /** A release of exactly the stored configuration: no replicas and a held autoscaler if it is
      stopped, its own count and its own autoscaler settings if not. */
  predicate Matches(c: Config, stored: Config) {
    && SameFirehose(c, stored)
    && c.replicas == (if stored.stopped then 0 else stored.replicas)
    && (if stored.stopped then HeldAtZero(c) else SameScaling(stored, c))
  }

  /** A release without replicas whose autoscaler is left as stored. */
  predicate StoppedByTime(c: Config, stored: Config) {
    SameFirehose(c, stored) && c.replicas == 0 && SameScaling(stored, c)
  }

  /** When all steps are done, what runs is the stored configuration, unless its stop time has
      passed and the stop got through. */
  predicate Shipped(w: World) {
    Done(w) == |w.plan| ==>
      && LastRelease(w.calls).Some?
      && (Matches(LastRelease(w.calls).value, w.stored)
          || (StopDue(w.stored, w.now) && StoppedByTime(LastRelease(w.calls).value, w.stored)))
  }

  lemma ReleaseMatches(stored: Config, conf: Config, step: Step)
    requires Keeps(stored, conf) && (step.ReleaseCreate? || step.ReleaseUpdate?)
    ensures Matches(StepConf(step, conf), stored)
  {
  }

  lemma LastReleaseGrows(calls: seq<Call>, c: Call)
    ensures LastRelease(calls + [c]) == if c.applied && c.effect.Deployed? then Some(c.effect.conf) else LastRelease(calls)
  {
    assert (calls + [c])[..|calls + [c]| - 1] == calls;
  }

  /** The call a run of the driver makes, given where the plan stands. */
  lemma AnswerEffect(w: World, e: Event, o: Owner)
    requires Hashes(o) && OnTrack(w) && AnswerTo(w, e, o).call.Some?
    ensures var c := AnswerTo(w, e, o).call.value;
      && (Done(w) == |w.plan| ==> StopDue(w.stored, e.now) && c.effect.Deployed? && StoppedByTime(c.effect.conf, w.stored))
      && (Done(w) == |w.plan| - 1 ==> c.effect.Deployed? && Matches(c.effect.conf, w.stored))
      && (AnswerTo(w, e, o).result.Ok? ==> c.applied)
  {
    hide Settled, CallsFit, ConfigRead, Matches;
    SettledReads(w.stored, e.dc, o);
    var conf := ConfigRead(w.stored, e.dc, o).value;
    if Done(w) == |w.plan| - 1 {
      assert w.state.moduleData.pending[0] == w.plan[|w.plan| - 1];
      ReleaseMatches(w.stored, conf, w.plan[|w.plan| - 1]);
    }
  }

  lemma StepShipped(w: World, e: Event, o: Owner, lim: Limits)
    requires Hashes(o) && OnTrack(w) && Shipped(w) && Next(w, e, o, lim).Some?
    ensures Shipped(Next(w, e, o, lim).value)
  {
    hide Settled, CallsFit, ConfigRead, Matches, StoppedByTime, AnswerTo, EndsInRelease, LastRelease;
    AnswerSteps(w, e, o);
    var a := AnswerTo(w, e, o);
    if a.call.Some? {
      AnswerEffect(w, e, o);
      LastReleaseGrows(w.calls, a.call.value);
    }
  }

  lemma {:induction false} RunShipped(p: Planned, events: seq<Event>, o: Owner, lim: Limits)
    requires Hashes(o) && GoodPlan(p) && Run(Begin(p), events, o, lim).Some?
    ensures OnTrack(Run(Begin(p), events, o, lim).value) && Shipped(Run(Begin(p), events, o, lim).value)
  {
    hide OnTrack, Next, Settled;
    if events == [] {
      BeginOnTrack(p);
    } else {
      RunShipped(p, events[..|events| - 1], o, lim);
      StepOnTrack(Run(Begin(p), events[..|events| - 1], o, lim).value, events[|events| - 1], o, lim);
      StepShipped(Run(Begin(p), events[..|events| - 1], o, lim).value, events[|events| - 1], o, lim);
    }
  }

  // ------------------------------------------------------------ what is called

  /** What a call does for the step it serves: a stop leaves nothing running and the autoscaler
      held, a release deploys the stored configuration, a reset moves the stored consumer group
      to the offset of the plan; past the last step there is only the stop at stop time. */
  predicate Serves(c: Call, plan: seq<Step>, stored: Config, resetTo: string) {
    && c.index <= |plan| && (c.ok ==> c.applied)
    && if c.index == |plan| then c.effect.Deployed? && !c.effect.create && StoppedByTime(c.effect.conf, stored)
       else
         match plan[c.index]
         case ReleaseStop =>
           c.effect.Deployed? && !c.effect.create && c.effect.conf.replicas == 0 && HeldAtZero(c.effect.conf) && SameFirehose(c.effect.conf, stored)
         case ReleaseCreate => c.effect.Deployed? && c.effect.create && Matches(c.effect.conf, stored)
         case ReleaseUpdate => c.effect.Deployed? && !c.effect.create && Matches(c.effect.conf, stored)
         case KafkaReset =>
           c.effect.GroupReset? && "SOURCE_KAFKA_CONSUMER_GROUP_ID" in stored.env
           && c.effect.group == stored.env["SOURCE_KAFKA_CONSUMER_GROUP_ID"] && c.effect.offset == resetTo
  }

  ghost predicate AllServe(w: World, resetTo: string) {
    && (forall j :: 0 <= j < |w.calls| ==> Serves(w.calls[j], w.plan, w.stored, resetTo))
    && (w.state.moduleData.pending != [] ==> w.state.moduleData.resetTo == resetTo)
  }

  lemma GroupKept(c: Config, r: Config)
    requires Settled(c) && Keeps(c, r)
    ensures CONSUMER_ID in c.env && Get(r.env, CONSUMER_ID) == c.env[CONSUMER_ID]
  {
  }

  lemma CallServes(w: World, e: Event, o: Owner, resetTo: string)
    requires Hashes(o) && OnTrack(w) && AnswerTo(w, e, o).call.Some?
    requires w.state.moduleData.pending != [] ==> w.state.moduleData.resetTo == resetTo
    ensures Serves(AnswerTo(w, e, o).call.value, w.plan, w.stored, resetTo)
  {
    hide Settled, CallsFit, ConfigRead, EndsInRelease, Get;
    SettledReads(w.stored, e.dc, o);
    GroupKept(w.stored, ConfigRead(w.stored, e.dc, o).value);
    if w.state.moduleData.pending != [] {
      assert w.state.moduleData.pending[0] == w.plan[Done(w)];
    }
  }

  lemma StepServes(w: World, e: Event, o: Owner, lim: Limits, resetTo: string)
    requires Hashes(o) && OnTrack(w) && AllServe(w, resetTo) && Next(w, e, o, lim).Some?
    ensures AllServe(Next(w, e, o, lim).value, resetTo)
  {
    hide Settled, CallsFit, ConfigRead, EndsInRelease, Serves, AnswerTo;
    if AnswerTo(w, e, o).result.Ok? {
      AnswerStates(w, e, o);
    }
    if AnswerTo(w, e, o).call.Some? {
      CallServes(w, e, o, resetTo);
    }
  }

  /** What a run of the driver answers: after a step the rest of the plan, at once, and nothing
      else changed; at the end the output just read, nothing pending, and the stop time if that
      is still to come. */
  lemma AnswerStates(w: World, e: Event, o: Owner)
    requires Hashes(o) && OnTrack(w) && AnswerTo(w, e, o).result.Ok?
    ensures var s := AnswerTo(w, e, o).result.value;
      && s.syncResult.retries == 0 && s.syncResult.lastError == ""
      && (w.state.moduleData.pending != [] ==>
            && s.status == Pending && s.output == w.state.output && s.nextSyncAt == Some(e.now)
            && s.moduleData.pending == w.state.moduleData.pending[1..] && s.moduleData.resetTo == w.state.moduleData.resetTo)
      && (w.state.moduleData.pending == [] ==>
            && s.status == Completed && s.output == e.output && s.moduleData.pending == []
            && s.nextSyncAt == (if w.stored.stopTime.Some? && w.stored.stopTime.value < e.now then None else w.stored.stopTime)
            && (AnswerTo(w, e, o).call.Some? <==> w.stored.stopTime.Some? && w.stored.stopTime.value < e.now))
  {
    hide Settled, CallsFit, ConfigRead, EndsInRelease, EffectOf;
    SettledReads(w.stored, e.dc, o);
  }

  /** A run of the driver fails exactly on an error before any call, an error of the call it
      makes, or one of the output it reads at the end, and passes that error on. */
  lemma AnswerFailsIff(w: World, e: Event, o: Owner)
    requires Hashes(o) && OnTrack(w)
    ensures var calls := w.state.moduleData.pending != [] || (w.stored.stopTime.Some? && w.stored.stopTime.value < e.now);
      && (AnswerTo(w, e, o).result.Err? <==>
            e.trouble.Refused? || (e.trouble.Fails? && calls) || (e.trouble.NoOutput? && w.state.moduleData.pending == []))
      && (AnswerTo(w, e, o).result.Err? ==> AnswerTo(w, e, o).result.error == e.trouble.error)
      && (AnswerTo(w, e, o).call.Some? <==> calls && !e.trouble.Refused?)
      && (AnswerTo(w, e, o).call.Some? ==> AnswerTo(w, e, o).call.value.ok == !e.trouble.Fails?)
  {
    hide Settled, CallsFit, ConfigRead, EndsInRelease, EffectOf;
    SettledReads(w.stored, e.dc, o);
  }

  lemma {:induction false} RunServes(p: Planned, events: seq<Event>, o: Owner, lim: Limits)
    requires Hashes(o) && GoodPlan(p) && Run(Begin(p), events, o, lim).Some?
    ensures OnTrack(Run(Begin(p), events, o, lim).value)
    ensures AllServe(Run(Begin(p), events, o, lim).value, p.state.moduleData.resetTo)
  {
    hide OnTrack, Next, Serves, GoodPlan;
    if events == [] {
      BeginOnTrack(p);
    } else {
      RunServes(p, events[..|events| - 1], o, lim);
      StepOnTrack(Run(Begin(p), events[..|events| - 1], o, lim).value, events[|events| - 1], o, lim);
      StepServes(Run(Begin(p), events[..|events| - 1], o, lim).value, events[|events| - 1], o, lim, p.state.moduleData.resetTo);
    }
  }

  /** Every call of every run does what the step it serves says, through any failures, crashes
      and lost results; in particular every stop stops. */
  lemma CallsServeThePlan(p: Planned, events: seq<Event>, o: Owner, lim: Limits, j: nat)
    requires Hashes(o) && GoodPlan(p) && Run(Begin(p), events, o, lim).Some?
    ensures var calls := Run(Begin(p), events, o, lim).value.calls;
      j < |calls| ==> Serves(calls[j], p.state.moduleData.pending, p.config, p.state.moduleData.resetTo)
  {
    hide OnTrack, Run, Serves, GoodPlan;
    RunServes(p, events, o, lim);
    RunKeepsPlan(p, events, o, lim);
  }

  /** With step i a stop that has succeeded and none but steps up to i and resets of the next
      called, nothing runs. */
  lemma {:induction false} StoppedSince(calls: seq<Call>, i: nat, plan: seq<Step>, stored: Config, resetTo: string)
    requires i + 1 < |plan| && plan[i].ReleaseStop? && plan[i + 1].KafkaReset?
    requires forall j :: 0 <= j < |calls| ==> Serves(calls[j], plan, stored, resetTo) && calls[j].index <= i + 1
    requires forall j, k :: 0 <= j < k < |calls| ==> calls[j].index <= calls[k].index
    requires Succeeded(calls, i)
    ensures LastRelease(calls).Some? && LastRelease(calls).value.replicas == 0 && HeldAtZero(LastRelease(calls).value)
  {
    hide Serves, HeldAtZero;
    var h :| 0 <= h < |calls| && calls[h].index == i && calls[h].ok;
    var n := |calls| - 1;
    assert calls[h].index <= calls[n].index;
    ServesStopOrReset(calls[n], i, plan, stored, resetTo);
    if h < n {
      assert calls[..n][h] == calls[h];
      StoppedSince(calls[..n], i, plan, stored, resetTo);
    }
  }

  lemma ServesStopOrReset(c: Call, i: nat, plan: seq<Step>, stored: Config, resetTo: string)
    requires i + 1 < |plan| && plan[i].ReleaseStop? && plan[i + 1].KafkaReset?
    requires Serves(c, plan, stored, resetTo) && i <= c.index <= i + 1
    ensures c.index == i ==> c.effect.Deployed? && c.effect.conf.replicas == 0 && HeldAtZero(c.effect.conf) && (c.ok ==> c.applied)
    ensures c.index == i + 1 ==> c.effect.GroupReset?
  {
  }

  /** Offsets are never reset under a live consumer: whenever a plan that stops the firehose
      first calls for a reset, what was last released has no replicas and is held there, and
      the reset is of the stored group, to the offset of the plan. */
  lemma ResetsAfterStop(p: Planned, events: seq<Event>, o: Owner, lim: Limits, j: nat)
    requires Hashes(o) && GoodPlan(p) && Run(Begin(p), events, o, lim).Some?
    requires j < |Run(Begin(p), events, o, lim).value.calls| && Run(Begin(p), events, o, lim).value.calls[j].effect.GroupReset?
    ensures var c, plan := Run(Begin(p), events, o, lim).value.calls[j], p.state.moduleData.pending;
      && c.index < |plan| && plan[c.index].KafkaReset?
      && CONSUMER_ID in p.config.env && c.effect.group == p.config.env[CONSUMER_ID] && c.effect.offset == p.state.moduleData.resetTo
      && (c.index > 0 && plan[c.index - 1].ReleaseStop? ==>
            var last := LastRelease(Run(Begin(p), events, o, lim).value.calls[..j]);
            last.Some? && last.value.replicas == 0 && HeldAtZero(last.value))
  {
    hide Run, GoodPlan, Settled, EndsInRelease, SameFirehose, Matches, StoppedByTime, HeldAtZero, LastRelease;
    RunServes(p, events, o, lim);
    RunKeepsPlan(p, events, o, lim);
    var w := Run(Begin(p), events, o, lim).value;
    var c := w.calls[j];
    assert Serves(c, w.plan, w.stored, p.state.moduleData.resetTo);
    if c.index > 0 && w.plan[c.index - 1].ReleaseStop? {
      assert Succeeded(w.calls[..j], c.index - 1);
      StoppedSince(w.calls[..j], c.index - 1, w.plan, w.stored, p.state.moduleData.resetTo);
    }
  }

  // ------------------------------------------------------------ whole lives

  /** Is this sync one whose COMPLETED answer is saved? */
  predicate Completes(w: World, e: Event, o: Owner)
    requires Hashes(o)
  {
    e.fate == Saved && AnswerTo(w, e, o).result.Ok? && AnswerTo(w, e, o).result.value.status == Completed
  }

  /** After a run, one more sync is possible and completes. */
  predicate CompletesAfter(p: Planned, events: seq<Event>, e: Event, o: Owner, lim: Limits)
    requires Hashes(o)
  {
    && Run(Begin(p), events, o, lim).Some?
    && Next(Run(Begin(p), events, o, lim).value, e, o, lim).Some?
    && Completes(Run(Begin(p), events, o, lim).value, e, o)
  }

  function FinalWorld(p: Planned, events: seq<Event>, e: Event, o: Owner, lim: Limits): World
    requires Hashes(o) && CompletesAfter(p, events, e, o, lim)
  {
    Next(Run(Begin(p), events, o, lim).value, e, o, lim).value
  }

  /** Every time a sync completes, the last release that took place is the one the stored
      configuration asks for: none running once its stop time has passed, otherwise none if it
      is stopped and exactly the stored count if not. The stop in a reset is never the last. */
  lemma DeployMatchesIntent(p: Planned, events: seq<Event>, e: Event, o: Owner, lim: Limits)
    requires Hashes(o) && GoodPlan(p)
    ensures CompletesAfter(p, events, e, o, lim) ==>
      var w := FinalWorld(p, events, e, o, lim);
      && w.state.status == Completed && w.stored == p.config
      && LastRelease(w.calls).Some?
      && (if StopDue(p.config, e.now) then StoppedByTime(LastRelease(w.calls).value, p.config)
          else Matches(LastRelease(w.calls).value, p.config))
  {
    hide Settled, CallsFit, ConfigRead, Matches, StoppedByTime, EndsInRelease, LastRelease, Run, GoodPlan;
    if CompletesAfter(p, events, e, o, lim) {
      RunShipped(p, events, o, lim);
      RunKeepsPlan(p, events, o, lim);
      var w := Run(Begin(p), events, o, lim).value;
      AnswerSteps(w, e, o);
      SettledReads(w.stored, e.dc, o);
      var a := AnswerTo(w, e, o);
      assert w.state.moduleData.pending == [];
      if a.call.Some? {
        AnswerEffect(w, e, o);
        LastReleaseGrows(w.calls, a.call.value);
      }
    }
  }

  /** The autoscaler of a release stopped by its stop time can start replicas exactly when the
      stored one can; one stopped by request never can. */
  lemma StopTimeHoldsIff(p: Planned, events: seq<Event>, e: Event, o: Owner, lim: Limits)
    requires Hashes(o) && GoodPlan(p) && (StopDue(p.config, e.now) || p.config.stopped)
    ensures CompletesAfter(p, events, e, o, lim) ==>
      var release := LastRelease(FinalWorld(p, events, e, o, lim).calls);
      && release.Some? && release.value.replicas == 0
      && (Free(release.value) <==> StopDue(p.config, e.now) && Free(p.config))
  {
    hide CompletesAfter, FinalWorld, LastRelease, GoodPlan;
    DeployMatchesIntent(p, events, e, o, lim);
  }

  /** Over a whole life: after any actions under any driver configurations, what the next
      accepted action asks for is what runs. Whenever its syncs complete, the last release has
      the name given at creation and exactly as many replicas as the request and the stored
      configuration make it, none if that is stopped or its stop time is over; and it carries
      the stored configuration, which is what the request made of the one before. */
  lemma EveryActionDeploys(first: Config, life: seq<FirehoseLife.Event>, act: FirehoseLife.Event, p: Planned,
                           syncs: seq<Event>, e: Event, o: Owner, lim: Limits)
    requires Hashes(o) && Settled(first)
    ensures FirehoseLife.Plan(FirehoseLife.Life(first, life, o), act, o) == Read(p) && CompletesAfter(p, syncs, e, o, lim) ==>
      var stored := FirehoseLife.Life(first, life, o);
      var release := LastRelease(FinalWorld(p, syncs, e, o, lim).calls);
      && release.Some? && release.value.deploymentId == first.deploymentId
      && release.value.replicas == (if WantsStop(stored, act.request) || TimeIsUp(WantedStopTime(stored, act.request), e.now) then 0
                                    else WantedReplicas(stored, act.request))
      && Honours(stored, act.request, act.setting, p.config) && SameFirehose(release.value, p.config)
      && (WantsStop(stored, act.request) && !TimeIsUp(WantedStopTime(stored, act.request), e.now) ==> HeldAtZero(release.value))
  {
    hide CompletesAfter, FinalWorld, LastRelease, GoodPlan, Settled, PlanAction, FirehoseLife.Life, Honours, WantsStop, WantedReplicas, WantedStopTime,
         HeldAtZero;
    var stored := FirehoseLife.Life(first, life, o);
    if FirehoseLife.Plan(stored, act, o) == Read(p) {
      FirehoseLife.LifeIsSettled(first, life, o);
      PlannedIsGood(stored, act, o);
      FirehoseLife.ReleaseNameIsForLife(first, life, o);
      RequestHonoured(stored, act.request, o, act.output, act.setting);
      Wanted(stored, act.request, act.setting, p.config);
      DeployMatchesIntent(p, syncs, e, o, lim);
    }
  }

  /** And a reset of the second kind goes where it was asked to, with the firehose stopped:
      every reset called for it is of the group the firehose has, to the offset of the request,
      after a release with no replicas that is held there. */
  lemma ResetGoesWhereAsked(stored: Config, offset: string, act: FirehoseLife.Event, p: Planned, syncs: seq<Event>, o: Owner, lim: Limits, j: nat)
    requires Hashes(o) && Settled(stored) && act.request == ResetV2(offset) && FirehoseLife.Plan(stored, act, o) == Read(p)
    requires Run(Begin(p), syncs, o, lim).Some? && j < |Run(Begin(p), syncs, o, lim).value.calls|
    ensures var calls := Run(Begin(p), syncs, o, lim).value.calls;
      var last := LastRelease(calls[..j]);
      calls[j].effect.GroupReset? ==>
        && calls[j].effect.offset == offset
        && CONSUMER_ID in stored.env && calls[j].effect.group == stored.env[CONSUMER_ID]
        && last.Some? && last.value.replicas == 0 && HeldAtZero(last.value)
  {
    hide LastRelease, GoodPlan, PlanAction, Run, HeldAtZero, ConsumerGroup.Next, SchemaValid;
    PlannedIsGood(stored, act, o);
    RequestHonoured(stored, act.request, o, act.output, act.setting);
    assert CONSUMER_ID in stored.env;
    if Run(Begin(p), syncs, o, lim).value.calls[j].effect.GroupReset? {
      ResetsAfterStop(p, syncs, o, lim, j);
    }
  }

  lemma PlannedIsGood(stored: Config, act: FirehoseLife.Event, o: Owner)
    requires Hashes(o) && Settled(stored) && FirehoseLife.Plan(stored, act, o).Read?
    ensures GoodPlan(FirehoseLife.Plan(stored, act, o).value)
    ensures FirehoseLife.After(stored, act, o) == FirehoseLife.Plan(stored, act, o).value.config
  {
    hide GoodPlan, Settled, PlanAction;
    ActionIsGood(stored, act.request, o, act.output, act.setting);
  }

  /** Every plan can be completed, at any time from its beginning on. */
  lemma PlanCanComplete(p: Planned, now: int, o: Owner, lim: Limits) returns (events: seq<Event>, e: Event)
    requires Hashes(o) && GoodPlan(p) && Begin(p).now <= now
    ensures CompletesAfter(p, events, e, o, lim) && e.now == now
  {
    hide Next, GoodPlan, Completes;
    BeginPending(p);
    assert Run(Begin(p), [], o, lim) == Some(Begin(p));
    UntroubledSyncsComplete(p, [], now, NO_DRIVER_CONF, "", o, lim);
    var left := |Begin(p).state.moduleData.pending|;
    events, e := Untroubled(left, now, NO_DRIVER_CONF, ""), Event(now, NO_DRIVER_CONF, Fine, "", Saved);
    var all := Untroubled(left + 1, now, NO_DRIVER_CONF, "");
    assert all[..|all| - 1] == events && all[|all| - 1] == e;
  }

  /** So a stop by time does leave autoscalers running: after any plan for a firehose with a
      stop time whose autoscaler is free, there are syncs that complete with a release of no
      replicas and that autoscaler free to start some. */
  lemma StopTimeLeavesAutoscaler(p: Planned, o: Owner, lim: Limits)
    requires Hashes(o) && GoodPlan(p) && p.config.stopTime.Some? && Free(p.config)
    ensures exists events, e ::
      && CompletesAfter(p, events, e, o, lim) && StopDue(p.config, e.now)
      && LastRelease(FinalWorld(p, events, e, o, lim).calls).Some?
      && LastRelease(FinalWorld(p, events, e, o, lim).calls).value.replicas == 0
      && Free(LastRelease(FinalWorld(p, events, e, o, lim).calls).value)
  {
    hide CompletesAfter, FinalWorld, LastRelease, GoodPlan, Free;
    var now := if p.config.stopTime.value < Begin(p).now then Begin(p).now else p.config.stopTime.value + 1;
    var events, e := PlanCanComplete(p, now, o, lim);
    StopTimeHoldsIff(p, events, e, o, lim);
  }

  /** The sample firehose is one of them. */
  lemma SampleKeepsScaling(o: Owner, lim: Limits)
    requires Hashes(o)
    ensures exists events, e ::
      && CompletesAfter(SAMPLE_PLAN, events, e, o, lim) && StopDue(SAMPLE, e.now)
      && LastRelease(FinalWorld(SAMPLE_PLAN, events, e, o, lim).calls).Some?
      && LastRelease(FinalWorld(SAMPLE_PLAN, events, e, o, lim).calls).value.replicas == 0
      && Free(LastRelease(FinalWorld(SAMPLE_PLAN, events, e, o, lim).calls).value)
  {
    hide CompletesAfter, FinalWorld, LastRelease, GoodPlan;
    SampleIsGood();
    StopTimeLeavesAutoscaler(SAMPLE_PLAN, o, lim);
  }
}
