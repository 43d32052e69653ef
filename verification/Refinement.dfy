/** The serial calls of CoreService are runs of Interleaving: each is a list of steps of one
    process, in the order the code takes them, that ends with the tables the call leaves. So
    what holds of every run holds of calls made one at a time.
    Sources: core/read.go, core/write.go, core/sync.go. */
module Refinement {
  import opened Text
  import opened Resources
  import opened Outputs
  import opened ResourceStore
  import opened Syncing
  import opened CoreService
  import opened Traces
  import opened Interleaving

  // ------------------------------------------------------------ traces as steps

  /** The step an event is. The first `base` frames are not calls: under a create, what stands
      there is the resource to be, and its dependencies are read directly. */
  function StepOf(x: Point, e: Event, p: nat, base: nat): Step
    requires After(x, e, base).Some?
  {
    match e
    case Waited(now) => Tick(now)
    case Entered(key) => if |x.stack| <= base then Read(p, Top(x.stack).deps[key]) else Descend(p, key)
    case Stored(output) => Refresh(p, output)
    case Left => Return(p)
  }

  function StepsOf(x: Point, events: seq<Event>, p: nat, base: nat): (steps: seq<Step>)
    requires Play(x, events, base).Some?
  {
    if events == [] then []
    else
      var init := events[..|events| - 1];
      StepsOf(x, init, p, base) + [StepOf(Play(x, init, base).value, events[|events| - 1], p, base)]
  }

  /** The steps of GetResource, and the passing of time. */
  predicate Reads(s: Step, p: nat) {
    s.Tick? || ((s.Read? || s.Descend? || s.Refresh? || s.Return?) && s.p == p)
  }

  /** Process p of w is where x is. */
  predicate Stays(w: World, p: nat, x: Point, base: nat) {
    && w.table == x.table && w.now == x.now
    && 1 <= |x.stack| && base <= |x.stack| && Proc(w, p).stack == x.stack[base..]
    && x.resolved <= Proc(w, p).resolved && !Proc(w, p).pick.Selected?
  }

  ghost predicate OthersStay(w: World, w': World, p: nat) { forall q :: q != p ==> Proc(w', q) == Proc(w, q) }

  lemma EventIsStep(w: World, p: nat, x: Point, e: Event, base: nat)
    requires base <= 1 && Stays(w, p, x, base) && After(x, e, base).Some?
    ensures Reads(StepOf(x, e, p, base), p)
    ensures Next(w, StepOf(x, e, p, base)).Some?
    ensures var w' := Next(w, StepOf(x, e, p, base)).value;
      && Stays(w', p, After(x, e, base).value, base) && OthersStay(w, w', p) && Proc(w', p).pick == Proc(w, p).pick
  {
    hide Update;
    var stack := Proc(w, p).stack;
    if |x.stack| > base {
      assert Top(stack) == Top(x.stack) && Pop(stack) == Pop(x.stack)[base..];
    }
  }

  /** A trace is a run of one process that only reads, stores outputs and waits. */
  lemma {:induction false} TraceIsRun(w: World, p: nat, x: Point, events: seq<Event>, base: nat)
    requires base <= 1 && Stays(w, p, x, base) && Play(x, events, base).Some?
    ensures forall s :: s in StepsOf(x, events, p, base) ==> Reads(s, p)
    ensures Run(w, StepsOf(x, events, p, base)).Some?
    ensures var w' := Run(w, StepsOf(x, events, p, base)).value;
      && Stays(w', p, Play(x, events, base).value, base) && OthersStay(w, w', p) && Proc(w', p).pick == Proc(w, p).pick
  {
    hide After, Next, Stays, StepOf, Reads, Proc;
    if events != [] {
      var init, e := events[..|events| - 1], events[|events| - 1];
      TraceIsRun(w, p, x, init, base);
      var before, s := StepsOf(x, init, p, base), StepOf(Play(x, init, base).value, e, p, base);
      EventIsStep(Run(w, before).value, p, Play(x, init, base).value, e, base);
      RunOneMore(w, before, s);
    }
  }

  lemma RunOneMore(w: World, steps: seq<Step>, s: Step)
    requires Run(w, steps).Some?
    ensures Run(w, steps + [s]) == Next(Run(w, steps).value, s)
  {
    hide Next;
    assert (steps + [s])[..|steps|] == steps;
  }

  lemma {:induction false} RunOn(w: World, steps: seq<Step>, more: seq<Step>)
    requires Run(w, steps).Some?
    ensures Run(w, steps + more) == Run(Run(w, steps).value, more)
  {
    hide Next;
    if more == [] {
      assert steps + more == steps;
    } else {
      RunOn(w, steps, more[..|more| - 1]);
      assert (steps + more)[..|steps + more| - 1] == steps + more[..|more| - 1];
    }
  }

  // ------------------------------------------------------------ serial calls

  /** The world has the tables and the clock of the store. */
  predicate Shows(w: World, store: Store)
    reads store
  {
    w.table == store.Contents() && w.now == store.clock
  }

  /** From w, the steps lead to w': process p does the reads, then perhaps one write, and is
      idle again; nobody else moves. */
  ghost predicate Does(w: World, p: nat, before: seq<Step>, last: Step, w': World) {
    && (forall s :: s in before ==> Reads(s, p))
    && Run(w, before + [last]) == Some(w')
    && Proc(w', p) == IDLE && OthersStay(w, w', p)
  }

  /** What can be reached before a call can be reached after it. */
  lemma StillReachable(w: World, steps: seq<Step>, w': World)
    requires Run(w, steps) == Some(w')
    ensures RunsTo(START, w) ==> RunsTo(START, w')
  {
    hide Next;
    if RunsTo(START, w) {
      var earlier :| Run(START, earlier) == Some(w);
      RunOn(START, earlier, steps);
    }
  }

  lemma CallReachable(w: World, p: nat, before: seq<Step>, last: Step, w': World)
    requires Does(w, p, before, last, w')
    ensures RunsTo(START, w) ==> RunsTo(START, w')
  {
    hide Run, RunsTo;
    StillReachable(w, before + [last], w');
  }

  /** Reading the resource and playing the trace of its call. */
  lemma ReadThenTrace(w: World, p: nat, u: Urn, trace: seq<Event>) returns (before: seq<Step>, w': World)
    requires Proc(w, p).stack == [] && !Proc(w, p).pick.Selected? && u in w.table.rows
    requires Play(Outset(w.table, w.now, w.table.rows[u].res), trace, 0).Some?
    ensures forall s :: s in before ==> Reads(s, p)
    ensures Run(w, before) == Some(w') && OthersStay(w, w', p) && Proc(w', p).pick == Proc(w, p).pick
    ensures Stays(w', p, Play(Outset(w.table, w.now, w.table.rows[u].res), trace, 0).value, 0)
  {
    hide Play;
    var x, w1 := Outset(w.table, w.now, w.table.rows[u].res), With(w, p, Proc(w, p).(stack := [w.table.rows[u].res]));
    assert Next(w, Read(p, u)) == Some(w1);
    assert [w.table.rows[u].res][0..] == [w.table.rows[u].res];
    TraceIsRun(w1, p, x, trace, 0);
    before := [Read(p, u)] + StepsOf(x, trace, p, 0);
    RunStep(w, Read(p, u), StepsOf(x, trace, p, 0));
    w' := Run(w1, StepsOf(x, trace, p, 0)).value;
  }

  lemma Quits(w: World, p: nat, before: seq<Step>, w': World) returns (w'': World)
    requires (forall s :: s in before ==> Reads(s, p)) && Run(w, before) == Some(w') && OthersStay(w, w', p)
    ensures w'' == With(w', p, IDLE) && Does(w, p, before, Abort(p), w'')
  {
    w'' := With(w', p, IDLE);
    RunOneMore(w, before, Abort(p));
  }

  /** GetResource is a run of its reads, descents, write-backs and returns: they end with the
      tables it leaves and, if it succeeds, with its answer as the one copy held. */
  method GetResource(svc: Service, urn: Urn, ghost w: World, ghost p: nat)
    returns (r: Result<Resource>, ghost before: seq<Step>, ghost held: seq<Resource>, ghost w': World)
    requires Ordered(svc.store.Contents()) && Repeatable(svc.output)
    requires Shows(w, svc.store) && Proc(w, p) == IDLE
    modifies svc.store
    ensures Shows(w', svc.store) && Does(w, p, before, Abort(p), w')
    ensures Run(w, before).Some? && held == Proc(Run(w, before).value, p).stack
    ensures r.Ok? ==> held == [r.value]
    ensures r.Ok? <==> Fresh(w.table, svc.output, urn).Some?
    ensures RunsTo(START, w) ==> RunsTo(START, w')
  {
    hide Fresh, Refreshed, ConeFresh, Ordered, Repeatable, Play, Run, Next, Does, RunsTo;
    ghost var trace;
    r, trace := svc.GetResource(urn);
    ghost var w1 := w;
    before := [];
    EmptyRun(w);
    if urn in w.table.rows {
      before, w1 := ReadThenTrace(w, p, urn, trace);
    }
    held := Proc(w1, p).stack;
    w' := Quits(w, p, before, w1);
    CallReachable(w, p, before, Abort(p), w');
  }

  lemma EmptyRun(w: World)
    ensures Run(w, []) == Some(w)
  {
  }

  lemma Waits(w: World, p: nat, before: seq<Step>, w1: World, now: int) returns (longer: seq<Step>, w2: World)
    requires (forall s :: s in before ==> Reads(s, p)) && Run(w, before) == Some(w1) && OthersStay(w, w1, p) && w1.now <= now
    ensures (forall s :: s in longer ==> Reads(s, p)) && Run(w, longer) == Some(w2) && OthersStay(w, w2, p)
    ensures w2 == w1.(now := now)
  {
    longer, w2 := before + [Tick(now)], w1.(now := now);
    RunOneMore(w, before, Tick(now));
  }

  lemma Returns(w: World, p: nat, before: seq<Step>, w1: World) returns (longer: seq<Step>, w2: World)
    requires (forall s :: s in before ==> Reads(s, p)) && Run(w, before) == Some(w1) && OthersStay(w, w1, p)
    requires |Proc(w1, p).stack| == 1
    ensures (forall s :: s in longer ==> Reads(s, p)) && Run(w, longer) == Some(w2) && OthersStay(w, w2, p)
    ensures w2.table == w1.table && w2.now == w1.now && Proc(w2, p).stack == [] && Proc(w2, p).pick == Proc(w1, p).pick
    ensures Proc(w1, p).resolved <= Proc(w2, p).resolved
  {
    longer := before + [Return(p)];
    RunOneMore(w, before, Return(p));
    w2 := Next(w1, Return(p)).value;
  }

  lemma Writes(w: World, p: nat, before: seq<Step>, w1: World, last: Step, t: Table) returns (w2: World)
    requires (forall s :: s in before ==> Reads(s, p)) && Run(w, before) == Some(w1) && OthersStay(w, w1, p)
    requires Next(w1, last) == Some(With(w1.(table := t), p, IDLE))
    ensures w2 == With(w1.(table := t), p, IDLE) && Does(w, p, before, last, w2)
  {
    w2 := With(w1.(table := t), p, IDLE);
    RunOneMore(w, before, last);
  }

  lemma CommitIsPossible(w: World, p: nat, cur: Resource, act: Action, planned: Resource, t: Table)
    requires Proc(w, p).stack == [cur] && Proc(w, p).pick.NoPick? && cur.state.IsTerminal()
    requires act.name != CREATE_ACTION && Planned(cur, act, planned) && Accepted(w.table, act, planned, w.now, t)
    ensures Next(w, Commit(p, planned, "action:" + act.name)) == Some(With(w.(table := t), p, IDLE))
  {
    hide Update, MergedLabels;
  }

  lemma InsertIsPossible(w: World, p: nat, y: Option<Point>, mid: Table, at: int, cur: Resource, act: Action, planned: Resource, t: Table)
    requires Proc(w, p).stack == [] && Proc(w, p).pick.NoPick? && w.table == mid
    requires Gathered(y, mid, at, cur, cur.deps.Keys) && y.value.resolved <= Proc(w, p).resolved
    requires Planned(cur, act, planned) && Create(mid, planned) == Ok(t)
    ensures Next(w, Insert(p, planned)) == Some(With(w.(table := t), p, IDLE))
  {
    hide Create, MergedLabels;
    forall k | k in planned.deps ensures Accepts(Proc(w, p).resolved, planned, planned.deps[k]) {
      AcceptsMore(y.value.resolved, Proc(w, p).resolved, cur, cur.deps[k]);
    }
  }

  /** What became of an action: refused or only tried, nothing but reads; accepted, one commit,
      or one insert if it goes by the name create. */
  predicate EndsAs(last: Step, p: nat, r: Result<Resource>, act: Action, dryRun: bool) {
    last == if r.Err? || dryRun then Abort(p)
            else if act.name == CREATE_ACTION then Insert(p, r.value)
            else Commit(p, r.value, "action:" + act.name)
  }

  /** ApplyAction is a run of its reads and, if it is accepted, one commit planned from the copy
      it read. */
  method ApplyAction(svc: Service, urn: Urn, act: Action, dryRun: bool, ghost w: World, ghost p: nat)
    returns (r: Result<Resource>, ghost before: seq<Step>, ghost last: Step, ghost w': World)
    requires Sound(svc.store.Contents()) && Repeatable(svc.output) && PlanContract(svc.plan)
    requires Shows(w, svc.store) && Proc(w, p) == IDLE
    modifies svc.store
    ensures Shows(w', svc.store) && Does(w, p, before, last, w') && EndsAs(last, p, r, act, dryRun)
    ensures Sound(svc.store.Contents())
    ensures RunsTo(START, w) ==> RunsTo(START, w')
  {
    hide Fresh, Refreshed, ConeFresh, Ordered, Sound, Repeatable, PlanContract, PlanResult, Play, Run, Next, Does, RunsTo, Planned, Accepted;
    hide Gathered, OthersStay, Reads;
    SoundIsOrdered(svc.store.Contents());
    ghost var mid, at, trace;
    r, mid, at, trace := svc.ApplyAction(urn, act, dryRun);
    ghost var w1 := w;
    before := [];
    EmptyRun(w);
    NobodyMoved(w, p);
    if urn in w.table.rows {
      before, w1 := ReadThenTrace(w, p, urn, trace);
      before, w1 := Waits(w, p, before, w1, svc.store.clock);
    }
    if r.Err? || dryRun {
      last := Abort(p);
      w' := Quits(w, p, before, w1);
    } else {
      ghost var cur := Current(w.table, svc.output, urn);
      ghost var y := Play(Outset(w.table, w.now, w.table.rows[urn].res), trace, 0);
      GatheredStands(y, mid, at, cur);
      if act.name == CREATE_ACTION {
        last := Insert(p, r.value);
        before, w1 := Returns(w, p, before, w1);
        CreateAccepted(mid, act, r.value, svc.store.clock, svc.store.Contents());
        InsertIsPossible(w1, p, y, mid, at, cur, act, r.value, svc.store.Contents());
      } else {
        last := Commit(p, r.value, "action:" + act.name);
        CommitIsPossible(w1, p, cur, act, r.value, svc.store.Contents());
      }
      w' := Writes(w, p, before, w1, last, svc.store.Contents());
    }
    CallReachable(w, p, before, last, w');
  }

  lemma NobodyMoved(w: World, p: nat)
    ensures OthersStay(w, w, p)
  {
  }

  lemma GatheredStands(y: Option<Point>, t: Table, now: int, res: Resource)
    requires Gathered(y, t, now, res, res.deps.Keys)
    ensures Stands(y, t, now, res)
  {
  }

  lemma CreateAccepted(t: Table, act: Action, p: Resource, now: int, t': Table)
    requires act.name == CREATE_ACTION && Accepted(t, act, p, now, t')
    ensures Create(t, p) == Ok(t')
  {
  }

  /** CreateResource is a run of reads of the dependencies and, if it is accepted, one insert. */
  method CreateResource(svc: Service, res: Resource, dryRun: bool, ghost w: World, ghost p: nat)
    returns (r: Result<Resource>, ghost before: seq<Step>, ghost last: Step, ghost w': World)
    requires Sound(svc.store.Contents()) && Repeatable(svc.output) && PlanContract(svc.plan)
    requires Shows(w, svc.store) && Proc(w, p) == IDLE
    modifies svc.store
    ensures Shows(w', svc.store) && Does(w, p, before, last, w') && EndsAs(last, p, r, CreateAction(res), dryRun)
    ensures Sound(svc.store.Contents())
    ensures RunsTo(START, w) ==> RunsTo(START, w')
  {
    hide Fresh, Refreshed, ConeFresh, Ordered, Sound, Repeatable, PlanContract, PlanResult, Play, Run, Next, Does, RunsTo, Planned;
    hide Gathered, OthersStay, Reads, Create;
    ghost var mid, at, trace;
    r, mid, at, trace := svc.CreateResource(res, dryRun);
    ghost var x := Outset(w.table, w.now, Named(res));
    ghost var y, w1 := Play(x, trace, 1), w;
    TraceIsRun(w, p, x, trace, 1);
    before, w1 := StepsOf(x, trace, p, 1), Run(w, StepsOf(x, trace, p, 1)).value;
    before, w1 := Waits(w, p, before, w1, svc.store.clock);
    if r.Err? || dryRun {
      last := Abort(p);
      w' := Quits(w, p, before, w1);
    } else {
      last := Insert(p, r.value);
      GatheredStands(y, mid, at, Named(res));
      InsertIsPossible(w1, p, y, mid, at, Named(res), CreateAction(res), r.value, svc.store.Contents());
      w' := Writes(w, p, before, w1, last, svc.store.Contents());
    }
    CallReachable(w, p, before, last, w');
  }

  lemma Picks(w: World, p: nat, u: Urn, at: int, extend: nat) returns (w1: World)
    requires Proc(w, p) == IDLE && IsDue(w.table, u, w.now) && w.now <= at
    ensures Run(w, [Select(p, u), Tick(at), Lease(p, extend)]) == Some(w1) && OthersStay(w, w1, p)
    ensures w1.table == Extend(w.table, u, at + extend) && w1.now == at && Proc(w1, p) == IDLE.(pick := Leased(u))
  {
    hide Extend;
    var a := With(w, p, IDLE.(pick := Selected(u)));
    var b := a.(now := at);
    EmptyRun(w);
    RunOneMore(w, [], Select(p, u));
    RunOneMore(w, [Select(p, u)], Tick(at));
    RunOneMore(w, [Select(p, u), Tick(at)], Lease(p, extend));
    assert [] + [Select(p, u)] == [Select(p, u)];
    assert [Select(p, u)] + [Tick(at)] == [Select(p, u), Tick(at)];
    assert [Select(p, u), Tick(at)] + [Lease(p, extend)] == [Select(p, u), Tick(at), Lease(p, extend)];
    w1 := Next(b, Lease(p, extend)).value;
  }

  lemma SaveIsPossible(w: World, p: nat, svc: Service, cur: Resource, deps: Deps, tryAgainAt: int, t: Table)
    requires SyncContract(svc.sync) && Proc(w, p).stack == [cur] && Proc(w, p).pick == Leased(cur.urn)
    requires Update(w.table, Synced(svc, cur, deps, tryAgainAt), w.now, false, "sync") == Ok(t)
    ensures Next(w, Save(p, svc.sync(cur, deps), svc.maxSyncRetries, tryAgainAt - w.now)) == Some(With(w.(table := t), p, IDLE))
  {
    hide Update, AfterSync;
    assert w.now + (tryAgainAt - w.now) == tryAgainAt;
  }

  /** A turn of the syncer is a select and a lease with no other step but time between them, a
      read, the reads and write-backs of the dependencies, and one save of the driver's answer. */
  method SyncOne(svc: Service, scope: Resource -> bool, ghost w: World, ghost p: nat)
    returns (saved: bool, picked: Option<Urn>, ghost leased: World, ghost before: seq<Step>, ghost last: Step, ghost w': World)
    requires Sound(svc.store.Contents()) && Repeatable(svc.output) && SyncContract(svc.sync)
    requires Shows(w, svc.store) && Proc(w, p) == IDLE
    modifies svc.store
    ensures Shows(w', svc.store) && Does(leased, p, before, last, w')
    ensures picked.None? ==> leased == w
    ensures picked.Some? ==>
      && Run(w, [Select(p, picked.value), Tick(leased.now), Lease(p, svc.store.extendInterval)]) == Some(leased)
      && OthersStay(w, leased, p) && picked.value in leased.table.rows && Ordered(leased.table)
    ensures !saved ==> last == Abort(p)
    ensures saved ==>
      && picked.Some? && Resolved(leased.table, svc.output, leased.table.rows[picked.value].res).Some?
      && last.Save? && last.p == p && last.maxRetries == svc.maxSyncRetries && last.backoff <= svc.syncBackoff
      && last.answer == svc.sync(leased.table.rows[picked.value].res, Resolved(leased.table, svc.output, leased.table.rows[picked.value].res).value)
    ensures Sound(svc.store.Contents())
    ensures RunsTo(START, w) ==> RunsTo(START, w')
  {
    hide Fresh, Refreshed, ConeFresh, Ordered, Sound, Repeatable, SyncContract, SameSpecs, Resolved, Synced, Play, Run, Next, Does, RunsTo;
    hide OthersStay, Reads, Update, Extend;
    ghost var t, leasedAt, mid, at, trace;
    saved, picked, t, leasedAt, mid, at, trace := svc.SyncOne(scope);
    ghost var w1 := w;
    leased, before := w, [];
    if picked.Some? {
      leased := Picks(w, p, picked.value, leasedAt, svc.store.extendInterval);
      StillReachable(w, [Select(p, picked.value), Tick(leasedAt), Lease(p, svc.store.extendInterval)], leased);
      UrnIsKey(t, picked.value);
      PlayFreely(Outset(t, leasedAt, t.rows[picked.value].res), trace, 1);
      before, w1 := ReadThenTrace(leased, p, picked.value, trace);
    } else {
      EmptyRun(w);
      NobodyMoved(w, p);
    }
    before, w1 := Waits(leased, p, before, w1, svc.store.clock);
    if saved {
      ghost var cur := t.rows[picked.value].res;
      ghost var deps := Resolved(t, svc.output, cur).value;
      last := Save(p, svc.sync(cur, deps), svc.maxSyncRetries, at + svc.syncBackoff - w1.now);
      SaveIsPossible(w1, p, svc, cur, deps, at + svc.syncBackoff, svc.store.Contents());
      w' := Writes(leased, p, before, w1, last, svc.store.Contents());
    } else {
      last := Abort(p);
      w' := Quits(leased, p, before, w1);
    }
    CallReachable(leased, p, before, last, w');
  }
}
