/** When the orchestrator does keep its promises: runs of Interleaving under rules that its
    callers, its clock or a fixed pickup could enforce, and exactly which rules it takes for
    one syncer to a resource, for refreshes to be harmless, and for rows to equal their latest
    revisions. What it takes for no accepted action to be lost is in LostActions.
    Sources: core/read.go, core/write.go, internal/store/postgres/resource_store.go. */
module Syncers {
  import opened Text
  import opened Resources
  import opened Syncing
  import opened CoreService
  import opened Interleaving
  import opened Traces

  // ------------------------------------------------------------ harmless write-backs

  /** Equal but for the output. */
  predicate SameButOutput(s: State<Blob, Blob>, o: State<Blob, Blob>) {
    s.status == o.status && s.moduleData == o.moduleData && s.nextSyncAt == o.nextSyncAt && s.syncResult == o.syncResult
  }

  /** A copy that is not stale, its output aside. */
  predicate Agrees(s: Resource, row: Resource) {
    s.configs == row.configs && s.labels == row.labels && s.deps == row.deps && SameButOutput(s.state, row.state)
  }

  /** The two tables differ at most in the output, update time and updater of u. */
  predicate OnlyOutput(t: Table, t': Table, u: Urn) {
    && t'.rows.Keys == t.rows.Keys && t'.revisions == t.revisions && t'.nextId == t.nextId
    && (forall v :: v in t.rows && v != u ==> t'.rows[v] == t.rows[v])
    && (u in t.rows ==>
          var was, after := t.rows[u].res, t'.rows[u].res;
          && t'.rows[u].id == t.rows[u].id
          && after == was.(updatedAt := after.updatedAt, updatedBy := after.updatedBy,
                           state := was.state.(output := after.state.output)))
  }

  /** Which write-backs are harmless, exactly. */
  lemma WriteBackHarmlessIff(t: Table, r: Resource, now: int, reason: string)
    requires Update(t, r, now, false, reason).Ok?
    ensures OnlyOutput(t, Update(t, r, now, false, reason).value, r.urn) <==> Agrees(r, t.rows[r.urn].res)
  {
    var t' := Update(t, r, now, false, reason).value;
    var was, after := t.rows[r.urn].res, t'.rows[r.urn].res;
    assert after == was.(updatedAt := now, updatedBy := r.updatedBy, configs := r.configs, labels := r.labels, deps := r.deps, state := r.state);
    if OnlyOutput(t, t', r.urn) {
      assert after.configs == was.configs && after.state == was.state.(output := after.state.output);
    }
  }

  // ------------------------------------------------------------ runs under rules

  /** What a syncer's heartbeat extends, when it last did, and whether it still runs. */
  datatype Pulse = Pulse(urn: Urn, last: int, alive: bool)

  /** A world with what the rules look at: how often each row was changed other than by a
      refresh, that count after its last action, the count as each copy was read, and the
      syncers' heartbeats. */
  datatype Watched = Watched(w: World, changes: map<Urn, nat>, acted: map<Urn, nat>, seen: map<nat, seq<nat>>, pulses: map<nat, Pulse>)

  const BEGIN := Watched(START, map[], map[], map[], map[])

  function Count(counts: map<Urn, nat>, u: Urn): nat { if u in counts then counts[u] else 0 }

  function Seen(x: Watched, p: nat): seq<nat> { if p in x.seen then x.seen[p] else [] }

  /** A step of Interleaving, a syncer's own heartbeat, or the end of one. A last beat may
      still land after its syncer has saved or given up. */
  datatype Move = Do(step: Step) | Beats(p: nat) | Dies(p: nat)

  /** atomic: a selection is followed at once by its lease. current: outputs are written back
      only from copies read since the row last changed otherwise. quiet: no action commits on
      a resource that is being synced. based: actions are planned from such copies too. A
      heartbeat is due every `refresh` and lands within `delay`; a lease lasts `extend`. */
  datatype Rules = Rules(atomic: bool, current: bool, quiet: bool, based: bool, refresh: nat, delay: nat, extend: nat)

  /** p has selected or leased u. */
  predicate Works(w: World, p: nat, u: Urn) { Proc(w, p).pick == Selected(u) || Proc(w, p).pick == Leased(u) }

  predicate BeingSynced(w: World, u: Urn) { exists p :: p in w.procs && Works(w, p, u) }

  predicate IsCurrent(x: Watched, p: nat) {
    var stack, seen := Proc(x.w, p).stack, Seen(x, p);
    stack != [] && seen != [] ==> seen[|seen| - 1] == Count(x.changes, Top(stack).urn)
  }

  /** Time may pass to `now` while every lease-holder's beat is not overdue, and every one
      whose heartbeat stopped is gone before its lease ends. */
  predicate Timely(x: Watched, now: int, r: Rules) {
    forall p :: p in x.w.procs && p in x.pulses && x.w.procs[p].pick.Leased? ==>
      var h := x.pulses[p];
      if h.alive then now <= h.last + r.refresh + r.delay else now < h.last + r.extend
  }

  predicate Allowed(x: Watched, s: Step, r: Rules) {
    && (r.atomic && (exists p :: p in x.w.procs && x.w.procs[p].pick.Selected?) ==> s.Lease?)
    && (r.current && s.Refresh? ==> IsCurrent(x, s.p))
    && (r.quiet && s.Commit? ==> !BeingSynced(x.w, s.planned.urn))
    && (r.based && s.Commit? ==> IsCurrent(x, s.p))
    && (s.Tick? ==> Timely(x, s.now, r))
    && (s.Lease? ==> s.extend == r.extend)
    && !s.Beat?
  }

  function Changed(x: Watched, u: Urn): map<Urn, nat> { x.changes[u := Count(x.changes, u) + 1] }

  /** The bookkeeping of one step. */
  function Noted(x: Watched, s: Step, w': World): Watched {
    match s
    case Read(p, u) => x.(w := w', seen := x.seen[p := [Count(x.changes, u)]])
    case Descend(p, key) =>
      var stack := Proc(w', p).stack;
      x.(w := w', seen := x.seen[p := Seen(x, p) + [if stack == [] then 0 else Count(x.changes, Top(stack).urn)]])
    case Return(p) => x.(w := w', seen := x.seen[p := if Seen(x, p) == [] then [] else Seen(x, p)[..|Seen(x, p)| - 1]])
    case Abort(p) => x.(w := w', seen := x.seen[p := []])
    case Insert(p, _) => x.(w := w', seen := x.seen[p := []])
    case Select(p, _) => x.(w := w', seen := x.seen[p := []])
    case Commit(p, planned, _) =>
      x.(w := w', seen := x.seen[p := []], changes := Changed(x, planned.urn),
         acted := x.acted[planned.urn := Count(x.changes, planned.urn) + 1])
    case Lease(p, _) =>
      x.(w := w', seen := x.seen[p := []], pulses := if Proc(x.w, p).pick.NoPick? then x.pulses else x.pulses[p := Pulse(Proc(x.w, p).pick.urn, x.w.now, true)],
         changes := if Proc(x.w, p).pick.NoPick? then x.changes else Changed(x, Proc(x.w, p).pick.urn))
    case Save(p, _, _, _) =>
      x.(w := w', seen := x.seen[p := []],
         changes := if Proc(x.w, p).stack == [] then x.changes else Changed(x, Proc(x.w, p).stack[0].urn))
    case Beat(u, _) => x.(w := w', changes := Changed(x, u))
    case _ => x.(w := w')
  }

  ghost function WatchedNext(x: Watched, m: Move, r: Rules): Option<Watched> {
    match m
    case Do(s) =>
      var w' := Next(x.w, s);
      if !Allowed(x, s, r) || w'.None? then None else Some(Noted(x, s, w'.value))
    case Beats(p) =>
      if p !in x.pulses || !x.pulses[p].alive then None
      else
        var h := x.pulses[p];
        var s := Beat(h.urn, r.extend);
        var at := if Proc(x.w, p).pick == Leased(h.urn) then h.(last := x.w.now) else h.(alive := false);
        Some(Noted(x, s, Next(x.w, s).value).(pulses := x.pulses[p := at]))
    case Dies(p) =>
      if p !in x.pulses then None else Some(x.(pulses := x.pulses[p := x.pulses[p].(alive := false)]))
  }

  ghost function WatchedRun(moves: seq<Move>, r: Rules): Option<Watched> {
    if moves == [] then Some(BEGIN)
    else
      match WatchedRun(moves[..|moves| - 1], r)
      case None => None
      case Some(x) => WatchedNext(x, moves[|moves| - 1], r)
  }

  /** The step of Interleaving behind a move, if any. */
  ghost function StepsOf(x: Watched, m: Move, r: Rules): seq<Step> {
    match m
    case Do(s) => [s]
    case Beats(p) => if p in x.pulses then [Beat(x.pulses[p].urn, r.extend)] else []
    case Dies(_) => []
  }

  ghost function AllSteps(moves: seq<Move>, r: Rules): seq<Step>
    requires WatchedRun(moves, r).Some?
  {
    if moves == [] then []
    else AllSteps(moves[..|moves| - 1], r) + StepsOf(WatchedRun(moves[..|moves| - 1], r).value, moves[|moves| - 1], r)
  }

  lemma MoveIsSteps(x: Watched, m: Move, r: Rules)
    requires WatchedNext(x, m, r).Some?
    ensures var x' := WatchedNext(x, m, r).value;
      var steps := StepsOf(x, m, r);
      if steps == [] then x'.w == x.w else |steps| == 1 && Next(x.w, steps[0]) == Some(x'.w)
  {
    hide Next, Allowed;
    if m.Beats? {
      BeatIsPossible(x.w, x.pulses[m.p].urn, r.extend);
    }
  }

  /** The rules only choose among the runs of Interleaving. */
  lemma {:induction false} WatchedRunIsRun(moves: seq<Move>, r: Rules)
    requires WatchedRun(moves, r).Some?
    ensures Run(START, AllSteps(moves, r)) == Some(WatchedRun(moves, r).value.w)
  {
    hide Next, WatchedNext, StepsOf;
    if moves != [] {
      var init, m := moves[..|moves| - 1], moves[|moves| - 1];
      WatchedRunIsRun(init, r);
      var x := WatchedRun(init, r).value;
      MoveIsSteps(x, m, r);
      var more := StepsOf(x, m, r);
      var all := AllSteps(init, r) + more;
      if more == [] {
        assert all == AllSteps(init, r);
      } else {
        assert all[..|all| - 1] == AllSteps(init, r);
      }
    }
  }

  lemma WatchedInv(moves: seq<Move>, r: Rules)
    requires WatchedRun(moves, r).Some?
    ensures Inv(WatchedRun(moves, r).value.w)
  {
    hide *;
    WatchedRunIsRun(moves, r);
    RunInv(AllSteps(moves, r));
  }

  lemma BeatIsPossible(w: World, u: Urn, extend: nat)
    ensures Next(w, Beat(u, extend)) == Some(w.(table := Extend(w.table, u, w.now + extend)))
  {
  }

  // ------------------------------------------------------------ copies and their rows

  /** Each copy whose row has not changed since, other than by refreshes, still agrees with it. */
  predicate Fits(t: Table, changes: map<Urn, nat>, stack: seq<Resource>, seen: seq<nat>) {
    |seen| == |stack| && forall i :: 0 <= i < |stack| ==>
      && stack[i].urn in t.rows
      && seen[i] <= Count(changes, stack[i].urn)
      && (seen[i] == Count(changes, stack[i].urn) ==> Agrees(stack[i], t.rows[stack[i].urn].res))
  }

  ghost predicate CopiesInv(x: Watched) {
    forall p :: Fits(x.w.table, x.changes, Proc(x.w, p).stack, Seen(x, p))
  }

  /** Rows whose count stays are the same but for their output. */
  predicate Gentle(t: Table, changes: map<Urn, nat>, t': Table, changes': map<Urn, nat>) {
    forall u :: u in t.rows ==>
      && u in t'.rows
      && Count(changes, u) <= Count(changes', u)
      && (Count(changes, u) == Count(changes', u) ==> Agrees(t.rows[u].res, t'.rows[u].res))
  }

  lemma FitsStable(t: Table, changes: map<Urn, nat>, t': Table, changes': map<Urn, nat>, stack: seq<Resource>, seen: seq<nat>)
    requires Fits(t, changes, stack, seen) && Gentle(t, changes, t', changes')
    ensures Fits(t', changes', stack, seen)
  {
    hide Count;
    forall i | 0 <= i < |stack|
      ensures stack[i].urn in t'.rows && seen[i] <= Count(changes', stack[i].urn)
      ensures seen[i] == Count(changes', stack[i].urn) ==> Agrees(stack[i], t'.rows[stack[i].urn].res)
    {
      var u := stack[i].urn;
      assert u in t.rows && Count(changes, u) <= Count(changes', u);
    }
  }

  /** Only current copies are written back, so a refresh changes nothing but an output. */
  lemma RefreshIsGentle(x: Watched, p: nat, output: Blob)
    requires Inv(x.w) && CopiesInv(x) && IsCurrent(x, p) && Next(x.w, Refresh(p, output)).Some?
    ensures var top := Top(Proc(x.w, p).stack);
      && Agrees(top, x.w.table.rows[top.urn].res)
      && OnlyOutput(x.w.table, Next(x.w, Refresh(p, output)).value.table, top.urn)
      && Gentle(x.w.table, x.changes, Next(x.w, Refresh(p, output)).value.table, x.changes)
  {
    hide Inv;
    var stack := Proc(x.w, p).stack;
    assert Fits(x.w.table, x.changes, stack, Seen(x, p));
    var r := Top(stack).(state := Top(stack).state.(output := output));
    WriteBackHarmlessIff(x.w.table, r, x.w.now, "");
  }

  lemma WriteIsGentle(t: Table, c: map<Urn, nat>, t': Table, u: Urn)
    requires t.rows.Keys <= t'.rows.Keys && forall v :: v in t.rows && v != u ==> t'.rows[v] == t.rows[v]
    ensures Gentle(t, c, t', c[u := Count(c, u) + 1])
  {
  }

  lemma TableStepIsGentle(x: Watched, s: Step)
    requires Next(x.w, s).Some? && !s.Refresh?
    ensures Gentle(x.w.table, x.changes, Next(x.w, s).value.table, Noted(x, s, Next(x.w, s).value).changes)
  {
    hide Gentle, AfterSync;
    var t, t' := x.w.table, Next(x.w, s).value.table;
    match s {
      case Insert(_, _) => KeptIsGentle(t, x.changes, t');
      case Commit(_, planned, _) => WriteIsGentle(t, x.changes, t', planned.urn);
      case Lease(p, _) => WriteIsGentle(t, x.changes, t', Proc(x.w, p).pick.urn);
      case Beat(u, _) => WriteIsGentle(t, x.changes, t', u);
      case Save(p, _, _, _) => WriteIsGentle(t, x.changes, t', Proc(x.w, p).stack[0].urn);
      case _ => KeptIsGentle(t, x.changes, t');
    }
  }

  lemma KeptIsGentle(t: Table, c: map<Urn, nat>, t': Table)
    requires forall u :: u in t.rows ==> u in t'.rows && t'.rows[u] == t.rows[u]
    ensures Gentle(t, c, t', c)
  {
  }

  lemma PushFits(t: Table, changes: map<Urn, nat>, stack: seq<Resource>, seen: seq<nat>, row: Resource)
    requires Fits(t, changes, stack, seen) && row.urn in t.rows && row == t.rows[row.urn].res
    ensures Fits(t, changes, [row], [Count(changes, row.urn)])
    ensures Fits(t, changes, stack + [row], seen + [Count(changes, row.urn)])
  {
    hide Count;
  }

  lemma PopFits(t: Table, changes: map<Urn, nat>, stack: seq<Resource>, seen: seq<nat>)
    requires Fits(t, changes, stack, seen)
    ensures Fits(t, changes, [], [])
    ensures stack != [] ==> seen != [] && Fits(t, changes, stack[..|stack| - 1], seen[..|seen| - 1])
  {
    hide Count;
  }

  /** The copies of the process that moved. */
  lemma MoverFits(x: Watched, s: Step, p: nat)
    requires Inv(x.w) && CopiesInv(x) && Next(x.w, s).Some? && (s.Refresh? ==> IsCurrent(x, s.p))
    requires !s.Tick? && !s.Beat? && p == s.p
    ensures var x' := Noted(x, s, Next(x.w, s).value);
      Fits(x'.w.table, x'.changes, Proc(x'.w, p).stack, Seen(x', p))
  {
    hide Inv, Update, Create, Extend, Count, Fits, AfterSync;
    var x' := Noted(x, s, Next(x.w, s).value);
    var stack, seen := Proc(x.w, p).stack, Seen(x, p);
    assert Fits(x.w.table, x.changes, stack, seen);
    PopFits(x.w.table, x.changes, stack, seen);
    match s {
      case Read(_, u) =>
        RowKeys(x.w, u);
        PushFits(x.w.table, x.changes, stack, seen, x.w.table.rows[u].res);
      case Descend(_, key) =>
        RowKeys(x.w, Top(stack).deps[key]);
        PushFits(x.w.table, x.changes, stack, seen, x.w.table.rows[Top(stack).deps[key]].res);
      case Refresh(_, output) =>
        RefreshIsGentle(x, p, output);
        FitsStable(x.w.table, x.changes, x'.w.table, x.changes, stack, seen);
        RefreshedCopyFits(x'.w.table, x.changes, stack, seen, output);
      case Return(_) =>
      case _ =>
        NothingFits(x'.w.table, x'.changes);
    }
  }

  lemma NothingFits(t: Table, changes: map<Urn, nat>)
    ensures Fits(t, changes, [], [])
  {
  }

  lemma RowKeys(w: World, u: Urn)
    requires Inv(w) && u in w.table.rows
    ensures w.table.rows[u].res.urn == u
  {
  }

  lemma RefreshedCopyFits(t: Table, changes: map<Urn, nat>, stack: seq<Resource>, seen: seq<nat>, output: Blob)
    requires Fits(t, changes, stack, seen) && stack != []
    ensures Fits(t, changes, Pop(stack) + [Top(stack).(state := Top(stack).state.(output := output))], seen)
  {
  }

  lemma StepCopiesInv(x: Watched, m: Move, r: Rules)
    requires r.current && Inv(x.w) && CopiesInv(x) && WatchedNext(x, m, r).Some?
    ensures CopiesInv(WatchedNext(x, m, r).value)
  {
    hide Inv, Fits, Gentle, IsCurrent, Next, Noted;
    var x' := WatchedNext(x, m, r).value;
    if m.Dies? {
      return;
    }
    var s := if m.Do? then m.step else Beat(x.pulses[m.p].urn, r.extend);
    if m.Beats? {
      BeatIsPossible(x.w, x.pulses[m.p].urn, r.extend);
    }
    var w' := Next(x.w, s).value;
    var y := Noted(x, s, w');
    if s.Refresh? {
      RefreshIsGentle(x, s.p, s.output);
      NotedRefresh(x, s, w');
    } else {
      TableStepIsGentle(x, s);
    }
    forall p ensures Fits(x'.w.table, x'.changes, Proc(x'.w, p).stack, Seen(x', p)) {
      assert Fits(x.w.table, x.changes, Proc(x.w, p).stack, Seen(x, p));
      if s.Tick? || s.Beat? || p != s.p {
        OthersKeep(x, s, p);
        FitsStable(x.w.table, x.changes, y.w.table, y.changes, Proc(x.w, p).stack, Seen(x, p));
      } else {
        MoverFits(x, s, p);
      }
    }
  }

  lemma NotedRefresh(x: Watched, s: Step, w': World)
    requires s.Refresh?
    ensures Noted(x, s, w').changes == x.changes && Noted(x, s, w').w == w'
  {
  }

  lemma OthersKeep(x: Watched, s: Step, p: nat)
    requires Next(x.w, s).Some? && (s.Tick? || s.Beat? || p != s.p)
    ensures var w' := Next(x.w, s).value;
      && Proc(w', p) == Proc(x.w, p) && Seen(Noted(x, s, w'), p) == Seen(x, p)
      && Noted(x, s, w').w == w'
  {
  }

  lemma {:induction false} RunCopiesInv(moves: seq<Move>, r: Rules)
    requires r.current && WatchedRun(moves, r).Some?
    ensures CopiesInv(WatchedRun(moves, r).value)
  {
    hide WatchedNext, Inv;
    if moves != [] {
      RunCopiesInv(moves[..|moves| - 1], r);
      WatchedInv(moves[..|moves| - 1], r);
      StepCopiesInv(WatchedRun(moves[..|moves| - 1], r).value, moves[|moves| - 1], r);
    }
  }

  /** Over runs: when every write-back comes from a copy read since its row last changed by
      an action, a sync, a lease or a heartbeat, none of them changes anything but an output. */
  lemma RefreshesAreHarmless(moves: seq<Move>, r: Rules, p: nat, output: Blob)
    requires r.current && WatchedRun(moves, r).Some?
    requires WatchedNext(WatchedRun(moves, r).value, Do(Refresh(p, output)), r).Some?
    ensures var x := WatchedRun(moves, r).value;
      OnlyOutput(x.w.table, WatchedNext(x, Do(Refresh(p, output)), r).value.w.table, Top(Proc(x.w, p).stack).urn)
  {
    hide Inv, CopiesInv;
    RunCopiesInv(moves, r);
    WatchedInv(moves, r);
    RefreshIsGentle(WatchedRun(moves, r).value, p, output);
  }

  lemma MoveIsGentle(x: Watched, m: Move, r: Rules)
    requires r.current && Inv(x.w) && CopiesInv(x) && WatchedNext(x, m, r).Some?
    ensures var x' := WatchedNext(x, m, r).value; Gentle(x.w.table, x.changes, x'.w.table, x'.changes)
  {
    hide Inv, Next, Noted, IsCurrent, CopiesInv;
    if m.Do? && m.step.Refresh? {
      RefreshIsGentle(x, m.step.p, m.step.output);
      NotedRefresh(x, m.step, Next(x.w, m.step).value);
    } else if m.Do? {
      TableStepIsGentle(x, m.step);
      NotedWorld(x, m.step, Next(x.w, m.step).value);
    } else if m.Beats? {
      var s := Beat(x.pulses[m.p].urn, r.extend);
      BeatIsPossible(x.w, x.pulses[m.p].urn, r.extend);
      TableStepIsGentle(x, s);
      NotedWorld(x, s, Next(x.w, s).value);
    }
  }

  lemma NotedWorld(x: Watched, s: Step, w': World)
    ensures Noted(x, s, w').w == w'
  {
  }

  lemma GentleTwice(t: Table, c: map<Urn, nat>, t1: Table, c1: map<Urn, nat>, t2: Table, c2: map<Urn, nat>)
    requires Gentle(t, c, t1, c1) && Gentle(t1, c1, t2, c2)
    ensures Gentle(t, c, t2, c2)
  {
    hide Count;
  }

  /** From any point of a run to its end, a row that no action, sync, lease or heartbeat has
      changed is still the same, its output aside. */
  lemma {:induction false} RunIsGentle(moves: seq<Move>, n: nat, r: Rules)
    requires r.current && n <= |moves| && WatchedRun(moves, r).Some?
    ensures WatchedRun(moves[..n], r).Some?
    ensures var x, x' := WatchedRun(moves[..n], r).value, WatchedRun(moves, r).value;
      Gentle(x.w.table, x.changes, x'.w.table, x'.changes)
    decreases |moves|
  {
    hide WatchedNext, Inv, CopiesInv, Gentle;
    if n == |moves| {
      assert moves[..n] == moves;
      GentleReflexive(WatchedRun(moves, r).value.w.table, WatchedRun(moves, r).value.changes);
    } else {
      var init := moves[..|moves| - 1];
      assert init[..n] == moves[..n];
      RunIsGentle(init, n, r);
      var x, x1, x2 := WatchedRun(moves[..n], r).value, WatchedRun(init, r).value, WatchedRun(moves, r).value;
      RunCopiesInv(init, r);
      WatchedInv(init, r);
      MoveIsGentle(x1, moves[|moves| - 1], r);
      GentleTwice(x.w.table, x.changes, x1.w.table, x1.changes, x2.w.table, x2.changes);
    }
  }

  lemma GentleReflexive(t: Table, c: map<Urn, nat>)
    ensures Gentle(t, c, t, c)
  {
  }

  /** So no accepted action is ever undone by a refresh: until the next action, save, lease or
      heartbeat on it, the row stays as the action left it, its output aside. */
  lemma ActionsStay(moves: seq<Move>, n: nat, r: Rules)
    requires r.current && n < |moves| && WatchedRun(moves, r).Some?
    requires moves[n].Do? && moves[n].step.Commit?
    ensures WatchedRun(moves[..n + 1], r).Some?
    ensures var u, x := moves[n].step.planned.urn, WatchedRun(moves, r).value;
      Count(x.changes, u) == Count(WatchedRun(moves[..n + 1], r).value.changes, u) ==>
        u in x.w.table.rows && Agrees(moves[n].step.planned, x.w.table.rows[u].res)
  {
    hide Gentle;
    RunIsGentle(moves, n + 1, r);
    RunIsGentle(moves, n, r);
    assert moves[..n + 1][..n] == moves[..n];
    var u := moves[n].step.planned.urn;
    var x1, x2 := WatchedRun(moves[..n + 1], r).value, WatchedRun(moves, r).value;
    assert WatchedNext(WatchedRun(moves[..n], r).value, moves[n], r) == Some(x1);
    CommittedRow(WatchedRun(moves[..n], r).value.w, moves[n].step);
    GentleAt(x1, x2, u);
  }

  lemma CommittedRow(w: World, s: Step)
    requires s.Commit? && Next(w, s).Some?
    ensures var t := Next(w, s).value.table; s.planned.urn in t.rows && Agrees(s.planned, t.rows[s.planned.urn].res)
  {
  }

  lemma GentleAt(x: Watched, x': Watched, u: Urn)
    requires Gentle(x.w.table, x.changes, x'.w.table, x'.changes) && u in x.w.table.rows
    ensures u in x'.w.table.rows
    ensures Count(x.changes, u) == Count(x'.changes, u) ==> Agrees(x.w.table.rows[u].res, x'.w.table.rows[u].res)
  {
  }

  // ------------------------------------------------------------ reachable states

  ghost predicate Reaches(r: Rules, x: Watched) { exists moves :: WatchedRun(moves, r) == Some(x) }

  lemma Start(r: Rules)
    ensures Reaches(r, BEGIN)
  {
    assert WatchedRun([], r) == Some(BEGIN);
  }

  lemma OneMore(r: Rules, x: Watched, m: Move, x': Watched)
    requires Reaches(r, x) && WatchedNext(x, m, r) == Some(x')
    ensures Reaches(r, x')
  {
    hide WatchedNext;
    var moves :| WatchedRun(moves, r) == Some(x);
    var all := moves + [m];
    assert all[..|all| - 1] == moves;
    assert WatchedRun(all, r) == Some(x');
  }

  // ------------------------------------------------------------ one syncer to a resource

  ghost predicate Exclusive(w: World) {
    forall p, q, u :: p != q && Works(w, p, u) ==> !Works(w, q, u)
  }

  /** Every lease-holder is inside its lease, and its row shows it. */
  ghost predicate HoldsLease(x: Watched, p: nat, r: Rules) {
    && (!Proc(x.w, p).pick.NoPick? ==> p in x.w.procs && Proc(x.w, p).pick.urn in x.w.table.rows)
    && (Proc(x.w, p).pick.Leased? ==>
      var u := Proc(x.w, p).pick.urn;
      && p in x.pulses && x.pulses[p].urn == u
      && x.pulses[p].last <= x.w.now < x.pulses[p].last + r.extend
      && x.w.table.rows[u].res.state.nextSyncAt.Some?
      && x.pulses[p].last + r.extend <= x.w.table.rows[u].res.state.nextSyncAt.value)
  }

  ghost predicate SyncersInv(x: Watched, r: Rules) {
    Exclusive(x.w) && forall p :: HoldsLease(x, p, r)
  }

  ghost predicate Strict(r: Rules) { r.atomic && r.current && r.quiet && r.refresh + r.delay < r.extend }

  /** A step after which every row still being worked on has the next sync it had. */
  predicate LeavesLeases(x: Watched, x': Watched) {
    && x'.w.now == x.w.now && x'.pulses == x.pulses && x.w.procs.Keys <= x'.w.procs.Keys
    && forall p :: p in x'.w.procs ==>
         var now, was := Proc(x'.w, p).pick, Proc(x.w, p).pick;
         && (now == was || now.NoPick?)
         && (!now.NoPick? && now.urn in x.w.table.rows ==>
               && now.urn in x'.w.table.rows
               && x'.w.table.rows[now.urn].res.state.nextSyncAt == x.w.table.rows[now.urn].res.state.nextSyncAt)
  }

  lemma LeavingKeeps(x: Watched, x': Watched, r: Rules)
    requires SyncersInv(x, r) && LeavesLeases(x, x')
    ensures SyncersInv(x', r)
  {
    forall p, q, u | p != q && Works(x'.w, p, u) ensures !Works(x'.w, q, u) {
      assert Works(x.w, p, u);
      assert Works(x'.w, q, u) ==> Works(x.w, q, u);
    }
    forall p ensures HoldsLease(x', p, r) {
      assert HoldsLease(x, p, r);
    }
  }

  lemma RefreshLeaves(x: Watched, p: nat, output: Blob)
    requires Inv(x.w) && CopiesInv(x) && IsCurrent(x, p) && Next(x.w, Refresh(p, output)).Some?
    ensures LeavesLeases(x, Noted(x, Refresh(p, output), Next(x.w, Refresh(p, output)).value))
  {
    hide Inv, CopiesInv, IsCurrent;
    RefreshIsGentle(x, p, output);
  }

  lemma CommitLeaves(x: Watched, s: Step)
    requires s.Commit? && Next(x.w, s).Some? && !BeingSynced(x.w, s.planned.urn)
    ensures LeavesLeases(x, Noted(x, s, Next(x.w, s).value))
  {
    var x' := Noted(x, s, Next(x.w, s).value);
    forall p | p in x'.w.procs && !Proc(x'.w, p).pick.NoPick? ensures Proc(x'.w, p).pick.urn != s.planned.urn {
      assert p in x.w.procs && !Works(x.w, p, s.planned.urn);
    }
  }

  lemma SaveLeaves(x: Watched, s: Step)
    requires s.Save? && Next(x.w, s).Some? && Exclusive(x.w)
    ensures LeavesLeases(x, Noted(x, s, Next(x.w, s).value))
  {
    hide AfterSync;
    var x' := Noted(x, s, Next(x.w, s).value);
    var u := Proc(x.w, s.p).stack[0].urn;
    assert Works(x.w, s.p, u);
    forall p | p in x'.w.procs && !Proc(x'.w, p).pick.NoPick? ensures Proc(x'.w, p).pick.urn != u {
      assert p != s.p && !Works(x.w, p, u);
    }
  }

  lemma LocalLeaves(x: Watched, s: Step)
    requires Next(x.w, s).Some? && (s.Read? || s.Descend? || s.Return? || s.Abort? || s.Insert?)
    ensures LeavesLeases(x, Noted(x, s, Next(x.w, s).value))
  {
  }

  lemma SelectKeeps(x: Watched, s: Step, r: Rules)
    requires s.Select? && Next(x.w, s).Some? && SyncersInv(x, r)
    requires forall p :: p in x.w.procs ==> !x.w.procs[p].pick.Selected?
    ensures SyncersInv(Noted(x, s, Next(x.w, s).value), r)
  {
    var x' := Noted(x, s, Next(x.w, s).value);
    forall p | p != s.p ensures !Works(x.w, p, s.urn) {
      assert HoldsLease(x, p, r);
    }
    forall p, q, u | p != q && Works(x'.w, p, u) ensures !Works(x'.w, q, u) {
      assert p != s.p ==> Works(x.w, p, u);
      assert q != s.p && Works(x'.w, q, u) ==> Works(x.w, q, u);
    }
    forall p ensures HoldsLease(x', p, r) {
      assert HoldsLease(x, p, r);
    }
  }

  /** Extending the lease of a row its holder alone works on. */
  lemma ExtendKeeps(x: Watched, x': Watched, p: nat, u: Urn, r: Rules)
    requires SyncersInv(x, r) && r.extend > 0 && Works(x.w, p, u) && u in x.w.table.rows
    requires x'.w.table == Extend(x.w.table, u, x.w.now + r.extend) && x'.w.now == x.w.now
    requires x'.pulses == x.pulses[p := Pulse(u, x.w.now, true)]
    requires p in x'.w.procs && x.w.procs.Keys <= x'.w.procs.Keys && Proc(x'.w, p).pick == Leased(u)
    requires forall q :: q != p ==> Proc(x'.w, q) == Proc(x.w, q)
    ensures SyncersInv(x', r)
  {
    forall q, v, o | q != o && Works(x'.w, q, v) ensures !Works(x'.w, o, v) {
      assert Works(x.w, q, v);
      assert Works(x'.w, o, v) ==> Works(x.w, o, v);
    }
    forall q ensures HoldsLease(x', q, r) {
      assert HoldsLease(x, q, r);
    }
  }

  /** A beat of a syncer that is gone only makes a lease longer. */
  lemma LateBeatKeeps(x: Watched, x': Watched, p: nat, u: Urn, r: Rules)
    requires SyncersInv(x, r) && p in x.pulses && x.pulses[p].urn == u && Proc(x.w, p).pick != Leased(u)
    requires x'.w == x.w.(table := Extend(x.w.table, u, x.w.now + r.extend))
    requires x'.pulses == x.pulses[p := x.pulses[p].(alive := false)]
    ensures SyncersInv(x', r)
  {
    forall q, v, o | q != o && Works(x'.w, q, v) ensures !Works(x'.w, o, v) {
      assert Works(x.w, q, v);
      assert Works(x'.w, o, v) ==> Works(x.w, o, v);
    }
    forall q ensures HoldsLease(x', q, r) {
      assert HoldsLease(x, q, r);
    }
  }

  lemma TickKeeps(x: Watched, now: int, r: Rules)
    requires SyncersInv(x, r) && Strict(r) && x.w.now <= now && Timely(x, now, r)
    ensures SyncersInv(x.(w := x.w.(now := now)), r)
  {
    var x' := x.(w := x.w.(now := now));
    forall p, q, u | p != q && Works(x'.w, p, u) ensures !Works(x'.w, q, u) {
      assert Works(x.w, p, u);
      assert Works(x'.w, q, u) ==> Works(x.w, q, u);
    }
    forall p ensures HoldsLease(x', p, r) {
      assert HoldsLease(x, p, r);
    }
  }

  lemma DyingKeeps(x: Watched, p: nat, r: Rules)
    requires SyncersInv(x, r) && p in x.pulses
    ensures SyncersInv(x.(pulses := x.pulses[p := x.pulses[p].(alive := false)]), r)
  {
    var x' := x.(pulses := x.pulses[p := x.pulses[p].(alive := false)]);
    forall q ensures HoldsLease(x', q, r) {
      assert HoldsLease(x, q, r);
    }
  }

  lemma MoveKeepsSyncers(x: Watched, m: Move, r: Rules)
    requires Strict(r) && Inv(x.w) && CopiesInv(x) && SyncersInv(x, r) && WatchedNext(x, m, r).Some?
    ensures SyncersInv(WatchedNext(x, m, r).value, r)
  {
    hide Inv, CopiesInv, SyncersInv, LeavesLeases, IsCurrent, Update, Create;
    var x' := WatchedNext(x, m, r).value;
    match m {
      case Dies(p) => DyingKeeps(x, p, r);
      case Beats(p) =>
        var u := x.pulses[p].urn;
        if Proc(x.w, p).pick == Leased(u) {
          HolderWorks(x, p, r);
          ExtendKeeps(x, x', p, u, r);
        } else {
          LateBeatKeeps(x, x', p, u, r);
        }
      case Do(s) =>
        match s {
          case Tick(now) => TickKeeps(x, now, r);
          case Select(_, _) => SelectKeeps(x, s, r);
          case Lease(p, _) =>
            HolderWorks(x, p, r);
            ExtendKeeps(x, x', p, Proc(x.w, p).pick.urn, r);
          case Refresh(p, output) =>
            RefreshLeaves(x, p, output);
            LeavingKeeps(x, x', r);
          case Commit(_, _, _) =>
            CommitLeaves(x, s);
            LeavingKeeps(x, x', r);
          case Save(_, _, _, _) =>
            SyncersExclude(x, r);
            SaveLeaves(x, s);
            LeavingKeeps(x, x', r);
          case _ =>
            LocalLeaves(x, s);
            LeavingKeeps(x, x', r);
        }
    }
  }

  lemma SyncersExclude(x: Watched, r: Rules)
    requires SyncersInv(x, r)
    ensures Exclusive(x.w)
  {
  }

  lemma HolderWorks(x: Watched, p: nat, r: Rules)
    requires SyncersInv(x, r) && !Proc(x.w, p).pick.NoPick?
    ensures p in x.w.procs && Proc(x.w, p).pick.urn in x.w.table.rows && Works(x.w, p, Proc(x.w, p).pick.urn)
  {
    assert HoldsLease(x, p, r);
  }

  lemma {:induction false} RunKeepsSyncers(moves: seq<Move>, r: Rules)
    requires Strict(r) && WatchedRun(moves, r).Some?
    ensures SyncersInv(WatchedRun(moves, r).value, r)
  {
    hide WatchedNext, Inv, CopiesInv;
    if moves != [] {
      var init := moves[..|moves| - 1];
      RunKeepsSyncers(init, r);
      RunCopiesInv(init, r);
      WatchedInv(init, r);
      MoveKeepsSyncers(WatchedRun(init, r).value, moves[|moves| - 1], r);
    }
  }

  ghost predicate AlwaysExclusive(r: Rules) { forall x :: Reaches(r, x) ==> Exclusive(x.w) }

  const PENDING := Sample("old", "a", Pending, Some(0))
  const COMPLETE := Sample("old", "a", Completed, Some(0))

  lemma Inserted(r: Rules, res: Resource)
    requires res.urn == "u" && res.deps == map[] && res.state.IsScheduled()
    ensures Reaches(r, Watched(Created(res), map[], map[], map[0 := []], map[]))
  {
    hide Next, Create;
    CreatedByInsert(res);
    Start(r);
    OneMore(r, BEGIN, Do(Insert(0, res)), Watched(Created(res), map[], map[], map[0 := []], map[]));
  }

  /** One move of a concrete run. */
  lemma Goes(r: Rules, x: Watched, s: Step) returns (x': Watched)
    requires Reaches(r, x) && Next(x.w, s).Some? && Allowed(x, s, r)
    ensures x' == Noted(x, s, Next(x.w, s).value) && Reaches(r, x')
  {
    x' := Noted(x, s, Next(x.w, s).value);
    OneMore(r, x, Do(s), x');
  }

  /** Process 3 holds a copy of the resource. */
  function ReadBy3(res: Resource): Watched {
    Watched(Created(res).(procs := map[0 := IDLE, 3 := IDLE.(stack := [res])]), map[], map[], map[0 := [], 3 := [0]], map[])
  }

  lemma ReachesRead(r: Rules, res: Resource)
    requires res.urn == "u" && res.deps == map[] && res.state.IsScheduled()
    ensures Reaches(r, ReadBy3(res))
  {
    Inserted(r, res);
    var x := Goes(r, Watched(Created(res), map[], map[], map[0 := []], map[]), Read(3, "u"));
    assert x.w.procs == ReadBy3(res).w.procs;
    assert x == ReadBy3(res);
  }

  function SelectedBy1(res: Resource): Watched {
    var x := ReadBy3(res);
    x.(w := x.w.(procs := x.w.procs[1 := IDLE.(pick := Selected("u"))]), seen := x.seen[1 := []])
  }

  lemma ReachesSelected(r: Rules, res: Resource)
    requires res.urn == "u" && res.deps == map[] && res.state.IsScheduled() && res.state.nextSyncAt == Some(0)
    ensures Reaches(r, SelectedBy1(res))
  {
    ReachesRead(r, res);
    var x := Goes(r, ReadBy3(res), Select(1, "u"));
  }

  /** Process 1 leases the resource, with the copy of process 3 still out. */
  function LeasedBy1(res: Resource, extend: nat): Watched {
    var leased := res.(state := res.state.(nextSyncAt := Some(extend)));
    Watched(World(Table(map["u" := Row(0, leased)], [RevisionOf(res, "action:create")], 1),
                  map[0 := IDLE, 3 := IDLE.(stack := [res]), 1 := IDLE.(pick := Leased("u"))], 0),
            map["u" := 1], map[], map[0 := [], 3 := [0], 1 := []], map[1 := Pulse("u", 0, true)])
  }

  lemma LeaseOf1(res: Resource, extend: nat)
    requires res.urn == "u"
    ensures Next(SelectedBy1(res).w, Lease(1, extend)) == Some(LeasedBy1(res, extend).w)
  {
    var w' := Next(SelectedBy1(res).w, Lease(1, extend)).value;
    assert w'.table.rows == LeasedBy1(res, extend).w.table.rows;
    assert w'.procs == LeasedBy1(res, extend).w.procs;
    assert w' == LeasedBy1(res, extend).w;
  }

  lemma ReachesLeased(r: Rules, res: Resource)
    requires res.urn == "u" && res.deps == map[] && res.state.IsScheduled() && res.state.nextSyncAt == Some(0)
    ensures Reaches(r, LeasedBy1(res, r.extend))
  {
    hide Next;
    ReachesSelected(r, res);
    LeaseOf1(res, r.extend);
    var x := Goes(r, SelectedBy1(res), Lease(1, r.extend));
    assert x.changes == LeasedBy1(res, r.extend).changes && x.seen == LeasedBy1(res, r.extend).seen;
    assert x == LeasedBy1(res, r.extend);
  }

  /** Process 2 has selected the resource that process 1 leases. */
  ghost predicate Overlapping(x: Watched) {
    && Proc(x.w, 1) == IDLE.(pick := Leased("u")) && Proc(x.w, 2) == IDLE.(pick := Selected("u"))
    && (forall p :: p != 2 ==> !Proc(x.w, p).pick.Selected?)
    && SampleRow(x.w.table)
  }

  /** The row of the sample resource. */
  predicate SampleRow(t: Table) {
    && "u" in t.rows && t.rows["u"].res.urn == "u" && t.rows["u"].res.deps == map[] && t.rows["u"].res.state.moduleData == ""
  }

  /** Whatever made the row due again, process 2 can pick it while process 1 works on it. */
  lemma PickedAgain(r: Rules, x: Watched) returns (y: Watched)
    requires Reaches(r, x) && Proc(x.w, 1) == IDLE.(pick := Leased("u")) && Proc(x.w, 2) == IDLE && IsDue(x.w.table, "u", x.w.now)
    requires NoneSelected(x.w) && SampleRow(x.w.table)
    ensures Reaches(r, y) && Overlapping(y)
  {
    y := Goes(r, x, Select(2, "u"));
  }

  /** Two selections before either lease. */
  lemma TwoStepPickupOverlaps(r: Rules) returns (x: Watched)
    requires !r.atomic
    ensures Reaches(r, x) && Overlapping(x)
  {
    hide Next, Reaches;
    ReachesSelected(r, PENDING);
    SelectThenLease(SelectedBy1(PENDING).w, r.extend);
    var y := Goes(r, SelectedBy1(PENDING), Select(2, "u"));
    x := Goes(r, y, Lease(1, r.extend));
  }

  lemma SelectThenLease(w: World, extend: nat)
    requires w == SelectedBy1(PENDING).w
    ensures var w1 := Next(w, Select(2, "u"));
      && w1.Some? && (forall p :: p != 2 ==> Proc(w1.value, p) == Proc(w, p))
      && var w2 := Next(w1.value, Lease(1, extend));
      && w2.Some? && Proc(w2.value, 1) == IDLE.(pick := Leased("u")) && Proc(w2.value, 2) == IDLE.(pick := Selected("u"))
      && (forall p :: p != 2 ==> !Proc(w2.value, p).pick.Selected?) && SampleRow(w2.value.table)
  {
  }

  /** A refresh that read before the lease puts the old next sync back: the leased row is due
      again at once, whatever the length of the lease. */
  lemma StaleRefreshOverlaps(r: Rules) returns (x: Watched)
    requires !r.current
    ensures Reaches(r, x) && Overlapping(x)
  {
    hide Next, Reaches;
    ReachesLeased(r, PENDING);
    StaleRefreshIsDue(r.extend);
    var y := Goes(r, LeasedBy1(PENDING, r.extend), Refresh(3, "b"));
    x := PickedAgain(r, y);
  }

  lemma StaleRefreshIsDue(extend: nat)
    ensures var w := Next(LeasedBy1(PENDING, extend).w, Refresh(3, "b"));
      && w.Some? && Proc(w.value, 1) == IDLE.(pick := Leased("u")) && Proc(w.value, 2) == IDLE
      && NoneSelected(w.value) && SampleRow(w.value.table) && IsDue(w.value.table, "u", w.value.now)
  {
    assert PENDING.deps.Values == {};
  }

  /** Nobody is between selecting and leasing. */
  predicate NoneSelected(w: World) { forall p :: p in w.procs ==> !w.procs[p].pick.Selected? }

  /** Process 2 reads the resource and acts on it. */
  ghost predicate ActedOn(x: Watched, planned: Resource, z: Watched) {
    && z.w.now == x.w.now && z.w.procs.Keys == x.w.procs.Keys + {2} && NoneSelected(z.w) && Proc(z.w, 2) == IDLE
    && (forall p :: p != 2 ==> Proc(z.w, p) == Proc(x.w, p) && Seen(z, p) == Seen(x, p))
    && "u" in z.w.table.rows && Agrees(planned, z.w.table.rows["u"].res) && z.w.table.rows["u"].res.urn == "u"
    && z.w.table.rows.Keys == x.w.table.rows.Keys
    && z.w.table.revisions == x.w.table.revisions + [RevisionOf(planned, "action:update")]
    && Count(z.acted, "u") == Count(x.changes, "u") + 1
  }

  lemma ActionCommits(w: World, planned: Resource, reason: string) returns (w1: World, w2: World)
    requires "u" in w.table.rows && Proc(w, 2) == IDLE
    requires var row := w.table.rows["u"].res;
      row.urn == "u" && row.state.status == Completed && Plans(row, planned) && planned.deps == map[]
    ensures Next(w, Read(2, "u")) == Some(w1) && w1 == With(w, 2, IDLE.(stack := [w.table.rows["u"].res]))
    ensures Next(w1, Commit(2, planned, reason)) == Some(w2) && w2.now == w.now && w2.procs == w.procs[2 := IDLE]
    ensures "u" in w2.table.rows && Agrees(planned, w2.table.rows["u"].res) && w2.table.rows["u"].res.urn == "u"
    ensures w2.table.rows.Keys == w.table.rows.Keys
    ensures w2.table.revisions == w.table.revisions + [RevisionOf(planned, reason)]
  {
    assert planned.deps.Values == {};
    w1 := With(w, 2, IDLE.(stack := [w.table.rows["u"].res]));
    w2 := Next(w1, Commit(2, planned, reason)).value;
    assert w2.procs == w.procs[2 := IDLE];
  }

  /** Without the rule, an action read after the lease commits while the resource is synced. */
  lemma ActsWhileSynced(r: Rules, x: Watched, planned: Resource) returns (z: Watched)
    requires !r.quiet && Reaches(r, x) && NoneSelected(x.w) && "u" in x.w.table.rows && Proc(x.w, 2) == IDLE
    requires var row := x.w.table.rows["u"].res;
      row.urn == "u" && row.state.status == Completed && Plans(row, planned) && planned.deps == map[]
    ensures Reaches(r, z) && ActedOn(x, planned, z)
  {
    hide Next, Agrees, Plans, ActedOn;
    var w1, w2 := ActionCommits(x.w, planned, "action:update");
    PlansKeepsUrn(x.w.table.rows["u"].res, planned);
    var y := Goes(r, x, Read(2, "u"));
    z := Goes(r, y, Commit(2, planned, "action:update"));
    hide Reaches, Allowed;
    CommitActs(x, planned, w2);
  }

  lemma CommitActs(x: Watched, planned: Resource, w2: World)
    requires "u" in x.w.table.rows && planned.urn == "u" && NoneSelected(x.w)
    requires w2.now == x.w.now && w2.procs == x.w.procs[2 := IDLE]
    requires "u" in w2.table.rows && Agrees(planned, w2.table.rows["u"].res) && w2.table.rows["u"].res.urn == "u"
    requires w2.table.rows.Keys == x.w.table.rows.Keys
    requires w2.table.revisions == x.w.table.revisions + [RevisionOf(planned, "action:update")]
    ensures var y := Noted(x, Read(2, "u"), With(x.w, 2, IDLE.(stack := [x.w.table.rows["u"].res])));
      ActedOn(x, planned, Noted(y, Commit(2, planned, "action:update"), w2))
  {
    hide Agrees;
  }

  lemma PlansKeepsUrn(cur: Resource, planned: Resource)
    requires Plans(cur, planned)
    ensures planned.urn == cur.urn
  {
  }

  /** A completed resource that is due for another sync accepts actions while it is being
      synced; the action schedules a sync at once. */
  lemma ActionOverlaps(r: Rules) returns (x: Watched)
    requires !r.quiet
    ensures Reaches(r, x) && Overlapping(x)
  {
    hide Next, Reaches;
    ReachesLeased(r, COMPLETE);
    var z := ActsWhileSynced(r, LeasedBy1(COMPLETE, r.extend), PENDING);
    x := PickedAgain(r, z);
  }

  /** A beat that may land as late as the lease ends. */
  lemma LateBeatOverlaps(r: Rules) returns (x: Watched)
    requires r.refresh + r.delay >= r.extend
    ensures Reaches(r, x) && Overlapping(x)
  {
    hide Reaches;
    ReachesLeased(r, PENDING);
    var y := Goes(r, LeasedBy1(PENDING, r.extend), Tick(r.extend));
    x := PickedAgain(r, y);
  }

  /** Each of the four rules is needed, whatever the others. */
  lemma SomeOverlap(r: Rules) returns (x: Watched)
    requires !Strict(r)
    ensures Reaches(r, x) && Overlapping(x)
  {
    if !r.atomic {
      x := TwoStepPickupOverlaps(r);
    } else if !r.current {
      x := StaleRefreshOverlaps(r);
    } else if !r.quiet {
      x := ActionOverlaps(r);
    } else {
      x := LateBeatOverlaps(r);
    }
  }

  /** One syncer to a resource, exactly: it takes a pickup in one step, no stale write-back,
      no action on a resource that is being synced, and beats that always land before the
      lease ends. Each of the four is needed, whatever the others. */
  lemma ExclusiveIff(r: Rules)
    ensures AlwaysExclusive(r) <==> Strict(r)
  {
    if Strict(r) {
      forall x | Reaches(r, x) ensures Exclusive(x.w) {
        var moves :| WatchedRun(moves, r) == Some(x);
        RunKeepsSyncers(moves, r);
      }
    } else {
      var x := SomeOverlap(r);
      assert Works(x.w, 1, "u") && Works(x.w, 2, "u");
      assert !Exclusive(x.w);
    }
  }

  /** With the other rules kept and beats on time, the condition checked when the store is
      opened is the right one. */
  lemma OpenChecksWhatItTakes(based: bool, refresh: nat, extend: nat)
    ensures AlwaysExclusive(Rules(true, true, true, based, refresh, 0, extend)) <==> refresh < extend
  {
    ExclusiveIff(Rules(true, true, true, based, refresh, 0, extend));
  }

  // ------------------------------------------------------------ no action lost

  ghost predicate RefreshesHarmless(r: Rules) {
    forall x, p, output :: Reaches(r, x) && WatchedNext(x, Do(Refresh(p, output)), r).Some? ==>
      OnlyOutput(x.w.table, WatchedNext(x, Do(Refresh(p, output)), r).value.w.table, Top(Proc(x.w, p).stack).urn)
  }

  const IDLE_SINCE := Sample("old", "a", Completed, None)

  /** Process 2 commits an action while process 3 holds a copy from before it. */
  function CommittedBy2(planned: Resource): Watched {
    Watched(World(Table(map["u" := Row(0, planned)], [RevisionOf(IDLE_SINCE, "action:create"), RevisionOf(planned, "action:update")], 1),
                  map[0 := IDLE, 3 := IDLE.(stack := [IDLE_SINCE]), 2 := IDLE], 0),
            map["u" := 1], map["u" := 1], map[0 := [], 3 := [0], 2 := []], map[])
  }

  lemma CommitOf2(planned: Resource)
    requires planned == Sample(planned.configs, "a", Pending, Some(0))
    ensures var x := ReadBy3(IDLE_SINCE);
      var w := With(x.w, 2, IDLE.(stack := [IDLE_SINCE]));
      Next(x.w, Read(2, "u")) == Some(w) && Next(w, Commit(2, planned, "action:update")) == Some(CommittedBy2(planned).w)
  {
    var x := ReadBy3(IDLE_SINCE);
    var w := With(x.w, 2, IDLE.(stack := [IDLE_SINCE]));
    assert planned.deps.Values == {};
    var w' := Next(w, Commit(2, planned, "action:update")).value;
    assert w'.table.rows == CommittedBy2(planned).w.table.rows;
    assert w'.procs == CommittedBy2(planned).w.procs;
    assert w' == CommittedBy2(planned).w;
  }

  lemma ReachesCommitted(r: Rules, planned: Resource)
    requires planned == Sample(planned.configs, "a", Pending, Some(0))
    ensures Reaches(r, CommittedBy2(planned))
  {
    hide Next, Reaches;
    ReachesRead(r, IDLE_SINCE);
    CommitOf2(planned);
    var x := Goes(r, ReadBy3(IDLE_SINCE), Read(2, "u"));
    hide ReadBy3;
    var y := Goes(r, x, Commit(2, planned, "action:update"));
    assert y.changes == CommittedBy2(planned).changes && y.seen == CommittedBy2(planned).seen;
    assert y == CommittedBy2(planned);
  }

  /** The stale refresh after such a commit: the row is back to what it was, but the revision
      stays. */
  lemma RefreshUndoes(r: Rules, planned: Resource) returns (x: Watched)
    requires !r.current && planned == Sample(planned.configs, "a", Pending, Some(0))
    ensures Next(CommittedBy2(planned).w, Refresh(3, "b")).Some?
    ensures x.w == Next(CommittedBy2(planned).w, Refresh(3, "b")).value && Reaches(r, x)
    ensures WatchedNext(CommittedBy2(planned), Do(Refresh(3, "b")), r) == Some(x)
    ensures x.w.table.revisions == CommittedBy2(planned).w.table.revisions
    ensures "u" in x.w.table.rows && x.w.table.rows.Keys == {"u"}
    ensures var res := x.w.table.rows["u"].res;
      && res.configs == "old" && res.labels == map[] && res.state.status == Completed && res.state.nextSyncAt.None?
  {
    ReachesCommitted(r, planned);
    assert IDLE_SINCE.deps.Values == {};
    x := Goes(r, CommittedBy2(planned), Refresh(3, "b"));
  }

  lemma LatestOfTwo(a: Revision, b: Revision)
    requires b.urn == "u"
    ensures LatestRevision([a, b], "u") == Some(b)
  {
  }

  /** The accepted action is recorded and the row agrees with its latest revision, and yet the
      action is lost: the row is complete, with no sync to come. */
  ghost predicate ActionDropped(t: Table) {
    && "u" in t.rows && Recorded(t) && |t.revisions| == 2 && t.revisions[1].urn == "u"
    && t.rows["u"].res.state.status == Completed && t.rows["u"].res.state.nextSyncAt.None?
  }

  /** That happens when the action changes no configuration, such as a reset to the offset
      already stored, and a refresh read before it. */
  lemma RefreshCanDropAnAction(r: Rules)
    requires !r.current
    ensures exists x :: Reaches(r, x) && ActionDropped(x.w.table)
  {
    hide Next;
    var x := RefreshUndoes(r, PENDING);
    LatestOfTwo(RevisionOf(IDLE_SINCE, "action:create"), RevisionOf(PENDING, "action:update"));
    assert ActionDropped(x.w.table);
  }

  /** Refreshes are harmless in every run exactly when none writes back a copy that its row
      has moved on from. */
  lemma RefreshesHarmlessIff(r: Rules)
    ensures RefreshesHarmless(r) <==> r.current
  {
    if r.current {
      forall x, p, output | Reaches(r, x) && WatchedNext(x, Do(Refresh(p, output)), r).Some?
        ensures OnlyOutput(x.w.table, WatchedNext(x, Do(Refresh(p, output)), r).value.w.table, Top(Proc(x.w, p).stack).urn)
      {
        var moves :| WatchedRun(moves, r) == Some(x);
        RefreshesAreHarmless(moves, r, p, output);
      }
    } else {
      hide Next, WatchedNext;
      ReachesCommitted(r, PENDING);
      var before := CommittedBy2(PENDING);
      var x := RefreshUndoes(r, PENDING);
      assert !OnlyOutput(before.w.table, x.w.table, Top(Proc(before.w, 3).stack).urn);
    }
  }

  // ------------------------------------------------------------ rows and revisions

  /** What a syncer picked is a row, and the copy it works from still has the row's
      configuration and labels. */
  predicate HolderFits(t: Table, proc: Process) {
    && (!proc.pick.NoPick? ==> proc.pick.urn in t.rows)
    && (proc.pick.Leased? && proc.stack != [] && proc.stack[0].urn == proc.pick.urn ==>
          proc.stack[0].configs == t.rows[proc.pick.urn].res.configs && proc.stack[0].labels == t.rows[proc.pick.urn].res.labels)
  }

  ghost predicate RecordedInv(x: Watched) {
    Recorded(x.w.table) && forall p :: HolderFits(x.w.table, Proc(x.w, p))
  }

  predicate SameConfigs(t: Table, t': Table) {
    && t'.rows.Keys == t.rows.Keys && t'.revisions == t.revisions
    && forall u :: u in t.rows ==> t'.rows[u].res.configs == t.rows[u].res.configs && t'.rows[u].res.labels == t.rows[u].res.labels
  }

  lemma SameConfigsRecorded(t: Table, t': Table)
    requires Recorded(t) && SameConfigs(t, t')
    ensures Recorded(t')
  {
    hide LatestRevision;
  }

  lemma CommitRecorded(t: Table, r: Resource, now: int, reason: string)
    requires Recorded(t) && Update(t, r, now, true, reason).Ok?
    ensures Recorded(Update(t, r, now, true, reason).value)
  {
    forall u { AppendedRevision(t.revisions, RevisionOf(r, reason), u); }
    hide LatestRevision;
  }

  lemma InsertRecorded(t: Table, r: Resource)
    requires Recorded(t) && Create(t, r).Ok?
    ensures Recorded(Create(t, r).value)
  {
    forall u { AppendedRevision(t.revisions, RevisionOf(r, "action:create"), u); }
    hide LatestRevision;
  }

  /** Every step but an insert or a commit leaves configurations and labels alone. */
  lemma StepSpecs(x: Watched, s: Step)
    requires Inv(x.w) && CopiesInv(x) && RecordedInv(x) && Next(x.w, s).Some?
    requires !s.Insert? && !s.Commit? && (s.Refresh? ==> IsCurrent(x, s.p))
    ensures SameConfigs(x.w.table, Next(x.w, s).value.table)
  {
    hide Inv, CopiesInv, IsCurrent, Recorded, AfterSync, Agrees;
    match s {
      case Refresh(p, output) => RefreshConfigs(x, p, output);
      case Save(p, _, _, _) =>
        assert HolderFits(x.w.table, Proc(x.w, p));
        SaveConfigs(x.w, s);
      case _ =>
    }
  }

  lemma RefreshConfigs(x: Watched, p: nat, output: Blob)
    requires Inv(x.w) && CopiesInv(x) && IsCurrent(x, p) && Next(x.w, Refresh(p, output)).Some?
    ensures SameConfigs(x.w.table, Next(x.w, Refresh(p, output)).value.table)
  {
    hide Inv, CopiesInv, IsCurrent, Next, Gentle;
    RefreshIsGentle(x, p, output);
  }

  lemma SaveConfigs(w: World, s: Step)
    requires s.Save? && Next(w, s).Some? && HolderFits(w.table, Proc(w, s.p))
    ensures SameConfigs(w.table, Next(w, s).value.table)
  {
    hide AfterSync;
  }

  lemma HolderStable(t: Table, t': Table, proc: Process)
    requires HolderFits(t, proc) && SameConfigs(t, t')
    ensures HolderFits(t', proc)
  {
  }

  lemma OtherProc(w: World, s: Step, p: nat)
    requires Next(w, s).Some? && (s.Tick? || s.Beat? || p != s.p)
    ensures Proc(Next(w, s).value, p) == Proc(w, p)
  {
  }

  lemma MoverHolds(w: World, s: Step)
    requires Inv(w) && Next(w, s).Some? && !s.Tick? && !s.Beat? && HolderFits(w.table, Proc(w, s.p))
    requires SameConfigs(w.table, Next(w, s).value.table)
    ensures HolderFits(Next(w, s).value.table, Proc(Next(w, s).value, s.p))
  {
    hide Inv, Update, AfterSync, Extend, Create;
    match s {
      case Read(p, u) => RowKeys(w, u);
      case _ =>
    }
  }

  lemma SpecStepKeeps(x: Watched, s: Step)
    requires Inv(x.w) && CopiesInv(x) && RecordedInv(x) && Next(x.w, s).Some?
    requires !s.Insert? && !s.Commit? && (s.Refresh? ==> IsCurrent(x, s.p))
    ensures RecordedInv(Noted(x, s, Next(x.w, s).value))
  {
    hide Inv, CopiesInv, Recorded, HolderFits, Next, IsCurrent, SameConfigs, Noted;
    var w' := Next(x.w, s).value;
    StepSpecs(x, s);
    SameConfigsRecorded(x.w.table, w'.table);
    NotedWorld(x, s, w');
    forall p ensures HolderFits(w'.table, Proc(w', p)) {
      if s.Tick? || s.Beat? || p != s.p {
        OtherProc(x.w, s, p);
        HolderStable(x.w.table, w'.table, Proc(x.w, p));
      } else {
        MoverHolds(x.w, s);
      }
    }
  }

  lemma InsertKeeps(x: Watched, s: Step)
    requires RecordedInv(x) && s.Insert? && Next(x.w, s).Some?
    ensures RecordedInv(Noted(x, s, Next(x.w, s).value))
  {
    hide Recorded;
    var w' := Next(x.w, s).value;
    InsertRecorded(x.w.table, s.res);
    forall p ensures HolderFits(w'.table, Proc(w', p)) {
      assert HolderFits(x.w.table, Proc(x.w, p));
    }
  }

  lemma CommitKeeps(x: Watched, s: Step)
    requires RecordedInv(x) && s.Commit? && Next(x.w, s).Some? && !BeingSynced(x.w, s.planned.urn)
    ensures RecordedInv(Noted(x, s, Next(x.w, s).value))
  {
    hide Recorded;
    var w' := Next(x.w, s).value;
    CommitRecorded(x.w.table, s.planned, x.w.now, s.reason);
    forall p ensures HolderFits(w'.table, Proc(w', p)) {
      assert HolderFits(x.w.table, Proc(x.w, p));
      if p != s.p && Proc(x.w, p).pick.Leased? {
        assert p in x.w.procs && !Works(x.w, p, s.planned.urn);
      }
    }
  }

  lemma MoveKeepsRecorded(x: Watched, m: Move, r: Rules)
    requires r.current && r.quiet && Inv(x.w) && CopiesInv(x) && RecordedInv(x) && WatchedNext(x, m, r).Some?
    ensures RecordedInv(WatchedNext(x, m, r).value)
  {
    hide Inv, CopiesInv, RecordedInv, Next, Noted, IsCurrent, BeingSynced;
    match m {
      case Dies(p) => SameWorldRecorded(x, WatchedNext(x, m, r).value);
      case Beats(p) =>
        var s := Beat(x.pulses[p].urn, r.extend);
        BeatIsPossible(x.w, x.pulses[p].urn, r.extend);
        SpecStepKeeps(x, s);
        SameWorldRecorded(Noted(x, s, Next(x.w, s).value), WatchedNext(x, m, r).value);
      case Do(s) =>
        if s.Insert? {
          InsertKeeps(x, s);
        } else if s.Commit? {
          CommitKeeps(x, s);
        } else {
          SpecStepKeeps(x, s);
        }
    }
  }

  lemma SameWorldRecorded(x: Watched, x': Watched)
    requires RecordedInv(x) && x'.w == x.w
    ensures RecordedInv(x')
  {
  }

  lemma {:induction false} RunKeepsRecorded(moves: seq<Move>, r: Rules)
    requires r.current && r.quiet && WatchedRun(moves, r).Some?
    ensures RecordedInv(WatchedRun(moves, r).value)
  {
    hide WatchedNext, Inv, CopiesInv;
    if moves != [] {
      var init := moves[..|moves| - 1];
      RunKeepsRecorded(init, r);
      RunCopiesInv(init, r);
      WatchedInv(init, r);
      MoveKeepsRecorded(WatchedRun(init, r).value, moves[|moves| - 1], r);
    }
  }

  ghost predicate AlwaysRecorded(r: Rules) { forall x :: Reaches(r, x) ==> Recorded(x.w.table) }

  lemma StaleRefreshLosesConfig(r: Rules)
    requires !r.current
    ensures !AlwaysRecorded(r)
  {
    hide Next;
    var planned := Sample("new", "a", Pending, Some(0));
    var x := RefreshUndoes(r, planned);
    LatestOfTwo(RevisionOf(IDLE_SINCE, "action:create"), RevisionOf(planned, "action:update"));
    assert !Recorded(x.w.table);
  }

  /** Process 1 has read the resource it leases. */
  function WorkedOnBy1(extend: nat): Watched {
    var x := LeasedBy1(COMPLETE, extend);
    var row := x.w.table.rows["u"].res;
    x.(w := x.w.(procs := x.w.procs[1 := Process([row], {}, Leased("u"))]), seen := x.seen[1 := [1]])
  }

  lemma ReachesWorkedOn(r: Rules)
    ensures Reaches(r, WorkedOnBy1(r.extend))
  {
    ReachesLeased(r, COMPLETE);
    var y := Goes(r, LeasedBy1(COMPLETE, r.extend), Read(1, "u"));
    assert y.w.procs == WorkedOnBy1(r.extend).w.procs && y.seen == WorkedOnBy1(r.extend).seen;
    assert y == WorkedOnBy1(r.extend);
  }

  /** An action that commits while a syncer works from an older copy is undone by its save. */
  lemma SaveLosesConfig(r: Rules)
    requires !r.quiet
    ensures !AlwaysRecorded(r)
  {
    hide Next, Reaches;
    var planned := Sample("new", "a", Pending, Some(0));
    var x := WorkedOnBy1(r.extend);
    ReachesWorkedOn(r);
    var z := ActsWhileSynced(r, x, planned);
    SaveAfterCommit(r, z, planned, x.w.procs[1].stack[0]);
  }

  lemma SaveAfterCommit(r: Rules, z: Watched, planned: Resource, copy: Resource)
    requires Reaches(r, z) && NoneSelected(z.w)
    requires Proc(z.w, 1).stack == [copy] && Proc(z.w, 1).pick == Leased("u") && copy.urn == "u" && copy.configs == "old" && copy.deps == map[]
    requires "u" in z.w.table.rows && planned.urn == "u" && planned.configs == "new"
    requires |z.w.table.revisions| == 2 && z.w.table.revisions[1] == RevisionOf(planned, "action:update")
    ensures !AlwaysRecorded(r)
  {
    assert copy.deps.Values == {};
    var last := Goes(r, z, Save(1, Ok(State(Completed, "", "", None, NO_SYNC_RESULT)), 0, 0));
    assert last.w.table.revisions == [z.w.table.revisions[0], z.w.table.revisions[1]];
    LatestOfTwo(z.w.table.revisions[0], z.w.table.revisions[1]);
    assert last.w.table.rows["u"].res.configs == "old";
    assert !Recorded(last.w.table);
  }

  /** Rows equal their latest revisions in every run exactly when no stale output is written
      back and no action commits on a resource that is being synced; how syncers are picked,
      and how late their beats are, does not matter. */
  lemma RecordedIff(r: Rules)
    ensures AlwaysRecorded(r) <==> r.current && r.quiet
  {
    if r.current && r.quiet {
      forall x | Reaches(r, x) ensures Recorded(x.w.table) {
        var moves :| WatchedRun(moves, r) == Some(x);
        RunKeepsRecorded(moves, r);
      }
    } else if !r.current {
      StaleRefreshLosesConfig(r);
    } else {
      SaveLosesConfig(r);
    }
  }
}
