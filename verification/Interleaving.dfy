/** The orchestrator with its reads and its whole-row writes as separate steps: any number of
    API calls, syncers and heartbeats interleave, so a write may carry a stale copy.
    Sources: core/read.go, core/write.go, core/sync.go, internal/store/postgres/resource_store.go. */
module Interleaving {
  import opened Text
  import opened Resources
  import opened Syncing
  import opened CoreService
  import opened Traces

  /** How far a syncer has got with picking a resource. */
  datatype Pick = NoPick | Selected(urn: Urn) | Leased(urn: Urn)

  /** A call in progress: the copies its nested GetResource calls hold, outermost first, the
      dependencies it has resolved, and what its syncer has picked. */
  datatype Process = Process(stack: seq<Resource>, resolved: set<Resource>, pick: Pick)

  const IDLE := Process([], {}, NoPick)

  datatype World = World(table: Table, procs: map<nat, Process>, now: int)

  const START := World(EMPTY_TABLE, map[], 0)

  function Proc(w: World, p: nat): Process { if p in w.procs then w.procs[p] else IDLE }

  /** The backoff of a save counts from the write. The code adds its own to the time the driver
      answered, so it can be less here, even negative. */
  datatype Step =
    | Tick(now: int)
    | Read(p: nat, urn: Urn)
    | Descend(p: nat, key: string)
    | Refresh(p: nat, output: Blob)
    | Return(p: nat)
    | Abort(p: nat)
    | Insert(p: nat, res: Resource)
    | Commit(p: nat, planned: Resource, reason: string)
    | Select(p: nat, urn: Urn)
    | Lease(p: nat, extend: nat)
    | Beat(urn: Urn, extend: nat)
    | Save(p: nat, answer: Result<State<Blob, Blob>>, maxRetries: nat, backoff: int)

  function With(w: World, p: nat, proc: Process): World { w.(procs := w.procs[p := proc]) }

  /** The state after a write, if the transaction succeeds. */
  function Wrote(w: World, t: Result<Table>, p: nat, proc: Process): Option<World> {
    if t.Ok? then Some(With(w.(table := t.value), p, proc)) else None
  }

  predicate Plans(cur: Resource, planned: Resource) {
    && planned.urn == cur.urn && planned.kind == cur.kind && planned.name == cur.name && planned.project == cur.project
    && (forall k :: k in planned.deps ==> k in cur.deps && planned.deps[k] == cur.deps[k])
    && planned.state.IsScheduled()
  }

  predicate IsDue(t: Table, u: Urn, now: int) {
    u in t.rows && t.rows[u].res.state.nextSyncAt.Some? && t.rows[u].res.state.nextSyncAt.value <= now
  }

  /** None where the step is not possible. */
  ghost function Next(w: World, s: Step): Option<World> {
    match s
    case Tick(now) =>
      if w.now <= now then Some(w.(now := now)) else None
    case Read(p, urn) =>
      if Proc(w, p).stack == [] && urn in w.table.rows && !Proc(w, p).pick.Selected? then
        Some(With(w, p, Proc(w, p).(stack := [w.table.rows[urn].res])))
      else None
    case Descend(p, key) =>
      var stack := Proc(w, p).stack;
      if stack != [] && key in Top(stack).deps && Top(stack).deps[key] in w.table.rows then
        Some(With(w, p, Proc(w, p).(stack := stack + [w.table.rows[Top(stack).deps[key]].res])))
      else None
    case Refresh(p, output) =>
      var stack := Proc(w, p).stack;
      if stack == [] then None else
      var r := Top(stack).(state := Top(stack).state.(output := output));
      Wrote(w, Update(w.table, r, w.now, false, ""), p, Proc(w, p).(stack := Pop(stack) + [r]))
    case Return(p) =>
      var proc := Proc(w, p);
      if proc.stack == [] then None
      else Some(With(w, p, proc.(stack := Pop(proc.stack), resolved := proc.resolved + {Top(proc.stack)})))
    case Abort(p) =>
      Some(With(w, p, IDLE))
    case Insert(p, res) =>
      if Proc(w, p).stack == [] && Proc(w, p).pick.NoPick? && res.state.IsScheduled() && forall k :: k in res.deps ==> Accepts(Proc(w, p).resolved, res, res.deps[k]) then
        Wrote(w, Create(w.table, res), p, IDLE)
      else None
    case Commit(p, planned, reason) =>
      var stack := Proc(w, p).stack;
      if |stack| == 1 && Proc(w, p).pick.NoPick? && stack[0].state.IsTerminal() && Plans(stack[0], planned) then
        Wrote(w, Update(w.table, planned, w.now, true, reason), p, IDLE)
      else None
    case Select(p, urn) =>
      if Proc(w, p) == IDLE && IsDue(w.table, urn, w.now) then Some(With(w, p, IDLE.(pick := Selected(urn)))) else None
    case Lease(p, extend) =>
      var pick := Proc(w, p).pick;
      if pick.Selected? then
        Some(With(w.(table := Extend(w.table, pick.urn, w.now + extend)), p, IDLE.(pick := Leased(pick.urn))))
      else None
    case Beat(urn, extend) =>
      Some(w.(table := Extend(w.table, urn, w.now + extend)))
    case Save(p, answer, maxRetries, backoff) =>
      var proc := Proc(w, p);
      if |proc.stack| == 1 && proc.pick == Leased(proc.stack[0].urn) && (answer.Ok? ==> answer.value.IsScheduled()) then
        var r := proc.stack[0].(state := AfterSync(proc.stack[0].state, answer, maxRetries, w.now + backoff));
        Wrote(w, Update(w.table, r, w.now, false, "sync"), p, IDLE)
      else None
  }

  ghost function Run(w: World, steps: seq<Step>): Option<World> {
    if steps == [] then Some(w)
    else
      match Run(w, steps[..|steps| - 1])
      case None => None
      case Some(w') => Next(w', steps[|steps| - 1])
  }

  // ------------------------------------------------------------------- invariant

  /** Configuration and labels were once recorded together for this resource. */
  ghost predicate FromRevision(revs: seq<Revision>, r: Resource) {
    exists rev :: rev in revs && rev.urn == r.urn && rev.configs == r.configs && rev.labels == r.labels
  }

  ghost predicate TableInv(t: Table) {
    Ordered(t) && Scheduled(t) && forall u :: u in t.rows ==> FromRevision(t.revisions, t.rows[u].res)
  }

  /** A copy, however stale, of an existing row. */
  ghost predicate CopyInv(t: Table, s: Resource) {
    && s.urn in t.rows
    && s.project == t.rows[s.urn].res.project
    && DepsBelow(t, s.project, s.deps, t.rows[s.urn].id)
    && s.state.IsScheduled()
    && FromRevision(t.revisions, s)
  }

  /** Nested calls go to resources inserted earlier and earlier. */
  ghost predicate Nested(t: Table, stack: seq<Resource>) {
    && (forall i :: 0 <= i < |stack| ==> CopyInv(t, stack[i]))
    && (forall i, j :: 0 <= i < j < |stack| ==> t.rows[stack[j].urn].id < t.rows[stack[i].urn].id)
  }

  ghost predicate ProcInv(t: Table, proc: Process) {
    Nested(t, proc.stack) && forall s :: s in proc.resolved ==> CopyInv(t, s)
  }

  ghost predicate Inv(w: World) {
    TableInv(w.table) && forall p :: p in w.procs ==> ProcInv(w.table, w.procs[p])
  }

  // ---------------------------------------------------------------- preservation

  ghost predicate Grows(t: Table, t': Table) {
    SameIdentities(t, t') && t.revisions <= t'.revisions
  }

  lemma CopyStable(t: Table, t': Table, s: Resource)
    requires CopyInv(t, s) && Grows(t, t')
    ensures CopyInv(t', s)
  {
    DepsBelowStable(t, t', s.project, s.deps, t.rows[s.urn].id);
    var rev :| rev in t.revisions && rev.urn == s.urn && rev.configs == s.configs && rev.labels == s.labels;
    assert rev in t'.revisions;
  }

  lemma ProcStable(t: Table, t': Table, proc: Process)
    requires ProcInv(t, proc) && Grows(t, t')
    ensures ProcInv(t', proc)
  {
    hide CopyInv;
    forall i | 0 <= i < |proc.stack| { CopyStable(t, t', proc.stack[i]); }
    forall s | s in proc.resolved { CopyStable(t, t', s); }
    assert forall i :: 0 <= i < |proc.stack| ==> proc.stack[i].urn in t.rows by { KnownCopies(t, proc.stack); }
  }

  lemma KnownCopies(t: Table, stack: seq<Resource>)
    requires forall i :: 0 <= i < |stack| ==> CopyInv(t, stack[i])
    ensures forall i :: 0 <= i < |stack| ==> stack[i].urn in t.rows
  {
  }

  lemma ProcOf(w: World, p: nat)
    requires Inv(w)
    ensures ProcInv(w.table, Proc(w, p))
  {
  }

  /** It is enough to look at the table and at the process that moved. */
  lemma WithInv(w: World, t': Table, p: nat, proc: Process)
    requires Inv(w) && Grows(w.table, t') && TableInv(t') && ProcInv(t', proc)
    ensures Inv(With(w.(table := t'), p, proc))
  {
    forall q | q in w.procs { ProcStable(w.table, t', w.procs[q]); }
  }

  lemma GrowsReflexive(t: Table)
    ensures Grows(t, t)
  {
  }

  /** Writing a copy over its row. */
  lemma WriteInv(t: Table, r: Resource, now: int, saveRevision: bool, reason: string)
    requires TableInv(t) && Update(t, r, now, saveRevision, reason).Ok?
    requires DepsBelow(t, t.rows[r.urn].res.project, r.deps, t.rows[r.urn].id) && r.state.IsScheduled()
    requires saveRevision || FromRevision(t.revisions, r)
    ensures var t' := Update(t, r, now, saveRevision, reason).value; TableInv(t') && Grows(t, t')
  {
    UpdateKeepsOrder(t, r, now, saveRevision, reason);
    var t' := Update(t, r, now, saveRevision, reason).value;
    forall u | u in t'.rows ensures FromRevision(t'.revisions, t'.rows[u].res) {
      if u == r.urn {
        if saveRevision {
          assert RevisionOf(r, reason) in t'.revisions;
        }
      } else {
        assert FromRevision(t.revisions, t.rows[u].res);
        var rev :| rev in t.revisions && rev.urn == u && rev.configs == t.rows[u].res.configs && rev.labels == t.rows[u].res.labels;
        assert rev in t'.revisions;
      }
    }
  }

  lemma ExtendInv(t: Table, u: Urn, until: int)
    requires TableInv(t)
    ensures TableInv(Extend(t, u, until)) && Grows(t, Extend(t, u, until))
  {
    ExtendKeepsOrder(t, u, until);
    var t' := Extend(t, u, until);
    forall v | v in t'.rows ensures FromRevision(t'.revisions, t'.rows[v].res) {
      assert FromRevision(t.revisions, t.rows[v].res);
    }
  }

  lemma RowIsCopy(t: Table, u: Urn)
    requires TableInv(t) && u in t.rows
    ensures CopyInv(t, t.rows[u].res) && t.rows[u].res.urn == u
  {
  }

  lemma InsertInv(w: World, p: nat, res: Resource)
    requires Inv(w) && Next(w, Insert(p, res)).Some?
    ensures Inv(Next(w, Insert(p, res)).value)
  {
    var t := w.table;
    var t' := Create(t, res).value;
    forall k | k in res.deps ensures res.deps[k] in t.rows && t.rows[res.deps[k]].res.project == res.project && t.rows[res.deps[k]].id < t.nextId {
      assert Accepts(Proc(w, p).resolved, res, res.deps[k]);
      var s :| s in Proc(w, p).resolved && s.urn == res.deps[k] && s.state.status == Completed && s.project == res.project;
      ProcOf(w, p);
      assert CopyInv(t, s);
    }
    CreateKeepsOrder(t, res);
    forall u | u in t'.rows ensures FromRevision(t'.revisions, t'.rows[u].res) {
      if u == res.urn {
        assert RevisionOf(res, "action:create") in t'.revisions;
      } else {
        assert FromRevision(t.revisions, t.rows[u].res);
        var rev :| rev in t.revisions && rev.urn == u && rev.configs == t.rows[u].res.configs && rev.labels == t.rows[u].res.labels;
        assert rev in t'.revisions;
      }
    }
    WithInv(w, t', p, IDLE);
  }

  lemma DescendInv(w: World, p: nat, key: string)
    requires Inv(w) && Next(w, Descend(p, key)).Some?
    ensures Inv(Next(w, Descend(p, key)).value)
  {
    var proc := Proc(w, p);
    ProcOf(w, p);
    var d := Top(proc.stack).deps[key];
    assert CopyInv(w.table, Top(proc.stack));
    RowIsCopy(w.table, d);
    var stack := proc.stack + [w.table.rows[d].res];
    forall i, j | 0 <= i < j < |stack| ensures w.table.rows[stack[j].urn].id < w.table.rows[stack[i].urn].id {
      if j == |stack| - 1 && i < j - 1 {
        assert w.table.rows[Top(proc.stack).urn].id < w.table.rows[stack[i].urn].id;
      }
    }
    GrowsReflexive(w.table);
    WithInv(w, w.table, p, proc.(stack := stack));
  }

  lemma CopyWithState(t: Table, s: Resource, state: State<Blob, Blob>)
    requires CopyInv(t, s) && state.IsScheduled()
    ensures CopyInv(t, s.(state := state))
  {
    assert FromRevision(t.revisions, s.(state := state));
  }

  /** Writing a copy back keeps the table sound; it may well not be current. */
  lemma WriteCopy(t: Table, s: Resource, now: int, reason: string)
    requires TableInv(t) && CopyInv(t, s) && Update(t, s, now, false, reason).Ok?
    ensures var t' := Update(t, s, now, false, reason).value; TableInv(t') && Grows(t, t') && CopyInv(t', s)
  {
    WriteInv(t, s, now, false, reason);
    CopyStable(t, Update(t, s, now, false, reason).value, s);
  }

  lemma ReplaceTop(t: Table, proc: Process, r: Resource)
    requires ProcInv(t, proc) && proc.stack != [] && CopyInv(t, r) && r.urn == Top(proc.stack).urn
    ensures ProcInv(t, proc.(stack := Pop(proc.stack) + [r]))
  {
    var stack := Pop(proc.stack) + [r];
    assert forall i :: 0 <= i < |stack| ==> stack[i].urn == proc.stack[i].urn;
  }

  lemma RefreshInv(w: World, p: nat, output: Blob)
    requires Inv(w) && Next(w, Refresh(p, output)).Some?
    ensures Inv(Next(w, Refresh(p, output)).value)
  {
    hide CopyInv, FromRevision, Grows, Update;
    var proc := Proc(w, p);
    ProcOf(w, p);
    var top := Top(proc.stack);
    assert top.state.IsScheduled() by { CopyParts(w.table, top); }
    var r := top.(state := top.state.(output := output));
    CopyWithState(w.table, top, r.state);
    WriteCopy(w.table, r, w.now, "");
    var t' := Update(w.table, r, w.now, false, "").value;
    ProcStable(w.table, t', proc);
    ReplaceTop(t', proc, r);
    WithInv(w, t', p, proc.(stack := Pop(proc.stack) + [r]));
  }

  lemma CopyParts(t: Table, s: Resource)
    requires CopyInv(t, s)
    ensures s.urn in t.rows && s.state.IsScheduled() && s.project == t.rows[s.urn].res.project
    ensures DepsBelow(t, s.project, s.deps, t.rows[s.urn].id)
  {
  }

  lemma CommitInv(w: World, p: nat, planned: Resource, reason: string)
    requires Inv(w) && Next(w, Commit(p, planned, reason)).Some?
    ensures Inv(Next(w, Commit(p, planned, reason)).value)
  {
    ProcOf(w, p);
    var cur := Proc(w, p).stack[0];
    assert CopyInv(w.table, cur);
    WriteInv(w.table, planned, w.now, true, reason);
    WithInv(w, Update(w.table, planned, w.now, true, reason).value, p, IDLE);
  }

  lemma SaveInv(w: World, p: nat, answer: Result<State<Blob, Blob>>, maxRetries: nat, backoff: int)
    requires Inv(w) && Next(w, Save(p, answer, maxRetries, backoff)).Some?
    ensures Inv(Next(w, Save(p, answer, maxRetries, backoff)).value)
  {
    hide CopyInv, FromRevision, Grows, Update, AfterSync;
    ProcOf(w, p);
    var cur := Proc(w, p).stack[0];
    CopyParts(w.table, cur);
    AfterSyncScheduled(cur.state, answer, maxRetries, w.now + backoff);
    var r := cur.(state := AfterSync(cur.state, answer, maxRetries, w.now + backoff));
    CopyWithState(w.table, cur, r.state);
    WriteCopy(w.table, r, w.now, "sync");
    WithInv(w, Update(w.table, r, w.now, false, "sync").value, p, IDLE);
  }

  /** Steps that leave the table alone, seen from the process they move. */
  lemma LocalStepInv(w: World, p: nat, proc: Process)
    requires Inv(w) && ProcInv(w.table, proc)
    ensures Inv(With(w, p, proc))
  {
    GrowsReflexive(w.table);
    WithInv(w, w.table, p, proc);
  }

  lemma ReturnInv(t: Table, proc: Process)
    requires ProcInv(t, proc) && proc.stack != []
    ensures ProcInv(t, proc.(stack := Pop(proc.stack), resolved := proc.resolved + {Top(proc.stack)}))
  {
    hide CopyInv;
    assert CopyInv(t, Top(proc.stack));
    KnownCopies(t, proc.stack);
  }

  lemma LeaseInv(w: World, u: Urn, until: int)
    requires Inv(w)
    ensures Inv(w.(table := Extend(w.table, u, until)))
  {
    hide ProcInv, TableInv, Grows, Extend;
    ExtendInv(w.table, u, until);
    forall q | q in w.procs { ProcStable(w.table, Extend(w.table, u, until), w.procs[q]); }
  }

  lemma OtherStepsInv(w: World, s: Step)
    requires Inv(w) && Next(w, s).Some?
    requires s.Tick? || s.Read? || s.Return? || s.Abort? || s.Select? || s.Lease? || s.Beat?
    ensures Inv(Next(w, s).value)
  {
    hide CopyInv, Extend, TableInv;
    match s
    case Tick(_) =>
    case Read(p, urn) =>
      ProcOf(w, p);
      RowIsCopy(w.table, urn);
      LocalStepInv(w, p, Proc(w, p).(stack := [w.table.rows[urn].res]));
    case Return(p) =>
      ProcOf(w, p);
      var proc := Proc(w, p);
      ReturnInv(w.table, proc);
      LocalStepInv(w, p, proc.(stack := Pop(proc.stack), resolved := proc.resolved + {Top(proc.stack)}));
    case Abort(p) =>
      LocalStepInv(w, p, IDLE);
    case Select(p, urn) =>
      LocalStepInv(w, p, IDLE.(pick := Selected(urn)));
    case Lease(p, extend) =>
      var u := Proc(w, p).pick.urn;
      LeaseInv(w, u, w.now + extend);
      LocalStepInv(w.(table := Extend(w.table, u, w.now + extend)), p, IDLE.(pick := Leased(u)));
    case Beat(urn, extend) =>
      LeaseInv(w, urn, w.now + extend);
  }

  lemma StepInv(w: World, s: Step)
    requires Inv(w) && Next(w, s).Some?
    ensures Inv(Next(w, s).value)
  {
    hide Inv, Next;
    match s
    case Descend(p, key) => DescendInv(w, p, key);
    case Refresh(p, output) => RefreshInv(w, p, output);
    case Insert(p, res) => InsertInv(w, p, res);
    case Commit(p, planned, reason) => CommitInv(w, p, planned, reason);
    case Save(p, answer, maxRetries, backoff) => SaveInv(w, p, answer, maxRetries, backoff);
    case _ => OtherStepsInv(w, s);
  }

  /** The invariant holds after every run, whatever the interleaving. */
  lemma {:induction false} RunInv(steps: seq<Step>)
    requires Run(START, steps).Some?
    ensures Inv(Run(START, steps).value)
  {
    if steps != [] {
      RunInv(steps[..|steps| - 1]);
      StepInv(Run(START, steps[..|steps| - 1]).value, steps[|steps| - 1]);
    }
  }

  // -------------------------------------------------------------------- theorems

  /** No interleaving creates a dependency cycle, a dangling dependency or one that crosses
      projects. */
  lemma NeverCyclic(steps: seq<Step>, path: seq<Urn>)
    requires Run(START, steps).Some? && IsPath(Run(START, steps).value.table, path) && |path| > 1
    ensures path[|path| - 1] != path[0]
    ensures var t := Run(START, steps).value.table;
      forall i :: 0 <= i < |path| ==> path[i] in t.rows && t.rows[path[i]].res.project == t.rows[path[0]].res.project
  {
    RunInv(steps);
    NoCycles(Run(START, steps).value.table, path);
    PathsDescend(Run(START, steps).value.table, path);
  }

  /** No interleaving strands a resource: what is pending has a next sync time. */
  lemma NeverStranded(steps: seq<Step>, u: Urn)
    requires Run(START, steps).Some? && u in Run(START, steps).value.table.rows
    requires Run(START, steps).value.table.rows[u].res.state.status == Pending
    ensures Run(START, steps).value.table.rows[u].res.state.nextSyncAt.Some?
  {
    RunInv(steps);
  }

  /** Every row holds a configuration and labels that one accepted action recorded together. */
  lemma AlwaysFromRevision(steps: seq<Step>, u: Urn)
    requires Run(START, steps).Some? && u in Run(START, steps).value.table.rows
    ensures exists rev :: rev in Run(START, steps).value.table.revisions && rev.urn == u
              && rev.configs == Run(START, steps).value.table.rows[u].res.configs
              && rev.labels == Run(START, steps).value.table.rows[u].res.labels
  {
    RunInv(steps);
    assert FromRevision(Run(START, steps).value.table.revisions, Run(START, steps).value.table.rows[u].res);
  }

  lemma {:induction false} DescendingIsShort(ids: seq<nat>, bound: nat)
    requires forall i, j :: 0 <= i < j < |ids| ==> ids[j] < ids[i]
    requires ids != [] ==> ids[0] < bound
    ensures |ids| <= bound
  {
    if ids != [] {
      DescendingIsShort(ids[1..], ids[0]);
    }
  }

  lemma StackIsShort(t: Table, stack: seq<Resource>)
    requires Nested(t, stack) && stack != []
    ensures |stack| <= Rank(t, stack[0].urn)
  {
    assert forall i :: 0 <= i < |stack| ==> CopyInv(t, stack[i]);
    var ids := seq(|stack|, i requires 0 <= i < |stack| => t.rows[stack[i].urn].id);
    DescendingIsShort(ids, Rank(t, stack[0].urn));
  }

  /** A call never nests deeper than the rank of the resource it was made for, however its
      reads and writes interleave with other work. */
  lemma NestingBounded(steps: seq<Step>, p: nat)
    requires Run(START, steps).Some? && Proc(Run(START, steps).value, p).stack != []
    ensures var w := Run(START, steps).value;
      |Proc(w, p).stack| <= Rank(w.table, Proc(w, p).stack[0].urn)
  {
    RunInv(steps);
    var w := Run(START, steps).value;
    ProcOf(w, p);
    StackIsShort(w.table, Proc(w, p).stack);
  }

  lemma StepKeepsRank(w: World, s: Step, u: Urn)
    requires Next(w, s).Some? && u in w.table.rows
    ensures Rank(Next(w, s).value.table, u) == Rank(w.table, u) && u in Next(w, s).value.table.rows
  {
  }

  /** And that bound is fixed once the call has read its resource: no later step of anyone
      changes the rank of a row. So the recursion ends. */
  lemma {:induction false} RanksNeverChange(steps: seq<Step>, n: nat, u: Urn)
    requires n <= |steps| && Run(START, steps).Some?
    ensures Run(START, steps[..n]).Some?
    ensures u in Run(START, steps[..n]).value.table.rows ==>
      u in Run(START, steps).value.table.rows
      && Rank(Run(START, steps).value.table, u) == Rank(Run(START, steps[..n]).value.table, u)
    decreases |steps|
  {
    hide Next, Rank;
    if n == |steps| {
      assert steps[..n] == steps;
    } else {
      var init := steps[..|steps| - 1];
      assert init[..n] == steps[..n];
      RanksNeverChange(init, n, u);
      if u in Run(START, init).value.table.rows {
        StepKeepsRank(Run(START, init).value, steps[|steps| - 1], u);
      }
    }
  }

  /** The revision an accepted action, a create or a commit, leaves. */
  function RevisionsOf(s: Step): seq<Revision> {
    match s
    case Insert(_, res) => [RevisionOf(res, "action:create")]
    case Commit(_, planned, reason) => [RevisionOf(planned, reason)]
    case _ => []
  }

  /** Those of a run, in order. */
  function ActionRevisions(steps: seq<Step>): seq<Revision> {
    if steps == [] then [] else ActionRevisions(steps[..|steps| - 1]) + RevisionsOf(steps[|steps| - 1])
  }

  lemma StepRevisions(w: World, s: Step)
    requires Next(w, s).Some?
    ensures Next(w, s).value.table.revisions == w.table.revisions + RevisionsOf(s)
  {
  }

  /** The revision log is exactly that: one revision for each accepted action, with its
      configuration, labels and reason, in order, and none for reads, refreshes, syncs or
      leases. */
  lemma {:induction false} OneRevisionPerAction(steps: seq<Step>)
    requires Run(START, steps).Some?
    ensures Run(START, steps).value.table.revisions == ActionRevisions(steps)
  {
    hide Next, RevisionsOf;
    if steps != [] {
      OneRevisionPerAction(steps[..|steps| - 1]);
      StepRevisions(Run(START, steps[..|steps| - 1]).value, steps[|steps| - 1]);
    }
  }

  /** Over an up-to-date table, a write without a revision keeps the table up to date exactly
      when the copy it carries still has the current configuration and labels. */
  lemma WriteBackKeepsRecorded(t: Table, r: Resource, now: int, reason: string)
    requires Recorded(t) && Update(t, r, now, false, reason).Ok?
    ensures Recorded(Update(t, r, now, false, reason).value)
       <==> r.configs == t.rows[r.urn].res.configs && r.labels == t.rows[r.urn].res.labels
  {
    var t' := Update(t, r, now, false, reason).value;
    assert t'.rows[r.urn].res.configs == r.configs && t'.rows[r.urn].res.labels == r.labels;
  }

  function Sample(configs: Blob, output: Blob, status: Status, next: Option<int>): Resource {
    Resource("u", "k", "n", "p", map[], 0, 0, "", "", configs, map[], State(status, output, "", next, NO_SYNC_RESULT))
  }

  /** The run of a list of steps, from the front. */
  lemma {:induction false} RunStep(w: World, s: Step, rest: seq<Step>)
    requires Next(w, s).Some?
    ensures Run(w, [s] + rest) == Run(Next(w, s).value, rest)
  {
    hide Next;
    var all := [s] + rest;
    if rest == [] {
      assert all[..0] == [];
      assert Run(w, []) == Some(w);
    } else {
      assert all[..|all| - 1] == [s] + rest[..|rest| - 1];
      RunStep(w, s, rest[..|rest| - 1]);
    }
  }

  ghost predicate RunsTo(w: World, w': World) { exists steps :: Run(w, steps) == Some(w') }

  lemma Here(w: World)
    ensures RunsTo(w, w)
  {
    assert Run(w, []) == Some(w);
  }

  lemma Then(w: World, s: Step, w': World, w'': World)
    requires Next(w, s) == Some(w') && RunsTo(w', w'')
    ensures RunsTo(w, w'')
  {
    hide Next;
    var rest :| Run(w', rest) == Some(w'');
    RunStep(w, s, rest);
  }

  /** The world after one resource was created. */
  function Created(r: Resource): World {
    World(Table(map["u" := Row(0, r)], [RevisionOf(r, "action:create")], 1), map[0 := IDLE], 0)
  }

  lemma CreatedByInsert(r: Resource)
    requires r.urn == "u" && r.deps == map[] && r.state.IsScheduled()
    ensures Next(START, Insert(0, r)) == Some(Created(r))
  {
    assert r.deps.Values == {};
    assert Create(EMPTY_TABLE, r).Ok?;
    assert Create(EMPTY_TABLE, r).value == Created(r).table;
  }

  /** The latest accepted action is recorded, but the row is back at an older configuration,
      complete, and with no sync scheduled. */
  ghost predicate UpdateLost(t: Table) {
    && "u" in t.rows && |t.revisions| == 2
    && t.revisions[1].urn == "u" && t.revisions[1].configs == "new"
    && t.rows["u"].res.configs == "old"
    && t.rows["u"].res.state.status == Completed && t.rows["u"].res.state.nextSyncAt.None?
  }

  /** Two readers of the one resource. */
  lemma TwoRead(r: Resource) returns (w2: World, w3: World)
    requires r.urn == "u"
    ensures Next(Created(r), Read(1, "u")) == Some(w2) && Next(w2, Read(2, "u")) == Some(w3)
    ensures w3 == With(With(Created(r), 1, IDLE.(stack := [r])), 2, IDLE.(stack := [r]))
  {
    w2 := With(Created(r), 1, IDLE.(stack := [r]));
    w3 := With(w2, 2, IDLE.(stack := [r]));
  }

  lemma CommitThenRefresh(w3: World, before: Resource, after: Resource) returns (w4: World, w5: World)
    requires before == Sample("old", "a", Completed, None) && after == Sample("new", "a", Pending, Some(0))
    requires w3 == With(With(Created(before), 1, IDLE.(stack := [before])), 2, IDLE.(stack := [before]))
    ensures Next(w3, Commit(2, after, "action:update")) == Some(w4) && Next(w4, Refresh(1, "b")) == Some(w5)
    ensures UpdateLost(w5.table)
  {
    assert before.deps.Values == {} && after.deps.Values == {};
    w4 := Next(w3, Commit(2, after, "action:update")).value;
    w5 := Next(w4, Refresh(1, "b")).value;
  }

  /** And a stale copy can be written: a refresh that was reading while an update committed
      puts the old configuration and the old status back, so the update is never synced. */
  lemma RefreshCanLoseAnUpdate()
    ensures exists w :: RunsTo(START, w) && UpdateLost(w.table)
  {
    hide Next, UpdateLost, RunsTo;
    var before, after := Sample("old", "a", Completed, None), Sample("new", "a", Pending, Some(0));
    CreatedByInsert(before);
    var w1 := Created(before);
    var w2, w3 := TwoRead(before);
    var w4, w5 := CommitThenRefresh(w3, before, after);
    Here(w5);
    Then(w4, Refresh(1, "b"), w5, w5);
    Then(w3, Commit(2, after, "action:update"), w4, w5);
    Then(w2, Read(2, "u"), w3, w5);
    Then(w1, Read(1, "u"), w2, w5);
    Then(START, Insert(0, before), w1, w5);
  }

  /** Picking a resource is two steps. Between them it stays due, so a second syncer can pick
      it too. Once the lease is written it cannot until the lease ends, as long as nobody
      writes the row in between; Syncers says what that takes over whole runs. */
  lemma PickupWindow(w: World, p: nat, q: nat, u: Urn, extend: nat, now: int)
    requires p != q && Next(w, Select(p, u)).Some? && Proc(w, q) == IDLE && w.now <= now
    ensures Next(Next(w, Select(p, u)).value, Select(q, u)).Some?
    ensures Next(Next(w, Select(p, u)).value, Lease(p, extend)).Some?
    ensures var leased := Next(Next(w, Select(p, u)).value, Lease(p, extend)).value;
      Next(leased.(now := now), Select(q, u)).Some? <==> w.now + extend <= now
  {
  }

  /** Two syncers that both went on to lease and read one resource. */
  ghost predicate BothWorkOn(w: World, p: nat, q: nat, u: Urn) {
    && p != q
    && Proc(w, p).pick == Leased(u) && |Proc(w, p).stack| == 1 && Proc(w, p).stack[0].urn == u
    && Proc(w, q).pick == Leased(u) && |Proc(w, q).stack| == 1 && Proc(w, q).stack[0].urn == u
  }

  lemma TwoSelect(r: Resource) returns (w2: World, w3: World)
    requires r.urn == "u" && r.state.nextSyncAt == Some(0)
    ensures Next(Created(r), Select(1, "u")) == Some(w2) && Next(w2, Select(2, "u")) == Some(w3)
    ensures "u" in w3.table.rows && w3.table.rows["u"].res.urn == "u"
    ensures Proc(w3, 1) == IDLE.(pick := Selected("u")) && Proc(w3, 2) == IDLE.(pick := Selected("u"))
  {
    w2 := With(Created(r), 1, IDLE.(pick := Selected("u")));
    w3 := With(w2, 2, IDLE.(pick := Selected("u")));
  }

  lemma TwoLease(w3: World, extend: nat) returns (w4: World, w5: World)
    requires "u" in w3.table.rows && w3.table.rows["u"].res.urn == "u"
    requires Proc(w3, 1) == IDLE.(pick := Selected("u")) && Proc(w3, 2) == IDLE.(pick := Selected("u"))
    ensures Next(w3, Lease(1, extend)) == Some(w4) && Next(w4, Lease(2, extend)) == Some(w5)
    ensures "u" in w5.table.rows && w5.table.rows["u"].res.urn == "u"
    ensures Proc(w5, 1) == IDLE.(pick := Leased("u")) && Proc(w5, 2) == IDLE.(pick := Leased("u"))
  {
    w4 := Next(w3, Lease(1, extend)).value;
    w5 := Next(w4, Lease(2, extend)).value;
  }

  lemma TwoWork(w5: World) returns (w6: World, w7: World)
    requires "u" in w5.table.rows && w5.table.rows["u"].res.urn == "u"
    requires Proc(w5, 1) == IDLE.(pick := Leased("u")) && Proc(w5, 2) == IDLE.(pick := Leased("u"))
    ensures Next(w5, Read(1, "u")) == Some(w6) && Next(w6, Read(2, "u")) == Some(w7) && BothWorkOn(w7, 1, 2, "u")
  {
    w6 := Next(w5, Read(1, "u")).value;
    w7 := Next(w6, Read(2, "u")).value;
  }

  /** So "select and extend" does not keep syncers apart, whatever the lease. */
  lemma TwoSyncersOneResource(extend: nat)
    ensures exists w, p, q, u :: RunsTo(START, w) && BothWorkOn(w, p, q, u)
  {
    hide Next, BothWorkOn, RunsTo, Proc;
    var r := Sample("c", "a", Pending, Some(0));
    CreatedByInsert(r);
    var w2, w3 := TwoSelect(r);
    var w4, w5 := TwoLease(w3, extend);
    var w6, w7 := TwoWork(w5);
    Here(w7);
    Then(w6, Read(2, "u"), w7, w7);
    Then(w5, Read(1, "u"), w6, w7);
    Then(w4, Lease(2, extend), w5, w7);
    Then(w3, Lease(1, extend), w4, w7);
    Then(w2, Select(2, "u"), w3, w7);
    Then(Created(r), Select(1, "u"), w2, w7);
    Then(START, Insert(0, r), Created(r), w7);
  }

  /** An action commits only from the one copy its process holds, of a resource that was
      completed or failed when read; its row becomes what was planned, under the same identity. */
  lemma CommitsTerminalCopy(w: World, p: nat, planned: Resource, reason: string)
    requires Inv(w) && Next(w, Commit(p, planned, reason)).Some?
    ensures var w', u := Next(w, Commit(p, planned, reason)).value, planned.urn;
      && |Proc(w, p).stack| == 1 && Proc(w, p).stack[0].urn == u && Proc(w, p).stack[0].state.status in {Completed, Failed}
      && u in w.table.rows && u in w'.table.rows
      && w'.table.rows[u].id == w.table.rows[u].id && w'.table.rows[u].res.project == planned.project == w.table.rows[u].res.project
      && w'.table.rows[u].res.configs == planned.configs && w'.table.rows[u].res.state == planned.state
      && w'.table.rows[u].res.labels == planned.labels && Proc(w', p) == IDLE
  {
    ProcOf(w, p);
    assert CopyInv(w.table, Proc(w, p).stack[0]);
  }

  // ------------------------------------------------------------ an invalid configuration

  /** The steps that write the row of u. */
  predicate Touches(w: World, s: Step, u: Urn) {
    match s
    case Refresh(p, _) => Proc(w, p).stack != [] && Top(Proc(w, p).stack).urn == u
    case Commit(_, planned, _) => planned.urn == u
    case Lease(p, _) => Proc(w, p).pick.Selected? && Proc(w, p).pick.urn == u
    case Beat(v, _) => v == u
    case Save(p, _, _, _) => Proc(w, p).stack != [] && Proc(w, p).stack[0].urn == u
    case _ => false
  }

  /** No step of the run writes the row of u. */
  ghost predicate LeavesAlone(w: World, steps: seq<Step>, u: Urn) {
    forall n | 0 <= n < |steps| && Run(w, steps[..n]).Some? :: !Touches(Run(w, steps[..n]).value, steps[n], u)
  }

  lemma UntouchedStep(w: World, s: Step, u: Urn)
    requires Next(w, s).Some? && !Touches(w, s, u) && u in w.table.rows
    ensures u in Next(w, s).value.table.rows && Next(w, s).value.table.rows[u] == w.table.rows[u]
  {
    hide AfterSync;
  }

  lemma {:induction false} UntouchedRun(w: World, steps: seq<Step>, u: Urn)
    requires Run(w, steps).Some? && LeavesAlone(w, steps, u) && u in w.table.rows
    ensures u in Run(w, steps).value.table.rows && Run(w, steps).value.table.rows[u] == w.table.rows[u]
  {
    hide Next, Touches;
    if steps != [] {
      var init := steps[..|steps| - 1];
      forall n | 0 <= n < |init| && Run(w, init[..n]).Some? ensures !Touches(Run(w, init[..n]).value, init[n], u) {
        assert init[..n] == steps[..n] && init[n] == steps[n];
      }
      UntouchedRun(w, init, u);
      UntouchedStep(Run(w, init).value, steps[|steps| - 1], u);
    }
  }

  /** A sync refused with an invalid configuration is the last: its save leaves the error
      status, one more retry and no next sync, whatever limit there is, and until something else
      writes the row no syncer can select the resource, however much time passes. */
  lemma InvalidIsLast(w: World, p: nat, maxRetries: nat, backoff: int, steps: seq<Step>, q: nat)
    requires Next(w, Save(p, Err(ErrInvalid), maxRetries, backoff)).Some?
    ensures var u, saved := Proc(w, p).stack[0].urn, Next(w, Save(p, Err(ErrInvalid), maxRetries, backoff)).value;
      && u in saved.table.rows && saved.table.rows[u].res.state.status == Failed && saved.table.rows[u].res.state.nextSyncAt.None?
      && saved.table.rows[u].res.state.syncResult.retries == Proc(w, p).stack[0].state.syncResult.retries + 1
      && (Run(saved, steps).Some? && LeavesAlone(saved, steps, u) ==> Next(Run(saved, steps).value, Select(q, u)).None?)
  {
    hide LeavesAlone, Run;
    var u, saved := Proc(w, p).stack[0].urn, Next(w, Save(p, Err(ErrInvalid), maxRetries, backoff)).value;
    assert saved.table.rows[u].res.state.nextSyncAt.None?;
    if Run(saved, steps).Some? && LeavesAlone(saved, steps, u) {
      UntouchedRun(saved, steps, u);
    }
  }
}
