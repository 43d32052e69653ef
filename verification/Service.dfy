/** The orchestrator: core/core.go, core/read.go, core/write.go and core/sync.go.
    Every method here is one serial step; Interleaving drops that assumption. */
module CoreService {
  import opened Text
  import opened Resources
  import opened Outputs
  import opened ResourceStore
  import opened Syncing
  import opened Traces

  const CREATE_ACTION := "create"
  const UPDATE_ACTION := "update"
  const DELETE_ACTION := "delete"

  datatype Action = Action(name: string, params: Blob, labels: Labels, userId: string)

  type PlanFn = (Resource, Deps, Action) -> Result<Resource>
  type SyncFn = (Resource, Deps) -> Result<State<Blob, Blob>>

  /** What the Driver interface asks of Plan: it may change the configuration and the state,
      drop dependencies, and must schedule a sync for work it leaves pending. */
  ghost predicate PlanContract(plan: PlanFn) {
    forall res, deps, act :: plan(res, deps, act).Ok? ==>
      var p := plan(res, deps, act).value;
      && p.urn == res.urn && p.kind == res.kind && p.name == res.name && p.project == res.project
      && (forall k :: k in p.deps ==> k in res.deps && p.deps[k] == res.deps[k])
      && p.state.IsScheduled()
  }

  ghost predicate SyncContract(sync: SyncFn) {
    forall res, deps :: sync(res, deps).Ok? ==> sync(res, deps).value.IsScheduled()
  }

  // ------------------------------------------------------------------ invariants

  predicate Scheduled(t: Table) {
    forall u :: u in t.rows ==> t.rows[u].res.state.IsScheduled()
  }

  function LatestRevision(revs: seq<Revision>, u: Urn): Option<Revision> {
    if revs == [] then None
    else if revs[|revs| - 1].urn == u then Some(revs[|revs| - 1])
    else LatestRevision(revs[..|revs| - 1], u)
  }

  /** Configuration and labels are those of the latest revision. */
  predicate Recorded(t: Table) {
    forall u :: u in t.rows ==>
      && LatestRevision(t.revisions, u).Some?
      && LatestRevision(t.revisions, u).value.configs == t.rows[u].res.configs
      && LatestRevision(t.revisions, u).value.labels == t.rows[u].res.labels
  }

  predicate Sound(t: Table) { Ordered(t) && Scheduled(t) && Recorded(t) }

  lemma RefreshedSound(t: Table, out: OutputFn, t': Table)
    requires Sound(t) && Refreshed(t, out, t')
    ensures Sound(t') && SameIdentities(t, t')
  {
    RefreshedOrdered(t, out, t');
  }

  lemma AppendedRevision(revs: seq<Revision>, rev: Revision, u: Urn)
    ensures LatestRevision(revs + [rev], u) == if rev.urn == u then Some(rev) else LatestRevision(revs, u)
  {
    assert (revs + [rev])[..|revs|] == revs;
  }

  /** One row written and its revision appended. */
  lemma WrittenRecorded(t: Table, r: Resource, reason: string, t': Table)
    requires Recorded(t) && t'.revisions == t.revisions + [RevisionOf(r, reason)]
    requires forall u :: u in t'.rows && u != r.urn ==> u in t.rows && t'.rows[u] == t.rows[u]
    requires r.urn in t'.rows && t'.rows[r.urn].res.configs == r.configs && t'.rows[r.urn].res.labels == r.labels
    ensures Recorded(t')
  {
    hide LatestRevision;
    forall u { AppendedRevision(t.revisions, RevisionOf(r, reason), u); }
  }

  lemma CommitSound(t: Table, r: Resource, now: int, reason: string)
    requires Sound(t) && r.urn in t.rows && r.state.IsScheduled()
    requires DepsBelow(t, t.rows[r.urn].res.project, r.deps, t.rows[r.urn].id)
    ensures Update(t, r, now, true, reason).Ok?
    ensures Sound(Update(t, r, now, true, reason).value)
  {
    UpdateKeepsOrder(t, r, now, true, reason);
    hide Ordered, Recorded, DepsBelow, SameIdentities;
    WrittenRecorded(t, r, reason, Update(t, r, now, true, reason).value);
  }

  lemma InsertSound(t: Table, r: Resource)
    requires Sound(t) && r.urn !in t.rows && r.state.IsScheduled() && DepsBelow(t, r.project, r.deps, t.nextId)
    ensures Create(t, r).Ok? && Sound(Create(t, r).value)
  {
    assert r.deps.Values <= t.rows.Keys + {r.urn};
    hide Ordered, Recorded, DepsBelow, SameIdentities;
    CreateKeepsOrder(t, r);
    WrittenRecorded(t, r, "action:create", Create(t, r).value);
  }

  // -------------------------------------------------------------------- naming

  predicate Letter(c: char) { 'a' <= c <= 'z' || 'A' <= c <= 'Z' }

  predicate NameChar(c: char) { Letter(c) || Digit(c) || c == '_' || c == '-' }

  /** ^[A-Za-z][A-Za-z0-9_-]+$ */
  predicate KindOrProject(s: string) { |s| > 1 && Letter(s[0]) && forall i :: 0 <= i < |s| ==> NameChar(s[i]) }

  /** ^\d*[A-Za-z0-9_-]+$ */
  predicate ResourceName(s: string) { s != "" && forall i :: 0 <= i < |s| ==> NameChar(s[i]) }

  predicate ValidNames(r: Resource) { KindOrProject(r.kind) && ResourceName(r.name) && KindOrProject(r.project) }

  function GenerateUrn(kind: string, project: string, name: string): Urn {
    "orn:entropy:" + kind + ":" + project + ":" + name
  }

  lemma CutAtColon(a: string, x: string, b: string, y: string)
    requires ':' !in a && ':' !in b && a + ":" + x == b + ":" + y
    ensures a == b && x == y
  {
    var s, t := a + ":" + x, b + ":" + y;
    assert s[|a|] == ':' && t[|b|] == ':';
    assert forall i :: 0 <= i < |a| ==> s[i] == a[i];
    assert forall i :: 0 <= i < |b| ==> t[i] == b[i];
    assert |a| == |b|;
    assert a == s[..|a|] && b == t[..|b|] && x == s[|a| + 1..] && y == t[|b| + 1..];
  }

  /** Distinct valid names never share a URN, so a conflict is always the same resource. */
  lemma UrnsAreUnique(a: Resource, b: Resource)
    requires ValidNames(a) && ValidNames(b)
    requires GenerateUrn(a.kind, a.project, a.name) == GenerateUrn(b.kind, b.project, b.name)
    ensures a.kind == b.kind && a.project == b.project && a.name == b.name
  {
    var p := "orn:entropy:";
    var x, y := a.project + ":" + a.name, b.project + ":" + b.name;
    var u, v := GenerateUrn(a.kind, a.project, a.name), GenerateUrn(b.kind, b.project, b.name);
    assert u == p + (a.kind + ":" + x) && v == p + (b.kind + ":" + y);
    assert u[|p|..] == a.kind + ":" + x && v[|p|..] == b.kind + ":" + y;
    CutAtColon(a.kind, x, b.kind, y);
    CutAtColon(a.project, a.name, b.project, b.name);
  }

  /** m is m1 with m2 over it, label by label: a label of m2 stands as it is there, or is gone if
      it is empty there; any other is as in m1, unless that is empty. */
  predicate Overrides(m1: Labels, m2: Labels, m: Labels) {
    && (forall k :: k in m2 && m2[k] != "" ==> k in m && m[k] == m2[k])
    && (forall k :: k in m2 && m2[k] == "" ==> k !in m)
    && (forall k :: k in m1 && k !in m2 && m1[k] != "" ==> k in m && m[k] == m1[k])
    && (forall k :: k in m && k !in m2 ==> k in m1 && m[k] == m1[k] && m[k] != "")
  }

  /** Those words leave no choice. */
  lemma OverridesIsMerged(m1: Labels, m2: Labels, m: Labels)
    ensures Overrides(m1, m2, m) <==> m == MergedLabels(m1, m2)
  {
    var r := MergedLabels(m1, m2);
    assert Overrides(m1, m2, r);
    if Overrides(m1, m2, m) {
      forall k ensures k in m <==> k in r
               ensures k in m ==> m[k] == r[k]
      {
        OneLabel(m1, m2, m, k);
        OneLabel(m1, m2, r, k);
      }
      assert m == r;
    }
  }

  lemma OneLabel(m1: Labels, m2: Labels, m: Labels, k: string)
    requires Overrides(m1, m2, m)
    ensures k in m <==> (if k in m2 then m2[k] != "" else k in m1 && m1[k] != "")
    ensures k in m ==> m[k] == if k in m2 then m2[k] else m1[k]
  {
  }

  /** Labels of m2 win; empty values are dropped. */
  function MergedLabels(m1: Labels, m2: Labels): Labels {
    map k | k in m1 + m2 && (m1 + m2)[k] != "" :: (m1 + m2)[k]
  }

  method MergeLabels(m1: Labels, m2: Labels) returns (res: Labels)
    ensures res == MergedLabels(m1, m2)
    ensures Overrides(m1, m2, res)
  {
    res := CleanLabels(m1 + m2);
    OverridesIsMerged(m1, m2, res);
  }

  /** The loop that drops empty values. */
  method CleanLabels(all: Labels) returns (res: Labels)
    ensures res == map k | k in all && all[k] != "" :: all[k]
  {
    res := all;
    var todo := res.Keys;
    while todo != {}
      invariant todo <= all.Keys
      invariant forall k :: k in res <==> k in all && (k in todo || all[k] != "")
      invariant forall k :: k in res ==> res[k] == all[k]
      decreases |todo|
    {
      var k :| k in todo;
      todo := todo - {k};
      if res[k] == "" {
        res := res - {k};
      }
    }
  }

  // ------------------------------------------------------------ what a call amounts to

  /** No dependency of anything ranks above the table. */
  lemma RanksBelow(t: Table, res: Resource)
    requires Ordered(t)
    ensures forall k :: k in res.deps ==> Rank(t, res.deps[k]) < t.nextId + 1
  {
  }

  /** The refreshed dependencies of res, as far as t determines them. */
  function Resolved(t: Table, out: OutputFn, res: Resource): Option<Deps>
    requires Ordered(t)
  {
    RanksBelow(t, res);
    Resolve(t, out, res, t.nextId + 1)
  }

  /** The driver's plan for an action, labels merged and, for a create, the URN derived again;
      None if the dependencies do not resolve, the driver refuses, or the names are not valid. */
  function PlanResult(t: Table, out: OutputFn, plan: PlanFn, res: Resource, act: Action): Option<Resource>
    requires Ordered(t)
  {
    var deps := Resolved(t, out, res);
    if deps.None? || plan(res, deps.value, act).Err? then None
    else
      var p := plan(res, deps.value, act).value.(labels := MergedLabels(res.labels, act.labels));
      if ValidNames(p) then Some(p.(urn := PlannedUrn(p, act))) else None
  }

  /** A create always goes by the URN of its names. */
  function PlannedUrn(res: Resource, act: Action): Urn {
    if act.name == CREATE_ACTION then GenerateUrn(res.kind, res.project, res.name) else res.urn
  }

  /** Who did it and when. */
  function Stamped(p: Resource, res: Resource, act: Action, at: int): Resource {
    if act.name == CREATE_ACTION then p.(createdAt := at, updatedAt := at, createdBy := act.userId, updatedBy := act.userId)
    else p.(createdAt := res.createdAt, updatedAt := at, updatedBy := act.userId)
  }

  /** The resource a create is planned for, and its action. */
  function Named(res: Resource): Resource { res.(urn := GenerateUrn(res.kind, res.project, res.name), configs := "") }

  function CreateAction(res: Resource): Action { Action(CREATE_ACTION, res.configs, res.labels, res.createdBy) }

  /** The row of u with its output refreshed. */
  function Current(t: Table, out: OutputFn, u: Urn): (r: Resource)
    requires Ordered(t) && Fresh(t, out, u).Some?
    ensures r.state.output == Fresh(t, out, u).value && r.deps == t.rows[u].res.deps && r.state.status == t.rows[u].res.state.status
  {
    t.rows[u].res.(state := t.rows[u].res.state.(output := Fresh(t, out, u).value))
  }

  /** What an action on an existing resource comes to; None if it cannot be read, is being
      worked on, or cannot be planned. */
  function ActionResult(t: Table, out: OutputFn, plan: PlanFn, u: Urn, act: Action): Option<Resource>
    requires Ordered(t)
  {
    if Fresh(t, out, u).None? || !t.rows[u].res.state.IsTerminal() then None
    else PlanResult(t, out, plan, Current(t, out, u), act)
  }

  /** Planning is not affected by what was refreshed before. */
  lemma PlanResultStable(t: Table, out: OutputFn, plan: PlanFn, t': Table, res: Resource, act: Action)
    requires Ordered(t) && Ordered(t') && Repeatable(out) && Refreshed(t, out, t')
    ensures PlanResult(t', out, plan, res, act) == PlanResult(t, out, plan, res, act)
  {
    hide Fresh, Resolve, Refreshed, Ordered, Rank, Repeatable;
    RanksBelow(t, res);
    RanksBelow(t', res);
    RefreshedRoles(t, out, t');
    RefreshedIds(t, out, t');
    forall k | k in res.deps { FreshStable(t, out, t', res.deps[k]); }
    ResolveStable(t, out, t', res, res, t.nextId + 1);
  }

  lemma RefreshedIds(t: Table, out: OutputFn, t': Table)
    requires Ordered(t) && Refreshed(t, out, t')
    ensures t'.nextId == t.nextId
  {
  }

  // --------------------------------------------------------------------- service

  class Service {
    const store: Store
    const output: OutputFn
    const plan: PlanFn
    const sync: SyncFn
    const maxSyncRetries: nat
    const syncBackoff: nat

    constructor (store: Store, output: OutputFn, plan: PlanFn, sync: SyncFn, maxSyncRetries: nat, syncBackoff: nat)
      ensures this.store == store && this.output == output && this.plan == plan && this.sync == sync
      ensures this.maxSyncRetries == maxSyncRetries && this.syncBackoff == syncBackoff
    {
      this.store, this.output, this.plan, this.sync := store, output, plan, sync;
      this.maxSyncRetries, this.syncBackoff := maxSyncRetries, syncBackoff;
    }

    /** Reads a resource, refreshing its output and those of everything it depends on. The
        recursion ends because dependencies were inserted earlier, although the tables are
        written on the way down. It answers exactly what Fresh says of the tables as they
        were, and leaves the whole cone stored and coherent. `trace` is how it got there. */
    method GetResource(urn: Urn) returns (r: Result<Resource>, ghost trace: seq<Event>)
      requires Ordered(store.Contents()) && Repeatable(output)
      modifies store
      decreases Rank(store.Contents(), urn), 1
      ensures Refreshed(old(store.Contents()), output, store.Contents()) && Ordered(store.Contents())
      ensures r.Ok? <==> Fresh(old(store.Contents()), output, urn).Some?
      ensures r.Ok? ==> ConeFresh(store.Contents(), output, urn)
      ensures r.Ok? ==> r.value == old(store.Contents()).rows[urn].res.(state :=
                          old(store.Contents()).rows[urn].res.state.(output := store.Contents().rows[urn].res.state.output))
      ensures urn !in old(store.Contents()).rows ==>
        r == Err(ErrNotFound) && store.Contents() == old(store.Contents()) && store.clock == old(store.clock)
      ensures urn in old(store.Contents()).rows ==>
        var y := Play(Outset(old(store.Contents()), old(store.clock), old(store.Contents()).rows[urn].res), trace, 0);
        Reached(y, store.Contents(), store.clock) && (r.Ok? ==> y.value.stack == [r.value])
      ensures old(store.clock) <= store.clock
    {
      hide Play;
      trace := [];
      ghost var t := store.Contents();
      var found := store.GetByURN(urn);
      if found.Err? {
        return Err(found.error), trace;
      }
      var res := found.value;
      assert DepsBelow(t, res.project, res.deps, t.rows[urn].id);
      ghost var x := Outset(t, store.clock, res);
      var spec;
      spec, trace := GenerateModuleSpec(res, Rank(t, urn));
      PlayFreely(x, trace, 1);
      ghost var t1, was := store.Contents(), store.clock;
      FreshIs(t, output, urn);
      if spec.Err? {
        return Err(spec.error), trace;
      }
      var out := output(res, spec.value);
      if out.Err? {
        return Err(out.error), trace;
      }
      FreshStable(t, output, t1, urn);
      if res.state.output != out.value {
        res := res.(state := res.state.(output := out.value));
        var saved := store.Update(res, false, "");
        UpToDate(t, output, t1, urn, res, store.Contents(), store.clock);
        PlayStores(x, trace, t1, was, t.rows[urn].res, out.value, store.clock, store.Contents());
        trace := trace + [Waited(store.clock)] + [Stored(out.value)];
      } else {
        RefreshedTransitive(t, output, t1, t1);
        KeptUpToDate(t, output, t1, urn);
      }
      r := Ok(res);
    }

    /** Resolves the dependencies of res through GetResource, in some order. */
    method GenerateModuleSpec(res: Resource, ghost bound: nat) returns (r: Result<Deps>, ghost trace: seq<Event>)
      requires Ordered(store.Contents()) && Repeatable(output)
      requires forall k :: k in res.deps ==> Rank(store.Contents(), res.deps[k]) < bound
      modifies store
      decreases bound, 0
      ensures Refreshed(old(store.Contents()), output, store.Contents()) && Ordered(store.Contents())
      ensures r.Ok? <==> Resolve(old(store.Contents()), output, res, bound).Some?
      ensures r.Ok? ==> r.value == Resolve(old(store.Contents()), output, res, bound).value
      ensures r.Ok? ==> forall k :: k in res.deps ==> Ready(store.Contents(), res, res.deps[k]) && ConeFresh(store.Contents(), output, res.deps[k])
      ensures var y := Play(Outset(old(store.Contents()), old(store.clock), res), trace, 1);
        Reached(y, store.Contents(), store.clock) && (r.Ok? ==> Gathered(y, store.Contents(), store.clock, res, res.deps.Keys))
      ensures r.Err? ==> r.error != ErrNotFound
      ensures old(store.clock) <= store.clock
    {
      ghost var t := store.Contents();
      ghost var x := Outset(t, store.clock, res);
      trace := [];
      RefreshedReflexive(t, output);
      PlayNothing(x, 1);
      var resolved: Deps := map[];
      var todo := res.deps.Keys;
      assert Midway(t, output, res, resolved, x, trace, t, store.clock);
      hide Fresh, Resolve, ConeFresh, Refreshed, Ordered, Rank, Play, Gathered, Midway, Ready;
      while todo != {}
        invariant todo <= res.deps.Keys && forall k :: k in res.deps ==> k in todo || k in resolved
        invariant Ordered(store.Contents()) && Refreshed(t, output, store.Contents())
        invariant Midway(t, output, res, resolved, x, trace, store.Contents(), store.clock)
        invariant old(store.clock) <= store.clock
        decreases |todo|
      {
        var k :| k in todo;
        ghost var t1, was := store.Contents(), store.clock;
        RefreshedRank(t, output, t1, res.deps[k]);
        var d;
        ghost var nested;
        d, nested := GetResource(res.deps[k]);
        UrnIsKey(t1, res.deps[k]);
        ConeFreshRow(store.Contents(), output, res.deps[k]);
        trace := Asked(t, output, res, resolved, bound, x, trace, t1, was, k, d, nested, store.Contents(), store.clock);
        if d.Err? {
          return Err(if d.error == ErrNotFound then ErrInvalid else d.error), trace;
        } else if d.value.state.status != Completed || d.value.project != res.project {
          return Err(ErrInvalid), trace;
        }
        resolved := resolved[k := Dependency(d.value.kind, d.value.state.output)];
        todo := todo - {k};
      }
      Gone(t, output, res, bound, resolved, x, trace, store.Contents(), store.clock);
      r := Ok(resolved);
    }

    /** Plans an action on res against refreshed dependencies: exactly PlanResult of the
        tables as they were. */
    method PlanChange(res: Resource, act: Action) returns (r: Result<Resource>, ghost trace: seq<Event>)
      requires Sound(store.Contents()) && Repeatable(output) && PlanContract(plan)
      modifies store
      ensures Refreshed(old(store.Contents()), output, store.Contents()) && Sound(store.Contents())
      ensures r.Ok? <==> PlanResult(old(store.Contents()), output, plan, res, act).Some?
      ensures r.Ok? ==> r.value == PlanResult(old(store.Contents()), output, plan, res, act).value
      ensures r.Ok? ==> Planned(res, act, r.value)
      ensures r.Ok? ==> forall k :: k in r.value.deps ==> Ready(store.Contents(), res, r.value.deps[k])
      ensures var y := Play(Outset(old(store.Contents()), old(store.clock), res), trace, 1);
        Reached(y, store.Contents(), store.clock) && (r.Ok? ==> Gathered(y, store.Contents(), store.clock, res, res.deps.Keys))
      ensures r.Err? && Resolved(old(store.Contents()), output, res).Some? ==>
        var planned := plan(res, Resolved(old(store.Contents()), output, res).value, act);
        r.error == if planned.Err? && planned.error != ErrInvalid then ErrInternal else ErrInvalid
      ensures old(store.clock) <= store.clock
    {
      hide Fresh, Resolve, ConeFresh, Refreshed, Play, Gathered, Reached;
      ghost var t := store.Contents();
      RanksBelow(t, res);
      var spec;
      spec, trace := GenerateModuleSpec(res, store.nextId + 1);
      RefreshedSound(t, output, store.Contents());
      if spec.Err? {
        return Err(spec.error), trace;
      }
      var planned := plan(res, spec.value, act);
      if planned.Err? {
        return Err(if planned.error == ErrInvalid then ErrInvalid else ErrInternal), trace;
      }
      var labels := MergeLabels(res.labels, act.labels);
      var p := planned.value.(labels := labels);
      if !ValidNames(p) {
        return Err(ErrInvalid), trace;
      }
      if act.name == CREATE_ACTION {
        p := p.(urn := GenerateUrn(p.kind, p.project, p.name));
      }
      r := Ok(p);
    }

    /** Plans, stamps and stores. `mid` is what the tables held when the plan was made, `at`
        the time stamped. It succeeds exactly when the plan does and, for a create, the URN
        is free. */
    method ExecAction(res: Resource, act: Action, dryRun: bool)
      returns (r: Result<Resource>, ghost mid: Table, ghost at: int, ghost trace: seq<Event>)
      requires Sound(store.Contents()) && Repeatable(output) && PlanContract(plan)
      requires act.name == CREATE_ACTION || SameResource(store.Contents(), res)
      modifies store
      ensures Sound(store.Contents()) && Refreshed(old(store.Contents()), output, mid)
      ensures r.Err? || dryRun ==> store.Contents() == mid
      ensures r.Ok? <==>
        && PlanResult(old(store.Contents()), output, plan, res, act).Some?
        && (dryRun || act.name != CREATE_ACTION || PlannedUrn(res, act) !in old(store.Contents()).rows)
      ensures r.Ok? ==> r.value == Stamped(PlanResult(old(store.Contents()), output, plan, res, act).value, res, act, at)
      ensures r.Err? && PlanResult(old(store.Contents()), output, plan, res, act).Some? ==> r.error == ErrConflict
      ensures old(store.clock) <= at <= store.clock
      ensures r.Ok? && !dryRun ==> Accepted(mid, act, r.value, store.clock, store.Contents())
      ensures r.Ok? ==> Planned(res, act, r.value)
      ensures var y := Play(Outset(old(store.Contents()), old(store.clock), res), trace, 1);
        Reached(y, mid, at) && (r.Ok? ==> Gathered(y, mid, at, res, res.deps.Keys))
    {
      hide Fresh, Resolve, ConeFresh, Refreshed, Ordered, PlanResult, PlanContract, Repeatable, Play, Gathered, Reached, Sound, Resources.Update, Resources.Create, Planned, GenerateUrn;
      ghost var t := store.Contents();
      SoundIsOrdered(t);
      ghost var x := Outset(t, store.clock, res);
      var planned;
      planned, trace := PlanChange(res, act);
      mid, at := store.Contents(), store.clock;
      if planned.Err? {
        return Err(planned.error), mid, at, trace;
      }
      RefreshedSound(t, output, mid);
      RefreshedRoles(t, output, mid);
      var p := planned.value;
      var now := store.Now();
      GatheredWaits(x, trace, mid, at, now, res);
      at, trace := now, trace + [Waited(now)];
      p := p.(updatedAt := now, updatedBy := act.userId);
      if act.name == CREATE_ACTION {
        p := p.(createdAt := now, createdBy := act.userId);
      } else {
        p := p.(createdAt := res.createdAt);
      }
      StampedPlanned(planned.value, res, act, now);
      assert p == Stamped(planned.value, res, act, now);
      if !dryRun {
        var saved;
        if act.name == CREATE_ACTION {
          saved := store.Create(p);
          CreatedSound(mid, res, act, p, store.Contents());
          if saved.Err? {
            return Err(if saved.error == ErrConflict then ErrConflict else ErrInternal), mid, at, trace;
          }
        } else {
          saved := store.Update(p, true, "action:" + act.name);
          UpdatedSound(mid, res, act, p, store.clock, "action:" + act.name, store.Contents());
          if saved.Err? {
            return Err(ErrInternal), mid, at, trace;
          }
        }
      }
      r := Ok(p);
    }

    /** A URN is derived from the names; an existing one is a conflict. */
    method CreateResource(res: Resource, dryRun: bool)
      returns (r: Result<Resource>, ghost mid: Table, ghost at: int, ghost trace: seq<Event>)
      requires Sound(store.Contents()) && Repeatable(output) && PlanContract(plan)
      modifies store
      ensures Sound(store.Contents()) && Refreshed(old(store.Contents()), output, mid)
      ensures r.Err? || dryRun ==> store.Contents() == mid
      ensures r.Ok? <==>
        && ValidNames(res)
        && PlanResult(old(store.Contents()), output, plan, Named(res), CreateAction(res)).Some?
        && (dryRun || Named(res).urn !in old(store.Contents()).rows)
      ensures r.Ok? ==>
        r.value == Stamped(PlanResult(old(store.Contents()), output, plan, Named(res), CreateAction(res)).value, Named(res), CreateAction(res), at)
      ensures old(store.clock) <= at <= store.clock
      ensures r.Ok? && !dryRun ==> Resources.Create(mid, r.value) == Ok(store.Contents())
      ensures r.Ok? ==> Planned(Named(res), CreateAction(res), r.value)
      ensures r.Ok? ==>
        PlanResult(old(store.Contents()), output, plan, res.(urn := GenerateUrn(res.kind, res.project, res.name), configs := ""),
                   Action("create", res.configs, res.labels, res.createdBy)).Some?
      ensures r.Ok? ==>
        && r.value.urn == "orn:entropy:" + res.kind + ":" + res.project + ":" + res.name
        && r.value.kind == res.kind && r.value.name == res.name && r.value.project == res.project
        && r.value.createdBy == r.value.updatedBy == res.createdBy && r.value.createdAt == r.value.updatedAt == at
        && (forall k :: k in r.value.labels <==> k in res.labels && res.labels[k] != "")
        && (forall k :: k in r.value.labels ==> r.value.labels[k] == res.labels[k])
      ensures var y := Play(Outset(old(store.Contents()), old(store.clock), Named(res)), trace, 1);
        Reached(y, mid, at) && (r.Ok? ==> Gathered(y, mid, at, Named(res), res.deps.Keys))
    {
      hide PlanResult, Repeatable, PlanContract, Sound, Refreshed, Fresh, Resolve, Gathered, Play;
      at, trace := store.clock, [];
      PlayNothing(Outset(store.Contents(), at, Named(res)), 1);
      if !ValidNames(res) {
        SoundIsOrdered(store.Contents());
        RefreshedReflexive(store.Contents(), output);
        return Err(ErrInvalid), store.Contents(), at, trace;
      }
      r, mid, at, trace := ExecAction(Named(res), CreateAction(res), dryRun);
    }

    /** An action on a resource that is not being worked on: exactly ActionResult of the tables
        as they were. An action named create, which the API lets through, is planned as one and
        conflicts with whatever has the URN of its names, as the resource itself does. */
    method ApplyAction(urn: Urn, act: Action, dryRun: bool)
      returns (r: Result<Resource>, ghost mid: Table, ghost at: int, ghost trace: seq<Event>)
      requires Sound(store.Contents()) && Repeatable(output) && PlanContract(plan)
      modifies store
      ensures Sound(store.Contents()) && Refreshed(old(store.Contents()), output, mid)
      ensures r.Err? || dryRun ==> store.Contents() == mid
      ensures r.Ok? <==>
        && ActionResult(old(store.Contents()), output, plan, urn, act).Some?
        && (dryRun || act.name != CREATE_ACTION
            || PlannedUrn(old(store.Contents()).rows[urn].res, act) !in old(store.Contents()).rows)
      ensures r.Err? && ActionResult(old(store.Contents()), output, plan, urn, act).Some? ==> r.error == ErrConflict
      ensures r.Ok? ==>
        && urn in old(store.Contents()).rows
        && r.value == Stamped(ActionResult(old(store.Contents()), output, plan, urn, act).value, old(store.Contents()).rows[urn].res, act, at)
      ensures urn !in old(store.Contents()).rows ==> r == Err(ErrNotFound)
      ensures Fresh(old(store.Contents()), output, urn).Some? && !old(store.Contents()).rows[urn].res.state.IsTerminal() ==> r == Err(ErrInvalid)
      ensures old(store.clock) <= at <= store.clock
      ensures r.Ok? && !dryRun ==> Accepted(mid, act, r.value, store.clock, store.Contents())
      ensures r.Ok? <==>
        && urn in old(store.Contents()).rows && Fresh(old(store.Contents()), output, urn).Some?
        && old(store.Contents()).rows[urn].res.state.status in {Completed, Failed}
        && PlanResult(old(store.Contents()), output, plan, Current(old(store.Contents()), output, urn), act).Some?
        && (dryRun || act.name != CREATE_ACTION
            || PlannedUrn(old(store.Contents()).rows[urn].res, act) !in old(store.Contents()).rows)
      ensures r.Ok? && !dryRun && act.name != CREATE_ACTION ==> Filed(old(store.Contents()), store.Contents(), urn, act, store.clock)
      ensures urn !in old(store.Contents()).rows ==> mid == old(store.Contents()) && store.clock == old(store.clock)
      ensures urn in old(store.Contents()).rows ==>
        var y := Play(Outset(old(store.Contents()), old(store.clock), old(store.Contents()).rows[urn].res), trace, 0);
        && Reached(y, mid, at)
        && (r.Ok? ==>
              var cur := Current(old(store.Contents()), output, urn);
              cur.state.IsTerminal() && Planned(cur, act, r.value) && Gathered(y, mid, at, cur, cur.deps.Keys))
    {
      hide Fresh, Resolve, ConeFresh, Repeatable, PlanContract, DepsBelow, PlanResult, Ordered, Refreshed, Sound, Play, Gathered, Planned;
      ghost var t := store.Contents();
      SoundIsOrdered(t);
      at := store.clock;
      var got;
      got, trace := GetResource(urn);
      ghost var t1 := store.Contents();
      at := store.clock;
      RefreshedSound(t, output, t1);
      if got.Err? {
        return Err(got.error), t1, at, trace;
      }
      ReadRow(t, output, t1, urn);
      RefreshedRoles(t, output, t1);
      assert got.value == Current(t, output, urn);
      if !got.value.state.IsTerminal() {
        return Err(ErrInvalid), t1, at, trace;
      }
      PlanResultStable(t, output, plan, t1, got.value, act);
      ghost var c1, more := at, [];
      r, mid, at, more := ExecAction(got.value, act, dryRun);
      RefreshedTransitive(t, output, t1, mid);
      GatheredThen(Outset(t, old(store.clock), t.rows[urn].res), trace, t1, c1, got.value, more, mid, at);
      if r.Ok? && !dryRun && act.name != CREATE_ACTION {
        AcceptedIsFiled(t, output, mid, urn, got.value, act, r.value, store.clock, store.Contents());
      }
      trace := trace + more;
    }

    method UpdateResource(urn: Urn, configs: Blob, deps: map<string, Urn>, labels: Labels, userId: string, dryRun: bool)
      returns (r: Result<Resource>, ghost mid: Table, ghost at: int)
      requires Sound(store.Contents()) && Repeatable(output) && PlanContract(plan)
      modifies store
      ensures Sound(store.Contents()) && Refreshed(old(store.Contents()), output, mid)
      ensures deps != map[] ==> r == Err(ErrUnsupported)
      ensures deps == map[] && configs == "" ==> r == Err(ErrInvalid)
      ensures r.Err? || dryRun ==> store.Contents() == mid
      ensures r.Ok? <==>
        && deps == map[] && configs != ""
        && ActionResult(old(store.Contents()), output, plan, urn, Action(UPDATE_ACTION, configs, labels, userId)).Some?
      ensures r.Ok? ==>
        && urn in old(store.Contents()).rows
        && r.value == Stamped(ActionResult(old(store.Contents()), output, plan, urn, Action(UPDATE_ACTION, configs, labels, userId)).value,
                              old(store.Contents()).rows[urn].res, Action(UPDATE_ACTION, configs, labels, userId), at)
      ensures r.Ok? && !dryRun ==> Resources.Update(mid, r.value, store.clock, true, "action:update") == Ok(store.Contents())
    {
      hide ActionResult, Sound, Refreshed, Repeatable, PlanContract, Fresh, Resolve, PlanResult;
      mid, at := store.Contents(), store.clock;
      SoundIsOrdered(mid);
      RefreshedReflexive(mid, output);
      if deps != map[] {
        return Err(ErrUnsupported), mid, at;
      } else if configs == "" {
        return Err(ErrInvalid), mid, at;
      }
      assert "action:" + UPDATE_ACTION == "action:update";
      ghost var trace;
      r, mid, at, trace := ApplyAction(urn, Action(UPDATE_ACTION, configs, labels, userId), dryRun);
    }

    method DeleteResource(urn: Urn) returns (r: Result<Resource>, ghost mid: Table, ghost at: int)
      requires Sound(store.Contents()) && Repeatable(output) && PlanContract(plan)
      modifies store
      ensures Sound(store.Contents()) && Refreshed(old(store.Contents()), output, mid)
      ensures r.Err? ==> store.Contents() == mid
      ensures r.Ok? <==> ActionResult(old(store.Contents()), output, plan, urn, Action(DELETE_ACTION, "", map[], "")).Some?
      ensures r.Ok? ==>
        && urn in old(store.Contents()).rows
        && r.value == Stamped(ActionResult(old(store.Contents()), output, plan, urn, Action(DELETE_ACTION, "", map[], "")).value,
                              old(store.Contents()).rows[urn].res, Action(DELETE_ACTION, "", map[], ""), at)
      ensures r.Ok? ==> Resources.Update(mid, r.value, store.clock, true, "action:delete") == Ok(store.Contents())
    {
      hide ActionResult, Sound, Refreshed, Repeatable, PlanContract, Fresh, Resolve, PlanResult;
      assert "action:" + DELETE_ACTION == "action:delete";
      ghost var trace;
      r, mid, at, trace := ApplyAction(urn, Action(DELETE_ACTION, "", map[], ""), false);
    }

    /** handleSync on a leased row: read, resolve, sync, save. `mid` is what the tables held
        before the save and `at` when the driver answered. It saves exactly when the
        dependencies resolve, and then the driver's answer to them under the retry rules. */
    method SyncPicked(urn: Urn) returns (saved: bool, ghost mid: Table, ghost at: int, ghost trace: seq<Event>)
      requires Sound(store.Contents()) && Repeatable(output) && SyncContract(sync)
      requires urn in store.Contents().rows
      modifies store
      ensures Sound(store.Contents()) && SameSpecs(old(store.Contents()), store.Contents())
      ensures Refreshed(old(store.Contents()), output, mid)
      ensures saved <==> Resolved(old(store.Contents()), output, old(store.Contents()).rows[urn].res).Some?
      ensures !saved ==> store.Contents() == mid
      ensures old(store.clock) <= at <= store.clock
      ensures saved ==>
        var cur := old(store.Contents()).rows[urn].res;
        Resources.Update(mid, Synced(this, cur, Resolved(old(store.Contents()), output, cur).value, at + syncBackoff), store.clock, false, "sync")
          == Ok(store.Contents())
      ensures saved ==>
        && urn in store.Contents().rows
        && SyncAccounted(this, old(store.Contents()).rows[urn].res, Resolved(old(store.Contents()), output, old(store.Contents()).rows[urn].res).value,
                         at + syncBackoff, store.clock, store.Contents().rows[urn].res)
      ensures var y := Play(Outset(old(store.Contents()), old(store.clock), old(store.Contents()).rows[urn].res), trace, 1);
        Reached(y, mid, at) && (saved ==> y.value.stack == [old(store.Contents()).rows[urn].res])
    {
      hide Fresh, Resolve, ConeFresh, Repeatable, Refreshed, Sound, AfterSync, SameSpecs, Ordered, Resources.Update, Rank, Play, Accepts;
      hide SyncAccounted, SyncContract, Synced;
      ghost var t := store.Contents();
      var cur := store.GetByURN(urn);
      SoundParts(t, urn);
      RanksBelow(t, cur.value);
      var spec;
      ghost var x := Outset(t, store.clock, cur.value);
      spec, trace := GenerateModuleSpec(cur.value, store.nextId + 1);
      mid, saved, at := store.Contents(), false, store.clock;
      RefreshedSound(t, output, mid);
      RefreshedSpecs(t, output, mid);
      if spec.Err? {
        return;
      }
      ghost var was := at;
      at := CallAndSave(cur.value, spec.value, t);
      PlayWaits(x, trace, 1, mid, was, at);
      trace := trace + [Waited(at)];
      saved := true;
    }

    /** Its second half: the driver is called and the row saved. */
    method CallAndSave(cur: Resource, deps: Deps, ghost t: Table) returns (ghost at: int)
      requires Sound(store.Contents()) && SyncContract(sync)
      requires Ordered(t) && Refreshed(t, output, store.Contents()) && cur.urn in t.rows && cur == t.rows[cur.urn].res
      modifies store
      ensures old(store.clock) <= at <= store.clock
      ensures Sound(store.Contents()) && SameSpecs(t, store.Contents())
      ensures Resources.Update(old(store.Contents()), Synced(this, cur, deps, at + syncBackoff), store.clock, false, "sync") == Ok(store.Contents())
      ensures cur.urn in store.Contents().rows
      ensures SyncAccounted(this, cur, deps, at + syncBackoff, store.clock, store.Contents().rows[cur.urn].res)
    {
      hide Fresh, Refreshed, Sound, AfterSync, SameSpecs, Ordered, Resources.Update, SyncAccounted, SyncContract, AccountsFor;
      ghost var mid := store.Contents();
      RefreshedSpecs(t, output, mid);
      var now := store.Now();
      at := now;
      var answer := sync(cur, deps);
      var state := NextState(cur.state, answer, now + syncBackoff);
      SyncedScheduled(this, cur, deps, now + syncBackoff);
      var e := store.Update(cur.(state := state), false, "sync");
      SyncedSound(t, mid, cur, state, store.clock, store.Contents());
      SyncedAccounts(this, t, mid, cur.urn, deps, now + syncBackoff, store.clock, store.Contents());
    }

    /** What handleSync makes of the driver's answer, one field after another. */
    method NextState(state: State<Blob, Blob>, answer: Result<State<Blob, Blob>>, tryAgainAt: int) returns (s: State<Blob, Blob>)
      ensures s == AfterSync(state, answer, maxSyncRetries, tryAgainAt)
      ensures AccountsFor(state, answer, maxSyncRetries, tryAgainAt, s)
    {
      s := state;
      if answer.Err? {
        s := s.(syncResult := s.syncResult.(lastError := Message(answer.error)));
        s := s.(syncResult := s.syncResult.(retries := s.syncResult.retries + 1));
        if answer.error == ErrInvalid {
          s := s.(status := Failed, nextSyncAt := None);
        } else if maxSyncRetries > 0 && s.syncResult.retries >= maxSyncRetries {
          s := s.(status := Failed, nextSyncAt := None);
        } else {
          s := s.(nextSyncAt := Some(tryAgainAt));
        }
      } else {
        s := answer.value;
      }
    }

    /** One turn of the syncer: lease a due resource of its scope, then sync it. */
    method SyncOne(scope: Resource -> bool)
      returns (saved: bool, picked: Option<Urn>, ghost leased: Table, ghost leasedAt: int, ghost mid: Table, ghost at: int,
               ghost trace: seq<Event>)
      requires Sound(store.Contents()) && Repeatable(output) && SyncContract(sync)
      modifies store
      ensures Sound(store.Contents()) && SameSpecs(old(store.Contents()), store.Contents())
      ensures picked.None? <==> forall u :: !old(store.Due(u, scope))
      ensures picked.None? ==> !saved && leased == old(store.Contents())
      ensures picked.Some? ==>
        && old(store.Due(picked.value, scope))
        && leased == Extend(old(store.Contents()), picked.value, leasedAt + store.extendInterval) && picked.value in leased.rows
      ensures old(store.clock) <= leasedAt <= at <= store.clock
      ensures Ordered(leased) && Refreshed(leased, output, mid)
      ensures saved <==> picked.Some? && Resolved(leased, output, leased.rows[picked.value].res).Some?
      ensures !saved ==> store.Contents() == mid
      ensures saved ==>
        var cur := leased.rows[picked.value].res;
        Resources.Update(mid, Synced(this, cur, Resolved(leased, output, cur).value, at + syncBackoff), store.clock, false, "sync")
          == Ok(store.Contents())
      ensures saved ==>
        && picked.value in store.Contents().rows
        && SyncAccounted(this, leased.rows[picked.value].res, Resolved(leased, output, leased.rows[picked.value].res).value,
                         at + syncBackoff, store.clock, store.Contents().rows[picked.value].res)
      ensures picked.Some? ==>
        var y := Play(Outset(leased, leasedAt, leased.rows[picked.value].res), trace, 1);
        Reached(y, mid, at) && (saved ==> y.value.stack == [leased.rows[picked.value].res])
      ensures picked.None? ==> store.Contents() == old(store.Contents())
    {
      hide Fresh, Resolve, ConeFresh, Repeatable, Refreshed, Sound, Ordered, SameSpecs, Resolved, Synced, SyncAccounted, Resources.Update, Play;
      ghost var t := store.Contents();
      SoundIsOrdered(t);
      RefreshedReflexive(t, output);
      SameSpecsTwice(t, t, t);
      leasedAt, at := store.clock, store.clock;
      picked := store.FetchResourceForSync(scope);
      leased, mid, saved, trace := store.Contents(), store.Contents(), false, [];
      leasedAt, at := store.clock, store.clock;
      if picked.Some? {
        LeaseSound(t, picked.value, store.clock + store.extendInterval);
        saved, mid, at, trace := SyncPicked(picked.value);
        SameSpecsTwice(t, leased, store.Contents());
      }
    }
  }

  /** cur with the state that the driver's answer to deps makes of it. */
  function Synced(svc: Service, cur: Resource, deps: Deps, tryAgainAt: int): Resource {
    cur.(state := AfterSync(cur.state, svc.sync(cur, deps), svc.maxSyncRetries, tryAgainAt))
  }

  /** The row after a sync: the same resource, its state accounted for. */
  ghost predicate SyncAccounted(svc: Service, was: Resource, deps: Deps, tryAgainAt: int, now: int, row: Resource) {
    && SameIdentity(was, row) && row.configs == was.configs && row.labels == was.labels && row.deps == was.deps
    && row.updatedBy == was.updatedBy && row.updatedAt == now
    && AccountsFor(was.state, svc.sync(was, deps), svc.maxSyncRetries, tryAgainAt, row.state)
  }

  lemma SyncedScheduled(svc: Service, cur: Resource, deps: Deps, tryAgainAt: int)
    requires SyncContract(svc.sync)
    ensures Synced(svc, cur, deps, tryAgainAt).state.IsScheduled()
  {
    AfterSyncScheduled(cur.state, svc.sync(cur, deps), svc.maxSyncRetries, tryAgainAt);
  }

  lemma SyncedAccounts(svc: Service, t: Table, mid: Table, u: Urn, deps: Deps, tryAgainAt: int, now: int, t': Table)
    requires Ordered(t) && Refreshed(t, svc.output, mid) && u in t.rows && t.rows[u].res.urn == u
    requires Resources.Update(mid, Synced(svc, t.rows[u].res, deps, tryAgainAt), now, false, "sync") == Ok(t')
    ensures u in t'.rows && SyncAccounted(svc, t.rows[u].res, deps, tryAgainAt, now, t'.rows[u].res)
  {
    hide Fresh, Ordered, AfterSync, AccountsFor;
    AfterSyncAccounts(t.rows[u].res.state, svc.sync(t.rows[u].res, deps), svc.maxSyncRetries, tryAgainAt, t'.rows[u].res.state);
  }

  lemma SoundIsOrdered(t: Table)
    requires Sound(t)
    ensures Ordered(t)
  {
  }

  /** A read answers with the row as it was and the output it has now. */
  lemma ReadRow(t: Table, out: OutputFn, t1: Table, u: Urn)
    requires Ordered(t) && Ordered(t1) && ConeFresh(t1, out, u) && Repeatable(out) && Refreshed(t, out, t1)
    ensures u in t.rows && u in t1.rows && Fresh(t, out, u) == Some(t1.rows[u].res.state.output)
    ensures t1.rows[u].res.project == t.rows[u].res.project && t1.rows[u].res.deps == t.rows[u].res.deps && t.rows[u].res.urn == u
  {
    hide Fresh, ConeFresh, Repeatable;
    FreshStable(t, out, t1, u);
    ConeFreshOutput(t1, out, u);
    hide Refreshed;
    RefreshedRoles(t, out, t1);
  }

  lemma SoundParts(t: Table, u: Urn)
    requires Sound(t) && u in t.rows
    ensures t.rows[u].res.urn == u
    ensures forall k :: k in t.rows[u].res.deps ==> Rank(t, t.rows[u].res.deps[k]) < t.nextId + 1
    ensures Ordered(t)
  {
    assert DepsBelow(t, t.rows[u].res.project, t.rows[u].res.deps, t.rows[u].id);
  }

  // ---------------------------------------------------------- planning and storing

  /** p is what the driver planned for the action on res, with merged labels. */
  predicate Planned(res: Resource, act: Action, p: Resource) {
    && p.urn == PlannedUrn(res, act) && p.kind == res.kind && p.name == res.name && p.project == res.project
    && (forall k :: k in p.deps ==> k in res.deps && p.deps[k] == res.deps[k])
    && Overrides(res.labels, act.labels, p.labels)
    && p.state.IsScheduled()
    && ValidNames(p)
  }

  lemma StampedPlanned(p: Resource, res: Resource, act: Action, at: int)
    requires Planned(res, act, p)
    ensures Planned(res, act, Stamped(p, res, act, at))
  {
  }

  /** res is a copy of a stored row, give or take its state. */
  predicate SameResource(t: Table, res: Resource) {
    res.urn in t.rows && t.rows[res.urn].res.project == res.project && t.rows[res.urn].res.deps == res.deps
  }

  /** An accepted action: one row written whole, one revision appended. */
  predicate Accepted(t: Table, act: Action, p: Resource, now: int, t': Table) {
    if act.name == CREATE_ACTION then Resources.Create(t, p) == Ok(t')
    else Resources.Update(t, p, now, true, "action:" + act.name) == Ok(t')
  }

  /** The row of p is new and its dependencies exist, so storing it keeps the invariants. */
  lemma CreatedSound(t: Table, res: Resource, act: Action, p: Resource, t': Table)
    requires Sound(t) && Planned(res, act, p)
    requires forall k :: k in p.deps ==> Ready(t, res, p.deps[k])
    requires t' == if Resources.Create(t, p).Ok? then Resources.Create(t, p).value else t
    ensures Sound(t')
    ensures PlannedUrn(res, act) !in t.rows <==> Resources.Create(t, p).Ok?
    ensures Resources.Create(t, p).Err? ==> Resources.Create(t, p).error == ErrConflict
  {
    if p.urn !in t.rows {
      assert DepsBelow(t, p.project, p.deps, t.nextId);
      InsertSound(t, p);
    }
  }

  lemma UpdatedSound(t: Table, res: Resource, act: Action, p: Resource, now: int, reason: string, t': Table)
    requires Sound(t) && SameResource(t, res) && Planned(res, act, p) && act.name != CREATE_ACTION
    requires t' == if Resources.Update(t, p, now, true, reason).Ok? then Resources.Update(t, p, now, true, reason).value else t
    ensures Sound(t') && Resources.Update(t, p, now, true, reason).Ok?
  {
    assert DepsBelow(t, t.rows[p.urn].res.project, t.rows[p.urn].res.deps, t.rows[p.urn].id);
    CommitSound(t, p, now, reason);
  }

  /** What an accepted action leaves of the resource: the same identity, everything it asked of
      the labels, who acted and when, and one more revision that says the same and why. */
  predicate Filed(t: Table, t': Table, u: Urn, act: Action, now: int) {
    && u in t.rows && u in t'.rows && SameIdentity(t.rows[u].res, t'.rows[u].res)
    && Overrides(t.rows[u].res.labels, act.labels, t'.rows[u].res.labels)
    && t'.rows[u].res.updatedBy == act.userId && t'.rows[u].res.updatedAt == now
    && |t'.revisions| == |t.revisions| + 1 && t'.revisions[..|t.revisions|] == t.revisions
    && Describes(t'.revisions[|t.revisions|], t'.rows[u].res, "action:" + act.name)
  }

  lemma AcceptedIsFiled(t: Table, out: OutputFn, mid: Table, u: Urn, cur: Resource, act: Action, p: Resource, now: int, t': Table)
    requires Ordered(t) && Refreshed(t, out, mid) && Fresh(t, out, u).Some? && u in t.rows && t.rows[u].res.urn == u
    requires cur == Current(t, out, u) && act.name != CREATE_ACTION
    requires Planned(cur, act, p) && p.updatedBy == act.userId && Accepted(mid, act, p, now, t')
    ensures Filed(t, t', u, act, now)
  {
    hide Fresh, Ordered, Overrides, ValidNames;
    assert mid.revisions == t.revisions;
    assert t'.revisions == t.revisions + [RevisionOf(p, "action:" + act.name)];
  }

  /** What a sync never touches. */
  predicate SameSpecs(t: Table, t': Table) {
    && t'.rows.Keys == t.rows.Keys && t'.revisions == t.revisions
    && forall u :: u in t.rows ==>
         && t'.rows[u].id == t.rows[u].id
         && t'.rows[u].res.configs == t.rows[u].res.configs
         && t'.rows[u].res.labels == t.rows[u].res.labels
         && t'.rows[u].res.deps == t.rows[u].res.deps
         && t'.rows[u].res.project == t.rows[u].res.project
  }

  lemma SameSpecsTwice(t: Table, t1: Table, t2: Table)
    ensures SameSpecs(t, t)
    ensures SameSpecs(t, t1) && SameSpecs(t1, t2) ==> SameSpecs(t, t2)
  {
  }

  lemma LeaseSound(t: Table, u: Urn, until: int)
    requires Sound(t)
    ensures Sound(Extend(t, u, until)) && SameSpecs(t, Extend(t, u, until)) && Ordered(Extend(t, u, until))
  {
    hide Ordered, Recorded, SameSpecs;
    ExtendKeepsOrder(t, u, until);
    ExtendSpecs(t, u, until);
    RecordedStays(t, Extend(t, u, until));
  }

  lemma ExtendSpecs(t: Table, u: Urn, until: int)
    ensures SameSpecs(t, Extend(t, u, until))
  {
  }

  lemma RecordedStays(t: Table, t': Table)
    requires Recorded(t) && SameSpecs(t, t')
    ensures Recorded(t')
  {
    hide LatestRevision;
  }

  lemma RefreshedSpecs(t: Table, out: OutputFn, t': Table)
    requires Ordered(t) && Refreshed(t, out, t')
    ensures SameSpecs(t, t')
  {
  }

  lemma SyncedSound(t0: Table, t: Table, cur: Resource, state: State<Blob, Blob>, now: int, t': Table)
    requires cur.urn in t0.rows && cur == t0.rows[cur.urn].res && SameSpecs(t0, t)
    requires Sound(t) && state.IsScheduled()
    requires var r := Resources.Update(t, cur.(state := state), now, false, "sync"); t' == if r.Ok? then r.value else t
    ensures Sound(t') && SameSpecs(t0, t') && Resources.Update(t, cur.(state := state), now, false, "sync").Ok?
  {
    var r := cur.(state := state);
    assert DepsBelow(t, t.rows[r.urn].res.project, t.rows[r.urn].res.deps, t.rows[r.urn].id);
    hide Ordered, Recorded, DepsBelow;
    UpdateKeepsOrder(t, r, now, false, "sync");
    SavedSpecs(t0, t, cur, state, now);
    RecordedStays(t, Resources.Update(t, r, now, false, "sync").value);
  }

  lemma SavedSpecs(t0: Table, t: Table, cur: Resource, state: State<Blob, Blob>, now: int)
    requires cur.urn in t0.rows && cur == t0.rows[cur.urn].res && SameSpecs(t0, t)
    requires Resources.Update(t, cur.(state := state), now, false, "sync").Ok?
    ensures var t' := Resources.Update(t, cur.(state := state), now, false, "sync").value; SameSpecs(t, t') && SameSpecs(t0, t')
  {
  }

  // ------------------------------------------------------ steps of the two methods

  lemma UrnIsKey(t: Table, u: Urn)
    requires Ordered(t)
    ensures u in t.rows ==> t.rows[u].res.urn == u
  {
  }

  lemma GatheredWaits(x: Point, trace: seq<Event>, t: Table, was: int, now: int, res: Resource)
    requires Reached(Play(x, trace, 1), t, was) && was <= now && Gathered(Play(x, trace, 1), t, was, res, res.deps.Keys)
    ensures Reached(Play(x, trace + [Waited(now)], 1), t, now)
    ensures Gathered(Play(x, trace + [Waited(now)], 1), t, now, res, res.deps.Keys)
  {
    hide Play, Gathered;
    PlayWaits(x, trace, 1, t, was, now);
    GatheredLater(Play(x, trace, 1), Play(x, trace + [Waited(now)], 1), t, was, now, res, res.deps.Keys);
  }

  lemma GatheredThen(x: Point, trace: seq<Event>, t: Table, was: int, res: Resource, more: seq<Event>, t': Table, now: int)
    requires Reached(Play(x, trace, 0), t, was) && Play(x, trace, 0).value.stack == [res]
    requires Reached(Play(Outset(t, was, res), more, 1), t', now)
    ensures Reached(Play(x, trace + more, 0), t', now)
    ensures Gathered(Play(Outset(t, was, res), more, 1), t', now, res, res.deps.Keys) ==>
      Gathered(Play(x, trace + more, 0), t', now, res, res.deps.Keys)
  {
    hide Play, Gathered;
    PlayThen(x, trace, t, was, res, more, t', now);
    if Gathered(Play(Outset(t, was, res), more, 1), t', now, res, res.deps.Keys) {
      GatheredLater(Play(Outset(t, was, res), more, 1), Play(x, trace + more, 0), t', now, now, res, res.deps.Keys);
    }
  }

  /** Part-way through GenerateModuleSpec: what is resolved, and how it was. */
  ghost predicate Midway(t: Table, out: OutputFn, res: Resource, resolved: Deps, x: Point, trace: seq<Event>, t1: Table, now: int)
    requires Ordered(t) && Ordered(t1)
  {
    PartlyResolved(t, out, res, resolved, t1) && Gathered(Play(x, trace, 1), t1, now, res, resolved.Keys)
  }

  /** The trace of generateModuleSpec after one more nested call. */
  lemma NestedTrace(x: Point, trace: seq<Event>, res: Resource, keys: set<string>, t1: Table, was: int,
                    k: string, d: Result<Resource>, nested: seq<Event>, t2: Table, now: int)
    returns (longer: seq<Event>)
    requires Gathered(Play(x, trace, 1), t1, was, res, keys) && k in res.deps
    requires res.deps[k] !in t1.rows ==> d.Err? && t2 == t1 && now == was
    requires res.deps[k] in t1.rows ==>
      var y := Play(Outset(t1, was, t1.rows[res.deps[k]].res), nested, 0);
      Reached(y, t2, now) && (d.Ok? ==> y.value.stack == [d.value] && d.value.urn == res.deps[k])
    ensures Reached(Play(x, longer, 1), t2, now)
    ensures d.Ok? && d.value.state.status == Completed && d.value.project == res.project ==>
      Gathered(Play(x, longer, 1), t2, now, res, keys + {k})
  {
    hide Play, Accepts, Into;
    if res.deps[k] !in t1.rows {
      longer := trace;
    } else if d.Ok? && d.value.state.status == Completed && d.value.project == res.project {
      longer := Into(trace, k, nested) + [Left];
      GatherMore(x, trace, res, keys, t1, was, k, nested, t2, now, d.value);
    } else {
      longer := Into(trace, k, nested);
      PlayInto(x, trace, res, t1, was, k, nested, t2, now);
    }
  }

  lemma RefreshedReflexive(t: Table, out: OutputFn)
    requires Ordered(t)
    ensures Refreshed(t, out, t)
  {
  }

  lemma RefreshedRank(t: Table, out: OutputFn, t': Table, u: Urn)
    requires Ordered(t) && Refreshed(t, out, t')
    ensures Rank(t', u) == Rank(t, u)
  {
  }

  /** Part-way through GenerateModuleSpec, for the tables t it started from. */
  ghost predicate PartlyResolved(t: Table, out: OutputFn, res: Resource, resolved: Deps, t1: Table)
    requires Ordered(t) && Ordered(t1)
  {
    && resolved.Keys <= res.deps.Keys
    && forall k :: k in resolved ==>
         && Ready(t, res, res.deps[k]) && Ready(t1, res, res.deps[k])
         && Fresh(t, out, res.deps[k]).Some?
         && resolved[k] == Dependency(t.rows[res.deps[k]].res.kind, Fresh(t, out, res.deps[k]).value)
         && ConeFresh(t1, out, res.deps[k])
  }

  lemma RefreshedRoles(t: Table, out: OutputFn, t': Table)
    requires Ordered(t) && Refreshed(t, out, t')
    ensures SameRoles(t, t')
  {
  }

  /** One more dependency was asked for: the answer is the one the original tables give. */
  lemma ResolveStep(t: Table, out: OutputFn, res: Resource, t1: Table, k: string, t2: Table)
    requires Ordered(t) && Ordered(t1) && Ordered(t2) && Repeatable(out)
    requires Refreshed(t, out, t1) && Refreshed(t1, out, t2) && k in res.deps
    ensures Refreshed(t, out, t2) && SameRoles(t, t2) && SameRoles(t1, t2)
    ensures Fresh(t1, out, res.deps[k]) == Fresh(t, out, res.deps[k])
    ensures ConeFresh(t2, out, res.deps[k]) ==>
      res.deps[k] in t2.rows && Fresh(t, out, res.deps[k]) == Some(t2.rows[res.deps[k]].res.state.output)
  {
    hide Fresh, Refreshed, Ordered, Repeatable, ConeFresh, SameRoles;
    RefreshedTransitive(t, out, t1, t2);
    RefreshedRoles(t, out, t2);
    RefreshedRoles(t1, out, t2);
    FreshStable(t, out, t1, res.deps[k]);
    if ConeFresh(t2, out, res.deps[k]) {
      FreshStable(t, out, t2, res.deps[k]);
      ConeFreshOutput(t2, out, res.deps[k]);
    }
  }

  lemma AddResolved(t: Table, out: OutputFn, res: Resource, resolved: Deps, k: string, t2: Table)
    requires Ordered(t) && Ordered(t2) && SameRoles(t, t2) && PartlyResolved(t, out, res, resolved, t2)
    requires k in res.deps && ConeFresh(t2, out, res.deps[k]) && Ready(t2, res, res.deps[k])
    requires Fresh(t, out, res.deps[k]) == Some(t2.rows[res.deps[k]].res.state.output)
    ensures PartlyResolved(t, out, res, resolved[k := Dependency(t2.rows[res.deps[k]].res.kind, t2.rows[res.deps[k]].res.state.output)], t2)
  {
    hide Fresh, Ordered, ConeFresh;
  }

  /** Earlier dependencies stay resolved. */
  lemma ResolveNext(t: Table, out: OutputFn, res: Resource, resolved: Deps, t1: Table, k: string, t2: Table)
    requires Ordered(t) && Ordered(t1) && Ordered(t2) && Repeatable(out)
    requires Refreshed(t, out, t1) && Refreshed(t1, out, t2) && k in res.deps
    requires PartlyResolved(t, out, res, resolved, t1)
    ensures Refreshed(t, out, t2) && SameRoles(t, t2)
    ensures Fresh(t1, out, res.deps[k]) == Fresh(t, out, res.deps[k])
    ensures PartlyResolved(t, out, res, resolved, t2)
    ensures ConeFresh(t2, out, res.deps[k]) && Ready(t2, res, res.deps[k]) ==>
      Fresh(t, out, res.deps[k]) == Some(t2.rows[res.deps[k]].res.state.output)
      && PartlyResolved(t, out, res, resolved[k := Dependency(t2.rows[res.deps[k]].res.kind, t2.rows[res.deps[k]].res.state.output)], t2)
  {
    hide Fresh, Refreshed, Ordered, Repeatable, ConeFresh, PartlyResolved, SameRoles, Ready;
    ResolveStep(t, out, res, t1, k, t2);
    StillResolved(t, out, res, resolved, t1, t2);
    if ConeFresh(t2, out, res.deps[k]) && Ready(t2, res, res.deps[k]) {
      AddResolved(t, out, res, resolved, k, t2);
    }
  }

  lemma ConeFreshOutput(t: Table, out: OutputFn, u: Urn)
    requires Ordered(t) && ConeFresh(t, out, u)
    ensures u in t.rows && Fresh(t, out, u) == Some(t.rows[u].res.state.output)
  {
  }

  lemma StillResolved(t: Table, out: OutputFn, res: Resource, resolved: Deps, t1: Table, t2: Table)
    requires Ordered(t) && Ordered(t1) && Ordered(t2) && Repeatable(out)
    requires Refreshed(t1, out, t2) && SameRoles(t1, t2)
    requires PartlyResolved(t, out, res, resolved, t1)
    ensures PartlyResolved(t, out, res, resolved, t2)
  {
    hide Fresh, Refreshed, Ordered, Repeatable, ConeFresh;
    forall k | k in resolved
      ensures Ready(t2, res, res.deps[k]) && ConeFresh(t2, out, res.deps[k])
    {
      ConeFreshStable(t1, out, t2, res.deps[k]);
    }
  }

  lemma Unresolved(t: Table, out: OutputFn, res: Resource, bound: nat, k: string)
    requires Ordered(t) && forall j :: j in res.deps ==> Rank(t, res.deps[j]) < bound
    requires k in res.deps && !(Ready(t, res, res.deps[k]) && Fresh(t, out, res.deps[k]).Some?)
    ensures Resolve(t, out, res, bound).None?
  {
    hide Fresh;
    ResolveIs(t, out, res, bound);
  }

  lemma FullyResolved(t: Table, out: OutputFn, res: Resource, bound: nat, resolved: Deps, t1: Table)
    requires Ordered(t) && Ordered(t1) && forall j :: j in res.deps ==> Rank(t, res.deps[j]) < bound
    requires PartlyResolved(t, out, res, resolved, t1) && forall k :: k in res.deps ==> k in resolved
    ensures Resolve(t, out, res, bound) == Some(resolved)
    ensures forall k :: k in res.deps ==> Ready(t1, res, res.deps[k]) && ConeFresh(t1, out, res.deps[k])
  {
    hide Fresh, Resolve, ConeFresh;
    assert resolved.Keys == res.deps.Keys;
    ResolveIs(t, out, res, bound);
    var r := Resolve(t, out, res, bound);
    assert r.Some?;
    assert r.value == resolved;
  }

  /** The write-back of one refreshed output. */
  lemma UpToDate(t: Table, out: OutputFn, t1: Table, u: Urn, res: Resource, t2: Table, now: int)
    requires Ordered(t) && Ordered(t1) && Repeatable(out) && Refreshed(t, out, t1)
    requires u in t.rows && Fresh(t, out, u).Some?
    requires res == t.rows[u].res.(state := t.rows[u].res.state.(output := Fresh(t, out, u).value))
    requires DepsBelow(t, t.rows[u].res.project, t.rows[u].res.deps, t.rows[u].id)
    requires forall k :: k in res.deps ==> ConeFresh(t1, out, res.deps[k])
    requires Resources.Update(t1, res, now, false, "") == Ok(t2)
    ensures Ordered(t2) && Refreshed(t, out, t2) && ConeFresh(t2, out, u)
    ensures t2.rows[u].res.state.output == Fresh(t, out, u).value
  {
    FreshStable(t, out, t1, u);
    WrittenBack(t, out, t1, u, res, t2, now);
    hide Fresh, Ordered, Refreshed, Repeatable;
    RefreshedTransitive(t, out, t1, t2);
    FreshStable(t1, out, t2, u);
    RefreshedRoles(t1, out, t2);
    forall k | k in res.deps { ConeFreshStable(t1, out, t2, res.deps[k]); }
  }

  lemma WrittenBack(t: Table, out: OutputFn, t1: Table, u: Urn, res: Resource, t2: Table, now: int)
    requires Ordered(t) && Ordered(t1) && Refreshed(t, out, t1)
    requires u in t.rows && Fresh(t, out, u).Some? && Fresh(t1, out, u) == Fresh(t, out, u)
    requires res == t.rows[u].res.(state := t.rows[u].res.state.(output := Fresh(t, out, u).value))
    requires DepsBelow(t, t.rows[u].res.project, t.rows[u].res.deps, t.rows[u].id)
    requires Resources.Update(t1, res, now, false, "") == Ok(t2)
    ensures Ordered(t2) && Refreshed(t1, out, t2)
    ensures t2.rows[u] == WithOutput(t1.rows[u], Fresh(t, out, u).value, now) && t2.rows[u].res.deps == res.deps
  {
    assert t.rows[u].res.urn == u;
    RefreshedOrdered(t, out, t1);
    RefreshedAt(t, out, t1, u);
    hide Fresh, Ordered, Refreshed, DepsBelow;
    DepsBelowStable(t, t1, t.rows[u].res.project, res.deps, t1.rows[u].id);
    UpdateKeepsOrder(t1, res, now, false, "");
    OneOutputWritten(t1, out, u, res, t2, now);
  }

  lemma OneOutputWritten(t1: Table, out: OutputFn, u: Urn, res: Resource, t2: Table, now: int)
    requires Ordered(t1) && res.urn == u && Resources.Update(t1, res, now, false, "") == Ok(t2)
    requires Fresh(t1, out, u) == Some(res.state.output)
    requires Overwrite(t1.rows[u], res, now) == WithOutput(t1.rows[u], res.state.output, now)
    ensures Refreshed(t1, out, t2) && t2.rows[u] == WithOutput(t1.rows[u], res.state.output, now)
  {
    hide Fresh, Ordered;
  }

  /** No write-back: the row may have been refreshed already, through a shared dependency. */
  lemma KeptUpToDate(t: Table, out: OutputFn, t1: Table, u: Urn)
    requires Ordered(t) && Ordered(t1) && Repeatable(out) && Refreshed(t, out, t1)
    requires u in t.rows && Fresh(t, out, u) == Some(t.rows[u].res.state.output)
    requires forall k :: k in t.rows[u].res.deps ==> ConeFresh(t1, out, t.rows[u].res.deps[k])
    ensures ConeFresh(t1, out, u) && t1.rows[u].res.state.output == t.rows[u].res.state.output
  {
    FreshStable(t, out, t1, u);
  }

  predicate Usable(res: Resource, d: Result<Resource>) {
    d.Ok? && d.value.state.status == Completed && d.value.project == res.project
  }

  lemma ConeFreshRow(t: Table, out: OutputFn, u: Urn)
    requires Ordered(t)
    ensures ConeFresh(t, out, u) ==> u in t.rows
  {
  }

  /** One dependency asked for, and its answer. */
  lemma Asked(t: Table, out: OutputFn, res: Resource, resolved: Deps, bound: nat, x: Point, trace: seq<Event>, t1: Table, was: int,
              k: string, d: Result<Resource>, nested: seq<Event>, t2: Table, now: int)
    returns (longer: seq<Event>)
    requires Ordered(t) && Ordered(t1) && Ordered(t2) && Repeatable(out) && Refreshed(t, out, t1) && Refreshed(t1, out, t2)
    requires Midway(t, out, res, resolved, x, trace, t1, was) && k in res.deps
    requires forall j :: j in res.deps ==> Rank(t, res.deps[j]) < bound
    requires d.Ok? <==> Fresh(t1, out, res.deps[k]).Some?
    requires d.Ok? ==>
      && ConeFresh(t2, out, res.deps[k]) && res.deps[k] in t1.rows && res.deps[k] in t2.rows && t1.rows[res.deps[k]].res.urn == res.deps[k]
      && d.value == t1.rows[res.deps[k]].res.(state := t1.rows[res.deps[k]].res.state.(output := t2.rows[res.deps[k]].res.state.output))
    requires res.deps[k] !in t1.rows ==> d.Err? && t2 == t1 && now == was
    requires res.deps[k] in t1.rows ==>
      var y := Play(Outset(t1, was, t1.rows[res.deps[k]].res), nested, 0);
      Reached(y, t2, now) && (d.Ok? ==> y.value.stack == [d.value])
    ensures Refreshed(t, out, t2) && Reached(Play(x, longer, 1), t2, now)
    ensures Usable(res, d) ==> Midway(t, out, res, resolved[k := Dependency(d.value.kind, d.value.state.output)], x, longer, t2, now)
    ensures !Usable(res, d) ==> Resolve(t, out, res, bound).None?
  {
    hide Fresh, Resolve, ConeFresh, Refreshed, Ordered, Rank, PartlyResolved, Play, Gathered, SameRoles, Repeatable;
    ResolveNext(t, out, res, resolved, t1, k, t2);
    longer := NestedTrace(x, trace, res, resolved.Keys, t1, was, k, d, nested, t2, now);
    if d.Ok? {
      AnswerReady(t, out, res, t1, k, d, t2);
    }
    if Usable(res, d) {
      var more := resolved[k := Dependency(d.value.kind, d.value.state.output)];
      assert more.Keys == resolved.Keys + {k};
    } else {
      Unresolved(t, out, res, bound, k);
    }
  }

  lemma AnswerReady(t: Table, out: OutputFn, res: Resource, t1: Table, k: string, d: Result<Resource>, t2: Table)
    requires Ordered(t) && Ordered(t1) && Refreshed(t1, out, t2) && SameRoles(t, t2) && k in res.deps && d.Ok?
    requires res.deps[k] in t1.rows && res.deps[k] in t2.rows
    requires d.value == t1.rows[res.deps[k]].res.(state := t1.rows[res.deps[k]].res.state.(output := t2.rows[res.deps[k]].res.state.output))
    ensures Ready(t2, res, res.deps[k]) == Ready(t, res, res.deps[k]) == Usable(res, d)
    ensures d.value.kind == t2.rows[res.deps[k]].res.kind
  {
    hide Fresh, Ordered;
    RefreshedRoles(t1, out, t2);
  }

  /** All of them asked for. */
  lemma Gone(t: Table, out: OutputFn, res: Resource, bound: nat, resolved: Deps, x: Point, trace: seq<Event>, t1: Table, now: int)
    requires Ordered(t) && Ordered(t1) && forall j :: j in res.deps ==> Rank(t, res.deps[j]) < bound
    requires Midway(t, out, res, resolved, x, trace, t1, now) && forall k :: k in res.deps ==> k in resolved
    ensures Resolve(t, out, res, bound) == Some(resolved)
    ensures forall k :: k in res.deps ==> Ready(t1, res, res.deps[k]) && ConeFresh(t1, out, res.deps[k])
    ensures Gathered(Play(x, trace, 1), t1, now, res, res.deps.Keys)
  {
    hide Fresh, Resolve, ConeFresh, Rank, Play, Gathered, Ready, PartlyResolved;
    FullyResolved(t, out, res, bound, resolved, t1);
    AllResolved(t, out, res, resolved, t1);
  }

  lemma AllResolved(t: Table, out: OutputFn, res: Resource, resolved: Deps, t1: Table)
    requires Ordered(t) && Ordered(t1)
    requires PartlyResolved(t, out, res, resolved, t1) && forall k :: k in res.deps ==> k in resolved
    ensures resolved.Keys == res.deps.Keys
  {
    hide Fresh, Ordered, ConeFresh, Ready;
  }
}
