/** What GetResource computes, as a function of the tables alone: the output a resource would
    have if every resource it depends on were refreshed first. */
module Outputs {
  import opened Text
  import opened Resources

  datatype Dependency = Dependency(kind: string, output: Blob)

  type Deps = map<string, Dependency>

  /** A driver's Output with the outside world frozen. */
  type OutputFn = (Resource, Deps) -> Result<Blob>

  /** Asking again after the answer was stored gives the same answer. */
  ghost predicate Repeatable(out: OutputFn) {
    forall res, deps, o, now ::
      out(res, deps) == Ok(o) ==> out(res.(state := res.state.(output := o), updatedAt := now), deps) == Ok(o)
  }

  /** d may be used as a dependency of res. */
  predicate Ready(t: Table, res: Resource, d: Urn) {
    d in t.rows && t.rows[d].res.state.status == Completed && t.rows[d].res.project == res.project
  }

  /** The refreshed outputs of the dependencies of res, if all can be had. */
  function Resolve(t: Table, out: OutputFn, res: Resource, bound: nat): Option<Deps>
    requires Ordered(t) && forall k :: k in res.deps ==> Rank(t, res.deps[k]) < bound
    decreases bound, 0
  {
    if forall k :: k in res.deps ==> Ready(t, res, res.deps[k]) && Fresh(t, out, res.deps[k]).Some? then
      Some(map k | k in res.deps :: Dependency(t.rows[res.deps[k]].res.kind, Fresh(t, out, res.deps[k]).value))
    else None
  }

  function Fresh(t: Table, out: OutputFn, u: Urn): Option<Blob>
    requires Ordered(t)
    decreases Rank(t, u), 1
  {
    if u !in t.rows then None
    else
      assert DepsBelow(t, t.rows[u].res.project, t.rows[u].res.deps, t.rows[u].id);
      match Resolve(t, out, t.rows[u].res, Rank(t, u))
      case None => None
      case Some(deps) =>
        match out(t.rows[u].res, deps)
        case Ok(o) => Some(o)
        case Err(_) => None
  }

  function WithOutput(row: Row, o: Blob, now: int): Row {
    row.(res := row.res.(updatedAt := now, state := row.res.state.(output := o)))
  }

  /** t' is t with some outputs refreshed and nothing else changed but their update times. */
  predicate Refreshed(t: Table, out: OutputFn, t': Table)
    requires Ordered(t)
  {
    && t'.rows.Keys == t.rows.Keys && t'.revisions == t.revisions && t'.nextId == t.nextId
    && forall u :: u in t.rows ==>
         || t'.rows[u] == t.rows[u]
         || (Fresh(t, out, u).Some? && t'.rows[u] == WithOutput(t.rows[u], Fresh(t, out, u).value, t'.rows[u].res.updatedAt))
  }

  lemma RefreshedOrdered(t: Table, out: OutputFn, t': Table)
    requires Ordered(t) && Refreshed(t, out, t')
    ensures Ordered(t') && SameIdentities(t, t')
  {
    forall u | u in t'.rows ensures DepsBelow(t', t'.rows[u].res.project, t'.rows[u].res.deps, t'.rows[u].id) {
      DepsBelowStable(t, t', t.rows[u].res.project, t.rows[u].res.deps, t.rows[u].id);
    }
  }

  /** Fresh is the driver's answer to the resolved dependencies. */
  lemma FreshIs(t: Table, out: OutputFn, u: Urn)
    requires Ordered(t) && u in t.rows
    ensures DepsBelow(t, t.rows[u].res.project, t.rows[u].res.deps, t.rows[u].id)
    ensures var deps := Resolve(t, out, t.rows[u].res, Rank(t, u));
      forall o :: Fresh(t, out, u) == Some(o) <==> deps.Some? && out(t.rows[u].res, deps.value) == Ok(o)
  {
  }

  /** What refreshing leaves alone, as far as dependencies are concerned. */
  predicate SameRoles(t: Table, t': Table) {
    && t'.rows.Keys == t.rows.Keys
    && forall u :: u in t.rows ==>
         && t'.rows[u].res.deps == t.rows[u].res.deps
         && t'.rows[u].res.kind == t.rows[u].res.kind
         && t'.rows[u].res.project == t.rows[u].res.project
         && t'.rows[u].res.state.status == t.rows[u].res.state.status
  }

  /** What Resolve answers, key by key. */
  lemma ResolveIs(t: Table, out: OutputFn, res: Resource, bound: nat)
    requires Ordered(t) && forall k :: k in res.deps ==> Rank(t, res.deps[k]) < bound
    ensures Resolve(t, out, res, bound).Some?
       <==> forall k :: k in res.deps ==> Ready(t, res, res.deps[k]) && Fresh(t, out, res.deps[k]).Some?
    ensures var r := Resolve(t, out, res, bound);
      r.Some? ==> r.value.Keys == res.deps.Keys && forall k :: k in res.deps ==>
        r.value[k] == Dependency(t.rows[res.deps[k]].res.kind, Fresh(t, out, res.deps[k]).value)
  {
    hide Fresh, Ordered;
  }

  lemma ReadyStable(t: Table, t': Table, res: Resource, res': Resource, d: Urn)
    requires SameRoles(t, t') && res'.project == res.project
    ensures Ready(t', res', d) == Ready(t, res, d)
    ensures Ready(t, res, d) ==> t'.rows[d].res.kind == t.rows[d].res.kind
  {
  }

  lemma ResolveStable(t: Table, out: OutputFn, t': Table, res: Resource, res': Resource, bound: nat)
    requires Ordered(t) && Ordered(t') && SameRoles(t, t') && res'.deps == res.deps && res'.project == res.project
    requires forall k :: k in res.deps ==> Rank(t, res.deps[k]) < bound && Rank(t', res.deps[k]) < bound
    requires forall k :: k in res.deps ==> Fresh(t', out, res.deps[k]) == Fresh(t, out, res.deps[k])
    ensures Resolve(t', out, res', bound) == Resolve(t, out, res, bound)
  {
    hide Fresh, Resolve, Ordered, Rank, SameRoles, Ready;
    ResolveIs(t, out, res, bound);
    ResolveIs(t', out, res', bound);
    var a, b := Resolve(t, out, res, bound), Resolve(t', out, res', bound);
    forall k | k in res.deps
      ensures Ready(t', res', res.deps[k]) == Ready(t, res, res.deps[k])
      ensures a.Some? && b.Some? ==> a.value[k] == b.value[k]
    {
      ReadyStable(t, t', res, res', res.deps[k]);
    }
    assert a.Some? == b.Some?;
    if a.Some? {
      assert a.value == b.value;
    }
  }

  lemma RefreshedAt(t: Table, out: OutputFn, t': Table, u: Urn)
    requires Ordered(t) && Refreshed(t, out, t') && u in t.rows
    ensures SameRoles(t, t') && Rank(t', u) == Rank(t, u)
    ensures t'.rows[u] == t.rows[u]
      || (Fresh(t, out, u).Some? && t'.rows[u] == WithOutput(t.rows[u], Fresh(t, out, u).value, t'.rows[u].res.updatedAt))
  {
    hide Fresh;
  }

  /** Refreshing some outputs never changes what refreshing computes. */
  lemma {:induction false} FreshStable(t: Table, out: OutputFn, t': Table, u: Urn)
    requires Ordered(t) && Ordered(t') && Repeatable(out) && Refreshed(t, out, t')
    ensures Fresh(t', out, u) == Fresh(t, out, u)
    decreases Rank(t, u)
  {
    if u in t.rows {
      hide Fresh, Resolve, Refreshed, Ordered;
      RefreshedAt(t, out, t', u);
      FreshIs(t, out, u);
      FreshIs(t', out, u);
      forall k | k in t.rows[u].res.deps {
        FreshStable(t, out, t', t.rows[u].res.deps[k]);
      }
      ResolveStable(t, out, t', t.rows[u].res, t'.rows[u].res, Rank(t, u));
      var deps := Resolve(t, out, t.rows[u].res, Rank(t, u));
      if Fresh(t, out, u).Some? {
        var o := Fresh(t, out, u).value;
        var again := t.rows[u].res.(state := t.rows[u].res.state.(output := o), updatedAt := t'.rows[u].res.updatedAt);
        assert out(again, deps.value) == Ok(o);
        assert t'.rows[u].res == t.rows[u].res || t'.rows[u].res == again;
        assert out(t'.rows[u].res, deps.value) == Ok(o);
      } else {
        assert t'.rows[u] == t.rows[u];
        assert forall o :: Fresh(t', out, u) != Some(o);
      }
    } else {
      assert Fresh(t, out, u) == Fresh(t', out, u);
    }
  }

  lemma RefreshedTransitive(t: Table, out: OutputFn, t1: Table, t2: Table)
    requires Ordered(t) && Ordered(t1) && Repeatable(out) && Refreshed(t, out, t1) && Refreshed(t1, out, t2)
    ensures Refreshed(t, out, t2)
  {
    forall u | u in t.rows { FreshStable(t, out, t1, u); }
  }

  /** Every output in the cone of u is stored and up to date. */
  predicate ConeFresh(t: Table, out: OutputFn, u: Urn)
    requires Ordered(t)
    decreases Rank(t, u)
  {
    && u in t.rows
    && Fresh(t, out, u) == Some(t.rows[u].res.state.output)
    && (assert DepsBelow(t, t.rows[u].res.project, t.rows[u].res.deps, t.rows[u].id);
        forall k :: k in t.rows[u].res.deps ==> ConeFresh(t, out, t.rows[u].res.deps[k]))
  }

  lemma {:induction false} ConeFreshStable(t: Table, out: OutputFn, t': Table, u: Urn)
    requires Ordered(t) && Ordered(t') && Repeatable(out) && Refreshed(t, out, t') && ConeFresh(t, out, u)
    ensures ConeFresh(t', out, u)
    decreases Rank(t, u)
  {
    FreshStable(t, out, t', u);
    assert DepsBelow(t, t.rows[u].res.project, t.rows[u].res.deps, t.rows[u].id);
    forall k | k in t.rows[u].res.deps ensures ConeFresh(t', out, t'.rows[u].res.deps[k]) {
      ConeFreshStable(t, out, t', t.rows[u].res.deps[k]);
    }
  }

  function StoredDeps(t: Table, res: Resource): Deps
    requires forall k :: k in res.deps ==> res.deps[k] in t.rows
  {
    map k | k in res.deps :: Dependency(t.rows[res.deps[k]].res.kind, t.rows[res.deps[k]].res.state.output)
  }

  /** The stored output is what the driver answers given the stored outputs below it, which
      belong to completed resources of the same project. */
  predicate Coherent(t: Table, out: OutputFn, u: Urn) {
    && u in t.rows
    && (forall k :: k in t.rows[u].res.deps ==> Ready(t, t.rows[u].res, t.rows[u].res.deps[k]))
    && out(t.rows[u].res, StoredDeps(t, t.rows[u].res)) == Ok(t.rows[u].res.state.output)
  }

  lemma ConeFreshIsCoherent(t: Table, out: OutputFn, u: Urn)
    requires Ordered(t) && ConeFresh(t, out, u)
    ensures Coherent(t, out, u)
  {
    var res := t.rows[u].res;
    assert DepsBelow(t, res.project, res.deps, t.rows[u].id);
    var deps := Resolve(t, out, res, Rank(t, u)).value;
    forall k | k in res.deps ensures deps[k] == StoredDeps(t, res)[k] {
      assert ConeFresh(t, out, res.deps[k]);
    }
    assert deps == StoredDeps(t, res);
  }

  /** Cache coherence, in the reader's terms: along every path of dependencies from u, shared
      ones included, the stored outputs fit together. */
  lemma {:induction false} ConeCoherence(t: Table, out: OutputFn, path: seq<Urn>)
    requires Ordered(t) && IsPath(t, path) && ConeFresh(t, out, path[0])
    ensures forall i :: 0 <= i < |path| ==> Coherent(t, out, path[i])
    ensures forall i :: 0 < i < |path| ==> Ready(t, t.rows[path[0]].res, path[i])
  {
    ConeFreshIsCoherent(t, out, path[0]);
    if |path| > 1 {
      var k :| k in t.rows[path[0]].res.deps && t.rows[path[0]].res.deps[k] == path[1];
      assert Ready(t, t.rows[path[0]].res, path[1]) && ConeFresh(t, out, path[1]);
      var rest := path[1..];
      assert forall i :: 0 <= i < |rest| ==> rest[i] == path[i + 1];
      ConeCoherence(t, out, rest);
      forall i | 0 < i < |path|
        ensures Coherent(t, out, path[i])
        ensures Ready(t, t.rows[path[0]].res, path[i])
      {
        assert path[i] == rest[i - 1];
      }
    }
  }

  /** A second look finds nothing to refresh below u. */
  lemma {:induction false} CoherentConeIsFixed(t: Table, out: OutputFn, t': Table, path: seq<Urn>)
    requires Ordered(t) && IsPath(t, path) && ConeFresh(t, out, path[0]) && Refreshed(t, out, t')
    ensures path[|path| - 1] in t.rows
    ensures t'.rows[path[|path| - 1]].res.(updatedAt := 0) == t.rows[path[|path| - 1]].res.(updatedAt := 0)
  {
    if |path| > 1 {
      var k :| k in t.rows[path[0]].res.deps && t.rows[path[0]].res.deps[k] == path[1];
      assert ConeFresh(t, out, path[1]);
      var rest := path[1..];
      assert forall i :: 0 <= i < |rest| ==> rest[i] == path[i + 1];
      CoherentConeIsFixed(t, out, t', rest);
    }
  }
}
