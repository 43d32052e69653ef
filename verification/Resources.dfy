/** Resources and the tables that hold them: core/resource and internal/store/postgres.
    A transaction of the store is one function from tables to tables. */
module Resources {
  import opened Text

  type Blob = string
  type Urn = string
  type Labels = map<string, string>

  datatype Error = ErrInvalid | ErrNotFound | ErrConflict | ErrInternal | ErrUnsupported

  datatype Result<+T> = Ok(value: T) | Err(error: Error)

  datatype Status = Unspecified | Pending | Failed | Deleted | Completed

  datatype SyncResult = SyncResult(retries: nat, lastError: string)

  const NO_SYNC_RESULT := SyncResult(0, "")

  datatype State<+O, +M> = State(status: Status, output: O, moduleData: M, nextSyncAt: Option<int>, syncResult: SyncResult)
  {
    /** A state in which the resource needs no further sync. */
    predicate IsTerminal() { status == Completed || status == Failed }

    /** A pending resource has a sync scheduled. */
    predicate IsScheduled() { status == Pending ==> nextSyncAt.Some? }
  }

  datatype Resource = Resource(urn: Urn, kind: string, name: string, project: string, labels: Labels,
                               createdAt: int, updatedAt: int, createdBy: string, updatedBy: string,
                               configs: Blob, deps: map<string, Urn>, state: State<Blob, Blob>)

  datatype Revision = Revision(urn: Urn, reason: string, labels: Labels, configs: Blob, createdBy: string)

  /** A stored resource with the serial number it was inserted under. */
  datatype Row = Row(id: nat, res: Resource)

  datatype Table = Table(rows: map<Urn, Row>, revisions: seq<Revision>, nextId: nat)

  const EMPTY_TABLE := Table(map[], [], 0)

  function RevisionOf(r: Resource, reason: string): Revision {
    Revision(r.urn, reason, r.labels, r.configs, r.updatedBy)
  }

  /** The row an UPDATE leaves: identity, names and creation data are not written. */
  function Overwrite(row: Row, r: Resource, now: int): Row {
    row.(res := row.res.(updatedAt := now, updatedBy := r.updatedBy, configs := r.configs,
                         labels := r.labels, deps := r.deps, state := r.state))
  }

  /** Store.Update. A missing URN, of the resource or of a dependency, surfaces as an
      uncategorised error. */
  function Update(t: Table, r: Resource, now: int, saveRevision: bool, reason: string): Result<Table> {
    if r.urn !in t.rows || !(r.deps.Values <= t.rows.Keys) then Err(ErrInternal)
    else Ok(Table(t.rows[r.urn := Overwrite(t.rows[r.urn], r, now)],
                  if saveRevision then t.revisions + [RevisionOf(r, reason)] else t.revisions,
                  t.nextId))
  }

  /** Store.Create. The row is inserted before its dependencies are looked up. */
  function Create(t: Table, r: Resource): Result<Table> {
    if r.urn in t.rows then Err(ErrConflict)
    else if !(r.deps.Values <= t.rows.Keys + {r.urn}) then Err(ErrNotFound)
    else Ok(Table(t.rows[r.urn := Row(t.nextId, r)], t.revisions + [RevisionOf(r, "action:create")], t.nextId + 1))
  }

  /** Store.extendWaitTime, whatever the row's status. */
  function Extend(t: Table, urn: Urn, until: int): Table {
    if urn !in t.rows then t
    else t.(rows := t.rows[urn := t.rows[urn].(res := t.rows[urn].res.(state := t.rows[urn].res.state.(nextSyncAt := Some(until))))])
  }

  // ------------------------------------------------------------ the dependency graph

  /** Every dependency is a row of the same project inserted before `id`. */
  predicate DepsBelow(t: Table, project: string, deps: map<string, Urn>, id: nat) {
    forall k :: k in deps ==> deps[k] in t.rows && t.rows[deps[k]].res.project == project && t.rows[deps[k]].id < id
  }

  /** The shape of every reachable table. */
  predicate Ordered(t: Table) {
    forall u :: u in t.rows ==>
      t.rows[u].res.urn == u && t.rows[u].id < t.nextId && DepsBelow(t, t.rows[u].res.project, t.rows[u].res.deps, t.rows[u].id)
  }

  /** One more than the serial number; 0 for a resource that does not exist. */
  function Rank(t: Table, u: Urn): nat {
    if u in t.rows then t.rows[u].id + 1 else 0
  }

  /** A path of direct dependencies. */
  ghost predicate IsPath(t: Table, path: seq<Urn>) {
    && |path| > 0
    && path[0] in t.rows
    && forall i :: 0 <= i < |path| - 1 ==> path[i] in t.rows && path[i + 1] in t.rows[path[i]].res.deps.Values
  }

  /** Along every path the targets exist, share the project, and were inserted earlier and
      earlier. */
  lemma {:induction false} PathsDescend(t: Table, path: seq<Urn>)
    requires Ordered(t) && IsPath(t, path)
    ensures forall i :: 0 <= i < |path| ==> path[i] in t.rows && t.rows[path[i]].res.project == t.rows[path[0]].res.project
    ensures forall i :: 0 < i < |path| ==> Rank(t, path[i]) < Rank(t, path[0])
  {
    if |path| > 1 {
      var k :| k in t.rows[path[0]].res.deps && t.rows[path[0]].res.deps[k] == path[1];
      assert DepsBelow(t, t.rows[path[0]].res.project, t.rows[path[0]].res.deps, t.rows[path[0]].id);
      var rest := path[1..];
      assert forall i :: 0 <= i < |rest| ==> rest[i] == path[i + 1];
      PathsDescend(t, rest);
      forall i | 0 < i < |path|
        ensures path[i] in t.rows && t.rows[path[i]].res.project == t.rows[path[0]].res.project
        ensures Rank(t, path[i]) < Rank(t, path[0])
      {
        assert path[i] == rest[i - 1];
      }
    }
  }

  /** So no resource depends on itself, directly or through others. */
  lemma NoCycles(t: Table, path: seq<Urn>)
    requires Ordered(t) && IsPath(t, path) && |path| > 1
    ensures path[|path| - 1] != path[0]
  {
    PathsDescend(t, path);
  }

  /** Dependencies of a resource survive any change that keeps identities and projects. */
  lemma DepsBelowStable(t: Table, t': Table, project: string, deps: map<string, Urn>, id: nat)
    requires DepsBelow(t, project, deps, id) && SameIdentities(t, t')
    ensures DepsBelow(t', project, deps, id)
  {
  }

  /** Rows are only added, and keep their serial number, URN, kind, name and project. */
  predicate SameIdentities(t: Table, t': Table) {
    forall u :: u in t.rows ==>
      && u in t'.rows
      && t'.rows[u].id == t.rows[u].id
      && t'.rows[u].res.urn == t.rows[u].res.urn
      && t'.rows[u].res.kind == t.rows[u].res.kind
      && t'.rows[u].res.project == t.rows[u].res.project
  }

  lemma UpdateKeepsOrder(t: Table, r: Resource, now: int, saveRevision: bool, reason: string)
    requires Ordered(t) && Update(t, r, now, saveRevision, reason).Ok?
    requires DepsBelow(t, t.rows[r.urn].res.project, r.deps, t.rows[r.urn].id)
    ensures var t' := Update(t, r, now, saveRevision, reason).value; Ordered(t') && SameIdentities(t, t')
  {
    var t' := Update(t, r, now, saveRevision, reason).value;
    assert SameIdentities(t, t');
    forall u | u in t'.rows ensures DepsBelow(t', t'.rows[u].res.project, t'.rows[u].res.deps, t'.rows[u].id) {
      DepsBelowStable(t, t', t.rows[u].res.project, if u == r.urn then r.deps else t.rows[u].res.deps, t.rows[u].id);
    }
  }

  lemma CreateKeepsOrder(t: Table, r: Resource)
    requires Ordered(t) && Create(t, r).Ok? && DepsBelow(t, r.project, r.deps, t.nextId)
    ensures var t' := Create(t, r).value; Ordered(t') && SameIdentities(t, t')
  {
    var t' := Create(t, r).value;
    assert SameIdentities(t, t');
    forall u | u in t'.rows ensures DepsBelow(t', t'.rows[u].res.project, t'.rows[u].res.deps, t'.rows[u].id) {
      if u == r.urn {
        DepsBelowStable(t, t', r.project, r.deps, t.nextId);
      } else {
        DepsBelowStable(t, t', t.rows[u].res.project, t.rows[u].res.deps, t.rows[u].id);
      }
    }
  }

  lemma ExtendKeepsOrder(t: Table, urn: Urn, until: int)
    requires Ordered(t)
    ensures Ordered(Extend(t, urn, until)) && SameIdentities(t, Extend(t, urn, until))
  {
    var t' := Extend(t, urn, until);
    assert SameIdentities(t, t');
    forall u | u in t'.rows ensures DepsBelow(t', t'.rows[u].res.project, t'.rows[u].res.deps, t'.rows[u].id) {
      DepsBelowStable(t, t', t.rows[u].res.project, t.rows[u].res.deps, t.rows[u].id);
    }
  }
}
