/** The Postgres resource store as an object: internal/store/postgres/resource_store.go.
    Each method is one transaction; a failed one leaves the tables as they were. */
module ResourceStore {
  import opened Text
  import opened Resources

  /** The revision an action on r leaves: whose it is, what it set, why and by whom. */
  predicate Describes(rev: Revision, r: Resource, reason: string) {
    && rev.urn == r.urn && rev.configs == r.configs && rev.labels == r.labels
    && rev.reason == reason && rev.createdBy == r.updatedBy
  }

  /** What an UPDATE never writes. */
  predicate SameIdentity(a: Resource, b: Resource) {
    && a.urn == b.urn && a.kind == b.kind && a.name == b.name && a.project == b.project
    && a.createdAt == b.createdAt && a.createdBy == b.createdBy
  }

  /** What it does, apart from when and by whom. */
  predicate SameContent(a: Resource, b: Resource) {
    a.configs == b.configs && a.labels == b.labels && a.deps == b.deps && a.state == b.state
  }

  class Store {
    var rows: map<Urn, Row>
    var revisions: seq<Revision>
    var nextId: nat
    /** current_timestamp; it never runs backwards. */
    var clock: int
    const extendInterval: nat

    function Contents(): Table
      reads this
    {
      Table(rows, revisions, nextId)
    }

    constructor (extendInterval: nat, now: int)
      ensures Contents() == EMPTY_TABLE
    {
      rows, revisions, nextId, clock := map[], [], 0, now;
      this.extendInterval := extendInterval;
    }

    method Now() returns (now: int)
      modifies this`clock
      ensures now == clock && old(clock) <= clock
    {
      now :| clock <= now;
      clock := now;
    }

    method GetByURN(urn: Urn) returns (r: Result<Resource>)
      ensures r == if urn in rows then Ok(rows[urn].res) else Err(ErrNotFound)
    {
      r := if urn in rows then Ok(rows[urn].res) else Err(ErrNotFound);
    }

    /** Resolves the URNs a row is about to depend on. */
    method SetDependencies(deps: map<string, Urn>, known: set<Urn>) returns (ok: bool)
      ensures ok <==> deps.Values <= known
    {
      var todo := deps.Keys;
      while todo != {}
        invariant todo <= deps.Keys
        invariant forall k :: k in deps && k !in todo ==> deps[k] in known
        decreases |todo|
      {
        var k :| k in todo;
        if deps[k] !in known {
          return false;
        }
        todo := todo - {k};
      }
      ok := true;
    }

    method Create(r: Resource) returns (e: Result<()>)
      modifies this
      ensures e.Ok? <==> Resources.Create(old(Contents()), r).Ok?
      ensures e.Err? ==> Contents() == old(Contents()) && e.error == Resources.Create(old(Contents()), r).error
      ensures e.Ok? ==> Contents() == Resources.Create(old(Contents()), r).value
      ensures r.urn in old(rows) ==> e == Err(ErrConflict)
      ensures r.urn !in old(rows) ==> (e.Ok? <==> forall k :: k in r.deps ==> r.deps[k] in old(rows) || r.deps[k] == r.urn)
      ensures e.Ok? ==>
        && (forall u :: u in rows <==> u in old(rows) || u == r.urn)
        && (forall u :: u in old(rows) ==> rows[u] == old(rows)[u])
        && rows[r.urn].res == r && rows[r.urn].id == old(nextId) < nextId
        && |revisions| == |old(revisions)| + 1 && revisions[..|old(revisions)|] == old(revisions)
        && Describes(revisions[|old(revisions)|], r, "action:create")
      ensures clock == old(clock)
    {
      if r.urn in rows {
        return Err(ErrConflict);
      }
      var known := SetDependencies(r.deps, rows.Keys + {r.urn});
      if !known {
        return Err(ErrNotFound);
      }
      rows := rows[r.urn := Row(nextId, r)];
      nextId := nextId + 1;
      revisions := revisions + [RevisionOf(r, "action:create")];
      e := Ok(());
    }

    method Update(r: Resource, saveRevision: bool, reason: string) returns (e: Result<()>)
      modifies this
      ensures old(clock) <= clock
      ensures e.Ok? <==> Resources.Update(old(Contents()), r, clock, saveRevision, reason).Ok?
      ensures e.Err? ==> Contents() == old(Contents()) && e.error == ErrInternal
      ensures e.Ok? ==> Contents() == Resources.Update(old(Contents()), r, clock, saveRevision, reason).value
      ensures e.Ok? <==> r.urn in old(rows) && forall k :: k in r.deps ==> r.deps[k] in old(rows)
      ensures e.Ok? ==>
        && rows.Keys == old(rows).Keys && nextId == old(nextId)
        && (forall u :: u in rows && u != r.urn ==> rows[u] == old(rows)[u])
        && rows[r.urn].id == old(rows)[r.urn].id
        && SameIdentity(old(rows)[r.urn].res, rows[r.urn].res) && SameContent(r, rows[r.urn].res)
        && rows[r.urn].res.updatedAt == clock && rows[r.urn].res.updatedBy == r.updatedBy
        && (if saveRevision
            then |revisions| == |old(revisions)| + 1 && revisions[..|old(revisions)|] == old(revisions)
                 && Describes(revisions[|old(revisions)|], r, reason)
            else revisions == old(revisions))
    {
      var now := Now();
      if r.urn !in rows {
        return Err(ErrInternal);
      }
      var known := SetDependencies(r.deps, rows.Keys);
      if !known {
        return Err(ErrInternal);
      }
      rows := rows[r.urn := Overwrite(rows[r.urn], r, now)];
      if saveRevision {
        revisions := revisions + [RevisionOf(r, reason)];
      }
      e := Ok(());
    }

    method ExtendWaitTime(urn: Urn)
      modifies this
      ensures old(clock) <= clock
      ensures Contents() == Extend(old(Contents()), urn, clock + extendInterval)
      ensures rows.Keys == old(rows).Keys && revisions == old(revisions) && nextId == old(nextId)
      ensures forall u :: u in rows && u != urn ==> rows[u] == old(rows)[u]
      ensures urn in rows ==>
        var was, now := old(rows)[urn].res, rows[urn].res;
        && rows[urn].id == old(rows)[urn].id && SameIdentity(was, now)
        && now.configs == was.configs && now.labels == was.labels && now.deps == was.deps
        && now.updatedAt == was.updatedAt && now.updatedBy == was.updatedBy
        && now.state.status == was.state.status && now.state.output == was.state.output
        && now.state.moduleData == was.state.moduleData && now.state.syncResult == was.state.syncResult
        && now.state.nextSyncAt == Some(clock + extendInterval)
    {
      var now := Now();
      if urn in rows {
        rows := rows[urn := rows[urn].(res := rows[urn].res.(state := rows[urn].res.state.(nextSyncAt := Some(now + extendInterval))))];
      }
    }

    /** Due for sync, and in the scope of the syncer that asks. */
    predicate Due(urn: Urn, scope: Resource -> bool)
      reads this
    {
      urn in rows && scope(rows[urn].res) && rows[urn].res.state.nextSyncAt.Some? && rows[urn].res.state.nextSyncAt.value <= clock
    }

    /** Picks a due resource of the scope and leases it. The status is not part of the query. */
    method FetchResourceForSync(scope: Resource -> bool) returns (urn: Option<Urn>)
      modifies this
      ensures urn.None? ==> Contents() == old(Contents())
      ensures old(clock) <= clock
      ensures urn.Some? ==> old(Due(urn.value, scope)) && Contents() == Extend(old(Contents()), urn.value, clock + extendInterval)
      ensures urn.None? <==> forall u :: !old(Due(u, scope))
      ensures urn.Some? ==>
        && urn.value in old(rows) && scope(old(rows)[urn.value].res)
        && old(rows)[urn.value].res.state.nextSyncAt.Some? && old(rows)[urn.value].res.state.nextSyncAt.value <= old(clock)
      ensures urn.None? ==> forall u :: u in old(rows) && scope(old(rows)[u].res) ==>
        old(rows)[u].res.state.nextSyncAt.None? || old(rows)[u].res.state.nextSyncAt.value > old(clock)
    {
      var due := set u | u in rows && Due(u, scope);
      if due == {} {
        urn := None;
        assert forall u :: Due(u, scope) ==> u in due;
        assert forall u :: u in rows && scope(rows[u].res) ==> !Due(u, scope);
      } else {
        var u :| u in due;
        ExtendWaitTime(u);
        urn := Some(u);
      }
    }
  }
}
