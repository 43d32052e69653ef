/** What it takes for the work on a resource not to be lost: exactly which rules keep every
    write, by a refresh, a sync or another action, from undoing an accepted action, and exactly
    which keep every syncer working from the present state of its resource.
    Sources: core/read.go, core/write.go, core/sync.go, internal/store/postgres/resource_store.go. */
module LostActions {
  import opened Text
  import opened Resources
  import opened Syncing
  import opened CoreService
  import opened Interleaving
  import opened Traces
  import opened Syncers

  // ------------------------------------------------------------ no action lost

  /** The copy p would write was read before the last accepted action on its resource. */
  predicate Outdated(x: Watched, p: nat) {
    var stack, seen := Proc(x.w, p).stack, Seen(x, p);
    stack != [] && seen != [] && seen[|seen| - 1] < Count(x.acted, Top(stack).urn)
  }

  predicate Writes(s: Step) { s.Refresh? || s.Save? || s.Commit? }

  /** No write in any run comes from such a copy. */
  ghost predicate NothingLost(r: Rules) {
    forall x, s :: Reaches(r, x) && Writes(s) && WatchedNext(x, Do(s), r).Some? ==> !Outdated(x, s.p)
  }

  /** The count after the last action is one of the counts so far, and a syncer on a row where
      no action commits works from a copy that is not older. */
  predicate ActedFits(changes: map<Urn, nat>, acted: map<Urn, nat>, proc: Process, seen: seq<nat>) {
    proc.pick.Leased? && proc.stack != [] && seen != [] && proc.stack[0].urn == proc.pick.urn ==>
      Count(acted, proc.pick.urn) <= seen[0]
  }

  ghost predicate ActedInv(x: Watched) {
    && (forall u :: Count(x.acted, u) <= Count(x.changes, u))
    && (forall p :: |Seen(x, p)| == |Proc(x.w, p).stack|)
    && (forall p :: ActedFits(x.changes, x.acted, Proc(x.w, p), Seen(x, p)))
  }

  lemma StepCounts(x: Watched, s: Step)
    requires Next(x.w, s).Some? && forall u :: Count(x.acted, u) <= Count(x.changes, u)
    ensures var x' := Noted(x, s, Next(x.w, s).value); forall u :: Count(x'.acted, u) <= Count(x'.changes, u)
  {
    hide Next;
    var x' := Noted(x, s, Next(x.w, s).value);
    forall u ensures Count(x'.acted, u) <= Count(x'.changes, u) {
      assert Count(x.acted, u) <= Count(x.changes, u);
    }
  }

  lemma StepSeen(x: Watched, s: Step, p: nat)
    requires Next(x.w, s).Some? && |Seen(x, p)| == |Proc(x.w, p).stack|
    ensures var x' := Noted(x, s, Next(x.w, s).value); |Seen(x', p)| == |Proc(x'.w, p).stack|
  {
    hide Update, Create, Extend, AfterSync;
    if s.Tick? || s.Beat? || p != s.p {
      OthersKeep(x, s, p);
    }
  }

  /** The syncer's own moves: a copy read now is not older than any action so far. */
  lemma MoverActed(x: Watched, s: Step)
    requires Inv(x.w) && ActedInv(x) && Next(x.w, s).Some? && !s.Tick? && !s.Beat?
    ensures var x' := Noted(x, s, Next(x.w, s).value);
      ActedFits(x'.changes, x'.acted, Proc(x'.w, s.p), Seen(x', s.p))
  {
    hide Inv, Update, Create, Extend, AfterSync, Count;
    if s.Read? {
      RowKeys(x.w, s.urn);
      assert Count(x.acted, s.urn) <= Count(x.changes, s.urn);
    }
    assert ActedFits(x.changes, x.acted, Proc(x.w, s.p), Seen(x, s.p));
    assert |Seen(x, s.p)| == |Proc(x.w, s.p).stack|;
  }

  lemma ActedOnlyByCommit(x: Watched, s: Step, u: Urn)
    requires Next(x.w, s).Some? && (s.Commit? ==> s.planned.urn != u)
    ensures Count(Noted(x, s, Next(x.w, s).value).acted, u) == Count(x.acted, u)
  {
    hide Next;
  }

  lemma OtherActed(x: Watched, s: Step, p: nat)
    requires ActedInv(x) && Next(x.w, s).Some? && (s.Tick? || s.Beat? || p != s.p)
    requires s.Commit? ==> !BeingSynced(x.w, s.planned.urn)
    ensures var x' := Noted(x, s, Next(x.w, s).value);
      ActedFits(x'.changes, x'.acted, Proc(x'.w, p), Seen(x', p))
  {
    hide Next, Noted, Count, BeingSynced;
    OthersKeep(x, s, p);
    assert ActedFits(x.changes, x.acted, Proc(x.w, p), Seen(x, p));
    if Proc(x.w, p).pick.Leased? {
      var u := Proc(x.w, p).pick.urn;
      if s.Commit? {
        WorkedOn(x.w, p, u);
      }
      ActedOnlyByCommit(x, s, u);
    }
  }

  lemma WorkedOn(w: World, p: nat, u: Urn)
    requires Works(w, p, u)
    ensures BeingSynced(w, u)
  {
    assert p in w.procs;
  }

  lemma StepActed(x: Watched, s: Step)
    requires Inv(x.w) && ActedInv(x) && Next(x.w, s).Some? && (s.Commit? ==> !BeingSynced(x.w, s.planned.urn))
    ensures ActedInv(Noted(x, s, Next(x.w, s).value))
  {
    hide Inv, Next, Noted, Count, ActedFits, BeingSynced;
    var x' := Noted(x, s, Next(x.w, s).value);
    StepCounts(x, s);
    forall p ensures |Seen(x', p)| == |Proc(x'.w, p).stack| && ActedFits(x'.changes, x'.acted, Proc(x'.w, p), Seen(x', p)) {
      StepSeen(x, s, p);
      if s.Tick? || s.Beat? || p != s.p {
        OtherActed(x, s, p);
      } else {
        MoverActed(x, s);
      }
    }
  }

  lemma SamePulsesAside(x: Watched, x': Watched)
    requires ActedInv(x) && x'.w == x.w && x'.changes == x.changes && x'.acted == x.acted && x'.seen == x.seen
    ensures ActedInv(x')
  {
    hide ActedFits, Count;
    assert forall p :: Seen(x', p) == Seen(x, p);
  }

  lemma MoveKeepsActed(x: Watched, m: Move, r: Rules)
    requires r.quiet && Inv(x.w) && ActedInv(x) && WatchedNext(x, m, r).Some?
    ensures ActedInv(WatchedNext(x, m, r).value)
  {
    hide Inv, Next, Noted, ActedInv, BeingSynced, IsCurrent;
    match m {
      case Do(s) => StepActed(x, s);
      case Dies(_) => SamePulsesAside(x, WatchedNext(x, m, r).value);
      case Beats(p) =>
        var s := Beat(x.pulses[p].urn, r.extend);
        BeatIsPossible(x.w, x.pulses[p].urn, r.extend);
        StepActed(x, s);
        SamePulsesAside(Noted(x, s, Next(x.w, s).value), WatchedNext(x, m, r).value);
    }
  }

  lemma {:induction false} RunKeepsActed(moves: seq<Move>, r: Rules)
    requires r.quiet && WatchedRun(moves, r).Some?
    ensures ActedInv(WatchedRun(moves, r).value)
  {
    hide WatchedNext, Inv;
    if moves != [] {
      RunKeepsActed(moves[..|moves| - 1], r);
      WatchedInv(moves[..|moves| - 1], r);
      MoveKeepsActed(WatchedRun(moves[..|moves| - 1], r).value, moves[|moves| - 1], r);
    }
  }

  lemma WritesAreRecent(x: Watched, s: Step, r: Rules)
    requires r.current && r.quiet && r.based && ActedInv(x) && Writes(s) && WatchedNext(x, Do(s), r).Some?
    ensures !Outdated(x, s.p)
  {
    hide Update, AfterSync, Count, BeingSynced;
    assert ActedFits(x.changes, x.acted, Proc(x.w, s.p), Seen(x, s.p));
    assert |Seen(x, s.p)| == |Proc(x.w, s.p).stack|;
  }

  /** Two actions recorded, and nothing left of the first. */
  ghost predicate Overwritten(t: Table) {
    && "u" in t.rows && Recorded(t) && |t.revisions| == 3
    && t.revisions[1].urn == "u" && t.revisions[1].configs == "first"
    && t.revisions[2].urn == "u" && t.rows["u"].res.configs == "second"
  }

  const FIRST := Sample("first", "a", Pending, Some(0))
  const SECOND := Sample("second", "a", Pending, Some(0))

  lemma SecondCommit(w: World)
    requires w == CommittedBy2(FIRST).w
    ensures Next(w, Commit(3, SECOND, "action:update")).Some?
    ensures var t := Next(w, Commit(3, SECOND, "action:update")).value.table;
      && "u" in t.rows && t.rows.Keys == {"u"} && t.rows["u"].res.configs == "second" && t.rows["u"].res.labels == map[]
      && t.revisions == w.table.revisions + [RevisionOf(SECOND, "action:update")]
  {
    assert SECOND.deps.Values == {};
  }

  lemma LatestOfThree(a: Revision, b: Revision, c: Revision)
    requires c.urn == "u"
    ensures LatestRevision([a, b, c], "u") == Some(c)
  {
  }

  /** A run in which an action is planned from a copy older than another action: the first is
      recorded, its configuration is gone, and it was never synced, since the two commits are
      all that changed the row. */
  lemma ActionsCanOverwrite(r: Rules)
    requires !r.based
    ensures exists x :: Reaches(r, x) && Overwritten(x.w.table) && Count(x.changes, "u") == 2
    ensures !NothingLost(r)
  {
    hide Next, Reaches, Recorded;
    ReachesCommitted(r, FIRST);
    var x := CommittedBy2(FIRST);
    SecondCommit(x.w);
    var s := Commit(3, SECOND, "action:update");
    var y := Goes(r, x, s);
    var a, b, c := RevisionOf(IDLE_SINCE, "action:create"), RevisionOf(FIRST, "action:update"), RevisionOf(SECOND, "action:update");
    assert y.w.table.revisions == [a, b, c];
    LatestOfThree(a, b, c);
    OneRowRecorded(y.w.table, c);
    assert Overwritten(y.w.table) && Count(y.changes, "u") == 2;
    assert Writes(s) && WatchedNext(x, Do(s), r).Some? && Outdated(x, 3);
  }

  lemma OneRowRecorded(t: Table, latest: Revision)
    requires t.rows.Keys == {"u"} && LatestRevision(t.revisions, "u") == Some(latest)
    requires latest.configs == t.rows["u"].res.configs && latest.labels == t.rows["u"].res.labels
    ensures Recorded(t)
  {
    hide LatestRevision;
  }

  lemma StaleRefreshLoses(r: Rules)
    requires !r.current
    ensures exists x: Watched, s: Step :: Reaches(r, x) && s.Refresh? && WatchedNext(x, Do(s), r).Some? && Outdated(x, s.p)
  {
    hide Next, Reaches;
    ReachesCommitted(r, PENDING);
    var x := RefreshUndoes(r, PENDING);
    var s := Refresh(3, "b");
    assert Writes(s) && Outdated(CommittedBy2(PENDING), s.p);
  }

  lemma SaveLosesAction(r: Rules)
    requires !r.quiet
    ensures exists x: Watched, s: Step :: Reaches(r, x) && s.Save? && WatchedNext(x, Do(s), r).Some? && Outdated(x, s.p)
  {
    hide Next, Reaches;
    ReachesWorkedOn(r);
    var x := WorkedOnBy1(r.extend);
    var z := ActsWhileSynced(r, x, FIRST);
    var s := Save(1, Ok(State(Completed, "", "", None, NO_SYNC_RESULT)), 0, 0);
    SavePossible(z.w, s, x.w.procs[1].stack[0]);
    assert Seen(x, 1) == [1] && Seen(z, 1) == [1];
    assert Writes(s) && WatchedNext(z, Do(s), r).Some? && Outdated(z, 1);
  }

  lemma SavePossible(w: World, s: Step, copy: Resource)
    requires s.Save? && s.answer == Ok(State(Completed, "", "", None, NO_SYNC_RESULT))
    requires Proc(w, s.p).stack == [copy] && Proc(w, s.p).pick == Leased("u") && copy.urn == "u" && copy.deps == map[] && "u" in w.table.rows
    ensures Next(w, s).Some?
  {
    assert copy.deps.Values == {};
  }

  /** No refresh, sync or action is ever made from a copy older than the last accepted action
      on its resource, in any run, exactly when no stale output is written back, no action
      commits on a resource that is being synced, and none is planned from a stale copy. */
  lemma NothingLostIff(r: Rules)
    ensures NothingLost(r) <==> r.current && r.quiet && r.based
  {
    hide Next, Noted, Allowed, WatchedNext, Outdated;
    if r.current && r.quiet && r.based {
      forall x, s | Reaches(r, x) && Writes(s) && WatchedNext(x, Do(s), r).Some? ensures !Outdated(x, s.p) {
        var moves :| WatchedRun(moves, r) == Some(x);
        RunKeepsActed(moves, r);
        WritesAreRecent(x, s, r);
      }
    } else if !r.current {
      StaleRefreshLoses(r);
      var x: Watched, s: Step :| Reaches(r, x) && s.Refresh? && WatchedNext(x, Do(s), r).Some? && Outdated(x, s.p);
      assert Writes(s);
    } else if !r.quiet {
      SaveLosesAction(r);
      var x: Watched, s: Step :| Reaches(r, x) && s.Save? && WatchedNext(x, Do(s), r).Some? && Outdated(x, s.p);
      assert Writes(s);
    } else {
      ActionsCanOverwrite(r);
    }
  }

  // ------------------------------------------------------------ syncs in sequence

  /** Equal in everything a sync works from: all but output and next sync. */
  predicate SameWork(s: Resource, row: Resource) {
    && s.configs == row.configs && s.labels == row.labels && s.deps == row.deps
    && s.state.status == row.state.status && s.state.moduleData == row.state.moduleData && s.state.syncResult == row.state.syncResult
  }

  /** What a syncer works from is the present state of the resource it leased. */
  predicate UpToDate(t: Table, proc: Process) {
    proc.pick.Leased? && proc.stack != [] && proc.stack[0].urn == proc.pick.urn ==>
      proc.pick.urn in t.rows && SameWork(proc.stack[0], t.rows[proc.pick.urn].res)
  }

  ghost predicate SyncersUpToDate(w: World) { forall p :: UpToDate(w.table, Proc(w, p)) }

  ghost predicate AlwaysUpToDate(r: Rules) { forall x :: Reaches(r, x) ==> SyncersUpToDate(x.w) }

  predicate RowKept(t: Table, t': Table, u: Urn) {
    u in t.rows ==> u in t'.rows && SameWork(t.rows[u].res, t'.rows[u].res)
  }

  /** Nobody but its own save changes what a row under sync is worked on from. */
  lemma RowUnderSyncKept(x: Watched, s: Step, p: nat, u: Urn)
    requires Inv(x.w) && CopiesInv(x) && Exclusive(x.w) && Next(x.w, s).Some? && Works(x.w, p, u)
    requires (s.Refresh? ==> IsCurrent(x, s.p)) && (s.Commit? ==> !BeingSynced(x.w, s.planned.urn)) && (s.Save? ==> s.p != p)
    ensures RowKept(x.w.table, Next(x.w, s).value.table, u)
  {
    hide Inv, CopiesInv, IsCurrent, BeingSynced, AfterSync;
    WorkedOn(x.w, p, u);
    match s {
      case Refresh(q, output) => RefreshIsGentle(x, q, output);
      case Save(q, _, _, _) => assert Works(x.w, q, Proc(x.w, q).stack[0].urn);
      case _ =>
    }
  }

  lemma MoverUpToDate(x: Watched, s: Step)
    requires !s.Tick? && !s.Beat? && Inv(x.w) && UpToDate(x.w.table, Proc(x.w, s.p)) && Next(x.w, s).Some?
    requires !s.Save? && !s.Commit? && !s.Insert? && !s.Lease?
    requires forall u :: Works(x.w, s.p, u) ==> RowKept(x.w.table, Next(x.w, s).value.table, u)
    ensures UpToDate(Next(x.w, s).value.table, Proc(Next(x.w, s).value, s.p))
  {
    hide Inv, Update, Create, Extend, AfterSync;
    var pick := Proc(x.w, s.p).pick;
    if pick.Leased? {
      assert Works(x.w, s.p, pick.urn);
    }
    if s.Read? {
      RowKeys(x.w, s.urn);
    }
  }

  lemma IdleUpToDate(x: Watched, s: Step)
    requires (s.Save? || s.Commit? || s.Insert? || s.Lease?) && Next(x.w, s).Some?
    ensures UpToDate(Next(x.w, s).value.table, Proc(Next(x.w, s).value, s.p))
  {
    hide Update, Create, Extend, AfterSync;
  }

  lemma StepUpToDate(x: Watched, s: Step, p: nat)
    requires Inv(x.w) && CopiesInv(x) && Exclusive(x.w) && SyncersUpToDate(x.w) && Next(x.w, s).Some?
    requires (s.Refresh? ==> IsCurrent(x, s.p)) && (s.Commit? ==> !BeingSynced(x.w, s.planned.urn))
    ensures UpToDate(Next(x.w, s).value.table, Proc(Next(x.w, s).value, p))
  {
    hide Inv, CopiesInv, Exclusive, IsCurrent, BeingSynced, Next, RowKept;
    assert UpToDate(x.w.table, Proc(x.w, p));
    if s.Tick? || s.Beat? || p != s.p {
      OthersKeep(x, s, p);
      var pick := Proc(x.w, p).pick;
      if pick.Leased? {
        RowUnderSyncKept(x, s, p, pick.urn);
        KeptUpToDateToo(x.w.table, Next(x.w, s).value.table, Proc(x.w, p));
      }
    } else if s.Save? || s.Commit? || s.Insert? || s.Lease? {
      IdleUpToDate(x, s);
    } else {
      forall u | Works(x.w, p, u) ensures RowKept(x.w.table, Next(x.w, s).value.table, u) {
        RowUnderSyncKept(x, s, p, u);
      }
      MoverUpToDate(x, s);
    }
  }

  lemma KeptUpToDateToo(t: Table, t': Table, proc: Process)
    requires UpToDate(t, proc) && proc.pick.Leased? && RowKept(t, t', proc.pick.urn)
    ensures UpToDate(t', proc)
  {
  }

  lemma MoveUpToDate(x: Watched, m: Move, r: Rules)
    requires Strict(r) && Inv(x.w) && CopiesInv(x) && Exclusive(x.w) && SyncersUpToDate(x.w) && WatchedNext(x, m, r).Some?
    ensures SyncersUpToDate(WatchedNext(x, m, r).value.w)
  {
    hide Inv, CopiesInv, Exclusive, IsCurrent, BeingSynced, Next, UpToDate;
    if m.Beats? {
      BeatIsPossible(x.w, x.pulses[m.p].urn, r.extend);
    }
    if !m.Dies? {
      var s := if m.Do? then m.step else Beat(x.pulses[m.p].urn, r.extend);
      NotedWorld(x, s, Next(x.w, s).value);
      forall p ensures UpToDate(Next(x.w, s).value.table, Proc(Next(x.w, s).value, p)) {
        StepUpToDate(x, s, p);
      }
    }
  }

  lemma {:induction false} RunUpToDate(moves: seq<Move>, r: Rules)
    requires Strict(r) && WatchedRun(moves, r).Some?
    ensures SyncersUpToDate(WatchedRun(moves, r).value.w)
  {
    hide WatchedNext, Inv, CopiesInv;
    if moves != [] {
      var init := moves[..|moves| - 1];
      RunUpToDate(init, r);
      RunCopiesInv(init, r);
      WatchedInv(init, r);
      RunKeepsSyncers(init, r);
      SyncersExclude(WatchedRun(init, r).value, r);
      MoveUpToDate(WatchedRun(init, r).value, moves[|moves| - 1], r);
    }
  }

  /** Two syncers that read the same state: what one saves the other does not see. */
  lemma ReadingBoth(w: World, extend: nat) returns (w1: World, w2: World, w3: World)
    requires "u" in w.table.rows && Proc(w, 1) == IDLE.(pick := Leased("u")) && Proc(w, 2) == IDLE.(pick := Selected("u"))
    requires forall p :: p != 2 ==> !Proc(w, p).pick.Selected?
    ensures Next(w, Lease(2, extend)) == Some(w1) && Next(w1, Read(1, "u")) == Some(w2) && Next(w2, Read(2, "u")) == Some(w3)
    ensures "u" in w3.table.rows && w3.table.rows["u"].res == w1.table.rows["u"].res
    ensures SameWork(w3.table.rows["u"].res, w.table.rows["u"].res) && w3.table.rows["u"].res.urn == w.table.rows["u"].res.urn
    ensures Proc(w3, 1) == Process([w3.table.rows["u"].res], {}, Leased("u")) && Proc(w3, 2) == Process([w3.table.rows["u"].res], {}, Leased("u"))
    ensures NoneSelected(w1) && NoneSelected(w2) && NoneSelected(w3)
  {
    assert forall p :: p in w.procs ==> w.procs[p] == Proc(w, p);
    w1 := Next(w, Lease(2, extend)).value;
    w2 := Next(w1, Read(1, "u")).value;
    w3 := Next(w2, Read(2, "u")).value;
  }

  const DONE := State(Completed, "", "done", None, NO_SYNC_RESULT)

  lemma SavingFirst(w: World, copy: Resource) returns (w': World)
    requires Proc(w, 1) == Process([copy], {}, Leased("u")) && copy.urn == "u" && copy.deps == map[] && "u" in w.table.rows
    ensures Next(w, Save(1, Ok(DONE), 0, 0)) == Some(w') && "u" in w'.table.rows && w'.table.rows["u"].res.state == DONE
    ensures Proc(w', 2) == Proc(w, 2)
  {
    assert copy.deps.Values == {};
    w' := Next(w, Save(1, Ok(DONE), 0, 0)).value;
  }

  lemma OverlapDiverges(r: Rules, x: Watched)
    requires Reaches(r, x) && Overlapping(x)
    ensures !AlwaysUpToDate(r)
  {
    hide Next, Reaches;
    var w1, w2, w3 := ReadingBoth(x.w, r.extend);
    var y := Goes(r, x, Lease(2, r.extend));
    NotedWorld(x, Lease(2, r.extend), w1);
    y := Goes(r, y, Read(1, "u"));
    y := Goes(r, y, Read(2, "u"));
    var copy := w3.table.rows["u"].res;
    var w4 := SavingFirst(w3, copy);
    y := Goes(r, y, Save(1, Ok(DONE), 0, 0));
    assert y.w == w4 && !UpToDate(w4.table, Proc(w4, 2));
    assert !SyncersUpToDate(y.w);
  }

  /** Every syncer always works from the present configuration, steps and retries of its
      resource, so that syncs continue one another, exactly under the rules that keep syncers
      apart. */
  lemma UpToDateIff(r: Rules)
    ensures AlwaysUpToDate(r) <==> Strict(r)
  {
    hide Reaches, Overlapping;
    if Strict(r) {
      forall x | Reaches(r, x) ensures SyncersUpToDate(x.w) {
        ReachedUpToDate(r, x);
      }
    } else {
      var x := SomeOverlap(r);
      OverlapDiverges(r, x);
    }
  }

  lemma ReachedUpToDate(r: Rules, x: Watched)
    requires Strict(r) && Reaches(r, x)
    ensures SyncersUpToDate(x.w)
  {
    var moves :| WatchedRun(moves, r) == Some(x);
    RunUpToDate(moves, r);
  }
}
