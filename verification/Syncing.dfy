/** What core/sync.go does with the answer of a driver's Sync. */
module Syncing {
  import opened Text
  import opened Resources

  function Message(e: Error): string {
    match e
    case ErrInvalid => "bad_request"
    case ErrNotFound => "not_found"
    case ErrConflict => "conflict"
    case ErrInternal => "internal_error"
    case ErrUnsupported => "unsupported"
  }

  /** handleSync: a new state replaces the old one; a failure is counted and either ends the
      attempts or schedules another. */
  function AfterSync<O, M>(s: State<O, M>, r: Result<State<O, M>>, maxRetries: nat, tryAgainAt: int): State<O, M> {
    match r
    case Ok(newState) => newState
    case Err(e) =>
      var counted := s.(syncResult := SyncResult(s.syncResult.retries + 1, Message(e)));
      if e == ErrInvalid || (maxRetries > 0 && counted.syncResult.retries >= maxRetries) then
        counted.(status := Failed, nextSyncAt := None)
      else
        counted.(nextSyncAt := Some(tryAgainAt))
  }

  /** No answer of a driver that schedules its own pending states can strand a resource. */
  lemma AfterSyncScheduled<O, M>(s: State<O, M>, r: Result<State<O, M>>, maxRetries: nat, tryAgainAt: int)
    requires r.Ok? ==> r.value.IsScheduled()
    ensures AfterSync(s, r, maxRetries, tryAgainAt).IsScheduled()
  {
  }

  /** What a sync promises of the state it saves, whatever computes it. A new state is saved as
      it is. An error counts one more retry and leaves its message; it ends the attempts if
      retrying is pointless or they are used up, and otherwise leaves the resource where it was
      until the time given. */
  predicate AccountsFor<O(==), M(==)>(s: State<O, M>, r: Result<State<O, M>>, maxRetries: nat, tryAgainAt: int, saved: State<O, M>) {
    match r
    case Ok(newState) => saved == newState
    case Err(e) =>
      && saved.output == s.output && saved.moduleData == s.moduleData
      && saved.syncResult.retries == s.syncResult.retries + 1 && saved.syncResult.lastError == Message(e)
      && (if e == ErrInvalid || (maxRetries > 0 && maxRetries <= s.syncResult.retries + 1)
          then saved.status == Failed && saved.nextSyncAt.None?
          else saved.status == s.status && saved.nextSyncAt == Some(tryAgainAt))
  }

  /** handleSync saves that and nothing else. */
  lemma AfterSyncAccounts<O, M>(s: State<O, M>, r: Result<State<O, M>>, maxRetries: nat, tryAgainAt: int, saved: State<O, M>)
    ensures AccountsFor(s, r, maxRetries, tryAgainAt, saved) <==> saved == AfterSync(s, r, maxRetries, tryAgainAt)
  {
    if r.Err? && AccountsFor(s, r, maxRetries, tryAgainAt, saved) {
      var t := AfterSync(s, r, maxRetries, tryAgainAt);
      assert saved.syncResult == t.syncResult;
    }
  }

  /** A failing sync ends in the error status exactly when the configuration is refused as
      invalid, at whatever retry and however many are allowed, or when the last retry allowed
      has failed. */
  lemma SyncFailsIff<O, M>(s: State<O, M>, e: Error, maxRetries: nat, tryAgainAt: int)
    requires s.status == Pending
    ensures var t := AfterSync(s, Err(e), maxRetries, tryAgainAt);
      && (t.status == Failed <==> e == ErrInvalid || (maxRetries > 0 && s.syncResult.retries + 1 >= maxRetries))
      && (t.status == Failed <==> t.nextSyncAt.None?)
      && (t.status != Failed ==> t.status == Pending && t.nextSyncAt == Some(tryAgainAt))
  {
  }
}
