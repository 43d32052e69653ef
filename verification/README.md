# Entropy, verified: resources, jobs and the names drivers give

A Dafny model of the parts of entropy where state, time and naming meet, and proofs of what
they keep:

* the **orchestrator** (`core/`, `internal/store/postgres`): reads that recurse through
  dependencies and write refreshed outputs back, actions that plan and record, syncs that
  retry;
* the **leased job queue** (`pkg/worker`, `pkg/worker/pgq`);
* the **firehose driver** (`modules/firehose`): configuration overlay, autoscaler triggers,
  plans, pending steps, deployments;
* the **names and group ids** that drivers derive (`modules/utils.go`, `modules/firehose`,
  `modules/dagger`) and the label rows of the store.

## How it is modelled

Two granularities are used. `Refinement.dfy` proves that the serial calls are runs of the
interleaved model, so what holds of all its runs holds of them.

* *Serial*: one API call or one sync is one step. `Service.dfy` and `Store.dfy` are objects
  whose methods run the code's own loops and recursion over mutable tables; `FirehoseSync.dfy`
  and `FirehoseLife.dfy` are runs of syncs (with failures, lost results and crashes before and
  after every effect) and of actions.
* *Interleaved*: `Interleaving.dfy` splits every call into its reads and its whole-row writes,
  so a write may carry a copy of any age, and picking a resource is two steps, because the
  `SELECT ... FOR UPDATE SKIP LOCKED` runs outside the transaction that extends the wait time
  (`internal/store/postgres/resource_store.go:373-377`). `Syncers.dfy` and `LostActions.dfy`
  look at those of its runs that follow rules, with a clock and heartbeats. `Leases.dfy` does the same for the
  job queue, whose pickup is one transaction, with a clock.

Times are integers. A JSON document is the value it decodes to, except that an empty metadata
map of a trigger reads back as nil. Drivers of the orchestrator are function parameters; what is
asked of a driver (a plan keeps identity, schedules its pending states) is a stated contract,
and the firehose driver is proved to meet the scheduling part (`FirehosePlan.ActionIsGood`,
`FirehoseSync.AnswersAreFresh`). "The outside world is frozen" is the assumption
`Outputs.Repeatable`: asking a driver for an output again, after its answer was stored, gives
the same answer. Hashes are function parameters of known length. A Go panic is a result
(`None` or `Panicked`) rather than a precondition, except that the dagger loops need a first
source, as the code does.

| files | what they hold |
|---|---|
| `Text`, `Names`, `ConsumerGroup`, `DaggerGroups`, `Tags` | strings, names, group ids, label rows |
| `Resources`, `Outputs`, `Store`, `Syncing`, `Service` | tables and their transactions, what a read computes, the store and the service as objects |
| `Traces`, `Interleaving`, `Refinement` | what a call does on the way, the orchestrator with reads and writes apart, and the serial calls as runs of it |
| `Syncers`, `LostActions` | its runs under rules, and exactly which rules its promises take |
| `Jobs`, `Leases` | job rows and attempts, the lease protocol |
| `Keda`, `KedaHeap` | autoscaler settings as values, and as shared mutable maps |
| `FirehoseConfig`, `FirehosePlan`, `FirehoseDriver`, `FirehoseRequests`, `FirehoseLife`, `FirehoseSync` | configuration, plans as functions and as they run, what actions ask for, a lifetime of actions, runs of syncs |

## What the proofs found

* Two syncers can work on one resource at a time, for any lease
  (`Interleaving.TwoSyncersOneResource`); the comment at
  `internal/store/postgres/resource_store.go:355-356` says they cannot. A pickup in one step
  would not be enough: a refresh that read before the lease, an action on a completed resource
  that is being synced, or a late heartbeat has the same effect. With all four ruled out it
  cannot happen (`Syncers.ExclusiveIff`).
* A refresh of an output that was reading while an update committed writes the old
  configuration and the old status back; the update is recorded and never synced
  (`Interleaving.RefreshCanLoseAnUpdate`). If the action left the configuration as it was, the
  row even agrees with its latest revision, and the action is lost all the same
  (`Syncers.RefreshCanDropAnAction`). A write-back is harmless exactly when its copy agrees with
  the row in everything but the output (`Syncers.WriteBackHarmlessIff`), and all of them are in
  every run exactly when none carries a copy from before the row's last action, save, lease or
  heartbeat (`Syncers.RefreshesHarmlessIff`).
* Two actions planned from the same copy are both accepted; the second replaces the first, which
  is recorded and never synced (`LostActions.ActionsCanOverwrite`). No refresh, sync or action
  undoes an accepted action exactly when stale outputs are not written back, no action commits
  on a resource that is being synced, and none is planned from a stale copy
  (`LostActions.NothingLostIff`).
* A job's `RetryAfter` is not stored: a retry waits for the lease to run out, where
  `pkg/worker/job.go:76-78` promises the wait asked for. With the queue's constants and beats on
  time, exactly the waits up to eleven seconds are always kept
  (`Leases.QueueKeepsElevenSeconds`); a minute can be cut to thirty-one (`Leases.MinuteIsCut`).
* A firehose stopped by its stop time is deployed with no replicas but with its autoscaler free
  to start some, unless that is switched off, paused or held at zero in the stored configuration
  (`FirehoseSync.StopTimeHoldsIff`, `FirehoseSync.SampleKeepsScaling`).
* An update that does not name a consumer group goes back to the default one, so a group
  given up by a reset can return (`FirehoseLife.UpdateRevivesGroup`,
  `FirehoseLife.SampleRevivesGroup`).
* A reset panics on a switched-off autoscaler that has a kafka trigger without metadata
  (`FirehoseLife.ResetPanicsIff`, `FirehoseLife.BareResetPanics`).
* Dagger group ids collide once a number needs five digits
  (`DaggerGroups.ResetCollidesPastFourDigits`) or when another source's id carries a suffix that
  sorts above the numbers (`DaggerGroups.GeneratedCanCollide`); exactly when, over all ids, is
  `DaggerGroups.ResetFreshIff` and `DaggerGroups.GeneratedUniqueIff`.
* A label whose key contains "=" does not survive storage (`Tags.LabelRoundTrip`).

## Model

| member | source | states |
|---|---|---|
| `CoreService.Service.GetResource` | core/read.go:12-40 | reading terminates although it writes on the way, succeeds exactly when the output can be computed from the tables as they were, leaves the whole dependency cone stored and up to date, and changes nothing but outputs and update times |
| `CoreService.Service.GenerateModuleSpec` | core/core.go:46-76 | resolves dependencies through reads, in any order, to exactly the refreshed outputs of completed resources of the same project, or fails when one is missing, incomplete, foreign or unreadable |
| `Outputs.FreshStable` | core/read.go:26-37 | refreshing some outputs never changes what a refresh computes for any resource, so the order of nested reads does not matter |
| `Outputs.ConeCoherence` | core/core.go:52-73 | after a successful read, along every path of dependencies (shared ones too) stored outputs are the driver's answers to the stored outputs below them, and every proper dependency is completed and of the same project |
| `Outputs.ConeFreshStable` | core/read.go:31-37 | later reads never make an up-to-date cone stale |
| `Outputs.CoherentConeIsFixed` | core/read.go:31-37 | reading again changes no stored output in the cone, at any depth |
| `Outputs.RefreshedTransitive` | core/read.go:31-37 | any number of reads together still changes only outputs and update times, to the values the first tables determine |
| `Resources.PathsDescend` | internal/store/postgres/resource_store.go:438-463 | in a well-formed table every dependency path stays inside the project and goes to rows inserted earlier and earlier |
| `Resources.NoCycles` | core/core.go:52-53 | so no resource depends on itself, directly or through others |
| `Resources.CreateKeepsOrder` | internal/store/postgres/resource_store.go:161-182 | inserting a row whose dependencies exist in its project keeps the table well-formed and every other row's identity |
| `Resources.UpdateKeepsOrder` | internal/store/postgres/resource_store.go:206-239 | so does updating a row with dependencies inserted before it |
| `ResourceStore.Store.Create` | internal/store/postgres/resource_store.go:161-204 | all or nothing: conflict on a taken URN, not-found on an unknown dependency, otherwise one new row as given and one revision that describes it |
| `ResourceStore.Store.Update` | internal/store/postgres/resource_store.go:206-269 | all or nothing: succeeds exactly when the resource and its dependencies are rows; writes state, configuration, labels, dependencies, time and author but no identity and no other row, and a revision, with reason and author, only when asked |
| `ResourceStore.Store.SetDependencies` | internal/store/postgres/resource_store.go:438-463 | succeeds exactly when every dependency names a row |
| `ResourceStore.Store.ExtendWaitTime` | internal/store/postgres/resource_store.go:402-410 | sets only the next sync time, whatever the row's status |
| `ResourceStore.Store.FetchResourceForSync` | internal/store/postgres/resource_store.go:352-381 | run on its own, picks and leases a row of the syncer's scope whose next sync is not after now, or changes nothing exactly when there is none |
| `CoreService.Service.PlanChange` | core/write.go:129-148 | succeeds exactly when the dependencies resolve, the driver accepts them and the names are valid; the result is the driver's plan with merged labels, and only outputs are refreshed |
| `CoreService.Service.ExecAction` | core/write.go:84-127 | succeeds exactly when the plan does and, for a stored create, the URN is free, else reports a conflict; the answer is the stamped plan, stored whole with one revision; a failed or dry run changes nothing but refreshed outputs and update times |
| `CoreService.Service.CreateResource` | core/write.go:24-43 | creates exactly when the names are valid, the plan succeeds and the URN they determine is free (a dry run needs no free URN); what is stored is the stamped plan, under that URN, by its creator, with the labels given that are not empty |
| `CoreService.Service.ApplyAction` | core/write.go:67-82 | accepts exactly when the resource can be read, is completed or failed, and the driver plans the action on it as refreshed; what is stored is that plan, stamped, with every label as the action gives it, its user and time, and one revision that says the same and why; an action named create conflicts with whatever has the URN of the names, unless it is a dry run |
| `CoreService.PlanResultStable` | core/core.go:52-73 | what a plan comes to does not depend on which outputs were refreshed before it |
| `CoreService.Service.UpdateResource` | core/write.go:45-58 | rejects new dependencies and empty configurations before anything else, and otherwise accepts and stores exactly as an update action |
| `CoreService.Service.DeleteResource` | core/write.go:60-65 | accepted exactly when the driver plans a delete; recorded as an action, and no row goes away |
| `CoreService.MergeLabels` | core/write.go:174-193 | every label of the second map stands as given there or is gone if given empty, and any other stays as it was unless empty, whatever the iteration order |
| `CoreService.OverridesIsMerged` | core/write.go:174-193 | label by label: one of the action stands as given or is gone if given empty, any other stays as it was unless empty; those words leave no choice |
| `CoreService.UrnsAreUnique` | core/resource/resource.go:145-150 | resources with valid names share a URN only if kind, project and name are all equal |
| `CoreService.CommitSound` | core/write.go:110-114 | an accepted change keeps the table ordered, every pending row scheduled, and every row equal to its latest revision |
| `CoreService.InsertSound` | internal/store/postgres/resource_store.go:161-189 | and so does an accepted creation |
| `Syncing.AfterSyncScheduled` | core/sync.go:80-129 | no answer of a driver that schedules its own pending states leaves a pending resource without a next sync |
| `Syncing.AfterSyncAccounts` | core/sync.go:80-129 | what a sync saves is fixed, case by case, by the retries, error, status and next sync it must leave |
| `Syncing.SyncFailsIff` | core/sync.go:91-114 | a failing sync ends in the error status, with no next sync, exactly when the configuration is invalid or the last retry allowed has failed; otherwise it waits until the time given |
| `CoreService.Service.NextState` | core/sync.go:80-129 | the branches of handleSync, one field after another, save exactly that |
| `CoreService.Service.SyncPicked` | core/sync.go:52-132 | saves exactly when the dependencies resolve: the driver's new state as it is, or one more retry with its error, which ends in the error status exactly for an invalid configuration or the last retry allowed and is else tried again a backoff after the call; configurations, labels and revisions stay; otherwise nothing is saved or counted |
| `CoreService.Service.SyncOne` | internal/store/postgres/resource_store.go:310-339 | leases a due resource of the scope if there is one and saves its sync exactly when its dependencies resolve; the tables stay sound |
| `Interleaving.StepInv` | internal/store/postgres/resource_store.go:328-338 | every read, write, lease and heartbeat of any process preserves the invariant, with copies of any age in flight |
| `Interleaving.NeverCyclic` | core/write.go:46-47 | interleaved: in every reachable table no path of dependencies is a cycle, dangles or crosses projects |
| `Interleaving.NestingBounded` | core/core.go:52-53 | interleaved: a call never nests deeper than the rank of the resource it was made for |
| `Interleaving.RanksNeverChange` | core/read.go:12-21 | interleaved: no later step of anyone changes that rank, so the recursion ends |
| `Interleaving.NeverStranded` | core/sync.go:91-119 | interleaved: a pending row always has a next sync time |
| `Interleaving.AlwaysFromRevision` | internal/store/postgres/resource_store.go:239-251 | interleaved: configuration and labels of a row are always those one accepted action recorded together |
| `Interleaving.OneRevisionPerAction` | internal/store/postgres/resource_store.go:176-186 | interleaved: the revision log is, in order, the revision of each accepted action with its configuration, labels and reason, and nothing else |
| `Interleaving.WriteBackKeepsRecorded` | core/read.go:31-33 | a write-back keeps rows equal to their latest revisions exactly when its copy is current in configuration and labels; that alone does not make it harmless |
| `Interleaving.RefreshCanLoseAnUpdate` | core/read.go:31-33 | a run in which a stale refresh undoes a committed update, which is then never synced |
| `Interleaving.PickupWindow` | internal/store/postgres/resource_store.go:373-377 | between selecting and leasing a second syncer can pick the same row; after leasing, with nothing but time passing, exactly from the end of the lease on |
| `Interleaving.CommitsTerminalCopy` | core/write.go:67-74 | interleaved: an action commits only from the one copy its process holds, of a resource completed or failed when read, and its row becomes what was planned under the same identity |
| `Interleaving.InvalidIsLast` | core/sync.go:91-98 | interleaved: after a sync refused as invalid the row is in error without a next sync, and until something else writes it no syncer can select it |
| `Interleaving.TwoSyncersOneResource` | internal/store/postgres/resource_store.go:355-377 | a run, for any lease, in which two syncers both work on one resource |
| `Refinement.TraceIsRun` | core/read.go:12-40 | what a call does between its first read and its answer is a run of one process of the interleaved model, made of reads, descents, write-backs, returns and waiting, with nobody else moving |
| `Refinement.GetResource` | core/read.go:12-40 | every serial read, failed ones included, is such a run: it ends with the tables the read leaves and, on success, with its answer as the one copy held |
| `Refinement.ApplyAction` | core/write.go:67-114 | every serial action is such a run followed by one commit planned from the copy it read (one insert for an action named create), or by none if it is refused or dry |
| `Refinement.CreateResource` | core/write.go:24-43 | every serial create is such a run over the dependencies followed by one insert, or by none |
| `Refinement.SyncOne` | core/sync.go:52-132 | every serial turn of a syncer is a select and a lease with only time between them, such a run from a read of the leased row, and one save of the driver's answer to the refreshed dependencies, or none |
| `Refinement.StillReachable` | core/write.go:67-114 | calls compose: what could be reached before such steps can be reached after them |
| `Syncers.WatchedRunIsRun` | internal/store/postgres/resource_store.go:328-338 | runs under rules are runs of the interleaved model |
| `Syncers.ExclusiveIff` | internal/store/postgres/resource_store.go:352-400 | over all runs, at most one syncer to a resource if and only if pickup is one step, no refresh writes a stale copy, no action commits on a resource being synced, and beats land before the lease ends |
| `Syncers.MoveKeepsSyncers` | internal/store/postgres/resource_store.go:383-410 | every move under those rules keeps each syncer alone, inside its lease, on a row that shows it |
| `Syncers.TwoStepPickupOverlaps` | internal/store/postgres/resource_store.go:373-377 | without the first rule, a run with two syncers on one resource |
| `Syncers.StaleRefreshOverlaps` | core/read.go:31-33 | without the second, a run in which a refresh from before the lease makes the leased row due again at once |
| `Syncers.ActionOverlaps` | core/write.go:67-82 | without the third, a run in which an action on a completed, due resource makes it due again while it is being synced |
| `Syncers.LateBeatOverlaps` | internal/store/postgres/resource_store.go:383-400 | without the fourth, a run in which the lease ends before the beat |
| `Syncers.OpenChecksWhatItTakes` | internal/store/postgres/postgres.go:69-71 | with the first three rules and beats on time, the check made when the store is opened is exactly what exclusion takes |
| `Syncers.WriteBackHarmlessIff` | core/read.go:31-33 | a write-back changes nothing but output and update fields if and only if its copy agrees with the row in configuration, labels, dependencies and all of the state but the output |
| `Syncers.RefreshesHarmlessIff` | core/read.go:31-33 | every write-back of every run is harmless if and only if none carries a copy from before the row's last action, save, lease or heartbeat |
| `Syncers.ActionsStay` | internal/store/postgres/resource_store.go:239-251 | under that rule a row stays as an accepted action left it, output aside, until the next action, save, lease or heartbeat on it |
| `Syncers.RefreshCanDropAnAction` | core/read.go:31-33 | without it, a run that ends with an accepted action recorded and every row equal to its latest revision, but the resource complete and no sync to come |
| `Syncers.RecordedIff` | internal/store/postgres/resource_store.go:328-338 | rows equal their latest revisions in every run if and only if no refresh writes a stale copy and no action commits on a resource being synced |
| `LostActions.NothingLostIff` | core/write.go:67-114 | no refresh, save or commit of any run is made from a copy read before the last accepted action on its resource, if and only if no refresh writes a stale copy, no action commits on a resource being synced, and none is planned from a stale copy |
| `LostActions.ActionsCanOverwrite` | core/write.go:67-114 | without the third rule, a run with two accepted actions from one copy, the first recorded but replaced and never synced |
| `LostActions.StaleRefreshLoses` | core/read.go:31-33 | without the first rule, a run in which a refresh is made from a copy read before an accepted action |
| `LostActions.SaveLosesAction` | internal/store/postgres/resource_store.go:328-338 | without the second, a run in which a save is made from a copy read before an accepted action |
| `LostActions.RunKeepsActed` | core/sync.go:52-132 | when no action commits during a sync, every syncer works from a copy at least as recent as the last action |
| `LostActions.UpToDateIff` | internal/store/postgres/resource_store.go:310-339 | what every syncer works from is, at all times in all runs, the present configuration, steps and retries of its resource, so that syncs continue one another, if and only if the rules that keep syncers apart hold |
| `Jobs.Attempt` | pkg/worker/job.go:114-149 | each outcome is reported as itself: done with the result, failed or panicked with the error, pending with the error and a wait of at least five seconds after a cancellation or a retryable error; and the bookkeeping done whatever happened |
| `Jobs.EnqueueAllOrNothing` | pkg/worker/pgq/pgq.go:74-96 | enqueueing succeeds exactly when there is a job, no id is taken and none is repeated, and then adds exactly the given jobs, each with all it says and nothing of any attempt |
| `Jobs.Queue.Enqueue` | pkg/worker/pgq/pgq.go:74-96 | the insert as a loop: all the jobs or none; no jobs at all is an error |
| `Jobs.Queue.PickupJob` | pkg/worker/pgq/pgq_utils.go:48-64 | returns a pending job of the kinds asked for whose time has come, as it was, and extends its lease, or nothing when there is none |
| `Jobs.Queue.ExtendWaitTime` | pkg/worker/pgq/pgq_utils.go:100-108 | moves run_at to the end of a new lease and nothing else, whatever the status |
| `Jobs.Queue.SaveJobResult` | pkg/worker/pgq/pgq_utils.go:66-81 | writes the result of an attempt only over a pending row, never run_at, and counts it |
| `Jobs.Queue.Dequeue` | pkg/worker/pgq/pgq.go:98-113 | with nobody else at work: the row picked was ready and of the kinds asked for, and ends reporting the outcome, one attempt more, until the end of its lease; no other row changes |
| `Leases.TerminalForever` | pkg/worker/pgq/pgq_utils.go:66-81 | at any speed and with any overlap of workers, a finished row changes in nothing but run_at |
| `Leases.SaveReports` | pkg/worker/pgq/pgq_utils.go:66-81 | at any speed, a save over a pending row leaves the outcome, one more attempt and the end of the lease |
| `Leases.OutcomeDecides` | pkg/worker/job.go:120-148 | after a result, an error or a panic the job keeps saying so and is never picked up again in any run; after a cancellation or a retryable error it can be picked up exactly when its lease is over |
| `Leases.AttemptsCountSaves` | pkg/worker/pgq/pgq_utils.go:75-77 | at any speed the stored counter is the number of saves that found the row pending |
| `Leases.StepLeaseInv` | pkg/worker/pgq/pgq_utils.go:31-64 | each timed step keeps every live worker inside its lease, alone, on a pending row it has not lost count of |
| `Leases.ExclusiveIffBeatsLandInLease` | pkg/worker/pgq/pgq.go:115-128 | at most one live worker per job in every reachable state if and only if refresh interval plus delay fits in the lease |
| `Leases.LateBeatsOverlap` | pkg/worker/pgq/pgq_utils.go:40-43 | otherwise a run in which two workers hold one job |
| `Leases.QueueToleratesTenSeconds` | pkg/worker/pgq/pgq.go:23-24 | with beats every 20 seconds and leases of 30, exclusion holds exactly for delays up to ten seconds |
| `Leases.CountersAgree` | pkg/worker/job.go:121-124 | under exclusion every save takes effect, and the counter and status in memory are the ones then stored |
| `Leases.RetriesKeptIff` | pkg/worker/pgq/pgq_utils.go:66-81 | over all timed runs, overlapping or not, every live worker's retry keeps the wait it asks for if and only if that wait, the refresh interval and the delay together fit in the lease and one instant |
| `Leases.QueueKeepsElevenSeconds` | pkg/worker/pgq/pgq.go:23-24 | with the queue's constants and beats on time, exactly the waits up to eleven seconds are kept in every run |
| `Leases.LongWaitIsCut` | pkg/worker/job.go:161-166 | for any longer wait, a reachable state in which a retry is saved and the job can run before it is over |
| `Leases.MinuteIsCut` | pkg/worker/job.go:76-82 | a reachable retry after a minute whose job runs again after thirty-one seconds |
| `Leases.RetryAfterKeptIff` | pkg/worker/job.go:161-166 | in any one state, the wait is kept exactly when it ends no later than the first instant after the lease |
| `Names.SafeNamePanics` | modules/utils.go:52-53 | the only panic: a name that must be cut, in a limit with no room for suffix and hash |
| `Names.SafeNameShape` | modules/utils.go:37-56 | every name fits the limit and ends in the suffix; one with room is kept, with the suffix once; one without is the start of the name, as far as the room goes and without the hyphens at either end, then the hash and the suffix |
| `Names.SafeNameIdempotent` | modules/utils.go:39-44 | naming a produced name again returns it, from either branch |
| `Names.SlugIsSlug` | modules/utils.go:58-65 | only lower-case letters, digits and hyphens come out, whatever goes in |
| `Names.SlugConcat` | modules/utils.go:58-65 | slugging works piece by piece, wherever no run of underscores or spaces is cut |
| `Names.SlugPieces` | modules/utils.go:58-65 | a run of underscores or of spaces becomes one hyphen, letters are lower-cased, digits and hyphens stay, anything else goes; with the previous row that fixes every string |
| `Names.SlugIdempotent` | modules/utils.go:58-65 | slugging twice is slugging once |
| `Names.SlugJoin` | modules/utils.go:73-74 | slugging distributes over joining with a hyphen |
| `Names.BuildResourceNameFits` | modules/utils.go:81-83 | a name whose slugged components fit is their slug |
| `Names.BuildResourceNameCuts` | modules/utils.go:84-88 | one that does not is exactly as long as the limit, with its hash, or panics exactly when the limit is below project, kind and eleven characters |
| `Names.BuildResourceNameBounded` | modules/utils.go:67-89 | every result is a slug within the limit |
| `ConsumerGroup.SubmatchIsRegex` | modules/firehose/driver_plan.go:20 | cutting at the last hyphen finds the one way the pattern can match |
| `ConsumerGroup.NextIncrements` | modules/firehose/driver_plan.go:282-291 | a matching group keeps its prefix and adds one to its number |
| `ConsumerGroup.NextWraps` | modules/firehose/driver_plan.go:284-291 | at the 64-bit bound the number wraps, and the reset after that fails |
| `ConsumerGroup.ResetsNeverRepeat` | modules/firehose/driver_plan.go:277-292 | from any string, no two resets give the same group, not even across the wrap |
| `ConsumerGroup.PlainNameCounts` | modules/firehose/driver_plan.go:278-281 | a name without a number gets 1, 2, 3 and so on |
| `DaggerGroups.JoinSplit` | modules/dagger/config.go:433-442 | splitting at hyphens and joining again is the identity |
| `DaggerGroups.IncrementIsNextId` | modules/dagger/config.go:420-434 | incrementing replaces exactly what follows the last hyphen by the increased, padded number |
| `DaggerGroups.LessIsValueOrder` | modules/dagger/config.go:245-247 | on digit strings of one length, text order is number order |
| `DaggerGroups.LessIsLexicographic` | modules/dagger/config.go:245-247 | text order: the first difference decides, or the text that stops short there |
| `DaggerGroups.TextMaxIsGreatest` | modules/dagger/module.go:156-162 | the loops end with one of the ids, and none comes after it |
| `DaggerGroups.ConsumerReset` | modules/dagger/module.go:153-172 | rewrites the sources in place: each gets the greatest id plus its position and the reset value, and keeps the rest, unless the first source reads files |
| `DaggerGroups.ReadSources` | modules/dagger/config.go:239-270 | rewrites the sources in place: ids only where missing, and each of the three settings of the driver only where the source gives none |
| `DaggerGroups.ResetFreshIff` | modules/dagger/module.go:153-168 | for any ids, a reset gives distinct ids that were unused if and only if none of the numbers following the one in the textually greatest id, one per source in 64-bit arithmetic, is in use after the same prefix |
| `DaggerGroups.ResetGivesFreshIds` | modules/dagger/module.go:155-168 | in particular with one name and four-digit numbers |
| `DaggerGroups.ResetKeepsFourDigits` | modules/dagger/config.go:426-428 | the new numbers have four digits again, so that resets can go on, exactly while the largest is at most 9999 |
| `DaggerGroups.ResetCollidesPastFourDigits` | modules/dagger/module.go:156-160 | with a five-digit number present that condition fails, and a reset hands out an id in use |
| `DaggerGroups.GeneratedUniqueIff` | modules/dagger/config.go:242-257 | for any ids, generated ids are distinct and unused exactly when the numbers that follow the text maximum, one per missing id in 64-bit arithmetic, are unused |
| `DaggerGroups.FourDigitIdsGenerateUnique` | modules/dagger/config.go:242-257 | which holds whenever all given ids end in four digits |
| `DaggerGroups.GeneratedCanCollide` | modules/dagger/config.go:243-247 | sources for which a generated id is one already in use |
| `Tags.TagsToLabelMap` | internal/store/postgres/tags_model.go:55-65 | the loop decodes every tag, the later one winning, and panics on a tag without a separator |
| `Tags.LabelRoundTrip` | internal/store/postgres/tags_model.go:55-73 | labels come back exactly as stored, in any row order, if and only if no key contains "=" |
| `Tags.PlainKeysDoNotClash` | internal/store/postgres/tags_model.go:67-73 | labels without "=" in keys never make the same row |
| `Tags.TagTable.SetTags` | internal/store/postgres/tags_model.go:35-53 | replaces the rows of one id by exactly its labels' tags and touches no other id, or changes nothing when two labels clash |
| `Tags.TagTable.ReadTags` | internal/store/postgres/tags_model.go:13-33 | every tag of the id, once, in some order |
| `Keda.ReadKedaPanics` | modules/firehose/keda.go:253-266 | reading panics exactly for a kafka trigger of the firehose alone that has no metadata while the environment has some to add |
| `Keda.EntryPrecedence` | modules/firehose/keda.go:92-110 | every metadata entry of a reading comes from the environment (kafka triggers), else the firehose's own settings, else the driver's, and from nowhere else |
| `Keda.TriggerPrecedence` | modules/firehose/keda.go:92-109 | kind and credentials of a trigger are the firehose's where it gives any, else the driver's; there are the triggers of both and no others |
| `Keda.KafkaWatches` | modules/firehose/keda.go:253-272 | every kafka trigger of a reading has the group, topic and brokers of the environment, whatever it had before |
| `Keda.SettingPrecedence` | modules/firehose/keda.go:111-127 | bounds and pauses are the firehose's, timing the driver's, fallback and scaling behaviour the firehose's where given |
| `Keda.DriverSettings` | modules/firehose/keda.go:78-90 | of the driver's settings those of the sink count alone, its defaults only where there are none |
| `Keda.ReadKedaSettles` | modules/firehose/keda.go:78-129 | a stored reading is a fixed point under the same driver settings, trigger by trigger |
| `Keda.ReadKedaAgain` | modules/firehose/keda.go:78-129 | once read, settings can be read under any driver settings and environment: no panic, still valid, pauses kept |
| `KedaHeap.DeepCopyTriggers` | modules/firehose/keda.go:295-315 | equal contents, every map of the copy new |
| `KedaHeap.MergeTriggers` | modules/firehose/keda.go:92-108 | the loop merges key by key into the copies in place, whatever the order |
| `KedaHeap.UpdateTriggersMetadata` | modules/firehose/keda.go:253-270 | stamps exactly the kafka triggers in place, or panics exactly as predicted |
| `KedaHeap.KedaSpec.ReadConfig` | modules/firehose/keda.go:78-129 | on the heap: computes the value-level reading, writes nothing of the shared driver settings, and shares no map with them afterwards |
| `FirehoseConfig.CloneAndMergeMaps` | modules/utils.go:18-27 | both loops together are the overlay of the two maps |
| `FirehoseConfig.ReadConfig` | modules/firehose/config.go:90-147 | the assignments of readConfig compute the overlay that the theorems are about |
| `FirehoseConfig.FieldPrecedence` | modules/firehose/config.go:96-135 | a reading has its own name or a generated one that fits, its own namespace, else the sink's, else the default, the driver's init container, and the rest as given |
| `FirehoseConfig.UsagePrecedence` | modules/firehose/config.go:120-126 | each limit and request is the firehose's own, else the sink's, else the default |
| `FirehoseConfig.EnvPrecedence` | modules/firehose/config.go:96-118 | the environment is the firehose's over the driver's, and has a consumer group, named after the release where there would be none |
| `FirehoseConfig.ReadWatches` | modules/firehose/config.go:137-144 | an autoscaler that is on watches the group, topic and brokers the firehose consumes with, in every reading |
| `FirehoseConfig.ReadAccepts` | modules/firehose/config.go:99-144 | exactly which configurations are accepted; a generated release name never is the reason for refusal |
| `FirehoseConfig.ReadSettles` | modules/firehose/config.go:96-146 | whatever is read has a release name that fits, a consumer group, at least one replica, and a valid autoscaler if that is on |
| `FirehoseConfig.SettledReads` | modules/firehose/config.go:90-147 | a stored configuration can be read under any later driver configuration, and keeps stop state, replicas, release name, namespace, chart, its own environment, and pauses and bounds of the autoscaler |
| `FirehoseConfig.ReadIsFixed` | modules/firehose/config.go:90-147 | under the driver configuration it was read with, reading a stored configuration changes nothing |
| `FirehoseDriver.Expanded.PlanCreate` | modules/firehose/driver_plan.go:147-194 | the assignments of planCreate compute the plan the theorems are about |
| `FirehoseDriver.Expanded.PlanChange` | modules/firehose/driver_plan.go:40-145 | so do those of planChange, in every branch |
| `FirehoseDriver.Expanded.PlanReset` | modules/firehose/driver_plan.go:228-275 | so do those of planReset |
| `FirehoseDriver.Expanded.PlanResetV2` | modules/firehose/driver_plan.go:196-226 | and of planResetV2 |
| `FirehosePlan.CreateIsGood` | modules/firehose/driver_plan.go:147-194 | creation hands over a settled configuration, a pending state due at once, and the one step that deploys it |
| `FirehosePlan.ActionIsGood` | modules/firehose/driver_plan.go:24-38 | every other action does so too, under any driver configuration, with steps that end in a deployment |
| `FirehoseRequests.RequestHonoured` | modules/firehose/driver_plan.go:40-275 | every accepted action stores what it asks for, in terms of the stored configuration and the request alone: the replicas of a scale, the running or stopped state and pauses of a start or stop, the parameters of an update, the driver's chart, the offset and next group of a reset; everything else stays; and it plans the steps of its kind |
| `FirehoseRequests.ChangeAcceptedIff` | modules/firehose/driver_plan.go:90-131 | a scale, start, stop or upgrade of a stored configuration is accepted exactly when the cluster's output can be read, the release renders and a scale is to one or more; a reset of the second kind always is; with the error of each refusal |
| `FirehoseRequests.CreateHonoured` | modules/firehose/driver_plan.go:147-194 | a creation is accepted exactly when its parameters are and a release can be made of them, and stores what they say, in the cluster's namespace if it has one, with one deployment planned |
| `FirehoseRequests.ActionWatches` | modules/firehose/driver_plan.go:248-260 | after every action, the reset that changes the group included, an autoscaler that is on watches the group its firehose consumes with |
| `FirehoseLife.ReleaseNameIsForLife` | modules/firehose/driver_plan.go:58-62 | no sequence of actions, under any driver configurations, changes the release name |
| `FirehoseLife.ActionKeepsIdentity` | modules/firehose/driver_plan.go:79-85 | one action keeps the release name, and the namespace as read unless it updates a stopped firehose |
| `FirehoseLife.NamespaceSticks` | modules/firehose/driver_plan.go:64-85 | over any sequence without an update while stopped, a namespace once set stays |
| `FirehoseLife.UpdateRefusedIff` | modules/firehose/driver_plan.go:81-85 | an otherwise acceptable update is refused exactly when it would move a running firehose, and goes where it asks otherwise |
| `FirehoseLife.GroupCountsResets` | modules/firehose/driver_plan.go:241-246 | between updates the group is the first one advanced once per accepted reset; nothing else moves it |
| `FirehoseLife.GroupsStayFresh` | modules/firehose/driver_plan.go:241-246 | between updates, two moments with a reset between them never have the same consumer group |
| `FirehoseLife.UpdateKeepsGroupIff` | modules/firehose/driver_plan.go:47-62 | an update keeps the group exactly when its parameters or the driver ask for it, by name or by default |
| `FirehoseLife.UpdateRevivesGroup` | modules/firehose/driver_plan.go:47-62 | an accepted update whose parameters ask for the group before an accepted reset brings that group back |
| `FirehoseLife.SampleRevivesGroup` | modules/firehose/driver_plan.go:47-62 | a firehose on which both are accepted and the group comes back |
| `FirehoseLife.CreatedGroup` | modules/firehose/config.go:114-118 | a creation gives the group its parameters ask for, so repeating them in an update asks for the first group again |
| `FirehoseLife.ResetPanicsIff` | modules/firehose/driver_plan.go:248-260 | a reset panics exactly on a switched-off autoscaler that has a kafka trigger without metadata, and is accepted otherwise |
| `FirehoseLife.BareResetPanics` | modules/firehose/driver_plan.go:248-260 | a stored configuration whose reset panics under any driver configuration |
| `FirehoseSync.Driver.Sync` | modules/firehose/driver_sync.go:14-102 | the code's order of assignments and calls computes the answer, and makes the calls, that the theorems are about |
| `FirehoseSync.StepsRunInOrder` | modules/firehose/driver_sync.go:41-79 | under any failures, lost results and crashes calls follow the plan, a step is first called after its predecessor has succeeded, and completion means all have |
| `FirehoseSync.CallsServeThePlan` | modules/firehose/driver_sync.go:41-68 | through any failures, crashes and lost results every call does what its step says: a stop leaves no replicas and a held autoscaler, a release deploys the stored configuration, a reset moves the stored group to the plan's offset |
| `FirehoseSync.ResetsAfterStop` | modules/firehose/driver_sync.go:46-68 | offsets are never reset under a live consumer: whenever a plan that stops first calls for a reset, what was last released has no replicas and is held there |
| `FirehoseSync.ResetGoesWhereAsked` | modules/firehose/driver_plan.go:196-226 | every reset called for an action of the second kind is of the group the firehose has, to the offset of the request, with the firehose stopped |
| `FirehoseSync.AnswerStates` | modules/firehose/driver_sync.go:72-101 | after a step the rest of the plan is due at once and nothing else changes; at the end the output is the one just read and the next sync is the stop time if that is to come; a stop is called there exactly when it is past |
| `FirehoseSync.AnswerFailsIff` | modules/firehose/driver_sync.go:14-102 | a run fails exactly on an error before any call, of the call it makes, or of the output it reads at the end, passes that error on, and makes a call exactly when a step is pending or the stop time is past |
| `FirehoseSync.InvalidIsLast` | core/sync.go:91-98 | over all runs and under any limit, no sync follows a saved one that was refused as invalid |
| `FirehoseSync.SyncsAreBounded` | core/sync.go:80-119 | a plan of k steps is over after (k+1) times M counted syncs, and retries never exceed M |
| `FirehoseSync.EndsIffRetriesLimited` | core/sync.go:100-114 | there is such a bound, for any plan, exactly when retries are limited |
| `FirehoseSync.UntroubledSyncsComplete` | modules/firehose/driver_sync.go:41-101 | from any pending state of any run, as many due and untroubled saved syncs as steps are left, and one more, reach COMPLETED, and not one sooner |
| `FirehoseSync.AnswersAreFresh` | modules/firehose/driver_sync.go:72-101 | every state a sync returns starts with no retries and, if pending, with a next sync |
| `FirehoseSync.DeployMatchesIntent` | modules/firehose/driver_sync.go:83-101 | whenever a sync completes, the last release has the stored name, namespace, start offset and environment entries, and has no replicas if the stop time has passed, else the stored count and pauses, or none and a held autoscaler when stopped, so the stop of a reset is never the last |
| `FirehoseSync.StopTimeHoldsIff` | modules/firehose/driver_sync.go:84-87 | the autoscaler of a release stopped by time can start replicas exactly when the stored one can: on, not paused and not held at zero; that of one stopped by request never can |
| `FirehoseSync.StopTimeLeavesAutoscaler` | modules/firehose/driver_sync.go:84-87 | after any plan for a firehose with a stop time and such an autoscaler, a run that completes with no replicas and the autoscaler still able to start some |
| `FirehoseSync.SampleKeepsScaling` | modules/firehose/driver_sync.go:84-87 | a firehose for which that happens |
| `FirehoseSync.EveryActionDeploys` | modules/firehose/driver_sync.go:14-102 | after any life of actions, whenever the syncs of the next accepted one complete, the last release has the first name, as many replicas as the request and the configuration before it make it, none if that is stopped or its stop time past, and carries what the request made of that configuration |

## Left out

- SQL text, connection handling and error translation: a statement or transaction is one step, a unique URN and unique tag rows are taken from the schema, and `schema.sql` is not part of this model.
- `Store.Delete`: nothing in `core` calls it, and deleting a resource is an action like any other, so rows never go away in the model.
- Heartbeats beside a serial sync: they are steps of `Interleaving` only; a serial sync is over before its first one.
- Serial numbers used up by rolled-back inserts: numbers are consecutive here; only their order is used.
- Label rows inside the resource table: the table stores labels as they are, which is what storage does exactly when no key contains "=" (`Tags.LabelRoundTrip`).
- `Resource.Validate`: white space around names is not trimmed; names that differ by it are different names here.
- Telemetry set-up errors, which `core/write.go:116-120` can return after the change was stored and `core/sync.go:60-72` before anything happens.
- `pkg/worker/worker.go` and `Job.Sanitise`: a handler map and field defaults, easy members.
- A `Dequeue` callback that returns an error saves nothing; in the lease protocol this is the worker vanishing.
- The scope of a syncer, a map from columns to allowed values in the code, is any predicate on resources here.
- `LostActions.UpToDateIff`: compares copies only; calls to the cluster are not steps of the interleaved model, and their order is proved for serial syncs (`FirehoseSync.StepsRunInOrder`).
- A syncer that misses the end of its lease after its heartbeat stopped is outside `Syncers.ExclusiveIff`, which lets time pass only while that has not happened; writes it would make afterwards are runs of `Interleaving`.
- The clocks of workers and of the database are one clock; a worker that misses the end of its lease after its heartbeat stopped is outside the timed theorems, not outside the untimed ones.
- JSON decoding, JSON nulls inside an autoscaler, and the schema beyond the parts that can fail on a decoded configuration; malformed parameters of an action are refused before anything in the model happens.
- Chart values, release rendering, Helm, Kubernetes, Kafka and pod listings: their outcomes are parameters of plans and syncs. Rendering telegraf outputs writes into the driver's shared configuration (`modules/firehose/driver.go:227-239`); that map is not modelled.
- `FirehosePlan.PlanAction`: actions outside the module's list, which the module service refuses first.
- The sync methods of dagger and job, the same pending-step machine; flink, kafka and kubernetes, which complete in one plan.
- Rest of the dagger configuration, helm values, affinity and tolerations: field copying.
- Servers, command line, mappers, log streaming, pagination (its query has no order).
- `FirehoseSync.SyncsAreBounded`: counts saved syncs; ones that fail before the driver is called, on an unresolvable dependency, are never counted by the code and can go on for ever.
