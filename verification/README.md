# BusyBridge canonical-ledger write pipeline, modelled and proved

BusyBridge mirrors calendar events between Google calendars. Its canonical ledger plans, for every
event, one *projection* per target calendar (what should be there), compares it with what was last
applied, queues an *outbox* operation for every difference, and drains the queue against Google. The
design has to survive crashes between a Google call and the database write, lost replies, users editing
or deleting the copies, admin operations in the middle, and event ids that Google never lets be used
again. This project models that pipeline and the queues that drive it, and proves what it keeps.

## How the model is built

* **A transition system for one projection** (`Protocol`): the projection row, its outbox rows, the Google
  slots its deterministic ids name, the worker executing one operation call by call, and everybody who may
  interfere (planner, admin operations, ingest, discovery, clean-up, users, crashes, reclaim, lost replies). `Pipeline` holds the
  invariant every step keeps; `Guarantees`, `Writeback`, `SourceDelivery`, `ReservedIds`, `BurnBudget` and `CreateRace` say what
  follows for every reachable state; `Witnesses` holds concrete runs for every exception.
* **The imperative code** (`Records`, `Handlers`, `Drain`, `Reconcile`, `FixedPoint`, `DryRunPass`): classes for
  the tables, updated in place by methods with the source's branches. Each handler is proved to do *exactly* what
  the worker of the transition system does under the same weather (`Worker.Perform`), a drain is proved to be a
  run of the transition system for every projection at once, and so is the whole diff-and-drain loop. What is
  proved of reachable states therefore holds of the tables the loop leaves.
* **Convergence** (`Convergence`, `FixedPoint`): how many fault-free passes a drifted projection needs, exactly.
* **Queues** (`Wakeup`, `ReplanQueue`): the wake-up row and the replan queue under every interleaving of their
  SQL statements.
* **Planner and renderer** (`Planner`, `Renderer`, `Payload`, `ReadBack`, `Strings`, `GoogleIds`): what is wanted where,
  what is sent, and what the reader of our own copies gets back.
* **Three self-contained cores**: the token buckets (`RateLimits`), the calendar-file printer against RFC 5545
  (`Ics`), and backup retention (`Retention`).

## What is assumed

* Of Google: an id that was used stays reserved for ever; a 409 on insert is truthful; a GET answers 404, 410 or a
  cancelled event exactly for dead ids; a write to a dead id is answered 404, 410 or, when conditional on an etag
  that differs, 412; every write gives a fresh etag.
* Bodies are abstract and their hash is injective; SHA-256 seeds do not collide; times are integers.
* Every commit is atomic, and a crash can fall between any two of them.
* The body the diff renders is the body whose hash the planner stored (nothing it is rendered from changes between
  plan and diff without a replan).
* Which Google calendar a target stands for (main's, or the one mapped to the client) is a constant of the projection.
* One worker executes the operations of a projection at a time (the per-user reconcile lock). `CreateRace` drops
  this assumption for the id discipline.
* In the imperative handlers, what happens between two calls is that users edit or delete copies; the other
  interference (planner, admin, crash) is covered by the transition system.

## What the code does that its comments or its design do not say

* *A third exit from tracking.* A live copy can leave tracking when a create finds its own event edited under it
  (412 after 409), when a create that had landed is poisoned, **and** when an update or delete enqueued later
  supersedes a pending create that had landed (`Witnesses.UpdateSupersedesLandedCreate`).
* *A crash can mask drift silently.* After a 412 the stored etag is refreshed, the op is marked superseded and the
  replan is requested, in separate commits (`app/ledger/outbox.py:605-622`). Dying before the last one leaves nothing
  queued, nothing diverged and nothing for ingest to see, while Google holds other content
  (`Witnesses.CrashBeforeReplanMasks`); `Guarantees.CrashMasksExactly` says exactly when.
* *Discovery can mask a copy nobody wants.* Relinking writes the id, the etag and the current state, but clears no
  applied column (`app/ledger/ingest/discovery.py:178-187`). On a projection that counts as absent and is not diverged
  the copy it found then stays for good (`Witnesses.RelinkedOrphanIsMasked`, exactly when:
  `Guarantees.RelinkMasksExactly`).
* *Two passes are not always enough.* They are if and only if Google does not answer 412 for a dead id whose stored
  etag is stale; in that case exactly the third pass of the loop converges (`Convergence.TwoPassesConverge`,
  `Convergence.ThreePassesConverge`).
* *A withdrawn edit is still sent.* A no-op diff disarms the writeback flag but does not supersede the queued patch
  (`Writeback.WithdrawnEditIsStillSent`; exactly when a patch goes out unarmed:
  `Writeback.PatchesAreWithdrawnExactly`).
* *A slow holder loses wake-ups.* Staleness is counted from the time passed to the claim. A holder that outlives the
  timeout clears a second holder's claim on its clean release; if that one then dies, its work is never served
  (`Wakeup.SlowHolderLosesWakeup`). Exactly such a release loses a wake-up (`Wakeup.StepLosesExactly`), so comparing the
  claim time on release would rule it out (`Wakeup.OrderlyHoldersLoseNothing`). Two concurrent first inserts of the
  row: the second raises.
* *A stale read can move a wake-up either way.* A periodic request that had not read the earlier schedule postpones it,
  a debounced one that had not read the later schedule hastens it (`Wakeup.ScheduleMovesLaterExactly`,
  `Wakeup.ScheduleMovesEarlierExactly`).
* *An untitled meeting reads back as edited.* The stand-in title of its copy is compared with the missing title of the
  ledger row (`app/ledger/ingest/main.py:742-749`), and so is a description that ends in white space
  (`ReadBack.UntitledCopyLooksEdited`, `ReadBack.UntouchedCopyIsNoEdit`).
* *The id recogniser accepts twice as many ids as can be derived*: the last character carries a padding bit it does not
  check (`GoogleIds.RecognisedIdsExactly`).
* *A dry run undoes the outbox, not the projections* its no-op diffs snap; and its undo needs that no projection is
  enqueued twice in one pass, which the diff never does (`DryRun.TwiceIsTooOften`).
* *The footer round trip needs no condition on the user's own trailing tag*, and its exact condition is
  `Payload.Recoverable`.
* *A webcal feed placed on main* whose subscription still names an active client gives that client nothing, not even
  the busy block (`Planner.MainPlacementSkipsItsClient`).
* The list of deleted backups that retention returns is the list of backups it decided to delete; a file whose removal
  fails is still on it (`app/sync/backup.py:129-138`).
* `_escape_ics` passes control characters other than CR and LF, which the grammar of section 3.3.11 of RFC 5545
  excludes; the calendar-name line of a file is not folded (`app/sync/ics_export.py:429`).
* `_RateLimiter` with a burst below one token never lets a call through, and a rate of zero divides by zero. The
  asynchronous limiter with a capacity below one lets calls through all the same, each after a sleep, so its bound is
  one plus rate * T.

## Model

| member | source | states |
|---|---|---|
| `OutboxTable.EnqueueKeepsKeysUnique` | app/ledger/outbox.py:163-250 | an enqueue keeps the idempotency key unique, the id it returns holds an open row with that key, and unless the call changed nothing no other pending op of the projection is left |
| `OutboxTable.EnqueueIsLocal` | app/ledger/outbox.py:202-250 | restricted to its own projection an enqueue is the same enqueue; the rows of every other projection are untouched |
| `Drain.Ledger.Enqueue` | app/ledger/outbox.py:163-250 | the table and the returned id are those of the specification: early return on a live op with the key, else supersede the other pending ops and insert at max+1 or resurrect in place; earlier records stay, new ids are larger |
| `Drain.Ledger.SupersedeAndPut` | app/ledger/outbox.py:202-250 | the part after the early return: supersede, insert or resurrect |
| `Drain.Ledger.ReclaimStaleOperations` | app/ledger/outbox.py:324-356 | exactly the user's ops in flight without a start time or started over 15 minutes ago become pending, nothing else moves |
| `Drain.Ledger.ClaimNext` | app/ledger/outbox.py:359-393 | None iff nothing is due; otherwise the least due id, returned as read before its attempts were bumped, and only its row changes |
| `Drain.Ledger.Execute` | app/ledger/outbox.py:396-439 | a claimed op takes its projection where the worker of the transition system goes; its row ends settled or due strictly later; no other row moves |
| `Drain.Ledger.DrainOne` | app/ledger/outbox.py:308-321 | one turn of the drain: the least due op leaves the due set, no other row moves, and every projection sees a stride of the transition system |
| `Drain.Ledger.DrainUser` | app/ledger/outbox.py:256-321 | the drain terminates on the number of due rows; it executes due ops of the reclaimed table with strictly increasing ids, each once, oldest first; unless max_ops stopped it nothing is due; each counter is the number of executed ops now in that status, and they sum to the number processed |
| `OutboxTable.SupersededRowIsRevived` | app/ledger/outbox.py:1112-1127 | a superseded op is never due at any time for anybody; the next enqueue with its key brings it back under its old id and creation time, due at once, with the new content, no attempts and no error, and pushes aside whatever else was pending for the projection |
| `OutboxTable.RetriedRowIsDueAfterBackoff` | app/ledger/outbox.py:1130-1148 | a retried op is due if and only if its backoff has passed, the backoff grows with the attempts read before the claim and stays within 1 to 60 seconds, and it is the same job with the attempts the claim counted |
| `OutboxTable.BackoffDoubles` | app/ledger/outbox.py:1130-1148 | the backoff is one second at first and doubles with every attempt up to a minute |
| `OutboxTable.StrandedOpComesBack` | app/ledger/outbox.py:324-356 | an op stranded in flight is due again after a reclaim if and only if more than fifteen minutes have passed since its claim; other rows stay as they are |
| `OutboxTable.EnqueuedOpIsFresh` | app/ledger/outbox.py:218-250 | unless an op with the key is open, an enqueue leaves, new or resurrected, one that is due at once with no attempts and no error, carrying what was asked for |
| `Guarantees.SuccessIsUpdatedNext` | app/ledger/outbox.py:1040-1076 | whatever the projection was before, a recorded success is next decided as an update or delete, never a second create, and that op addresses the recorded id, the update under the recorded etag |
| `Guarantees.AbsenceIsRecreatedNext` | app/ledger/outbox.py:1079-1109 | a recorded absence of a top-level copy is next decided as a create if a copy is wanted and as nothing otherwise, and stays diverged if and only if its version or its wish moved on |
| `Guarantees.WritebackWaitsForANewEdit` | app/ledger/outbox.py:990-1037 | a recorded writeback is next decided as a patch if and only if a new edit armed the flag, the calendar is mapped and the wish is not what was sent; it records no Google id |
| `Records.ProjectionRecord.MarkPermanentFailure` | app/ledger/outbox.py:1151-1177 | the op and the projection are marked failed, nothing else |
| `Records.ProjectionRecord.GiveUpBurnedIds` | app/ledger/outbox.py:1180-1231 | as a permanent failure, with the generation reached persisted |
| `Records.ProjectionRecord.RequestProjectionReplan` | app/ledger/outbox.py:1305-1322 | only the applied version is cleared |
| `Handlers.ResolveConflict` | app/ledger/outbox.py:497-549 | after a 409: a dead id is reported burned, a live event is restored conditionally on its etag, a 412 supersedes, exactly as the transition system does |
| `Handlers.SkipBurnedId` | app/ledger/outbox.py:513-530 | past a burned id the next generation is persisted, or at the ceiling the op gives up |
| `Handlers.DoCreate` | app/ledger/outbox.py:442-572 | under every forecast of replies and user interference the records end where the worker of the transition system ends, and the outcome is the row's status |
| `Handlers.DoUpdate` | app/ledger/outbox.py:575-675 | the same for the etag-gated update of a top-level copy with its 412 refresh and 404/410 reset |
| `Handlers.DoDelete` | app/ledger/outbox.py:799-834 | the same for the unconditional delete |
| `Handlers.DoDeleteSource` | app/ledger/outbox.py:837-890 | under every forecast the records end where the worker of the transition system ends; and when a client source with an id is recorded as removed, the event is gone, a live one by a removal, and the flag is disarmed |
| `Handlers.DoPatch` | app/ledger/outbox.py:893-957 | the same for the writeback patch; and when a patch of a client source with an id is recorded, a live event was sent exactly the payload, and the flag is disarmed |
| `Handlers.ClassifyAndRetry` | app/ledger/outbox.py:1251-1292 | permanent failure iff the error is a denied or local one and five attempts were read; otherwise a retry under the backoff, the projection untouched |
| `Handlers.ExecuteOp` | app/ledger/outbox.py:396-439 | the records and the number of calls made are exactly those of the worker's run, and the outcome reported is the one recorded |
| `Worker.PerformLeads` | app/ledger/outbox.py:396-439 | whatever the weather, executing an op is a run of the transition system that ends idle |
| `Worker.PerformSettles` | app/ledger/outbox.py:1112-1177 | every way an op can end leaves its row settled or due strictly later, and no other row touched |
| `Worker.NothingIsSentWithoutAPayload` | app/ledger/outbox.py:466-468 | in any weather a create, update or patch that lost its payload, or an update of a copy without an id, makes no call and touches no event; it is retried, and from the sixth time on it fails for good |
| `Worker.NothingToDeleteIsDone` | app/ledger/outbox.py:820-825 | a delete of a copy without an id is done without a call, in any weather |
| `Worker.CarriedLeads` | app/ledger/outbox.py:308-321 | a drain, as one projection sees it, is a run of the transition system |
| `ReservedIds.StepKeepsIds` | app/ledger/outbox.py:487-572 | every step by anybody whose calls go to the projection's calendar, which `Guarantees.EveryOpIsAddressed` shows of all of them, keeps: generations below the persisted one are tombstones, none above was used, and the burn count of an episode is within its ceiling |
| `Pipeline.StepKeepsPipeline` | app/ledger/outbox.py:396-957 | every step of the transition system, among them the planner, admin operations, ingest, discovery's relink, the clean-up job, users, crashes and reclaims, keeps the whole invariant: rows, worker, ids, etags, beliefs about Google, and that suspicious states are owed to an op, a replan or a logged fault |
| `Pipeline.RunKeepsPipeline` | app/ledger/reconciler.py:498-549 | the same over whole runs |
| `Guarantees.AtMostOneLiveCopy` | app/ledger/outbox.py:112-126 | in every reachable state the reserved generations form a prefix, all but the last are tombstones, at most one managed event is live, and 0 <= generation - floor <= 50 |
| `Guarantees.EveryOpIsAddressed` | app/ledger/outbox.py:417-419 | in every reachable state every op ever queued, resurrected ones included, and the one being executed address the calendar of their projection; a call to another calendar would touch neither its copies nor its source event |
| `Guarantees.TrackingIsLostExactly` | app/ledger/outbox.py:533-549 | a step from a tracked state loses a copy if and only if it is one of the three exits, the only id that can be live holds a live event the projection does not name, and no other create op stays open |
| `Guarantees.RelinkRestoresTracking` | app/ledger/ingest/discovery.py:166-188 | relinking a copy that is still live makes its projection name it, whatever was lost before |
| `Guarantees.RunKeepsTracking` | app/ledger/outbox.py:1151-1177 | over whole runs in which no exit hits a landed copy that no other open create will find, no live copy is ever lost |
| `Guarantees.MaskedExactlyIfSuspicious` | app/ledger/diff.py:281-295 | in a quiescent, tracked, undiverged, unfailed state without a diff of an unmapped calendar, Google holds exactly the desired content, or ingest will see that it does not, if and only if the state is not suspicious (stored etag equal to Google's, content other than what counts as applied) |
| `Guarantees.NoSilentMasking` | app/ledger/diff.py:281-295 | in such a reachable state, if the run had no permanent failure, no crash that lost a replan with an effect and no relink of a projection that counted as applied, Google holds exactly the desired content, or a user touched the copy since in a way ingest sees |
| `Guarantees.CrashLosesTheReplanExactly` | app/ledger/outbox.py:1305-1322 | a crash in place of the replan request changes the outcome if and only if the version was not cleared already |
| `Guarantees.CrashMasksExactly` | app/ledger/outbox.py:605-622 | such a crash masks if and only if the projection does not look diverged and is suspicious |
| `Guarantees.RelinkMasksExactly` | app/ledger/ingest/discovery.py:166-188 | a relink with nothing queued masks if and only if the projection is not diverged and the listed etag is still Google's |
| `Guarantees.SuccessSettlesOnlyItsOwnWish` | app/ledger/outbox.py:964-1109 | success is recorded for the stamped hash and version: afterwards the projection is diverged if and only if what it wants, or the version of it, has moved on since the op was stamped |
| `Guarantees.FailsForGoodExactly` | app/ledger/outbox.py:1234-1292 | of all steps exactly two fail a projection for good: giving up burned ids, and the sixth failure of an op with a denied or local error |
| `Guarantees.TransientFailuresAreRetried` | app/ledger/outbox.py:1251-1292 | a quota or transient error changes nothing but the row, which is due again exactly after its backoff, however often |
| `Guarantees.GoneUnderRestore` | app/ledger/outbox.py:533-549 | a copy that dies under the restoring update makes the create retry for ever if Google says 410, and counts towards the six if it says 404 |
| `Guarantees.CleanupIsVisitedExactly` | app/ledger/admin_ops.py:109-226 | a clean-up makes the diff visit a projection if and only if it has not failed and does not count as cleaned up at that version |
| `Guarantees.UnmappedIsNeverQueued` | app/ledger/diff.py:354-362 | a diff of a client calendar without a Google id queues nothing and ends the divergence |
| `Guarantees.UnmappedDiffMasksExactly` | app/ledger/diff.py:354-362 | it masks if and only if Google does not hold what is wanted in a way ingest would see |
| `Witnesses.EditedAfterConflictIsOrphaned` | app/ledger/outbox.py:538-549 | a reachable run that leaves through the first exit and ends quiescent with a copy nobody owns |
| `Witnesses.PoisonedAfterLandingIsUntracked` | app/ledger/outbox.py:1151-1177 | a reachable run through the second exit |
| `Witnesses.UpdateSupersedesLandedCreate` | app/ledger/outbox.py:202-216 | a reachable run through the third exit |
| `Witnesses.CrashBeforeReplanMasks` | app/ledger/outbox.py:605-622 | a reachable quiescent state, tracked and never failed, where a crash between two commits hides that Google holds other content |
| `Witnesses.RelinkedOrphanIsMasked` | app/ledger/ingest/discovery.py:166-188 | a reachable state in which a relinked orphan looks converged, without a failure, a lost replan or an unmapped diff: nothing is wanted, a copy is live, and neither diff nor ingest sees it |
| `CreateRace.RacingCreatesLeaveOneCopy` | app/ledger/outbox.py:487-568 | with any number of workers racing, crashing and losing replies, the reserved generations form a prefix, all but the largest are tombstones and at most one copy is live |
| `BurnBudget.AttemptInsertsAtMostEight` | app/ledger/outbox.py:487-572 | from a claim to the next claim, whatever interferes, an op makes at most eight inserts |
| `BurnBudget.FirstSixAttemptsRetry` | app/ledger/outbox.py:470-572 | where every id is dead, each of the first six attempts burns eight more ids and is retried |
| `BurnBudget.SeventhAttemptFails` | app/ledger/outbox.py:1180-1231 | the seventh gives up at fifty burned ids, and an admin retry opens a full new budget |
| `BurnBudget.FailsExactlyOnTheSeventh` | app/ledger/outbox.py:470-572 | from a fresh episode where every id is dead, at whatever due times the create is attempted, it is permanently failed if and only if there were seven attempts, and there is no eighth |
| `BurnBudget.SuccessOpensFullBudget` | app/ledger/outbox.py:550-568 | a create that lands moves the floor to its generation, so the next episode starts with eight tries and fifty ids |
| `BurnBudget.AdminRetryOpensFullBudget` | app/ledger/admin_ops.py:430-487 | an admin retry brings a failed projection back to the diff exactly if there is something to do, and its next create has eight tries and a full budget; a projection that has not failed is untouched |
| `Writeback.WritebackNeverOwnsAnEvent` | app/ledger/diff.py:298-311 | in every reachable state a writeback projection has no Google id, no managed event, and only patches and source deletes in its outbox |
| `Writeback.SourceOpsNeedTheirFlag` | app/ledger/diff.py:394-449 | what a diff makes pending on it is a patch only if armed and different, or a source delete only if armed and never for a series master |
| `Writeback.ConvergedFlagIsDisarmed` | app/ledger/diff.py:500-538 | an armed flag whose source already matches is disarmed, nothing is queued and the divergence is gone |
| `Writeback.SourceIsTouchedOnlyIfArmed` | app/ledger/outbox.py:837-957 | over whole runs the source event is patched only if an edit armed it and removed only if a delete armed it; a series master is never removed |
| `Writeback.DiffWithdrawsExactly` | app/ledger/diff.py:213-216 | a diff pass on an armed writeback leaves a queued patch without its flag if and only if the projection is diverged and already counts as applied what it wants |
| `Writeback.StepOfPatches` | app/ledger/diff.py:500-538 | while every open patch is armed, a step changes that if and only if it is such a diff or the end of another patch; once one is not, exactly a new edit or the end of the last open patch mends it |
| `Writeback.PatchesAreWithdrawnExactly` | app/ledger/outbox.py:893-957 | over whole runs an open patch is unarmed if and only if a disarming step hit it and neither a new edit nor the end of the last open patch followed |
| `Writeback.PatchesAreSentArmed` | app/ledger/outbox.py:893-957 | a run without the two disarming steps makes every patch call while the flag is armed |
| `Writeback.WithdrawnEditIsStillSent` | app/ledger/diff.py:213-216 | a reachable run in which a queued patch is sent after its flag was disarmed |
| `SourceDelivery.DeleteFlagFallsOnlyOnceGone` | app/ledger/outbox.py:875-890 | of all steps only recording a removal disarms a delete, and then the source event is gone or has no id |
| `SourceDelivery.DisarmedMeansGone` | app/ledger/outbox.py:837-890 | over whole runs: a delete that was armed once and is armed no more has reached the source, whatever happened in between |
| `SourceDelivery.WritebackIsRecordedTruthfully` | app/ledger/outbox.py:893-1037 | in every reachable state a recorded writeback means that the last write of a source event that is still there is the patch with the content that now counts as applied |
| `SourceDelivery.PassWritesBackExactly` | app/ledger/reconciler.py:527-549 | from any reachable state at rest with a divergence one fault-free pass writes to the source exactly what is armed and wanted: the removal, the wanted content, or nothing; and leaves nothing to do |
| `Reconcile.NoOpDiffIsFinal` | app/ledger/diff.py:500-555 | a visit that decides on nothing moves no row, ends the divergence, makes any later visit the identity, and clears the writeback flag if and only if an armed writeback already matches |
| `Reconcile.DiffOne` | app/ledger/diff.py:105-238 | one diverged projection: snapped, or enqueued as decided for the calendar of its target, everybody else's view unchanged, and whether an op was queued |
| `Reconcile.DiffAndEnqueueForUser` | app/ledger/diff.py:105-238 | every projection of the user takes exactly its diff step, no other projection moves, and the count is the number of projections that queue |
| `Convergence.PassAdvances` | app/ledger/reconciler.py:527-549 | a fault-free pass converges a drifted projection or brings it exactly one stage closer, and not before |
| `Convergence.PassesConvergeExactly` | app/ledger/reconciler.py:527-549 | any number of fault-free passes converges it if and only if there are at least as many as its stage |
| `Convergence.TwoPassesConverge` | app/ledger/diff.py:332-466 | two passes converge it if and only if Google does not answer 412 for a dead id whose etag is stale |
| `Convergence.ThreePassesConverge` | app/ledger/reconciler.py:498-549 | the loop's three passes always do |
| `Convergence.ConvergedIsFixed` | app/ledger/diff.py:281-295 | a further pass enqueues nothing and changes nothing |
| `Convergence.ReachableStatesQualify` | app/ledger/outbox.py:442-675 | every reachable managed state at rest that is diverged and tracked, below the ceiling and never unmapped, is one the theorem starts from |
| `Convergence.SeenDriftIsRepaired` | app/ledger/ingest/client.py:505-556 | drift that ingest sees is repaired by one fault-free pass: an edited copy gets its content back, a deleted one is created anew |
| `Convergence.CleanupEmptiesTheCalendar` | app/ledger/admin_ops.py:109-226 | unless the diff does not visit it, one fault-free pass after a clean-up leaves no live copy |
| `FixedPoint.OnePass` | app/ledger/reconciler.py:527-549 | diff then drain over the tables is a pass of every projection; unless the op limit stopped it nothing is due |
| `FixedPoint.DiffDrainUntilQuiescent` | app/ledger/reconciler.py:498-549 | for every projection the loop is a run of the transition system; in fine weather and below the op limit every projection within three passes of convergence ends converged, even when the loop stops early |
| `FixedPoint.TotalsAreBalanced` | app/ledger/reconciler.py:527-549 | the totals of the loop stay balanced: every op processed is counted once more by its outcome, drain by drain from zero |
| `DryRun.DiscardUndoes` | app/ledger/reconciler.py:584-672 | discarding restores every row and column of the user, leaves other users' rows alone, and the preview is exactly what the pass made pending |
| `DryRun.DryRunIsAnExactUndo` | app/ledger/reconciler.py:556-672 | for every outbox and every sequence of enqueues with at most one per projection, snapshot, enqueue, discard is the identity on the user's rows |
| `DryRun.TwiceIsTooOften` | app/ledger/reconciler.py:620-672 | with two enqueues for one projection the undo fails |
| `DryRunPass.SnapshotOutbox` | app/ledger/reconciler.py:563-581 | the snapshot is the saved columns of exactly the user's rows |
| `DryRunPass.DiscardOutbox` | app/ledger/reconciler.py:584-672 | the table afterwards and the reported ops are those of the specification, at the watermark of the snapshot |
| `DryRunPass.PassIsUndone` | app/ledger/reconciler.py:584-672 | whatever reversible rewriting a pass did, discarding gives back the whole table and reports what was queued |
| `DryRunPass.DryRunOnce` | app/ledger/reconciler.py:171-208 | snapshot, a real diff pass, discard: the outbox is as it was, row for row, and the preview is what the pass queued |
| `Wakeup.RetryDelay` | app/ledger/runtime.py:464-469 | between one and thirty minutes, the bounds met at the first and from the sixth failure |
| `Wakeup.RetryDelayDoubles` | app/ledger/runtime.py:458-469 | every further failure doubles the delay until the ceiling |
| `Wakeup.StreaksEndWithSuccess` | app/ledger/runtime.py:472-528 | over two ticks: a second failure in a row waits by the longer streak, a failure after a success a minute again |
| `Wakeup.CleanPassLeavesIdle` | app/ledger/runtime.py:472-528 | after a clean pass no tick serves the row until it is scheduled again |
| `Wakeup.Requests.WriteSchedule` | app/ledger/triggers.py:291-353 | the row after an upsert, given the row it had read: a debounced request is scheduled no earlier than the time it asks for and the time it read, a periodic one no later than either; a second first insert fails |
| `Wakeup.MergedIsLatestOrEarliest` | app/ledger/triggers.py:334-343 | the schedule written is the requested time or the one read: the later of the two when debounced, the earlier when periodic |
| `Wakeup.Requests.CompareAndClaim` | app/ledger/triggers.py:172-213 | the claim wins iff no fresh claim is held and the schedule is the one read; then the schedule is consumed |
| `Wakeup.Requests.Release` | app/ledger/triggers.py:223-253 | a clean release only clears the claim; a failed one also schedules a retry unless something is scheduled |
| `Wakeup.Requests.Reclaim` | app/ledger/triggers.py:258-285 | exactly abandoned claims are rescheduled |
| `Wakeup.DrainAllDueUsers` | app/ledger/runtime.py:472-528 | after the sweep every due user is served once: idle with its streak forgotten, or rescheduled under the escalating backoff; nobody else moves |
| `Wakeup.StepKeepsInv` | app/ledger/triggers.py:134-353 | every statement of every caller keeps: at most one holder, pending work scheduled, stranded work under a dead claim |
| `Wakeup.RunKeepsVisible` | app/ledger/triggers.py:291-353 | even with holders that outlive the timeout, an unclaimed enqueue is in the schedule |
| `Wakeup.VisibleUntilClaimed` | app/ledger/triggers.py:172-213 | an enqueue leaves the schedule only by a claim made after it, which then holds it |
| `Wakeup.OnlyCleanReleaseDischarges` | app/ledger/triggers.py:223-253 | work is discharged only by its holder's clean release |
| `Wakeup.NoWakeupIsLost` | app/ledger/triggers.py:134-353 | over every interleaving in which no holder outlives the timeout: one holder at most, and every accepted enqueue is served, scheduled, held, or stranded where the sweep finds it |
| `Wakeup.SweepRestoresStrandedWork` | app/ledger/triggers.py:258-285 | after the timeout the sweep makes stranded work visible again |
| `Wakeup.DueWorkIsClaimed` | app/ledger/triggers.py:134-213 | visible due work goes to the next undisturbed claim |
| `Wakeup.DueRowsAreClaimable` | app/ledger/runtime.py:472-528 | a tick serves exactly the unclaimed scheduled rows a claim finds due |
| `Wakeup.ScheduleMovesLaterExactly` | app/ledger/triggers.py:291-353 | of all statements under any interleaving a schedule is moved later exactly by a winning claim, a debounced write that asks for or read a later time, and a periodic write that asks for a later time and had not read the earlier one |
| `Wakeup.ScheduleMovesEarlierExactly` | app/ledger/triggers.py:291-353 | and earlier exactly by a periodic write that asks for or read an earlier time, and a debounced one that asks for an earlier time and had not read the later one |
| `Wakeup.PeriodicNeverPostpones` | app/ledger/triggers.py:64-78 | over runs whose writes are periodic and had read the schedule they replace, what is due at a time stays due by then until it is claimed |
| `Wakeup.DebouncedNeverHastens` | app/ledger/triggers.py:39-61 | over runs whose writes are debounced and had read the schedule they replace, no schedule moves earlier |
| `Wakeup.NoClaimBeforeItsTime` | app/ledger/triggers.py:134-213 | over every interleaving a claim takes no schedule before its time |
| `Wakeup.DebounceHolds` | app/ledger/triggers.py:39-61 | until a periodic request or a claim intervenes, an accepted debounced request is not served before the time it asked for |
| `Wakeup.StepLosesExactly` | app/ledger/triggers.py:223-253 | of all statements of all callers under any interleaving, a wake-up is lost exactly by a clean release while nothing is scheduled by a holder that has not served all that is owed |
| `Wakeup.NoWakeupIsLostWithoutThatRelease` | app/ledger/triggers.py:134-353 | over every run without such a release, however long holders run, an accepted enqueue is served, scheduled or under a standing claim |
| `Wakeup.OrderlyHoldersLoseNothing` | app/ledger/triggers.py:223-253 | in particular if clean releases come only from the holder whose claim time the row records and claim times grow |
| `Wakeup.SlowHolderLosesWakeup` | app/ledger/triggers.py:152-253 | without the timeliness assumption there is a run after which an accepted wake-up is never served, whatever follows short of another enqueue |
| `ReplanQueue.AffectedEvents.RecordAffectedEvents` | app/ledger/triggers.py:106-128 | one new row per distinct event, under ids never used, earlier rows untouched |
| `ReplanQueue.AffectedEvents.ReadAffectedLedgerRows` | app/ledger/reconciler.py:709-732 | exactly the user's row ids, in increasing order |
| `ReplanQueue.AffectedEvents.ClearAffectedLedgerRows` | app/ledger/reconciler.py:735-749 | deleting in chunks removes exactly the rows read |
| `ReplanQueue.AffectedEvents.PlanAffected` | app/ledger/reconciler.py:307-318 | every event queued at the start is planned once, its rows go, and what others append meanwhile is still queued, even for an event just planned |
| `ReplanQueue.RowsLeaveOnlyAfterPlanning` | app/ledger/reconciler.py:709-749 | over every interleaving of appends, passes, chunks and crashes, a row leaves only after its event was planned in a step later than the recording, or with the event |
| `ReplanQueue.CrashedPassIsReread` | app/ledger/reconciler.py:307-318 | after a crash the next pass reads every remaining row again |
| `Planner.ResolveTargets` | app/ledger/planner.py:417-472 | the loop yields main and one goal per client, the origin's role going to exactly the client the event comes from or the feed is placed on |
| `Planner.PeersLearnNothingElse` | app/ledger/planner.py:277-472 | two rows that agree on source, placement, lifecycle, show-as, RSVP and timing give every peer the same state and the same body, whatever their titles, descriptions, attendees or links |
| `Planner.PeersLearnNothingFromTheLedger` | app/ledger/planner.py:127-472 | the same, and the same hash, with what other rows say computed from two whole ledgers that differ in nothing but such private text, of this event or any other |
| `Planner.OnlyTheOriginGetsMore` | app/ledger/planner.py:277-472 | only the origin client, or the client a webcal feed is placed on, gets more than a busy block |
| `Planner.InactiveIsAbsentEverywhere` | app/ledger/planner.py:277-330 | a deleted, cancelled, orphaned, empty or redundant event is absent on every target |
| `Planner.MainPlacementSkipsItsClient` | app/ledger/planner.py:417-472 | a feed placed on main whose subscription names an active client leaves that client with nothing |
| `Planner.PeersAreBlockedExactly` | app/ledger/planner.py:309-400 | a meeting of main, a client or a feed blocks exactly the clients it does not come from, and exactly if it is not free and not a declined meeting that frees its slot; what is rendered takes the time exactly then |
| `Planner.PersonalBlocksEverywhere` | app/ledger/planner.py:371-388 | a personal event blocks main and every client, whatever its show-as or response, unless it is all-day and those are suppressed |
| `Planner.MainShowsTheMeeting` | app/ledger/planner.py:309-414 | main gets a full copy exactly of client and feed events; a client's meeting takes the time on main exactly if it does on the other clients |
| `Planner.OriginIsServedExactly` | app/ledger/planner.py:352-414 | the client an event comes from is patched exactly if there is a response or an edit right; the client a feed names gets the full copy exactly if the feed is placed on clients |
| `Planner.EveryCalendarHasAGoal` | app/ledger/planner.py:417-472 | main and exactly the active clients have a goal, one each |
| `Planner.NewProjectionIsInitial` | app/ledger/planner.py:512-541 | a projection the planner opens is one the transition system starts from, is visited by the diff, and is created if something is wanted |
| `Planner.FailureLastsUntilTheWishChanges` | app/ledger/planner.py:543-577 | a plan that changes the wish brings a failed projection back to the diff, one that does not leaves it failed |
| `Planner.PlanIsAFixedPoint` | app/ledger/planner.py:51-124 | planning an unchanged event a second time changes no projection |
| `Planner.ConvergedIsUntouched` | app/ledger/planner.py:543-577 | a projection that already wants the plan is untouched unless it is the armed origin, and if converged the diff does not see it |
| `Planner.ArmedOriginIsVisited` | app/ledger/planner.py:543-577 | the armed origin is diverged after the plan whenever the version moved on |
| `Planner.OutsideIsAbsent` | app/ledger/planner.py:580-624 | a target outside the resolved set is wanted absent and not stuck |
| `Planner.PlanStore.UpsertProjection` | app/ledger/planner.py:478-577 | inserts, leaves alone or rewrites exactly one projection, to what `ReadBack` shows the body to say |
| `Planner.PlanStore.MarkImplicitAbsent` | app/ledger/planner.py:580-624 | exactly the projections outside the kept targets are marked |
| `Planner.PlanStore.PlanSelf` | app/ledger/planner.py:51-116 | upserting target by target and marking the rest gives the specified plan, the one `MainMeetingBlocksExactly` and `PeersAreBlockedExactly` are about; other events are untouched, an unknown source type writes nothing |
| `Planner.PlanStore.PlanForLedgerEvent` | app/ledger/planner.py:51-124 | exactly the event and, if it is a series master, the events whose parent it is are planned, all others untouched; a released event's projections do not change |
| `Planner.PlanStore.PlanningAgainChangesNothing` | app/ledger/planner.py:51-124 | the plan of an event is a fixed point |
| `Planner.PlanStore.MainMeetingBlocksExactly` | app/ledger/planner.py:127-330 | computed from the whole ledger: a meeting of main blocks a client if and only if it occupies the user, neither it nor its series is cancelled or deleted, some occurrence is left, and no other source holds the same meeting as active |
| `Planner.PlanStore.CancelledSeriesIsGone` | app/ledger/planner.py:158-175 | once a series is cancelled or deleted the plan of each of its modified instances wants nothing anywhere |
| `Renderer.LockedSourceGetsOnlyTheRsvp` | app/ledger/payload.py:268-308 | a source that cannot be edited is sent nothing but the guest list with the user's own response changed |
| `Renderer.RsvpKeepsOtherGuests` | app/ledger/payload.py:311-339 | every other guest is kept in place and the user's response is always there |
| `Renderer.BusyBlockShowsNothingElse` | app/ledger/payload.py:233-265 | a busy block carries its fixed title, the time, the tag and its stamp and nothing else; it is private and opaque |
| `Renderer.CopiesAreStamped` | app/ledger/payload.py:97-127 | every copy is stamped with the kind of its calendar, what is written to the user's own event never is |
| `Renderer.LockShowsWhoMayEdit` | app/ledger/payload.py:152-166 | the lock is in front of the title exactly if the user may not edit the original |
| `Renderer.FullCopyTakesTime` | app/ledger/payload.py:183-199 | a full copy is transparent exactly if the event is free or a declined one that frees its slot |
| `ReadBack.TimeIsReadBack` | app/ledger/payload.py:580-599 | whatever kind of copy it is, the reader of main ingest gets back the event's start, end, all-day flag and zones (UTC for none), and the recurrence rule, which a writeback never carries |
| `ReadBack.BlocksAgreeExactly` | app/ledger/payload.py:233-265 | two busy blocks are equal if and only if the events are at the same time, up to a missing zone, and repeat alike |
| `ReadBack.RescheduleIsVisited` | app/ledger/planner.py:543-577 | an event that is moved, prolonged or repeated otherwise is diverged after the plan on every calendar that shows when it is |
| `ReadBack.DetailsAreReadBack` | app/ledger/payload.py:145-230 | place, colour, call and response read back from a full copy are the event's own, the colour of its calendar first, the response on main only |
| `ReadBack.WritebackCarriesTheLedger` | app/ledger/payload.py:268-308 | an editable client event is written back with exactly the ledger's title, description, place and time, a missing field as a null, and with guests exactly if there is a response |
| `ReadBack.TitleIsReadBack` | app/ledger/payload.py:152-167 | the stripped title of a copy, locked or not, is the event's title if and only if that has no decoration of its own |
| `ReadBack.FeedTitleIsReadBack` | app/ledger/payload.py:152-167 | stripping the feed's prefix and the lock leaves what stripping leaves of the event's own title |
| `ReadBack.UntouchedCopyIsNoEdit` | app/ledger/ingest/main.py:719-749 | no echo: our own copy of a titled client meeting, read back untouched, counts as unedited if and only if its title has no decoration of ours, its description ends in no white space, and the description is recoverable |
| `ReadBack.UntitledCopyLooksEdited` | app/ledger/ingest/main.py:742-749 | the copy of an untitled meeting always counts as edited |
| `Payload.MetadataOpensWithMarker` | app/ledger/payload.py:449-485 | the metadata is empty or opens with a marker, whatever the labels contain |
| `Payload.TagRoundTrip` | app/ledger/payload.py:553-577 | stripping the tag from a tagged description returns it right-trimmed, None if empty |
| `Payload.FooterRoundTrip` | app/ledger/payload.py:488-520 | stripping a rendered full copy returns the right-trimmed original if and only if the original is recoverable: it does not open with a marker, has no footer of its own, and the metadata has no delimiter |
| `Payload.FullCopyRoundTrip` | app/ledger/payload.py:449-520 | the same for the metadata the renderer composes |
| `Payload.DescriptionReadsBack` | app/ledger/ingest/main.py:742-746 | compared as ingest compares, the description of our own copy reads back as the original if and only if it ends in no white space and is recoverable |
| `Payload.MetadataNamesItsSource` | app/ledger/payload.py:449-485 | the metadata holds the guest list and names source, placement and original event, each behind its own label, labels cut to eighty characters |
| `Payload.CopyDescriptionShowsBoth` | app/ledger/payload.py:488-497 | a copy's description opens with the event's own and holds the metadata |
| `Payload.TagComesLast` | app/ledger/payload.py:553-560 | the tag is last, on its own line, behind the right-trimmed text |
| `Payload.StripCopySummaryPrefixes` | app/ledger/payload.py:523-550 | the loop terminates and computes the title with neither decoration left in front |
| `Payload.UndecoratedIsIdempotent` | app/ledger/payload.py:523-550 | stripping again changes nothing |
| `Payload.LockIsUndone` | app/ledger/payload.py:523-550 | stripping undoes the lock prefix if and only if the title has no decoration of its own |
| `GoogleIds.IdsAreInjective` | app/ledger/identity.py:139-183 | different eight-byte seeds get different ids (base32hex, section 7 of RFC 4648) |
| `GoogleIds.FirstGenerationIsInjective` | app/ledger/identity.py:168-183 | generation-0 ids are injective in the projection id |
| `GoogleIds.DerivedIdsAreRecognised` | app/ledger/identity.py:306-323 | every derived id is recognised as managed, and an id is derived iff the arguments are in range |
| `GoogleIds.RecognisedIdsExactly` | app/ledger/identity.py:306-323 | an id the recogniser accepts belongs to some seed if and only if its last character stands for an even digit |
| `GoogleIds.DistinctGenerationsGetDistinctIds` | app/ledger/identity.py:139-183 | while the hashed seeds in use do not collide, no two generations of any projections share an id |
| `RateLimits.WindowBound` | app/ledger/async_google.py:54-68 | a paced history has at most size + rate * T grants in any window of length T |
| `RateLimits.AsyncRateLimiter.constructor` | app/ledger/async_google.py:47-52 | a full bucket; a negative rate counts as zero, the default capacity is the rate but at least one |
| `RateLimits.AsyncRateLimiter.Acquire` | app/ledger/async_google.py:54-68 | with a positive rate exactly one grant, at once or after the sleep, and the bucket it leaves; with rate zero nothing |
| `RateLimits.AsyncRateLimiter.AnyWindow` | app/ledger/async_google.py:54-68 | after any history of calls, any window of length T holds at most capacity + rate * T grants (counting a capacity below one as one), and the bucket stays within its capacity |
| `RateLimits.AsyncRateLimiter.EarnedTokenIsThere` | app/ledger/async_google.py:54-68 | a call is let through at once if and only if the missing part of its token was earned since the last one and the bucket can hold a whole token |
| `RateLimits.RateLimiter.Try` | app/sync/google_calendar.py:77-95 | a grant iff no backoff runs and a whole token is there; otherwise how long to wait, and the bucket left |
| `RateLimits.RateLimiter.Backoff` | app/sync/google_calendar.py:96-101 | the backoff ends at the later of its old end and the requested one; the bucket is untouched |
| `RateLimits.RateLimiter.Acquire` | app/sync/google_calendar.py:77-95 | with nobody else about the loop ends within three looks, with one grant outside the backoff |
| `RateLimits.RateLimiter.AnyWindow` | app/sync/google_calendar.py:77-101 | after any history of looks and backoffs, any window of length T holds at most burst + rate * T grants, the bucket stays within its burst, and no grant given after a backoff request falls inside it |
| `RateLimits.RateLimiter.EarnedTokenIsThere` | app/sync/google_calendar.py:77-95 | outside a backoff a look is granted if and only if the missing part of a token was earned since the last look |
| `Ics.EscapeRoundTrip` | app/sync/ics_export.py:33-42 | reading an escaped text back gives the text with line breaks normalised, and the escaped text is a text value without raw CR, LF or delimiter (section 3.3.11 of RFC 5545) |
| `Ics.EscapeForgetsOnlyLineBreaks` | app/sync/ics_export.py:33-42 | two texts are written alike if and only if they differ in nothing but how line breaks are written |
| `Ics.FoldLine` | app/sync/ics_export.py:61-76 | the loop computes the folding the lemmas below are about |
| `Ics.FoldRoundTrip` | app/sync/ics_export.py:61-76 | unfolding a folded line without CR or LF gives it back, and no physical line exceeds 75 octets of UTF-8 (section 3.1) |
| `Ics.WidthOfEncoding` | app/sync/ics_export.py:61-76 | a character counts for as many octets as its UTF-8 encoding, which can be read back (section 3 of RFC 3629) |
| `Ics.PropertyRoundTrip` | app/sync/ics_export.py:247-283 | a text property, escaped, folded, unfolded and read, is its name and the normalised text |
| `Ics.FoldsAreFewest` | app/sync/ics_export.py:61-76 | no way of folding at character boundaries into fitting lines uses fewer lines |
| `Ics.EntryNames.Unique` | app/sync/ics_export.py:476-490 | the loop terminates with the first free name in counting order, never used before, and records it |
| `Retention.NewestFirstDescends` | app/sync/backup.py:398 | the listing is in descending order of its time stamps |
| `Retention.ApplyRetention` | app/sync/backup.py:77-138 | the kept and deleted ids are, in order, exactly those the loop-free verdict keeps and drops; a backup that cannot be classified is kept, one of an unknown type neither kept nor deleted |
| `Retention.OneBackupPerDay` | app/sync/backup.py:77-138 | each of the latest 7, 2 or 6 days of a bucket keeps exactly one backup, the newest of that day; every other classifiable backup of the bucket is dropped |
| `Retention.KeptExactly` | app/sync/backup.py:77-138 | a classifiable backup is kept if and only if it is the newest of its day and at most six later days of daily backups exist, one of weekly, five of monthly ones |
| `Retention.UnclassifiableIsNotDeleted` | app/sync/backup.py:107-117 | a backup whose metadata is unreadable or has no time stamp is kept, one of an unknown type is left alone, one without a type counts as daily |
| `Retention.DaysAreCalendarDays` | app/sync/backup.py:100-118 | backups stamped with date and time fall on one day exactly if year, month and day agree, and days are ordered as in the calendar |
| `Retention.AgainDeletesNothing` | app/sync/backup.py:77-138 | applying the policy to what is left deletes nothing |

## Left out

- Instances of recurring series: instance event ids, deriving an instance from its parent's projection, and retiring tombstones of orphaned instances (app/ledger/diff.py:132-206, app/ledger/outbox.py:678-796) need Google's series semantics; managed projections are top-level ones, writeback projections may be instances.
- Ingest bodies: they are steps that arm a flag, null applied columns, refresh an etag or append to the replan queue.
- Discovery: its relink of an event at one of the projection's own ids is a step; its orphan deletes go through a projection of their own and appear as deletes from outside. An event with a foreign id that carries our property (a user's duplicate) is not modelled.
- Steps that drop ledger rows with their projections, and the reset of projections after a database restore (app/jobs/cleanup.py:274-315, app/sync/backup.py:719-812), are not modelled.
- Handlers.DoUpdate: the branch of a 400 that retires the tombstone of an orphaned instance (app/ledger/outbox.py:648-667) is left out with the instances; for a top-level copy the 400 is raised as a denied error.
- Reconcile.DiffAndEnqueueForUser: the derivation of instance ids and the order that puts parents first are left out with the instances; the order in which projections are visited is arbitrary.
- Admin operations (app/ledger/admin_ops.py:109-226 and 430-487) are steps of the transition system on values; their loops over rows, their commits one by one and their appends to the replan queue are not carried out on the tables.
- The pause switches, the set of mapped calendars and which reconcile raises are parameters; maintenance mode is not modelled.
- Rendering of the attendee block (app/ledger/payload.py:384-437) is a given string that opens with its marker; recurrence expansion is a parameter of the planner.
- Settings (tag, busy titles, whether a declined event frees its slot, all-day personal events) are parameters.
- Error texts and http statuses stored by retries and failures are fixed values; log lines, dashboard counters and alerts are not modelled.
- HTTP, OAuth, sessions, encryption, e-mail, UI, webhooks, backup files and restore: plumbing around the modelled logic.
- Removing the files retention selects, and the parsing of backup metadata, are not modelled; a backup is what the listing says of it.
- Time stamps of the calendar file, conference blocks and parameter quoting are not modelled.
- Competing callers of the thread-safe limiter can starve one another, so its termination is for one caller; the bounds hold for any interleaving.
- Planner.PeersLearnNothingElse: what other ledger rows say is the same context for both rows here; Planner.PeersLearnNothingFromTheLedger computes it, except for the expansion of a recurrence rule, which is a parameter.
- ReadBack.UntouchedCopyIsNoEdit: times are compared as texts, where the original compares instants; the copy of a whole series or single event is compared with the body last rendered (app/ledger/ingest/main.py:935-972), which this model does not repeat.
- FixedPoint.DiffDrainUntilQuiescent: convergence is stated for totals below the limit of 1000 operations per drain; above it the loop may stop with operations due, and the next reconcile continues.
- Wakeup.DrainAllDueUsers: stated with nobody else about; interleavings are covered by the transition system of the same module, task cancellation is not modelled.
- Guarantees.NoSilentMasking: stated for runs without a permanent failure, a lost replan, a masking relink or a diff with an unmapped calendar; the exact condition on the state itself is Guarantees.MaskedExactlyIfSuspicious.
