# Protocols of the Cowork server, modelled and proved

This project models the parts of the Cowork server whose correctness depends on
interleavings, crashes and retries, and proves what they promise for every
input, every order of steps and every reachable state. `dafny verify
dfyconfig.toml` checks it as a whole.

Each protocol is a state machine on values (`Enabled`, `Step`, `Possible`,
`After`): a step is one section the code executes without interruption, a run is
any sequence of enabled steps, and the theorems are about all runs. Beside each
state machine stands the imperative form, a class whose methods update fields in
loops and are proved to do exactly what the step or the specification function says.
What a step makes of a record is stated apart from it, on the record's own fields, in
`ControlEffects`, `ControlAuthority`, `SchedulerEffects`, `ApprovalAnswers` and `IngressProgress`.

| modules | part of the server |
|---|---|
| `RunState`, `ControlModel`, `ControlHistory`, `ControlFencing`, `ControlEvents`, `ControlCommands`, `ControlGrants`, `ControlAuthority`, `ControlEffects`, `ControlService` | the coding control plane: leases with epochs, runtime events, commands, connector grants |
| `UndoJournal`, `JournalCommit`, `JournalStore` | the two multi-document transactions: create several control records, update several projects |
| `ParentIndex` | the parent index of the local control store, and cascading deletion |
| `Occurrences`, `ScheduleTiming`, `Scheduler`, `SchedulerSafety`, `SchedulerConservation`, `SchedulerReruns`, `SchedulerRuns`, `SchedulerEffects`, `SchedulerDatabase` | the scheduler: recurrence arithmetic, slots claimed and consumed by replicas |
| `FileTree`, `LocalCopy`, `Handoff`, `Rollback`, `HandoffLimits`, `LocalCopyManager` | handing a task's local copy back to its source folder, and rolling it back |
| `Ingress`, `IngressSafety`, `IngressOverlap`, `IngressProgress`, `IngressManager` | the Redis lease that keeps streaming ingress on one replica |
| `Approvals`, `ApprovalSafety`, `ApprovalAnswers`, `ApprovalBroker` | the approval broker between an engine's thread and the user |
| `KeyedLocks` | per-key asynchronous locks with reference counts |
| `TaskScope` | the project snapshot a task is frozen with |
| `TurnOrdinals`, `TextSplit` | bounded turn numbering, and splitting a message for a length limit |

## What is assumed

- Identifiers the server makes up (leases, runs, commands, grants, threads) are fresh; digests are compared as values.
- Control plane: every operation inside one store update is one step. An acknowledgement reads and saves in two steps under the service's lock, and a revocation lists and saves without it; operations that do not take the lock come in between. Expiry of all leases, and acquisition after it, are one step each, although the code makes one store update per run there. Retention runs while the service starts, before it takes requests. `effectsLand` says whether the follow-up work of an accepted event succeeded.
- Journals: writing a temporary file can be torn; renaming and unlinking are atomic. A crash may come between any two file operations, inside recovery as well. One store instance at a time uses a directory: its lock is its own, and a second instance opened in the middle of a transaction would undo it.
- Scheduler: each database unit is atomic, and a poll settles missed slots and looks for due ones at one instant. Each slot a poll finds due is handed to one run, which tries its claim once. A run whose lease lapsed between its link and the end of its turn is dead, and so is a run that a booting server reaps. Zones are arbitrary offset functions.
- Ingress: a renewal that keeps a task running finishes within the lease it extends; cancelling an asyncio task takes effect at once; start and stop of one key follow one another in a replica. A replica that crashed is gone; a server that boots has a new owner id.
- Handoff: two files are the same if mode and content are; a path below a link counts as leading out of the folder.

## Where the code falls short of what it says

Each of these has a theorem with the exact condition, and a counterexample that is itself proved.

- Scheduler (README.md:393 promises one turn per slot). A slot's turn can start twice in six cases, and only in those: `SecondTurnNeedsACause`. Each of the six happens in a run of the system in which polls announce the slot twice: `EachCauseRunsTwice`. A free slot runs again, with no edit of its schedule, if and only if a run still has an announcement of it in hand, or the schedule stands at it, the next occurrence has not come (for a one-off, the catch-up time has not passed), and no success keeps polls from announcing it until then: `FreeSlotRunsExactlyWhen`, `GivenBackSlotRunsAgainExactlyWhen`. A slot the freshness guard skipped can still run for an earlier poll: `SkippedSlotRuns`.
- Scheduler, slots without a turn. Recording an outcome moves a schedule past every occurrence due by then, not only the one that ran, and does not count the others as missed: `RecordingDrops`, `DroppedSlotIsNeverClaimed`, `LateOutcomeDropsASlot`. A slot that was used once blocks its schedule if and only if a one-off used it or the schedule's time is edited back to it: `BlockedExactlyWhen`.
- Journals. If a recovery fails while the process goes on, the journal stays, and the next transaction is not atomic any more. It is atomic exactly when there is nothing left to undo: `AtomicIffNothingToUndo`. A later transaction that completes leaves the first documents of the failed one without the others for good: `LeftoverJournalTearsACommit`.
- Handoff. After a passed preflight, a handoff delivers the changed paths and keeps everything else if and only if no kept entry is above or below a changed path and every temporary name is free for its file: nothing is installed at or below it before the file, and what the source has there is a changed path that is removed, or a file that is installed anew later (`HandoffIsExactlyWhen`). Below a changed path it deletes what the source gained, and nested repositories even in an untouched source: `SourceOnlyFileIsDeleted`, `NestedRepositoryIsDeleted`. A file with a temporary name is used up (`TempNameClashLosesAFile`), and so is one the task itself adds, if it is installed first (`TempNameClashLosesAPath`, `BothNamesAdded`). A rollback takes away whatever is below a changed path, and can leave one temporary file behind: `RollbackRestores`, `RollbackKeepsATemporaryFile`.
- Ingress. A replica that starts again while a renewal loop of its earlier task is still renewing, or about to release, can lose its lease and be joined by a second replica: `TwoReplicasCanRun`. At most one replica runs if every task begins under its own lease with no such loop, or, where the lease in force belongs to a replica that is gone, while no other replica runs (`OneReplicaRuns`); and from every reachable beginning other than these a second one can come in (`UnsafeBeginLetsASecondIn`).
- Leases. An acknowledgement checks its lease when it reads the command, and saves it whatever has become of the lease since: `LostLeaseIsFenced`, `AckIsSaved`, `LateAckIsReached`.
- Commands. A command deleted with its task while an acknowledgement of it is under way is written again, and stays until retention takes it: `ReturnsExactlyWhen`, `DeletedCommandComesBack`, `OrphanStays`.
- Approvals. A wait that times out while a resolver's callback is running is answered with accept although nothing is recorded, and the callback may still fail: `TimeoutAcceptsUnrecordedWhen`, `TimeoutRaceAccepts`.
- Connector grants. Writing back a revocation rewinds the use count (`RevocationRewindsTheCount`); the budget survives it (`BudgetNeverExceeded`).

## Model

| member | source | states |
|---|---|---|
| ControlFencing.FencedForever | cowork/coding/control_service.py:1024-1037 | once a lease is dead or an epoch past, then after any further operations no event, command claim or acknowledgement carrying it changes any record, except the one save of an acknowledgement that was under way at the start |
| ControlFencing.LostLeaseIsFenced | cowork/coding/control_service.py:732-911 | whatever made a run lose its lease, after any further operations what carries the lease changes a record if and only if it is the save of an acknowledgement under way at the loss and not saved since |
| ControlFencing.StaleChangesNothing | cowork/coding/control_service.py:712-762 | an event, claim or acknowledgement begun under a dead lease or past epoch leaves the whole plane as it was; the save of one begun before writes that command and nothing else |
| ControlFencing.EpochNeverDecreases | cowork/coding/control_store.py:281-304 | over any operations a run's epoch never goes down, and a deleted run's id never returns |
| ControlFencing.TakenLeaseEndsEpoch | cowork/coding/control_service.py:878-911 | taking a lease away by expiry, acquisition or recovery ends the epoch for good, so that not even a redelivered event is acknowledged |
| ControlFencing.ReassignNeverMovesALeasedRun | cowork/coding/control_service.py:828-867 | a run that reassignment moves holds no lease, in every reachable state |
| ControlFencing.StepFollowsChanges | cowork/coding/run_state.py:59-75 | every operation changes every run only by a recorded list of legal changes |
| ControlEvents.ExactlyOnceInOrder | cowork/coding/control_service.py:588-644 | under duplicates, reordering, lost acknowledgements and lease expiry, each run is the fold of its accepted events, which strictly increase in epoch and sequence number |
| ControlEvents.AcceptedNeverAgain | cowork/coding/control_service.py:588-628 | an accepted event, and any not later in its epoch, changes nothing when delivered again after any operations |
| ControlEvents.RedeliveryIsAcknowledged | cowork/coding/control_service.py:608-616 | a redelivery is acknowledged if and only if its execution is still current and it is still the last accepted event |
| ControlEvents.TerminalEventIsAcknowledged | cowork/coding/control_service.py:588-644 | every accepted event is acknowledged when redelivered at once, also if it ended the run; a new event ends its own lease if and only if it moved the run to a terminal status |
| ControlEvents.StartIsFaithful | cowork/coding/control_service.py:83-99 | an empty plane satisfies the invariants the run theorems start from |
| ControlCommands.StartIsDelivered | cowork/coding/control_service.py:83-99 | an empty plane satisfies the invariant of the command theorems |
| ControlGrants.StartIsBudgeted | cowork/coding/control_service.py:83-99 | an empty plane satisfies the invariant of the grant theorems |
| ControlCommands.OneDeliveryAtATime | cowork/coding/control_service.py:646-762 | in every interleaving there is one command per run, epoch and non-empty key, claim windows of a command never overlap, and an acknowledgement under way is of the run's current execution as long as the run exists |
| ControlCommands.FirstAcknowledgementStands | cowork/coding/control_service.py:732-762 | an acknowledged command keeps its first result and error and is never claimed again |
| ControlCommands.RemovedStaysRemoved | cowork/coding/control_store.py:238-279 | a command that is gone while no acknowledgement of it is under way never comes back and gets no further claim window |
| ControlCommands.ReturnsExactlyWhen | cowork/coding/control_service.py:732-788 | a removed command is stored again by a step if and only if the step saves an acknowledgement that had read it |
| ControlCommands.PrunedStaysRemoved | cowork/coding/control_store.py:256-279 | a command that retention removed never comes back |
| ControlCommands.DeletedUnderAck | cowork/coding/control_service.py:784-788 | while an acknowledgement is under way its task can be deleted, which removes the command and leaves the acknowledgement to be saved |
| ControlCommands.DeletedCommandComesBack | cowork/coding/control_service.py:732-788 | a command deleted while its acknowledgement is under way is back once the acknowledgement is saved, whatever happens in between, though its run is gone |
| ControlCommands.AcknowledgementIsReached | cowork/coding/control_service.py:732-762 | there is a run of the system with an acknowledgement under way whose task can still be deleted |
| ControlCommands.AckIsSaved | cowork/coding/control_service.py:744-762 | an acknowledgement under way is saved by the next save, whatever happens to its run and lease in between |
| ControlCommands.LateAckIsReached | cowork/coding/control_service.py:440-762 | there is a run of the system in which a cancellation ends the lease between the two halves of an acknowledgement, which still writes its command |
| ControlCommands.OrphanStays | cowork/coding/control_store.py:238-279 | a stored command whose run is deleted stays as it is, whatever is deleted or acknowledged, until retention takes it |
| ControlGrants.BudgetNeverExceeded | cowork/coding/connector_delegation.py:65-127 | however uses and revocations interleave, a grant is used at most as often as it was issued for |
| ControlGrants.RevokedNeverAuthorizes | cowork/coding/connector_delegation.py:129-153 | a revoked grant, or one of a past epoch, never authorizes again |
| ControlGrants.RevocationRewindsTheCount | cowork/coding/connector_delegation.py:112-127 | a use between a revocation's listing and its write is forgotten by the stored count |
| ControlAuthority.AuthorizesExactlyWhen | cowork/coding/connector_delegation.py:27-176 | after a grant is issued and any operations, a use is authorized if and only if the grant is stored and unrevoked, was used less often than issued for, its time is not over, its run is in the issuing epoch and on the issuing computer and has not ended, the request comes from that computer if from one, with the issued token, for an issued action, and every constraint the action needs has its issued value |
| ControlAuthority.AuthorizesWhatItAdmits | cowork/coding/connector_delegation.py:129-176 | the same for the stored grant; reading a source needs `url`, a pull request status `target_url`, a search `repository`, where the grant names it, and otherwise every constraint |
| ControlAuthority.IssuedExactlyWhen | cowork/coding/connector_delegation.py:27-51 | a grant is issued exactly for a run that has not ended, unused, on its computer and epoch and for the time asked |
| ControlAuthority.BoundForGood | cowork/coding/connector_delegation.py:65-127 | whatever uses and revocations write back, the grant and every listed copy keep the terms it was issued on |
| ControlAuthority.UseIsCounted | cowork/coding/connector_delegation.py:78-85 | an admitted use counts one and is dated, and changes nothing else; a refused one changes nothing |
| ControlAuthority.ListedExactly | cowork/coding/connector_delegation.py:112-118 | a revocation lists exactly the unrevoked grants of its run, as they are |
| ControlAuthority.RevocationIsFinal | cowork/coding/connector_delegation.py:112-127 | once a revocation has saved a grant of its run, whatever came between and comes after, the grant is never used again |
| ControlEffects.SameTable | cowork/coding/run_state.py:7-56 | where a run can go by the transition table is where it can come from by its converse, for all pairs of statuses |
| ControlEffects.TransitionExactlyWhen | cowork/coding/run_state.py:59-75 | a status change succeeds if and only if the status is kept or may follow; it replaces the error, dates a first start, and an end is dated and gives up the lease |
| ControlEffects.EndedRunIsFinal | cowork/coding/run_state.py:7-75 | whatever happens, a completed or cancelled run stays exactly as it is until it is deleted |
| ControlEffects.EventAcceptedExactlyWhen | cowork/coding/control_service.py:588-628 | an event is accepted if and only if its protocol, run, computer and epoch are right and it is the last event again, or a later one under the lease in force, of a kind the status admits, whose side effects land; an unknown status or one that may not follow is refused, and a refused event changes nothing |
| ControlEffects.EventEffect | cowork/coding/control_service.py:608-644 | a new event renews the lease for thirty seconds and leaves its number and id; a checkpoint replaces only the checkpoint, a status event gives its status, the end of a turn makes the run ready and keeps its lease, an error fails the run with its message, and any other event does no more |
| ControlEffects.RedeliveryChangesNothing | cowork/coding/control_service.py:608-616 | an event that is not later than the last one changes nothing, accepted or not |
| ControlEffects.StatusSetExactlyWhen | cowork/coding/control_service.py:440-441 | setting a status makes exactly that change, or none if it may not follow |
| ControlEffects.ExpiryStartsOver | cowork/coding/control_service.py:878-911 | exactly the runs at work whose lease has run out start over: the next epoch, no lease, events or checkpoint, one recovery more, waiting for the same computer |
| ControlEffects.RecoveryStartsOver | cowork/coding/run_recovery.py:46-85 | a recovery starts the run over on the chosen computer exactly where its status admits one; it restores there, and elsewhere recreates |
| ControlEffects.NewRunWaits | cowork/coding/control_service.py:303-474 | a created run waits in its first epoch; one that continues another has its task, computer, recoveries and next epoch |
| ControlEffects.LeaseGrantedExactlyWhen | cowork/coding/control_service.py:573-586 | a computer that is registered and not revoked leases for thirty seconds exactly a run that waits for it, after the lapsed leases are gone, with none created before it that waits |
| ControlEffects.NoneOvertakes | cowork/coding/control_store.py:281-293 | in every run of the system, while a run waits for a computer no run of that computer created later comes to hold a lease |
| ControlEffects.RevokedExactlyWhen | cowork/coding/control_service.py:141-156 | a computer is revoked if and only if each of its runs has ended |
| ControlEffects.RevokedNeverLeases | cowork/coding/control_service.py:573-576 | after any operations a revoked computer is still refused every lease |
| ControlEffects.CommandQueuedExactlyWhen | cowork/coding/control_service.py:646-673 | a command is stored, undelivered and for the run's epoch, if and only if the run exists and no command of that epoch has its key |
| ControlEffects.ClaimTakesExactly | cowork/coding/control_service.py:712-730 | a claim under the lease in force takes for twenty seconds exactly the commands of the run and epoch that are neither acknowledged nor claimed still, and any other claim none |
| ControlEffects.AcknowledgedExactlyWhen | cowork/coding/control_service.py:732-762 | an undisturbed acknowledgement writes time, result and error if and only if it comes under the lease in force for an unacknowledged command of that run and epoch |
| ControlEffects.DeletedExactly | cowork/coding/control_store.py:238-254 | deleting a task removes exactly its runs and their commands and grants |
| ControlEffects.PrunedExactly | cowork/coding/control_store.py:256-269 | retention removes exactly the commands acknowledged, and the grants revoked or else expired, before the cutoff |
| ControlService.Service.Deliver | cowork/coding/control_service.py:588-628 | an event is accepted in place exactly when it is the last one again from its owner or a later one under the lease in force whose kind the run admits and whose side effects land; a new one does to its run what its kind does, any other nothing |
| ControlService.Service.ExpireLeases | cowork/coding/control_service.py:878-891 | the loop over runs expires exactly the lapsed leases |
| ControlService.Service.OldestClaimable | cowork/coding/control_store.py:281-293 | one pass finds an oldest claimable run of the computer, or that there is none |
| ControlService.Service.Acquire | cowork/coding/control_service.py:573-586 | expiry and claim in place are the model's acquisition |
| ControlService.Service.QueueCommand | cowork/coding/control_service.py:646-673 | a command is stored unless its key is taken in the run's epoch |
| ControlService.Service.ClaimCommands | cowork/coding/control_service.py:712-730 | the loop claims exactly the deliverable commands of the fenced run |
| ControlService.Service.Acknowledge | cowork/coding/control_service.py:732-762 | an acknowledgement nothing interrupts is its two steps: only the first one writes a result, and a failed one changes nothing |
| ControlService.Service.Authorize | cowork/coding/connector_delegation.py:65-110 | a use is counted and dated in place exactly when the stored grant admits it: unrevoked, uses and time left, its run in its epoch, on its computer and not ended, its token, an action of it, within its constraints |
| ControlService.Service.Refusal | cowork/coding/connector_delegation.py:129-176 | the checks pass exactly when the stored grant admits the use |
| ControlService.Service.RevokeForRun | cowork/coding/connector_delegation.py:112-127 | a revocation nothing interrupts is the listing step and then one saving step for each listed grant, after which exactly the run's unrevoked grants are revoked |
| ControlService.Service.SaveRevoked | cowork/coding/connector_delegation.py:112-127 | writing one listed copy back is the saving step of the state machine |
| UndoJournal.RecoveryIsRestartable | cowork/coding/project_store.py:151-167 | a recovery cut short anywhere can be done again, and one that completes reaches the documents of the journal's images |
| UndoJournal.NextRecoveryReaches | cowork/coding/control_store.py:452-477 | after any number of recoveries cut short, the next complete one reaches the same documents and removes the journal |
| UndoJournal.UndoAbsorbs | cowork/coding/project_store.py:151-167 | undoing an entry early changes nothing about undoing all of them |
| JournalCommit.BeforeCommit | cowork/coding/control_store.py:413-450 | at every step before the journal goes, the old documents can be recovered |
| JournalCommit.AfterCommit | cowork/coding/project_store.py:114-149 | at every step after the journal went, recovery keeps the new documents |
| JournalCommit.CommitIsAtomic | cowork/coding/control_store.py:413-477 | for a crash after any step and any crashes inside recovery, the documents end as all new or all old, and every other one unchanged |
| JournalCommit.AtomicIffNothingToUndo | cowork/coding/project_store.py:88-167 | a transaction is atomic for all crashes if and only if the disk it starts on has nothing to undo |
| JournalCommit.LeftoverJournalTearsACommit | cowork/coding/control_store.py:443-477 | from any transaction whose recovery fails at once, with any number of its documents installed, a later transaction that completes leaves just those documents for good, and a crash at its start takes them away again |
| JournalCommit.CompletedCommitIsFinal | cowork/coding/control_store.py:413-450 | a transaction that completes leaves no journal, and its documents are final, whatever journal it started on |
| JournalCommit.CleanupLeavesNoStage | cowork/coding/control_store.py:447-450 | however far a transaction got, its cleanup removes each of its stages and the unfinished journal, and nothing else |
| JournalCommit.RecoveryLeavesNoStage | cowork/coding/control_store.py:452-477 | a completed recovery leaves neither the journal nor a stage the journal names |
| JournalStore.Store.RecoverTransaction | cowork/coding/control_store.py:452-477 | the loop over the journal's entries performs the recovery's file operations in order, all of them or those before the one that was refused |
| JournalStore.Store.Commit | cowork/coding/control_store.py:413-450 | whichever file operations are refused, in the commit, its recovery or its cleanup: a committed transaction shows all its documents and no journal; any other leaves a disk that can still be undone, and is undone if its recovery completed; a failure is explained by a refusal, a document that is there, missing, or named twice |
| JournalStore.Store.CreateMany | cowork/coding/control_store.py:413-450 | once committed all documents are there and none was before; otherwise the old documents are there or can be recovered |
| JournalStore.Store.UpdateMany | cowork/coding/project_store.py:114-149 | once committed all projects are replaced and the catalogue has the same ids; otherwise it is as before or can be recovered |
| JournalStore.Store.Reopen | cowork/coding/project_store.py:38-44 | opening a store carries on with the recovery a crash left undone; if no operation is refused it is complete |
| ParentIndex.Store.ListForParent | cowork/coding/control_store.py:357-377 | the indexed listing is exactly the stored documents with that parent |
| ParentIndex.ChildrenExactly | cowork/coding/control_store.py:357-404 | a document is listed under the owner it names, and under nobody if it names the empty id |
| ParentIndex.Store.Save | cowork/coding/control_store.py:306-320 | a save, also one that moves a document to another parent, keeps the index right |
| ParentIndex.Store.Delete | cowork/coding/control_store.py:322-331 | a deletion keeps the index right |
| ParentIndex.Store.SaveMany | cowork/coding/control_store.py:413-450 | a multi-save is refused as a whole if one of its documents exists, and keeps the index right whether it is refused, succeeds or fails |
| ParentIndex.Store.DeleteTask | cowork/coding/control_store.py:238-254 | the cascade removes exactly the task, its runs and the records those runs own |
| ParentIndex.Store.constructor | cowork/coding/control_store.py:379-404 | the rebuilt index lists exactly the stored documents of each parent |
| Occurrences.FirstAfterIsNth | cowork/schedule_timing.py:65-100 | for any step that moves forward, the first occurrence after now is the one whose number is the count of those due |
| Occurrences.DueCounts | cowork/schedule_timing.py:83-100 | the count is of exactly the occurrences at or before now, and the fast-forward is the least one after it |
| ScheduleTiming.NextWorkdayIsLeast | cowork/schedule_timing.py:52-55 | the day the weekdays step moves to is the least later one from Monday to Friday |
| ScheduleTiming.FindWorkday | cowork/schedule_timing.py:52-55 | the day-by-day search ends at that day |
| ScheduleTiming.StepsForwardExactlyWhen | cowork/schedule_timing.py:39-62 | a calendar step is later if and only if the zone's offset grows by less than the days it spans |
| ScheduleTiming.WallClockKeptExactlyWhen | cowork/schedule_timing.py:61-62 | wall-clock time is kept if and only if the reading aimed for is the one in force |
| ScheduleTiming.NextOccurrence | cowork/schedule_timing.py:39-62 | the next occurrence is an hour later, or aims at the same time of day on the next date, on the date a week later, or on the first later date that is neither Saturday nor Sunday; and where the reading aimed for is in force its local date and time are these |
| ScheduleTiming.WeekdaysInTurn | cowork/schedule_timing.py:52-55 | 5 January 1970 is a Monday, the days of the week follow each other in turn, and 5 and 6 are the weekend |
| ScheduleTiming.NextFutureIsOccurrence | cowork/schedule_timing.py:65-80 | the fast-forward lands on the occurrence whose number is the missed count, after now |
| ScheduleTiming.MissedCountsOverdue | cowork/schedule_timing.py:83-100 | the missed count is of exactly the overdue occurrences |
| ScheduleTiming.HourlyMissed | cowork/schedule_timing.py:45-46 | overdue hourly slots have the closed form of whole hours plus one |
| ScheduleTiming.FixedOffsetMissed | cowork/schedule_timing.py:39-62 | daily and weekly slots have the closed form in a zone with one offset |
| ScheduleTiming.NextFutureOccurrence | cowork/schedule_timing.py:65-80 | the loop ends at the first occurrence after now |
| ScheduleTiming.CountMissedOccurrences | cowork/schedule_timing.py:83-100 | the loop counts exactly the overdue occurrences and ends at the same occurrence as the other loop |
| SchedulerSafety.SecondTurnNeedsACause | cowork/scheduler.py:449-653 | for any replicas and any interleaving, two turns for one slot mean the earlier run gave the slot back for one of six named causes |
| SchedulerSafety.ConsumedSlotStaysConsumed | cowork/scheduler.py:358-415 | once a finished run keeps its slot, no turn for that slot starts again |
| SchedulerSafety.SafeAlways | cowork/services/schedules.py:177-207 | at most one row names a slot, and every run's row and process agree, in every reachable state |
| SchedulerConservation.SlotIsConserved | cowork/scheduler.py:112-193 | a schedule's slot moves only through a recorded outcome, a consuming error, the reap of a linked run holding it, a freshness skip, a fast-forward or an edit |
| SchedulerConservation.ScheduleStep | cowork/scheduler.py:112-126 | one step moves a slot only if it was due, past now, and never back |
| SchedulerConservation.FinishedRunIsBehind | cowork/scheduler.py:686-723 | without edits, only a running row names the current slot of a recurring schedule, in every run of the system |
| SchedulerConservation.RecordingDrops | cowork/scheduler.py:112-126 | a recorded outcome or consuming error moves past exactly the occurrences due by then, to the first one after them, without a row or a missed count for the others |
| SchedulerConservation.DroppedSlotIsNeverClaimed | cowork/scheduler.py:686-723 | a slot that its schedule moved past before any poll found it is never claimed, over any operations but edits |
| SchedulerConservation.BlockedExactlyWhen | cowork/services/schedules.py:177-207 | a used slot comes to block its schedule if and only if the schedule is edited to it or a one-off uses it |
| SchedulerConservation.BlockedIsNotClaimed | cowork/services/schedules.py:177-207 | a blocked slot cannot be claimed |
| SchedulerConservation.UnlinkedCrashLeavesSlotDue | cowork/services/schedules.py:421-454 | from its claim on, for any operations in which the run is not linked and nothing moves the schedule, after the reap the slot is free and due; a poll finds it if and only if the schedule is enabled and idle, and then, unless it ran recently, announces it so that a new run can claim it |
| SchedulerConservation.LinkedCrashConsumesSlot | cowork/scheduler.py:738-759 | a run that died after linking keeps its slot, and its schedule moves past it |
| SchedulerRuns.EachCauseRunsTwice | cowork/scheduler.py:449-653 | for each of the six causes there is a run of the system, without edits and with one claim for each announcement, in which a slot's turn starts twice |
| SchedulerReruns.GivenBackSlotRunsAgainExactlyWhen | cowork/services/schedules.py:343-378 | in every reachable state a slot that a run gave back, for whatever cause, if it is free, runs again in some later run without edits if and only if it is announced and unclaimed, or its schedule can still announce it |
| SchedulerReruns.SettledExactlyUntil | cowork/scheduler.py:150-193 | a poll leaves a due slot to be announced, instead of counting it as missed, exactly until the next occurrence, or for a one-off until the catch-up time has passed |
| SchedulerReruns.ReachableSlotRuns | cowork/scheduler.py:762-796 | from every safe state in which the condition holds there is a run without edits in which the slot's turn starts |
| SchedulerReruns.SpentForever | cowork/scheduler.py:762-796 | a free slot that cannot run by that condition stays free and never runs, over any operations but edits |
| SchedulerReruns.FreeSlotRunsExactlyWhen | cowork/scheduler.py:686-796 | the same for every free slot that was due: an announcement in hand, or the schedule at the slot, its last chance to be announced not passed and no success that hides it until then |
| SchedulerRuns.SkippedSlotIsStillClaimable | cowork/scheduler.py:678-723 | a slot the freshness guard skipped can still be claimed by a poll that had found it due |
| SchedulerRuns.LateOutcomeDropsASlot | cowork/scheduler.py:383-387 | there is a run of the system in which an outcome after an hour moves past the next hourly slot, which nobody claims or counts |
| SchedulerRuns.SkippedSlotRuns | cowork/scheduler.py:678-723 | there is a run of the system in which a poll skips a slot and the turn of that slot starts afterwards |
| SchedulerEffects.HandleMissedSettles | cowork/scheduler.py:150-193 | settling an enabled recurring schedule two or more of whose occurrences have come counts exactly these as missed and moves to the first one after now; an enabled one-off overdue by more than an hour counts once and is disabled; every other schedule stays as it is |
| SchedulerEffects.MissedCountMoves | cowork/scheduler.py:129-193 | a missed count falls only to zero, by a success of its schedule, and grows only by settling it while it is enabled and overdue |
| SchedulerEffects.DueIsPolledExactlyWhen | cowork/scheduler.py:678-723 | a poll announces a due slot unless a run of the schedule succeeded within half an hour, if it is hourly, or an hour; then the slot is consumed |
| SchedulerEffects.OutcomeEffect | cowork/scheduler.py:358-400 | a turn's end clears the missed count if it succeeded, consumes the slot unless the run was manual, and keeps the row's slot unless the process is cut |
| SchedulerEffects.ErrorEffect | cowork/scheduler.py:403-415 | an error consumes the slot if and only if it is written, not transient, of a cron run and the schedule still enabled; otherwise the slot is given back, with its cause |
| SchedulerEffects.FinishCloses | cowork/services/schedules.py:343-378 | the last write dates the row, ends its lease, gives it its status, and keeps the slot exactly if there is no cause to give it back |
| SchedulerEffects.ReapCloses | cowork/scheduler.py:738-759 | a reaped row fails and keeps its slot exactly if it has a conversation; it consumes the slot exactly if the schedule stands at it and the run was not manual |
| SchedulerEffects.BootReapCloses | cowork/services/schedules.py:380-419 | a booting server fails a running row and frees its slot, conversation or not |
| SchedulerEffects.RunIsLeased | cowork/services/schedules.py:177-226 | a claimed or manual run starts as a running row leased for two minutes, and a renewal leases it for two more |
| SchedulerEffects.RenewedIsNotReaped | cowork/services/schedules.py:217-454 | for two minutes from its claim, start or renewal a run is not reaped, whatever happens |
| SchedulerEffects.ConversationForgotten | cowork/services/schedules.py:111-140 | deleting a conversation takes it off exactly the rows that name it |
| SchedulerDatabase.Database.CreateRun | cowork/services/schedules.py:177-207 | inserting a row is the claiming step, and succeeds if and only if the state machine allows it; refused or not, the announcement is spent |
| SchedulerDatabase.Database.LinkConversation | cowork/scheduler.py:307-341 | attaching the conversation in place is the linking step, and reports whether the run still held its claim |
| SchedulerDatabase.Database.RecordTurnOutcome | cowork/scheduler.py:358-400 | recording an outcome in place is the step of the state machine, and leaves a recurring schedule past now |
| SchedulerDatabase.Database.RecordScheduleError | cowork/scheduler.py:403-415 | recording an error in place is the step of the state machine, and reports whether the run goes on to keep its slot |
| SchedulerDatabase.Database.FinishRun | cowork/services/schedules.py:343-378 | finishing the row in place is the step of the state machine |
| SchedulerDatabase.Database.ReapLapsedRuns | cowork/scheduler.py:738-759 | the loop is a run of reaping steps over exactly the lapsed rows, and moves on exactly the schedules still at a slot a reaped row keeps |
| SchedulerDatabase.Database.HandleMissedRuns | cowork/scheduler.py:150-193 | the loop is a run of settling steps after which every enabled recurring schedule with two or more occurrences due has counted exactly these and stands at the next one, every one-off overdue by more than an hour is counted and disabled, and every other schedule is as before |
| SchedulerDatabase.Database.DueSchedules | cowork/scheduler.py:686-723 | the loop is a run of checking steps that announces exactly the due slots without a running or recent run, and skips exactly the recent ones |
| FileTree.RemoveOneExact | cowork/coding/local_copy.py:226-231 | removal takes away exactly the path and what is below it |
| FileTree.InstallOneExact | cowork/coding/local_copy.py:233-245 | an installation that nothing is in the way of succeeds, puts the entry there and changes no leaf elsewhere but its temporary file |
| FileTree.InstallSettles | cowork/coding/local_copy.py:233-245 | any installation that succeeds uses the temporary name up, puts a directory or link of that name in the file's place, and leaves every leaf elsewhere |
| LocalCopy.ReplaceExact | cowork/coding/local_copy.py:219-245 | from any folder between two versions, an update in which every temporary name is free for its file reaches the desired version of the changed paths, takes away what is below them and keeps everything else |
| Handoff.HandoffIsExactlyWhen | cowork/coding/local_copy.py:185-245 | after a passed preflight, exactly the changed paths become the task's and all others are kept if and only if no kept entry is above or below a changed path and, in the order of installation, every temporary name is free for its file |
| Handoff.HandoffOutcome | cowork/coding/local_copy.py:185-245 | after a passed preflight, with every temporary name free, a handoff succeeds if and only if nothing kept is above a changed path, and then the source is exactly the task's version of the changed paths and what it had that was not below them |
| Rollback.RollbackRestores | cowork/coding/local_copy.py:215-245 | wherever a handoff stopped, with every temporary name free, a rollback succeeds and restores exactly the entries that are changed paths or not below one; one temporary file at most is left, and exactly where |
| Handoff.ChangedPathAgrees | cowork/coding/local_copy.py:189-209 | at every changed path a passed preflight means source and baseline agree |
| HandoffLimits.BaselineRoundTrip | cowork/coding/local_copy.py:185-245 | a source with the baseline's manifest is refused if and only if a changed path is below a link or at a special file; with every temporary name free the handoff fails if and only if a special file is above one, and otherwise gives it the task's manifest and the rollback the baseline's, and what no manifest shows survives if and only if it is not below a changed path |
| HandoffLimits.SourceOnlyFileIsDeleted | cowork/coding/local_copy.py:235-237 | a file the source gained below a directory the task made a file is deleted although preflight passes |
| HandoffLimits.BelowChangedIsDeleted | cowork/coding/local_copy.py:226-237 | every kept entry below a changed path is deleted by a handoff that succeeds with every temporary name free |
| HandoffLimits.NestedRepositoryIsDeleted | cowork/coding/local_copy.py:425-432 | the handoff to an untouched source deletes a nested repository in a directory the task made a file, and the rollback does not bring it back |
| HandoffLimits.TempNameClashLosesAFile | cowork/coding/local_copy.py:243-245 | every kept entry with the temporary name of a file the handoff writes is used up by the handoff |
| HandoffLimits.TempNameClashLosesAPath | cowork/coding/local_copy.py:233-245 | every changed path installed at or below the temporary name of a later file is lost |
| HandoffLimits.BothNamesAdded | cowork/coding/local_copy.py:233-245 | a task that adds a file and one of its temporary name: preflight passes, and one of them is lost in one order and both arrive in the other |
| HandoffLimits.RollbackUsesTempUp | cowork/coding/local_copy.py:215-245 | every rollback that succeeds uses up an entry, other than a changed path, with the temporary name of a file it writes |
| HandoffLimits.RollbackKeepsATemporaryFile | cowork/coding/local_copy.py:215-245 | a failure between copy and rename of an added file leaves its temporary file after the rollback |
| LocalCopyManager.ReadManifest | cowork/coding/local_copy.py:425-462 | the walk reports exactly the files and links outside Git metadata |
| LocalCopyManager.ScanDirectory | cowork/coding/local_copy.py:440-461 | one directory's entries and sub-directories, neither more nor fewer |
| LocalCopyManager.Preflight | cowork/coding/local_copy.py:189-209 | the checks pass if and only if every changed path is reachable, not special and as in the baseline |
| LocalCopyManager.Folder.ReplaceChanged | cowork/coding/local_copy.py:219-245 | the two loops in place compute the update, and fail exactly when it does |
| IngressSafety.OneReplicaRuns | cowork/channels/ingress.py:48-125 | at most one replica, with one task, has the ingress at any moment of any run in which every task begins under its own lease with no loop renewing for an earlier task or about to release, or, where the lease in force belongs to a replica that is gone, while no other replica runs |
| IngressSafety.StaleCallIsHarmless | cowork/channels/ingress_lease.py:40-79 | with WATCH, GET and EXEC apart, a stale renewal or release never touches a successor's lease |
| IngressSafety.OthersLeaveIt | cowork/channels/ingress_lease.py:22-37 | a lease in force is changed by its owner's steps alone |
| IngressOverlap.TwoReplicasCanRun | cowork/channels/ingress.py:106-125 | for a loop about to release and for one renewing for a dead task, there is a run that ends with two replicas in the ingress |
| IngressOverlap.UnsafeBeginLetsASecondIn | cowork/channels/ingress.py:48-125 | from every reachable state in which a task begins in neither of these ways, a replica that runs, the live owner of the lease or a server that boots can come to run beside it |
| IngressProgress.FreeLeaseStartsATask | cowork/channels/ingress.py:57-78 | a free lease is taken for 45 seconds, and the task that begins is the one the manager knows and renews for |
| IngressProgress.TakenLeaseIsAskedFor | cowork/channels/ingress_lease.py:22-37 | a start that finds the lease taken leaves it alone and goes on to ask whether it is its own |
| IngressProgress.OwnerCallSucceeds | cowork/channels/ingress_lease.py:22-79 | an undisturbed call of the owner extends the lease to 45 seconds from now, or releases it |
| IngressProgress.StrangerCallIsRefused | cowork/channels/ingress_lease.py:22-79 | an undisturbed call of anybody else leaves the lease alone; a start is refused and a renewal stops its task |
| IngressProgress.StopReleases | cowork/channels/ingress.py:80-96 | the owner's undisturbed stop leaves the lease free |
| IngressProgress.StopEndsTheTask | cowork/channels/ingress.py:80-96 | a stop ends the task and its renewal loop at once, and goes on to release exactly if there was a task |
| IngressProgress.WokenLoopDecides | cowork/channels/ingress.py:106-117 | a loop that wakes renews for the known task if it runs and otherwise releases |
| IngressManager.LeaseKey.SetNx | cowork/channels/ingress_lease.py:22-37 | the key is taken exactly if it is free or has run out |
| IngressManager.LeaseKey.Exec | cowork/channels/ingress_lease.py:40-79 | nothing if the key changed since WATCH, otherwise the delete or the new expiry |
| IngressManager.LeaseKey.ExecFor | cowork/channels/ingress_lease.py:46-57 | the key after EXEC is that of the protocol's step |
| IngressManager.Manager.Begin | cowork/channels/ingress.py:74-78 | the tables after a start are those of the protocol's step |
| IngressManager.Manager.Stop | cowork/channels/ingress.py:80-96 | stop cancels the current loop and the task, and goes on to release only if there was a task |
| IngressManager.Manager.Wake | cowork/channels/ingress.py:106-117 | the renewal loop renews for a live task and otherwise goes on to release |
| IngressManager.Manager.LoopReturned | cowork/channels/ingress.py:118-125 | a refused renewal stops the task it was for |
| ApprovalSafety.OneCardPerSession | cowork/coding/approvals.py:55-65 | a session has at most one open approval at any moment of any run |
| ApprovalSafety.ClosedOnce | cowork/coding/approvals.py:74-131 | an approval is closed at most once, and exactly once when its request answered, unless the wait timed out with a resolver still to do it |
| ApprovalSafety.AcceptIsRecorded | cowork/coding/approvals.py:89-112 | a wait ended by its event is accepted only after an approval was recorded |
| ApprovalSafety.TimeoutAcceptsUnrecordedWhen | cowork/coding/approvals.py:78-87 | a timed-out wait takes an unrecorded approval if and only if a resolver's callback is running or has just failed |
| ApprovalSafety.TimeoutRaceAccepts | cowork/coding/approvals.py:78-112 | the race happens: accept is answered and then the callback fails |
| ApprovalAnswers.AnsweredAtRequest | cowork/coding/approvals.py:42-65 | in every run a request never comes to a card exactly if it was made in a read-only session, beside an open card or under a matching grant, and then its answer, for good, is accept exactly if the session was not read-only, showed no card and a grant matched |
| ApprovalAnswers.RequestDecides | cowork/coding/approvals.py:42-65 | what a request finds decides it: declined, accepted or shown as a card, and nothing else changes |
| ApprovalAnswers.AcceptedExactlyWhenRecorded | cowork/coding/approvals.py:77-112 | a request with a card is answered with accept if an approval of it was recorded, timed out or not, and where it did not time out only then |
| ApprovalAnswers.DeniedIsDeclined | cowork/coding/approvals.py:89-131 | cancelling a session, or denying its card, leaves it without a card, and the card is never answered with accept |
| ApprovalAnswers.ResolveDecides | cowork/coding/approvals.py:89-95 | a decision reaches an open card of its own session, and nothing else |
| ApprovalAnswers.WaitEnds | cowork/coding/approvals.py:77-82 | the decision read is the waiter's or a denial, and the request closes the card exactly if nobody has |
| ApprovalAnswers.AnswerFollows | cowork/coding/approvals.py:85-87 | the answer is accept exactly for one of the two approvals |
| ApprovalBroker.Broker.Request | cowork/coding/approvals.py:42-65 | declined if the session is read-only or shows a card, else accepted if a remembered grant matches, and else a waiter is registered; nothing else changes |
| ApprovalBroker.Broker.EndWait | cowork/coding/approvals.py:78-82 | the decision is read and the closing taken on exactly if nobody did |
| ApprovalBroker.Broker.Resolve | cowork/coding/approvals.py:89-95 | a decision is taken exactly on an open approval of the session |
| ApprovalBroker.Broker.CancelSession | cowork/coding/approvals.py:114-121 | the loop denies and closes exactly the open approvals of the session |
| KeyedLocks.OneInEachSection | cowork/channels/runtime.py:129-154 | in every interleaving one task at most is in a key's section, tasks on a key share its lock, and the key is in the maps exactly while its count, the number of such tasks, is positive |
| KeyedLocks.Registry.Enter | cowork/channels/runtime.py:139-145 | the guarded section at entry counts the task and makes the lock if there is none |
| KeyedLocks.Registry.Exit | cowork/channels/runtime.py:150-154 | the guarded section at exit removes the lock with the last task |
| TaskScope.ScopeIsFrozen | cowork/coding/control_service.py:406-438 | through any refreshes only commands change, to those of the last project that had the resource; ids, paths, branches, computers, number and order stay, and the snapshot stays valid |
| TaskScope.SentScopeIsFrozen | cowork/coding/control_service.py:379-404 | the project sent to a computer is valid and differs from the frozen one only in commands and in the cleared path and computer of URL-backed repositories; a computer may run a resource of it exactly if it hosts the folder, or has Git and the repository has a URL or is its own |
| TaskScope.CreatableWhen | cowork/coding/control_service.py:999-1022 | a task can be created on chosen resources if and only if each exists, some is chosen and none twice |
| TaskScope.CodeTask.RefreshCommands | cowork/coding/control_service.py:417-438 | the loop over frozen resources is the refresh, and a refused one changes nothing |
| TurnOrdinals.NumbersAsUnbounded | cowork/coding/inference_trace.py:37-65 | after every call the bounded table numbers the turns of the threads it keeps as an unbounded one would if and only if each call was to a new thread, a recent thread with a new turn or one in its window, or the only turn of an evicted one |
| TurnOrdinals.KeepsMostRecent | cowork/coding/inference_trace.py:56-64 | after any calls the threads in the table are exactly the most recently called ones, oldest first |
| TurnOrdinals.Ordinals.Ordinal | cowork/coding/inference_trace.py:54-65 | the size bounds hold, a turn in the window repeats its number, and any other takes the next |
| TextSplit.SplitForLimit | cowork/channels/text.py:4-19 | chunks are non-empty and within the limit, only newlines are lost, and each cut is at the last line end in reach |
| TextSplit.NothingLost | cowork/channels/text.py:4-19 | any such division keeps all other characters in order |
| TextSplit.OneDivision | cowork/channels/text.py:11-18 | text and limit determine the chunks |

## Left out

- HTTP routes, authentication, configuration, the SQL store and clients of outside services: wiring and calls into other systems.
- `updated_at` stamps, `migrate_session`, the order in which listings are sorted, and deleting a schedule.
- Commands: a command queued while its task is being deleted can be stored without its run, as an acknowledged one can; queueing is one step here.
- ParentIndex.Store.SaveMany: the file writes inside it are the subject of `JournalStore`; here they succeed or fail as a whole.
- JournalCommit.CleanupLeavesNoStage: the cleanup in the model also removes a torn staging file, which the code leaves; recovery and readers ignore it either way.
- Handoff: the shortcut that takes equal size and modification time for equal content; links that point back into the folder, below which the code would follow the link; directories without entries, which no manifest shows; what a failed update leaves inside a temporary name that is not a file.
- FileTree.InstallSettles: a file is copied through a link that has its temporary name, so what the link points to changes; here a link's target is not followed, and counts as outside the folder.
- Rollback.RollbackRestores: that every temporary name is free for the rollback is sufficient; where it is not, `RollbackUsesTempUp` says what is lost, and nothing is said about the rest.
- LocalCopyManager.Preflight: refuses every path below a link, while the code refuses one that resolves outside the folder; a link is not followed in this model.
- LocalCopyManager.Folder.ReplaceChanged: the caller passes the changed paths split and sorted; `ReplaceExact` holds for every order, so the sort itself is not modelled.
- Ingress: several renewal calls of one loop at a time cannot occur; replicas of different organisations do not interact, so one key is modelled.
- TurnOrdinals.NumbersAsUnbounded: compares the numbered lists, not the single answers, which can be right by chance after a list is wrong; the "only if" is for a table that keeps at least one thread; one that keeps none has nothing to disagree on.
- TurnOrdinals.Ordinals.Ordinal: needs room for one turn per thread, as the code does (with none it fails to find the turn it just dropped).
- TextSplit.SplitForLimit: needs a limit of at least one; below it the code's loop does not end.
- Approvals: the remembered command rules and the text of an approval are parameters; the object identity of a waiter is its approval id.
- ScheduleTiming.NextFutureOccurrence: needs a zone whose steps move forward; `StepsForwardExactlyWhen` says which do.
- KeyedLocks: the guard around the two maps never waits, because no section under it suspends; it is not a separate step.
