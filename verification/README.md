# Verification of the pull-request platform's workflow core

This project models, in Dafny, the part of the platform that has to stay consistent while several
processes work on it: the workflow engine of the worker, the database protocols that it shares with
the API, and three algorithms that stand on their own. Verify it with `dafny verify dfyconfig.toml`.

**The workflow engine.** A run goes through eleven steps. Each job delivered by the queue drives one
step: `Plan` decides what is next from the step records, `StepGuard` runs a step at most once,
`WorkflowStore` moves the run row, `Consumer` puts them together. `WorkflowRuns` proves what holds
in every run, with duplicate deliveries, thrown executors, dead workers and cancellations that commit
between deliveries or at any point of one: two landing points stand for all, as
`Consumer.CancelCommutesWithStep` and `Consumer.CancelCommutesWithDispatch` show. `WorkflowChain` proves
that a run without trouble ends after at most eleven deliveries, `WorkflowRedelivery` that throws and
failed dispatches only delay the end, and `WorkflowDeaths` that deaths of workers do no more, because a
run with deaths is, delivery by delivery, one with throws. `WorkflowCancellation` tells when a
cancellation comes to its end. `DeliveryInFull` writes out, case by case, what one delivery does.

**Leases.** `StepLease` interleaves any number of workers on one step record, and `Outbox` any number of
publishers, cancellations and retention sweeps on one outbox row. A call is a sequence of single
transactions, and anything may happen between two of them.

**The run table.** `RunLifecycle` interleaves all writers of the run rows: admission, retry, cancel,
the worker, and the two capacity triggers. `ConsumerLifecycle` proves that the modelled consumer is such
a worker, and `ConsumerInterleaving` takes it apart into single transactions, for any number of
deliveries at once. `AdvisoryLocks` shows that their locks cannot deadlock.

**Algorithms.** `DiffEvidence` is the reader of unified diffs (IEEE Std 1003.1-2017, `diff`, "Diff -u or
-U Output Format", with git headers), `DiffFormat` the printer it is compared with, and
`ReviewEvidence` the two checks on an agent's findings. `Utf8Truncation` cuts text to UTF-8 bytes by
binary search (section 3 of RFC 3629, section 2.1 of RFC 2781). `CanonicalJson` and `Reconciler` compare
Kubernetes objects, where member order does not matter (section 4 of RFC 8259); `KeyOrder` and
`JsonStrings` say which text they compare.

Code that changes tables, fields or buffers is modelled by classes and methods that change them; each
method is tied to a function of the old state, and the theorems are about these functions. Time,
fresh tokens, executor results, the queue's failures and the server's answers are parameters.

## Where the code and its promises part

The model follows the code. These are the places where a property holds only under a condition; each
has a lemma that says exactly when.

- The worker asks for a transition that the contract does not allow in exactly three cases, all of
  them with the job's step due: a cancellation commits after the run was read and before its phase is
  changed (CANCEL_REQUESTED to the phase), a cancellation commits before the report's verdict is asked
  for (CANCEL_REQUESTED to verdict), or a late job reaches a run that is already CANCELLED
  (`WorkflowRuns.IllegalRequestsExactly`).
- A cancellation comes to its end unless a step other than the cleanup is RUNNING. If the worker of that
  step is dead, nobody hands the step back, and the run stays CANCEL_REQUESTED for ever
  (`WorkflowCancellation.CancellationCompletesExactly`, `WorkflowCancellation.CancellationWaits`).
- The API cancels from REPORTING, which the transition table does not list, and the triggers store
  REJECTED_BY_CAPACITY for a queued run that is cancelled or started beside an active one
  (`RunLifecycle.EveryMoveIsStored`, `RunLifecycle.EveryStoredMoveHappens`).
- An outbox claim is identified by its lease timestamp only, so a re-arm between two claims with the
  same timestamp can be lost (`OutboxProtocol.WakeupsAreLostExactly` says by which event, and
  `OutboxProtocol.SameInstantLosesTheWakeup` that it happens).
- The evidence check refuses ranges that end beyond the exact integers, the location check does not
  (`ReviewEvidence.ChecksAgreeExactly`).
- An added line whose text starts with `++ ` is taken for a file header, and is then not covered
  (`DiffFormat.AddedReadsAsHeaderIff`, `DiffFormat.AddedPlusPlusIsNotCovered`).
- Assigning a member named `__proto__` sets a prototype, so such members are not compared
  (`CanonicalJson.StableJsonIsCanonical`, `CanonicalJson.LawHoldsWithoutProto`).
- `reconcileResource` creates an object without its labels but never recognises it again
  (`Reconciler.SecondTimeIsQuiet`).

## Model

| member | source | states |
|---|---|---|
| `Plan.PlanOfListing` | apps/worker/src/workflow/plan.ts:15-111 | The planner, run on any listing of the step records in any order, takes the first step that is not settled, skips it exactly when a gate failed, evidence is lost or there is no review input, and goes back to a failed cleanup first |
| `Plan.VerdictOfListing` | apps/worker/src/workflow/state-machine.ts:65-88 | The verdict does not depend on the order of the listing: INCOMPLETE without a passed report or with any hard failure, FAILED with an application failure only, PASSED otherwise |
| `Plan.OpenRecordsDecideNothing` | apps/worker/src/workflow/plan.ts:26-111 | PENDING and RUNNING records, and the failure kind of anything but a failed step, influence neither the next action nor the verdict |
| `Plan.PlanInFull` | apps/worker/src/workflow/plan.ts:15-111 | With every step before `s` settled, `s` open and no failed cleanup, the planner skips `s` exactly in the cases written out: an application failure of detect, test, build or preview with the steps each one shuts off, lost evidence for detect to health, a failed assembly for the agent review; otherwise it runs `s` |
| `Plan.PlanAtTheEnds` | apps/worker/src/workflow/plan.ts:78-111 | A failed or incomplete cleanup is run first whatever else is recorded, and nothing is planned if and only if all eleven steps are settled and the cleanup did not fail |
| `Plan.VerdictInFull` | apps/worker/src/workflow/state-machine.ts:65-88 | The verdict of any listing by its records: INCOMPLETE if and only if the report did not pass or some step is INCOMPLETE or failed other than as an application failure; otherwise FAILED with an application failure and PASSED without any |
| `Tables.Database.EnforceActiveRunCapacity` | packages/db/drizzle/0005_run_capacity_triggers.sql:24-62 | The active-run trigger: a run that newly becomes active while another one is active is stored as REJECTED_BY_CAPACITY, any other status as asked |
| `Tables.Database.EnforceQueuedRunCapacity` | packages/db/drizzle/0005_run_capacity_triggers.sql:1-19 | The queued-run trigger: a run that newly becomes QUEUED beside three queued ones is stored as REJECTED_BY_CAPACITY |
| `Tables.Database.StoreRun` | packages/db/drizzle/0005_run_capacity_triggers.sql:20-66 | A write of the status column goes through both triggers: no second run gets under way beside one that is, no fourth one is queued, either is stored as REJECTED_BY_CAPACITY, and no other row changes |
| `RunStatusContract.TransitionsInFull` | packages/contracts/src/run-status.ts:47-94 | The transitions are exactly the ones listed, CANCEL_REQUESTED to CANCELLED only with a confirmed cleanup |
| `RunStatusContract.StatusesInFull` | packages/contracts/src/run-status.ts:31-45 | Which statuses hold the execution slot, which are terminal, and how both sets follow from the transitions |
| `StepGuard.DatabaseStepGuard.AdmitTransaction` | apps/worker/src/workflow/db-adapter.ts:374-416 | Admission of `runOnce`: a final record and a live lease turn the call away and change nothing; otherwise the row becomes RUNNING under the caller's token with a lease of twenty minutes; a cleanup that failed is not final |
| `StepGuard.DatabaseStepGuard.HeartbeatUpdate` | apps/worker/src/workflow/db-adapter.ts:418-426 | A heartbeat renews the lease, and only if the row is still RUNNING under the caller's token |
| `StepGuard.DatabaseStepGuard.FinishTransaction` | apps/worker/src/workflow/db-adapter.ts:428-448 | The result is recorded only by the holder of the token; for anyone else the row stays and the call fails |
| `StepGuard.DatabaseStepGuard.ResetUpdate` | apps/worker/src/workflow/db-adapter.ts:449-451 | A failed call hands the row back as PENDING only while the row still carries its token |
| `StepGuard.DatabaseStepGuard.RunOnceGuarded` | apps/worker/src/workflow/db-adapter.ts:370-455 | A whole `runOnce` that nothing overlaps: outcome and row, column by column, for every way the operation ends (returns each result, throws, worker dies) |
| `StepGuard.DatabaseStepGuard.MarkStepSkipped` | apps/worker/src/workflow/db-adapter.ts:457-470 | Skipping leaves a final record alone, refuses a running step, and otherwise records SKIPPED; no other row changes |
| `StepGuard.DatabaseStepGuard.List` | apps/worker/src/workflow/db-adapter.ts:472-475 | The listing holds each record of the attempt exactly once, and nothing else |
| `StepGuard.InMemoryStepGuard.RunOnceGuarded` | apps/worker/src/workflow/step-guard.ts:85-111 | The process-local guard: same admission rules without leases; a thrown operation leaves no record |
| `StepGuard.InMemoryStepGuard.MarkStepSkipped` | apps/worker/src/workflow/step-guard.ts:113-127 | The process-local skip: final records stay, a running step refuses, otherwise SKIPPED is recorded with the reason |
| `GuardRefinement.CallCorresponds` | apps/worker/src/workflow/step-guard.ts:57-138 | One call on the database guard and on the in-memory guard gives the same answer and keeps their records in correspondence |
| `GuardRefinement.GuardsAgree` | apps/worker/src/workflow/step-guard.ts:85-138 | After any sequence of calls that come back, both guards gave the same answers, and planner and verdict agree on any two listings of them |
| `StepLease.FinalRecordNeverChanges` | apps/worker/src/workflow/db-adapter.ts:370-470 | For any number of workers and any interleaving of admission, heartbeat, finish, reset and crash: a final record never changes again |
| `StepLease.OneFinalExecution` | apps/worker/src/workflow/db-adapter.ts:428-455 | In every interleaving at most one call reports `executed` for a final record, and the recorded result is that call's result |
| `StepLease.ReplacedCallChangesNothing` | apps/worker/src/workflow/db-adapter.ts:418-451 | A call whose token was replaced has no effect: whatever it does from then on, the row and every other call end as if it had stopped |
| `StepLease.LostHeartbeatIsNoSuccess` | apps/worker/src/workflow/db-adapter.ts:417-448 | One heartbeat that fails or finds the row in other hands is enough: in no continuation does that call report that it executed the step |
| `StepLease.FailingCallHandsBack` | apps/worker/src/workflow/db-adapter.ts:424-455 | A call whose operation throws, whose lease was lost, or whose finish fails or misses throws, and resets the row to PENDING if and only if it still carries its token |
| `StepLease.MutualExclusion` | apps/worker/src/workflow/db-adapter.ts:23-24 | While each live holder renews in less than STALE_STEP_MS, two operations on the same step never overlap, in any interleaving |
| `StepLease.SilenceLetsASecondWorkerIn` | apps/worker/src/workflow/db-adapter.ts:387-391 | The bound is exact in every reachable state with a holder at work: after any silence a second worker is admitted beside it if and only if the last renewal is at least STALE_STEP_MS ago, and is told BUSY otherwise |
| `StepLease.UninterruptedCallIsRunOnce` | apps/worker/src/workflow/db-adapter.ts:370-455 | The sequential `runOnce` of the guard is one of the interleavings of the lease machine |
| `WorkflowStore.DatabaseWorkflowStore.TransitionRun` | apps/worker/src/workflow/db-adapter.ts:71-112 | A transition is made only for the current attempt and head commit and only if the contract allows it; it sets the verdict column with a verdict, and the triggers have the last word |
| `WorkflowStore.DatabaseWorkflowStore.SetCleanupStatus` | apps/worker/src/workflow/db-adapter.ts:114-136 | The cleanup status is written only for the current attempt and head commit |
| `WorkflowStore.DatabaseWorkflowStore.SetPreviewHost` | apps/worker/src/workflow/db-adapter.ts:138-151 | The preview host is written only for the current attempt and head commit |
| `WorkflowStore.DatabaseWorkflowStore.SetExecutionPlan` | apps/worker/src/workflow/db-adapter.ts:153-172 | New entries of the plan replace or join the stored ones and the others stay, only for the current attempt and head commit |
| `Api.RunController.Cancel` | apps/api/src/run.controller.ts:420-480 | Cancelling a queued or working run stores CANCEL_REQUESTED with pending cleanup (or what the trigger makes of it); for such a run and one already being cancelled the cleanup row becomes PENDING, due and unleased with its attempts and payload kept, and no other row changes; a run that is over is a conflict and changes nothing |
| `Api.RunController.Retry` | apps/api/src/run.controller.ts:340-418 | A retry is accepted exactly when the row is what the caller saw, FAILED or INCOMPLETE, cleaned or with a failed cleanup that the caller confirmed, no run is under way and the queue has room; then the attempt rises by one, the row is reset, and the detect job of the new attempt is written |
| `Api.WebhookService.Accept` | apps/api/src/webhook.service.ts:150-312 | A repeated delivery is a replay if and only if its hash, number or head commit differs from the first, and otherwise a duplicate; a new (pull request, head commit) is stored as QUEUED with a detect row, or as REJECTED_BY_CAPACITY without one if a run is under way or three are queued |
| `Consumer.WorkflowConsumer.NextAction` | apps/worker/src/workflow/consumer.ts:435-441 | The action is the planned one for the records as they are, however they are listed |
| `Consumer.WorkflowConsumer.SendNext` | apps/worker/src/workflow/consumer.ts:435-452 | `dispatchNext` hands the queue the job of the planned step, or nothing when nothing is left |
| `Consumer.WorkflowConsumer.MovePhase` | apps/worker/src/workflow/consumer.ts:297-320 | The run is asked to move to the step's phase unless it is there; a run that was not admitted is refused |
| `Consumer.WorkflowConsumer.Guarded` | apps/worker/src/workflow/consumer.ts:158-176 | The step runs under the guard; an API cancellation that commits around it changes the run row and the outbox as the API's own transaction does |
| `Consumer.WorkflowConsumer.CompleteReport` | apps/worker/src/workflow/consumer.ts:322-339 | After the report a run that has no final status yet is asked to take the verdict of its records |
| `Consumer.WorkflowConsumer.CompleteCleanup` | apps/worker/src/workflow/consumer.ts:341-386 | A passed cleanup is recorded as CLEANED and only then turns CANCEL_REQUESTED into CANCELLED; any other outcome is recorded as FAILED |
| `Consumer.WorkflowConsumer.AdvanceRun` | apps/worker/src/workflow/consumer.ts:104-219 | The loop skips every blocked step in front, then runs the job's step if it is due, passes a settled one on, and refuses one out of order |
| `Consumer.WorkflowConsumer.ExecuteStep` | apps/worker/src/workflow/consumer.ts:148-219 | Phase, then pending cleanup, then the guarded step, then its completion; the first failure ends the delivery |
| `Consumer.WorkflowConsumer.Complete` | apps/worker/src/workflow/consumer.ts:178-217 | A step without a record fails the delivery; otherwise report or cleanup is finalized and the next job dispatched, which is cleanup when a cancellation came in between |
| `Consumer.WorkflowConsumer.AdvanceCancelled` | apps/worker/src/workflow/consumer.ts:388-433 | While a run is being cancelled, cleanup waits for other running steps, then runs and is finalized, and nothing is dispatched |
| `Consumer.WorkflowConsumer.HandleJob` | apps/worker/src/workflow/consumer.ts:64-102 | One delivery: stale jobs do nothing, a run read as being cancelled takes only cleanup, any other run is advanced with the status that was read, even if a cancellation commits right after the read |
| `DeliveryInFull.HandOverInFull` | apps/worker/src/workflow/consumer.ts:89-94 | Spelled out on tables and queue: for a run being cancelled any job but the cleanup only hands the cleanup job to the queue |
| `DeliveryInFull.CancellationInFull` | apps/worker/src/workflow/consumer.ts:388-433 | The cleanup delivery of a run being cancelled: it does nothing while another step is RUNNING; otherwise the run row is CANCELLED and CLEANED after a passed cleanup, FAILED cleanup after any other record, PENDING cleanup and a failed delivery without one, and nothing is dispatched |
| `DeliveryInFull.SkipInFull` | apps/worker/src/workflow/consumer.ts:117-128 | A planned skip: a RUNNING step stops the delivery; otherwise the delivery is the one that finds the step SKIPPED with the reason on record |
| `DeliveryInFull.OtherStepInFull` | apps/worker/src/workflow/consumer.ts:130-146 | A job of a step whose turn it is not: a settled one hands on the planned step, an open one is out of order, and no table changes |
| `DeliveryInFull.StepInFull` | apps/worker/src/workflow/consumer.ts:148-219 | A job whose step is due, with cancellations at either point: the phase by name, the refusals, the record of the guard, and then for the report, the cleanup and every other step the run row that is left and the one job that is handed on |
| `WorkflowRuns.SkippingIsGood` | apps/worker/src/workflow/consumer.ts:117-128 | Skipping in front keeps the order of settled steps, gives every skipped step an earlier cause, and never meets a running step |
| `WorkflowRuns.HandleCore` | apps/worker/src/workflow/consumer.ts:64-219 | One delivery of any job ever queued, with a cancellation committing at any point of it, keeps the invariant of status and step records, makes only forward progress, and fails with an illegal transition exactly in the three named cases |
| `WorkflowRuns.AdvanceOvertaken` | apps/worker/src/workflow/consumer.ts:297-320 | The delivery whose run is cancelled between the read of its status and the request for a phase: it keeps the invariant and progress, and fails with an illegal transition exactly when the due step changes the phase, or is the report and comes back |
| `WorkflowRuns.RunIsSound` | apps/worker/src/workflow/consumer.ts:64-452 | The invariant holds after any sequence of deliveries, duplicates, throws, deaths, queue failures and cancellations, between deliveries or at any point of one, and no run becomes cancelled unless it was cancelled |
| `WorkflowRuns.IllegalRequestsExactly` | apps/worker/src/workflow/consumer.ts:130-148 | In every run a delivery asks for a status change outside the contract if and only if its step is due and the run is already cancelled, or a cancellation overtook the change of phase, or one overtook the verdict of the report |
| `WorkflowRuns.NoIllegalRequest` | packages/contracts/src/run-status.ts:47-94 | In every uncancelled run, with duplicates and throws, each requested status change is in the contract and no step is ever out of order |
| `WorkflowRuns.VerdictMeaning` | apps/worker/src/workflow/state-machine.ts:65-88 | With all ten work steps settled: PASSED if and only if all ten passed, FAILED if and only if the report passed, some step failed as an application failure and none failed hard |
| `WorkflowRuns.FinalStatusIsDeserved` | apps/worker/src/workflow/consumer.ts:322-339 | In every run the final status means what the verdict promises, and every skipped step has an earlier FAILED or INCOMPLETE cause on record, wherever cancellations commit |
| `WorkflowChain.Link` | apps/worker/src/workflow/consumer.ts:104-219 | One smooth delivery of the live job settles at least one step and leaves exactly one new live job, which names the planned step, or ends the chain |
| `WorkflowChain.DriveIsChain` | apps/worker/src/workflow/plan.ts:78-111 | At every moment of a run the one live job names the planned step, and after at most eleven deliveries there is none |
| `WorkflowChain.EveryRunFinishes` | apps/worker/src/workflow/consumer.ts:104-219 | From QUEUED with one detect job, for every choice of step outcomes, eleven deliveries leave all eleven steps settled, a deserved verdict, and the cleanup status of the cleanup's outcome |
| `WorkflowRedelivery.EveryRunFinishesDespiteTrouble` | apps/worker/src/workflow/consumer.ts:64-219 | A run whose steps throw and whose dispatches fail arbitrarily often still finishes once eleven of its deliveries are smooth: all eleven steps settled, a deserved verdict, the cleanup status of the cleanup's outcome |
| `WorkflowDeaths.EveryRunFinishesDespiteDeaths` | apps/worker/src/workflow/db-adapter.ts:370-455 | The same with workers that die in the middle of a step, after any heartbeats: a run finishes once eleven of its deliveries are smooth and find no lease of a dead worker, whenever the others come |
| `WorkflowCancellation.CancellationCompletes` | apps/worker/src/workflow/consumer.ts:388-433 | In any run being cancelled with no other step RUNNING and nobody holding the cleanup, one smooth cleanup delivery makes the run CANCELLED and CLEANED if the cleanup passed, and leaves it CANCEL_REQUESTED with a failed cleanup otherwise |
| `WorkflowCancellation.CancellationWaits` | apps/worker/src/workflow/consumer.ts:396-403 | While a run being cancelled has another step RUNNING, no sequence of deliveries, publications and cancellations changes a run row or a step record |
| `WorkflowCancellation.CancellationCompletesExactly` | apps/worker/src/workflow/consumer.ts:388-433 | In every run that is being cancelled, some continuation, in which publishers take only rows that are not PUBLISHED, makes it CANCELLED if and only if no step other than the cleanup is RUNNING |
| `WorkflowRuns.AdmissionIsFresh` | apps/api/src/webhook.service.ts:281-312 | A run that admission accepts is a fresh start for the whole-run theorems, whatever jobs of other runs are queued: QUEUED, without a rival, with no step on record and at most its detect job on the way |
| `WorkflowRuns.RetryIsFresh` | apps/api/src/run.controller.ts:375-408 | So is every accepted retry, whatever jobs of earlier attempts and other runs are still in the queue |
| `Outbox.OutboxPublisher.PublishRow` | apps/worker/src/workflow/outbox.ts:58-126 | One publication: a row that waits and is due and unleased is claimed; it becomes PUBLISHED if and only if its payload was handed to the queue, and otherwise FAILED, unleased, with one attempt more and due again five seconds later; any other row stays |
| `Outbox.OutboxPublisher.Poll` | apps/worker/src/workflow/outbox.ts:38-56 | At most ten due rows are published, all of them if there are fewer; what was sent are the payloads of the rows that became PUBLISHED, the others became FAILED, and no other row changes |
| `OutboxProtocol.PublicationIsARun` | apps/worker/src/workflow/outbox.ts:58-126 | A publication that nothing interrupts is a run of the protocol: claim, dispatch, then mark or fail; it ends in the row that the publisher leaves and keeps the law about wake-ups |
| `OutboxProtocol.CancellationIsCancelArms` | apps/api/src/run.controller.ts:438-452 | What the API's cancel does to the cleanup row is the protocol's re-arm of that row |
| `Outbox.Retention.ArmCleanup` | apps/worker/src/retention.ts:139-168 | For one candidate: a missing cleanup row is inserted, one that was published or failed fewer than three times is armed again, any other stays |
| `Outbox.Retention.QueueExpiredCleanup` | apps/worker/src/retention.ts:119-172 | A sweep takes at most a hundred finished runs whose cleanup is unscheduled or failed, inserts or arms exactly the rows that were published or failed and have fewer than three attempts, counts them, and changes no other row |
| `OutboxProtocol.WakeupsAreNotLost` | apps/worker/src/workflow/outbox.ts:58-126 | For any number of publishers, cancellations and sweeps interleaved, with claims at distinct instants: a PUBLISHED row was dispatched under a claim made after its latest re-arm |
| `OutboxProtocol.WakeupsAreLostExactly` | apps/worker/src/workflow/outbox.ts:58-126 | In every run, without that premise, the next event loses a wake-up if and only if it is the mark of a publisher whose lease timestamp is the row's and whose payload was claimed before the latest re-arm, with nothing sent since; then the row was claimed twice at one instant with a re-arm in between |
| `OutboxProtocol.SameInstantLosesTheWakeup` | apps/worker/src/workflow/outbox.ts:59-95 | It does happen: in this race of two publishers the wake-up is lost if and only if the two claims share an instant |
| `OutboxProtocol.RetentionArmsAtMostThreeTimes` | apps/worker/src/retention.ts:119-168 | Over any interleaving, retention arms the cleanup row of an attempt at most three times |
| `OutboxProtocol.UnpublishedRowsCanBeClaimed` | apps/worker/src/workflow/outbox.ts:69-76 | An unpublished row can be claimed again once its delay and its lease have passed, so a dead publisher blocks nothing |
| `RunLifecycle.RunsFitStep` | packages/db/drizzle/0005_run_capacity_triggers.sql:1-66 | Every event of every writer keeps the capacity bounds and the decision taken under the lock, and moves each run row by the stored-moves relation |
| `RunLifecycle.CapacityHolds` | packages/db/drizzle/0005_run_capacity_triggers.sql:1-66 | Under every interleaving of admission, retry, cancel, worker writes and guard calls at most one run is active and at most three are QUEUED |
| `RunLifecycle.DecisionsAreHonoured` | apps/api/src/webhook.service.ts:262-312 | A decision taken under the capacity lock is stored as taken, whatever commits before it: no trigger rewrites it, the retried row still matches, and its detect job meets no duplicate key |
| `RunLifecycle.UninterruptedTransactions` | apps/api/src/run.controller.ts:354-408 | Begin and commit with nothing in between are exactly the admission and retry transactions of the API |
| `RunLifecycle.DetectJobsTellAdmission` | apps/api/src/webhook.service.ts:281-312 | Every run either was turned away at admission and has no detect row, or has the detect row of each of its attempts and of no other; so a QUEUED run has the job it starts from |
| `RunLifecycle.CancelledMeansCleaned` | apps/worker/src/workflow/db-adapter.ts:71-136 | In every interleaving a CANCELLED run has a PASSED cleanup record for its current attempt, and so does a run marked CLEANED, provided workers write CLEANED only after they saw that record |
| `ConsumerLifecycle.DeliveryFollows` | apps/worker/src/workflow/consumer.ts:64-452 | The consumer keeps that proviso and every other: what one delivery does to the tables is a sequence of events of the run table, each enabled when its turn comes |
| `ConsumerLifecycle.DeliveriesKeepTheLifecycle` | apps/worker/src/workflow/consumer.ts:341-433 | With the consumer as it is, and any events of the other writers between deliveries: CANCELLED and CLEANED mean a PASSED cleanup record, the capacity bounds hold, and each QUEUED run has its detect job |
| `ConsumerInterleaving.TransactionsKeepTheLifecycle` | apps/worker/src/workflow/consumer.ts:64-452 | The same for the single transactions of any number of deliveries, in any interleaving with each other and with all other writers, and with deliveries that break off anywhere |
| `ConsumerInterleaving.DeliveryIsAnInterleaving` | apps/worker/src/workflow/consumer.ts:64-452 | A whole delivery, with its cancellation where it lands, is one of these interleavings: its transactions, made one after the other, leave the tables of the delivery |
| `RunLifecycle.RowsAreConsistent` | apps/worker/src/workflow/db-adapter.ts:90-101 | The verdict column is set exactly when the status is a verdict, and then to it; no two runs share pull request and head commit |
| `RunLifecycle.EveryMoveIsStored` | packages/contracts/src/run-status.ts:47-62 | Every status change of a run row is in the contract table, is REPORTING to CANCEL_REQUESTED, is QUEUED to REJECTED_BY_CAPACITY, or is a retry from FAILED or INCOMPLETE that raises the attempt by one |
| `RunLifecycle.EveryStoredMoveHappens` | apps/api/src/run-operations.ts:12-17 | The relation is exact: each of its moves within an attempt is made in some run of the system |
| `RunLifecycle.RejectionHappens` | packages/db/drizzle/0005_run_capacity_triggers.sql:24-62 | Cancelling a queued run while another is active stores REJECTED_BY_CAPACITY |
| `RunLifecycle.AttemptsAreIsolated` | packages/contracts/src/run-status.ts:102-123 | From any state to any later one the attempt never goes back, PASSED, CANCELLED and REJECTED_BY_CAPACITY are never left, and a run's identity never changes |
| `RunLifecycle.OldAttemptsArePowerless` | apps/worker/src/workflow/db-adapter.ts:78-172 | Once a run has moved on to another attempt, no store write of an older one changes any row, now or in any later state |
| `AdvisoryLocks.LocksExclude` | apps/worker/src/workflow/db-adapter.ts:33-35 | In every interleaving no lock is held by two transactions |
| `AdvisoryLocks.NoWaitCycle` | packages/db/drizzle/0005_run_capacity_triggers.sql:11-46 | For any number of transactions and any interleaving, the wait-for relation has no cycle |
| `AdvisoryLocks.EveryTransactionCanEnd` | apps/api/src/run.controller.ts:426-430 | From every reachable state all transactions in progress can take their locks and end: nothing is ever stuck |
| `AdvisoryLocks.LocksInFull` | apps/api/src/run.controller.ts:355-430 | Which locks admission, retry, cancellation and the worker's transitions take, by status, in order |
| `DiffEvidence.UnifiedDiffReader.FlushAddedRange` | apps/worker/src/kubernetes/runtime.ts:173-179 | The pending range, if any, is appended to the ranges of the current file and forgotten |
| `DiffEvidence.UnifiedDiffReader.Open` | apps/worker/src/kubernetes/runtime.ts:188-207 | A `+++ ` header opens the file it names by a plain relative path, keeping ranges it already has, and otherwise closes the current file |
| `DiffEvidence.UnifiedDiffReader.Read` | apps/worker/src/kubernetes/runtime.ts:181-238 | One line: file headers, hunk headers, added, kept, removed and marker lines, each with the branch the parser takes |
| `DiffEvidence.ParseUnifiedDiffEvidence` | apps/worker/src/kubernetes/runtime.ts:162-247 | The loop over the lines yields the files and ranges of the whole text |
| `DiffEvidence.TargetPathInFull` | apps/worker/src/kubernetes/runtime.ts:188-205 | A header names the path p if and only if it reads `b/` and p, and p is not empty, does not start with a slash, holds no backslash and has no `..` between two of its slashes or ends; every other header names none |
| `DiffEvidence.LineCovers` | apps/worker/src/kubernetes/runtime.ts:181-238 | One line adds to the covered numbers exactly the number it is read as, and moves the cursor as the format says |
| `DiffEvidence.RangesAreExact` | apps/worker/src/kubernetes/runtime.ts:162-247 | For every text whatever, a number of a file is covered by a range if and only if some line of the text was read as an added line of that file with that number |
| `DiffEvidence.RangesAreWellFormed` | apps/worker/src/kubernetes/runtime.ts:162-247 | For every text all ranges satisfy 1 <= start <= end, and the files listed are those that have ranges |
| `DiffEvidence.FilesAreInOrder` | apps/worker/src/kubernetes/runtime.ts:162-207 | For every text no file is listed twice, and files are listed in the order in which the lines open them |
| `DiffFormat.HeaderRoundTrip` | apps/worker/src/kubernetes/runtime.ts:210-223 | A printed hunk header is read back as its new start line, with or without counts and whatever follows it |
| `DiffFormat.HunkStartInFull` | apps/worker/src/kubernetes/runtime.ts:210-223 | A line starts a hunk at n if and only if it has the parts of a header in their order, with or without counts, its new start reads n, and n is from 1 to 2^53 - 1 |
| `DiffFormat.ReadBody` | apps/worker/src/kubernetes/runtime.ts:225-239 | Reading a printed hunk body records exactly its blocks of added lines, a pending one included |
| `DiffFormat.AddedReadsAsHeaderIff` | apps/worker/src/kubernetes/runtime.ts:188-205 | An added line is taken for a file header, and closes its hunk, if and only if its text starts with `++ ` |
| `DiffFormat.AddedPlusPlusIsNotCovered` | apps/worker/src/kubernetes/runtime.ts:188-205 | For every such text a one-line diff declares the line as added and the reader covers it with no range, so the law needs its exclusion |
| `DiffFormat.ReaderIsExact` | apps/worker/src/kubernetes/runtime.ts:162-247 | On every well-formed diff the reader finds exactly the files whose target is printed as `b/` and a plain path and, for each, the blocks of added lines of all its hunks in order |
| `DiffFormat.CoveredIffDeclared` | apps/worker/src/kubernetes/runtime.ts:162-247 | On every well-formed diff a line of a file is covered if and only if the diff prints it as an added line under that file's `b/` target |
| `DiffFormat.RunsAreMaximalBlocks` | apps/worker/src/kubernetes/runtime.ts:225-239 | The ranges of a hunk are exactly its maximal blocks of consecutive added lines |
| `DiffFormat.RangesAreMaximalBlocks` | apps/worker/src/kubernetes/runtime.ts:162-247 | On every well-formed diff a range is on record for a file if and only if it is a maximal block of consecutive added lines of one of its hunks |
| `DiffFormat.RangesIncrease` | apps/worker/src/kubernetes/runtime.ts:162-247 | Ascending hunks that do not overlap give disjoint ranges in increasing order |
| `ReviewEvidence.ValidateAgentReportEvidence` | packages/agent/src/evidence.ts:45-112 | Accepts exactly the reports whose every finding lies within one valid range of a known file, lists one issue per other finding in order with its reason, and refuses missing evidence |
| `ReviewEvidence.ObjectionInFull` | packages/agent/src/evidence.ts:32-112 | What is held against a finding: unreadable evidence, a missing file, or that its file's ranges are not all whole, ordered and at most 2^53 - 1, or none of them holds it |
| `ReviewEvidence.LocationInFull` | packages/contracts/src/agent-report.ts:114-145 | A location is accepted if and only if one changed range of its file holds it from start to end |
| `ReviewEvidence.ValidateAgentReportLocations` | packages/contracts/src/agent-report.ts:114-145 | The issues are exactly the findings that lie in no changed range of their file, in order |
| `ReviewEvidence.AcceptedFindingsAreAdded` | apps/worker/src/kubernetes/runtime.ts:462-468 | For every diff text, each line of an accepted finding was read as an added line of that file |
| `ReviewEvidence.ChecksAgreeExactly` | packages/agent/src/evidence.ts:32-112 | For every diff text the evidence check accepts a report if and only if the location check does and no file it names has a range that ends beyond the exact integers |
| `ReviewEvidence.ChecksAgreeOnPrinted` | packages/contracts/src/agent-report.ts:114-145 | On every well-formed diff both checks accept exactly the same reports |
| `ReviewEvidence.ChecksCanDisagree` | packages/agent/src/evidence.ts:32-39 | A diff whose last added line is number 2^53 makes the checks differ |
| `Utf8Truncation.DecodeEncode` | packages/agent/src/limits.ts:6-8 | The byte encoding that lengths are measured in loses nothing on well-formed text |
| `Utf8Truncation.LengthInFull` | packages/agent/src/limits.ts:6-8 | The byte length, unit by unit: four for a pair, otherwise one, two or three by the bounds 0x80 and 0x800, three for a lone surrogate |
| `Utf8Truncation.JoiningNeverAddsBytes` | packages/agent/src/limits.ts:31-39 | Joining a prefix and the marker never takes more bytes than both apart, even where they meet in a pair |
| `Utf8Truncation.Utf8Prefix` | packages/agent/src/limits.ts:42-55 | The binary search finds a prefix within the bytes, as long as any that fits up to one high surrogate; on well-formed text it is the longest prefix of whole code points |
| `Utf8Truncation.TruncateUtf8` | packages/agent/src/limits.ts:11-40 | For every string, limit and marker the result fits the limit and its byte count is right; text that fits is returned unchanged; well-formed text keeps its longest whole-code-point prefix in the budget the marker leaves; limits that are no counts are refused |
| `CanonicalJson.SortsAlikeIffSame` | packages/k8s/src/reconcile.ts:157-167 | Sorting keys makes two values equal if and only if they are the same up to the order of members |
| `CanonicalJson.PrintTells` | packages/k8s/src/reconcile.ts:153-155 | A printed value determines the value, and where it ends |
| `JsonStrings.EscapeRoundTrip` | packages/k8s/src/reconcile.ts:153-155 | Every string, lone surrogates included, is read back from its literal by the escapes of RFC 8259, and the literal holds no bare quote, control character or half of a pair |
| `CanonicalJson.StableJsonIsCanonical` | packages/k8s/src/reconcile.ts:153-167 | The canonical texts of two JSON values are equal if and only if the values are the same up to the order of members, members named `__proto__` aside |
| `CanonicalJson.LawHoldsWithoutProto` | packages/k8s/src/reconcile.ts:157-167 | Where the law holds: without members named `__proto__` the texts are equal if and only if the values are equal up to member order, and every value that has such a member, at any depth, shares its text with a value it does not equal |
| `KeyOrder.IndexInFull` | packages/k8s/src/reconcile.ts:157-167 | The keys that an object lists first are exactly the decimal numbers below 2^32 - 1 |
| `KeyOrder.BeforeInFull` | packages/k8s/src/reconcile.ts:157-167 | The order of the printed keys: those numbers by value, before all other keys; the others by code units at the first difference |
| `Reconciler.ReconcileResource` | packages/k8s/src/reconcile.ts:37-72 | Creates what is missing, refuses what belongs to someone else, adopts Jobs and volume claims, leaves what has the same canonical text, and otherwise updates with the stored resource version |
| `Reconciler.ReconcileResources` | packages/k8s/src/reconcile.ts:74-83 | A plan is reconciled in order, up to the first conflict |
| `Reconciler.SameTextIff` | packages/k8s/src/reconcile.ts:133-151 | The comparison finds exactly the differences outside the fields that the server adds |
| `Reconciler.OwnedIff` | packages/k8s/src/reconcile.ts:85-119 | An object is taken for the run's own if and only if kind, version, name, namespace and every required label match |
| `Reconciler.OwnedInFull` | packages/k8s/src/reconcile.ts:85-119 | The same with every field and label by name: kind, version, name, namespace, `platform.io/managed` and `platform.io/run-id`, resource and attempt except for a Namespace, and the step key whenever the wanted object has one |
| `Reconciler.ReconciledInFull` | packages/k8s/src/reconcile.ts:37-151 | The whole reconciliation on plain objects, with the field names written out: create, refuse, leave alone, or update under the stored resource version |
| `Reconciler.OtherRunsAreLeftAlone` | packages/k8s/src/reconcile.ts:106-118 | Nothing is sent to an object whose run-id differs from the wanted one |
| `Reconciler.OwnedIffLabelled` | packages/k8s/src/reconcile.ts:105-118 | An object that differs from the wanted one only in server fields is recognised if and only if the wanted object carries its labels |
| `Reconciler.WritesExactlyWhenNeeded` | packages/k8s/src/reconcile.ts:37-72 | A write happens if and only if the object is missing, or is the run's own, may be updated and differs outside the server's fields; a foreign object is never written to |
| `Reconciler.SecondTimeIsQuiet` | packages/k8s/src/reconcile.ts:53-72 | After a faithful server stored a write, reconciling again writes nothing, and answers `unchanged` if and only if the wanted object carries its labels |
| `Reconciler.SecondPlanIsQuiet` | packages/k8s/src/reconcile.ts:74-83 | A plan of distinct, labelled objects that went through once goes through again without a single write |

## Left out

- Everything a step executor does (Kubernetes jobs, previews, Gitea, the registry, the agent's model): an executor is an arbitrary result, a throw or a death of the worker.
- Report and quality persistence, step details, Gitea status rows, logs and audit events: the consumer's writes to them do not feed back into what is modelled.
- WorkflowStore.DatabaseWorkflowStore.TransitionRun: does not set the started and finished times and the error code, which nothing modelled reads.
- WorkflowStore.DatabaseWorkflowStore.SetCleanupStatus: does not set the cleanup time and the cleanup error, which nothing modelled reads.
- WorkflowStore.DatabaseWorkflowStore.SetPreviewHost: does not set the preview expiry; retention's expiry test is a parameter of the sweep.
- Isolation levels and row locks: a transaction, and a trigger with the statement that fires it, is one atomic event; retry and admission are two events each because they decide under a lock before they write.
- Overlapping deliveries to one run in the whole-run theorems, and a rival active run there: the step lease, the outbox and the run table are proved under full interleaving instead, run by run. `RunLifecycle` covers the case that a trigger rewrites a status behind the worker's back.
- ConsumerLifecycle.DeliveriesKeepTheLifecycle: a delivery is one act among the other writers, with a cancellation at any point of it; `ConsumerInterleaving` has the single transactions.
- WorkflowDeaths.EveryRunFinishesDespiteDeaths: the queue delivers the job of a failed or broken-off delivery again without limit; the retry limit and the delay of the queue are configuration.
- WorkflowCancellation.CancellationCompletesExactly: a step that is RUNNING under a living worker, which may still come back, is not distinguished; deliveries to one run do not overlap here.
- A delivery cut off between the record of a step and what follows it in the same delivery: a cut inside the report's completion leaves a run that no redelivery finalizes. `ConsumerInterleaving` has such cuts.
- WorkflowRuns.IllegalRequestsExactly: starts from a fresh attempt of one run and does not let a retry of the same run begin meanwhile; stale deliveries of older attempts are ignored by the consumer anyway.
- Heartbeats in the sequential guard: between admission and finish they change only the lease; the lease machine has them.
- OutboxProtocol.WakeupsAreNotLost: a claim is one instant; the publisher computes its lease timestamp shortly before it takes the row's lock.
- Database guard keys and dedupe keys are taken as injective; hashing them into lock numbers is not modelled.
- `setExecutionPlan` reads and writes in one event; the store reads before it updates.
- Payload parsing: an outbox row holds a well-formed job or none.
- Diff lines whose blank context lost its leading space, paths that git quotes, and a tab after a path: the reader treats them as this model does, but well-formed diffs here do not contain them.
- DiffFormat.ReaderIsExact: added text that starts with `++ ` is excluded, because the parser reads it as a file header; hunk numbers stay below 2^53.
- Finding lines and range ends are natural numbers; fractions and NaN, which the schema refuses before, are not.
- Utf8Truncation.TruncateUtf8: a limit is an integer; a limit that is a fraction or NaN is refused by `truncateUtf8` and cannot be given here.
- The other truncation helpers, which cut bytes and decode and may add a replacement character.
- Members with the value `undefined`, numbers that print alike (0 and -0), and `toJSON`: a JSON value is what JSON text can hold.
- The redaction of secrets, which is defined by regular expressions.
- The queue client for agent reviews, whose late failures may delete a newer entry.
- HTTP, sessions, the web interface, configuration and object builders: easy members only.
