/** The API's writes: webhook admission, retry and cancellation. */
module Api {
  import opened WorkflowTypes
  import opened RunStatusContract
  import opened Tables

  // ---- Cancellation ----

  function CleanupJob(id: RunId, row: RunRow): Job {
    Job(id, row.currentAttempt, row.headSha, Cleanup)
  }

  /** `enqueueCleanup`: a missing row is inserted, an existing one is armed again, keeping its attempts. */
  function EnqueueCleanup(outbox: Outbox, id: RunId, row: RunRow, now: int): Outbox {
    var key := OutboxKey(id, Cleanup, row.currentAttempt);
    if key in outbox then
      outbox[key := outbox[key].(status := OutboxPending, availableAt := now, leaseUntil := None)]
    else
      outbox[key := OutboxRow(OutboxPending, now, 0, None, Some(CleanupJob(id, row)))]
  }

  datatype CancelAnswer = CancelAccepted | CancelNotFound | CancelConflict

  function CancelAnswerFor(runs: Runs, id: RunId): CancelAnswer {
    if id !in runs then CancelNotFound
    else if runs[id].status in {RunStatus.Cancelled, CancelRequested} || IsCancellable(runs[id].status) then
      CancelAccepted
    else CancelConflict
  }

  function CancelRuns(runs: Runs, id: RunId): Runs {
    if id in runs && IsCancellable(runs[id].status) then
      WriteStatus(runs, id, runs[id].(status := CancelRequested, cleanupStatus := CleanupPending))
    else
      runs
  }

  function CancelOutbox(runs: Runs, outbox: Outbox, id: RunId, now: int): Outbox {
    if id in runs && (runs[id].status == CancelRequested || IsCancellable(runs[id].status)) then
      EnqueueCleanup(outbox, id, runs[id], now)
    else
      outbox
  }

  predicate CanStop(runs: Runs, id: RunId) {
    id in runs && runs[id].status in {Queued, Planning, Executing, Analyzing, Reporting}
  }

  predicate IsStopping(runs: Runs, id: RunId) {
    id in runs && runs[id].status == CancelRequested
  }

  /** Nothing is left to cancel. */
  predicate IsOver(runs: Runs, id: RunId) {
    && id in runs
    && runs[id].status in
         {Received, RunStatus.Passed, RunStatus.Failed, RunStatus.Incomplete, RejectedByCapacity}
  }

  /** The row of this job waits for a publisher, with the attempts and the payload that it had, and no
      other row has changed. */
  predicate CleanupArmed(before: Outbox, after: Outbox, job: Job, now: int) {
    var key := OutboxKey(job.runId, job.stepKey, job.attempt);
    && key in after && after == before[key := after[key]]
    && after[key].status == OutboxPending && after[key].availableAt == now && after[key].leaseUntil == None
    && after[key].attempts == (if key in before then before[key].attempts else 0)
    && after[key].payload == (if key in before then before[key].payload else Some(job))
  }

  /** A cancelled run takes the execution slot, unless it was queued and the slot is taken. */
  lemma CancelledRow(runs: Runs, id: RunId)
    ensures id in runs && runs[id].status in {Queued, Planning, Executing, Analyzing, Reporting} ==>
      CancelRuns(runs, id) == runs[id := runs[id].(cleanupStatus := CleanupPending,
        status := if runs[id].status == Queued && HasActiveRun(runs) then RejectedByCapacity else CancelRequested)]
  {
    ActiveRunIff(runs);
    hide HasActiveRun;
  }

  // ---- Retry ----

  /** What the caller saw before the transaction. */
  datatype Snapshot = Snapshot(status: RunStatus, cleanupStatus: CleanupStatus, currentAttempt: nat)

  function SnapshotOf(row: RunRow): Snapshot {
    Snapshot(row.status, row.cleanupStatus, row.currentAttempt)
  }

  predicate HasRetryCapacity(active: nat, queued: nat, maxQueuedRuns: nat) {
    active < 1 && queued < maxQueuedRuns
  }

  /** The checks that `retry` makes under both of its locks. */
  predicate RetryAllowed(runs: Runs, id: RunId, seen: Snapshot, confirmed: bool, maxQueuedRuns: nat) {
    && id in runs
    && SnapshotOf(runs[id]) == seen
    && CanRetry(runs[id].status, runs[id].cleanupStatus, confirmed)
    && HasRetryCapacity(|ActiveIds(runs)|, |QueuedIds(runs)|, maxQueuedRuns)
  }

  /** The `where` clause of the retry update: the row still is what was checked. */
  predicate RetryMatches(runs: Runs, id: RunId, checked: RunRow) {
    && id in runs
    && runs[id].status == checked.status
    && runs[id].currentAttempt == checked.currentAttempt
    && runs[id].headSha == checked.headSha
  }

  function RetryRuns(runs: Runs, id: RunId): Runs
    requires id in runs
  {
    var row := runs[id];
    WriteStatus(runs, id, row.(status := Queued, verdict := None, currentAttempt := row.currentAttempt + 1,
                               cleanupStatus := NotScheduled, previewHost := None))
  }

  function DetectRow(id: RunId, attempt: nat, headSha: string, now: int): OutboxRow {
    OutboxRow(OutboxPending, now, 0, None, Some(Job(id, attempt, headSha, Detect)))
  }

  // ---- Webhook admission ----

  predicate RunExists(runs: Runs, pullRequest: string, headSha: string) {
    exists id :: id in runs && runs[id].pullRequest == pullRequest && runs[id].headSha == headSha
  }

  /** The admission decision, taken under the capacity lock. */
  function AdmissionStatus(runs: Runs): RunStatus {
    if |ActiveIds(runs)| >= MAX_ACTIVE_RUNS || |QueuedIds(runs)| >= MAX_QUEUED_RUNS then RejectedByCapacity else Queued
  }

  function NewRun(status: RunStatus, pullRequest: string, headSha: string): RunRow {
    RunRow(status, NotScheduled, 1, headSha, pullRequest, None, None, map[])
  }

  function InsertRun(runs: Runs, id: RunId, status: RunStatus, pullRequest: string, headSha: string): Runs {
    WriteStatus(runs, id, NewRun(status, pullRequest, headSha))
  }

  class RunController {
    const db: Database
    const maxQueuedRuns: nat

    constructor (db: Database, maxQueuedRuns: nat)
      ensures this.db == db && this.maxQueuedRuns == maxQueuedRuns
    {
      this.db := db;
      this.maxQueuedRuns := maxQueuedRuns;
    }

    method Cancel(id: RunId, now: int) returns (answer: CancelAnswer)
      modifies db`runs, db`outbox
      ensures answer == CancelAnswerFor(old(db.runs), id)
      ensures db.runs == CancelRuns(old(db.runs), id)
      ensures db.outbox == CancelOutbox(old(db.runs), old(db.outbox), id, now)
      // The same, spelled out: the answer, the run row, and its cleanup row.
      ensures answer == CancelNotFound <==> id !in old(db.runs)
      ensures answer == CancelConflict <==> IsOver(old(db.runs), id)
      ensures CanStop(old(db.runs), id) ==>
        var row := old(db.runs)[id];
        var rejected := row.status == Queued && HasActiveRun(old(db.runs));
        var status := if rejected then RejectedByCapacity else CancelRequested;
        db.runs == old(db.runs)[id := row.(status := status, cleanupStatus := CleanupPending)]
      ensures !CanStop(old(db.runs), id) ==> db.runs == old(db.runs)
      ensures CanStop(old(db.runs), id) || IsStopping(old(db.runs), id) ==>
        var row := old(db.runs)[id];
        CleanupArmed(old(db.outbox), db.outbox, Job(id, row.currentAttempt, row.headSha, Cleanup), now)
      ensures !CanStop(old(db.runs), id) && !IsStopping(old(db.runs), id) ==> db.outbox == old(db.outbox)
    {
      CancelledRow(db.runs, id);
      if id !in db.runs {
        return CancelNotFound;
      }
      var current := db.runs[id];
      if current.status == RunStatus.Cancelled {
        return CancelAccepted;
      }
      if current.status == CancelRequested {
        db.outbox := EnqueueCleanup(db.outbox, id, current, now);
        return CancelAccepted;
      }
      if !IsCancellable(current.status) {
        return CancelConflict;
      }
      db.StoreRun(id, current.(status := CancelRequested, cleanupStatus := CleanupPending));
      db.outbox := EnqueueCleanup(db.outbox, id, current, now);
      return CancelAccepted;
    }

    /** `seen` is the row the caller read before the transaction. */
    method Retry(id: RunId, seen: Snapshot, confirmed: bool, now: int) returns (accepted: bool)
      modifies db`runs, db`outbox
      ensures accepted == RetryAllowed(old(db.runs), id, seen, confirmed, maxQueuedRuns)
      ensures db.runs == if accepted then RetryRuns(old(db.runs), id) else old(db.runs)
      ensures accepted ==> id in old(db.runs) && var attempt := old(db.runs)[id].currentAttempt + 1;
        db.outbox ==
          old(db.outbox)[OutboxKey(id, Detect, attempt) := DetectRow(id, attempt, old(db.runs)[id].headSha, now)]
      ensures !accepted ==> db.outbox == old(db.outbox)
      ensures accepted <==>
        && id in old(db.runs)
        && old(db.runs)[id].status == seen.status && old(db.runs)[id].cleanupStatus == seen.cleanupStatus
        && old(db.runs)[id].currentAttempt == seen.currentAttempt
        && seen.status in {RunStatus.Failed, RunStatus.Incomplete}
        && (seen.cleanupStatus == Cleaned || (seen.cleanupStatus == CleanupFailed && confirmed))
        && !HasActiveRun(old(db.runs)) && CountQueued(old(db.runs)) < maxQueuedRuns
      ensures accepted ==>
        var row := old(db.runs)[id];
        var status := if CountQueued(old(db.runs)) >= 3 then RejectedByCapacity else Queued;
        && db.runs == old(db.runs)[id := RunRow(status, NotScheduled, row.currentAttempt + 1, row.headSha,
             row.pullRequest, None, None, row.executionPlan)]
        && db.outbox == old(db.outbox)[OutboxKey(id, Detect, row.currentAttempt + 1) :=
             OutboxRow(OutboxPending, now, 0, None, Some(Job(id, row.currentAttempt + 1, row.headSha, Detect)))]
    {
      ActiveRunIff(db.runs);
      if id !in db.runs {
        return false;
      }
      var current := db.runs[id];
      if current.status != seen.status || current.cleanupStatus != seen.cleanupStatus
        || current.currentAttempt != seen.currentAttempt {
        return false;
      }
      if !CanRetry(current.status, current.cleanupStatus, confirmed) {
        return false;
      }
      var active := |ActiveIds(db.runs)|;
      var queued := |QueuedIds(db.runs)|;
      if !HasRetryCapacity(active, queued, maxQueuedRuns) {
        return false;
      }
      var attempt := current.currentAttempt + 1;
      db.StoreRun(id,
        current.(status := Queued, verdict := None, currentAttempt := attempt, cleanupStatus := NotScheduled,
          previewHost := None));
      db.outbox := db.outbox[OutboxKey(id, Detect, attempt) := DetectRow(id, attempt, current.headSha, now)];
      return true;
    }
  }

  datatype AcceptAnswer = Duplicate | ReplayRejected | Created(status: RunStatus)

  /** `pullRequest` stands for the repository and the pull request in it. */
  datatype Payload = Payload(hash: string, externalNumber: int, headSha: string, pullRequest: string)

  /** What is kept of an accepted delivery. */
  datatype WebhookEvent = WebhookEvent(payloadHash: string, externalNumber: int, headSha: string)

  class WebhookService {
    const db: Database
    var deliveries: map<string, WebhookEvent>

    constructor (db: Database)
      ensures this.db == db && deliveries == map[]
    {
      this.db := db;
      deliveries := map[];
    }

    /** One delivery, in one transaction. `id` is the fresh run id it would use. */
    method Accept(deliveryId: string, payload: Payload, id: RunId, now: int) returns (answer: AcceptAnswer)
      requires id !in db.runs
      modifies db`runs, db`outbox, this`deliveries
      ensures deliveryId in old(deliveries) ==>
        && (answer == Duplicate || answer == ReplayRejected)
        && db.runs == old(db.runs) && db.outbox == old(db.outbox) && deliveries == old(deliveries)
      ensures answer == ReplayRejected <==> (
        && deliveryId in old(deliveries)
        && (|| old(deliveries)[deliveryId].payloadHash != payload.hash
            || old(deliveries)[deliveryId].externalNumber != payload.externalNumber
            || old(deliveries)[deliveryId].headSha != payload.headSha))
      ensures deliveryId !in old(deliveries) ==>
        deliveries ==
          old(deliveries)[deliveryId := WebhookEvent(payload.hash, payload.externalNumber, payload.headSha)]
      ensures deliveryId !in old(deliveries) && RunExists(old(db.runs), payload.pullRequest, payload.headSha) ==>
        answer == Duplicate && db.runs == old(db.runs) && db.outbox == old(db.outbox)
      ensures deliveryId !in old(deliveries) && !RunExists(old(db.runs), payload.pullRequest, payload.headSha) ==>
        var status := AdmissionStatus(old(db.runs));
        && db.runs == InsertRun(old(db.runs), id, status, payload.pullRequest, payload.headSha)
        && answer == Created(db.runs[id].status)
        && db.outbox ==
          if status == Queued then old(db.outbox)[OutboxKey(id, Detect, 1) := DetectRow(id, 1, payload.headSha, now)]
          else old(db.outbox)
      ensures answer.Created? <==>
        && deliveryId !in old(deliveries)
        && forall other :: other in old(db.runs) ==>
             old(db.runs)[other].pullRequest != payload.pullRequest || old(db.runs)[other].headSha != payload.headSha
      ensures answer.Created? ==>
        var full := HasActiveRun(old(db.runs)) || CountQueued(old(db.runs)) >= 3;
        && answer.status == (if full then RejectedByCapacity else Queued)
        && db.runs == old(db.runs)[id := RunRow(answer.status, NotScheduled, 1, payload.headSha, payload.pullRequest,
             None, None, map[])]
        && db.outbox == if full then old(db.outbox) else old(db.outbox)[OutboxKey(id, Detect, 1) :=
             OutboxRow(OutboxPending, now, 0, None, Some(Job(id, 1, payload.headSha, Detect)))]
    {
      ActiveRunIff(db.runs);
      if deliveryId in deliveries {
        var first := deliveries[deliveryId];
        if first.payloadHash != payload.hash || first.externalNumber != payload.externalNumber
          || first.headSha != payload.headSha {
          return ReplayRejected;
        }
        return Duplicate;
      }
      deliveries := deliveries[deliveryId := WebhookEvent(payload.hash, payload.externalNumber, payload.headSha)];
      if RunExists(db.runs, payload.pullRequest, payload.headSha) {
        return Duplicate;
      }
      var active := |ActiveIds(db.runs)|;
      var queued := |QueuedIds(db.runs)|;
      var status := if active >= 1 || queued >= 3 then RejectedByCapacity else Queued;
      db.StoreRun(id, NewRun(status, payload.pullRequest, payload.headSha));
      if status == Queued {
        db.outbox := db.outbox[OutboxKey(id, Detect, 1) := DetectRow(id, 1, payload.headSha, now)];
      }
      return Created(db.runs[id].status);
    }
  }
}
