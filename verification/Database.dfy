/** The tables that the API and the worker share, and the two capacity triggers on `runs`. */
module Tables {
  import opened WorkflowTypes
  import opened RunStatusContract

  datatype RunRow = RunRow(
    status: RunStatus,
    cleanupStatus: CleanupStatus,
    currentAttempt: nat,
    headSha: string,
    pullRequest: string,
    verdict: Option<RunStatus>,
    previewHost: Option<string>,
    executionPlan: map<string, string>)

  datatype StepGuardKey = StepGuardKey(runId: RunId, attempt: nat, stepKey: StepKey)

  datatype StepRow = StepRow(
    status: StepStatus,
    failureKind: Option<FailureKind>,
    errorCode: Option<string>,
    leaseToken: Option<nat>,
    leaseUntil: Option<int>)

  datatype OutboxStatus = OutboxPending | OutboxPublished | OutboxFailed

  datatype OutboxKey = OutboxKey(runId: RunId, stepKey: StepKey, attempt: nat)

  /** `payload` is `None` when the stored JSON does not parse as a job. */
  datatype OutboxRow = OutboxRow(
    status: OutboxStatus,
    availableAt: int,
    attempts: nat,
    leaseUntil: Option<int>,
    payload: Option<Job>)

  type Runs = map<RunId, RunRow>
  type StepRows = map<StepGuardKey, StepRow>
  type Outbox = map<OutboxKey, OutboxRow>

  const MAX_ACTIVE_RUNS := 1
  const MAX_QUEUED_RUNS := 3

  function ActiveIds(runs: Runs): set<RunId> {
    set id | id in runs && IsActive(runs[id].status)
  }

  function QueuedIds(runs: Runs): set<RunId> {
    set id | id in runs && runs[id].status == Queued
  }

  // The same two counts, spelled out.

  predicate HasActiveRun(runs: Runs) {
    exists id :: id in runs && runs[id].status in {Planning, Executing, Analyzing, Reporting, CancelRequested}
  }

  lemma ActiveRunIff(runs: Runs)
    ensures HasActiveRun(runs) <==> |ActiveIds(runs)| >= 1
  {
    if id :| id in runs && runs[id].status in {Planning, Executing, Analyzing, Reporting, CancelRequested} {
      assert id in ActiveIds(runs);
    }
    if |ActiveIds(runs)| >= 1 {
      var id :| id in ActiveIds(runs);
    }
  }

  function CountQueued(runs: Runs): nat {
    |set id | id in runs && runs[id].status == Queued|
  }

  lemma QueuedIsCounted(runs: Runs)
    ensures CountQueued(runs) == |QueuedIds(runs)|
  {
    assert (set id | id in runs && runs[id].status == Queued) == QueuedIds(runs);
  }

  predicate IsUnderWay(status: RunStatus) {
    status in {Planning, Executing, Analyzing, Reporting, CancelRequested}
  }

  /** What the triggers leave of a status that is asked for: no second run gets under way, and no
      fourth one is queued. */
  function Granted(runs: Runs, before: Option<RunStatus>, asked: RunStatus): RunStatus {
    if IsUnderWay(asked) && (before == None || !IsUnderWay(before.value)) && HasActiveRun(runs) then RejectedByCapacity
    else if asked == Queued && before != Some(Queued) && CountQueued(runs) >= 3 then RejectedByCapacity
    else asked
  }

  /** `enforce_active_run_capacity`; `before` is `None` for an insert. */
  function ActiveTrigger(runs: Runs, before: Option<RunStatus>, status: RunStatus): RunStatus {
    if IsActive(status) && !(before.Some? && IsActive(before.value)) && |ActiveIds(runs)| >= MAX_ACTIVE_RUNS then
      RejectedByCapacity
    else
      status
  }

  /** `enforce_queued_run_capacity`. */
  function QueuedTrigger(runs: Runs, before: Option<RunStatus>, status: RunStatus): RunStatus {
    if status == Queued && before != Some(Queued) && |QueuedIds(runs)| >= MAX_QUEUED_RUNS then
      RejectedByCapacity
    else
      status
  }

  /** A write that sets the status column: both triggers fire before it, in name order. */
  function WriteStatus(runs: Runs, id: RunId, row: RunRow): Runs {
    var before := if id in runs then Some(runs[id].status) else None;
    runs[id := row.(status := QueuedTrigger(runs, before, ActiveTrigger(runs, before, row.status)))]
  }

  class Database {
    var runs: Runs
    var steps: StepRows
    var outbox: Outbox

    constructor ()
      ensures runs == map[] && steps == map[] && outbox == map[]
    {
      runs, steps, outbox := map[], map[], map[];
    }

    method EnforceActiveRunCapacity(before: Option<RunStatus>, asked: RunStatus) returns (status: RunStatus)
      ensures status == ActiveTrigger(runs, before, asked)
    {
      if asked in {Planning, Executing, Analyzing, Reporting, CancelRequested} {
        if before.Some? && IsActive(before.value) {
          return asked;
        }
        var count := |ActiveIds(runs)|;
        if count >= MAX_ACTIVE_RUNS {
          return RejectedByCapacity;
        }
      }
      return asked;
    }

    method EnforceQueuedRunCapacity(before: Option<RunStatus>, asked: RunStatus) returns (status: RunStatus)
      ensures status == QueuedTrigger(runs, before, asked)
    {
      if asked == Queued {
        if before == Some(asked) {
          return asked;
        }
        var count := |QueuedIds(runs)|;
        if count >= MAX_QUEUED_RUNS {
          return RejectedByCapacity;
        }
      }
      return asked;
    }

    /** Insert or update a row with its status column: `runs_enforce_active_capacity` fires before
        `runs_enforce_queued_capacity`. */
    method StoreRun(id: RunId, row: RunRow)
      modifies this`runs
      ensures runs == WriteStatus(old(runs), id, row)
      ensures var before := if id in old(runs) then Some(old(runs)[id].status) else None;
        runs == old(runs)[id := row.(status := Granted(old(runs), before, row.status))]
    {
      ActiveRunIff(runs);
      QueuedIsCounted(runs);
      var before := if id in runs then Some(runs[id].status) else None;
      var status := EnforceActiveRunCapacity(before, row.status);
      status := EnforceQueuedRunCapacity(before, status);
      runs := runs[id := row.(status := status)];
    }
  }
}
