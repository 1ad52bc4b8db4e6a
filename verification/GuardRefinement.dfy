/** Without overlapping calls the database guard and the process-local guard cannot be told
    apart by their outcomes, by the planner or by the verdict. */
module GuardRefinement {
  import opened WorkflowTypes
  import opened Tables
  import opened Plan
  import opened StepGuard

  datatype GuardCall =
    | RunCall(key: StepGuardKey, now: int, token: nat, operation: Operation)
    | SkipCall(key: StepGuardKey, reason: string)

  /** A call that comes back: the operation returns or throws, but the process does not die. */
  predicate ComesBack(call: GuardCall) {
    call.RunCall? ==> !call.operation.Crashes?
  }

  /** What a caller sees: the outcome of a run, or whether a skip was refused. */
  datatype Answer = RunAnswer(outcome: GuardOutcome) | SkipAnswer(refused: bool)

  function DatabaseCall(rows: StepRows, call: GuardCall): (Answer, StepRows) {
    match call
    case RunCall(key, now, token, operation) =>
      var (outcome, row) := RunOnce(RowOf(rows, key), key.stepKey, now, token, operation);
      (RunAnswer(outcome), Put(rows, key, row))
    case SkipCall(key, reason) =>
      var (refused, row) := MarkSkipped(RowOf(rows, key), key.stepKey, reason);
      (SkipAnswer(refused), Put(rows, key, row))
  }

  function MemoryCall(records: MemoryRecords, call: GuardCall): (Answer, MemoryRecords) {
    match call
    case RunCall(key, _, _, operation) =>
      var (outcome, after) := MemoryRunOnce(records, key, operation);
      (RunAnswer(outcome), after)
    case SkipCall(key, reason) =>
      var (refused, after) := MemoryMarkSkipped(records, key, reason);
      (SkipAnswer(refused), after)
  }

  function DatabaseCalls(rows: StepRows, calls: seq<GuardCall>): (seq<Answer>, StepRows)
    decreases |calls|
  {
    if calls == [] then ([], rows)
    else
      var (answer, after) := DatabaseCall(rows, calls[0]);
      var (answers, end) := DatabaseCalls(after, calls[1..]);
      ([answer] + answers, end)
  }

  function MemoryCalls(records: MemoryRecords, calls: seq<GuardCall>): (seq<Answer>, MemoryRecords)
    decreases |calls|
  {
    if calls == [] then ([], records)
    else
      var (answer, after) := MemoryCall(records, calls[0]);
      var (answers, end) := MemoryCalls(after, calls[1..]);
      ([answer] + answers, end)
  }

  /** Between calls nothing is RUNNING: a row handed back for retry corresponds to no record at
      all, and a settled row to a record of the same status. The failure kind of a skipped step may
      differ, because a skip keeps the kind of a failed cleanup in the database only. */
  ghost predicate KeyCorresponds(row: Option<StepRow>, record: Option<StepRecord>, step: StepKey) {
    if row == None || row.value.status == Pending then
      record == None && (row.Some? ==> row.value.failureKind == None)
    else
      && row.value.status != Running
      && record.Some? && record.value.stepKey == step && record.value.status == row.value.status
      && (row.value.status != StepStatus.Skipped ==> record.value.failureKind == row.value.failureKind)
  }

  function RecordAt(records: MemoryRecords, key: StepGuardKey): Option<StepRecord> {
    if key in records then Some(records[key]) else None
  }

  ghost predicate Corresponds(rows: StepRows, records: MemoryRecords) {
    forall key: StepGuardKey :: KeyCorresponds(RowOf(rows, key), RecordAt(records, key), key.stepKey)
  }

  lemma CallCorresponds(rows: StepRows, records: MemoryRecords, call: GuardCall)
    requires Corresponds(rows, records) && ComesBack(call)
    ensures DatabaseCall(rows, call).0 == MemoryCall(records, call).0
    ensures Corresponds(DatabaseCall(rows, call).1, MemoryCall(records, call).1)
  {
    assert KeyCorresponds(RowOf(rows, call.key), RecordAt(records, call.key), call.key.stepKey);
    var rows', records' := DatabaseCall(rows, call).1, MemoryCall(records, call).1;
    forall key: StepGuardKey
      ensures KeyCorresponds(RowOf(rows', key), RecordAt(records', key), key.stepKey)
    {
      assert KeyCorresponds(RowOf(rows, key), RecordAt(records, key), key.stepKey);
      if key != call.key {
        assert RowOf(rows', key) == RowOf(rows, key);
        assert RecordAt(records', key) == RecordAt(records, key);
      }
    }
  }

  lemma {:induction false} CallsCorrespond(rows: StepRows, records: MemoryRecords, calls: seq<GuardCall>)
    requires Corresponds(rows, records) && forall call :: call in calls ==> ComesBack(call)
    ensures DatabaseCalls(rows, calls).0 == MemoryCalls(records, calls).0
    ensures Corresponds(DatabaseCalls(rows, calls).1, MemoryCalls(records, calls).1)
    decreases |calls|
  {
    if calls != [] {
      CallCorresponds(rows, records, calls[0]);
      CallsCorrespond(DatabaseCall(rows, calls[0]).1, MemoryCall(records, calls[0]).1, calls[1..]);
    }
  }

  /** From empty guards, any sequence of calls that come back gives the same answers, and any two
      listings of the two guards give the same next action and the same verdict. */
  lemma GuardsAgree(calls: seq<GuardCall>, runId: RunId, attempt: nat, fromDatabase: seq<StepRecord>,
      fromMemory: seq<StepRecord>)
    requires forall call :: call in calls ==> ComesBack(call)
    requires Lists(fromDatabase, MarksOf(DatabaseCalls(map[], calls).1, runId, attempt))
    requires Lists(fromMemory, MemoryMarksOf(MemoryCalls(map[], calls).1, runId, attempt))
    ensures DatabaseCalls(map[], calls).0 == MemoryCalls(map[], calls).0
    ensures NextStepAction(fromDatabase) == NextStepAction(fromMemory)
    ensures DeriveFinalRunStatus(fromDatabase) == DeriveFinalRunStatus(fromMemory)
  {
    CallsCorrespond(map[], map[], calls);
    var rows, records := DatabaseCalls(map[], calls).1, MemoryCalls(map[], calls).1;
    var a, b := MarksOf(rows, runId, attempt), MemoryMarksOf(records, runId, attempt);
    forall step | Settled(a, step) || Settled(b, step)
      ensures step in a && step in b && a[step].status == b[step].status
      ensures a[step].status == StepStatus.Failed ==> a[step].failureKind == b[step].failureKind
    {
      var key := StepGuardKey(runId, attempt, step);
      assert KeyCorresponds(RowOf(rows, key), RecordAt(records, key), step);
    }
    OpenRecordsDecideNothing(a, b);
    PlanOfListing(fromDatabase, a);
    PlanOfListing(fromMemory, b);
    VerdictOfListing(fromDatabase, a);
    VerdictOfListing(fromMemory, b);
  }
}
