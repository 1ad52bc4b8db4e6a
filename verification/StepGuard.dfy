/** The step guard: one row per run, attempt and step, taken by a lease.
    The row functions below are the bodies of the guard's transactions on one row; the classes
    apply them to the tables, and module StepLease interleaves them. */
module StepGuard {
  import opened WorkflowTypes
  import opened Tables
  import opened Plan

  const STALE_STEP_MS: int := 20 * 60 * 1000

  /** A failed cleanup may run again; every other settled step is final. */
  predicate IsTerminalForRetry(step: StepKey, status: StepStatus) {
    status.Settled() && !(step == Cleanup && status in {StepStatus.Failed, StepStatus.Incomplete})
  }

  datatype Admission = WasTerminal(status: StepStatus) | LeaseBusy | Admitted

  /** The admission transaction of `runOnce`. */
  function Admit(row: Option<StepRow>, step: StepKey, now: int, token: nat): (Admission, Option<StepRow>) {
    if row.Some? && IsTerminalForRetry(step, row.value.status) then
      (WasTerminal(row.value.status), row)
    else if row.Some? && row.value.status == Running && row.value.leaseUntil.Some?
      && row.value.leaseUntil.value > now then
      (LeaseBusy, row)
    else
      (Admitted, Some(StepRow(Running, None, None, Some(token), Some(now + STALE_STEP_MS))))
  }

  /** The row is RUNNING under this token: the `where` clause of the heartbeat and of the finish. */
  predicate Holds(row: Option<StepRow>, token: nat) {
    row.Some? && row.value.status == Running && row.value.leaseToken == Some(token)
  }

  function Heartbeat(row: Option<StepRow>, now: int, token: nat): Option<StepRow> {
    if Holds(row, token) then Some(row.value.(leaseUntil := Some(now + STALE_STEP_MS))) else row
  }

  /** What `dbResult` stores; a passed step leaves the columns that admission cleared. */
  function Finish(row: Option<StepRow>, token: nat, result: StepResult): Option<StepRow> {
    if !Holds(row, token) then row
    else if result.StepPassed? then Some(row.value.(status := StepStatus.Passed, leaseToken := None,
      leaseUntil := None))
    else Some(StepRow(result.Status(), result.Kind(), result.Code(), None, None))
  }

  /** The `catch` block of `runOnce`: hand the row back, if the token still matches. */
  function Reset(row: Option<StepRow>, token: nat): Option<StepRow> {
    if row.Some? && row.value.leaseToken == Some(token) then
      Some(StepRow(Pending, None, Some("STEP_RETRYABLE_ERROR"), None, None))
    else
      row
  }

  /** `markSkipped`; the flag is the "step is running" error. */
  function MarkSkipped(row: Option<StepRow>, step: StepKey, reason: string): (bool, Option<StepRow>) {
    if row.Some? && IsTerminalForRetry(step, row.value.status) then (false, row)
    else if row.Some? && row.value.status == Running then (true, row)
    else if row.Some? then
      (false, Some(row.value.(status := StepStatus.Skipped, errorCode := Some(reason), leaseToken := None,
        leaseUntil := None)))
    else
      (false, Some(StepRow(StepStatus.Skipped, None, Some(reason), None, None)))
  }

  /** How a guarded operation ends. A crash may come after a last heartbeat. */
  datatype Operation = Returns(result: StepResult) | Throws | Crashes(lastBeat: Option<int>)

  datatype GuardOutcome = Executed(result: StepResult) | AlreadyTerminal(status: StepStatus) | Busy | Threw | Died

  /** A whole `runOnce` that no other call overlaps. */
  function RunOnce(row: Option<StepRow>, step: StepKey, now: int, token: nat, operation: Operation)
      : (GuardOutcome, Option<StepRow>) {
    var (admission, admitted) := Admit(row, step, now, token);
    match admission
    case WasTerminal(status) => (AlreadyTerminal(status), row)
    case LeaseBusy => (Busy, row)
    case Admitted =>
      match operation
      case Returns(result) => (Executed(result), Finish(admitted, token, result))
      case Throws => (Threw, Reset(admitted, token))
      case Crashes(beat) => (Died, if beat.Some? then Heartbeat(admitted, beat.value, token) else admitted)
  }

  function RowOf(rows: StepRows, key: StepGuardKey): Option<StepRow> {
    if key in rows then Some(rows[key]) else None
  }

  /** No transaction of the guard deletes a row. */
  function Put(rows: StepRows, key: StepGuardKey, row: Option<StepRow>): StepRows {
    if row.Some? then rows[key := row.value] else rows
  }

  function RecordOf(step: StepKey, row: StepRow): StepRecord {
    StepRecord(step, row.status, row.failureKind, row.errorCode)
  }

  /** The marks of one attempt of one run. */
  function MarksOf(rows: StepRows, runId: RunId, attempt: nat): Marks {
    map step: StepKey | StepGuardKey(runId, attempt, step) in rows ::
      Mark(rows[StepGuardKey(runId, attempt, step)].status, rows[StepGuardKey(runId, attempt, step)].failureKind)
  }

  /** A final record; a cleanup that did not pass is none. */
  predicate IsFinal(rows: StepRows, key: StepGuardKey) {
    && key in rows
    && (rows[key].status in {StepStatus.Passed, StepStatus.Skipped, StepStatus.Cancelled}
        || (rows[key].status in {StepStatus.Failed, StepStatus.Incomplete} && key.stepKey != Cleanup))
  }

  /** Some call holds the step, and its lease is not over. */
  predicate IsLeased(rows: StepRows, key: StepGuardKey, now: int) {
    key in rows && rows[key].status == Running && rows[key].leaseUntil.Some? && now < rows[key].leaseUntil.value
  }

  predicate IsHeldBy(rows: StepRows, key: StepGuardKey, token: nat) {
    key in rows && rows[key].status == Running && rows[key].leaseToken == Some(token)
  }

  class DatabaseStepGuard {
    const db: Database

    constructor (db: Database)
      ensures this.db == db
    {
      this.db := db;
    }

    method AdmitTransaction(key: StepGuardKey, now: int, token: nat) returns (admission: Admission)
      modifies db`steps
      ensures (admission, RowOf(db.steps, key)) == Admit(RowOf(old(db.steps), key), key.stepKey, now, token)
      ensures db.steps == Put(old(db.steps), key, RowOf(db.steps, key))
      // The same, spelled out: a lease of twenty minutes.
      ensures if IsFinal(old(db.steps), key) then
          admission == WasTerminal(old(db.steps)[key].status) && db.steps == old(db.steps)
        else if IsLeased(old(db.steps), key, now) then
          admission == LeaseBusy && db.steps == old(db.steps)
        else
          && admission == Admitted
          && db.steps == old(db.steps)[key := StepRow(Running, None, None, Some(token), Some(now + 1200000))]
    {
      if key in db.steps {
        var row := db.steps[key];
        if IsTerminalForRetry(key.stepKey, row.status) {
          return WasTerminal(row.status);
        }
        if row.status == Running && row.leaseUntil.Some? && row.leaseUntil.value > now {
          return LeaseBusy;
        }
      }
      db.steps := db.steps[key := StepRow(Running, None, None, Some(token), Some(now + STALE_STEP_MS))];
      return Admitted;
    }

    method HeartbeatUpdate(key: StepGuardKey, now: int, token: nat) returns (updated: bool)
      modifies db`steps
      ensures updated == Holds(RowOf(old(db.steps), key), token)
      ensures db.steps == Put(old(db.steps), key, Heartbeat(RowOf(old(db.steps), key), now, token))
      ensures updated <==> IsHeldBy(old(db.steps), key, token)
      ensures db.steps ==
        if IsHeldBy(old(db.steps), key, token)
        then old(db.steps)[key := old(db.steps)[key].(leaseUntil := Some(now + 1200000))] else old(db.steps)
    {
      updated := key in db.steps && db.steps[key].status == Running && db.steps[key].leaseToken == Some(token);
      if updated {
        db.steps := db.steps[key := db.steps[key].(leaseUntil := Some(now + STALE_STEP_MS))];
      }
    }

    method FinishTransaction(key: StepGuardKey, token: nat, result: StepResult) returns (updated: bool)
      modifies db`steps
      ensures updated == Holds(RowOf(old(db.steps), key), token)
      ensures db.steps == Put(old(db.steps), key, Finish(RowOf(old(db.steps), key), token, result))
      ensures updated <==> IsHeldBy(old(db.steps), key, token)
      ensures !IsHeldBy(old(db.steps), key, token) ==> db.steps == old(db.steps)
      ensures IsHeldBy(old(db.steps), key, token) ==>
        db.steps == old(db.steps)[key :=
          match result
          case StepPassed =>
            old(db.steps)[key].(status := StepStatus.Passed, leaseToken := None, leaseUntil := None)
          case StepFailed(kind, code) => StepRow(StepStatus.Failed, Some(kind), Some(code), None, None)
          case StepIncomplete(kind, code) => StepRow(StepStatus.Incomplete, Some(kind), Some(code), None, None)]
    {
      updated := key in db.steps && db.steps[key].status == Running && db.steps[key].leaseToken == Some(token);
      if updated {
        var row := db.steps[key].(status := result.Status(), leaseToken := None, leaseUntil := None);
        if !result.StepPassed? {
          row := row.(failureKind := Some(result.kind), errorCode := Some(result.errorCode));
        }
        db.steps := db.steps[key := row];
      }
    }

    method ResetUpdate(key: StepGuardKey, token: nat)
      modifies db`steps
      ensures db.steps == Put(old(db.steps), key, Reset(RowOf(old(db.steps), key), token))
      ensures db.steps ==
        if key in old(db.steps) && old(db.steps)[key].leaseToken == Some(token)
        then old(db.steps)[key := StepRow(Pending, None, Some("STEP_RETRYABLE_ERROR"), None, None)] else old(db.steps)
    {
      if key in db.steps && db.steps[key].leaseToken == Some(token) {
        db.steps := db.steps[key := StepRow(Pending, None, Some("STEP_RETRYABLE_ERROR"), None, None)];
      }
    }

    method RunOnceGuarded(key: StepGuardKey, now: int, token: nat, operation: Operation) returns (outcome: GuardOutcome)
      modifies db`steps
      ensures outcome == RunOnce(RowOf(old(db.steps), key), key.stepKey, now, token, operation).0
      ensures db.steps ==
        Put(old(db.steps), key, RunOnce(RowOf(old(db.steps), key), key.stepKey, now, token, operation).1)
      // The same, spelled out.
      ensures IsFinal(old(db.steps), key) ==>
        outcome == AlreadyTerminal(old(db.steps)[key].status) && db.steps == old(db.steps)
      ensures !IsFinal(old(db.steps), key) && IsLeased(old(db.steps), key, now) ==>
        outcome == Busy && db.steps == old(db.steps)
      ensures !IsFinal(old(db.steps), key) && !IsLeased(old(db.steps), key, now) ==>
        && outcome == (match operation case Returns(result) => Executed(result) case Throws => Threw
                       case Crashes(_) => Died)
        && db.steps == old(db.steps)[key :=
             match operation
             case Returns(StepPassed) => StepRow(StepStatus.Passed, None, None, None, None)
             case Returns(StepFailed(kind, code)) => StepRow(StepStatus.Failed, Some(kind), Some(code), None, None)
             case Returns(StepIncomplete(kind, code)) =>
               StepRow(StepStatus.Incomplete, Some(kind), Some(code), None, None)
             case Throws => StepRow(Pending, None, Some("STEP_RETRYABLE_ERROR"), None, None)
             case Crashes(beat) =>
               StepRow(Running, None, None, Some(token), Some(1200000 + if beat.Some? then beat.value else now))]
    {
      var admission := AdmitTransaction(key, now, token);
      match admission {
        case LeaseBusy => return Busy;
        case WasTerminal(status) => return AlreadyTerminal(status);
        case Admitted =>
      }
      match operation {
        case Returns(result) =>
          // Without an overlapping call the row is still held, so the finish cannot miss it.
          var updated := FinishTransaction(key, token, result);
          assert updated;
          return Executed(result);
        case Throws =>
          ResetUpdate(key, token);
          return Threw;
        case Crashes(beat) =>
          if beat.Some? {
            var _ := HeartbeatUpdate(key, beat.value, token);
          }
          return Died;
      }
    }

    method MarkStepSkipped(key: StepGuardKey, reason: string) returns (wasRunning: bool)
      modifies db`steps
      ensures wasRunning == MarkSkipped(RowOf(old(db.steps), key), key.stepKey, reason).0
      ensures db.steps == Put(old(db.steps), key, MarkSkipped(RowOf(old(db.steps), key), key.stepKey, reason).1)
      ensures wasRunning <==> key in old(db.steps) && old(db.steps)[key].status == Running
      ensures IsFinal(old(db.steps), key) || wasRunning ==> db.steps == old(db.steps)
      ensures !IsFinal(old(db.steps), key) && !wasRunning ==>
        && key in db.steps && db.steps == old(db.steps)[key := db.steps[key]]
        && db.steps[key].status == StepStatus.Skipped && db.steps[key].errorCode == Some(reason)
        && db.steps[key].leaseToken == None && db.steps[key].leaseUntil == None
        && db.steps[key].failureKind == (if key in old(db.steps) then old(db.steps)[key].failureKind else None)
    {
      if key in db.steps {
        var row := db.steps[key];
        if IsTerminalForRetry(key.stepKey, row.status) {
          return false;
        }
        if row.status == Running {
          return true;
        }
        db.steps := db.steps[key := row.(status := StepStatus.Skipped, errorCode := Some(reason), leaseToken := None,
          leaseUntil := None)];
      } else {
        db.steps := db.steps[key := StepRow(StepStatus.Skipped, None, Some(reason), None, None)];
      }
      return false;
    }

    /** The rows of one attempt, in whatever order the database returns them. */
    method List(runId: RunId, attempt: nat) returns (records: seq<StepRecord>)
      ensures Lists(records, MarksOf(db.steps, runId, attempt))
      ensures forall r :: r in records ==>
        StepGuardKey(runId, attempt, r.stepKey) in db.steps
          && r == RecordOf(r.stepKey, db.steps[StepGuardKey(runId, attempt, r.stepKey)])
      ensures forall r :: r in records ==>
        var key := StepGuardKey(runId, attempt, r.stepKey);
        && key in db.steps && r.status == db.steps[key].status && r.failureKind == db.steps[key].failureKind
        && r.errorCode == db.steps[key].errorCode
      ensures forall i, j :: 0 <= i < j < |records| ==> records[i].stepKey != records[j].stepKey
    {
      records := [];
      var rest := set step: StepKey | StepGuardKey(runId, attempt, step) in db.steps;
      while rest != {}
        invariant forall step :: step in rest ==> StepGuardKey(runId, attempt, step) in db.steps
        invariant forall r :: r in records ==> r.stepKey !in rest
        invariant forall r :: r in records ==>
          StepGuardKey(runId, attempt, r.stepKey) in db.steps
            && r == RecordOf(r.stepKey, db.steps[StepGuardKey(runId, attempt, r.stepKey)])
        invariant forall step: StepKey :: StepGuardKey(runId, attempt, step) in db.steps ==>
          step in rest || exists r :: r in records && r.stepKey == step
        invariant forall i, j :: 0 <= i < j < |records| ==> records[i].stepKey != records[j].stepKey
        decreases |rest|
      {
        var step :| step in rest;
        var record := RecordOf(step, db.steps[StepGuardKey(runId, attempt, step)]);
        ghost var before := records;
        records := records + [record];
        rest := rest - {step};
        assert record in records;
        assert forall r :: r in before ==> r in records;
      }
    }
  }

  // ---- The process-local guard ----

  type MemoryRecords = map<StepGuardKey, StepRecord>

  function MapResult(step: StepKey, result: StepResult): StepRecord {
    StepRecord(step, result.Status(), result.Kind(), result.Code())
  }

  function MemoryRunOnce(records: MemoryRecords, key: StepGuardKey, operation: Operation)
      : (GuardOutcome, MemoryRecords) {
    if key in records && IsTerminalForRetry(key.stepKey, records[key].status)
    then (AlreadyTerminal(records[key].status), records)
    else if key in records && records[key].status == Running then (Busy, records)
    else
      match operation
      case Returns(result) => (Executed(result), records[key := MapResult(key.stepKey, result)])
      case Throws => (Threw, records - {key})
      case Crashes(_) => (Died, records[key := StepRecord(key.stepKey, Running, None, None)])
  }

  /** The reason takes the place of an error code in the record, as it does in the database. */
  function MemoryMarkSkipped(records: MemoryRecords, key: StepGuardKey, reason: string): (bool, MemoryRecords) {
    if key in records && IsTerminalForRetry(key.stepKey, records[key].status) then (false, records)
    else if key in records && records[key].status == Running then (true, records)
    else (false, records[key := StepRecord(key.stepKey, StepStatus.Skipped, None, Some(reason))])
  }

  function MemoryMarksOf(records: MemoryRecords, runId: RunId, attempt: nat): Marks {
    map step: StepKey | StepGuardKey(runId, attempt, step) in records ::
      Mark(records[StepGuardKey(runId, attempt, step)].status, records[StepGuardKey(runId, attempt, step)].failureKind)
  }

  predicate IsFinalRecord(records: MemoryRecords, key: StepGuardKey) {
    && key in records
    && (records[key].status in {StepStatus.Passed, StepStatus.Skipped, StepStatus.Cancelled}
        || (records[key].status in {StepStatus.Failed, StepStatus.Incomplete} && key.stepKey != Cleanup))
  }

  class InMemoryStepGuard {
    var records: MemoryRecords

    constructor ()
      ensures records == map[]
    {
      records := map[];
    }

    method RunOnceGuarded(key: StepGuardKey, operation: Operation) returns (outcome: GuardOutcome)
      modifies this
      ensures (outcome, records) == MemoryRunOnce(old(records), key, operation)
      ensures IsFinalRecord(old(records), key) ==>
        outcome == AlreadyTerminal(old(records)[key].status) && records == old(records)
      ensures key in old(records) && old(records)[key].status == Running ==>
        outcome == Busy && records == old(records)
      ensures !IsFinalRecord(old(records), key) && (key in old(records) ==> old(records)[key].status != Running) ==>
        match operation
        case Returns(result) =>
          && outcome == Executed(result)
          && records == old(records)[key :=
               match result
               case StepPassed => StepRecord(key.stepKey, StepStatus.Passed, None, None)
               case StepFailed(kind, code) => StepRecord(key.stepKey, StepStatus.Failed, Some(kind), Some(code))
               case StepIncomplete(kind, code) =>
                 StepRecord(key.stepKey, StepStatus.Incomplete, Some(kind), Some(code))]
        case Throws => outcome == Threw && records == old(records) - {key}
        case Crashes(_) =>
          outcome == Died && records == old(records)[key := StepRecord(key.stepKey, Running, None, None)]
    {
      if key in records {
        if IsTerminalForRetry(key.stepKey, records[key].status) {
          return AlreadyTerminal(records[key].status);
        }
        if records[key].status == Running {
          return Busy;
        }
      }
      records := records[key := StepRecord(key.stepKey, Running, None, None)];
      match operation {
        case Returns(result) =>
          records := records[key := MapResult(key.stepKey, result)];
          assert records == old(records)[key := MapResult(key.stepKey, result)];
          return Executed(result);
        case Throws =>
          records := records - {key};
          assert records == old(records) - {key};
          return Threw;
        case Crashes(_) =>
          return Died;
      }
    }

    method MarkStepSkipped(key: StepGuardKey, reason: string) returns (wasRunning: bool)
      modifies this
      ensures (wasRunning, records) == MemoryMarkSkipped(old(records), key, reason)
      ensures wasRunning <==> key in old(records) && old(records)[key].status == Running
      ensures records ==
        if IsFinalRecord(old(records), key) || wasRunning then old(records)
        else old(records)[key := StepRecord(key.stepKey, StepStatus.Skipped, None, Some(reason))]
    {
      if key in records {
        if IsTerminalForRetry(key.stepKey, records[key].status) {
          return false;
        }
        if records[key].status == Running {
          return true;
        }
      }
      records := records[key := StepRecord(key.stepKey, StepStatus.Skipped, None, Some(reason))];
      return false;
    }
  }
}
