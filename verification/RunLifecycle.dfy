/** The run table under all its writers: webhook admission, retry, cancellation, the worker's
    guarded writes and the two capacity triggers, interleaved in any order. A transaction is one
    event, except for the two that decide under the run-capacity lock: admission and retry read and
    decide in one event and write in a later one, and anything may commit in between. */
module RunLifecycle {
  import opened WorkflowTypes
  import opened RunStatusContract
  import opened Tables
  import opened StepGuard
  import opened WorkflowStore
  import opened Api

  /** The transaction that holds the run-capacity lock, with what it decided under it. A retry
      holds the lock of its run too. */
  datatype Holder =
    | Nobody
    | Admitting(pullRequest: string, headSha: string, decided: RunStatus)
    | Retrying(id: RunId, checked: RunRow)

  /** `seenPassed` are the cleanup records that some worker saw PASSED: only such a worker writes CLEANED. */
  datatype System = System(
    runs: Runs,
    steps: StepRows,
    outbox: Outbox,
    capacityLock: Holder,
    seenPassed: set<StepGuardKey>,
    maxQueuedRuns: nat)

  datatype GuardCall =
    | Admits(now: int, token: nat)
    | Beats(now: int, token: nat)
    | Finishes(token: nat, result: StepResult)
    | Resets(token: nat)
    | Skips(reason: string)

  datatype Event =
    | AdmitBegin(pullRequest: string, headSha: string)
    | AdmitCommit(id: RunId, now: int)
    | RetryBegin(id: RunId, seen: Snapshot, confirmed: bool)
    | RetryCommit(now: int)
    | Rollback
    | CancelRun(id: RunId, now: int)
    | WorkerWrite(id: RunId, attempt: nat, headSha: string, write: StoreWrite)
    | CallGuard(key: StepGuardKey, call: GuardCall)
    | SeePassed(key: StepGuardKey)
    | PublisherWrite(entry: OutboxKey, status: OutboxStatus, availableAt: int, attempts: nat, leaseUntil: Option<int>)
    | RetentionArms(id: RunId, now: int)

  function Start(maxQueuedRuns: nat): System {
    System(map[], map[], map[], Nobody, {}, maxQueuedRuns)
  }

  /** The run lock is taken by the retry that waits to commit. */
  predicate Locked(s: System, id: RunId) {
    s.capacityLock.Retrying? && s.capacityLock.id == id
  }

  function GuardRow(row: Option<StepRow>, step: StepKey, call: GuardCall): Option<StepRow> {
    match call
    case Admits(now, token) => Admit(row, step, now, token).1
    case Beats(now, token) => Heartbeat(row, now, token)
    case Finishes(token, result) => Finish(row, token, result)
    case Resets(token) => Reset(row, token)
    case Skips(reason) => MarkSkipped(row, step, reason).1
  }

  predicate CleanupPassed(steps: StepRows, id: RunId, attempt: nat) {
    var key := StepGuardKey(id, attempt, Cleanup);
    key in steps && steps[key].status == StepStatus.Passed
  }

  /** A duplicate (pull request, head commit) breaks a unique constraint and rolls back. */
  function CommitAdmission(s: System, id: RunId, now: int): System
    requires s.capacityLock.Admitting?
  {
    var t := s.capacityLock;
    if RunExists(s.runs, t.pullRequest, t.headSha) then s.(capacityLock := Nobody)
    else
      s.(runs := InsertRun(s.runs, id, t.decided, t.pullRequest, t.headSha),
         outbox := if t.decided == Queued then s.outbox[OutboxKey(id, Detect, 1) := DetectRow(id, 1, t.headSha, now)]
           else s.outbox,
         capacityLock := Nobody)
  }

  /** A row that is not as it was checked, or a detect job that exists already, rolls back. */
  function CommitRetry(s: System, now: int): System
    requires s.capacityLock.Retrying?
  {
    var t := s.capacityLock;
    var attempt := t.checked.currentAttempt + 1;
    if !RetryMatches(s.runs, t.id, t.checked) || OutboxKey(t.id, Detect, attempt) in s.outbox
    then s.(capacityLock := Nobody)
    else
      s.(runs := RetryRuns(s.runs, t.id),
         outbox := s.outbox[OutboxKey(t.id, Detect, attempt) := DetectRow(t.id, attempt, t.checked.headSha, now)],
         capacityLock := Nobody)
  }

  predicate MayWrite(s: System, e: Event)
    requires e.WorkerWrite?
  {
    && (e.write.Transition? ==> !Locked(s, e.id))
    && (e.write == SetCleanup(Cleaned) ==> StepGuardKey(e.id, e.attempt, Cleanup) in s.seenPassed)
  }

  /** One event; an event that is not enabled changes nothing. */
  function Step(s: System, e: Event): System {
    match e
    case AdmitBegin(pullRequest, headSha) =>
      if s.capacityLock.Nobody? then s.(capacityLock := Admitting(pullRequest, headSha, AdmissionStatus(s.runs))) else s
    case AdmitCommit(id, now) =>
      if s.capacityLock.Admitting? && id !in s.runs then CommitAdmission(s, id, now) else s
    case RetryBegin(id, seen, confirmed) =>
      if s.capacityLock.Nobody? && RetryAllowed(s.runs, id, seen, confirmed, s.maxQueuedRuns) then
        s.(capacityLock := Retrying(id, s.runs[id]))
      else
        s
    case RetryCommit(now) => if s.capacityLock.Retrying? then CommitRetry(s, now) else s
    case Rollback => s.(capacityLock := Nobody)
    case CancelRun(id, now) =>
      if Locked(s, id) then s
      else s.(runs := CancelRuns(s.runs, id), outbox := CancelOutbox(s.runs, s.outbox, id, now))
    case WorkerWrite(id, attempt, headSha, write) =>
      if MayWrite(s, e) then s.(runs := Write(s.runs, id, attempt, headSha, write).0) else s
    case CallGuard(key, call) =>
      s.(steps := Put(s.steps, key, GuardRow(RowOf(s.steps, key), key.stepKey, call)))
    case SeePassed(key) =>
      if key.stepKey == Cleanup && CleanupPassed(s.steps, key.runId, key.attempt)
      then s.(seenPassed := s.seenPassed + {key}) else s
    case PublisherWrite(entry, status, availableAt, attempts, leaseUntil) =>
      if entry in s.outbox then
        s.(outbox := s.outbox[entry := s.outbox[entry].(status := status, availableAt := availableAt,
          attempts := attempts, leaseUntil := leaseUntil)])
      else
        s
    case RetentionArms(id, now) =>
      if id in s.runs then s.(outbox := EnqueueCleanup(s.outbox, id, s.runs[id], now)) else s
  }

  function Run(s: System, events: seq<Event>): System
    decreases |events|
  {
    if events == [] then s else Run(Step(s, events[0]), events[1..])
  }

  // ---- Counting ----

  lemma SizeWithout<T>(s: set<T>, x: T)
    ensures |s| == |s - {x}| + (if x in s then 1 else 0)
  {
    if x in s {
      assert s == (s - {x}) + {x};
    } else {
      assert s == s - {x};
    }
  }

  /** Sets that differ in one element at most. */
  lemma SizesDiffer<T>(s: set<T>, t: set<T>, x: T)
    requires s - {x} == t - {x}
    ensures |t| == |s| - (if x in s then 1 else 0) + (if x in t then 1 else 0)
  {
    SizeWithout(s, x);
    SizeWithout(t, x);
  }

  lemma OthersStayActive(runs: Runs, id: RunId, row: RunRow)
    ensures ActiveIds(runs[id := row]) - {id} == ActiveIds(runs) - {id}
    ensures id in ActiveIds(runs[id := row]) <==> IsActive(row.status)
    ensures id in ActiveIds(runs) <==> id in runs && IsActive(runs[id].status)
  {
    hide IsActive;
  }

  lemma ActiveAfter(runs: Runs, id: RunId, row: RunRow)
    ensures |ActiveIds(runs[id := row])| ==
      |ActiveIds(runs)| - (if id in runs && IsActive(runs[id].status) then 1 else 0)
      + (if IsActive(row.status) then 1 else 0)
  {
    hide IsActive, ActiveIds;
    OthersStayActive(runs, id, row);
    SizesDiffer(ActiveIds(runs), ActiveIds(runs[id := row]), id);
  }

  lemma OthersStayQueued(runs: Runs, id: RunId, row: RunRow)
    ensures QueuedIds(runs[id := row]) - {id} == QueuedIds(runs) - {id}
    ensures id in QueuedIds(runs[id := row]) <==> row.status == Queued
    ensures id in QueuedIds(runs) <==> id in runs && runs[id].status == Queued
  {}

  lemma QueuedAfter(runs: Runs, id: RunId, row: RunRow)
    ensures |QueuedIds(runs[id := row])| ==
      |QueuedIds(runs)| - (if id in runs && runs[id].status == Queued then 1 else 0)
      + (if row.status == Queued then 1 else 0)
  {
    hide QueuedIds;
    OthersStayQueued(runs, id, row);
    SizesDiffer(QueuedIds(runs), QueuedIds(runs[id := row]), id);
  }

  // ---- How one row changes ----

  /** The moves that a run row makes within one attempt: the transition table, what the API adds
      to it, and what the triggers store instead. */
  function StoredMoves(from: RunStatus): set<RunStatus> {
    match from
    case Queued => {Planning, CancelRequested, RejectedByCapacity}
    case Planning => {Executing, Analyzing, RunStatus.Incomplete, CancelRequested}
    case Executing => {Analyzing, RunStatus.Incomplete, CancelRequested}
    case Analyzing => {Reporting, RunStatus.Incomplete, CancelRequested}
    case Reporting => {RunStatus.Passed, RunStatus.Failed, RunStatus.Incomplete, CancelRequested}
    case CancelRequested => {RunStatus.Cancelled}
    case _ => {}
  }

  function VerdictFor(status: RunStatus): Option<RunStatus> {
    if IsVerdict(status) then Some(status) else None
  }

  predicate RowFits(row: RunRow) {
    && row.status != Received
    && row.currentAttempt >= 1
    && row.verdict == VerdictFor(row.status)
  }

  predicate Retried(before: RunRow, after: RunRow) {
    && before.status in {RunStatus.Failed, RunStatus.Incomplete}
    && after.status == Queued
    && after.currentAttempt == before.currentAttempt + 1
    && after.cleanupStatus == NotScheduled
  }

  predicate Continued(before: RunRow, after: RunRow) {
    && (after.status == before.status || after.status in StoredMoves(before.status))
    && after.currentAttempt == before.currentAttempt
  }

  /** What one event may do to an existing row. */
  predicate RowStep(before: RunRow, after: RunRow) {
    && after.headSha == before.headSha
    && after.pullRequest == before.pullRequest
    && (Continued(before, after) || Retried(before, after))
  }

  // ---- The invariant ----

  predicate LockFits(s: System) {
    match s.capacityLock
    case Nobody => true
    case Admitting(_, _, decided) =>
      decided in {Queued, RejectedByCapacity} && (decided == Queued ==> |QueuedIds(s.runs)| < MAX_QUEUED_RUNS)
    case Retrying(id, checked) =>
      && RetryMatches(s.runs, id, checked)
      && checked.status in {RunStatus.Failed, RunStatus.Incomplete}
      && |QueuedIds(s.runs)| < MAX_QUEUED_RUNS
  }

  ghost predicate RunsFit(s: System) {
    && s.maxQueuedRuns <= MAX_QUEUED_RUNS
    && (forall id :: id in s.runs ==> RowFits(s.runs[id]))
    && |ActiveIds(s.runs)| <= MAX_ACTIVE_RUNS
    && |QueuedIds(s.runs)| <= MAX_QUEUED_RUNS
    && LockFits(s)
  }

  /** The row as the triggers let it be stored, when the queue has room for it. */
  function Stored(runs: Runs, id: RunId, row: RunRow): RunRow {
    if IsActive(row.status) && !(id in runs && IsActive(runs[id].status)) && |ActiveIds(runs)| >= MAX_ACTIVE_RUNS then
      row.(status := RejectedByCapacity)
    else
      row
  }

  predicate QueueHasRoom(runs: Runs, id: RunId, row: RunRow) {
    row.status == Queued ==> (id in runs && runs[id].status == Queued) || |QueuedIds(runs)| < MAX_QUEUED_RUNS
  }

  lemma StoredByTriggers(runs: Runs, id: RunId, row: RunRow)
    requires QueueHasRoom(runs, id, row)
    ensures WriteStatus(runs, id, row) == runs[id := Stored(runs, id, row)]
  {}

  lemma StoringFits(s: System, t: System, id: RunId, row: RunRow)
    requires RunsFit(s) && QueueHasRoom(s.runs, id, row) && t.runs == s.runs[id := Stored(s.runs, id, row)]
    requires RowFits(Stored(s.runs, id, row)) && t.maxQueuedRuns == s.maxQueuedRuns && LockFits(t)
    ensures RunsFit(t)
  {
    hide LockFits, RowFits, ActiveIds, QueuedIds;
    ActiveAfter(s.runs, id, Stored(s.runs, id, row));
    QueuedAfter(s.runs, id, Stored(s.runs, id, row));
  }

  /** Whoever writes a status that is not QUEUED, on a run that no retry has locked, leaves the
      decision of the lock's holder standing. */
  lemma LockStillFits(s: System, t: System, id: RunId, row: RunRow)
    requires RunsFit(s) && t.runs == s.runs[id := row] && t.capacityLock == s.capacityLock && id in s.runs
    requires row.status == s.runs[id].status || (row.status != Queued && !Locked(s, id))
    requires row.currentAttempt == s.runs[id].currentAttempt && row.headSha == s.runs[id].headSha
    ensures LockFits(t)
  {
    hide RowFits, ActiveIds, QueuedIds;
    QueuedAfter(s.runs, id, row);
  }

  /** The table keeps every other row, and this one changes as rows may. */
  predicate OneRowSteps(runs: Runs, after: Runs, id: RunId) {
    && id in runs && id in after
    && after == runs[id := after[id]]
    && RowStep(runs[id], after[id])
  }

  /** A valid transition is a move that a row may make, whatever the triggers make of it. */
  lemma MovedRowFits(runs: Runs, id: RunId, to: RunStatus)
    requires id in runs && RowFits(runs[id])
    requires IsValidTransition(runs[id].status, to, runs[id].cleanupStatus == Cleaned)
    ensures var stored := Stored(runs, id, Moved(runs[id], to));
      && RowFits(stored) && RowStep(runs[id], stored) && QueueHasRoom(runs, id, Moved(runs[id], to))
      && stored.status != Queued && stored.currentAttempt == runs[id].currentAttempt
      && stored.headSha == runs[id].headSha
  {
    hide ActiveIds, QueuedIds;
  }

  lemma TransitionFits(s: System, id: RunId, to: RunStatus)
    requires RunsFit(s) && id in s.runs && !Locked(s, id)
    requires IsValidTransition(s.runs[id].status, to, s.runs[id].cleanupStatus == Cleaned)
    ensures var after := WriteStatus(s.runs, id, Moved(s.runs[id], to));
      OneRowSteps(s.runs, after, id) && RunsFit(s.(runs := after))
  {
    assert RowFits(s.runs[id]);
    hide ActiveIds, QueuedIds, RunsFit, WriteStatus, LockFits, RowFits, RowStep, Stored, Moved, IsValidTransition;
    hide QueueHasRoom;
    MovedRowFits(s.runs, id, to);
    var row := Moved(s.runs[id], to);
    StoredByTriggers(s.runs, id, row);
    var t := s.(runs := s.runs[id := Stored(s.runs, id, row)]);
    LockStillFits(s, t, id, t.runs[id]);
    StoringFits(s, t, id, row);
  }

  lemma CancelFits(s: System, id: RunId)
    requires RunsFit(s) && id in s.runs && !Locked(s, id) && IsCancellable(s.runs[id].status)
    ensures var after := CancelRuns(s.runs, id); OneRowSteps(s.runs, after, id) && RunsFit(s.(runs := after))
  {
    assert RowFits(s.runs[id]);
    hide ActiveIds, QueuedIds, RunsFit;
    var row := s.runs[id].(status := CancelRequested, cleanupStatus := CleanupPending);
    StoredByTriggers(s.runs, id, row);
    var t := s.(runs := s.runs[id := Stored(s.runs, id, row)]);
    LockStillFits(s, t, id, t.runs[id]);
    StoringFits(s, t, id, row);
  }

  /** The other writes of the worker set columns that nothing here depends on. */
  lemma ColumnsFit(s: System, id: RunId, row: RunRow)
    requires RunsFit(s) && id in s.runs
    requires row.(cleanupStatus := s.runs[id].cleanupStatus, previewHost := s.runs[id].previewHost,
      executionPlan := s.runs[id].executionPlan) == s.runs[id]
    ensures OneRowSteps(s.runs, s.runs[id := row], id) && RunsFit(s.(runs := s.runs[id := row]))
  {
    hide ActiveIds, QueuedIds, LockFits;
    var t := s.(runs := s.runs[id := row]);
    ActiveAfter(s.runs, id, row);
    QueuedAfter(s.runs, id, row);
    LockStillFits(s, t, id, row);
  }

  lemma RetryFits(s: System, id: RunId)
    requires RunsFit(s) && Locked(s, id)
    ensures id in s.runs
    ensures var after := RetryRuns(s.runs, id);
      OneRowSteps(s.runs, after, id) && RunsFit(s.(runs := after, capacityLock := Nobody))
    ensures RetryRuns(s.runs, id)[id].status == Queued
    ensures RetryRuns(s.runs, id)[id].currentAttempt == s.runs[id].currentAttempt + 1
  {
    hide ActiveIds, QueuedIds;
    var before := s.runs[id];
    var row := before.(status := Queued, verdict := None, currentAttempt := before.currentAttempt + 1,
      cleanupStatus := NotScheduled, previewHost := None);
    StoredByTriggers(s.runs, id, row);
    StoringFits(s, s.(runs := RetryRuns(s.runs, id), capacityLock := Nobody), id, row);
  }

  lemma AdmissionFits(s: System, id: RunId)
    requires RunsFit(s) && s.capacityLock.Admitting? && id !in s.runs
    ensures var t := s.capacityLock; var after := InsertRun(s.runs, id, t.decided, t.pullRequest, t.headSha);
      after == s.runs[id := NewRun(t.decided, t.pullRequest, t.headSha)]
        && RunsFit(s.(runs := after, capacityLock := Nobody))
  {
    hide ActiveIds, QueuedIds;
    var t := s.capacityLock;
    var row := NewRun(t.decided, t.pullRequest, t.headSha);
    StoredByTriggers(s.runs, id, row);
    StoringFits(s, s.(runs := s.runs[id := row], capacityLock := Nobody), id, row);
  }

  /** Every row stays, and changes as rows may. */
  ghost predicate RowsStep(runs: Runs, after: Runs) {
    forall id :: id in runs ==> id in after && RowStep(runs[id], after[id])
  }

  lemma WorkerWriteFits(s: System, e: Event)
    requires RunsFit(s) && e.WorkerWrite?
    ensures RunsFit(Step(s, e)) && RowsStep(s.runs, Step(s, e).runs)
  {
    hide RunsFit, IsValidTransition, WriteStatus, Moved;
    if MayWrite(s, e) && Identifies(s.runs, e.id, e.attempt, e.headSha) {
      match e.write
      case Transition(to) =>
        if IsValidTransition(s.runs[e.id].status, to, s.runs[e.id].cleanupStatus == Cleaned) {
          TransitionFits(s, e.id, to);
        }
      case _ => ColumnsFit(s, e.id, Step(s, e).runs[e.id]);
    }
  }

  /** What the worker reads and the outbox is written with does not matter to the run table. */
  lemma RunsFitDependsOn(s: System, t: System)
    requires RunsFit(s) && t.runs == s.runs && t.maxQueuedRuns == s.maxQueuedRuns
    requires (t.capacityLock == s.capacityLock || LockFits(t))
    ensures RunsFit(t)
  {}

  lemma RetryBeginFits(s: System, e: Event)
    requires RunsFit(s) && e.RetryBegin?
    ensures RunsFit(Step(s, e))
  {
    hide ActiveIds, QueuedIds;
  }

  lemma CancelChangesNothing(runs: Runs, id: RunId)
    requires !(id in runs && IsCancellable(runs[id].status))
    ensures CancelRuns(runs, id) == runs
  {}

  lemma RunsFitStep(s: System, e: Event)
    requires RunsFit(s)
    ensures RunsFit(Step(s, e)) && RowsStep(s.runs, Step(s, e).runs)
  {
    hide RunsFit, CancelRuns, RetryRuns, InsertRun, CancelOutbox, EnqueueCleanup, WriteStatus, RunExists, RetryMatches;
    hide Write, GuardRow, Put, RetryAllowed, CleanupPassed, CanRetry;
    match e
    case WorkerWrite(_, _, _, _) => WorkerWriteFits(s, e);
    case CancelRun(_, _) => CancelStepFits(s, e);
    case RetryCommit(_) => CommitFits(s, e);
    case AdmitCommit(_, _) => CommitFits(s, e);
    case RetryBegin(_, _, _) => RetryBeginFits(s, e);
    case _ => RunsFitDependsOn(s, Step(s, e));
  }

  lemma CancelStepFits(s: System, e: Event)
    requires RunsFit(s) && e.CancelRun?
    ensures RunsFit(Step(s, e)) && RowsStep(s.runs, Step(s, e).runs)
  {
    hide RunsFit, CancelRuns, CancelOutbox;
    var t := Step(s, e);
    var id := e.id;
    if !Locked(s, id) && id in s.runs && IsCancellable(s.runs[id].status) {
      CancelFits(s, id);
      RunsFitDependsOn(s.(runs := t.runs), t);
    } else {
      if !Locked(s, id) {
        CancelChangesNothing(s.runs, id);
      }
      RunsFitDependsOn(s, t);
    }
  }

  lemma CommitFits(s: System, e: Event)
    requires RunsFit(s) && (e.RetryCommit? || e.AdmitCommit?)
    ensures RunsFit(Step(s, e)) && RowsStep(s.runs, Step(s, e).runs)
  {
    hide RunsFit, RetryRuns, InsertRun, RunExists, RetryMatches;
    var t := Step(s, e);
    if t.runs == s.runs {
      RunsFitDependsOn(s, t);
    } else {
      if e.RetryCommit? {
        RetryFits(s, s.capacityLock.id);
      } else {
        AdmissionFits(s, e.id);
      }
      RunsFitDependsOn(s.(runs := t.runs, capacityLock := Nobody), t);
    }
  }

  // ---- Detect jobs ----

  predicate DetectJobOf(s: System, id: RunId, attempt: nat)
    requires id in s.runs
  {
    var entry := OutboxKey(id, Detect, attempt);
    entry in s.outbox && s.outbox[entry].payload == Some(Job(id, attempt, s.runs[id].headSha, Detect))
  }

  /** A run that admission itself turned away. */
  ghost predicate TurnedAway(s: System, id: RunId)
    requires id in s.runs
  {
    && s.runs[id].status == RejectedByCapacity
    && s.runs[id].currentAttempt == 1
    && forall attempt: nat :: OutboxKey(id, Detect, attempt) !in s.outbox
  }

  /** An admitted run has a detect job for every attempt so far, and for no other. */
  ghost predicate HasItsDetectJobs(s: System, id: RunId)
    requires id in s.runs
  {
    && (forall attempt: nat :: 1 <= attempt <= s.runs[id].currentAttempt ==> DetectJobOf(s, id, attempt))
    && (forall attempt: nat :: OutboxKey(id, Detect, attempt) in s.outbox ==> 1 <= attempt <= s.runs[id].currentAttempt)
  }

  ghost predicate DetectJobsMatch(s: System) {
    && (forall id :: id in s.runs ==> TurnedAway(s, id) || HasItsDetectJobs(s, id))
    && (forall entry :: entry in s.outbox ==> entry.runId in s.runs)
  }

  /** Whatever keeps the detect rows' jobs and the rows' statuses in step keeps the match. */
  lemma OtherRowsMatch(s: System, t: System)
    requires DetectJobsMatch(s) && RowsStep(s.runs, t.runs) && t.runs.Keys == s.runs.Keys
    requires forall id :: id in s.runs ==> t.runs[id].currentAttempt == s.runs[id].currentAttempt
    requires forall entry :: entry in t.outbox ==> entry.runId in t.runs
    requires forall entry: OutboxKey :: entry.stepKey == Detect ==> (entry in t.outbox <==> entry in s.outbox)
    requires forall entry :: entry in s.outbox && entry.stepKey == Detect ==>
      t.outbox[entry].payload == s.outbox[entry].payload
    ensures DetectJobsMatch(t)
  {
    forall id | id in t.runs
      ensures TurnedAway(t, id) || HasItsDetectJobs(t, id)
    {
      assert RowStep(s.runs[id], t.runs[id]);
      if TurnedAway(s, id) {
        assert TurnedAway(t, id);
      } else {
        assert forall attempt: nat :: DetectJobOf(s, id, attempt) ==> DetectJobOf(t, id, attempt);
      }
    }
  }

  lemma EntriesHaveRuns(s: System)
    requires DetectJobsMatch(s)
    ensures forall entry :: entry in s.outbox ==> entry.runId in s.runs
  {}

  lemma CancelMatches(s: System, id: RunId, now: int)
    requires RunsFit(s) && DetectJobsMatch(s) && !Locked(s, id)
    ensures DetectJobsMatch(Step(s, CancelRun(id, now)))
  {
    hide RunsFit, DetectJobsMatch, CancelRuns;
    EntriesHaveRuns(s);
    var t := Step(s, CancelRun(id, now));
    RunsFitStep(s, CancelRun(id, now));
    CancelKeepsAttempts(s, id);
    OtherRowsMatch(s, t);
  }

  lemma CancelKeepsAttempts(s: System, id: RunId)
    ensures var after := CancelRuns(s.runs, id);
      after.Keys == s.runs.Keys && forall k :: k in s.runs ==> after[k].currentAttempt == s.runs[k].currentAttempt
  {}

  lemma WorkerWriteMatches(s: System, e: Event)
    requires RunsFit(s) && DetectJobsMatch(s) && e.WorkerWrite?
    ensures DetectJobsMatch(Step(s, e))
  {
    hide RunsFit, DetectJobsMatch, Write;
    EntriesHaveRuns(s);
    RunsFitStep(s, e);
    StaleWritesChangeNothing(s.runs, e.id, e.attempt, e.headSha, e.write);
    OtherRowsMatch(s, Step(s, e));
  }

  /** A run that is retried was admitted, so no attempt beyond its own has a detect job yet. */
  lemma RetriedHasItsJobs(s: System, id: RunId)
    requires RunsFit(s) && DetectJobsMatch(s) && Locked(s, id)
    ensures id in s.runs && HasItsDetectJobs(s, id) && OutboxKey(id, Detect, s.runs[id].currentAttempt + 1) !in s.outbox
  {
    hide ActiveIds, QueuedIds;
    assert HasItsDetectJobs(s, id);
  }

  /** The next attempt, and its detect job. */
  lemma NextDetectJob(s: System, t: System, id: RunId, row: OutboxRow)
    requires DetectJobsMatch(s) && id in s.runs && HasItsDetectJobs(s, id) && id in t.runs
    requires t.runs == s.runs[id := t.runs[id]]
    requires t.runs[id].currentAttempt == s.runs[id].currentAttempt + 1 && t.runs[id].headSha == s.runs[id].headSha
    requires row.payload == Some(Job(id, t.runs[id].currentAttempt, s.runs[id].headSha, Detect))
    requires t.outbox == s.outbox[OutboxKey(id, Detect, t.runs[id].currentAttempt) := row]
    ensures DetectJobsMatch(t)
  {
    forall k | k in t.runs
      ensures TurnedAway(t, k) || HasItsDetectJobs(t, k)
    {
      if k != id {
        OthersKeepJobs(s, t, k);
      } else {
        assert forall a: nat :: DetectJobOf(s, id, a) ==> DetectJobOf(t, id, a);
        assert DetectJobOf(t, id, t.runs[id].currentAttempt);
      }
    }
  }

  lemma OthersKeepJobs(s: System, t: System, k: RunId)
    requires k in s.runs && k in t.runs && t.runs[k] == s.runs[k] && (TurnedAway(s, k) || HasItsDetectJobs(s, k))
    requires forall entry: OutboxKey :: entry.runId == k ==>
      (entry in t.outbox <==> entry in s.outbox) && (entry in s.outbox ==> t.outbox[entry] == s.outbox[entry])
    ensures TurnedAway(t, k) || HasItsDetectJobs(t, k)
  {
    if TurnedAway(s, k) {
      assert TurnedAway(t, k);
    } else {
      assert forall a: nat :: DetectJobOf(s, k, a) ==> DetectJobOf(t, k, a);
    }
  }

  /** A retry finds no detect job of the attempt it creates. */
  lemma RetryCommitMatches(s: System, now: int)
    requires RunsFit(s) && DetectJobsMatch(s) && s.capacityLock.Retrying?
    ensures var t := Step(s, RetryCommit(now));
      && DetectJobsMatch(t)
      && t.runs == RetryRuns(s.runs, s.capacityLock.id)
  {
    hide ActiveIds, QueuedIds, WriteStatus, DetectJobsMatch;
    var id := s.capacityLock.id;
    var attempt := s.runs[id].currentAttempt + 1;
    RetryFits(s, id);
    RetriedHasItsJobs(s, id);
    hide RunsFit, RetryRuns;
    NextDetectJob(s, Step(s, RetryCommit(now)), id, DetectRow(id, attempt, s.runs[id].headSha, now));
  }

  /** A new row, with its detect job if it was admitted. */
  lemma NewRunMatches(s: System, t: System, id: RunId, row: RunRow, now: int)
    requires DetectJobsMatch(s) && id !in s.runs && t.runs == s.runs[id := row]
    requires row.status in {Queued, RejectedByCapacity} && row.currentAttempt == 1
    requires t.outbox ==
      if row.status != Queued then s.outbox
      else s.outbox[OutboxKey(id, Detect, 1) := DetectRow(id, 1, row.headSha, now)]
    ensures DetectJobsMatch(t)
  {
    forall k | k in t.runs
      ensures TurnedAway(t, k) || HasItsDetectJobs(t, k)
    {
      if k != id {
        hide HasItsDetectJobs, TurnedAway;
        OthersKeepJobs(s, t, k);
      }
    }
  }

  lemma AdmitCommitMatches(s: System, id: RunId, now: int)
    requires RunsFit(s) && DetectJobsMatch(s) && s.capacityLock.Admitting? && id !in s.runs
    ensures DetectJobsMatch(Step(s, AdmitCommit(id, now)))
  {
    assert s.capacityLock.decided in {Queued, RejectedByCapacity} by { assert LockFits(s); }
    hide ActiveIds, QueuedIds, InsertRun, RunsFit, RunExists, DetectJobsMatch, DetectRow, LockFits, RetryMatches;
    AdmissionFits(s, id);
    var t := Step(s, AdmitCommit(id, now));
    var lock := s.capacityLock;
    if t.runs == s.runs {
      DetectJobsDependOn(s, t);
    } else {
      NewRunMatches(s, t, id, NewRun(lock.decided, lock.pullRequest, lock.headSha), now);
    }
  }

  lemma PublisherWriteMatches(s: System, e: Event)
    requires DetectJobsMatch(s) && e.PublisherWrite?
    ensures DetectJobsMatch(Step(s, e))
  {
    OtherRowsMatch(s, Step(s, e));
  }

  lemma RetentionMatches(s: System, id: RunId, now: int)
    requires DetectJobsMatch(s)
    ensures DetectJobsMatch(Step(s, RetentionArms(id, now)))
  {
    hide DetectJobsMatch;
    EntriesHaveRuns(s);
    var t := Step(s, RetentionArms(id, now));
    assert t.runs == s.runs;
    assert forall entry :: entry in t.outbox ==> entry.runId in t.runs;
    assert forall entry: OutboxKey :: entry.stepKey == Detect ==>
      (entry in t.outbox <==> entry in s.outbox) && (entry in s.outbox ==> t.outbox[entry] == s.outbox[entry]);
    hide EnqueueCleanup, Step;
    OtherRowsMatch(s, t);
  }

  lemma DetectJobsDependOn(s: System, t: System)
    requires DetectJobsMatch(s) && t.runs == s.runs && t.outbox == s.outbox
    ensures DetectJobsMatch(t)
  {
    OtherRowsMatch(s, t);
  }

  lemma DetectJobsMatchStep(s: System, e: Event)
    requires RunsFit(s) && DetectJobsMatch(s)
    ensures DetectJobsMatch(Step(s, e))
  {
    hide RunsFit, DetectJobsMatch, CommitRetry, CommitAdmission, CancelRuns, CancelOutbox, Write, RetryAllowed,
      AdmissionStatus;
    hide EnqueueCleanup, GuardRow, MayWrite, CleanupPassed;
    match e
    case WorkerWrite(_, _, _, _) => WorkerWriteMatches(s, e);
    case CancelRun(id, now) => if !Locked(s, id) { CancelMatches(s, id, now); }
    case RetryCommit(now) => if s.capacityLock.Retrying? { RetryCommitMatches(s, now); }
    case AdmitCommit(id, now) => if s.capacityLock.Admitting? && id !in s.runs { AdmitCommitMatches(s, id, now); }
    case PublisherWrite(_, _, _, _, _) => PublisherWriteMatches(s, e);
    case RetentionArms(id, now) => RetentionMatches(s, id, now);
    case _ => DetectJobsDependOn(s, Step(s, e));
  }

  // ---- Cleanup ----

  predicate SaysCleaned(row: RunRow) {
    row.cleanupStatus == Cleaned || row.status == RunStatus.Cancelled
  }

  ghost predicate CleanedFits(s: System) {
    && (forall key :: key in s.seenPassed ==> key.stepKey == Cleanup && CleanupPassed(s.steps, key.runId, key.attempt))
    && (forall id :: id in s.runs && SaysCleaned(s.runs[id]) ==> CleanupPassed(s.steps, id, s.runs[id].currentAttempt))
  }

  /** No call of the guard takes a passed cleanup back: it is settled for good. */
  lemma PassedCleanupStays(steps: StepRows, key: StepGuardKey, call: GuardCall, id: RunId, attempt: nat)
    requires CleanupPassed(steps, id, attempt)
    requires forall k :: k in steps && steps[k].leaseToken.Some? ==> steps[k].status == Running
    ensures CleanupPassed(Put(steps, key, GuardRow(RowOf(steps, key), key.stepKey, call)), id, attempt)
  {}

  /** A row carries a token only while it is running. */
  ghost predicate TokensFit(steps: StepRows) {
    forall key :: key in steps && steps[key].leaseToken.Some? ==> steps[key].status == Running
  }

  lemma CallGuardCleaned(s: System, e: Event)
    requires CleanedFits(s) && TokensFit(s.steps) && e.CallGuard?
    ensures CleanedFits(Step(s, e)) && TokensFit(Step(s, e).steps)
  {
    hide Put, GuardRow, RowOf;
    var t := Step(s, e);
    forall id, attempt: nat | CleanupPassed(s.steps, id, attempt)
      ensures CleanupPassed(t.steps, id, attempt)
    {
      PassedCleanupStays(s.steps, e.key, e.call, id, attempt);
    }
    TokensStay(s.steps, e.key, e.call);
  }

  lemma TokensStay(steps: StepRows, key: StepGuardKey, call: GuardCall)
    requires TokensFit(steps)
    ensures TokensFit(Put(steps, key, GuardRow(RowOf(steps, key), key.stepKey, call)))
  {}

  /** A worker writes CLEANED only after it saw the cleanup of that attempt pass, and CANCELLED only
      over CLEANED. */
  lemma WorkerWriteCleaned(s: System, e: Event)
    requires RunsFit(s) && CleanedFits(s) && e.WorkerWrite?
    ensures CleanedFits(Step(s, e))
  {
    hide RunsFit, LockFits, ActiveIds, QueuedIds, CleanupPassed;
  }

  lemma CancelCleaned(s: System, id: RunId, now: int)
    requires CleanedFits(s)
    ensures CleanedFits(Step(s, CancelRun(id, now)))
  {
    hide ActiveIds, QueuedIds, CleanupPassed, CancelOutbox;
  }

  lemma RetryCleaned(s: System, now: int)
    requires RunsFit(s) && CleanedFits(s) && s.capacityLock.Retrying?
    ensures CleanedFits(Step(s, RetryCommit(now)))
  {
    hide ActiveIds, QueuedIds, CleanupPassed, RetryMatches, RunsFit;
    RetryFits(s, s.capacityLock.id);
  }

  lemma AdmissionCleaned(s: System, id: RunId, now: int)
    requires RunsFit(s) && CleanedFits(s) && s.capacityLock.Admitting? && id !in s.runs
    ensures CleanedFits(Step(s, AdmitCommit(id, now)))
  {
    assert LockFits(s);
    hide ActiveIds, QueuedIds, CleanupPassed, RunsFit, InsertRun, RunExists;
    AdmissionFits(s, id);
  }

  lemma CommitsKeepSteps(s: System, id: RunId, now: int)
    ensures s.capacityLock.Retrying? ==> CommitRetry(s, now).steps == s.steps
    ensures s.capacityLock.Admitting? ==> CommitAdmission(s, id, now).steps == s.steps
  {}

  lemma CleanedFitsStep(s: System, e: Event)
    requires RunsFit(s) && CleanedFits(s) && TokensFit(s.steps)
    ensures CleanedFits(Step(s, e)) && TokensFit(Step(s, e).steps)
  {
    hide RunsFit, RetryAllowed, AdmissionStatus, CancelOutbox, EnqueueCleanup, CommitRetry, CommitAdmission, TokensFit,
      CleanupPassed, CancelRuns, Write, GuardRow, Put, MayWrite;
    match e
    case CallGuard(_, _) => CallGuardCleaned(s, e);
    case WorkerWrite(_, _, _, _) => WorkerWriteCleaned(s, e);
    case CancelRun(id, now) => CancelCleaned(s, id, now);
    case RetryCommit(now) =>
      if s.capacityLock.Retrying? {
        RetryCleaned(s, now);
        CommitsKeepSteps(s, "", now);
      }
    case AdmitCommit(id, now) =>
      if s.capacityLock.Admitting? && id !in s.runs {
        AdmissionCleaned(s, id, now);
        CommitsKeepSteps(s, id, now);
      }
    case _ =>
  }

  // ---- One run per head commit ----

  ghost predicate Distinct(runs: Runs) {
    forall a, b ::
      a in runs && b in runs && runs[a].pullRequest == runs[b].pullRequest && runs[a].headSha == runs[b].headSha ==>
        a == b
  }

  predicate AddsRun(s: System, e: Event) {
    e.AdmitCommit? && s.capacityLock.Admitting? && e.id !in s.runs
      && !RunExists(s.runs, s.capacityLock.pullRequest, s.capacityLock.headSha)
  }

  lemma DistinctStays(runs: Runs, after: Runs)
    requires Distinct(runs) && RowsStep(runs, after) && after.Keys == runs.Keys
    ensures Distinct(after)
  {
    assert forall id :: id in after ==> id in runs && RowStep(runs[id], after[id]);
  }

  lemma DistinctStep(s: System, e: Event)
    requires RunsFit(s) && Distinct(s.runs)
    ensures Distinct(Step(s, e).runs)
  {
    hide RunsFit, RowsStep;
    RunsFitStep(s, e);
    NewRunsOnly(s, e);
    if AddsRun(s, e) {
      hide InsertRun;
      AdmissionFits(s, e.id);
    } else {
      DistinctStays(s.runs, Step(s, e).runs);
    }
  }

  /** Only an admission adds a run. */
  lemma NewRunsOnly(s: System, e: Event)
    ensures AddsRun(s, e) || Step(s, e).runs.Keys == s.runs.Keys
  {}

  // ---- Whole runs ----

  ghost predicate Inv(s: System) {
    RunsFit(s) && DetectJobsMatch(s) && CleanedFits(s) && TokensFit(s.steps) && Distinct(s.runs)
  }

  lemma StartFits(maxQueuedRuns: nat)
    requires maxQueuedRuns <= MAX_QUEUED_RUNS
    ensures Inv(Start(maxQueuedRuns))
  {
    assert ActiveIds(map[]) == {} && QueuedIds(map[]) == {};
  }

  lemma InvStep(s: System, e: Event)
    requires Inv(s)
    ensures Inv(Step(s, e)) && RowsStep(s.runs, Step(s, e).runs)
  {
    hide RunsFit, DetectJobsMatch, CleanedFits, TokensFit, Distinct, RowsStep, Step;
    RunsFitStep(s, e);
    DetectJobsMatchStep(s, e);
    CleanedFitsStep(s, e);
    DistinctStep(s, e);
  }

  lemma {:induction false} InvRun(s: System, events: seq<Event>)
    requires Inv(s)
    ensures Inv(Run(s, events))
    decreases |events|
  {
    hide Inv, Step;
    if events != [] {
      InvStep(s, events[0]);
      InvRun(Step(s, events[0]), events[1..]);
    }
  }

  /** At every moment at most one run is active and at most three are queued. */
  lemma CapacityHolds(maxQueuedRuns: nat, events: seq<Event>)
    requires maxQueuedRuns <= MAX_QUEUED_RUNS
    ensures var s := Run(Start(maxQueuedRuns), events); |ActiveIds(s.runs)| <= 1 && |QueuedIds(s.runs)| <= 3
  {
    StartFits(maxQueuedRuns);
    InvRun(Start(maxQueuedRuns), events);
  }

  /** A decision taken under the capacity lock is stored as it was taken, whatever committed since:
      the triggers never rewrite it, the retried row is still the row that was checked, and no
      other job has the dedupe key of the detect job. */
  lemma DecisionsAreHonoured(maxQueuedRuns: nat, events: seq<Event>, id: RunId, now: int)
    requires maxQueuedRuns <= MAX_QUEUED_RUNS
    ensures var s := Run(Start(maxQueuedRuns), events); var lock := s.capacityLock;
      && (lock.Admitting? && id !in s.runs && !RunExists(s.runs, lock.pullRequest, lock.headSha) ==>
            var t := Step(s, AdmitCommit(id, now));
            && t.runs == s.runs[id := NewRun(lock.decided, lock.pullRequest, lock.headSha)]
            && (lock.decided == Queued <==> OutboxKey(id, Detect, 1) in t.outbox))
      && (lock.Retrying? ==>
            var t := Step(s, RetryCommit(now)); var attempt := lock.checked.currentAttempt + 1;
            && lock.id in t.runs
            && t.runs[lock.id].status == Queued
            && t.runs[lock.id].currentAttempt == attempt
            && OutboxKey(lock.id, Detect, attempt) !in s.outbox
            && DetectJobOf(t, lock.id, attempt))
  {
    var s := Run(Start(maxQueuedRuns), events);
    StartFits(maxQueuedRuns);
    InvRun(Start(maxQueuedRuns), events);
    if s.capacityLock.Admitting? && id !in s.runs
      && !RunExists(s.runs, s.capacityLock.pullRequest, s.capacityLock.headSha) {
      AdmissionHonoured(s, id, now);
    }
    if s.capacityLock.Retrying? {
      RetryHonoured(s, now);
    }
  }

  lemma AdmissionHonoured(s: System, id: RunId, now: int)
    requires Inv(s) && s.capacityLock.Admitting? && id !in s.runs
    requires !RunExists(s.runs, s.capacityLock.pullRequest, s.capacityLock.headSha)
    ensures var t := Step(s, AdmitCommit(id, now)); var lock := s.capacityLock;
      && t.runs == s.runs[id := NewRun(lock.decided, lock.pullRequest, lock.headSha)]
      && (lock.decided == Queued <==> OutboxKey(id, Detect, 1) in t.outbox)
  {
    hide RunsFit, CleanedFits, TokensFit, Distinct, RunExists, InsertRun;
    AdmissionFits(s, id);
  }

  lemma RetryHonoured(s: System, now: int)
    requires Inv(s) && s.capacityLock.Retrying?
    ensures var t := Step(s, RetryCommit(now)); var lock := s.capacityLock;
      var attempt := lock.checked.currentAttempt + 1;
      && lock.id in t.runs
      && t.runs[lock.id].status == Queued
      && t.runs[lock.id].currentAttempt == attempt
      && OutboxKey(lock.id, Detect, attempt) !in s.outbox
      && DetectJobOf(t, lock.id, attempt)
  {
    hide CleanedFits, TokensFit, Distinct, RetryRuns, ActiveIds, QueuedIds;
    RetryCommitMatches(s, now);
    RetryFits(s, s.capacityLock.id);
    assert HasItsDetectJobs(s, s.capacityLock.id);
  }

  /** Begin and commit with nothing between them are the transactions of the API's own methods. */
  lemma UninterruptedTransactions(s: System, id: RunId, pullRequest: string, headSha: string, seen: Snapshot,
      confirmed: bool, now: int)
    requires Inv(s) && s.capacityLock == Nobody
    ensures id !in s.runs && !RunExists(s.runs, pullRequest, headSha) ==>
      var status := AdmissionStatus(s.runs);
        var t := Step(Step(s, AdmitBegin(pullRequest, headSha)), AdmitCommit(id, now));
      && t.runs == InsertRun(s.runs, id, status, pullRequest, headSha)
      && t.outbox ==
        (if status == Queued then s.outbox[OutboxKey(id, Detect, 1) := DetectRow(id, 1, headSha, now)] else s.outbox)
    ensures RetryAllowed(s.runs, id, seen, confirmed, s.maxQueuedRuns) ==>
      var t := Step(Step(s, RetryBegin(id, seen, confirmed)), RetryCommit(now));
        var attempt := s.runs[id].currentAttempt + 1;
      && t.runs == RetryRuns(s.runs, id)
      && t.outbox == s.outbox[OutboxKey(id, Detect, attempt) := DetectRow(id, attempt, s.runs[id].headSha, now)]
  {
    hide AdmissionStatus, InsertRun, RetryRuns, RunExists, RunsFit, CleanedFits, TokensFit, Distinct, DetectJobsMatch,
      HasRetryCapacity;
    if RetryAllowed(s.runs, id, seen, confirmed, s.maxQueuedRuns) {
      InvStep(s, RetryBegin(id, seen, confirmed));
      RetryCommitMatches(Step(s, RetryBegin(id, seen, confirmed)), now);
      RetryHonoured(Step(s, RetryBegin(id, seen, confirmed)), now);
    }
  }

  /** Every run either was turned away at the door and has no detect job, or has the detect job of
      each of its attempts and of no other. So a queued run always has one to start from. */
  lemma DetectJobsTellAdmission(maxQueuedRuns: nat, events: seq<Event>, id: RunId)
    requires maxQueuedRuns <= MAX_QUEUED_RUNS
    requires id in Run(Start(maxQueuedRuns), events).runs
    ensures var s := Run(Start(maxQueuedRuns), events);
      && (TurnedAway(s, id) || HasItsDetectJobs(s, id))
      && (s.runs[id].status == Queued ==> DetectJobOf(s, id, s.runs[id].currentAttempt))
  {
    StartFits(maxQueuedRuns);
    InvRun(Start(maxQueuedRuns), events);
    var s := Run(Start(maxQueuedRuns), events);
    assert RowFits(s.runs[id]);
  }

  /** A CANCELLED run was cleaned up: the cleanup record of its attempt is PASSED. So it is whenever
      the run row says CLEANED. */
  lemma CancelledMeansCleaned(maxQueuedRuns: nat, events: seq<Event>, id: RunId)
    requires maxQueuedRuns <= MAX_QUEUED_RUNS
    ensures var s := Run(Start(maxQueuedRuns), events);
      id in s.runs && SaysCleaned(s.runs[id]) ==>
        CleanupPassed(s.steps, id, s.runs[id].currentAttempt)
  {
    StartFits(maxQueuedRuns);
    InvRun(Start(maxQueuedRuns), events);
  }

  /** The status a run row shows fits its verdict column, and no two runs are of one head commit. */
  lemma RowsAreConsistent(maxQueuedRuns: nat, events: seq<Event>)
    requires maxQueuedRuns <= MAX_QUEUED_RUNS
    ensures var s := Run(Start(maxQueuedRuns), events);
      && (forall id :: id in s.runs ==>
        s.runs[id].verdict == VerdictFor(s.runs[id].status) && s.runs[id].currentAttempt >= 1)
      && Distinct(s.runs)
  {
    StartFits(maxQueuedRuns);
    InvRun(Start(maxQueuedRuns), events);
  }

  predicate Absorbing(status: RunStatus) {
    status in {RunStatus.Passed, RunStatus.Cancelled, RejectedByCapacity}
  }

  /** What stays true of a run from one moment to any later one. */
  predicate Later(before: RunRow, after: RunRow) {
    && after.headSha == before.headSha
    && after.pullRequest == before.pullRequest
    && after.currentAttempt >= before.currentAttempt
    && (Absorbing(before.status) ==> after.status == before.status && after.currentAttempt == before.currentAttempt)
    && (after.currentAttempt > before.currentAttempt ==> !Absorbing(before.status))
  }

  /** One event: every run row stays, and moves by the table, by the three moves that API and
      triggers add to it, or by a retry that raises its attempt by one. */
  lemma EveryMoveIsStored(maxQueuedRuns: nat, events: seq<Event>, e: Event)
    requires maxQueuedRuns <= MAX_QUEUED_RUNS
    ensures var s := Run(Start(maxQueuedRuns), events); RowsStep(s.runs, Step(s, e).runs)
  {
    StartFits(maxQueuedRuns);
    InvRun(Start(maxQueuedRuns), events);
    InvStep(Run(Start(maxQueuedRuns), events), e);
  }

  lemma {:induction false} RunsOnlyGrowOlder(s: System, events: seq<Event>, id: RunId)
    requires Inv(s) && id in s.runs
    ensures id in Run(s, events).runs && Later(s.runs[id], Run(s, events).runs[id])
    decreases |events|
  {
    hide Inv, Step;
    if events != [] {
      InvStep(s, events[0]);
      RunsOnlyGrowOlder(Step(s, events[0]), events[1..], id);
    }
  }

  /** Attempts are isolated: a run's attempt never goes back, a settled run never leaves PASSED,
      CANCELLED or REJECTED_BY_CAPACITY, and its identity never changes. */
  lemma AttemptsAreIsolated(maxQueuedRuns: nat, events: seq<Event>, more: seq<Event>, id: RunId)
    requires maxQueuedRuns <= MAX_QUEUED_RUNS
    requires id in Run(Start(maxQueuedRuns), events).runs
    ensures var s := Run(Start(maxQueuedRuns), events);
      id in Run(s, more).runs && Later(s.runs[id], Run(s, more).runs[id])
  {
    StartFits(maxQueuedRuns);
    InvRun(Start(maxQueuedRuns), events);
    RunsOnlyGrowOlder(Run(Start(maxQueuedRuns), events), more, id);
  }

  /** Once a run has gone on to another attempt, the workers of an older one never change its row
      again: neither now nor in any later state. */
  lemma OldAttemptsArePowerless(maxQueuedRuns: nat, events: seq<Event>, more: seq<Event>, e: Event)
    requires maxQueuedRuns <= MAX_QUEUED_RUNS && e.WorkerWrite?
    requires var s := Run(Start(maxQueuedRuns), events); e.id in s.runs && e.attempt < s.runs[e.id].currentAttempt
    ensures var later := Run(Run(Start(maxQueuedRuns), events), more); Step(later, e).runs == later.runs
  {
    hide Run;
    AttemptsAreIsolated(maxQueuedRuns, events, more, e.id);
    var later := Run(Run(Start(maxQueuedRuns), events), more);
    StaleWritesChangeNothing(later.runs, e.id, e.attempt, e.headSha, e.write);
  }

  // ---- Every move really happens ----

  lemma {:induction false} RunConcat(s: System, a: seq<Event>, b: seq<Event>)
    ensures Run(s, a + b) == Run(Run(s, a), b)
    decreases |a|
  {
    if a == [] {
      assert a + b == b;
    } else {
      assert (a + b)[1..] == a[1..] + b;
      RunConcat(Step(s, a[0]), a[1..], b);
    }
  }

  lemma RunOne(s: System, events: seq<Event>, e: Event)
    ensures Run(s, events + [e]) == Step(Run(s, events), e)
  {
    RunConcat(s, events, [e]);
    assert Run(Run(s, events), [e]) == Run(Step(Run(s, events), e), [e][1..]);
  }

  lemma CountsOfOne(id: RunId, row: RunRow)
    ensures ActiveIds(map[id := row]) == if IsActive(row.status) then {id} else {}
    ensures QueuedIds(map[id := row]) == if row.status == Queued then {id} else {}
  {}

  /** One run, on its first attempt, with no step record yet. */
  predicate OneRun(s: System, id: RunId, status: RunStatus) {
    && s.capacityLock == Nobody
    && s.steps == map[]
    && s.runs.Keys == {id}
    && s.runs[id].status == status && s.runs[id].currentAttempt == 1 && s.runs[id].headSha == "sha"
      && s.runs[id].pullRequest == "pr"
  }

  lemma TransitionHappens(s: System, id: RunId, from: RunStatus, to: RunStatus)
    requires OneRun(s, id, from) && from != Received && from != CancelRequested && to in Transitions(from)
    ensures OneRun(Step(s, WorkerWrite(id, 1, "sha", Transition(to))), id, to)
  {
    assert s.runs == map[id := s.runs[id]];
    CountsOfOne(id, s.runs[id]);
  }

  lemma CancelHappens(s: System, id: RunId, from: RunStatus)
    requires OneRun(s, id, from) && IsCancellable(from)
    ensures OneRun(Step(s, CancelRun(id, 0)), id, CancelRequested)
  {
    hide CancelOutbox;
    assert s.runs == map[id := s.runs[id]];
    CountsOfOne(id, s.runs[id]);
  }

  /** The status from which a run first comes into this one. */
  function Rank(status: RunStatus): nat {
    match status
    case Queued => 0
    case Planning | CancelRequested => 1
    case Executing => 2
    case Analyzing => 3
    case Reporting => 4
    case _ => 5
  }

  lemma {:induction false} Reaches(id: RunId, status: RunStatus) returns (events: seq<Event>)
    requires status != Received && status != RejectedByCapacity && status != RunStatus.Cancelled
    ensures OneRun(Run(Start(3), events), id, status)
    decreases Rank(status)
  {
    if status == Queued {
      events := [AdmitBegin("pr", "sha"), AdmitCommit(id, 0)];
      Admitted(id);
    } else {
      var from := match status case Planning | CancelRequested => Queued case Executing => Planning
        case Analyzing => Executing case Reporting => Analyzing case _ => Reporting;
      var e := if status == CancelRequested then CancelRun(id, 0) else WorkerWrite(id, 1, "sha", Transition(status));
      var before := Reaches(id, from);
      var s := Run(Start(3), before);
      RunOne(Start(3), before, e);
      if status == CancelRequested { CancelHappens(s, id, from); } else { TransitionHappens(s, id, from, status); }
      events := before + [e];
    }
  }

  lemma Admitted(id: RunId)
    ensures OneRun(Run(Start(3), [AdmitBegin("pr", "sha"), AdmitCommit(id, 0)]), id, Queued)
  {
    var a, b := AdmitBegin("pr", "sha"), AdmitCommit(id, 0);
    assert ActiveIds(map[]) == {} && QueuedIds(map[]) == {};
    RunOne(Start(3), [a], b);
    RunOne(Start(3), [], a);
    assert [] + [a] == [a] && [a] + [b] == [a, b];
  }

  /** The cleanup runs and passes, and the worker says so in the run row. */
  function Cleaning(id: RunId): seq<Event> {
    var key := StepGuardKey(id, 1, Cleanup);
    [CallGuard(key, Admits(0, 7)), CallGuard(key, Finishes(7, StepPassed)), SeePassed(key),
      WorkerWrite(id, 1, "sha", SetCleanup(Cleaned))]
  }

  lemma CleaningHappens(s: System, id: RunId, status: RunStatus)
    requires OneRun(s, id, status)
    ensures var t := Run(s, Cleaning(id));
      && t.runs == s.runs[id := s.runs[id].(cleanupStatus := Cleaned)]
      && t.capacityLock == Nobody && t.maxQueuedRuns == s.maxQueuedRuns
  {
    var key := StepGuardKey(id, 1, Cleanup);
    var events := Cleaning(id);
    var s1 := Step(s, events[0]);
    var s2 := Step(s1, events[1]);
    var s3 := Step(s2, events[2]);
    var s4 := Step(s3, events[3]);
    assert CleanupPassed(s2.steps, id, 1);
    assert events[1..][1..] == events[2..] && events[2..][1..] == events[3..] && events[3..][1..] == [];
    assert Run(s, events) == Run(s1, events[1..]) == Run(s2, events[2..]) == Run(s3, events[3..]) == Run(s4, []);
  }

  lemma CancellationCompletes(s: System, id: RunId)
    requires OneRun(s, id, CancelRequested)
    ensures var t := Run(s, Cleaning(id));
      var end := Step(t, WorkerWrite(id, 1, "sha", Transition(RunStatus.Cancelled)));
      id in t.runs && t.runs[id].status == CancelRequested && id in end.runs
        && end.runs[id].status == RunStatus.Cancelled
  {
    hide Run, Cleaning;
    CleaningHappens(s, id, CancelRequested);
  }

  /** The relation is exact: each of its moves is made by some run of the system. */
  lemma EveryStoredMoveHappens(id: RunId, other: RunId, from: RunStatus, to: RunStatus)
      returns (events: seq<Event>, e: Event)
    requires id != other && to in StoredMoves(from)
    ensures var s := Run(Start(3), events);
      id in s.runs && s.runs[id].status == from && id in Step(s, e).runs && Step(s, e).runs[id].status == to
  {
    hide Step, Run, Cleaning;
    if to == RejectedByCapacity {
      events, e := RejectionHappens(id, other);
    } else {
      events := Reaches(id, from);
      var s := Run(Start(3), events);
      if to == CancelRequested {
        e := CancelRun(id, 0);
        CancelHappens(s, id, from);
      } else if from == CancelRequested {
        RunConcat(Start(3), events, Cleaning(id));
        CancellationCompletes(s, id);
        events := events + Cleaning(id);
        e := WorkerWrite(id, 1, "sha", Transition(RunStatus.Cancelled));
      } else {
        e := WorkerWrite(id, 1, "sha", Transition(to));
        TransitionHappens(s, id, from, to);
      }
    }
  }

  /** Cancelling a queued run while another one is active stores REJECTED_BY_CAPACITY. */
  lemma RejectionHappens(id: RunId, other: RunId) returns (events: seq<Event>, e: Event)
    requires id != other
    ensures var s := Run(Start(3), events);
      id in s.runs && s.runs[id].status == Queued && id in Step(s, e).runs
        && Step(s, e).runs[id].status == RejectedByCapacity
  {
    hide Step, Run;
    var first := Reaches(other, Queued);
    var s0 := Run(Start(3), first);
    var a, b, c := AdmitBegin("pr2", "sha2"), AdmitCommit(id, 0), WorkerWrite(other, 1, "sha", Transition(Planning));
    RunOne(Start(3), first, a);
    RunOne(Start(3), first + [a], b);
    RunOne(Start(3), first + [a] + [b], c);
    events := first + [a] + [b] + [c];
    e := CancelRun(id, 0);
    SecondAdmission(s0, id, other);
    assert OneRun(s0, other, Queued);
    LateCancel(Step(Step(s0, a), b), id, other);
  }

  lemma SecondAdmission(s: System, id: RunId, other: RunId)
    requires OneRun(s, other, Queued) && id != other
    ensures var t := Step(Step(s, AdmitBegin("pr2", "sha2")), AdmitCommit(id, 0));
      && t.runs == s.runs[id := NewRun(Queued, "pr2", "sha2")] && t.capacityLock == Nobody
  {
    assert s.runs == map[other := s.runs[other]];
    CountsOfOne(other, s.runs[other]);
  }

  lemma LateCancel(s: System, id: RunId, other: RunId)
    requires id != other && s.capacityLock == Nobody && s.runs.Keys == {id, other}
    requires s.runs[id].status == Queued && s.runs[other].status == Queued && s.runs[other].currentAttempt == 1
    requires s.runs[other].headSha == "sha"
    ensures var t := Step(s, WorkerWrite(other, 1, "sha", Transition(Planning)));
      id in t.runs && t.runs[id].status == Queued && id in Step(t, CancelRun(id, 0)).runs
        && Step(t, CancelRun(id, 0)).runs[id].status == RejectedByCapacity
  {
    hide CancelOutbox;
    assert ActiveIds(s.runs) == {};
    var t := Step(s, WorkerWrite(other, 1, "sha", Transition(Planning)));
    assert ActiveIds(t.runs) == {other};
  }
}
