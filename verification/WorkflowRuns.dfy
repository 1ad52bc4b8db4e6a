/** Whole runs of the consumer: any sequence of deliveries, duplicates included, with any step
    outcomes, executor throws, worker deaths, queue failures and API cancellations. Deliveries to
    the run do not overlap, and no other run occupies the execution slot. */
module WorkflowRuns {
  import opened WorkflowTypes
  import opened RunStatusContract
  import opened Tables
  import opened Plan
  import opened StepGuard
  import opened WorkflowStore
  import opened Api
  import opened Consumer
  import O = Outbox

  const WORK_STEPS: nat := 10  // every step but cleanup

  // ---- The invariant on one run's status and marks; `front` counts the settled work steps ----

  /** The work steps settle in order: exactly the first `front` of them are settled. */
  ghost predicate InOrder(marks: Marks, front: nat) {
    front <= WORK_STEPS
    && forall step: StepKey :: step != Cleanup ==> (Settled(marks, step) <==> StepIndex(step) < front)
  }

  /** Only the step in front can be RUNNING, and it is not blocked. */
  ghost predicate RunsInFront(marks: Marks, front: nat) {
    forall step :: step in marks && step != Cleanup && marks[step].status == Running ==>
      StepIndex(step) == front && !Blocked(marks, step)
  }

  /** The cause of a skip lies before it. */
  predicate HasEarlierCause(marks: Marks, step: StepKey) {
    exists cause ::
      cause in marks && StepIndex(cause) < StepIndex(step)
        && marks[cause].status in {StepStatus.Failed, StepStatus.Incomplete}
  }

  ghost predicate SkipsHaveCauses(marks: Marks) {
    forall step :: step in marks && marks[step].status == StepStatus.Skipped ==>
      step != Cleanup && HasEarlierCause(marks, step)
  }

  ghost predicate NoneCancelled(marks: Marks) {
    forall step :: step in marks ==> marks[step].status != StepStatus.Cancelled
  }

  ghost predicate GoodMarks(marks: Marks, front: nat) {
    InOrder(marks, front) && RunsInFront(marks, front) && SkipsHaveCauses(marks) && NoneCancelled(marks)
  }

  predicate Cancelling(status: RunStatus) {
    status in {CancelRequested, RunStatus.Cancelled}
  }

  /** Where a run can be, given how far its steps are. */
  predicate Stage(status: RunStatus, front: nat) {
    match status
    case Queued => front == 0
    case Planning => front <= 7
    case Executing => 2 <= front <= 7
    case Analyzing => 7 <= front <= 9
    case Reporting => 8 <= front <= 9
    case Passed | Failed | Incomplete => front == WORK_STEPS
    case CancelRequested | Cancelled => true
    case _ => false
  }

  ghost predicate Good(status: RunStatus, marks: Marks, front: nat) {
    && GoodMarks(marks, front)
    && Stage(status, front)
    && (!Cancelling(status) && Cleanup in marks && marks[Cleanup].status != Pending ==> front == WORK_STEPS)
    && (IsVerdict(status) ==> status == Verdict(marks - {Cleanup}))
    && (status == RunStatus.Cancelled ==> Cleanup in marks && marks[Cleanup].status == StepStatus.Passed)
  }

  /** A job may be in flight for this step: the run has reached it, or it is the cleanup of a cancellation. */
  predicate StepFits(status: RunStatus, marks: Marks, front: nat, step: StepKey) {
    || StepIndex(step) <= front
    || (step == Cleanup && (status == CancelRequested || Settled(marks, Cleanup)))
  }

  lemma IndexOfStep(i: nat)
    requires i < |WORKFLOW_STEPS|
    ensures StepIndex(WORKFLOW_STEPS[i]) == i
  {}

  lemma SettledAt(marks: Marks, front: nat, i: nat)
    requires InOrder(marks, front) && i < WORK_STEPS
    ensures Settled(marks, WORKFLOW_STEPS[i]) <==> i < front
  {
    hide Settled;
    IndexOfStep(i);
    assert WORKFLOW_STEPS[i] != Cleanup;
  }

  /** The first open step is the step in front, or the cleanup once the work is done. */
  lemma FirstOpenIsFront(marks: Marks, front: nat)
    requires InOrder(marks, front)
    ensures front < WORK_STEPS ==> FirstOpen(marks) == front
    ensures front == WORK_STEPS ==> FirstOpen(marks) == if Settled(marks, Cleanup) then 11 else 10
  {
    var first := FirstOpen(marks);
    hide InOrder, Settled;
    if first < WORK_STEPS {
      SettledAt(marks, front, first);
    }
    if front < WORK_STEPS {
      SettledAt(marks, front, front);
    }
    assert WORKFLOW_STEPS[WORK_STEPS] == Cleanup;
  }

  lemma PlannedStep(marks: Marks, front: nat)
    requires InOrder(marks, front)
    ensures Planned(marks) == None ==> front == WORK_STEPS && Settled(marks, Cleanup) && !CleanupRetryable(marks)
    ensures Planned(marks).Some? ==>
      var step := Planned(marks).value.stepKey;
      && (step != Cleanup ==>
        StepIndex(step) == front < WORK_STEPS && (Planned(marks).value.RunStep? <==> !Blocked(marks, step)))
      && (step == Cleanup ==> Planned(marks) == Some(RunStep(Cleanup)))
      && (step == Cleanup && !CleanupRetryable(marks) ==> front == WORK_STEPS && !Settled(marks, Cleanup))
  {
    FirstOpenIsFront(marks, front);
    NeverGated(marks, Cleanup);
  }

  /** The assembly, the report and the cleanup are never skipped. */
  lemma NeverGated(marks: Marks, step: StepKey)
    requires step in {AssembleReviewInput, Report, Cleanup}
    ensures !Blocked(marks, step)
  {}

  /** Neither is the first step: nothing before it can have failed. */
  lemma FirstNeverBlocked(marks: Marks)
    requires InOrder(marks, 0)
    ensures !Blocked(marks, Detect)
  {
    forall hard: StepKey | StepIndex(hard) < StepIndex(AssembleReviewInput)
      ensures !HardFailed(marks, hard)
    {
      assert !Settled(marks, hard);
    }
  }

  lemma BlockedHasCause(marks: Marks, front: nat, step: StepKey)
    requires InOrder(marks, front) && Blocked(marks, step) && StepIndex(step) == front
    ensures HasEarlierCause(marks, step)
  {
    if GateFailed(marks, step) {
      var gate :| step in ApplicationGate(gate) && FailedBecause(marks, gate, Some(Application));
      assert StepIndex(gate) < StepIndex(step);
    } else if step == AgentReview && FailedBecause(marks, AssembleReviewInput, None) {
      assert StepIndex(AssembleReviewInput) < StepIndex(step);
    } else {
      var hard :| StepIndex(hard) < StepIndex(AssembleReviewInput) && HardFailed(marks, hard);
      assert Settled(marks, hard);
    }
  }

  /** A record that is neither failed nor incomplete, put where nothing was settled, blocks nothing. */
  lemma OpenMarkBlocksNothing(marks: Marks, at: StepKey, mark: Mark, step: StepKey)
    requires at == Cleanup || (!Settled(marks, at) && mark.status !in {StepStatus.Failed, StepStatus.Incomplete})
    ensures Blocked(marks[at := mark], step) <==> Blocked(marks, step)
  {
    BlockedDependsOnFailures(marks, marks[at := mark], step);
  }

  /** A cause stays a cause when a step that was not settled gets a record. */
  lemma CauseStays(marks: Marks, at: StepKey, mark: Mark, step: StepKey)
    requires HasEarlierCause(marks, step) && (at == Cleanup || !Settled(marks, at))
    ensures HasEarlierCause(marks[at := mark], step)
  {
    var cause :| cause in marks && StepIndex(cause) < StepIndex(step)
      && marks[cause].status in {StepStatus.Failed, StepStatus.Incomplete};
    assert Settled(marks, cause) && cause != Cleanup;
    assert marks[at := mark][cause] == marks[cause];
  }

  lemma CausesStay(marks: Marks, at: StepKey, mark: Mark)
    requires SkipsHaveCauses(marks) && (at == Cleanup || !Settled(marks, at))
    requires mark.status == StepStatus.Skipped ==> at != Cleanup && HasEarlierCause(marks, at)
    ensures SkipsHaveCauses(marks[at := mark])
  {
    var after := marks[at := mark];
    forall step | step in after && after[step].status == StepStatus.Skipped
      ensures step != Cleanup && HasEarlierCause(after, step)
    {
      assert HasEarlierCause(marks, step);
      CauseStays(marks, at, mark, step);
    }
  }

  function Moves(mark: Mark): nat {
    if mark.status.Settled() then 1 else 0
  }

  lemma OrderStays(marks: Marks, front: nat, step: StepKey, mark: Mark)
    requires InOrder(marks, front) && step != Cleanup && StepIndex(step) == front
    ensures InOrder(marks[step := mark], front + Moves(mark))
  {
    assert front < WORK_STEPS;
    forall s: StepKey | s != Cleanup
      ensures Settled(marks[step := mark], s) <==> StepIndex(s) < front + Moves(mark)
    {
      StepIndexInjective(s, step);
      assert Settled(marks, s) <==> StepIndex(s) < front;
    }
  }

  /** Recording the step in front: the front moves on exactly when the record settles the step. */
  lemma WorkMark(marks: Marks, front: nat, step: StepKey, mark: Mark)
    requires GoodMarks(marks, front) && step != Cleanup && StepIndex(step) == front
    requires mark.status != StepStatus.Cancelled
    requires mark.status == StepStatus.Skipped ==> HasEarlierCause(marks, step)
    requires mark.status == Running ==> !Blocked(marks, step)
    ensures GoodMarks(marks[step := mark], front + Moves(mark))
  {
    OrderStays(marks, front, step, mark);
    assert !Settled(marks, step);
    CausesStay(marks, step, mark);
    if mark.status == Running {
      OpenMarkBlocksNothing(marks, step, mark, step);
    }
    forall s | s in marks && s != step && s != Cleanup
      ensures marks[s].status != Running
    {
      StepIndexInjective(s, step);
    }
  }

  /** Recording the cleanup leaves everything about the other steps as it was. */
  lemma CleanupMark(marks: Marks, front: nat, mark: Mark)
    requires GoodMarks(marks, front) && mark.status !in {StepStatus.Cancelled, StepStatus.Skipped}
    ensures GoodMarks(marks[Cleanup := mark], front)
    ensures marks[Cleanup := mark] - {Cleanup} == marks - {Cleanup}
  {
    var after := marks[Cleanup := mark];
    assert forall s: StepKey :: s != Cleanup ==> (Settled(after, s) <==> Settled(marks, s));
    CausesStay(marks, Cleanup, mark);
    forall s | s in after && s != Cleanup && after[s].status == Running
      ensures StepIndex(s) == front && !Blocked(after, s)
    {
      OpenMarkBlocksNothing(marks, Cleanup, mark, s);
    }
  }

  // ---- The skipping loop ----

  lemma SkipKeepsStage(status: RunStatus, marks: Marks, front: nat, step: StepKey)
    requires Good(status, marks, front) && Planned(marks) == Some(SkipStep(step))
    ensures step != Cleanup && StepIndex(step) == front && Blocked(marks, step)
    ensures !(step in marks && marks[step].status == Running)
    ensures Stage(status, front + 1) && !IsVerdict(status)
  {
    PlannedStep(marks, front);
    if step in {AssembleReviewInput, Report} {
      NeverGated(marks, step);
    }
    if step == Detect {
      FirstNeverBlocked(marks);
    }
  }

  /** What is settled stays, the cleanup is not touched, and nothing starts to run. */
  ghost predicate MarksExtend(before: Marks, after: Marks) {
    && (forall step :: Settled(before, step) ==> step in after && after[step] == before[step])
    && (Cleanup in before <==> Cleanup in after)
    && (Cleanup in before ==> after[Cleanup] == before[Cleanup])
    && (forall step :: step in after && after[step].status == Running ==>
      step in before && before[step].status == Running)
  }

  lemma SettlingExtends(marks: Marks, step: StepKey, mark: Mark)
    requires !Settled(marks, step) && step != Cleanup && mark.status != Running
    ensures MarksExtend(marks, marks[step := mark])
  {}

  /** One skipped step. */
  lemma SkipMark(status: RunStatus, marks: Marks, front: nat, step: StepKey, kind: Option<FailureKind>)
    requires Good(status, marks, front) && Planned(marks) == Some(SkipStep(step))
    ensures var after := marks[step := Mark(StepStatus.Skipped, kind)];
      Good(status, after, front + 1) && MarksExtend(marks, after)
  {
    SkipKeepsStage(status, marks, front, step);
    BlockedHasCause(marks, front, step);
    assert !Settled(marks, step);
    hide Planned, Blocked, GoodMarks, MarksExtend, HasEarlierCause;
    WorkMark(marks, front, step, Mark(StepStatus.Skipped, kind));
    SettlingExtends(marks, step, Mark(StepStatus.Skipped, kind));
  }

  lemma SkippedRow(steps: StepRows, status: RunStatus, runId: RunId, attempt: nat, front: nat, step: StepKey)
    requires Good(status, MarksOf(steps, runId, attempt), front)
    requires Planned(MarksOf(steps, runId, attempt)) == Some(SkipStep(step))
    ensures var key := StepGuardKey(runId, attempt, step);
      var (refused, row) := MarkSkipped(RowOf(steps, key), step, "SKIPPED_UPSTREAM");
      && !refused && row.Some? && row.value.status == StepStatus.Skipped && front < WORK_STEPS
      && var before, after := MarksOf(steps, runId, attempt), MarksOf(steps[key := row.value], runId, attempt);
         after == before[step := Mark(StepStatus.Skipped, row.value.failureKind)]
         && Good(status, after, front + 1) && MarksExtend(before, after)
  {
    var key := StepGuardKey(runId, attempt, step);
    var marks := MarksOf(steps, runId, attempt);
    SkipKeepsStage(status, marks, front, step);
    assert !Settled(marks, step);
    assert key in steps <==> step in marks;
    var row := MarkSkipped(RowOf(steps, key), step, "SKIPPED_UPSTREAM").1.value;
    MarksPut(steps, key, row);
    SkipMark(status, marks, front, step, row.failureKind);
  }

  lemma ExtendTransitive(a: Marks, b: Marks, c: Marks)
    requires MarksExtend(a, b) && MarksExtend(b, c)
    ensures MarksExtend(a, c)
  {
    forall step | Settled(a, step) ensures step in c && c[step] == a[step] {
      assert Settled(b, step);
    }
  }

  lemma SkipOnce(steps: StepRows, runId: RunId, attempt: nat, step: StepKey, row: StepRow)
    requires Planned(MarksOf(steps, runId, attempt)) == Some(SkipStep(step))
    requires MarkSkipped(RowOf(steps, StepGuardKey(runId, attempt, step)), step, "SKIPPED_UPSTREAM") ==
      (false, Some(row))
    ensures SkipBlocked(steps, runId, attempt) ==
      SkipBlocked(steps[StepGuardKey(runId, attempt, step) := row], runId, attempt)
  {}

  predicate SkipIsNext(marks: Marks) {
    Planned(marks).Some? && Planned(marks).value.SkipStep?
  }

  /** The loop keeps the invariant and everything already settled, and ends at a step to run or at
      the end. */
  ghost predicate SkipsWell(status: RunStatus, before: Marks, after: Marks, front: nat, front': nat) {
    && front <= front' <= WORK_STEPS && Good(status, after, front') && MarksExtend(before, after)
    && (SkipIsNext(before) ==> front < front') && !SkipIsNext(after)
  }

  lemma SkipsOn(status: RunStatus, a: Marks, b: Marks, c: Marks, front: nat, front': nat)
    ensures MarksExtend(a, b) && SkipsWell(status, b, c, front + 1, front') ==> SkipsWell(status, a, c, front, front')
  {
    if MarksExtend(a, b) && MarksExtend(b, c) {
      ExtendTransitive(a, b, c);
    }
  }

  lemma StandsWell(status: RunStatus, marks: Marks, front: nat)
    requires Good(status, marks, front) && !SkipIsNext(marks)
    ensures SkipsWell(status, marks, marks, front, front)
  {
    hide SkipIsNext;
  }

  /** The loop never meets a RUNNING step. */
  lemma {:induction false} SkippingIsGood(status: RunStatus, steps: StepRows, runId: RunId, attempt: nat, front: nat)
      returns (front': nat)
    requires Good(status, MarksOf(steps, runId, attempt), front)
    ensures !SkipBlocked(steps, runId, attempt).1
    ensures var before, after := MarksOf(steps, runId, attempt),
      MarksOf(SkipBlocked(steps, runId, attempt).0, runId, attempt);
      SkipsWell(status, before, after, front, front')
    decreases WORK_STEPS - front
  {
    hide Good, SkipsWell, MarksExtend, SkipBlocked, Planned, MarkSkipped, MarksOf;
    var marks := MarksOf(steps, runId, attempt);
    front' := front;
    if SkipIsNext(marks) {
      var step := Planned(marks).value.stepKey;
      var key := StepGuardKey(runId, attempt, step);
      SkippedRow(steps, status, runId, attempt, front, step);
      var row := MarkSkipped(RowOf(steps, key), step, "SKIPPED_UPSTREAM").1.value;
      SkipOnce(steps, runId, attempt, step, row);
      front' := SkippingIsGood(status, steps[key := row], runId, attempt, front + 1);
      SkipsOn(status, marks, MarksOf(steps[key := row], runId, attempt),
        MarksOf(SkipBlocked(steps, runId, attempt).0, runId, attempt), front, front');
    } else {
      NothingBlocked(steps, runId, attempt);
      StandsWell(status, marks, front);
    }
  }

  // ---- One run in the world ----

  datatype RunIdent = RunIdent(id: RunId, attempt: nat, headSha: string)

  predicate JobOf(r: RunIdent, job: Job) {
    job.runId == r.id && job.attempt == r.attempt && job.headSha == r.headSha
  }

  function MarksIn(w: World, r: RunIdent): Marks {
    MarksOf(w.steps, r.id, r.attempt)
  }

  function StatusIn(w: World, r: RunIdent): RunStatus
    requires r.id in w.runs
  {
    w.runs[r.id].status
  }

  ghost predicate NoRival(runs: Runs, id: RunId) {
    forall other :: other in runs && other != id ==> !IsActive(runs[other].status)
  }

  ghost predicate Alone(w: World, r: RunIdent) {
    Identifies(w.runs, r.id, r.attempt, r.headSha) && NoRival(w.runs, r.id)
  }

  ghost predicate Core(w: World, r: RunIdent, front: nat) {
    Alone(w, r) && Good(StatusIn(w, r), MarksIn(w, r), front)
  }

  /** With no rival, a status write stores what it asks for. */
  lemma UnrivalledWrite(runs: Runs, id: RunId, row: RunRow)
    requires id in runs && NoRival(runs, id) && row.status != Queued
    ensures WriteStatus(runs, id, row) == runs[id := row]
  {
    if !IsActive(runs[id].status) {
      assert ActiveIds(runs) == {};
    }
  }

  lemma Transitioned(w: World, r: RunIdent, job: Job, to: RunStatus)
    requires Alone(w, r) && JobOf(r, job) && to != Queued
    requires IsValidTransition(StatusIn(w, r), to, w.runs[r.id].cleanupStatus == Cleaned)
    ensures StoreWriteFor(w, job, Transition(to)) == (w.(runs := w.runs[r.id := Moved(w.runs[r.id], to)]), NoFailure)
    ensures Alone(StoreWriteFor(w, job, Transition(to)).0, r)
  {
    UnrivalledWrite(w.runs, r.id, Moved(w.runs[r.id], to));
  }

  /** The transition a step in front asks for is always in the table, except for a cancelled run. */
  lemma PhaseIsLegal(status: RunStatus, marks: Marks, front: nat, step: StepKey)
    requires Good(status, marks, front) && step != Cleanup && StepIndex(step) == front && !Cancelling(status)
    ensures var target := PhaseForStep(step).value;
      && status != Received
      && (status == target || target in Transitions(status))
      && Good(target, marks, front) && IsActive(target) && !Cancelling(target)
      && (step == Report <==> front == 9)
  {}

  lemma PhaseMoved(w: World, r: RunIdent, job: Job, front: nat)
    requires Core(w, r, front) && JobOf(r, job) && job.stepKey != Cleanup && StepIndex(job.stepKey) == front
    ensures var (w', failure) := MoveToStepPhase(w, job, StatusIn(w, r));
      && w' == w.(runs := w'.runs)
      && (StatusIn(w, r) == RunStatus.Cancelled ==>
        w' == w && failure == StoreFailed(InvalidTransition(RunStatus.Cancelled, PhaseForStep(job.stepKey).value)))
      && (!Cancelling(StatusIn(w, r)) ==>
        failure == NoFailure && Core(w', r, front) && StatusIn(w', r) == PhaseForStep(job.stepKey).value)
  {
    hide Good, NoRival;
    var status := StatusIn(w, r);
    if !Cancelling(status) {
      PhaseIsLegal(status, MarksIn(w, r), front, job.stepKey);
      var target := PhaseForStep(job.stepKey).value;
      if status != target {
        Transitioned(w, r, job, target);
      }
    }
  }

  /** What the guarded step in front leaves behind. */
  function GuardedMark(outcome: GuardOutcome): Mark {
    match outcome
    case Executed(result) => Mark(result.Status(), result.Kind())
    case Threw => Mark(Pending, None)
    case _ => Mark(Running, None)
  }

  lemma GuardedRow(steps: StepRows, key: StepGuardKey, now: int, token: nat, operation: Operation)
    requires key in steps ==> !IsTerminalForRetry(key.stepKey, steps[key].status)
    ensures var (outcome, row) := RunOnce(RowOf(steps, key), key.stepKey, now, token, operation);
      && !outcome.AlreadyTerminal?
      && (outcome == Busy ==> Put(steps, key, row) == steps && key in steps && steps[key].status == Running)
      && (outcome != Busy ==>
           MarksOf(Put(steps, key, row), key.runId, key.attempt)
             == MarksOf(steps, key.runId, key.attempt)[key.stepKey := GuardedMark(outcome)])
      && (operation.Returns? && !outcome.Busy? ==> outcome == Executed(operation.result))
  {
    var (outcome, row) := RunOnce(RowOf(steps, key), key.stepKey, now, token, operation);
    if outcome != Busy {
      MarksPut(steps, key, row.value);
    }
  }

  /** Every payload is an old one, or the cleanup job of a cancellation. */
  ghost predicate OutboxGrows(before: World, after: World, r: RunIdent) {
    forall key :: key in after.outbox ==>
      || (key in before.outbox && after.outbox[key].payload == before.outbox[key].payload)
      || (r.id in after.runs && Cancelling(StatusIn(after, r))
          && after.outbox[key].payload == Some(Job(r.id, r.attempt, r.headSha, Cleanup)))
  }

  lemma CancelLanded(w: World, r: RunIdent, now: int)
    requires Alone(w, r)
    ensures var w' := CancelWorld(w, r.id, now);
      && Alone(w', r) && w'.steps == w.steps && w'.jobs == w.jobs
      && StatusIn(w', r) == (if IsCancellable(StatusIn(w, r)) then CancelRequested else StatusIn(w, r))
      && OutboxGrows(w, w', r)
  {
    if IsCancellable(StatusIn(w, r)) {
      UnrivalledWrite(w.runs, r.id, w.runs[r.id].(status := CancelRequested, cleanupStatus := CleanupPending));
    }
  }

  /** A guarded step in front records what came of it; the front moves on exactly when it comes
      back with a result. */
  lemma WorkRecord(marks: Marks, front: nat, step: StepKey, outcome: GuardOutcome)
    requires GoodMarks(marks, front) && step != Cleanup && StepIndex(step) == front && !Blocked(marks, step)
    requires outcome.Executed? || outcome.Threw? || outcome.Died?
    ensures GoodMarks(marks[step := GuardedMark(outcome)], front + if outcome.Executed? then 1 else 0)
  {
    WorkMark(marks, front, step, GuardedMark(outcome));
  }

  lemma WorkStepGuarded(w: World, r: RunIdent, job: Job, d: Delivery, front: nat)
    requires GoodMarks(MarksIn(w, r), front) && JobOf(r, job) && job.stepKey != Cleanup
    requires StepIndex(job.stepKey) == front && !Blocked(MarksIn(w, r), job.stepKey)
    ensures var (w', outcome) := GuardedStep(w, job, d);
      && !outcome.AlreadyTerminal? && w' == w.(steps := w'.steps)
      && (outcome == Busy ==> w' == w && job.stepKey in MarksIn(w, r) && MarksIn(w, r)[job.stepKey].status == Running)
      && (d.operation.Returns? && outcome != Busy ==> outcome == Executed(d.operation.result))
      && (outcome != Busy ==> MarksIn(w', r) == MarksIn(w, r)[job.stepKey := GuardedMark(outcome)])
      && GoodMarks(MarksIn(w', r), front + if outcome.Executed? then 1 else 0)
  {
    OpenRow(w, r, job, front);
    GuardedRow(w.steps, KeyOf(job), d.now, d.token, d.operation);
    var outcome := GuardedStep(w, job, d).1;
    if outcome != Busy {
      WorkRecord(MarksIn(w, r), front, job.stepKey, outcome);
    }
  }

  lemma OpenRow(w: World, r: RunIdent, job: Job, front: nat)
    requires InOrder(MarksIn(w, r), front) && JobOf(r, job) && job.stepKey != Cleanup && StepIndex(job.stepKey) == front
    ensures KeyOf(job) in w.steps ==> !w.steps[KeyOf(job)].status.Settled()
    ensures KeyOf(job) in w.steps <==> job.stepKey in MarksIn(w, r)
    ensures KeyOf(job) in w.steps ==> w.steps[KeyOf(job)].status == MarksIn(w, r)[job.stepKey].status
  {
    assert !Settled(MarksIn(w, r), job.stepKey);
  }

  // ---- One delivery ----

  /** What may happen to any delivery; the queue will deliver again. */
  predicate Harmless(failure: Failure) {
    failure in {NoFailure, StepIsBusy, OperationThrew, WorkerDied, DispatchFailed}
  }

  /** What a delivery may do to the run: the front moves on, a job or an outbox row is added only if
      it fits, and what fitted before still fits. */
  ghost predicate Progressed(w: World, w': World, r: RunIdent, front: nat, front': nat)
    requires r.id in w.runs
  {
    && Core(w', r, front')
    && FitsGrow(StatusIn(w, r), MarksIn(w, r), front, StatusIn(w', r), MarksIn(w', r), front')
    && JobsGrow(w, w', r, front')
    && OutboxGrows(w, w', r)
  }

  ghost predicate FitsGrow(status: RunStatus, marks: Marks, front: nat,
      status': RunStatus, marks': Marks, front': nat) {
    && front <= front'
    && (status == CancelRequested || Settled(marks, Cleanup) ==>
         status' == CancelRequested || Settled(marks', Cleanup) || front' == WORK_STEPS)
  }

  ghost predicate JobsGrow(w: World, w': World, r: RunIdent, front': nat)
    requires r.id in w'.runs
  {
    w'.jobs != w.jobs ==>
      && |w'.jobs| == |w.jobs| + 1
      && var job := w'.jobs[|w.jobs|];
         w'.jobs == w.jobs + [job] && JobOf(r, job) && StepFits(StatusIn(w', r), MarksIn(w', r), front', job.stepKey)
  }

  lemma FitsStay(status: RunStatus, marks: Marks, front: nat, status': RunStatus, marks': Marks, front': nat,
      step: StepKey)
    requires FitsGrow(status, marks, front, status', marks', front') && StepFits(status, marks, front, step)
    ensures StepFits(status', marks', front', step)
  {}

  /** The job for the planned step fits; dispatching has no other effect. */
  lemma DispatchFits(w: World, r: RunIdent, job: Job, d: Delivery, front: nat)
    requires Core(w, r, front) && JobOf(r, job)
    ensures var (w', failure) := DispatchNext(w, job, d);
      && Progressed(w, w', r, front, front) && w' == w.(jobs := w'.jobs)
      && (failure == NoFailure || failure == DispatchFailed)
  {
    PlannedStep(MarksIn(w, r), front);
  }

  lemma CleanupDispatchFits(w: World, r: RunIdent, job: Job, d: Delivery, front: nat)
    requires Core(w, r, front) && JobOf(r, job) && StatusIn(w, r) == CancelRequested
    ensures var (w', failure) := Dispatch(w, job.(stepKey := Cleanup), d);
      && Progressed(w, w', r, front, front)
      && (failure == NoFailure || failure == DispatchFailed)
  {}

  lemma AfterWorkStep(w: World, r: RunIdent, job: Job, d: Delivery, front: nat, outcome: GuardOutcome)
    requires Core(w, r, front) && JobOf(r, job) && job.stepKey !in {Report, Cleanup}
    ensures var (w', failure) := AfterStep(w, job, d, outcome);
      && Progressed(w, w', r, front, front)
      && (failure == NoFailure || failure == DispatchFailed)
  {
    if StatusIn(w, r) == CancelRequested {
      CleanupDispatchFits(w, r, job, d, front);
    } else {
      DispatchFits(w, r, job, d, front);
    }
  }

  lemma VerdictIgnoresOpenCleanup(marks: Marks)
    requires Cleanup in marks ==> marks[Cleanup].status == Pending
    ensures Verdict(marks) == Verdict(marks - {Cleanup})
  {
    var work := marks - {Cleanup};
    forall step: StepKey
      ensures step in marks && HardFailed(marks, step) <==> step in work && HardFailed(work, step)
      ensures step in marks && FailedBecause(marks, step, Some(Application)) <==>
        step in work && FailedBecause(work, step, Some(Application))
    {}
  }

  lemma ReportFinalized(w: World, r: RunIdent, job: Job)
    requires Alone(w, r) && GoodMarks(MarksIn(w, r), WORK_STEPS) && JobOf(r, job) && StatusIn(w, r) == Reporting
    requires Cleanup in MarksIn(w, r) ==> MarksIn(w, r)[Cleanup].status == Pending
    ensures var (w', failure) := FinalizeReport(w, job);
      && Core(w', r, WORK_STEPS) && failure == NoFailure && w' == w.(runs := w'.runs)
      && StatusIn(w', r) == Verdict(MarksIn(w, r))
  {
    VerdictIgnoresOpenCleanup(MarksIn(w, r));
    Transitioned(w, r, job, Verdict(MarksIn(w, r)));
  }

  /** After the report: the verdict. */
  lemma AfterReport(w: World, r: RunIdent, job: Job, d: Delivery, outcome: GuardOutcome)
    requires Alone(w, r) && GoodMarks(MarksIn(w, r), WORK_STEPS) && JobOf(r, job) && job.stepKey == Report
    requires StatusIn(w, r) == Reporting
    requires Cleanup in MarksIn(w, r) ==> MarksIn(w, r)[Cleanup].status == Pending
    ensures var (w', failure) := AfterStep(w, job, d, outcome);
      && Core(w', r, WORK_STEPS) && JobsGrow(w, w', r, WORK_STEPS) && OutboxGrows(w, w', r) && w'.steps == w.steps
      && StatusIn(w', r) == Verdict(MarksIn(w, r)) && (failure == NoFailure || failure == DispatchFailed)
  {
    ReportFinalized(w, r, job);
    var w1 := FinalizeReport(w, job).0;
    DispatchFits(w1, r, job, d, WORK_STEPS);
    assert AfterStep(w, job, d, outcome) == DispatchNext(w1, job, d);
  }

  /** A cancellation that got in before the report is finalized makes the verdict an illegal request. */
  lemma AfterCancelledReport(w: World, r: RunIdent, job: Job, d: Delivery, outcome: GuardOutcome)
    requires Alone(w, r) && JobOf(r, job) && job.stepKey == Report && StatusIn(w, r) == CancelRequested
    ensures AfterStep(w, job, d, outcome) ==
      (w, StoreFailed(InvalidTransition(CancelRequested, Verdict(MarksIn(w, r)))))
  {}

  lemma CleanupWritten(w: World, r: RunIdent, job: Job, status: CleanupStatus)
    requires Alone(w, r) && JobOf(r, job)
    ensures var (w', failure) := StoreWriteFor(w, job, SetCleanup(status));
      && failure == NoFailure && Alone(w', r)
      && w' == w.(runs := w.runs[r.id := w.runs[r.id].(cleanupStatus := status)])
  {}

  predicate CleanupPassed(marks: Marks) {
    Cleanup in marks && marks[Cleanup].status == StepStatus.Passed
  }

  lemma CleanupRow(w: World, r: RunIdent, job: Job)
    requires JobOf(r, job) && job.stepKey == Cleanup && SkipsHaveCauses(MarksIn(w, r)) && NoneCancelled(MarksIn(w, r))
    ensures KeyOf(job) in w.steps <==> Cleanup in MarksIn(w, r)
    ensures KeyOf(job) in w.steps ==> w.steps[KeyOf(job)].status == MarksIn(w, r)[Cleanup].status
    ensures KeyOf(job) in w.steps && IsTerminalForRetry(Cleanup, w.steps[KeyOf(job)].status) <==>
      CleanupPassed(MarksIn(w, r))
  {}

  /** The guarded cleanup: a passed one is final, any other is tried again. */
  lemma CleanupGuarded(w: World, r: RunIdent, job: Job, d: Delivery, front: nat)
    requires GoodMarks(MarksIn(w, r), front) && JobOf(r, job) && job.stepKey == Cleanup
    ensures var (w', outcome) := GuardedStep(w, job, d);
      && w' == w.(steps := w'.steps)
      && (CleanupPassed(MarksIn(w, r)) ==> w' == w && outcome == AlreadyTerminal(StepStatus.Passed))
      && (!CleanupPassed(MarksIn(w, r)) ==> !outcome.AlreadyTerminal?)
      && (outcome == Busy ==> w' == w && Cleanup in MarksIn(w, r) && MarksIn(w, r)[Cleanup].status == Running)
      && (Operated(outcome) ==> MarksIn(w', r) == MarksIn(w, r)[Cleanup := GuardedMark(outcome)])
      && (d.operation.Returns? && Operated(outcome) ==> outcome == Executed(d.operation.result))
      && GoodMarks(MarksIn(w', r), front)
  {
    CleanupRow(w, r, job);
    if !CleanupPassed(MarksIn(w, r)) {
      GuardedRow(w.steps, KeyOf(job), d.now, d.token, d.operation);
      var outcome := GuardedStep(w, job, d).1;
      if outcome != Busy {
        CleanupRecord(MarksIn(w, r), front, outcome);
      }
    }
  }

  lemma CleanupRecord(marks: Marks, front: nat, outcome: GuardOutcome)
    requires GoodMarks(marks, front) && (outcome.Executed? || outcome.Threw? || outcome.Died?)
    ensures GoodMarks(marks[Cleanup := GuardedMark(outcome)], front)
  {
    CleanupMark(marks, front, GuardedMark(outcome));
  }

  /** For a finished run only the cleanup mark changes, so the run stays good. */
  lemma CleanupKeepsGood(status: RunStatus, marks: Marks, marks': Marks)
    requires Good(status, marks, WORK_STEPS) && IsVerdict(status) && GoodMarks(marks', WORK_STEPS)
    requires marks' - {Cleanup} == marks - {Cleanup}
    ensures Good(status, marks', WORK_STEPS)
  {}

  lemma FinishedRunCannotBeCancelled(w: World, r: RunIdent, now: int)
    requires Alone(w, r) && IsVerdict(StatusIn(w, r))
    ensures CancelWorld(w, r.id, now) == w
  {}

  lemma OnlyCleanupChanges(w: World, r: RunIdent, job: Job, d: Delivery)
    requires GoodMarks(MarksIn(w, r), WORK_STEPS) && JobOf(r, job) && job.stepKey == Cleanup
    ensures var w' := GuardedStep(w, job, d).0;
      w' == w.(steps := w'.steps) && GoodMarks(MarksIn(w', r), WORK_STEPS)
        && MarksIn(w', r) - {Cleanup} == MarksIn(w, r) - {Cleanup}
  {
    hide GoodMarks, GuardedStep;
    CleanupGuarded(w, r, job, d, WORK_STEPS);
  }

  /** The guarded cleanup of a finished run. */
  lemma FinishedCleanup(w: World, r: RunIdent, job: Job, d: Delivery)
    requires Core(w, r, WORK_STEPS) && JobOf(r, job) && job.stepKey == Cleanup && IsVerdict(StatusIn(w, r))
    ensures var (w', outcome) := RunStepOnce(w, job, d);
      && (w', outcome) == GuardedStep(w, job, d)
      && Core(w', r, WORK_STEPS) && w' == w.(steps := w'.steps)
  {
    hide GoodMarks, GuardedStep, CancelWorld, MarksOf, NoRival;
    OnlyCleanupChanges(w, r, job, d);
    var w' := GuardedStep(w, job, d).0;
    CleanupKeepsGood(StatusIn(w, r), MarksIn(w, r), MarksIn(w', r));
    FinishedRunCannotBeCancelled(w', r, d.now);
  }

  lemma AfterFinishedCleanup(w: World, r: RunIdent, job: Job, d: Delivery, outcome: GuardOutcome)
    requires Core(w, r, WORK_STEPS) && JobOf(r, job) && job.stepKey == Cleanup && IsVerdict(StatusIn(w, r))
    ensures var (w', failure) := AfterStep(w, job, d, outcome);
      && Progressed(w, w', r, WORK_STEPS, WORK_STEPS) && StatusIn(w', r) == StatusIn(w, r) && w'.steps == w.steps
      && w'.runs[r.id].cleanupStatus == (if StepSucceeded(outcome) then Cleaned else CleanupFailed)
      && (failure == NoFailure || failure == DispatchFailed)
  {
    var status := if StepSucceeded(outcome) then Cleaned else CleanupFailed;
    CleanupWritten(w, r, job, status);
    var w1 := StoreWriteFor(w, job, SetCleanup(status)).0;
    DispatchFits(w1, r, job, d, WORK_STEPS);
  }

  lemma ExecuteCleanupIs(w: World, r: RunIdent, job: Job, d: Delivery)
    requires Core(w, r, WORK_STEPS) && JobOf(r, job) && job.stepKey == Cleanup && IsVerdict(StatusIn(w, r))
    ensures var w1 := StoreWriteFor(w, job, SetCleanup(CleanupPending)).0;
      && Core(w1, r, WORK_STEPS) && StatusIn(w1, r) == StatusIn(w, r)
      && w1.steps == w.steps && w1.jobs == w.jobs && w1.outbox == w.outbox
      && Execute(w, job, d, StatusIn(w, r)) == Conclude(RunStepOnce(w1, job, d).0, job, d, RunStepOnce(w1, job, d).1)
  {
    hide Good, MarksOf, RunStepOnce, Conclude, StoreWriteFor, Write;
    CleanupWritten(w, r, job, CleanupPending);
  }

  lemma ConcludeCleanup(w: World, r: RunIdent, job: Job, d: Delivery, outcome: GuardOutcome)
    requires Core(w, r, WORK_STEPS) && JobOf(r, job) && job.stepKey == Cleanup && IsVerdict(StatusIn(w, r))
    ensures var (w', failure) := Conclude(w, job, d, outcome);
      && Progressed(w, w', r, WORK_STEPS, WORK_STEPS) && StatusIn(w', r) == StatusIn(w, r) && w'.steps == w.steps
      && Harmless(failure)
  {
    hide Good;
    AfterFinishedCleanup(w, r, job, d, outcome);
  }

  /** The cleanup at the end of an uncancelled run. */
  lemma ExecuteCleanup(w: World, r: RunIdent, job: Job, d: Delivery)
    requires Core(w, r, WORK_STEPS) && JobOf(r, job) && job.stepKey == Cleanup && IsVerdict(StatusIn(w, r))
    ensures var (w', failure) := Execute(w, job, d, StatusIn(w, r));
      && Progressed(w, w', r, WORK_STEPS, WORK_STEPS) && StatusIn(w', r) == StatusIn(w, r)
      && Harmless(failure)
  {
    hide Good, Execute, RunStepOnce, Conclude, Alone, GuardedStep;
    ExecuteCleanupIs(w, r, job, d);
    var w1 := StoreWriteFor(w, job, SetCleanup(CleanupPending)).0;
    FinishedCleanup(w1, r, job, d);
    var (w2, outcome) := RunStepOnce(w1, job, d);
    ConcludeCleanup(w2, r, job, d, outcome);
  }

  /** A cancellation that commits during a guarded step takes the status and arms the cleanup, no more. */
  lemma CancelDuringStep(w: World, r: RunIdent, job: Job, d: Delivery)
    requires Alone(w, r) && JobOf(r, job) && IsCancellable(StatusIn(w, r))
    ensures var (w', outcome) := RunStepOnce(w, job, d);
      && outcome == GuardedStep(w, job, d).1 && w'.steps == GuardedStep(w, job, d).0.steps
      && w'.jobs == w.jobs && Alone(w', r) && OutboxGrows(w, w', r)
      && StatusIn(w', r) == (if d.landing == AroundStep then CancelRequested else StatusIn(w, r))
  {
    var w1 := GuardedStep(w, job, d).0;
    assert Alone(w1, r) && w1.outbox == w.outbox;
    CancelLanded(w1, r, d.now);
  }

  /** Moving on within the phase that a step belongs to, or giving the run up to a cancellation. */
  lemma StageAfterWork(phase: RunStatus, marks: Marks, marks': Marks, front: nat, step: StepKey, mark: Mark,
      status': RunStatus)
    requires Good(phase, marks, front) && step !in {Report, Cleanup} && StepIndex(step) == front
    requires PhaseForStep(step) == Some(phase)
    requires marks' == marks || marks' == marks[step := mark]
    requires GoodMarks(marks', front) || GoodMarks(marks', front + 1)
    requires status' in {phase, CancelRequested}
    ensures GoodMarks(marks', front) ==> Good(status', marks', front)
    ensures GoodMarks(marks', front + 1) ==> Good(status', marks', front + 1)
  {
    assert Cleanup in marks' <==> Cleanup in marks;
  }

  /** The step is the report, and it is produced. */
  predicate ReportReturns(steps: StepRows, job: Job, d: Delivery) {
    && job.stepKey == Report
    && RunOnce(RowOf(steps, KeyOf(job)), job.stepKey, d.now, d.token, d.operation).0.Executed?
  }

  /** The report is produced, and a cancellation commits around it. */
  predicate CancelBeatsReport(steps: StepRows, job: Job, d: Delivery) {
    d.landing == AroundStep && ReportReturns(steps, job, d)
  }

  /** What is known right after a guarded work step. */
  ghost predicate StepTaken(w: World, r: RunIdent, job: Job, d: Delivery, front: nat, w1: World, outcome: GuardOutcome)
    requires r.id in w.runs
  {
    && Alone(w1, r) && GoodMarks(MarksIn(w1, r), front + if outcome.Executed? then 1 else 0)
    && StatusIn(w1, r) == (if d.landing == AroundStep then CancelRequested else StatusIn(w, r))
    && (MarksIn(w1, r) == MarksIn(w, r) || MarksIn(w1, r) == MarksIn(w, r)[job.stepKey := GuardedMark(outcome)])
    && !outcome.AlreadyTerminal? && w1.jobs == w.jobs && OutboxGrows(w, w1, r)
  }

  lemma TakeStep(w: World, r: RunIdent, job: Job, d: Delivery, front: nat)
    requires Alone(w, r) && GoodMarks(MarksIn(w, r), front) && JobOf(r, job) && job.stepKey != Cleanup
    requires StepIndex(job.stepKey) == front && !Blocked(MarksIn(w, r), job.stepKey) && IsCancellable(StatusIn(w, r))
    ensures StepTaken(w, r, job, d, front, RunStepOnce(w, job, d).0, RunStepOnce(w, job, d).1)
    ensures RunStepOnce(w, job, d).1 == RunOnce(RowOf(w.steps, KeyOf(job)), job.stepKey, d.now, d.token, d.operation).0
  {
    WorkStepGuarded(w, r, job, d, front);
    CancelDuringStep(w, r, job, d);
    hide GoodMarks, Blocked, NoRival, CancelRuns;
  }

  lemma NothingGrows(w: World, r: RunIdent, front: nat)
    requires r.id in w.runs
    ensures JobsGrow(w, w, r, front) && OutboxGrows(w, w, r)
  {}

  lemma OutboxGrowsTransitive(a: World, b: World, c: World, r: RunIdent)
    requires OutboxGrows(a, b, r) && OutboxGrows(b, c, r)
    requires r.id in b.runs && r.id in c.runs && (Cancelling(StatusIn(b, r)) ==> Cancelling(StatusIn(c, r)))
    ensures OutboxGrows(a, c, r)
  {}

  /** A quiet step and then a proper one make a proper one. */
  lemma ProgressAfter(w: World, w1: World, w2: World, r: RunIdent, front: nat, front1: nat)
    requires r.id in w.runs && r.id in w1.runs && w1.jobs == w.jobs && OutboxGrows(w, w1, r)
    requires front <= front1 <= WORK_STEPS
    requires !Cancelling(StatusIn(w, r)) && (Settled(MarksIn(w, r), Cleanup) ==> front == WORK_STEPS)
    requires Core(w2, r, front1) && JobsGrow(w1, w2, r, front1) && OutboxGrows(w1, w2, r)
    requires Cancelling(StatusIn(w1, r)) ==> StatusIn(w2, r) == CancelRequested
    ensures Progressed(w, w2, r, front, front1)
  {
    hide Good, OutboxGrows;
    assert Cancelling(StatusIn(w1, r)) ==> Cancelling(StatusIn(w2, r));
    OutboxGrowsTransitive(w, w1, w2, r);
  }

  lemma OtherStepRun(w: World, r: RunIdent, job: Job, d: Delivery, front: nat, w1: World, outcome: GuardOutcome)
    requires Core(w, r, front) && JobOf(r, job) && job.stepKey !in {Report, Cleanup} && StepIndex(job.stepKey) == front
    requires Some(StatusIn(w, r)) == PhaseForStep(job.stepKey) && StepTaken(w, r, job, d, front, w1, outcome)
    ensures var front' := front + if outcome.Executed? then 1 else 0;
      var (w', failure) := Conclude(w1, job, d, outcome);
      && Progressed(w, w', r, front, front') && Harmless(failure)
      && (d.landing != AroundStep ==> !Cancelling(StatusIn(w', r)))
  {
    hide GoodMarks, FitsGrow, JobsGrow, OutboxGrows, AfterStep;
    var front' := front + if outcome.Executed? then 1 else 0;
    StageAfterWork(StatusIn(w, r), MarksIn(w, r), MarksIn(w1, r), front, job.stepKey, GuardedMark(outcome),
      StatusIn(w1, r));
    OtherStepConcluded(w, r, job, d, front, front', w1, outcome);
  }

  lemma OtherStepConcluded(w: World, r: RunIdent, job: Job, d: Delivery, front: nat, front': nat, w1: World,
      outcome: GuardOutcome)
    requires r.id in w.runs && Core(w1, r, front') && JobOf(r, job) && job.stepKey !in {Report, Cleanup}
    requires front <= front' <= WORK_STEPS
    requires w1.jobs == w.jobs && OutboxGrows(w, w1, r) && !Cancelling(StatusIn(w, r))
    requires (Settled(MarksIn(w, r), Cleanup) ==> front == WORK_STEPS)
    requires StatusIn(w1, r) == (if d.landing == AroundStep then CancelRequested else StatusIn(w, r))
    requires !outcome.AlreadyTerminal?
    ensures var (w', failure) := Conclude(w1, job, d, outcome);
      && Progressed(w, w', r, front, front') && Harmless(failure)
      && (d.landing != AroundStep ==> !Cancelling(StatusIn(w', r)))
  {
    hide Good, FitsGrow, JobsGrow, OutboxGrows, AfterStep;
    NothingGrows(w1, r, front');
    if OutcomeFailure(outcome) == NoFailure {
      AfterWorkStep(w1, r, job, d, front', outcome);
      AfterStepKeepsStatus(w1, job, d, outcome);
    }
    ProgressAfter(w, w1, Conclude(w1, job, d, outcome).0, r, front, front');
  }

  lemma AfterStepKeepsStatus(w: World, job: Job, d: Delivery, outcome: GuardOutcome)
    requires job.stepKey !in {Report, Cleanup}
    ensures var w' := AfterStep(w, job, d, outcome).0; w' == w.(jobs := w'.jobs)
  {}

  lemma ReportRun(w: World, r: RunIdent, job: Job, d: Delivery, w1: World, outcome: GuardOutcome)
    requires Core(w, r, 9) && JobOf(r, job) && job.stepKey == Report && StatusIn(w, r) == Reporting
    requires StepTaken(w, r, job, d, 9, w1, outcome)
    ensures var (w', failure) := Conclude(w1, job, d, outcome);
      && Progressed(w, w', r, 9, 9 + if outcome.Executed? then 1 else 0)
      && (if d.landing == AroundStep && outcome.Executed?
          then failure == StoreFailed(InvalidTransition(CancelRequested, Verdict(MarksIn(w', r))))
          else Harmless(failure))
      && (d.landing != AroundStep ==> !Cancelling(StatusIn(w', r)))
  {
    hide FitsGrow, JobsGrow, OutboxGrows, GoodMarks, AfterStep, MarksOf;
    var w' := Conclude(w1, job, d, outcome).0;
    NothingGrows(w1, r, 9 + if outcome.Executed? then 1 else 0);
    assert Cleanup in MarksIn(w1, r) ==> MarksIn(w1, r)[Cleanup].status == Pending;
    if outcome.Executed? {
      if StatusIn(w1, r) == CancelRequested {
        AfterCancelledReport(w1, r, job, d, outcome);
      } else {
        AfterReport(w1, r, job, d, outcome);
      }
    }
    ProgressAfter(w, w1, w', r, 9, 9 + if outcome.Executed? then 1 else 0);
  }

  lemma AfterPhase(w: World, r: RunIdent, job: Job, d: Delivery, front: nat) returns (front': nat)
    requires Core(w, r, front) && JobOf(r, job) && job.stepKey != Cleanup
    requires StepIndex(job.stepKey) == front && !Blocked(MarksIn(w, r), job.stepKey)
    requires Some(StatusIn(w, r)) == PhaseForStep(job.stepKey)
    ensures var (w1, outcome) := RunStepOnce(w, job, d);
      var (w', failure) := Conclude(w1, job, d, outcome);
      && Progressed(w, w', r, front, front')
      && (if CancelBeatsReport(w.steps, job, d)
          then failure == StoreFailed(InvalidTransition(CancelRequested, Verdict(MarksIn(w', r))))
          else Harmless(failure))
      && (d.landing != AroundStep ==> !Cancelling(StatusIn(w', r)))
  {
    hide Progressed, GoodMarks, Alone, RunStepOnce, Conclude, StepTaken, Blocked;
    TakeStep(w, r, job, d, front);
    var (w1, outcome) := RunStepOnce(w, job, d);
    front' := front + if outcome.Executed? then 1 else 0;
    if job.stepKey != Report {
      OtherStepRun(w, r, job, d, front, w1, outcome);
    } else {
      ReportRun(w, r, job, d, w1, outcome);
    }
  }

  /** Driving a work step of a run that is not being cancelled. */
  lemma ExecuteWork(w: World, r: RunIdent, job: Job, d: Delivery, front: nat) returns (front': nat)
    requires Core(w, r, front) && JobOf(r, job) && job.stepKey != Cleanup && !Cancelling(StatusIn(w, r))
    requires StepIndex(job.stepKey) == front && !Blocked(MarksIn(w, r), job.stepKey)
    ensures var (w', failure) := Execute(w, job, d, StatusIn(w, r));
      && Progressed(w, w', r, front, front')
      && (if CancelBeatsReport(w.steps, job, d)
          then failure == StoreFailed(InvalidTransition(CancelRequested, Verdict(MarksIn(w', r))))
          else Harmless(failure))
      && (d.landing != AroundStep ==> !Cancelling(StatusIn(w', r)))
  {
    PhaseMoved(w, r, job, front);
    var w1 := MoveToStepPhase(w, job, StatusIn(w, r)).0;
    front' := AfterPhase(w1, r, job, d, front);
  }

  /** A cancelled run refuses the phase of every further step. */
  lemma ExecuteCancelled(w: World, r: RunIdent, job: Job, d: Delivery, front: nat)
    requires Core(w, r, front) && JobOf(r, job) && job.stepKey != Cleanup && StatusIn(w, r) == RunStatus.Cancelled
    requires StepIndex(job.stepKey) == front
    ensures Execute(w, job, d, StatusIn(w, r))
         == (w, StoreFailed(InvalidTransition(RunStatus.Cancelled, PhaseForStep(job.stepKey).value)))
  {
    PhaseMoved(w, r, job, front);
  }

  // ---- Cancellation ----

  lemma CancellingStaysGood(marks: Marks, marks': Marks, front: nat, status': RunStatus)
    requires Good(CancelRequested, marks, front) && GoodMarks(marks', front)
    requires status' == CancelRequested || (status' == RunStatus.Cancelled && CleanupPassed(marks'))
    ensures Good(status', marks', front)
  {}

  /** The end of a cancellation's cleanup: confirmed, the run is CANCELLED. */
  lemma CancellationFinalized(w: World, r: RunIdent, job: Job, front: nat, outcome: GuardOutcome)
    requires Core(w, r, front) && JobOf(r, job) && StatusIn(w, r) == CancelRequested
    requires StepSucceeded(outcome) ==> CleanupPassed(MarksIn(w, r))
    ensures var (w', failure) := FinalizeCleanup(w, job, outcome);
      && Core(w', r, front) && w' == w.(runs := w'.runs) && failure == NoFailure
      && StatusIn(w', r) == (if StepSucceeded(outcome) then RunStatus.Cancelled else CancelRequested)
  {
    var status := if StepSucceeded(outcome) then Cleaned else CleanupFailed;
    CleanupWritten(w, r, job, status);
    if StepSucceeded(outcome) {
      var w1 := StoreWriteFor(w, job, SetCleanup(Cleaned)).0;
      Transitioned(w1, r, job, RunStatus.Cancelled);
      CancellingStaysGood(MarksIn(w, r), MarksIn(w, r), front, RunStatus.Cancelled);
    }
  }

  lemma CancellationStep(w: World, r: RunIdent, job: Job, d: Delivery, front: nat)
    requires Core(w, r, front) && JobOf(r, job) && job.stepKey == Cleanup && StatusIn(w, r) == CancelRequested
    ensures var (w', outcome) := RunStepOnce(w, job, d);
      && Core(w', r, front) && w'.jobs == w.jobs && OutboxGrows(w, w', r) && StatusIn(w', r) == CancelRequested
      && (StepSucceeded(outcome) ==> CleanupPassed(MarksIn(w', r)))
  {
    hide GoodMarks, GuardedStep, MarksOf, NoRival, Verdict;
    CleanupGuarded(w, r, job, d, front);
    var (w1, outcome) := GuardedStep(w, job, d);
    CancellingStaysGood(MarksIn(w, r), MarksIn(w1, r), front, CancelRequested);
    CancelLanded(w1, r, d.now);
  }

  lemma AdvanceCancellationIsGood(w: World, r: RunIdent, job: Job, d: Delivery, front: nat)
    requires Core(w, r, front) && JobOf(r, job) && job.stepKey == Cleanup && StatusIn(w, r) == CancelRequested
    ensures var (w', failure) := AdvanceCancellation(w, job, d);
      && Progressed(w, w', r, front, front) && Harmless(failure)
      && StatusIn(w', r) in {CancelRequested, RunStatus.Cancelled}
  {
    hide GoodMarks, RunStepOnce, FinalizeCleanup, MarksOf, OtherStepRunning, Write, Verdict, NoRival;
    if !OtherStepRunning(JobMarks(w, job)) {
      CleanupWritten(w, r, job, CleanupPending);
      var w1 := StoreWriteFor(w, job, SetCleanup(CleanupPending)).0;
      assert Core(w1, r, front);
      CancellationStep(w1, r, job, d, front);
      var (w2, outcome) := RunStepOnce(w1, job, d);
      if OutcomeFailure(outcome) == NoFailure {
        CancellationFinalized(w2, r, job, front, outcome);
      }
    }
  }

  // ---- Any delivery ----

  function SkippedWorld(w: World, r: RunIdent): World {
    w.(steps := SkipBlocked(w.steps, r.id, r.attempt).0)
  }

  /** After the skips, the job's step is the one to run. */
  predicate IsDue(w: World, r: RunIdent, step: StepKey) {
    Planned(MarksIn(SkippedWorld(w, r), r)) == Some(RunStep(step))
  }

  lemma Skipped(w: World, r: RunIdent, front: nat) returns (front': nat)
    requires Core(w, r, front)
    ensures var w1 := SkippedWorld(w, r);
      && !SkipBlocked(w.steps, r.id, r.attempt).1
      && Core(w1, r, front') && Progressed(w, w1, r, front, front') && StatusIn(w1, r) == StatusIn(w, r)
      && !(Planned(MarksIn(w1, r)).Some? && Planned(MarksIn(w1, r)).value.SkipStep?)
  {
    hide GoodMarks, Planned, SkipBlocked, NoRival, MarksOf, Good;
    front' := SkippingIsGood(StatusIn(w, r), w.steps, r.id, r.attempt, front);
    hide MarksExtend;
    SkippedProgressed(w, SkippedWorld(w, r), r, front, front');
  }

  lemma SkippedProgressed(w: World, w1: World, r: RunIdent, front: nat, front': nat)
    requires r.id in w.runs && w1 == w.(steps := w1.steps) && Core(w1, r, front') && front <= front' <= WORK_STEPS
    requires MarksExtend(MarksIn(w, r), MarksIn(w1, r))
    ensures Progressed(w, w1, r, front, front')
  {
    hide MarksOf, Good, NoRival;
  }

  lemma ProgressedTransitive(w: World, w1: World, w2: World, r: RunIdent, front: nat, front1: nat, front2: nat)
    requires r.id in w.runs && r.id in w1.runs && Progressed(w, w1, r, front, front1)
    requires Progressed(w1, w2, r, front1, front2)
    requires w1.jobs == w.jobs && StatusIn(w1, r) == StatusIn(w, r) && w1.outbox == w.outbox
    ensures Progressed(w, w2, r, front, front2)
  {}

  /** A job that fits never comes out of order: its step is due, or already settled. */
  lemma FittingJobIsInOrder(status: RunStatus, marks: Marks, front: nat, step: StepKey)
    requires Good(status, marks, front) && StepFits(status, marks, front, step) && status != CancelRequested
    requires !(Planned(marks).Some? && Planned(marks).value.SkipStep?)
    ensures Planned(marks).Some? && Planned(marks).value.stepKey != step ==> Settled(marks, step)
    ensures Planned(marks) == Some(RunStep(step)) && step != Cleanup ==>
      StepIndex(step) == front && !Blocked(marks, step)
    ensures Planned(marks) == Some(RunStep(Cleanup)) ==>
      IsVerdict(status) && front == WORK_STEPS && !CleanupPassed(marks)
  {
    PlannedStep(marks, front);
    var planned := if Planned(marks).Some? then Planned(marks).value.stepKey else step;
    StepIndexInjective(step, planned);
  }

  /** A cancellation commits after the run was read and before its step asks for another phase. */
  predicate CancelBeatsPhase(status: RunStatus, step: StepKey, d: Delivery) {
    d.landing == BeforePhase && IsCancellable(status) && PhaseForStep(step) != Some(status)
  }

  /** When a delivery asks for an illegal transition. A step is due, and either the run is already
      cancelled, or a cancellation overtakes the change of phase, or one overtakes the verdict. */
  predicate AsksIllegally(w: World, r: RunIdent, job: Job, d: Delivery)
    requires r.id in w.runs
  {
    && JobOf(r, job) && job.stepKey != Cleanup && IsDue(w, r, job.stepKey)
    && (|| StatusIn(w, r) == RunStatus.Cancelled
        || CancelBeatsPhase(StatusIn(w, r), job.stepKey, d)
        || (StatusIn(w, r) != CancelRequested && d.landing != Nowhere
          && ReportReturns(SkippedWorld(w, r).steps, job, d)))
  }

  /** A job of this attempt is for a step that fits; jobs of other attempts and runs are about too. */
  predicate JobFits(w: World, r: RunIdent, front: nat, job: Job)
    requires r.id in w.runs
  {
    JobOf(r, job) ==> StepFits(StatusIn(w, r), MarksIn(w, r), front, job.stepKey)
  }

  /** A run with a work step left to do is active or queued, unless it is being cancelled. */
  lemma DueStepCanBeCancelled(status: RunStatus, marks: Marks, front: nat, step: StepKey)
    requires Good(status, marks, front)
    ensures step != Cleanup && StepIndex(step) == front && !Cancelling(status) ==> IsCancellable(status)
  {}

  lemma AdvanceIsGood(w: World, r: RunIdent, job: Job, d: Delivery, front: nat) returns (front': nat)
    requires Core(w, r, front) && JobOf(r, job) && JobFits(w, r, front, job) && StatusIn(w, r) != CancelRequested
    requires d.landing == BeforePhase ==> !IsCancellable(StatusIn(w, r))
    ensures var (w', failure) := Advance(w, job, d, StatusIn(w, r));
      && Progressed(w, w', r, front, front')
      && (if AsksIllegally(w, r, job, d)
          then failure.StoreFailed? && failure.error.InvalidTransition? else Harmless(failure))
      && (d.landing == Nowhere && StatusIn(w, r) != RunStatus.Cancelled ==> !Cancelling(StatusIn(w', r)))
  {
    hide Good, Execute, DispatchNext, SkipBlocked, ReportReturns, Planned, MarksOf;
    var front1 := Skipped(w, r, front);
    var w1 := SkippedWorld(w, r);
    front' := front1;
    var planned := Planned(MarksIn(w1, r));
    SkippedJobFits(w, w1, r, job, front, front1);
    if planned.Some? && planned.value.stepKey == job.stepKey {
      DueStepCanBeCancelled(StatusIn(w1, r), MarksIn(w1, r), front1, job.stepKey);
      front' := ExecuteIsGood(w1, r, job, d, front1);
      ProgressedTransitive(w, w1, Execute(w1, job, d, StatusIn(w, r)).0, r, front, front1, front');
    } else if planned.Some? {
      DispatchFits(w1, r, job, d, front1);
      ProgressedTransitive(w, w1, DispatchNext(w1, job, d).0, r, front, front1, front1);
    }
  }

  lemma SkippedJobFits(w: World, w1: World, r: RunIdent, job: Job, front: nat, front1: nat)
    requires r.id in w.runs && JobOf(r, job) && JobFits(w, r, front, job) && StatusIn(w, r) != CancelRequested
    requires Progressed(w, w1, r, front, front1) && StatusIn(w1, r) == StatusIn(w, r)
    requires !(Planned(MarksIn(w1, r)).Some? && Planned(MarksIn(w1, r)).value.SkipStep?)
    ensures var marks := MarksIn(w1, r);
      && (Planned(marks).Some? && Planned(marks).value.stepKey != job.stepKey ==> Settled(marks, job.stepKey))
      && (Planned(marks) == Some(RunStep(job.stepKey)) && job.stepKey != Cleanup ==>
        StepIndex(job.stepKey) == front1 && !Blocked(marks, job.stepKey))
      && (Planned(marks) == Some(RunStep(Cleanup)) ==> IsVerdict(StatusIn(w1, r)) && front1 == WORK_STEPS)
  {
    FitsStay(StatusIn(w, r), MarksIn(w, r), front, StatusIn(w1, r), MarksIn(w1, r), front1, job.stepKey);
    FittingJobIsInOrder(StatusIn(w1, r), MarksIn(w1, r), front1, job.stepKey);
  }

  /** Driving the due step. */
  lemma ExecuteIsGood(w: World, r: RunIdent, job: Job, d: Delivery, front: nat) returns (front': nat)
    requires Core(w, r, front) && JobOf(r, job) && StatusIn(w, r) != CancelRequested
    requires job.stepKey != Cleanup ==> StepIndex(job.stepKey) == front && !Blocked(MarksIn(w, r), job.stepKey)
    requires job.stepKey == Cleanup ==> IsVerdict(StatusIn(w, r)) && front == WORK_STEPS
    ensures var (w', failure) := Execute(w, job, d, StatusIn(w, r));
      && Progressed(w, w', r, front, front')
      && (if job.stepKey != Cleanup && (StatusIn(w, r) == RunStatus.Cancelled || CancelBeatsReport(w.steps, job, d))
          then failure.StoreFailed? && failure.error.InvalidTransition? else Harmless(failure))
      && (d.landing == Nowhere && StatusIn(w, r) != RunStatus.Cancelled ==> !Cancelling(StatusIn(w', r)))
  {
    hide Good, Execute, MarksOf, NoRival, Blocked, ReportReturns;
    front' := front;
    if job.stepKey == Cleanup {
      ExecuteCleanup(w, r, job, d);
    } else if StatusIn(w, r) == RunStatus.Cancelled {
      ExecuteCancelled(w, r, job, d, front);
    } else {
      front' := ExecuteWork(w, r, job, d, front);
    }
  }

  ghost predicate Sound(w: World, r: RunIdent, front: nat) {
    && Core(w, r, front)
    && (forall job :: job in w.jobs ==> JobFits(w, r, front, job))
    && (forall key :: key in w.outbox && w.outbox[key].payload.Some? ==>
      JobFits(w, r, front, w.outbox[key].payload.value))
  }

  /** A cancellation, and then proper progress of the cancelled run, are proper progress. */
  lemma CancelThenProgress(w: World, w1: World, w2: World, r: RunIdent, front: nat, front': nat)
    requires r.id in w.runs && r.id in w1.runs && w1.steps == w.steps && w1.jobs == w.jobs && OutboxGrows(w, w1, r)
    requires StatusIn(w1, r) == CancelRequested && Progressed(w1, w2, r, front, front')
    requires StatusIn(w2, r) in {CancelRequested, RunStatus.Cancelled}
    requires StatusIn(w, r) == CancelRequested || StatusIn(w2, r) == CancelRequested
    ensures Progressed(w, w2, r, front, front')
  {
    hide Good, OutboxGrows;
    OutboxGrowsTransitive(w, w1, w2, r);
  }

  /** A cancellation before a step that needs no new phase is one around the step. */
  lemma EarlyIsAround(w: World, job: Job, d: Delivery, status: RunStatus)
    requires d.landing == BeforePhase && PhaseForStep(job.stepKey) == Some(status)
    ensures Execute(CancelWorld(w, job.runId, d.now), job, d, status) ==
      Execute(w, job, d.(landing := AroundStep), status)
  {
    hide GuardedStep, CancelWorld, AfterStep;
    CancelCommutesWithStep(w, job, d);
    var around := d.(landing := AroundStep);
    assert GuardedStep(w, job, around) == GuardedStep(w, job, d) by { SameGuardedStep(w, job, d); }
    var (w1, outcome) := RunStepOnce(w, job, around);
    assert AfterStep(w1, job, around, outcome) == AfterStep(w1, job, d, outcome) by {
      SameAfterStep(w1, job, d, outcome);
    }
  }

  lemma SameGuardedStep(w: World, job: Job, d: Delivery)
    ensures GuardedStep(w, job, d.(landing := AroundStep)) == GuardedStep(w, job, d)
  {}

  lemma SameAfterStep(w: World, job: Job, d: Delivery, outcome: GuardOutcome)
    ensures AfterStep(w, job, d.(landing := AroundStep), outcome) == AfterStep(w, job, d, outcome)
  {}

  /** A due step whose phase is overtaken by a cancellation. */
  lemma OvertakenPhase(w: World, r: RunIdent, job: Job, d: Delivery, status: RunStatus)
    requires Alone(w, r) && JobOf(r, job) && job.stepKey != Cleanup && StatusIn(w, r) == CancelRequested
    requires IsCancellable(status) && PhaseForStep(job.stepKey) != Some(status)
    ensures Execute(w, job, d, status)
         == (w, StoreFailed(InvalidTransition(CancelRequested, PhaseForStep(job.stepKey).value)))
  {
    hide RunStepOnce, Conclude, NoRival;
  }

  /** The due step, when a cancellation committed after the run was read. */
  lemma ExecuteOvertaken(w: World, r: RunIdent, job: Job, d: Delivery, front: nat) returns (front': nat)
    requires Core(w, r, front) && JobOf(r, job) && job.stepKey != Cleanup
    requires d.landing == BeforePhase && IsCancellable(StatusIn(w, r))
    requires StepIndex(job.stepKey) == front && !Blocked(MarksIn(w, r), job.stepKey)
    ensures var (w', failure) := Execute(CancelWorld(w, r.id, d.now), job, d, StatusIn(w, r));
      && Progressed(w, w', r, front, front')
      && (if CancelBeatsPhase(StatusIn(w, r), job.stepKey, d) || ReportReturns(w.steps, job, d)
          then failure.StoreFailed? && failure.error.InvalidTransition? else Harmless(failure))
  {
    hide Good, Execute, CancelWorld;
    front' := front;
    var w1 := CancelWorld(w, r.id, d.now);
    CancelIsCore(w, r, d.now, front);
    if PhaseForStep(job.stepKey) == Some(StatusIn(w, r)) {
      EarlyIsAround(w, job, d, StatusIn(w, r));
      front' := ExecuteWork(w, r, job, d.(landing := AroundStep), front);
    } else {
      OvertakenPhase(w1, r, job, d, StatusIn(w, r));
      NothingGrows(w1, r, front);
      CancelThenProgress(w, w1, w1, r, front, front);
    }
  }

  lemma CancelIsCore(w: World, r: RunIdent, now: int, front: nat)
    requires Core(w, r, front)
    ensures var w' := CancelWorld(w, r.id, now);
      && Core(w', r, front) && w'.steps == w.steps && w'.jobs == w.jobs && OutboxGrows(w, w', r)
      && StatusIn(w', r) == (if IsCancellable(StatusIn(w, r)) then CancelRequested else StatusIn(w, r))
      && (!IsCancellable(StatusIn(w, r)) && StatusIn(w, r) != CancelRequested ==> w' == w)
  {
    hide GoodMarks, NoRival, EnqueueCleanup, WriteStatus, MarksOf;
    CancelLanded(w, r, now);
  }

  /** A whole `advance` on a run that was cancelled after it was read. */
  lemma AdvanceOvertaken(w: World, r: RunIdent, job: Job, d: Delivery, front: nat) returns (front': nat)
    requires Core(w, r, front) && JobOf(r, job) && JobFits(w, r, front, job)
    requires d.landing == BeforePhase && IsCancellable(StatusIn(w, r))
    ensures var (w', failure) := Advance(CancelWorld(w, r.id, d.now), job, d, StatusIn(w, r));
      && Progressed(w, w', r, front, front')
      && (if AsksIllegally(w, r, job, d)
          then failure.StoreFailed? && failure.error.InvalidTransition? else Harmless(failure))
  {
    hide Good, Execute, DispatchNext, SkipBlocked, CancelWorld, MarksOf, NoRival, JobsGrow, OutboxGrows;
    var front1 := Skipped(w, r, front);
    var w1 := SkippedWorld(w, r);
    var w2 := CancelWorld(w1, r.id, d.now);
    SkippingCommutes(w, r, d.now);
    front' := front1;
    var planned := Planned(MarksIn(w1, r));
    SkippedJobFits(w, w1, r, job, front, front1);
    CancelIsCore(w1, r, d.now, front1);
    if planned.Some? && planned.value.stepKey == job.stepKey {
      front' := ExecuteOvertaken(w1, r, job, d, front1);
      ProgressedTransitive(w, w1, Execute(w2, job, d, StatusIn(w, r)).0, r, front, front1, front');
    } else if planned.Some? {
      DispatchFits(w2, r, job, d, front1);
      CancelThenProgress(w1, w2, DispatchNext(w2, job, d).0, r, front1, front1);
      ProgressedTransitive(w, w1, DispatchNext(w2, job, d).0, r, front, front1, front1);
    } else {
      NothingGrows(w2, r, front1);
      CancelThenProgress(w1, w2, w2, r, front1, front1);
      ProgressedTransitive(w, w1, w2, r, front, front1, front1);
    }
  }

  /** Skipping looks at the step rows only. */
  lemma SkippingCommutes(w: World, r: RunIdent, now: int)
    ensures var w1 := CancelWorld(w, r.id, now);
      && w1.steps == w.steps
      && w1.(steps := SkipBlocked(w1.steps, r.id, r.attempt).0) == CancelWorld(SkippedWorld(w, r), r.id, now)
  {
    hide SkipBlocked;
  }

  /** One delivery of a job of the run, whatever happens in it. */
  lemma HandleCore(w: World, r: RunIdent, job: Job, d: Delivery, front: nat) returns (front': nat)
    requires Core(w, r, front) && job.runId == r.id && JobFits(w, r, front, job)
    ensures var (w', failure) := Handle(w, job, d);
      && Progressed(w, w', r, front, front')
      && (if AsksIllegally(w, r, job, d)
          then failure.StoreFailed? && failure.error.InvalidTransition? else Harmless(failure))
      && (d.landing == Nowhere && !Cancelling(StatusIn(w, r)) ==> !Cancelling(StatusIn(w', r)))
  {
    hide Good, Advance, AdvanceCancellation, IsDue, CancelWorld;
    front' := front;
    if Stale(w, job) {
      NothingGrows(w, r, front);
    } else if StatusIn(w, r) == CancelRequested {
      HandleCancelling(w, r, job, d, front);
    } else if d.landing == BeforePhase && IsCancellable(StatusIn(w, r)) {
      front' := AdvanceOvertaken(w, r, job, d, front);
    } else {
      CancelIsCore(w, r, d.now, front);
      front' := AdvanceIsGood(w, r, job, d, front);
    }
  }

  lemma HandleCancelling(w: World, r: RunIdent, job: Job, d: Delivery, front: nat)
    requires Core(w, r, front) && JobOf(r, job) && StatusIn(w, r) == CancelRequested
    ensures var (w', failure) := Handle(w, job, d); Progressed(w, w', r, front, front) && Harmless(failure)
  {
    hide Good, AdvanceCancellation, CancelWorld, OutboxGrows;
    CancelIsCore(w, r, d.now, front);
    NothingGrows(w, r, front);
    var w1 := CancelledEarly(w, job, d);
    if job.stepKey != Cleanup {
      CleanupDispatchFits(w1, r, job, d, front);
    } else {
      AdvanceCancellationIsGood(w1, r, job, d, front);
    }
    CancelThenProgress(w, w1, Handle(w, job, d).0, r, front, front);
  }

  /** Proper progress keeps every job and every payload fitting. */
  lemma ProgressKeepsSound(w: World, w': World, r: RunIdent, front: nat, front': nat)
    requires Sound(w, r, front) && Progressed(w, w', r, front, front')
    ensures Sound(w', r, front')
  {
    forall job | job in w'.jobs ensures JobFits(w', r, front', job) {
      if job in w.jobs && JobOf(r, job) {
        FitsStay(StatusIn(w, r), MarksIn(w, r), front, StatusIn(w', r), MarksIn(w', r), front', job.stepKey);
      }
    }
    forall key | key in w'.outbox && w'.outbox[key].payload.Some?
      ensures JobFits(w', r, front', w'.outbox[key].payload.value)
    {
      var job := w'.outbox[key].payload.value;
      if key in w.outbox && w'.outbox[key].payload == w.outbox[key].payload && JobOf(r, job) {
        FitsStay(StatusIn(w, r), MarksIn(w, r), front, StatusIn(w', r), MarksIn(w', r), front', job.stepKey);
      }
    }
  }

  // ---- Runs ----

  datatype PublisherFate = Marks | FailsToSend | DiesAfterSending

  datatype RunEvent =
    // the outbox publisher takes a row of this run that is due; it may die after the dispatch
    | Publish(key: OutboxKey, now: int, fate: PublisherFate)
    | Deliver(index: nat, d: Delivery)  // the queue delivers a job of this run that it was ever given
    | CancelRun(now: int)

  predicate IsOwnJob(w: World, r: RunIdent, index: nat) {
    index < |w.jobs| && w.jobs[index].runId == r.id
  }

  /** The row after the publisher, and the job it carries if that went out. */
  function Published(w: World, key: OutboxKey, now: int, fate: PublisherFate): World
    requires key in w.outbox && w.outbox[key].payload.Some?
  {
    var row := O.Claim(w.outbox[key], now);
    var sent := w.(jobs := w.jobs + [row.payload.value]);
    match fate
    case Marks => sent.(outbox := w.outbox[key := O.MarkPublished(row, now + O.LEASE_MS)])
    case FailsToSend => w.(outbox := w.outbox[key := O.MarkFailed(row, now + O.LEASE_MS, now)])
    case DiesAfterSending => sent.(outbox := w.outbox[key := row])
  }

  function Step(w: World, r: RunIdent, e: RunEvent): World {
    match e
    case Publish(key, now, fate) =>
      if key in w.outbox && w.outbox[key].payload.Some? && w.outbox[key].payload.value.runId == r.id
        && O.Claimable(w.outbox[key], now)
      then Published(w, key, now, fate) else w
    case Deliver(index, d) => if IsOwnJob(w, r, index) then Handle(w, w.jobs[index], d).0 else w
    case CancelRun(now) => CancelWorld(w, r.id, now)
  }

  function Run(w: World, r: RunIdent, events: seq<RunEvent>): World
    decreases |events|
  {
    if events == [] then w else Run(Step(w, r, events[0]), r, events[1..])
  }

  /** A freshly admitted attempt: QUEUED, no step on record, and at most its detect job on the way. */
  ghost predicate Fresh(w: World, r: RunIdent) {
    && Alone(w, r) && StatusIn(w, r) == Queued
    && (forall step :: StepGuardKey(r.id, r.attempt, step) !in w.steps)
    && (forall job :: job in w.jobs && JobOf(r, job) ==> job.stepKey == Detect)
    && (forall key :: key in w.outbox && w.outbox[key].payload.Some? && JobOf(r, w.outbox[key].payload.value) ==>
         w.outbox[key].payload.value.stepKey == Detect)
  }

  /** The world after admission: the new row, and its detect row. */
  function AdmittedWorld(w: World, id: RunId, pullRequest: string, headSha: string, now: int): World {
    w.(runs := InsertRun(w.runs, id, Queued, pullRequest, headSha),
       outbox := w.outbox[OutboxKey(id, Detect, 1) := DetectRow(id, 1, headSha, now)])
  }

  /** A run that admission accepts starts fresh, whatever jobs of other runs are queued. */
  lemma AdmissionIsFresh(w: World, id: RunId, pullRequest: string, headSha: string, now: int)
    requires id !in w.runs && AdmissionStatus(w.runs) == Queued
    requires (forall key :: key in w.steps ==> key.runId != id) && (forall job :: job in w.jobs ==> job.runId != id)
    requires forall key :: key in w.outbox && w.outbox[key].payload.Some? ==> w.outbox[key].payload.value.runId != id
    ensures Fresh(AdmittedWorld(w, id, pullRequest, headSha, now), RunIdent(id, 1, headSha))
  {
    assert ActiveIds(w.runs) == {};
    assert forall other :: other in w.runs && IsActive(w.runs[other].status) ==> other in ActiveIds(w.runs);
  }

  /** The world after a retry. */
  function RetriedWorld(w: World, id: RunId, now: int): World
    requires id in w.runs
  {
    var attempt := w.runs[id].currentAttempt + 1;
    w.(runs := RetryRuns(w.runs, id),
       outbox := w.outbox[OutboxKey(id, Detect, attempt) := DetectRow(id, attempt, w.runs[id].headSha, now)])
  }

  /** A retry that is allowed starts fresh, whatever jobs of earlier attempts are still about. */
  lemma RetryIsFresh(w: World, id: RunId, seen: Snapshot, confirmed: bool, maxQueuedRuns: nat, now: int)
    requires RetryAllowed(w.runs, id, seen, confirmed, maxQueuedRuns) && maxQueuedRuns <= MAX_QUEUED_RUNS
    requires forall key :: key in w.steps && key.runId == id ==> key.attempt <= w.runs[id].currentAttempt
    requires forall job :: job in w.jobs && job.runId == id ==> job.attempt <= w.runs[id].currentAttempt
    requires forall key :: key in w.outbox && w.outbox[key].payload.Some? && w.outbox[key].payload.value.runId == id ==>
      w.outbox[key].payload.value.attempt <= w.runs[id].currentAttempt
    ensures Fresh(RetriedWorld(w, id, now), RunIdent(id, w.runs[id].currentAttempt + 1, w.runs[id].headSha))
  {
    assert ActiveIds(w.runs) == {};
    assert forall other :: other in w.runs && IsActive(w.runs[other].status) ==> other in ActiveIds(w.runs);
  }

  predicate NoCancellation(e: RunEvent) {
    match e
    case Publish(_, _, _) => true
    case Deliver(_, d) => d.landing == Nowhere
    case CancelRun(_) => false
  }

  lemma FreshIsSound(w: World, r: RunIdent)
    requires Fresh(w, r)
    ensures Sound(w, r, 0)
  {
    assert MarksIn(w, r) == map[];
  }

  lemma CancelIsSound(w: World, r: RunIdent, now: int, front: nat)
    requires Sound(w, r, front)
    ensures Sound(CancelWorld(w, r.id, now), r, front)
  {
    hide Good, NoRival, CancelWorld, MarksOf;
    CancelIsCore(w, r, now, front);
    NothingGrows(w, r, front);
    var w' := CancelWorld(w, r.id, now);
    ProgressKeepsSound(w, w', r, front, front);
  }

  lemma StepIsSound(w: World, r: RunIdent, e: RunEvent, front: nat) returns (front': nat)
    requires Sound(w, r, front)
    ensures Sound(Step(w, r, e), r, front')
    ensures NoCancellation(e) && !Cancelling(StatusIn(w, r)) ==> !Cancelling(StatusIn(Step(w, r, e), r))
  {
    hide Core, Handle, CancelWorld;
    front' := front;
    match e
    case Publish(_, _, _) => PublishIsSound(w, r, e, front);
    case Deliver(index, d) =>
      if IsOwnJob(w, r, index) {
        front' := HandleCore(w, r, w.jobs[index], d, front);
        ProgressKeepsSound(w, Handle(w, w.jobs[index], d).0, r, front, front');
      }
    case CancelRun(now) => CancelIsSound(w, r, now, front);
  }

  /** Publishing keeps every payload, and hands on one at most. */
  lemma PublishKeepsPayloads(w: World, r: RunIdent, e: RunEvent)
    requires e.Publish?
    ensures var w' := Step(w, r, e);
      && w'.runs == w.runs && w'.steps == w.steps && w'.outbox.Keys == w.outbox.Keys
      && (forall key :: key in w.outbox ==> w'.outbox[key].payload == w.outbox[key].payload)
      && (forall job :: job in w'.jobs ==>
            job in w.jobs || exists key :: key in w.outbox && w.outbox[key].payload == Some(job))
  {}

  lemma PublishIsSound(w: World, r: RunIdent, e: RunEvent, front: nat)
    requires Sound(w, r, front) && e.Publish?
    ensures Sound(Step(w, r, e), r, front) && StatusIn(Step(w, r, e), r) == StatusIn(w, r)
  {
    hide Good, NoRival, Step, MarksOf;
    PublishKeepsPayloads(w, r, e);
  }

  lemma {:induction false} RunIsSound(w: World, r: RunIdent, events: seq<RunEvent>, front: nat) returns (front': nat)
    requires Sound(w, r, front)
    ensures Sound(Run(w, r, events), r, front')
    ensures (forall e :: e in events ==> NoCancellation(e)) && !Cancelling(StatusIn(w, r)) ==>
      !Cancelling(StatusIn(Run(w, r, events), r))
    decreases |events|
  {
    hide Core, Step;
    front' := front;
    if events != [] {
      var front1 := StepIsSound(w, r, events[0], front);
      front' := RunIsSound(Step(w, r, events[0]), r, events[1..], front1);
    }
  }

  /** In every run, with every duplicate, failure and cancellation, a delivery asks for an illegal
      transition exactly when a cancelled run is told to run a due step, or a cancellation overtakes
      a change of phase or the verdict. It is never out of order, never skips a running step, never
      misses its run. */
  lemma IllegalRequestsExactly(w: World, r: RunIdent, events: seq<RunEvent>, index: nat, d: Delivery)
    requires Fresh(w, r) && IsOwnJob(Run(w, r, events), r, index)
    ensures r.id in Run(w, r, events).runs
    ensures var here := Run(w, r, events);
      var failure := Handle(here, here.jobs[index], d).1;
      if AsksIllegally(here, r, here.jobs[index], d)
      then failure.StoreFailed? && failure.error.InvalidTransition? else Harmless(failure)
  {
    hide Good, Handle, Run;
    FreshIsSound(w, r);
    var front := RunIsSound(w, r, events, 0);
    var here := Run(w, r, events);
    var _ := HandleCore(here, r, here.jobs[index], d, front);
  }

  /** Without a cancellation no request is ever illegal. */
  lemma NoIllegalRequest(w: World, r: RunIdent, events: seq<RunEvent>, index: nat, d: Delivery)
    requires Fresh(w, r) && IsOwnJob(Run(w, r, events), r, index)
    requires (forall e :: e in events ==> NoCancellation(e)) && d.landing == Nowhere
    ensures var here := Run(w, r, events); Harmless(Handle(here, here.jobs[index], d).1)
  {
    hide Good, Handle, Run;
    FreshIsSound(w, r);
    var _ := RunIsSound(w, r, events, 0);
    IllegalRequestsExactly(w, r, events, index, d);
  }

  // ---- The verdict ----

  /** What a final status says about the ten work steps. */
  ghost predicate VerdictTells(status: RunStatus, marks: Marks) {
    && (status == RunStatus.Passed <==> forall step: StepKey :: step != Cleanup ==>
      step in marks && marks[step].status == StepStatus.Passed)
    && (status == RunStatus.Failed <==>
          && Report in marks && marks[Report].status == StepStatus.Passed
          && (exists step: StepKey :: step != Cleanup && FailedBecause(marks, step, Some(Application)))
          && (forall step: StepKey :: step != Cleanup ==> !HardFailed(marks, step)))
  }

  lemma VerdictMeaning(status: RunStatus, marks: Marks)
    requires Good(status, marks, WORK_STEPS) && IsVerdict(status)
    ensures VerdictTells(status, marks)
  {
    var work := marks - {Cleanup};
    assert Settled(marks, Report);
    forall step: StepKey | step != Cleanup
      ensures HardFailed(marks, step) <==> step in work && HardFailed(work, step)
      ensures FailedBecause(marks, step, Some(Application)) <==>
        step in work && FailedBecause(work, step, Some(Application))
      ensures Settled(marks, step)
    {
      assert StepIndex(step) < WORK_STEPS by { StepIndexInjective(step, Cleanup); }
    }
    if status == RunStatus.Passed {
      forall step: StepKey | step != Cleanup ensures step in marks && marks[step].status == StepStatus.Passed {
        assert Settled(marks, step);
        NoFailureNoSkip(marks, step);
      }
    }
  }

  lemma CauseOf(marks: Marks, step: StepKey) returns (cause: StepKey)
    requires HasEarlierCause(marks, step)
    ensures cause != Cleanup && (HardFailed(marks, cause) || FailedBecause(marks, cause, Some(Application)))
  {
    cause :| cause in marks && StepIndex(cause) < StepIndex(step)
      && marks[cause].status in {StepStatus.Failed, StepStatus.Incomplete};
  }

  /** Where nothing failed and nothing is incomplete, nothing was skipped. */
  lemma NoFailureNoSkip(marks: Marks, step: StepKey)
    requires GoodMarks(marks, WORK_STEPS) && step != Cleanup && Settled(marks, step)
    requires forall s: StepKey :: s != Cleanup ==> !HardFailed(marks, s) && !FailedBecause(marks, s, Some(Application))
    ensures step in marks && marks[step].status == StepStatus.Passed
  {
    assert !HardFailed(marks, step) && !FailedBecause(marks, step, Some(Application));
    if marks[step].status == StepStatus.Skipped {
      var _ := CauseOf(marks, step);
    }
  }

  /** Whenever a run has its verdict: PASSED says that all ten work steps passed, FAILED that only
      the application is to blame, and every skipped step has its cause on record before it. */
  lemma FinalStatusIsDeserved(w: World, r: RunIdent, events: seq<RunEvent>)
    requires Fresh(w, r)
    ensures var here := Run(w, r, events);
      && r.id in here.runs
      && (IsVerdict(StatusIn(here, r)) ==> VerdictTells(StatusIn(here, r), MarksIn(here, r)))
      && SkipsHaveCauses(MarksIn(here, r))
  {
    FreshIsSound(w, r);
    var front := RunIsSound(w, r, events, 0);
    var here := Run(w, r, events);
    if IsVerdict(StatusIn(here, r)) {
      VerdictMeaning(StatusIn(here, r), MarksIn(here, r));
    }
  }
}