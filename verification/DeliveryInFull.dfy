/** What one delivery does, spelled out case by case on the tables and the queue. */
module DeliveryInFull {
  import opened WorkflowTypes
  import opened RunStatusContract
  import opened Tables
  import opened Plan
  import opened StepGuard
  import opened WorkflowStore
  import opened Api
  import opened Consumer

  predicate IsCurrent(w: World, job: Job) {
    && job.runId in w.runs
    && w.runs[job.runId].currentAttempt == job.attempt && w.runs[job.runId].headSha == job.headSha
  }

  /** The tables after the API's cancel transaction, if it commits at this point of the delivery. */
  function CancelledAt(w: World, job: Job, d: Delivery, point: Landing): World {
    if d.landing == point then
      w.(runs := CancelRuns(w.runs, job.runId), outbox := CancelOutbox(w.runs, w.outbox, job.runId, d.now))
    else w
  }

  /** The delivery ends by handing the job of `step` to the queue, which may be down. */
  predicate HandsOn(w: World, end: (World, Failure), job: Job, step: StepKey, d: Delivery) {
    if d.dispatchFails then end == (w, DispatchFailed)
    else end == (w.(jobs := w.jobs + [Job(job.runId, job.attempt, job.headSha, step)]), NoFailure)
  }

  /** A run that is being cancelled goes on with its cleanup, any other with its plan. */
  predicate GoesOn(w: World, end: (World, Failure), job: Job, d: Delivery) {
    if job.runId in w.runs && w.runs[job.runId].status == CancelRequested then HandsOn(w, end, job, Cleanup, d)
    else
      match Planned(MarksOf(w.steps, job.runId, job.attempt))
      case None => end == (w, NoFailure)
      case Some(action) => HandsOn(w, end, job, action.stepKey, d)
  }

  predicate RunsElsewhere(w: World, job: Job) {
    exists step :: step != Cleanup && StepGuardKey(job.runId, job.attempt, step) in w.steps
      && w.steps[StepGuardKey(job.runId, job.attempt, step)].status == Running
  }

  predicate IsPassed(outcome: GuardOutcome) {
    outcome == Executed(StepPassed) || outcome == AlreadyTerminal(StepStatus.Passed)
  }

  /** How a step that did not come back with a record fails the delivery. */
  predicate FailsWith(outcome: GuardOutcome, failure: Failure) {
    || (outcome == Busy && failure == StepIsBusy)
    || (outcome == Threw && failure == OperationThrew)
    || (outcome == Died && failure == WorkerDied)
  }

  // ---- The writes to the run row ----

  /** The run row is written with another status, which the triggers may turn down. */
  function WithStatus(w: World, id: RunId, to: RunStatus, verdict: Option<RunStatus>): World
    requires id in w.runs
  {
    var row := w.runs[id];
    w.(runs := w.runs[id := row.(status := Granted(w.runs, Some(row.status), to), verdict := verdict)])
  }

  function WithCleanup(w: World, id: RunId, status: CleanupStatus): World
    requires id in w.runs
  {
    w.(runs := w.runs[id := w.runs[id].(cleanupStatus := status)])
  }

  predicate MayMove(row: RunRow, to: RunStatus) {
    IsValidTransition(row.status, to, row.cleanupStatus == Cleaned)
  }

  lemma MovedInFull(w: World, job: Job, to: RunStatus)
    requires IsCurrent(w, job)
    ensures var row := w.runs[job.runId];
      var verdict := if to in {RunStatus.Passed, RunStatus.Failed, RunStatus.Incomplete} then Some(to) else row.verdict;
      StoreWriteFor(w, job, Transition(to)) ==
        if MayMove(row, to) then (WithStatus(w, job.runId, to, verdict), NoFailure)
        else (w, StoreFailed(InvalidTransition(row.status, to)))
  {
    hide IsValidTransition;
    ActiveRunIff(w.runs);
    QueuedIsCounted(w.runs);
  }

  lemma CleanupMarkedInFull(w: World, job: Job, status: CleanupStatus)
    requires IsCurrent(w, job)
    ensures StoreWriteFor(w, job, SetCleanup(status)) == (WithCleanup(w, job.runId, status), NoFailure)
  {}

  /** A cleaned run that is being cancelled may become CANCELLED, and no trigger turns that down. */
  lemma CancelledInFull(w: World, job: Job)
    requires IsCurrent(w, job) && w.runs[job.runId].status == CancelRequested
    ensures var row := w.runs[job.runId].(status := RunStatus.Cancelled, cleanupStatus := Cleaned);
      StoreWriteFor(WithCleanup(w, job.runId, Cleaned), job, Transition(RunStatus.Cancelled)) ==
        (w.(runs := w.runs[job.runId := row]), NoFailure)
  {
    hide StoreWriteFor;
    var cleaned := WithCleanup(w, job.runId, Cleaned);
    MovedInFull(cleaned, job, RunStatus.Cancelled);
    var row := w.runs[job.runId].(status := RunStatus.Cancelled, cleanupStatus := Cleaned);
    assert cleaned.runs[job.runId := row] == w.runs[job.runId := row];
  }

  // ---- Jobs of other attempts, and runs that are being cancelled ----

  lemma StaleJobInFull(w: World, job: Job, d: Delivery)
    requires !IsCurrent(w, job)
    ensures Handle(w, job, d) == (w, NoFailure)
  {}

  lemma HandOverInFull(w: World, job: Job, d: Delivery)
    requires IsCurrent(w, job) && w.runs[job.runId].status == CancelRequested && job.stepKey != Cleanup
    ensures HandsOn(CancelledAt(w, job, d, BeforePhase), Handle(w, job, d), job, Cleanup, d)
  {}

  // ---- The cleanup of a run that is being cancelled ----

  /** Its run row: CANCELLED and CLEANED after a passed cleanup, otherwise still to be cancelled. */
  predicate CancellationEnds(before: RunRow, after: RunRow, outcome: GuardOutcome) {
    if IsPassed(outcome) then after == before.(status := RunStatus.Cancelled, cleanupStatus := Cleaned)
    else if outcome.Executed? || outcome.AlreadyTerminal? then after == before.(cleanupStatus := CleanupFailed)
    else after == before.(cleanupStatus := CleanupPending)
  }

  lemma RunsElsewhereIff(w: World, job: Job)
    ensures RunsElsewhere(w, job) <==> OtherStepRunning(JobMarks(w, job))
  {
    var marks := JobMarks(w, job);
    if RunsElsewhere(w, job) {
      var step :| step != Cleanup && StepGuardKey(job.runId, job.attempt, step) in w.steps
        && w.steps[StepGuardKey(job.runId, job.attempt, step)].status == Running;
      assert step in marks && marks[step].status == Running;
    }
  }

  lemma CancellationFinalizedInFull(w: World, job: Job, outcome: GuardOutcome)
    requires IsCurrent(w, job) && w.runs[job.runId].status == CancelRequested
    ensures FinalizeCleanup(w, job, outcome) ==
      if IsPassed(outcome) then
        (w.(runs := w.runs[job.runId :=
           w.runs[job.runId].(status := RunStatus.Cancelled, cleanupStatus := Cleaned)]), NoFailure)
      else (WithCleanup(w, job.runId, CleanupFailed), NoFailure)
  {
    hide StoreWriteFor;
    CleanupMarkedInFull(w, job, CleanupFailed);
    CleanupMarkedInFull(w, job, Cleaned);
    CancelledInFull(w, job);
  }

  /** Cancelled once more, such a run only has its cleanup row armed. */
  lemma CancelledAgain(w: World, job: Job, d: Delivery, point: Landing)
    requires IsCurrent(w, job) && w.runs[job.runId].status == CancelRequested
    ensures CancelledAt(w, job, d, point) ==
      w.(outbox := if d.landing == point then CancelOutbox(w.runs, w.outbox, job.runId, d.now) else w.outbox)
  {
    hide CancelOutbox;
  }

  lemma SameOutbox(w: World, job: Job, now: int)
    requires IsCurrent(w, job) && w.runs[job.runId].status == CancelRequested
    ensures var w1 := WithCleanup(w, job.runId, CleanupPending);
      CancelOutbox(w1.runs, w.outbox, job.runId, now) == CancelOutbox(w.runs, w.outbox, job.runId, now)
  {}

  lemma CancellationInFull(w: World, job: Job, d: Delivery)
    requires IsCurrent(w, job) && w.runs[job.runId].status == CancelRequested && job.stepKey == Cleanup
    ensures RunsElsewhere(w, job) ==> Handle(w, job, d) == (CancelledAt(w, job, d, BeforePhase), NoFailure)
    ensures !RunsElsewhere(w, job) ==>
      var (end, failure) := Handle(w, job, d);
      var key := StepGuardKey(job.runId, job.attempt, Cleanup);
      var (outcome, row) := RunOnce(RowOf(w.steps, key), Cleanup, d.now, d.token, d.operation);
      && job.runId in end.runs && end.runs == w.runs[job.runId := end.runs[job.runId]]
      && CancellationEnds(w.runs[job.runId], end.runs[job.runId], outcome)
      && end.steps == (if row.Some? then w.steps[key := row.value] else w.steps)
      && end.outbox == (if d.landing == Nowhere then w.outbox else CancelOutbox(w.runs, w.outbox, job.runId, d.now))
      && end.jobs == w.jobs
      && (FailsWith(outcome, failure) || (failure == NoFailure && (outcome.Executed? || outcome.AlreadyTerminal?)))
  {
    hide RunOnce, Advance, StoreWriteFor, OtherStepRunning, RunsElsewhere, MarksOf, FinalizeCleanup, CancelRuns,
      CancelOutbox;
    CancelledAgain(w, job, d, BeforePhase);
    RunsElsewhereIff(w, job);
    var w0 := CancelledAt(w, job, d, BeforePhase);
    var w1 := WithCleanup(w0, job.runId, CleanupPending);
    CleanupMarkedInFull(w0, job, CleanupPending);
    CancelledAgain(GuardedStep(w1, job, d).0, job, d, AroundStep);
    SameOutbox(w0, job, d.now);
    var (w2, outcome) := RunStepOnce(w1, job, d);
    CancellationFinalizedInFull(w2, job, outcome);
  }

  // ---- The plan of a run ----

  lemma NothingPlannedInFull(w: World, job: Job, d: Delivery)
    requires IsCurrent(w, job) && w.runs[job.runId].status != CancelRequested
    requires Planned(MarksOf(w.steps, job.runId, job.attempt)) == None
    ensures Handle(w, job, d) == (CancelledAt(w, job, d, BeforePhase), NoFailure)
  {
    hide Planned, CancelRuns, CancelOutbox;
    NothingBlocked(w.steps, job.runId, job.attempt);
  }

  /** The job is not for the step whose turn it is. */
  lemma OtherStepInFull(w: World, job: Job, d: Delivery, step: StepKey)
    requires IsCurrent(w, job) && w.runs[job.runId].status != CancelRequested
    requires Planned(MarksOf(w.steps, job.runId, job.attempt)) == Some(RunStep(step)) && step != job.stepKey
    ensures var w1 := CancelledAt(w, job, d, BeforePhase);
      var key := StepGuardKey(job.runId, job.attempt, job.stepKey);
      if key !in w.steps || w.steps[key].status in {Pending, Running} then
        Handle(w, job, d) == (w1, OutOfOrder(job.stepKey, step))
      else
        HandsOn(w1, Handle(w, job, d), job, step, d)
  {
    hide Planned, CancelRuns, CancelOutbox;
    NothingBlocked(w.steps, job.runId, job.attempt);
  }

  lemma SkipBlockedInFull(steps: StepRows, job: Job, step: StepKey)
    requires Planned(MarksOf(steps, job.runId, job.attempt)) == Some(SkipStep(step))
    ensures var key := StepGuardKey(job.runId, job.attempt, step);
      SkipBlocked(steps, job.runId, job.attempt) ==
        if key in steps && steps[key].status == Running then (steps, true)
        else
          var kind := if key in steps then steps[key].failureKind else None;
          var row := StepRow(StepStatus.Skipped, kind, Some("SKIPPED_UPSTREAM"), None, None);
          SkipBlocked(steps[key := row], job.runId, job.attempt)
  {
    hide Blocked, CleanupRetryable;
    assert !Settled(MarksOf(steps, job.runId, job.attempt), step);
  }

  /** A step that is to be skipped: one that is RUNNING stops the delivery; any other is marked, and
      the delivery goes on as if it had found the mark. */
  lemma SkipInFull(w: World, job: Job, d: Delivery, step: StepKey)
    requires IsCurrent(w, job) && w.runs[job.runId].status != CancelRequested
    requires Planned(MarksOf(w.steps, job.runId, job.attempt)) == Some(SkipStep(step))
    ensures var key := StepGuardKey(job.runId, job.attempt, step);
      if key in w.steps && w.steps[key].status == Running then
        Handle(w, job, d) == (CancelledAt(w, job, d, BeforePhase), SkipRefused)
      else
        var kind := if key in w.steps then w.steps[key].failureKind else None;
        var row := StepRow(StepStatus.Skipped, kind, Some("SKIPPED_UPSTREAM"), None, None);
        Handle(w, job, d) == Handle(w.(steps := w.steps[key := row]), job, d)
  {
    hide CancelRuns, CancelOutbox, TakeTurn, Planned, SkipBlocked, MarksOf;
    SkipBlockedInFull(w.steps, job, step);
  }

  // ---- The job's own turn ----

  function Phase(step: StepKey): RunStatus {
    if step in {Detect, Fetch} then Planning
    else if step in {Analyze, Test, Build, Preview, Health} then Executing
    else if step == AssembleReviewInput then Analyzing
    else Reporting
  }

  /** Before the step: the run moves to the step's phase unless it was seen there, or its cleanup
      becomes pending. */
  function Started(w: World, job: Job, seen: RunStatus): (World, Failure)
    requires IsCurrent(w, job)
  {
    var row := w.runs[job.runId];
    if job.stepKey == Cleanup then (WithCleanup(w, job.runId, CleanupPending), NoFailure)
    else if seen == Phase(job.stepKey) then (w, NoFailure)
    else if seen == Received then (w, NotAdmitted)
    else if !MayMove(row, Phase(job.stepKey)) then
      (w, StoreFailed(InvalidTransition(row.status, Phase(job.stepKey))))
    else (WithStatus(w, job.runId, Phase(job.stepKey), row.verdict), NoFailure)
  }

  /** After the report, a run that is not over takes its verdict. */
  predicate ReportEnds(w: World, end: (World, Failure), job: Job, d: Delivery)
    requires IsCurrent(w, job)
  {
    var row := w.runs[job.runId];
    var verdict := Verdict(MarksOf(w.steps, job.runId, job.attempt));
    if row.status in
      {RunStatus.Passed, RunStatus.Failed, RunStatus.Incomplete, RunStatus.Cancelled, RejectedByCapacity} then
      GoesOn(w, end, job, d)
    else if !MayMove(row, verdict) then end == (w, StoreFailed(InvalidTransition(row.status, verdict)))
    else GoesOn(WithStatus(w, job.runId, verdict, Some(verdict)), end, job, d)
  }

  /** After the cleanup: FAILED, or CLEANED and then CANCELLED if a cancellation came in between. */
  predicate CleanupEnds(w: World, end: (World, Failure), job: Job, d: Delivery, outcome: GuardOutcome)
    requires IsCurrent(w, job)
  {
    var row := w.runs[job.runId];
    if !IsPassed(outcome) then end == (WithCleanup(w, job.runId, CleanupFailed), NoFailure)
    else if row.status != CancelRequested then GoesOn(WithCleanup(w, job.runId, Cleaned), end, job, d)
    else
      var row' := row.(status := RunStatus.Cancelled, cleanupStatus := Cleaned);
      GoesOn(w.(runs := w.runs[job.runId := row']), end, job, d)
  }

  /** After the guarded step. */
  predicate StepEnds(w: World, end: (World, Failure), job: Job, d: Delivery, outcome: GuardOutcome)
    requires IsCurrent(w, job)
  {
    if !outcome.Executed? && !outcome.AlreadyTerminal? then end.0 == w && FailsWith(outcome, end.1)
    else if job.stepKey == Report then ReportEnds(w, end, job, d)
    else if job.stepKey == Cleanup then CleanupEnds(w, end, job, d, outcome)
    else GoesOn(w, end, job, d)
  }

  lemma StartedInFull(w: World, job: Job, d: Delivery, seen: RunStatus)
    requires IsCurrent(w, job)
    ensures var (w1, failure) := Started(w, job, seen);
      if failure != NoFailure then Execute(w, job, d, seen) == (w1, failure)
      else var (w2, outcome) := RunStepOnce(w1, job, d); Execute(w, job, d, seen) == Conclude(w2, job, d, outcome)
  {
    hide StoreWriteFor, RunStepOnce, Conclude, Granted, IsValidTransition;
    MovedInFull(w, job, Phase(job.stepKey));
    CleanupMarkedInFull(w, job, CleanupPending);
  }

  lemma GoesOnInFull(w: World, job: Job, d: Delivery)
    ensures var on := if StatusNow(w, job.runId) == CancelRequested then Dispatch(w, job.(stepKey := Cleanup), d)
                      else DispatchNext(w, job, d);
      GoesOn(w, on, job, d)
  {
    hide Planned, MarksOf;
  }

  lemma VerdictIsFinal(marks: Marks)
    ensures Verdict(marks) in {RunStatus.Passed, RunStatus.Failed, RunStatus.Incomplete}
  {}

  lemma ReportEndsInFull(w: World, job: Job, d: Delivery, outcome: GuardOutcome)
    requires IsCurrent(w, job) && job.stepKey == Report
    ensures ReportEnds(w, AfterStep(w, job, d, outcome), job, d)
  {
    hide StoreWriteFor, Granted, IsValidTransition, GoesOn, Dispatch, DispatchNext, Verdict, MarksOf;
    var verdict := Verdict(MarksOf(w.steps, job.runId, job.attempt));
    VerdictIsFinal(MarksOf(w.steps, job.runId, job.attempt));
    MovedInFull(w, job, verdict);
    GoesOnInFull(w, job, d);
    GoesOnInFull(WithStatus(w, job.runId, verdict, Some(verdict)), job, d);
  }

  lemma CleanupEndsInFull(w: World, job: Job, d: Delivery, outcome: GuardOutcome)
    requires IsCurrent(w, job) && job.stepKey == Cleanup
    ensures CleanupEnds(w, AfterStep(w, job, d, outcome), job, d, outcome)
  {
    hide StoreWriteFor, GoesOn, Dispatch, DispatchNext;
    CleanupMarkedInFull(w, job, CleanupFailed);
    CleanupMarkedInFull(w, job, Cleaned);
    var cleaned := WithCleanup(w, job.runId, Cleaned);
    GoesOnInFull(cleaned, job, d);
    if w.runs[job.runId].status == CancelRequested {
      CancelledInFull(w, job);
      GoesOnInFull(StoreWriteFor(cleaned, job, Transition(RunStatus.Cancelled)).0, job, d);
    }
  }

  lemma StepEndsInFull(w: World, job: Job, d: Delivery, outcome: GuardOutcome)
    requires IsCurrent(w, job)
    ensures StepEnds(w, Conclude(w, job, d, outcome), job, d, outcome)
  {
    hide GoesOn, Dispatch, DispatchNext, ReportEnds, CleanupEnds, FinalizeReport, FinalizeCleanup;
    GoesOnInFull(w, job, d);
    if job.stepKey == Report { ReportEndsInFull(w, job, d, outcome); }
    if job.stepKey == Cleanup { CleanupEndsInFull(w, job, d, outcome); }
  }

  lemma StaysCurrent(w: World, job: Job, d: Delivery, point: Landing, seen: RunStatus)
    requires IsCurrent(w, job)
    ensures IsCurrent(CancelledAt(w, job, d, point), job)
    ensures IsCurrent(Started(w, job, seen).0, job)
  {
    hide Granted, IsValidTransition, CancelOutbox;
  }

  lemma DueStep(w: World, job: Job, d: Delivery)
    requires IsCurrent(w, job) && w.runs[job.runId].status != CancelRequested
    requires Planned(MarksOf(w.steps, job.runId, job.attempt)) == Some(RunStep(job.stepKey))
    ensures Handle(w, job, d) == Execute(CancelledAt(w, job, d, BeforePhase), job, d, w.runs[job.runId].status)
  {
    hide Planned, Execute, CancelRuns, CancelOutbox, MarksOf;
    NothingBlocked(w.steps, job.runId, job.attempt);
  }

  lemma GuardedInFull(w: World, job: Job, d: Delivery)
    ensures var key := StepGuardKey(job.runId, job.attempt, job.stepKey);
      var (outcome, row) := RunOnce(RowOf(w.steps, key), job.stepKey, d.now, d.token, d.operation);
      var after := w.(steps := if row.Some? then w.steps[key := row.value] else w.steps);
      RunStepOnce(w, job, d) == (CancelledAt(after, job, d, AroundStep), outcome)
  {
    hide RunOnce, CancelRuns, CancelOutbox;
  }

  /** The job's step is due: the run is moved, the step runs under the guard, and the delivery ends
      as its outcome says. A cancellation may commit before the move or around the step. */
  lemma StepInFull(w: World, job: Job, d: Delivery)
    requires IsCurrent(w, job) && w.runs[job.runId].status != CancelRequested
    requires Planned(MarksOf(w.steps, job.runId, job.attempt)) == Some(RunStep(job.stepKey))
    ensures var w1 := CancelledAt(w, job, d, BeforePhase);
      && IsCurrent(w1, job)
      && var (w2, failure) := Started(w1, job, w.runs[job.runId].status);
      var key := StepGuardKey(job.runId, job.attempt, job.stepKey);
      var (outcome, row) := RunOnce(RowOf(w2.steps, key), job.stepKey, d.now, d.token, d.operation);
      var w3 := w2.(steps := if row.Some? then w2.steps[key := row.value] else w2.steps);
      if failure != NoFailure then Handle(w, job, d) == (w2, failure)
      else
        && IsCurrent(w3, job) && IsCurrent(CancelledAt(w3, job, d, AroundStep), job)
        && StepEnds(CancelledAt(w3, job, d, AroundStep), Handle(w, job, d), job, d, outcome)
  {
    hide Planned, RunOnce, StepEnds, Conclude, Execute, MarksOf, Handle, Started, CancelledAt, RunStepOnce;
    DueStep(w, job, d);
    var w1 := CancelledAt(w, job, d, BeforePhase);
    var seen := w.runs[job.runId].status;
    StaysCurrent(w, job, d, BeforePhase, seen);
    StaysCurrent(w1, job, d, AroundStep, seen);
    StartedInFull(w1, job, d, seen);
    var (w2, failure) := Started(w1, job, seen);
    if failure == NoFailure {
      GuardedInFull(w2, job, d);
      var key := StepGuardKey(job.runId, job.attempt, job.stepKey);
      var (outcome, row) := RunOnce(RowOf(w2.steps, key), job.stepKey, d.now, d.token, d.operation);
      var w3 := w2.(steps := if row.Some? then w2.steps[key := row.value] else w2.steps);
      StaysCurrent(w3, job, d, AroundStep, seen);
      StepEndsInFull(CancelledAt(w3, job, d, AroundStep), job, d, outcome);
    }
  }
}
