/** The workflow consumer: one delivered job drives one step and dispatches the next. */
module Consumer {
  import opened WorkflowTypes
  import opened RunStatusContract
  import opened Tables
  import opened Plan
  import opened StepGuard
  import opened WorkflowStore
  import opened Api

  /** `jobs` is everything that was ever handed to the queue, in order. */
  datatype World = World(runs: Runs, steps: StepRows, outbox: Outbox, jobs: seq<Job>)

  datatype Failure =
    | NoFailure
    | OutOfOrder(requested: StepKey, expected: StepKey)
    | NotAdmitted
    | StoreFailed(error: StoreError)
    | SkipRefused
    | StepIsBusy
    | OperationThrew
    | WorkerDied
    | DispatchFailed

  /** Where in a delivery an API cancellation commits. `BeforePhase` is anywhere between the read of
      the run and the request for the step's phase. `AroundStep` is anywhere from there to the
      finalization: before, during or after the guarded step, which never looks at the run row
      (lemma CancelCommutesWithStep). A later one is no different from one between deliveries. */
  datatype Landing = Nowhere | BeforePhase | AroundStep

  /** What the world does during one delivery: the clock, the fresh lease token, how the step
      executor ends, where an API cancellation commits, whether the queue is down. */
  datatype Delivery = Delivery(now: int, token: nat, operation: Operation, landing: Landing, dispatchFails: bool)

  function PhaseForStep(step: StepKey): Option<RunStatus> {
    match step
    case Detect | Fetch => Some(Planning)
    case Analyze | Test | Build | Preview | Health => Some(Executing)
    case AssembleReviewInput => Some(Analyzing)
    case AgentReview | Report => Some(Reporting)
    case Cleanup => None
  }

  function KeyOf(job: Job): StepGuardKey {
    StepGuardKey(job.runId, job.attempt, job.stepKey)
  }

  function JobMarks(w: World, job: Job): Marks {
    MarksOf(w.steps, job.runId, job.attempt)
  }

  /** The failure of a store write, as the consumer sees it. */
  function FailureOf(error: Option<StoreError>): Failure {
    if error.Some? then StoreFailed(error.value) else NoFailure
  }

  function StoreWriteFor(w: World, job: Job, write: StoreWrite): (World, Failure) {
    var (runs, error) := Write(w.runs, job.runId, job.attempt, job.headSha, write);
    (w.(runs := runs), FailureOf(error))
  }

  function Dispatch(w: World, job: Job, d: Delivery): (World, Failure) {
    if d.dispatchFails then (w, DispatchFailed) else (w.(jobs := w.jobs + [job]), NoFailure)
  }

  /** `dispatchNext` names the planned step, even one that will turn out to be skipped. */
  function DispatchNext(w: World, job: Job, d: Delivery): (World, Failure) {
    match Planned(JobMarks(w, job))
    case None => (w, NoFailure)
    case Some(action) => Dispatch(w, job.(stepKey := action.stepKey), d)
  }

  lemma MarksPut(steps: StepRows, key: StepGuardKey, row: StepRow)
    ensures MarksOf(steps[key := row], key.runId, key.attempt)
         == MarksOf(steps, key.runId, key.attempt)[key.stepKey := Mark(row.status, row.failureKind)]
  {}

  /** Skipping the first open step moves the first open position on. */
  lemma {:induction false} SkipMovesOn(marks: Marks, step: StepKey, mark: Mark, index: nat)
    requires index <= FirstOpen(marks) < |WORKFLOW_STEPS| && step == WORKFLOW_STEPS[FirstOpen(marks)]
    requires mark.status.Settled()
    requires FirstOpenFrom(marks, index) == FirstOpen(marks)
    ensures FirstOpen(marks) < FirstOpenFrom(marks[step := mark], index)
    decreases |WORKFLOW_STEPS| - index
  {
    var marks' := marks[step := mark];
    assert Settled(marks', WORKFLOW_STEPS[index]);
    if index < FirstOpen(marks) {
      SkipMovesOn(marks, step, mark, index + 1);
    } else {
      assert FirstOpenFrom(marks', index) == FirstOpenFrom(marks', index + 1);
    }
  }

  /** The skipping part of the `advance` loop: every blocked step in front is marked skipped. The
      flag tells that a step to skip was RUNNING. */
  function SkipBlocked(steps: StepRows, runId: RunId, attempt: nat): (StepRows, bool)
    decreases |WORKFLOW_STEPS| - FirstOpen(MarksOf(steps, runId, attempt))
  {
    var marks := MarksOf(steps, runId, attempt);
    match Planned(marks)
    case Some(SkipStep(step)) =>
      var key := StepGuardKey(runId, attempt, step);
      var (refused, row) := MarkSkipped(RowOf(steps, key), step, "SKIPPED_UPSTREAM");
      if refused then (steps, true)
      else
        MarksPut(steps, key, row.value);
        SkipMovesOn(marks, step, Mark(row.value.status, row.value.failureKind), 0);
        SkipBlocked(steps[key := row.value], runId, attempt)
    case _ => (steps, false)
  }

  lemma NothingBlocked(steps: StepRows, runId: RunId, attempt: nat)
    requires var planned := Planned(MarksOf(steps, runId, attempt)); planned == None || planned.value.RunStep?
    ensures SkipBlocked(steps, runId, attempt) == (steps, false)
  {}

  /** `moveToStepPhase`: ask for the step's phase unless the run is already there. */
  function MoveToStepPhase(w: World, job: Job, status: RunStatus): (World, Failure) {
    match PhaseForStep(job.stepKey)
    case None => (w, NoFailure)
    case Some(target) =>
      if status == target then (w, NoFailure)
      else if status == Received then (w, NotAdmitted)
      else StoreWriteFor(w, job, Transition(target))
  }

  /** The operation took place. */
  predicate Operated(outcome: GuardOutcome) {
    !outcome.AlreadyTerminal? && !outcome.Busy?
  }

  function GuardedStep(w: World, job: Job, d: Delivery): (World, GuardOutcome) {
    var (outcome, row) := RunOnce(RowOf(w.steps, KeyOf(job)), job.stepKey, d.now, d.token, d.operation);
    (w.(steps := Put(w.steps, KeyOf(job), row)), outcome)
  }

  /** The API's cancel transaction. */
  function CancelWorld(w: World, id: RunId, now: int): World {
    w.(runs := CancelRuns(w.runs, id), outbox := CancelOutbox(w.runs, w.outbox, id, now))
  }

  /** A cancellation that commits between the read of the run and the request for a phase. */
  function CancelledEarly(w: World, job: Job, d: Delivery): World {
    if d.landing == BeforePhase then CancelWorld(w, job.runId, d.now) else w
  }

  /** Run the guarded step; an API cancellation may commit around it. */
  function RunStepOnce(w: World, job: Job, d: Delivery): (World, GuardOutcome) {
    var (w1, outcome) := GuardedStep(w, job, d);
    (if d.landing == AroundStep then CancelWorld(w1, job.runId, d.now) else w1, outcome)
  }

  /** The guard never looks at the run row, nor the cancellation at a step row: in whichever order
      they commit, the outcome and the tables are the same. */
  lemma CancelCommutesWithStep(w: World, job: Job, d: Delivery)
    ensures var (after, outcome) := GuardedStep(w, job, d);
      GuardedStep(CancelWorld(w, job.runId, d.now), job, d) == (CancelWorld(after, job.runId, d.now), outcome)
  {}

  /** A cancellation that commits after the consumer's last look at the run is one after the delivery. */
  lemma CancelCommutesWithDispatch(w: World, job: Job, d: Delivery)
    ensures var (after, failure) := DispatchNext(w, job, d);
      DispatchNext(CancelWorld(w, job.runId, d.now), job, d) == (CancelWorld(after, job.runId, d.now), failure)
  {}

  predicate StepSucceeded(outcome: GuardOutcome) {
    outcome == Executed(StepPassed) || outcome == AlreadyTerminal(StepStatus.Passed)
  }

  /** The run's status now, or RECEIVED when there is no such run. */
  function StatusNow(w: World, id: RunId): RunStatus {
    if id in w.runs then w.runs[id].status else Received
  }

  function FinalizeReport(w: World, job: Job): (World, Failure) {
    if job.runId !in w.runs || IsTerminal(w.runs[job.runId].status) then (w, NoFailure)
    else StoreWriteFor(w, job, Transition(Verdict(JobMarks(w, job))))
  }

  function FinalizeCleanup(w: World, job: Job, outcome: GuardOutcome): (World, Failure) {
    if !StepSucceeded(outcome) then StoreWriteFor(w, job, SetCleanup(CleanupFailed))
    else
      var (w1, failure) := StoreWriteFor(w, job, SetCleanup(Cleaned));
      if failure != NoFailure || StatusNow(w1, job.runId) != CancelRequested then (w1, failure)
      else StoreWriteFor(w1, job, Transition(RunStatus.Cancelled))
  }

  /** What follows a guarded step that came back with a record. */
  function AfterStep(w: World, job: Job, d: Delivery, outcome: GuardOutcome): (World, Failure) {
    var (w1, failure) :=
      if job.stepKey == Report then FinalizeReport(w, job)
      else if job.stepKey == Cleanup then FinalizeCleanup(w, job, outcome)
      else (w, NoFailure);
    if failure != NoFailure || (job.stepKey == Cleanup && !StepSucceeded(outcome)) then (w1, failure)
    else if StatusNow(w1, job.runId) == CancelRequested then Dispatch(w1, job.(stepKey := Cleanup), d)
    else DispatchNext(w1, job, d)
  }

  function OutcomeFailure(outcome: GuardOutcome): Failure {
    match outcome
    case Busy => StepIsBusy
    case Threw => OperationThrew
    case Died => WorkerDied
    case _ => NoFailure
  }

  /** A step that did not come back with a record fails the delivery, for the queue to retry. */
  function Conclude(w: World, job: Job, d: Delivery, outcome: GuardOutcome): (World, Failure) {
    if OutcomeFailure(outcome) != NoFailure then (w, OutcomeFailure(outcome)) else AfterStep(w, job, d, outcome)
  }

  /** Drive the job's step; `status` is the run status read at the start of the delivery. */
  function Execute(w: World, job: Job, d: Delivery, status: RunStatus): (World, Failure) {
    var (w1, moveFailure) := MoveToStepPhase(w, job, status);
    if moveFailure != NoFailure then (w1, moveFailure)
    else
      var (w2, cleanupFailure) :=
        if job.stepKey == Cleanup then StoreWriteFor(w1, job, SetCleanup(CleanupPending)) else (w1, NoFailure);
      if cleanupFailure != NoFailure then (w2, cleanupFailure)
      else
        var (w3, outcome) := RunStepOnce(w2, job, d);
        Conclude(w3, job, d, outcome)
  }

  /** A turn of the `advance` loop that finds nothing to skip. */
  function TakeTurn(w: World, job: Job, d: Delivery, status: RunStatus): (World, Failure) {
    match Planned(JobMarks(w, job))
    case None => (w, NoFailure)
    case Some(action) =>
      if action.stepKey == job.stepKey then Execute(w, job, d, status)
      else if Settled(JobMarks(w, job), job.stepKey) then DispatchNext(w, job, d)
      else (w, OutOfOrder(job.stepKey, action.stepKey))
  }

  function Advance(w: World, job: Job, d: Delivery, status: RunStatus): (World, Failure) {
    var (steps, refused) := SkipBlocked(w.steps, job.runId, job.attempt);
    var w1 := w.(steps := steps);
    if refused then (w1, SkipRefused) else TakeTurn(w1, job, d, status)
  }

  lemma AdvanceStops(w: World, steps: StepRows, job: Job, d: Delivery, status: RunStatus)
    requires SkipBlocked(w.steps, job.runId, job.attempt) == (steps, true)
    ensures Advance(w, job, d, status) == (w.(steps := steps), SkipRefused)
  {}

  lemma AdvanceTakesTurn(w: World, steps: StepRows, job: Job, d: Delivery, status: RunStatus)
    requires SkipBlocked(w.steps, job.runId, job.attempt) == (steps, false)
    ensures Advance(w, job, d, status) == TakeTurn(w.(steps := steps), job, d, status)
  {}

  predicate OtherStepRunning(marks: Marks) {
    exists step :: step in marks && step != Cleanup && marks[step].status == Running
  }

  /** `advanceCancellation` for a cleanup job. */
  function AdvanceCancellation(w: World, job: Job, d: Delivery): (World, Failure) {
    if OtherStepRunning(JobMarks(w, job)) then (w, NoFailure)
    else
      var (w1, failure) := StoreWriteFor(w, job, SetCleanup(CleanupPending));
      if failure != NoFailure then (w1, failure)
      else
        var (w2, outcome) := RunStepOnce(w1, job, d);
        if OutcomeFailure(outcome) != NoFailure then (w2, OutcomeFailure(outcome))
        else FinalizeCleanup(w2, job, outcome)
  }

  predicate Stale(w: World, job: Job) {
    !Identifies(w.runs, job.runId, job.attempt, job.headSha)
  }

  /** One delivery of a well-formed job. */
  function Handle(w: World, job: Job, d: Delivery): (World, Failure) {
    if Stale(w, job) then (w, NoFailure)
    else
      var status := w.runs[job.runId].status;
      var w1 := CancelledEarly(w, job, d);
      if status == CancelRequested && job.stepKey != Cleanup then Dispatch(w1, job.(stepKey := Cleanup), d)
      else if status == CancelRequested then AdvanceCancellation(w1, job, d)
      else Advance(w1, job, d, status)
  }

  class Dispatcher {
    var jobs: seq<Job>

    constructor ()
      ensures jobs == []
    {
      jobs := [];
    }

    method Send(job: Job, fails: bool) returns (failure: Failure)
      modifies this
      ensures jobs == if fails then old(jobs) else old(jobs) + [job]
      ensures failure == if fails then DispatchFailed else NoFailure
    {
      if fails {
        return DispatchFailed;
      }
      jobs := jobs + [job];
      return NoFailure;
    }
  }

  class WorkflowConsumer {
    const db: Database
    const store: DatabaseWorkflowStore
    const stepGuard: DatabaseStepGuard
    const dispatcher: Dispatcher
    /** Stands for the API process, which may cancel a run in the middle of a delivery. */
    const api: RunController

    ghost predicate Wired() {
      store.db == db && stepGuard.db == db && api.db == db
    }

    ghost function Current(): World
      reads db, dispatcher
    {
      World(db.runs, db.steps, db.outbox, dispatcher.jobs)
    }

    constructor (db: Database, dispatcher: Dispatcher)
      ensures Wired() && this.db == db && this.dispatcher == dispatcher
      ensures fresh(store) && fresh(stepGuard) && fresh(api)
    {
      this.db := db;
      this.dispatcher := dispatcher;
      store := new DatabaseWorkflowStore(db);
      stepGuard := new DatabaseStepGuard(db);
      api := new RunController(db, MAX_QUEUED_RUNS);
    }

    method NextAction(job: Job) returns (next: Option<StepAction>)
      requires Wired()
      ensures next == Planned(MarksOf(db.steps, job.runId, job.attempt))
    {
      var records := stepGuard.List(job.runId, job.attempt);
      PlanOfListing(records, MarksOf(db.steps, job.runId, job.attempt));
      return NextStepAction(records);
    }

    method SendNext(job: Job, d: Delivery) returns (failure: Failure)
      requires Wired()
      modifies dispatcher
      ensures (Current(), failure) == DispatchNext(old(Current()), job, d)
    {
      var next := NextAction(job);
      if next == None {
        return NoFailure;
      }
      failure := dispatcher.Send(job.(stepKey := next.value.stepKey), d.dispatchFails);
    }

    method MovePhase(job: Job, status: RunStatus) returns (failure: Failure)
      requires Wired()
      modifies db`runs
      ensures (Current(), failure) == MoveToStepPhase(old(Current()), job, status)
    {
      var target := PhaseForStep(job.stepKey);
      if target == None || status == target.value {
        return NoFailure;
      }
      if status == Received {
        return NotAdmitted;
      }
      var error := store.TransitionRun(job.runId, job.attempt, job.headSha, target.value);
      return FailureOf(error);
    }

    method Guarded(job: Job, d: Delivery) returns (outcome: GuardOutcome)
      requires Wired()
      modifies db`runs, db`steps, db`outbox
      ensures (Current(), outcome) == RunStepOnce(old(Current()), job, d)
    {
      outcome := stepGuard.RunOnceGuarded(KeyOf(job), d.now, d.token, d.operation);
      if d.landing == AroundStep {
        var _ := api.Cancel(job.runId, d.now);
      }
    }

    method CompleteReport(job: Job) returns (failure: Failure)
      requires Wired()
      modifies db`runs
      ensures (Current(), failure) == FinalizeReport(old(Current()), job)
    {
      var records := stepGuard.List(job.runId, job.attempt);
      if job.runId !in db.runs || IsTerminal(db.runs[job.runId].status) {
        return NoFailure;
      }
      VerdictOfListing(records, MarksOf(db.steps, job.runId, job.attempt));
      var error := store.TransitionRun(job.runId, job.attempt, job.headSha, DeriveFinalRunStatus(records));
      return FailureOf(error);
    }

    method CompleteCleanup(job: Job, outcome: GuardOutcome) returns (failure: Failure)
      requires Wired()
      modifies db`runs
      ensures (Current(), failure) == FinalizeCleanup(old(Current()), job, outcome)
    {
      if !StepSucceeded(outcome) {
        var error := store.SetCleanupStatus(job.runId, job.attempt, job.headSha, CleanupFailed);
        return FailureOf(error);
      }
      var error := store.SetCleanupStatus(job.runId, job.attempt, job.headSha, Cleaned);
      if error.Some? {
        return FailureOf(error);
      }
      if job.runId in db.runs && db.runs[job.runId].status == CancelRequested {
        error := store.TransitionRun(job.runId, job.attempt, job.headSha, RunStatus.Cancelled);
      }
      return FailureOf(error);
    }

    method AdvanceRun(job: Job, d: Delivery, status: RunStatus) returns (failure: Failure)
      requires Wired()
      modifies db`runs, db`steps, db`outbox, dispatcher
      ensures (Current(), failure) == Advance(old(Current()), job, d, status)
    {
      hide SkipBlocked, Planned, FirstOpen, TakeTurn, Advance;
      while true
        invariant db.runs == old(db.runs) && db.outbox == old(db.outbox) && dispatcher.jobs == old(dispatcher.jobs)
        invariant SkipBlocked(db.steps, job.runId, job.attempt) == SkipBlocked(old(db.steps), job.runId, job.attempt)
        decreases |WORKFLOW_STEPS| - FirstOpen(MarksOf(db.steps, job.runId, job.attempt))
      {
        ghost var marks := MarksOf(db.steps, job.runId, job.attempt);
        var records := stepGuard.List(job.runId, job.attempt);
        PlanOfListing(records, marks);
        var next := NextStepAction(records);
        if next.Some? && next.value.SkipStep? {
          var refused := SkipFirst(job, next.value.stepKey);
          if refused {
            AdvanceStops(old(Current()), db.steps, job, d, status);
            return SkipRefused;
          }
          continue;
        }
        NothingBlocked(db.steps, job.runId, job.attempt);
        AdvanceTakesTurn(old(Current()), db.steps, job, d, status);
        assert Current() == old(Current()).(steps := db.steps);
        failure := TakeOneTurn(job, d, status, records, next);
        return;
      }
    }

    method TakeOneTurn(job: Job, d: Delivery, status: RunStatus, records: seq<StepRecord>, next: Option<StepAction>)
        returns (failure: Failure)
      requires Wired() && Lists(records, MarksOf(db.steps, job.runId, job.attempt))
      requires next == Planned(MarksOf(db.steps, job.runId, job.attempt))
      modifies db`runs, db`steps, db`outbox, dispatcher
      ensures (Current(), failure) == TakeTurn(old(Current()), job, d, status)
    {
      hide Planned, Execute, DispatchNext;
      if next == None {
        return NoFailure;
      }
      var requested := Find(records, job.stepKey);
      FindInListing(records, MarksOf(db.steps, job.runId, job.attempt), job.stepKey);
      if next.value.stepKey != job.stepKey {
        if requested.Some? && requested.value.status.Settled() {
          failure := SendNext(job, d);
          return;
        }
        return OutOfOrder(job.stepKey, next.value.stepKey);
      }
      failure := ExecuteStep(job, d, status);
    }

    /** One skipping turn of the loop. */
    method SkipFirst(job: Job, step: StepKey) returns (refused: bool)
      requires Wired() && Planned(MarksOf(db.steps, job.runId, job.attempt)) == Some(SkipStep(step))
      modifies db`steps
      ensures refused ==>
        SkipBlocked(old(db.steps), job.runId, job.attempt) == (db.steps, true) && db.steps == old(db.steps)
      ensures !refused ==>
        SkipBlocked(db.steps, job.runId, job.attempt) == SkipBlocked(old(db.steps), job.runId, job.attempt)
      ensures !refused ==>
        FirstOpen(MarksOf(old(db.steps), job.runId, job.attempt)) < FirstOpen(MarksOf(db.steps, job.runId, job.attempt))
    {
      var key := StepGuardKey(job.runId, job.attempt, step);
      refused := stepGuard.MarkStepSkipped(key, "SKIPPED_UPSTREAM");
      if refused {
        assert db.steps == old(db.steps);
      } else {
        MarksPut(old(db.steps), key, db.steps[key]);
        SkipMovesOn(MarksOf(old(db.steps), job.runId, job.attempt), step,
          Mark(db.steps[key].status, db.steps[key].failureKind), 0);
      }
    }

    method ExecuteStep(job: Job, d: Delivery, status: RunStatus) returns (failure: Failure)
      requires Wired()
      modifies db`runs, db`steps, db`outbox, dispatcher
      ensures (Current(), failure) == Execute(old(Current()), job, d, status)
    {
      failure := MovePhase(job, status);
      if failure != NoFailure {
        return;
      }
      if job.stepKey == Cleanup {
        var error := store.SetCleanupStatus(job.runId, job.attempt, job.headSha, CleanupPending);
        if error.Some? {
          return FailureOf(error);
        }
      }
      var outcome := Guarded(job, d);
      failure := OutcomeFailure(outcome);
      if failure != NoFailure {
        return;
      }
      failure := Complete(job, d, outcome);
    }

    method Complete(job: Job, d: Delivery, outcome: GuardOutcome) returns (failure: Failure)
      requires Wired()
      modifies db`runs, dispatcher
      ensures (Current(), failure) == AfterStep(old(Current()), job, d, outcome)
    {
      if job.stepKey == Report {
        failure := CompleteReport(job);
        if failure != NoFailure {
          return;
        }
      }
      if job.stepKey == Cleanup {
        failure := CompleteCleanup(job, outcome);
        if failure != NoFailure || !StepSucceeded(outcome) {
          return;
        }
      }
      if job.runId in db.runs && db.runs[job.runId].status == CancelRequested {
        failure := dispatcher.Send(job.(stepKey := Cleanup), d.dispatchFails);
        return;
      }
      failure := SendNext(job, d);
    }

    method AdvanceCancelled(job: Job, d: Delivery) returns (failure: Failure)
      requires Wired()
      modifies db`runs, db`steps, db`outbox
      ensures (Current(), failure) == AdvanceCancellation(old(Current()), job, d)
    {
      var records := stepGuard.List(job.runId, job.attempt);
      ghost var marks := MarksOf(db.steps, job.runId, job.attempt);
      if exists r :: r in records && r.status == Running && r.stepKey != Cleanup {
        ghost var r :| r in records && r.status == Running && r.stepKey != Cleanup;
        assert r.stepKey in marks && marks[r.stepKey].status == Running;
        return NoFailure;
      }
      forall step | step in marks && step != Cleanup
        ensures marks[step].status != Running
      {
        var r :| r in records && r.stepKey == step;
      }
      var error := store.SetCleanupStatus(job.runId, job.attempt, job.headSha, CleanupPending);
      if error.Some? {
        return FailureOf(error);
      }
      var outcome := Guarded(job, d);
      failure := OutcomeFailure(outcome);
      if failure != NoFailure {
        return;
      }
      failure := CompleteCleanup(job, outcome);
    }

    method HandleJob(job: Job, d: Delivery) returns (failure: Failure)
      requires Wired()
      modifies db`runs, db`steps, db`outbox, dispatcher
      ensures (Current(), failure) == Handle(old(Current()), job, d)
    {
      if job.runId !in db.runs {
        return NoFailure;
      }
      var run := db.runs[job.runId];
      if run.currentAttempt != job.attempt || run.headSha != job.headSha {
        return NoFailure;
      }
      if d.landing == BeforePhase {
        var _ := api.Cancel(job.runId, d.now);
      }
      if run.status == CancelRequested && job.stepKey != Cleanup {
        failure := dispatcher.Send(job.(stepKey := Cleanup), d.dispatchFails);
        return;
      }
      if run.status == CancelRequested {
        failure := AdvanceCancelled(job, d);
        return;
      }
      failure := AdvanceRun(job, d, run.status);
    }
  }
}
