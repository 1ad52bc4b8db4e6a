/** One run from its detect job to the end, for every choice of step outcomes: each delivery
    dispatches the next job until nothing is left to do. */
module WorkflowChain {
  import opened WorkflowTypes
  import opened RunStatusContract
  import opened Tables
  import opened Plan
  import opened StepGuard
  import opened WorkflowStore
  import opened Consumer
  import opened WorkflowRuns

  /** A delivery without trouble: the step comes back with some result, nobody cancels, the queue is up. */
  predicate Smooth(d: Delivery) {
    d.operation.Returns? && d.landing == Nowhere && !d.dispatchFails
  }

  /** The job that a delivery added, if any. */
  function NewJob(before: World, after: World): Option<Job> {
    if |after.jobs| > |before.jobs| then Some(after.jobs[|after.jobs| - 1]) else None
  }

  /** Deliver the live job; after a failure the queue delivers it again, otherwise the job it
      dispatched is next, and so on. */
  function Drive(w: World, live: Option<Job>, deliveries: seq<Delivery>): (World, Option<Job>)
    decreases |deliveries|
  {
    if live == None || deliveries == [] then (w, live)
    else
      var (after, failure) := Handle(w, live.value, deliveries[0]);
      Drive(after, if failure != NoFailure then live else NewJob(w, after), deliveries[1..])
  }

  ghost predicate NoneRunning(marks: Marks) {
    forall step :: step in marks ==> marks[step].status != Running
  }

  /** The chain: the live job names the planned step; without one, all is done. */
  ghost predicate Chain(w: World, r: RunIdent, live: Option<Job>, front: nat) {
    && Core(w, r, front) && !Cancelling(StatusIn(w, r)) && NoneRunning(MarksIn(w, r))
    && (live.Some? ==>
         && JobOf(r, live.value) && !Settled(MarksIn(w, r), Cleanup)
         && Planned(MarksIn(w, r)).Some? && Planned(MarksIn(w, r)).value.stepKey == live.value.stepKey)
    && (live == None ==> AllDone(w, r, front))
  }

  ghost predicate AllDone(w: World, r: RunIdent, front: nat)
    requires r.id in w.runs
  {
    && front == WORK_STEPS && Settled(MarksIn(w, r), Cleanup)
    && w.runs[r.id].cleanupStatus == if CleanupPassed(MarksIn(w, r)) then Cleaned else CleanupFailed
  }

  /** Dispatching while the cleanup is open adds exactly the job of the planned step. */
  lemma DispatchContinues(w: World, r: RunIdent, job: Job, d: Delivery, front: nat)
    requires Core(w, r, front) && JobOf(r, job) && !d.dispatchFails && !Settled(MarksIn(w, r), Cleanup)
    requires !Cancelling(StatusIn(w, r)) && NoneRunning(MarksIn(w, r))
    ensures var (after, failure) := DispatchNext(w, job, d);
      && failure == NoFailure && NewJob(w, after).Some? && after.jobs == w.jobs + [NewJob(w, after).value]
      && after.steps == w.steps && Chain(after, r, NewJob(w, after), front)
  {
    hide DispatchNext, Good, Planned, MarksOf;
    DispatchesPlanned(w, r, job, d, front);
  }

  lemma DispatchesPlanned(w: World, r: RunIdent, job: Job, d: Delivery, front: nat)
    requires Core(w, r, front) && JobOf(r, job) && !d.dispatchFails && !Settled(MarksIn(w, r), Cleanup)
    ensures Planned(MarksIn(w, r)).Some?
    ensures DispatchNext(w, job, d) ==
      (w.(jobs := w.jobs + [job.(stepKey := Planned(MarksIn(w, r)).value.stepKey)]), NoFailure)
  {
    PlannedStep(MarksIn(w, r), front);
    hide Planned, GoodMarks;
  }

  /** A blocked step in front is skipped with its blocked followers. */
  lemma SkippedInFront(w: World, r: RunIdent, step: StepKey, front: nat) returns (front': nat)
    requires Core(w, r, front) && Planned(MarksIn(w, r)) == Some(SkipStep(step))
    ensures front < front' <= WORK_STEPS
    ensures var w1 := SkippedWorld(w, r);
      && !SkipBlocked(w.steps, r.id, r.attempt).1
      && Core(w1, r, front') && MarksExtend(MarksIn(w, r), MarksIn(w1, r))
      && Settled(MarksIn(w1, r), step) && step != Cleanup
      && !(Planned(MarksIn(w1, r)).Some? && Planned(MarksIn(w1, r)).value.SkipStep?)
  {
    hide GoodMarks, SkipBlocked, MarksOf, Planned;
    var key := StepGuardKey(r.id, r.attempt, step);
    var row := MarkSkipped(RowOf(w.steps, key), step, "SKIPPED_UPSTREAM").1.value;
    SkipKeepsStage(StatusIn(w, r), MarksIn(w, r), front, step);
    SkippedRow(w.steps, StatusIn(w, r), r.id, r.attempt, front, step);
    SkipOnce(w.steps, r.id, r.attempt, step, row);
    hide MarkSkipped;
    var steps := w.steps[key := row];
    front' := SkippingIsGood(StatusIn(w, r), steps, r.id, r.attempt, front + 1);
    ExtendTransitive(MarksIn(w, r), MarksOf(steps, r.id, r.attempt), MarksIn(SkippedWorld(w, r), r));
  }

  lemma PlannedIsOpen(w: World, r: RunIdent, front: nat, step: StepKey)
    requires Core(w, r, front) && !Settled(MarksIn(w, r), Cleanup) && Settled(MarksIn(w, r), step)
    ensures Planned(MarksIn(w, r)).Some? && Planned(MarksIn(w, r)).value.stepKey != step
  {
    PlannedStep(MarksIn(w, r), front);
  }

  /** Delivering a job for a blocked step skips it and dispatches the next one. */
  lemma SkippingDelivery(w: World, r: RunIdent, job: Job, d: Delivery, front: nat) returns (front': nat)
    requires Chain(w, r, Some(job), front) && Smooth(d) && Planned(MarksIn(w, r)) == Some(SkipStep(job.stepKey))
    ensures front < front' <= WORK_STEPS
    ensures var (after, failure) := Handle(w, job, d);
      && failure == NoFailure && Chain(after, r, NewJob(w, after), front') && NewJob(w, after).Some?
      && |after.jobs| == |w.jobs| + 1 && Settled(MarksIn(after, r), job.stepKey)
  {
    hide Handle, DispatchNext, Good, NoRival, Planned, SkipBlocked, AllDone, MarksOf;
    front' := SkippedInFront(w, r, job.stepKey, front);
    var w1 := SkippedWorld(w, r);
    assert !Settled(MarksIn(w1, r), Cleanup);
    DispatchContinues(w1, r, job, d, front');
    PlannedIsOpen(w1, r, front', job.stepKey);
    SkippingHandled(w, r, job, d);
  }

  lemma SkippingHandled(w: World, r: RunIdent, job: Job, d: Delivery)
    requires JobOf(r, job) && Identifies(w.runs, r.id, r.attempt, r.headSha) && StatusIn(w, r) != CancelRequested
    requires d.landing != BeforePhase
    requires !SkipBlocked(w.steps, r.id, r.attempt).1 && Settled(MarksIn(SkippedWorld(w, r), r), job.stepKey)
    requires Planned(MarksIn(SkippedWorld(w, r), r)).Some?
    requires Planned(MarksIn(SkippedWorld(w, r), r)).value.stepKey != job.stepKey
    ensures Handle(w, job, d) == DispatchNext(SkippedWorld(w, r), job, d)
  {}

  /** Nothing is skipped in front of a step that is to run. */
  lemma NothingToSkip(w: World, r: RunIdent, job: Job, d: Delivery)
    requires JobOf(r, job) && Planned(MarksIn(w, r)) == Some(RunStep(job.stepKey))
    requires Identifies(w.runs, r.id, r.attempt, r.headSha)
    requires StatusIn(w, r) != CancelRequested && d.landing != BeforePhase
    ensures Handle(w, job, d) == Execute(w, job, d, StatusIn(w, r))
  {
    assert SkipBlocked(w.steps, r.id, r.attempt) == (w.steps, false);
  }

  /** A smooth work step comes back with its result. */
  lemma SmoothStep(w: World, r: RunIdent, job: Job, d: Delivery, front: nat)
    requires Core(w, r, front) && JobOf(r, job) && job.stepKey != Cleanup && Smooth(d) && NoneRunning(MarksIn(w, r))
    requires StepIndex(job.stepKey) == front && !Blocked(MarksIn(w, r), job.stepKey)
    requires Some(StatusIn(w, r)) == PhaseForStep(job.stepKey)
    ensures var (w', outcome) := RunStepOnce(w, job, d);
      && outcome == Executed(d.operation.result) && w' == w.(steps := w'.steps)
      && MarksIn(w', r) == MarksIn(w, r)[job.stepKey := Mark(d.operation.result.Status(), d.operation.result.Kind())]
      && GoodMarks(MarksIn(w', r), front + 1) && NoneRunning(MarksIn(w', r))
      && (job.stepKey != Report ==> Core(w', r, front + 1))
  {
    hide GoodMarks, GuardedStep, MarksOf, Blocked, NoRival, Verdict;
    WorkStepGuarded(w, r, job, d, front);
    SmoothlyAdmitted(MarksIn(w, r), job.stepKey);
    var w' := GuardedStep(w, job, d).0;
    if job.stepKey != Report {
      StageAfterWork(StatusIn(w, r), MarksIn(w, r), MarksIn(w', r), front, job.stepKey,
        GuardedMark(Executed(d.operation.result)), StatusIn(w, r));
    }
  }

  lemma SmoothlyAdmitted(marks: Marks, step: StepKey)
    requires NoneRunning(marks)
    ensures !(step in marks && marks[step].status == Running)
    ensures forall result: StepResult :: NoneRunning(marks[step := Mark(result.Status(), result.Kind())])
  {}

  /** The next link after a work step: its record is in, and the next step is dispatched. */
  lemma WorkLink(w: World, r: RunIdent, job: Job, d: Delivery, front: nat)
    requires Core(w, r, front) && JobOf(r, job) && job.stepKey != Cleanup && Smooth(d) && NoneRunning(MarksIn(w, r))
    requires StepIndex(job.stepKey) == front && !Blocked(MarksIn(w, r), job.stepKey) && !Settled(MarksIn(w, r), Cleanup)
    requires Some(StatusIn(w, r)) == PhaseForStep(job.stepKey)
    ensures var (after, failure) := Conclude(RunStepOnce(w, job, d).0, job, d, RunStepOnce(w, job, d).1);
      && failure == NoFailure && |after.jobs| == |w.jobs| + 1
      && NewJob(w, after).Some? && Chain(after, r, NewJob(w, after), front + 1)
        && Settled(MarksIn(after, r), job.stepKey)
  {
    hide GoodMarks, RunStepOnce, DispatchNext, Chain, FinalizeReport, MarksOf;
    SmoothStep(w, r, job, d, front);
    var (w1, outcome) := RunStepOnce(w, job, d);
    assert !Settled(MarksIn(w1, r), Cleanup) && Settled(MarksIn(w1, r), job.stepKey);
    if job.stepKey != Report {
      DispatchContinues(w1, r, job, d, front + 1);
    } else {
      ReportFinalized(w1, r, job);
      var w2 := FinalizeReport(w1, job).0;
      DispatchContinues(w2, r, job, d, front + 1);
    }
  }

  lemma WorkDelivery(w: World, r: RunIdent, job: Job, d: Delivery, front: nat)
    requires Chain(w, r, Some(job), front) && Smooth(d) && job.stepKey != Cleanup
    requires Planned(MarksIn(w, r)) == Some(RunStep(job.stepKey))
    ensures front < WORK_STEPS
    ensures var (after, failure) := Handle(w, job, d);
      && failure == NoFailure && |after.jobs| == |w.jobs| + 1
      && NewJob(w, after).Some? && Chain(after, r, NewJob(w, after), front + 1)
        && Settled(MarksIn(after, r), job.stepKey)
  {
    PlannedStep(MarksIn(w, r), front);
    hide GoodMarks, Conclude;
    NothingToSkip(w, r, job, d);
    PhaseMoved(w, r, job, front);
    var w1 := MoveToStepPhase(w, job, StatusIn(w, r)).0;
    WorkLink(w1, r, job, d, front);
  }

  /** The last link: the cleanup's outcome is on record and nothing more is dispatched. */
  lemma CleanupDelivery(w: World, r: RunIdent, job: Job, d: Delivery, front: nat)
    requires Chain(w, r, Some(job), front) && Smooth(d) && job.stepKey == Cleanup
    ensures front == WORK_STEPS
    ensures var (after, failure) := Handle(w, job, d);
      && failure == NoFailure && after.jobs == w.jobs && Chain(after, r, None, front)
  {
    PlannedStep(MarksIn(w, r), front);
    hide GoodMarks, RunStepOnce, AfterStep;
    NothingToSkip(w, r, job, d);
    ExecuteCleanupIs(w, r, job, d);
    var w1 := StoreWriteFor(w, job, SetCleanup(CleanupPending)).0;
    CleanupLink(w1, r, job, d);
  }

  lemma CleanupLink(w: World, r: RunIdent, job: Job, d: Delivery)
    requires Core(w, r, WORK_STEPS) && JobOf(r, job) && job.stepKey == Cleanup && Smooth(d) && IsVerdict(StatusIn(w, r))
    requires NoneRunning(MarksIn(w, r)) && !CleanupPassed(MarksIn(w, r))
    ensures var (after, failure) := Conclude(RunStepOnce(w, job, d).0, job, d, RunStepOnce(w, job, d).1);
      && failure == NoFailure && after.jobs == w.jobs && Chain(after, r, None, WORK_STEPS)
  {
    hide GoodMarks, NoRival, MarksOf, FinalizeCleanup, Verdict;
    CleanupGuarded(w, r, job, d, WORK_STEPS);
    FinishedCleanup(w, r, job, d);
    var (w1, outcome) := GuardedStep(w, job, d);
    assert outcome == Executed(d.operation.result);
    CleanupEnds(w1, r, job, d, outcome);
  }

  lemma CleanupEnds(w: World, r: RunIdent, job: Job, d: Delivery, outcome: GuardOutcome)
    requires Core(w, r, WORK_STEPS) && JobOf(r, job) && job.stepKey == Cleanup && Smooth(d) && IsVerdict(StatusIn(w, r))
    requires outcome.Executed? && Cleanup in MarksIn(w, r) && MarksIn(w, r)[Cleanup].status == outcome.result.Status()
    requires NoneRunning(MarksIn(w, r))
    ensures var (after, failure) := AfterStep(w, job, d, outcome);
      && failure == NoFailure && after.jobs == w.jobs && Chain(after, r, None, WORK_STEPS)
  {
    hide GoodMarks, NoRival;
    AfterFinishedCleanup(w, r, job, d, outcome);
    NothingDispatched(w, r, job, d, outcome);
  }

  /** A failed cleanup dispatches nothing, and after a passed one nothing is planned. */
  lemma NothingDispatched(w: World, r: RunIdent, job: Job, d: Delivery, outcome: GuardOutcome)
    requires Core(w, r, WORK_STEPS) && JobOf(r, job) && job.stepKey == Cleanup && Smooth(d) && IsVerdict(StatusIn(w, r))
    requires outcome.Executed? && Cleanup in MarksIn(w, r) && MarksIn(w, r)[Cleanup].status == outcome.result.Status()
    ensures var (after, failure) := AfterStep(w, job, d, outcome); failure == NoFailure && after.jobs == w.jobs
  {
    hide GoodMarks, NoRival, Verdict, Planned, Stage;
    AllSettledPlansNothing(w, r, job, outcome);
  }

  lemma AllSettledPlansNothing(w: World, r: RunIdent, job: Job, outcome: GuardOutcome)
    requires Core(w, r, WORK_STEPS) && outcome.Executed? && Cleanup in MarksIn(w, r)
    requires MarksIn(w, r)[Cleanup].status == outcome.result.Status()
    ensures outcome.result.StepPassed? ==> Planned(MarksIn(w, r)) == None
  {
    PlannedStep(MarksIn(w, r), WORK_STEPS);
    FirstOpenIsFront(MarksIn(w, r), WORK_STEPS);
    hide GoodMarks, NoRival, Verdict;
  }

  /** One link of the chain: a delivery settles at least one step, and adds one job or ends the chain. */
  lemma Link(w: World, r: RunIdent, job: Job, d: Delivery, front: nat) returns (front': nat)
    requires Chain(w, r, Some(job), front) && Smooth(d)
    ensures var (after, failure) := Handle(w, job, d);
      && failure == NoFailure && |w.jobs| <= |after.jobs| <= |w.jobs| + 1
      && Chain(after, r, NewJob(w, after), front') && front <= front' <= WORK_STEPS
      && (NewJob(w, after).Some? ==> front < front' && Settled(MarksIn(after, r), job.stepKey))
      && (NewJob(w, after) == None ==> after.jobs == w.jobs)
  {
    hide Core, Handle, Planned, MarksOf;
    front' := front;
    if Planned(MarksIn(w, r)).value.SkipStep? {
      front' := SkippingDelivery(w, r, job, d, front);
    } else if job.stepKey == Cleanup {
      CleanupDelivery(w, r, job, d, front);
    } else {
      WorkDelivery(w, r, job, d, front);
      front' := front + 1;
    }
  }

  /** At every moment of the chain the live job, if any, names the planned step; after eleven
      deliveries at the latest there is none. */
  lemma {:induction false} DriveIsChain(w: World, r: RunIdent, live: Option<Job>, deliveries: seq<Delivery>, front: nat)
      returns (front': nat)
    requires Chain(w, r, live, front) && front <= WORK_STEPS && forall d :: d in deliveries ==> Smooth(d)
    ensures Chain(Drive(w, live, deliveries).0, r, Drive(w, live, deliveries).1, front')
    ensures front + |deliveries| > WORK_STEPS ==> Drive(w, live, deliveries).1 == None
    decreases |deliveries|
  {
    hide Core, Handle;
    front' := front;
    if live.Some? && deliveries != [] {
      var front1 := Link(w, r, live.value, deliveries[0], front);
      var after := Handle(w, live.value, deliveries[0]).0;
      if NewJob(w, after).Some? {
        front' := DriveIsChain(after, r, NewJob(w, after), deliveries[1..], front1);
      } else {
        front' := front1;
      }
    }
  }

  /** Whole runs: for every choice of step outcomes, eleven deliveries are enough. Then all eleven
      steps are settled, the run has the verdict it deserves, and the cleanup status tells how the
      cleanup went. */
  lemma EveryRunFinishes(w: World, r: RunIdent, deliveries: seq<Delivery>)
    requires Fresh(w, r) && |deliveries| >= |WORKFLOW_STEPS| && forall d :: d in deliveries ==> Smooth(d)
    ensures var (end, live) := Drive(w, Some(Job(r.id, r.attempt, r.headSha, Detect)), deliveries);
      && live == None && r.id in end.runs
      && (forall step: StepKey :: Settled(MarksIn(end, r), step))
      && IsVerdict(StatusIn(end, r)) && VerdictTells(StatusIn(end, r), MarksIn(end, r))
      && end.runs[r.id].cleanupStatus == (if CleanupPassed(MarksIn(end, r)) then Cleaned else CleanupFailed)
  {
    var job := Job(r.id, r.attempt, r.headSha, Detect);
    FreshChain(w, r, job);
    var front := DriveIsChain(w, r, Some(job), deliveries, 0);
    var end := Drive(w, Some(job), deliveries).0;
    hide Drive;
    FinishedRun(end, r, front);
  }

  lemma FinishedRun(end: World, r: RunIdent, front: nat)
    requires Core(end, r, front) && !Cancelling(StatusIn(end, r)) && AllDone(end, r, front)
    ensures (forall step: StepKey :: Settled(MarksIn(end, r), step))
    ensures IsVerdict(StatusIn(end, r)) && VerdictTells(StatusIn(end, r), MarksIn(end, r))
  {
    VerdictMeaning(StatusIn(end, r), MarksIn(end, r));
    forall step: StepKey ensures Settled(MarksIn(end, r), step) {
      StepIndexInjective(step, Cleanup);
      assert step != Cleanup ==> StepIndex(step) < WORK_STEPS;
    }
  }

  lemma FreshChain(w: World, r: RunIdent, job: Job)
    requires Fresh(w, r) && job == Job(r.id, r.attempt, r.headSha, Detect)
    ensures Chain(w, r, Some(job), 0)
  {
    FreshIsSound(w, r);
    assert MarksIn(w, r) == map[];
    PlannedStep(MarksIn(w, r), 0);
    FirstOpenIsFront(MarksIn(w, r), 0);
  }
}