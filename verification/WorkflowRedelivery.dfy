/** Runs with trouble: steps that throw and dispatches that fail make the queue deliver again, and
    the run still comes to its end. */
module WorkflowRedelivery {
  import opened WorkflowTypes
  import opened RunStatusContract
  import opened Tables
  import opened Plan
  import opened StepGuard
  import opened WorkflowStore
  import opened Consumer
  import opened WorkflowRuns
  import opened WorkflowChain

  /** Nobody cancels and the worker lives; the step may throw and the queue may be down. */
  predicate Undisturbed(d: Delivery) {
    d.landing == Nowhere && !d.operation.Crashes?
  }

  function SmoothCount(deliveries: seq<Delivery>): nat {
    if deliveries == [] then 0 else (if Smooth(deliveries[0]) then 1 else 0) + SmoothCount(deliveries[1..])
  }

  /** The live job names the planned step, or one that is done and only has to be passed on. */
  ghost predicate Going(w: World, r: RunIdent, live: Option<Job>, front: nat) {
    && Core(w, r, front) && !Cancelling(StatusIn(w, r)) && NoneRunning(MarksIn(w, r))
    && (live.Some? ==>
      JobOf(r, live.value) && !Settled(MarksIn(w, r), Cleanup) && Reached(MarksIn(w, r), live.value.stepKey))
    && (live == None ==> AllDone(w, r, front))
  }

  predicate Reached(marks: Marks, step: StepKey) {
    Settled(marks, step) || (Planned(marks).Some? && Planned(marks).value.stepKey == step)
  }

  /** How many smooth deliveries are enough from here. */
  function Needed(w: World, r: RunIdent, live: Option<Job>, front: nat): int {
    if live == None then 0 else WORK_STEPS - front + 1 + if Settled(MarksIn(w, r), live.value.stepKey) then 1 else 0
  }

  // ---- A failed dispatch ----

  /** The same delivery with the queue down: the same tables, but nothing dispatched. */
  predicate OnlyNotDispatched(w: World, up: (World, Failure), down: (World, Failure)) {
    && down.0 == up.0.(jobs := w.jobs)
    && down.1 == (if up.0.jobs != w.jobs then DispatchFailed else up.1)
  }

  function Up(d: Delivery): Delivery {
    d.(dispatchFails := false)
  }

  function Down(d: Delivery): Delivery {
    d.(dispatchFails := true)
  }

  lemma JobNotDispatched(w: World, job: Job, d: Delivery)
    ensures OnlyNotDispatched(w, Dispatch(w, job, Up(d)), Dispatch(w, job, Down(d)))
  {
    assert |w.jobs + [job]| == |w.jobs| + 1;
  }

  lemma NextNotDispatched(w: World, job: Job, d: Delivery)
    ensures OnlyNotDispatched(w, DispatchNext(w, job, Up(d)), DispatchNext(w, job, Down(d)))
  {
    hide Planned, MarksOf, Dispatch;
    var planned := Planned(JobMarks(w, job));
    if planned.Some? {
      JobNotDispatched(w, job.(stepKey := planned.value.stepKey), d);
    }
  }

  lemma FinalizingKeepsJobs(w: World, job: Job, outcome: GuardOutcome)
    ensures FinalizeReport(w, job).0.jobs == w.jobs && FinalizeCleanup(w, job, outcome).0.jobs == w.jobs
  {
    hide Verdict, Write;
  }

  lemma AfterStepNotDispatched(w: World, job: Job, d: Delivery, outcome: GuardOutcome)
    ensures OnlyNotDispatched(w, AfterStep(w, job, Up(d), outcome), AfterStep(w, job, Down(d), outcome))
  {
    hide DispatchNext, Dispatch, FinalizeReport, FinalizeCleanup, StatusNow;
    FinalizingKeepsJobs(w, job, outcome);
    var w1 :=
      if job.stepKey == Report then FinalizeReport(w, job).0
      else if job.stepKey == Cleanup then FinalizeCleanup(w, job, outcome).0 else w;
    NextNotDispatched(w1, job, d);
    JobNotDispatched(w1, job.(stepKey := Cleanup), d);
  }

  lemma ExecuteNotDispatched(w: World, job: Job, d: Delivery, status: RunStatus)
    requires d.landing == Nowhere
    ensures OnlyNotDispatched(w, Execute(w, job, Up(d), status), Execute(w, job, Down(d), status))
  {
    hide DispatchNext, Dispatch, AfterStep, Write, RunOnce;
    var w1 := MoveToStepPhase(w, job, status).0;
    var w2 := if job.stepKey == Cleanup then StoreWriteFor(w1, job, SetCleanup(CleanupPending)).0 else w1;
    var (w3, outcome) := GuardedStep(w2, job, d);
    assert GuardedStep(w2, job, Up(d)) == GuardedStep(w2, job, d) == GuardedStep(w2, job, Down(d));
    AfterStepNotDispatched(w3, job, d, outcome);
  }

  lemma HandleNotDispatched(w: World, job: Job, d: Delivery)
    requires !Stale(w, job) && w.runs[job.runId].status != CancelRequested && d.landing == Nowhere
    ensures OnlyNotDispatched(w, Handle(w, job, Up(d)), Handle(w, job, Down(d)))
  {
    hide DispatchNext, Execute, SkipBlocked, Planned, MarksOf;
    var w1 := w.(steps := SkipBlocked(w.steps, job.runId, job.attempt).0);
    ExecuteNotDispatched(w1, job, d, w.runs[job.runId].status);
    NextNotDispatched(w1, job, d);
  }

  // ---- A job that was done before ----

  /** A done step is passed on: the next job is dispatched, or the same one comes again. */
  lemma PassedOn(w: World, r: RunIdent, job: Job, d: Delivery, front: nat) returns (front': nat)
    requires Going(w, r, Some(job), front) && Settled(MarksIn(w, r), job.stepKey) && d.landing == Nowhere
    requires !d.dispatchFails
    ensures var (after, failure) := Handle(w, job, d);
      && failure == NoFailure && NewJob(w, after).Some? && |after.jobs| == |w.jobs| + 1
      && front <= front' <= WORK_STEPS && Chain(after, r, NewJob(w, after), front')
        && Settled(MarksIn(after, r), job.stepKey)
  {
    hide GoodMarks, NoRival, SkipBlocked, Planned, MarksOf;
    front' := SkippingIsGood(StatusIn(w, r), w.steps, r.id, r.attempt, front);
    var w1 := SkippedWorld(w, r);
    assert !Settled(MarksIn(w1, r), Cleanup) && Settled(MarksIn(w1, r), job.stepKey);
    DispatchContinues(w1, r, job, d, front');
    PlannedIsOpen(w1, r, front', job.stepKey);
    SkippingHandled(w, r, job, d);
    hide Handle, DispatchNext, Good, AllDone;
  }

  // ---- A step that throws ----

  lemma ThrownConcludes(w: World, job: Job, d: Delivery, status: RunStatus)
    requires d.landing == Nowhere && job.stepKey != Cleanup && MoveToStepPhase(w, job, status).1 == NoFailure
    requires GuardedStep(MoveToStepPhase(w, job, status).0, job, d).1 == Threw
    ensures Execute(w, job, d, status) ==
      (GuardedStep(MoveToStepPhase(w, job, status).0, job, d).0, OperationThrew)
  {
    hide MoveToStepPhase, GuardedStep, AfterStep;
  }

  lemma ThrownWork(w: World, r: RunIdent, job: Job, d: Delivery, front: nat)
    requires Going(w, r, Some(job), front) && d.landing == Nowhere && d.operation.Throws? && job.stepKey != Cleanup
    requires Planned(MarksIn(w, r)) == Some(RunStep(job.stepKey))
    ensures var (after, failure) := Handle(w, job, d);
      && failure == OperationThrew && after.jobs == w.jobs && after.outbox == w.outbox
      && MarksIn(after, r) == MarksIn(w, r)[job.stepKey := Mark(Pending, None)]
  {
    PlannedStep(MarksIn(w, r), front);
    NothingToSkip(w, r, job, d);
    hide NoRival, Handle;
    PhaseMoved(w, r, job, front);
    var w1 := MoveToStepPhase(w, job, StatusIn(w, r)).0;
    ThrownStep(w1, r, job, d, front);
    hide MoveToStepPhase, GuardedStep, Execute, Good, Planned;
    ThrownConcludes(w, job, d, StatusIn(w, r));
  }

  lemma ThrownStep(w: World, r: RunIdent, job: Job, d: Delivery, front: nat)
    requires GoodMarks(MarksIn(w, r), front) && JobOf(r, job) && d.operation.Throws? && job.stepKey != Cleanup
    requires StepIndex(job.stepKey) == front && !Blocked(MarksIn(w, r), job.stepKey) && NoneRunning(MarksIn(w, r))
    ensures var (after, outcome) := GuardedStep(w, job, d);
      && outcome == Threw && after == w.(steps := after.steps)
      && MarksIn(after, r) == MarksIn(w, r)[job.stepKey := Mark(Pending, None)]
  {
    WorkStepGuarded(w, r, job, d, front);
    hide GoodMarks;
    assert GuardedStep(w, job, d).1 in {Busy, Threw};
  }

  lemma ThrownCleanup(w: World, r: RunIdent, job: Job, d: Delivery, front: nat)
    requires Going(w, r, Some(job), front) && d.landing == Nowhere && d.operation.Throws? && job.stepKey == Cleanup
    requires Planned(MarksIn(w, r)) == Some(RunStep(job.stepKey))
    ensures var (after, failure) := Handle(w, job, d);
      && failure == OperationThrew && after.jobs == w.jobs && after.outbox == w.outbox
      && MarksIn(after, r) == MarksIn(w, r)[Cleanup := Mark(Pending, None)]
  {
    PlannedStep(MarksIn(w, r), front);
    hide GoodMarks, RunStepOnce, Handle, MarksOf;
    NothingToSkip(w, r, job, d);
    ExecuteCleanupIs(w, r, job, d);
    var w1 := StoreWriteFor(w, job, SetCleanup(CleanupPending)).0;
    CleanupGuarded(w1, r, job, d, front);
    ThrowsOrBusy(w1, job, d);
    EarlyOrNever(w1, job, d);
  }

  lemma ThrowsOrBusy(w: World, job: Job, d: Delivery)
    requires d.operation.Throws?
    ensures GuardedStep(w, job, d).1.AlreadyTerminal? || GuardedStep(w, job, d).1 in {Busy, Threw}
  {}

  lemma EarlyOrNever(w: World, job: Job, d: Delivery)
    requires d.landing == Nowhere
    ensures RunStepOnce(w, job, d) == GuardedStep(w, job, d)
  {}

  lemma OpenMarkSettlesNothing(marks: Marks, step: StepKey)
    requires !Settled(marks, step)
    ensures var after := marks[step := Mark(Pending, None)];
      SameSettled(marks, after) && forall s: StepKey :: Settled(after, s) <==> Settled(marks, s)
  {}

  /** Handing a step back for retry changes nothing that the plan looks at. */
  lemma HandedBack(marks: Marks, front: nat, front': nat, step: StepKey)
    requires InOrder(marks, front) && !Settled(marks, step) && NoneRunning(marks)
    requires Planned(marks) == Some(RunStep(step)) && !Settled(marks, Cleanup)
    requires InOrder(marks[step := Mark(Pending, None)], front')
    ensures var after := marks[step := Mark(Pending, None)];
      && front' == front && NoneRunning(after) && !Settled(after, Cleanup) && !Settled(after, step)
      && Planned(after) == Planned(marks)
  {
    var after := marks[step := Mark(Pending, None)];
    OpenMarkSettlesNothing(marks, step);
    OpenRecordsDecideNothing(marks, after);
    hide InOrder, Settled, Planned, SameSettled;
    if front < WORK_STEPS {
      SettledAt(marks, front, front);
      SettledAt(after, front', front);
    }
    if front' < WORK_STEPS {
      SettledAt(marks, front, front');
      SettledAt(after, front', front');
    }
  }

  /** A step that throws leaves its job as it was: planned, for the next delivery. */
  lemma ThrownLink(w: World, r: RunIdent, job: Job, d: Delivery, front: nat)
    requires Going(w, r, Some(job), front) && d.landing == Nowhere && d.operation.Throws?
    requires Planned(MarksIn(w, r)) == Some(RunStep(job.stepKey)) && !Settled(MarksIn(w, r), job.stepKey)
    ensures var (after, failure) := Handle(w, job, d);
      failure == OperationThrew && Going(after, r, Some(job), front) && !Settled(MarksIn(after, r), job.stepKey)
  {
    hide Handle, NoRival, Planned, MarksOf, Stage, Verdict, Blocked;
    if job.stepKey == Cleanup {
      ThrownCleanup(w, r, job, d, front);
    } else {
      ThrownWork(w, r, job, d, front);
    }
    PlannedFits(w, r, job, front);
    var front' := HandleCore(w, r, job, d, front);
    HandedBack(MarksIn(w, r), front, front', job.stepKey);
  }

  lemma PlannedFits(w: World, r: RunIdent, job: Job, front: nat)
    requires Core(w, r, front) && JobOf(r, job) && Planned(MarksIn(w, r)) == Some(RunStep(job.stepKey))
    requires !Cancelling(StatusIn(w, r))
    ensures JobFits(w, r, front, job)
  {
    PlannedStep(MarksIn(w, r), front);
  }

  // ---- Any delivery ----

  /** Where no step is driven, how the operation would have ended does not matter. */
  lemma IdleOperation(w: World, r: RunIdent, job: Job, d: Delivery, operation: Operation, front: nat)
    requires Core(w, r, front) && JobOf(r, job) && !Cancelling(StatusIn(w, r)) && d.landing == Nowhere
    requires Planned(MarksIn(w, r)) == Some(SkipStep(job.stepKey))
    ensures Handle(w, job, d) == Handle(w, job, d.(operation := operation))
  {
    var front' := SkippedInFront(w, r, job.stepKey, front);
    var d' := d.(operation := operation);
    var w1 := SkippedWorld(w, r);
    PlannedStep(MarksIn(w1, r), front');
    SkippingHandled(w, r, job, d);
    SkippingHandled(w, r, job, d');
    hide Handle, SkipBlocked, GoodMarks, NoRival, Planned, MarksOf;
    assert DispatchNext(w1, job, d) == DispatchNext(w1, job, d');
  }

  /** A smooth delivery of the live job. */
  lemma SmoothLink(w: World, r: RunIdent, job: Job, d: Delivery, front: nat) returns (front': nat)
    requires Going(w, r, Some(job), front) && Smooth(d)
    ensures var (after, failure) := Handle(w, job, d);
      && failure == NoFailure && |w.jobs| <= |after.jobs|
      && Chain(after, r, NewJob(w, after), front') && front <= front' <= WORK_STEPS
      && (NewJob(w, after).Some? ==> Settled(MarksIn(after, r), job.stepKey))
      && (NewJob(w, after).Some? && !Settled(MarksIn(w, r), job.stepKey) ==> front < front')
      && (NewJob(w, after) == None ==> after.jobs == w.jobs)
  {
    hide Core, Handle, Planned, MarksOf, NoneRunning;
    if Settled(MarksIn(w, r), job.stepKey) {
      front' := PassedOn(w, r, job, d, front);
    } else {
      front' := Link(w, r, job, d, front);
    }
  }

  /** The next live job after a delivery. */
  function Live(w: World, job: Job, outcome: (World, Failure)): Option<Job> {
    if outcome.1 != NoFailure then Some(job) else NewJob(w, outcome.0)
  }

  lemma ChainGoes(w: World, r: RunIdent, live: Option<Job>, front: nat)
    requires Chain(w, r, live, front)
    ensures Going(w, r, live, front) && (live.Some? ==> !Settled(MarksIn(w, r), live.value.stepKey))
  {
    if live.Some? {
      PlannedStep(MarksIn(w, r), front);
    }
  }

  /** What is left after a delivery: at least one smooth delivery less when this one was smooth, and
      never more. */
  ghost predicate Closer(w: World, r: RunIdent, job: Job, d: Delivery, front: nat, front': nat) {
    var outcome := Handle(w, job, d);
    var live := Live(w, job, outcome);
    && Going(outcome.0, r, live, front') && front' <= WORK_STEPS
    && Needed(outcome.0, r, live, front') <= Needed(w, r, Some(job), front) - if Smooth(d) then 1 else 0
  }

  lemma SmoothlyCloser(w: World, r: RunIdent, job: Job, d: Delivery, front: nat) returns (front': nat)
    requires Going(w, r, Some(job), front) && front <= WORK_STEPS && Smooth(d)
    ensures Closer(w, r, job, d, front, front')
  {
    hide Core, Handle, Planned, MarksOf, NoneRunning, Chain, AllDone;
    front' := SmoothLink(w, r, job, d, front);
    var after := Handle(w, job, d).0;
    ChainGoes(after, r, NewJob(w, after), front');
  }

  /** With the queue down the job comes again, and its step is done by then. */
  lemma CloserWithoutDispatch(w: World, r: RunIdent, job: Job, d: Delivery, front: nat) returns (front': nat)
    requires Going(w, r, Some(job), front) && front <= WORK_STEPS && Smooth(Up(d)) && d.dispatchFails
    ensures Closer(w, r, job, d, front, front')
  {
    hide Handle, Planned, MarksOf, NoneRunning, AllDone, Good, NoRival;
    front' := SmoothLink(w, r, job, Up(d), front);
    HandleNotDispatched(w, job, d);
    assert Down(d) == d;
    var after := Handle(w, job, Up(d)).0;
    NothingNew(w, after);
    ChainGoes(after, r, NewJob(w, after), front');
  }

  lemma NothingNew(w: World, after: World)
    requires |w.jobs| <= |after.jobs|
    ensures NewJob(w, after).Some? ==> after.jobs != w.jobs
    ensures NewJob(w, after) == None ==> |after.jobs| == |w.jobs|
  {}

  /** Any delivery without cancellation or death. */
  lemma AlwaysCloser(w: World, r: RunIdent, job: Job, d: Delivery, front: nat) returns (front': nat)
    requires Going(w, r, Some(job), front) && front <= WORK_STEPS && Undisturbed(d)
    ensures Closer(w, r, job, d, front, front')
  {
    hide Core, Handle, MarksOf, NoneRunning, AllDone;
    if Smooth(d) {
      front' := SmoothlyCloser(w, r, job, d, front);
    } else if d.operation.Returns? {
      front' := CloserWithoutDispatch(w, r, job, d, front);
    } else if !Settled(MarksIn(w, r), job.stepKey) && Planned(MarksIn(w, r)) == Some(RunStep(job.stepKey)) {
      ThrownLink(w, r, job, d, front);
      front' := front;
    } else {
      front' := CloserWhenIdle(w, r, job, d, front);
    }
  }

  /** Nothing is driven, so it does not matter that the operation would have thrown. */
  lemma CloserWhenIdle(w: World, r: RunIdent, job: Job, d: Delivery, front: nat) returns (front': nat)
    requires Going(w, r, Some(job), front) && front <= WORK_STEPS && Undisturbed(d) && d.operation.Throws?
    requires Settled(MarksIn(w, r), job.stepKey) || Planned(MarksIn(w, r)) == Some(SkipStep(job.stepKey))
    ensures Closer(w, r, job, d, front, front')
  {
    hide Handle, MarksOf, NoneRunning, AllDone, Good, NoRival, Planned;
    var calm := d.(operation := Returns(StepPassed));
    if Settled(MarksIn(w, r), job.stepKey) {
      IdlePassing(w, r, job, d, Returns(StepPassed), front);
    } else {
      IdleOperation(w, r, job, d, Returns(StepPassed), front);
    }
    if d.dispatchFails {
      front' := CloserWithoutDispatch(w, r, job, calm, front);
    } else {
      front' := SmoothlyCloser(w, r, job, calm, front);
    }
  }

  lemma IdlePassing(w: World, r: RunIdent, job: Job, d: Delivery, operation: Operation, front: nat)
    requires Going(w, r, Some(job), front) && Settled(MarksIn(w, r), job.stepKey) && d.landing == Nowhere
    ensures Handle(w, job, d) == Handle(w, job, d.(operation := operation))
  {
    hide GoodMarks, NoRival, SkipBlocked, Planned, MarksOf;
    var front' := SkippingIsGood(StatusIn(w, r), w.steps, r.id, r.attempt, front);
    var w1 := SkippedWorld(w, r);
    var d' := d.(operation := operation);
    assert !Settled(MarksIn(w1, r), Cleanup) && Settled(MarksIn(w1, r), job.stepKey);
    PlannedIsOpen(w1, r, front', job.stepKey);
    SkippingHandled(w, r, job, d);
    SkippingHandled(w, r, job, d');
    hide Handle, Good, AllDone;
    assert DispatchNext(w1, job, d) == DispatchNext(w1, job, d');
  }

  // ---- Whole runs ----

  lemma {:induction false} DriveGoes(w: World, r: RunIdent, live: Option<Job>, deliveries: seq<Delivery>, front: nat)
      returns (front': nat)
    requires Going(w, r, live, front) && front <= WORK_STEPS && forall d :: d in deliveries ==> Undisturbed(d)
    ensures var (end, last) := Drive(w, live, deliveries);
      Going(end, r, last, front') && front' <= WORK_STEPS
        && (SmoothCount(deliveries) >= Needed(w, r, live, front) ==> last == None)
    decreases |deliveries|
  {
    hide Going, Handle, Smooth, Undisturbed;
    front' := front;
    if live.Some? && deliveries != [] {
      var front1 := AlwaysCloser(w, r, live.value, deliveries[0], front);
      var outcome := Handle(w, live.value, deliveries[0]);
      front' := DriveGoes(outcome.0, r, Live(w, live.value, outcome), deliveries[1..], front1);
    }
  }

  /** A fresh run whose steps throw and whose dispatches fail as often as they like comes to its end
      as soon as eleven of its deliveries are smooth: all eleven steps are settled, the run has the
      verdict it deserves, and the cleanup status tells how the cleanup went. */
  lemma EveryRunFinishesDespiteTrouble(w: World, r: RunIdent, deliveries: seq<Delivery>)
    requires Fresh(w, r) && SmoothCount(deliveries) >= |WORKFLOW_STEPS|
    requires forall d :: d in deliveries ==> Undisturbed(d)
    ensures var (end, live) := Drive(w, Some(Job(r.id, r.attempt, r.headSha, Detect)), deliveries);
      && live == None && r.id in end.runs
      && (forall step: StepKey :: Settled(MarksIn(end, r), step))
      && IsVerdict(StatusIn(end, r)) && VerdictTells(StatusIn(end, r), MarksIn(end, r))
      && end.runs[r.id].cleanupStatus == (if CleanupPassed(MarksIn(end, r)) then Cleaned else CleanupFailed)
  {
    var job := Job(r.id, r.attempt, r.headSha, Detect);
    FreshChain(w, r, job);
    ChainGoes(w, r, Some(job), 0);
    var front := DriveGoes(w, r, Some(job), deliveries, 0);
    var end := Drive(w, Some(job), deliveries).0;
    hide Drive;
    FinishedRun(end, r, front);
  }
}
