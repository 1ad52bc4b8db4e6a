/** How a cancellation ends: the cleanup completes it as soon as no other step is RUNNING. A step
    whose worker died stays RUNNING, and then the cancellation waits for ever. */
module WorkflowCancellation {
  import opened WorkflowTypes
  import opened RunStatusContract
  import opened Tables
  import opened Plan
  import opened StepGuard
  import opened WorkflowStore
  import opened Api
  import opened Consumer
  import opened WorkflowRuns
  import opened WorkflowChain
  import opened WorkflowRedelivery

  // ---- The cleanup of a cancelled run ----

  /** Nobody holds the cleanup step at this time. */
  predicate CleanupFree(w: World, r: RunIdent, now: int) {
    Admit(RowOf(w.steps, StepGuardKey(r.id, r.attempt, Cleanup)), Cleanup, now, 0).0 != LeaseBusy
  }

  /** A cancellation that nothing stands in the way of is completed by one smooth cleanup delivery:
      the run is CANCELLED if and only if its cleanup passed, and says so. */
  lemma CancellationCompletes(w: World, r: RunIdent, events: seq<RunEvent>, job: Job, d: Delivery)
    requires Fresh(w, r) && JobOf(r, job) && job.stepKey == Cleanup && Smooth(d)
    requires r.id in Run(w, r, events).runs && StatusIn(Run(w, r, events), r) == CancelRequested
    requires !OtherStepRunning(MarksIn(Run(w, r, events), r)) && CleanupFree(Run(w, r, events), r, d.now)
    ensures var (end, failure) := Handle(Run(w, r, events), job, d);
      && failure == NoFailure && r.id in end.runs
      && StatusIn(end, r) == (if CleanupPassed(MarksIn(end, r)) then RunStatus.Cancelled else CancelRequested)
      && end.runs[r.id].cleanupStatus == (if CleanupPassed(MarksIn(end, r)) then Cleaned else CleanupFailed)
      && (d.operation.result.StepPassed? ==> CleanupPassed(MarksIn(end, r)))
  {
    hide Good, Run, Handle, OtherStepRunning, CleanupFree;
    FreshIsSound(w, r);
    var front := RunIsSound(w, r, events, 0);
    CancelledRunCleans(Run(w, r, events), r, job, d, front);
  }

  lemma CancelledRunCleans(w: World, r: RunIdent, job: Job, d: Delivery, front: nat)
    requires Core(w, r, front) && JobOf(r, job) && job.stepKey == Cleanup && Smooth(d)
    requires StatusIn(w, r) == CancelRequested && !OtherStepRunning(MarksIn(w, r)) && CleanupFree(w, r, d.now)
    ensures var (end, failure) := Handle(w, job, d);
      && failure == NoFailure && r.id in end.runs
      && StatusIn(end, r) == (if CleanupPassed(MarksIn(end, r)) then RunStatus.Cancelled else CancelRequested)
      && end.runs[r.id].cleanupStatus == (if CleanupPassed(MarksIn(end, r)) then Cleaned else CleanupFailed)
      && (d.operation.result.StepPassed? ==> CleanupPassed(MarksIn(end, r)))
  {
    hide GoodMarks, NoRival, FinalizeCleanup, RunStepOnce, GuardedStep, Stage, MarksOf, Admit, Write, Verdict;
    hide OtherStepRunning, CleanupPassed;
    CleanupWritten(w, r, job, CleanupPending);
    var w1 := StoreWriteFor(w, job, SetCleanup(CleanupPending)).0;
    CancelledRunCleansUp(w1, r, job, d, front);
    var (w2, outcome) := RunStepOnce(w1, job, d);
    CancellationFinalized(w2, r, job, front, outcome);
    CancellationRecorded(w2, r, job, outcome);
    CancellationHandled(w, job, d);
  }

  lemma CancellationHandled(w: World, job: Job, d: Delivery)
    requires !Stale(w, job) && w.runs[job.runId].status == CancelRequested && job.stepKey == Cleanup
    requires d.landing == Nowhere && !OtherStepRunning(JobMarks(w, job))
    requires StoreWriteFor(w, job, SetCleanup(CleanupPending)).1 == NoFailure
    ensures var (w2, outcome) := RunStepOnce(StoreWriteFor(w, job, SetCleanup(CleanupPending)).0, job, d);
      OutcomeFailure(outcome) == NoFailure ==> Handle(w, job, d) == FinalizeCleanup(w2, job, outcome)
  {
    hide OtherStepRunning, StoreWriteFor, RunStepOnce, FinalizeCleanup, MarksOf;
  }

  /** The guarded cleanup of a cancelled run comes back, and is on record. */
  lemma CancelledRunCleansUp(w: World, r: RunIdent, job: Job, d: Delivery, front: nat)
    requires Core(w, r, front) && JobOf(r, job) && job.stepKey == Cleanup && Smooth(d)
    requires StatusIn(w, r) == CancelRequested && CleanupFree(w, r, d.now)
    ensures var (w2, outcome) := RunStepOnce(w, job, d);
      && Core(w2, r, front) && StatusIn(w2, r) == CancelRequested && OutcomeFailure(outcome) == NoFailure
      && (StepSucceeded(outcome) <==> CleanupPassed(MarksIn(w2, r)))
      && (d.operation.result.StepPassed? ==> StepSucceeded(outcome))
  {
    hide GoodMarks, NoRival, GuardedStep, Stage, Admit, MarksOf, Verdict;
    CleanupGuarded(w, r, job, d, front);
    FreeIsNotBusy(w, r, job, d);
    EarlyOrNever(w, job, d);
    CancellationStep(w, r, job, d, front);
  }

  lemma FreeIsNotBusy(w: World, r: RunIdent, job: Job, d: Delivery)
    requires JobOf(r, job) && job.stepKey == Cleanup && CleanupFree(w, r, d.now) && d.operation.Returns?
    ensures GuardedStep(w, job, d).1.AlreadyTerminal? || GuardedStep(w, job, d).1.Executed?
  {}

  lemma CancellationRecorded(w: World, r: RunIdent, job: Job, outcome: GuardOutcome)
    requires Alone(w, r) && JobOf(r, job) && StatusIn(w, r) == CancelRequested
    ensures var end := FinalizeCleanup(w, job, outcome).0;
      r.id in end.runs && end.runs[r.id].cleanupStatus == if StepSucceeded(outcome) then Cleaned else CleanupFailed
  {
    var status := if StepSucceeded(outcome) then Cleaned else CleanupFailed;
    CleanupWritten(w, r, job, status);
    if StepSucceeded(outcome) {
      Transitioned(StoreWriteFor(w, job, SetCleanup(Cleaned)).0, r, job, RunStatus.Cancelled);
    }
  }

  // ---- Waiting for ever ----

  /** A run that is being cancelled while a step other than the cleanup is RUNNING. */
  predicate Waits(w: World, r: RunIdent) {
    && Identifies(w.runs, r.id, r.attempt, r.headSha) && w.runs[r.id].status == CancelRequested
    && OtherStepRunning(MarksIn(w, r))
  }

  lemma WaitingDelivery(w: World, r: RunIdent, job: Job, d: Delivery)
    requires Waits(w, r) && job.runId == r.id
    ensures Handle(w, job, d).0.runs == w.runs && Handle(w, job, d).0.steps == w.steps
  {
    hide OtherStepRunning, MarksOf, Advance;
  }

  /** No delivery, publication or cancellation changes a status, a cleanup mark or a step record from
      then on: the guard resets no row whose worker died, and the cleanup does not go past it. */
  lemma {:induction false} CancellationWaits(w: World, r: RunIdent, more: seq<RunEvent>)
    requires Waits(w, r)
    ensures Run(w, r, more).runs == w.runs && Run(w, r, more).steps == w.steps
    decreases |more|
  {
    hide Handle, OtherStepRunning;
    if more != [] {
      match more[0] {
        case Deliver(index, d) => if IsOwnJob(w, r, index) { WaitingDelivery(w, r, w.jobs[index], d); }
        case _ =>
      }
      CancellationWaits(Step(w, r, more[0]), r, more[1..]);
    }
  }

  // ---- The exact condition ----

  function CleanupKeyOf(r: RunIdent): OutboxKey {
    OutboxKey(r.id, Cleanup, r.attempt)
  }

  function CleanupJobOf(r: RunIdent): Job {
    Job(r.id, r.attempt, r.headSha, Cleanup)
  }

  /** The cleanup row, if there is one, carries the cleanup job. */
  predicate CleanupRowFits(w: World, r: RunIdent) {
    CleanupKeyOf(r) in w.outbox ==> w.outbox[CleanupKeyOf(r)].payload == Some(CleanupJobOf(r))
  }

  lemma StepKeepsCleanupRow(w: World, r: RunIdent, e: RunEvent, front: nat)
    requires Sound(w, r, front) && CleanupRowFits(w, r)
    ensures CleanupRowFits(Step(w, r, e), r)
  {
    hide Good, NoRival, Handle, CancelWorld;
    match e
    case Publish(_, _, _) => PublishKeepsPayloads(w, r, e);
    case Deliver(index, d) =>
      if IsOwnJob(w, r, index) {
        var _ := HandleCore(w, r, w.jobs[index], d, front);
      }
    case CancelRun(now) => CancelIsCore(w, r, now, front);
  }

  lemma {:induction false} RunKeepsCleanupRow(w: World, r: RunIdent, events: seq<RunEvent>, front: nat)
    requires Sound(w, r, front) && CleanupRowFits(w, r)
    ensures CleanupRowFits(Run(w, r, events), r)
    decreases |events|
  {
    hide Sound, Step, CleanupRowFits;
    if events != [] {
      StepKeepsCleanupRow(w, r, events[0], front);
      var front1 := StepIsSound(w, r, events[0], front);
      RunKeepsCleanupRow(Step(w, r, events[0]), r, events[1..], front1);
    }
  }

  /** A time at which nobody holds the cleanup step. */
  function FreeTime(w: World, r: RunIdent): (now: int)
    ensures CleanupFree(w, r, now)
  {
    var key := StepGuardKey(r.id, r.attempt, Cleanup);
    if key in w.steps && w.steps[key].leaseUntil.Some? then w.steps[key].leaseUntil.value else 0
  }

  predicate IsCancelled(w: World, id: RunId) {
    id in w.runs && w.runs[id].status == RunStatus.Cancelled
  }

  /** The API is asked again, the publisher hands on the cleanup row, and the cleanup passes. */
  function Completing(w: World, r: RunIdent): seq<RunEvent> {
    var d := Delivery(FreeTime(w, r), 0, Returns(StepPassed), Nowhere, false);
    [CancelRun(0), Publish(CleanupKeyOf(r), 0, Marks), Deliver(|w.jobs|, d)]
  }

  lemma ThreeEvents(w: World, r: RunIdent, a: RunEvent, b: RunEvent, c: RunEvent)
    ensures Run(w, r, [a, b, c]) == Step(Step(Step(w, r, a), r, b), r, c)
  {
    hide Step;
    assert [a, b, c][1..] == [b, c] && [b, c][1..] == [c] && [c][1..] == [];
    assert Run(w, r, [a, b, c]) == Run(Step(w, r, a), r, [b, c]) == Run(Step(Step(w, r, a), r, b), r, [c]);
    assert Run(Step(Step(Step(w, r, a), r, b), r, c), r, []) == Step(Step(Step(w, r, a), r, b), r, c);
  }

  /** Asked again and published, the cleanup job is in the queue, and nothing else has changed. */
  lemma CleanupIsQueued(w: World, r: RunIdent)
    requires Identifies(w.runs, r.id, r.attempt, r.headSha) && w.runs[r.id].status == CancelRequested
    requires CleanupRowFits(w, r)
    ensures var w2 := Step(Step(w, r, CancelRun(0)), r, Publish(CleanupKeyOf(r), 0, Marks));
      w2.runs == w.runs && w2.steps == w.steps && w2.jobs == w.jobs + [CleanupJobOf(r)]
  {}

  lemma CompletingCancels(w: World, r: RunIdent, front: nat)
    requires Core(w, r, front) && CleanupRowFits(w, r) && StatusIn(w, r) == CancelRequested
    requires !OtherStepRunning(MarksIn(w, r))
    ensures IsCancelled(Run(w, r, Completing(w, r)), r.id)
  {
    hide Good, NoRival, Run, Step, Handle, OtherStepRunning, Admit;
    var events := Completing(w, r);
    var w2 := Step(Step(w, r, events[0]), r, events[1]);
    CleanupIsQueued(w, r);
    ThreeEvents(w, r, events[0], events[1], events[2]);
    assert CleanupFree(w2, r, events[2].d.now);
    CancelledRunCleans(w2, r, CleanupJobOf(r), events[2].d, front);
    DeliversOwn(w2, r, |w.jobs|, events[2].d);
  }

  lemma DeliversOwn(w: World, r: RunIdent, index: nat, d: Delivery)
    requires IsOwnJob(w, r, index)
    ensures Step(w, r, Deliver(index, d)) == Handle(w, w.jobs[index], d).0
  {
    hide Handle;
  }

  /** In every run that is being cancelled: some continuation makes it CANCELLED if and only if no
      step other than the cleanup is RUNNING. */
  lemma CancellationCompletesExactly(w: World, r: RunIdent, events: seq<RunEvent>)
    requires Fresh(w, r) && CleanupKeyOf(r) !in w.outbox
    requires r.id in Run(w, r, events).runs && StatusIn(Run(w, r, events), r) == CancelRequested
    ensures var here := Run(w, r, events);
      (exists more :: IsCancelled(Run(here, r, more), r.id)) <==> !OtherStepRunning(MarksIn(here, r))
  {
    hide Good, NoRival, OtherStepRunning, Run;
    FreshIsSound(w, r);
    var front := RunIsSound(w, r, events, 0);
    RunKeepsCleanupRow(w, r, events, 0);
    var here := Run(w, r, events);
    if OtherStepRunning(MarksIn(here, r)) {
      forall more
        ensures !IsCancelled(Run(here, r, more), r.id)
      {
        CancellationWaits(here, r, more);
      }
    } else {
      CompletingCancels(here, r, front);
    }
  }
}
