/** The consumer as one of the writers of the run table: every delivery is a sequence of events of
    the run lifecycle, each of them enabled when its turn comes. What holds in every run of the
    lifecycle so holds with the consumer as it is, and nothing about it taken for granted. */
module ConsumerLifecycle {
  import opened WorkflowTypes
  import opened RunStatusContract
  import opened Tables
  import opened Plan
  import opened StepGuard
  import opened WorkflowStore
  import opened Api
  import opened Consumer
  import L = RunLifecycle

  ghost predicate Matches(s: L.System, w: World) {
    s.runs == w.runs && s.steps == w.steps && s.outbox == w.outbox
  }

  /** A worker's events, each under the condition on which the lifecycle makes it happen. */
  predicate Enabled(s: L.System, e: L.Event) {
    match e
    case WorkerWrite(_, _, _, _) => L.MayWrite(s, e)
    case CancelRun(id, _) => !L.Locked(s, id)
    case SeePassed(key) => key.stepKey == Cleanup && L.CleanupPassed(s.steps, key.runId, key.attempt)
    case CallGuard(_, _) => true
    case _ => false
  }

  predicate AllEnabled(s: L.System, events: seq<L.Event>)
    decreases |events|
  {
    events == [] || (Enabled(s, events[0]) && AllEnabled(L.Step(s, events[0]), events[1..]))
  }

  /** These events are enabled one after the other, lead to the tables of this world, and leave the
      lock of the other transactions alone. */
  ghost predicate Follows(s: L.System, events: seq<L.Event>, w: World) {
    var end := L.Run(s, events);
    && AllEnabled(s, events) && Matches(end, w)
    && end.capacityLock == s.capacityLock && end.maxQueuedRuns == s.maxQueuedRuns
  }

  lemma {:induction false} EnabledConcat(s: L.System, a: seq<L.Event>, b: seq<L.Event>)
    requires AllEnabled(s, a) && AllEnabled(L.Run(s, a), b)
    ensures AllEnabled(s, a + b)
    decreases |a|
  {
    hide Enabled;
    if a == [] {
      assert a + b == b;
    } else {
      assert (a + b)[1..] == a[1..] + b;
      EnabledConcat(L.Step(s, a[0]), a[1..], b);
    }
  }

  lemma ThenFollows(s: L.System, a: seq<L.Event>, w: World, b: seq<L.Event>, w': World)
    requires Follows(s, a, w) && Follows(L.Run(s, a), b, w')
    ensures Follows(s, a + b, w')
  {
    hide AllEnabled;
    L.RunConcat(s, a, b);
    EnabledConcat(s, a, b);
  }

  lemma NothingFollows(s: L.System, w: World)
    requires Matches(s, w)
    ensures Follows(s, [], w)
  {}

  lemma OneFollows(s: L.System, e: L.Event, w: World)
    requires Enabled(s, e) && Matches(L.Step(s, e), w)
    requires L.Step(s, e).capacityLock == s.capacityLock && L.Step(s, e).maxQueuedRuns == s.maxQueuedRuns
    ensures Follows(s, [e], w) && L.Run(s, [e]) == L.Step(s, e)
  {
    assert [e][1..] == [];
    assert L.Run(L.Step(s, e), []) == L.Step(s, e);
  }

  // ---- Single transactions ----

  function StoreEvent(job: Job, write: StoreWrite): L.Event {
    L.WorkerWrite(job.runId, job.attempt, job.headSha, write)
  }

  lemma StoreFollows(s: L.System, w: World, job: Job, write: StoreWrite) returns (events: seq<L.Event>)
    requires Matches(s, w) && !L.Locked(s, job.runId) && write != SetCleanup(Cleaned)
    ensures Follows(s, events, StoreWriteFor(w, job, write).0)
  {
    hide Write;
    events := [StoreEvent(job, write)];
    OneFollows(s, StoreEvent(job, write), StoreWriteFor(w, job, write).0);
  }

  /** CLEANED is written by a worker that saw the cleanup record PASSED. */
  lemma CleanedFollows(s: L.System, w: World, job: Job) returns (events: seq<L.Event>)
    requires Matches(s, w) && !L.Locked(s, job.runId) && L.CleanupPassed(w.steps, job.runId, job.attempt)
    ensures Follows(s, events, StoreWriteFor(w, job, SetCleanup(Cleaned)).0)
  {
    hide Write;
    var key := StepGuardKey(job.runId, job.attempt, Cleanup);
    var seen := L.SeePassed(key);
    OneFollows(s, seen, w);
    var s1 := L.Step(s, seen);
    var write := StoreEvent(job, SetCleanup(Cleaned));
    OneFollows(s1, write, StoreWriteFor(w, job, SetCleanup(Cleaned)).0);
    ThenFollows(s, [seen], w, [write], StoreWriteFor(w, job, SetCleanup(Cleaned)).0);
    events := [seen] + [write];
  }

  lemma CancelFollows(s: L.System, w: World, id: RunId, now: int) returns (events: seq<L.Event>)
    requires Matches(s, w) && !L.Locked(s, id)
    ensures Follows(s, events, CancelWorld(w, id, now))
  {
    hide CancelRuns, CancelOutbox;
    events := [L.CancelRun(id, now)];
    OneFollows(s, L.CancelRun(id, now), CancelWorld(w, id, now));
  }

  lemma GuardCallFollows(s: L.System, w: World, key: StepGuardKey, call: L.GuardCall)
    requires Matches(s, w)
    ensures Follows(s, [L.CallGuard(key, call)],
      w.(steps := Put(w.steps, key, L.GuardRow(RowOf(w.steps, key), key.stepKey, call))))
  {
    hide L.GuardRow;
    OneFollows(s, L.CallGuard(key, call),
      w.(steps := Put(w.steps, key, L.GuardRow(RowOf(w.steps, key), key.stepKey, call))));
  }

  // ---- The guarded step ----

  /** The second guard transaction of a call, if it makes one. */
  function SecondCall(d: Delivery): Option<L.GuardCall> {
    match d.operation
    case Returns(result) => Some(L.Finishes(d.token, result))
    case Throws => Some(L.Resets(d.token))
    case Crashes(beat) => if beat.Some? then Some(L.Beats(beat.value, d.token)) else None
  }

  lemma GuardedRows(w: World, job: Job, d: Delivery)
    ensures var key := KeyOf(job);
      var (admission, admitted) := Admit(RowOf(w.steps, key), key.stepKey, d.now, d.token);
      var steps1 := Put(w.steps, key, admitted);
      GuardedStep(w, job, d).0.steps ==
        if admission == Admitted && SecondCall(d).Some?
        then Put(steps1, key, L.GuardRow(RowOf(steps1, key), key.stepKey, SecondCall(d).value)) else steps1
  {}

  lemma GuardedStepFollows(s: L.System, w: World, job: Job, d: Delivery) returns (events: seq<L.Event>)
    requires Matches(s, w)
    ensures Follows(s, events, GuardedStep(w, job, d).0)
  {
    var key := KeyOf(job);
    var admits := L.Admits(d.now, d.token);
    var admission := Admit(RowOf(w.steps, key), key.stepKey, d.now, d.token).0;
    GuardedRows(w, job, d);
    GuardCallFollows(s, w, key, admits);
    events := [L.CallGuard(key, admits)];
    var w1 := w.(steps := Put(w.steps, key, L.GuardRow(RowOf(w.steps, key), key.stepKey, admits)));
    hide Admit, GuardedStep, RowOf, Put;
    if admission == Admitted && SecondCall(d).Some? {
      var second := L.CallGuard(key, SecondCall(d).value);
      var w2 := w1.(steps := Put(w1.steps, key, L.GuardRow(RowOf(w1.steps, key), key.stepKey, SecondCall(d).value)));
      GuardCallFollows(L.Run(s, events), w1, key, SecondCall(d).value);
      ThenFollows(s, events, w1, [second], w2);
      events := events + [second];
      SameTables(s, events, w2, GuardedStep(w, job, d).0, w, job, d);
    } else {
      SameTables(s, events, w1, GuardedStep(w, job, d).0, w, job, d);
    }
  }

  lemma SameTables(s: L.System, events: seq<L.Event>, w1: World, w2: World, w: World, job: Job, d: Delivery)
    requires Follows(s, events, w1) && w2 == GuardedStep(w, job, d).0 && w2.steps == w1.steps && w1.runs == w.runs
    requires w1.outbox == w.outbox
    ensures Follows(s, events, w2)
  {
    hide AllEnabled, RunOnce;
  }

  /** A call that came back with success left the record PASSED, or found it so. */
  lemma SuccessIsOnRecord(w: World, job: Job, d: Delivery)
    ensures var (after, outcome) := GuardedStep(w, job, d);
      job.stepKey == Cleanup && StepSucceeded(outcome) ==> L.CleanupPassed(after.steps, job.runId, job.attempt)
  {}

  lemma StepFollows(s: L.System, w: World, job: Job, d: Delivery) returns (events: seq<L.Event>)
    requires Matches(s, w) && !L.Locked(s, job.runId)
    ensures var (after, outcome) := RunStepOnce(w, job, d);
      && Follows(s, events, after)
      && (job.stepKey == Cleanup && StepSucceeded(outcome) ==> L.CleanupPassed(after.steps, job.runId, job.attempt))
  {
    hide GuardedStep, CancelRuns, CancelOutbox;
    SuccessIsOnRecord(w, job, d);
    events := GuardedStepFollows(s, w, job, d);
    var w1 := GuardedStep(w, job, d).0;
    if d.landing == AroundStep {
      var more := CancelFollows(L.Run(s, events), w1, job.runId, d.now);
      ThenFollows(s, events, w1, more, CancelWorld(w1, job.runId, d.now));
      events := events + more;
    }
  }

  lemma FollowedMatches(s: L.System, events: seq<L.Event>, w: World)
    requires Follows(s, events, w)
    ensures Matches(L.Run(s, events), w)
  {}

  // ---- Skipping ----

  lemma SkippedRowIsPut(steps: StepRows, key: StepGuardKey, reason: string)
    ensures var (refused, row) := MarkSkipped(RowOf(steps, key), key.stepKey, reason);
      !refused ==>
        row.Some? && Put(steps, key, L.GuardRow(RowOf(steps, key), key.stepKey, L.Skips(reason)))
          == steps[key := row.value]
  {}

  lemma {:induction false} SkippingFollows(s: L.System, w: World, runId: RunId, attempt: nat)
      returns (events: seq<L.Event>)
    requires Matches(s, w)
    ensures Follows(s, events, w.(steps := SkipBlocked(w.steps, runId, attempt).0))
    decreases |WORKFLOW_STEPS| - FirstOpen(MarksOf(w.steps, runId, attempt))
  {
    hide Follows, MarksOf, Planned, MarkSkipped, FirstOpen, L.GuardRow;
    var planned := Planned(MarksOf(w.steps, runId, attempt));
    events := [];
    NothingFollows(s, w);
    if planned.Some? && planned.value.SkipStep? {
      var step := planned.value.stepKey;
      var key := StepGuardKey(runId, attempt, step);
      var (refused, row) := MarkSkipped(RowOf(w.steps, key), step, "SKIPPED_UPSTREAM");
      if !refused {
        SkippedRowMovesOn(w.steps, runId, attempt, step);
        var call := L.Skips("SKIPPED_UPSTREAM");
        GuardCallFollows(s, w, key, call);
        var w1 := w.(steps := w.steps[key := row.value]);
        SkippedRowIsPut(w.steps, key, "SKIPPED_UPSTREAM");
        var first := [L.CallGuard(key, call)];
        FollowedMatches(s, first, w1);
        var rest := SkippingFollows(L.Run(s, first), w1, runId, attempt);
        ThenFollows(s, first, w1, rest, w1.(steps := SkipBlocked(w1.steps, runId, attempt).0));
        events := first + rest;
      }
    }
  }

  lemma SkippedRowMovesOn(steps: StepRows, runId: RunId, attempt: nat, step: StepKey)
    requires Planned(MarksOf(steps, runId, attempt)) == Some(SkipStep(step))
    requires !MarkSkipped(RowOf(steps, StepGuardKey(runId, attempt, step)), step, "SKIPPED_UPSTREAM").0
    ensures var key := StepGuardKey(runId, attempt, step);
      var row := MarkSkipped(RowOf(steps, key), step, "SKIPPED_UPSTREAM").1;
      row.Some?
        && FirstOpen(MarksOf(steps, runId, attempt)) < FirstOpen(MarksOf(steps[key := row.value], runId, attempt))
  {
    var key := StepGuardKey(runId, attempt, step);
    var row := MarkSkipped(RowOf(steps, key), step, "SKIPPED_UPSTREAM").1;
    MarksPut(steps, key, row.value);
    SkipMovesOn(MarksOf(steps, runId, attempt), step, Mark(row.value.status, row.value.failureKind), 0);
  }

  // ---- A delivery ----

  lemma FinalizeCleanupFollows(s: L.System, w: World, job: Job, outcome: GuardOutcome) returns (events: seq<L.Event>)
    requires Matches(s, w) && !L.Locked(s, job.runId)
    requires StepSucceeded(outcome) ==> L.CleanupPassed(w.steps, job.runId, job.attempt)
    ensures Follows(s, events, FinalizeCleanup(w, job, outcome).0)
  {
    hide Follows, L.CleanupPassed, Write;
    if !StepSucceeded(outcome) {
      events := StoreFollows(s, w, job, SetCleanup(CleanupFailed));
    } else {
      events := CleanedFollows(s, w, job);
      var (w1, failure) := StoreWriteFor(w, job, SetCleanup(Cleaned));
      if failure == NoFailure && StatusNow(w1, job.runId) == CancelRequested {
        LockStays(s, events, w1, job.runId);
        var more := StoreFollows(L.Run(s, events), w1, job, Transition(RunStatus.Cancelled));
        ThenFollows(s, events, w1, more, StoreWriteFor(w1, job, Transition(RunStatus.Cancelled)).0);
        events := events + more;
      }
    }
  }

  lemma LockStays(s: L.System, events: seq<L.Event>, w: World, id: RunId)
    requires Follows(s, events, w) && !L.Locked(s, id)
    ensures Matches(L.Run(s, events), w) && !L.Locked(L.Run(s, events), id)
  {}

  /** Handing a job to the queue is no event of the tables. */
  lemma QueueIsNoTable(s: L.System, events: seq<L.Event>, w: World, w': World)
    requires Follows(s, events, w) && w' == w.(jobs := w'.jobs)
    ensures Follows(s, events, w')
  {}

  lemma DispatchIsNoTable(w: World, job: Job, d: Delivery)
    ensures var w' := DispatchNext(w, job, d).0; w' == w.(jobs := w'.jobs)
    ensures var w' := Dispatch(w, job, d).0; w' == w.(jobs := w'.jobs)
  {}

  /** The world after the finalization of a report or a cleanup. */
  function Finalized(w: World, job: Job, outcome: GuardOutcome): World {
    if job.stepKey == Report then FinalizeReport(w, job).0
    else if job.stepKey == Cleanup then FinalizeCleanup(w, job, outcome).0
    else w
  }

  lemma AfterStepIsFinalized(w: World, job: Job, d: Delivery, outcome: GuardOutcome)
    ensures var w' := AfterStep(w, job, d, outcome).0; w' == Finalized(w, job, outcome).(jobs := w'.jobs)
  {
    hide FinalizeReport, FinalizeCleanup, DispatchNext, Dispatch;
    DispatchIsNoTable(Finalized(w, job, outcome), job, d);
    DispatchIsNoTable(Finalized(w, job, outcome), job.(stepKey := Cleanup), d);
  }

  lemma FinalizedFollows(s: L.System, w: World, job: Job, outcome: GuardOutcome) returns (events: seq<L.Event>)
    requires Matches(s, w) && !L.Locked(s, job.runId)
    requires job.stepKey == Cleanup && StepSucceeded(outcome) ==> L.CleanupPassed(w.steps, job.runId, job.attempt)
    ensures Follows(s, events, Finalized(w, job, outcome))
  {
    hide Follows, FinalizeCleanup, StoreWriteFor;
    if job.stepKey == Cleanup {
      events := FinalizeCleanupFollows(s, w, job, outcome);
    } else if job.stepKey == Report && FinalizeReport(w, job).0 != w {
      events := StoreFollows(s, w, job, Transition(Verdict(JobMarks(w, job))));
    } else {
      events := [];
      NothingFollows(s, w);
    }
  }

  lemma ConcludeFollows(s: L.System, w: World, job: Job, d: Delivery, outcome: GuardOutcome)
      returns (events: seq<L.Event>)
    requires Matches(s, w) && !L.Locked(s, job.runId)
    requires job.stepKey == Cleanup && StepSucceeded(outcome) ==> L.CleanupPassed(w.steps, job.runId, job.attempt)
    ensures Follows(s, events, Conclude(w, job, d, outcome).0)
  {
    hide Follows, AfterStep, Finalized;
    if OutcomeFailure(outcome) == NoFailure {
      events := FinalizedFollows(s, w, job, outcome);
      AfterStepIsFinalized(w, job, d, outcome);
      QueueIsNoTable(s, events, Finalized(w, job, outcome), AfterStep(w, job, d, outcome).0);
    } else {
      events := [];
      NothingFollows(s, w);
    }
  }

  /** A guarded step and what follows it. */
  lemma StepConcludes(s: L.System, w: World, job: Job, d: Delivery) returns (events: seq<L.Event>)
    requires Matches(s, w) && !L.Locked(s, job.runId)
    ensures var (w1, outcome) := RunStepOnce(w, job, d); Follows(s, events, Conclude(w1, job, d, outcome).0)
  {
    hide Follows, RunStepOnce, Conclude, L.CleanupPassed;
    events := StepFollows(s, w, job, d);
    var (w1, outcome) := RunStepOnce(w, job, d);
    LockStays(s, events, w1, job.runId);
    var more := ConcludeFollows(L.Run(s, events), w1, job, d, outcome);
    ThenFollows(s, events, w1, more, Conclude(w1, job, d, outcome).0);
    events := events + more;
  }

  lemma PhaseFollows(s: L.System, w: World, job: Job, status: RunStatus) returns (events: seq<L.Event>)
    requires Matches(s, w) && !L.Locked(s, job.runId)
    ensures Follows(s, events, MoveToStepPhase(w, job, status).0)
  {
    hide Follows, StoreWriteFor;
    var target := PhaseForStep(job.stepKey);
    if target == None || status == target.value || status == Received {
      events := [];
      NothingFollows(s, w);
    } else {
      events := StoreFollows(s, w, job, Transition(target.value));
    }
  }

  lemma ExecuteFollows(s: L.System, w: World, job: Job, d: Delivery, status: RunStatus) returns (events: seq<L.Event>)
    requires Matches(s, w) && !L.Locked(s, job.runId)
    ensures Follows(s, events, Execute(w, job, d, status).0)
  {
    hide Follows, MoveToStepPhase, StoreWriteFor, RunStepOnce, Conclude;
    events := PhaseFollows(s, w, job, status);
    var (w1, failure) := MoveToStepPhase(w, job, status);
    if failure == NoFailure {
      LockStays(s, events, w1, job.runId);
      var w2, refused := w1, NoFailure;
      if job.stepKey == Cleanup {
        var more := StoreFollows(L.Run(s, events), w1, job, SetCleanup(CleanupPending));
        w2 := StoreWriteFor(w1, job, SetCleanup(CleanupPending)).0;
        refused := StoreWriteFor(w1, job, SetCleanup(CleanupPending)).1;
        ThenFollows(s, events, w1, more, w2);
        events := events + more;
        LockStays(s, events, w2, job.runId);
      }
      if refused == NoFailure {
        var more := StepConcludes(L.Run(s, events), w2, job, d);
        ThenFollows(s, events, w2, more, Execute(w, job, d, status).0);
        events := events + more;
      }
    }
  }

  lemma AdvanceFollows(s: L.System, w: World, job: Job, d: Delivery, status: RunStatus) returns (events: seq<L.Event>)
    requires Matches(s, w) && !L.Locked(s, job.runId)
    ensures Follows(s, events, Advance(w, job, d, status).0)
  {
    hide Follows, SkipBlocked, Execute, DispatchNext, Planned, MarksOf;
    events := SkippingFollows(s, w, job.runId, job.attempt);
    var w1 := w.(steps := SkipBlocked(w.steps, job.runId, job.attempt).0);
    LockStays(s, events, w1, job.runId);
    var planned := Planned(JobMarks(w1, job));
    if !SkipBlocked(w.steps, job.runId, job.attempt).1 && planned.Some? {
      if planned.value.stepKey == job.stepKey {
        var more := ExecuteFollows(L.Run(s, events), w1, job, d, status);
        ThenFollows(s, events, w1, more, Execute(w1, job, d, status).0);
        events := events + more;
      } else if Settled(JobMarks(w1, job), job.stepKey) {
        DispatchIsNoTable(w1, job, d);
        QueueIsNoTable(s, events, w1, DispatchNext(w1, job, d).0);
      }
    }
  }

  lemma CancellationFollows(s: L.System, w: World, job: Job, d: Delivery) returns (events: seq<L.Event>)
    requires Matches(s, w) && !L.Locked(s, job.runId) && job.stepKey == Cleanup
    ensures Follows(s, events, AdvanceCancellation(w, job, d).0)
  {
    hide Follows, StoreWriteFor, RunStepOnce, FinalizeCleanup, L.CleanupPassed;
    if OtherStepRunning(JobMarks(w, job)) {
      events := [];
      NothingFollows(s, w);
    } else {
      events := StoreFollows(s, w, job, SetCleanup(CleanupPending));
      var (w1, failure) := StoreWriteFor(w, job, SetCleanup(CleanupPending));
      if failure == NoFailure {
        LockStays(s, events, w1, job.runId);
        var more := StepFollows(L.Run(s, events), w1, job, d);
        var (w2, outcome) := RunStepOnce(w1, job, d);
        ThenFollows(s, events, w1, more, w2);
        events := events + more;
        if OutcomeFailure(outcome) == NoFailure {
          LockStays(s, events, w2, job.runId);
          var last := FinalizeCleanupFollows(L.Run(s, events), w2, job, outcome);
          ThenFollows(s, events, w2, last, FinalizeCleanup(w2, job, outcome).0);
          events := events + last;
        }
      }
    }
  }

  /** Every delivery of any job, in any state of the tables, is a sequence of enabled events of the
      run lifecycle, unless a retry holds the run's lock, for which it waits. */
  lemma DeliveryFollows(s: L.System, w: World, job: Job, d: Delivery) returns (events: seq<L.Event>)
    requires Matches(s, w) && !L.Locked(s, job.runId)
    ensures Follows(s, events, Handle(w, job, d).0)
  {
    hide Follows, Advance, AdvanceCancellation, CancelWorld, Dispatch;
    events := [];
    NothingFollows(s, w);
    if !Stale(w, job) {
      var status := w.runs[job.runId].status;
      var w1 := CancelledEarly(w, job, d);
      if d.landing == BeforePhase {
        events := CancelFollows(s, w, job.runId, d.now);
      }
      LockStays(s, events, w1, job.runId);
      if status == CancelRequested && job.stepKey != Cleanup {
        DispatchIsNoTable(w1, job.(stepKey := Cleanup), d);
        QueueIsNoTable(s, events, w1, Handle(w, job, d).0);
      } else {
        var more: seq<L.Event>;
        if status == CancelRequested {
          more := CancellationFollows(L.Run(s, events), w1, job, d);
        } else {
          more := AdvanceFollows(L.Run(s, events), w1, job, d, status);
        }
        ThenFollows(s, events, w1, more, Handle(w, job, d).0);
        events := events + more;
      }
    }
  }

  // ---- The consumer among the other writers ----

  /** Deliveries of the consumer, and the events of everyone else. */
  datatype Act = Happens(e: L.Event) | Delivered(job: Job, d: Delivery)

  /** Only deliveries write for the worker here. */
  predicate IsTheWorkers(e: L.Event) {
    e.WorkerWrite? || e.SeePassed?
  }

  function Do(s: L.System, a: Act): L.System {
    match a
    case Happens(e) => if IsTheWorkers(e) then s else L.Step(s, e)
    case Delivered(job, d) =>
      if L.Locked(s, job.runId) then s
      else
        var w := Handle(World(s.runs, s.steps, s.outbox, []), job, d).0;
        s.(runs := w.runs, steps := w.steps, outbox := w.outbox)
  }

  function DoAll(s: L.System, acts: seq<Act>): L.System
    decreases |acts|
  {
    if acts == [] then s else DoAll(Do(s, acts[0]), acts[1..])
  }

  /** The same but for the note of who saw a cleanup pass, which nothing here reads. */
  ghost predicate SameSystem(s: L.System, t: L.System) {
    t == s.(seenPassed := t.seenPassed)
  }

  lemma ActFollows(s: L.System, t: L.System, a: Act) returns (events: seq<L.Event>)
    requires SameSystem(s, t)
    ensures SameSystem(Do(s, a), L.Run(t, events))
  {
    events := [];
    match a
    case Happens(e) =>
      if !IsTheWorkers(e) {
        events := [e];
        OthersDoNotLook(s, t, e);
        hide L.Step;
        assert [e][1..] == [];
        assert L.Run(t, [e]) == L.Run(L.Step(t, e), []);
      }
    case Delivered(job, d) =>
      if !L.Locked(s, job.runId) {
        hide Handle;
        events := DeliveryFollows(t, World(s.runs, s.steps, s.outbox, []), job, d);
      }
  }

  lemma OthersDoNotLook(s: L.System, t: L.System, e: L.Event)
    requires SameSystem(s, t) && !IsTheWorkers(e)
    ensures SameSystem(L.Step(s, e), L.Step(t, e))
  {
    hide L.CommitRetry, L.CommitAdmission, RetryAllowed, CancelRuns, CancelOutbox, L.GuardRow, AdmissionStatus,
      EnqueueCleanup;
    CommitsDoNotLook(s, t, e);
  }

  lemma CommitsDoNotLook(s: L.System, t: L.System, e: L.Event)
    requires SameSystem(s, t)
    ensures e.RetryCommit? && s.capacityLock.Retrying? ==> SameSystem(L.CommitRetry(s, e.now), L.CommitRetry(t, e.now))
    ensures e.AdmitCommit? && s.capacityLock.Admitting? ==>
      SameSystem(L.CommitAdmission(s, e.id, e.now), L.CommitAdmission(t, e.id, e.now))
  {
    hide RetryRuns, InsertRun, RunExists, RetryMatches;
  }

  /** Any history of deliveries among the other writers is a run of the lifecycle. */
  lemma {:induction false} ActsFollow(s: L.System, t: L.System, acts: seq<Act>) returns (events: seq<L.Event>)
    requires SameSystem(s, t)
    ensures SameSystem(DoAll(s, acts), L.Run(t, events))
    decreases |acts|
  {
    hide Do;
    events := [];
    if acts != [] {
      var first := ActFollows(s, t, acts[0]);
      var rest := ActsFollow(Do(s, acts[0]), L.Run(t, first), acts[1..]);
      L.RunConcat(t, first, rest);
      events := first + rest;
    }
  }

  /** With the consumer as it is: whatever jobs are delivered, and whatever the API, the publisher,
      retention and other guard calls do in between, a CANCELLED run and one marked CLEANED have a
      PASSED cleanup record, at most one run is active and at most three are queued, and every
      queued run has its detect job. */
  lemma DeliveriesKeepTheLifecycle(maxQueuedRuns: nat, acts: seq<Act>, id: RunId)
    requires maxQueuedRuns <= MAX_QUEUED_RUNS
    ensures var s := DoAll(L.Start(maxQueuedRuns), acts);
      && |ActiveIds(s.runs)| <= 1 && |QueuedIds(s.runs)| <= 3
      && (id in s.runs && L.SaysCleaned(s.runs[id]) ==>
            L.CleanupPassed(s.steps, id, s.runs[id].currentAttempt))
      && (id in s.runs && s.runs[id].status == Queued ==> L.DetectJobOf(s, id, s.runs[id].currentAttempt))
  {
    hide DoAll, ActiveIds, QueuedIds;
    var start := L.Start(maxQueuedRuns);
    var events := ActsFollow(start, start, acts);
    L.CapacityHolds(maxQueuedRuns, events);
    L.CancelledMeansCleaned(maxQueuedRuns, events, id);
    if id in DoAll(start, acts).runs {
      L.DetectJobsTellAdmission(maxQueuedRuns, events, id);
    }
  }
}
