/** Runs whose workers die. A dead worker keeps its step until its lease is over; whoever comes then
    finds the step as if it had been handed back. So a run with deaths is, delivery by delivery, a
    run with throws, and comes to its end as that one does. */
module WorkflowDeaths {
  import opened WorkflowTypes
  import opened RunStatusContract
  import opened Tables
  import opened Plan
  import opened StepGuard
  import opened WorkflowStore
  import opened Consumer
  import opened WorkflowRuns
  import opened WorkflowChain
  import opened WorkflowRedelivery

  // ---- Leases of the dead ----

  /** When the lease of a worker that dies in this delivery is over. */
  function LeaseEnd(d: Delivery): int
    requires d.operation.Crashes?
  {
    (if d.operation.lastBeat.Some? then d.operation.lastBeat.value else d.now) + STALE_STEP_MS
  }

  /** When the leases of all workers that have died are over; `None` while none has. */
  function Horizon(until: Option<int>, d: Delivery): Option<int> {
    if !d.operation.Crashes? || (until.Some? && until.value >= LeaseEnd(d)) then until else Some(LeaseEnd(d))
  }

  predicate NoLeaseAt(until: Option<int>, now: int) {
    until == None || until.value <= now
  }

  /** How many deliveries are smooth and come when no dead worker has a lease any more. */
  function TimelyCount(deliveries: seq<Delivery>, until: Option<int>): nat
    decreases |deliveries|
  {
    if deliveries == [] then 0
    else
      var d := deliveries[0];
      (if Smooth(d) && NoLeaseAt(until, d.now) then 1 else 0) + TimelyCount(deliveries[1..], Horizon(until, d))
  }

  // ---- The run with throws ----

  /** What the guard leaves of a step that throws. */
  const HANDED_BACK := StepRow(Pending, None, Some("STEP_RETRYABLE_ERROR"), None, None)

  function HandBack(w: World, key: StepGuardKey): World {
    w.(steps := w.steps[key := HANDED_BACK])
  }

  /** A dead worker holds this step, at most until then. */
  predicate HeldByTheDead(w: World, key: StepGuardKey, until: Option<int>) {
    && key in w.steps && w.steps[key].status == Running
    && w.steps[key].leaseUntil.Some? && until.Some? && w.steps[key].leaseUntil.value <= until.value
  }

  /** `s` is `w`, or `w` with the step of the live job handed back by the worker that died on it. */
  predicate Shadows(w: World, s: World, live: Option<Job>, until: Option<int>) {
    || s == w
    || (live.Some? && s == HandBack(w, KeyOf(live.value)) && HeldByTheDead(w, KeyOf(live.value), until)
        && Planned(JobMarks(s, live.value)) == Some(RunStep(live.value.stepKey)))
  }

  /** The delivery in the run with throws: a worker that dies or meets a lease throws there. */
  function Fate(w: World, job: Job, d: Delivery): Delivery {
    if d.operation.Crashes? || GuardedStep(w, job, d).1 == Busy then d.(operation := Throws) else d
  }

  /** Two outcomes of one delivery: the same one, or two failed ones with the step held in the first
      and handed back in the second, where it was `steps` before. */
  predicate SameEnd(steps: StepRows, job: Job, until: Option<int>, a: (World, Failure), b: (World, Failure)) {
    || a == b
    || (a.1 != NoFailure && b.1 != NoFailure && b.0 == HandBack(a.0, KeyOf(job))
        && HeldByTheDead(a.0, KeyOf(job), until) && b.0.steps == steps[KeyOf(job) := HANDED_BACK])
  }

  // ---- The guarded step ----

  /** The step is open in the run with throws, and nobody holds it there. */
  predicate Open(s: World, key: StepGuardKey) {
    key in s.steps ==> s.steps[key].status == Pending
  }

  /** The call fails, and the step is left to a lease. */
  predicate LeavesLease(d: Delivery, outcome: GuardOutcome) {
    d.operation.Crashes? || outcome == Busy
  }

  lemma RowShadow(row: Option<StepRow>, shadow: Option<StepRow>, step: StepKey, d: Delivery)
    requires shadow == row
      || (row.Some? && row.value.status == Running && row.value.leaseUntil.Some? && shadow == Some(HANDED_BACK))
    requires shadow.Some? ==> shadow.value.status == Pending
    ensures var (outcome, after) := RunOnce(row, step, d.now, d.token, d.operation);
      if LeavesLease(d, outcome) then
        && RunOnce(shadow, step, d.now, d.token, Throws) == (Threw, Some(HANDED_BACK))
        && outcome in {Busy, Died} && after.Some? && after.value.status == Running && after.value.leaseUntil.Some?
        && (outcome == Busy ==> after == row && shadow == Some(HANDED_BACK))
        && (outcome == Died ==> d.operation.Crashes? && after.value.leaseUntil.value == LeaseEnd(d))
      else
        RunOnce(shadow, step, d.now, d.token, d.operation) == (outcome, after) && after.Some?
  {}

  predicate StepShadows(w: World, s: World, key: StepGuardKey, until: Option<int>) {
    s == w || (s == HandBack(w, key) && HeldByTheDead(w, key, until))
  }

  lemma GuardedShadow(w: World, s: World, job: Job, d: Delivery, until: Option<int>)
    requires StepShadows(w, s, KeyOf(job), until) && Open(s, KeyOf(job))
    ensures var (w1, outcome) := GuardedStep(w, job, d);
      var (s1, outcome') := GuardedStep(s, job, Fate(w, job, d));
      if LeavesLease(d, outcome) then
        && outcome in {Busy, Died} && outcome' == Threw && s1 == HandBack(w1, KeyOf(job))
        && HeldByTheDead(w1, KeyOf(job), Horizon(until, d)) && s1.steps == s.steps[KeyOf(job) := HANDED_BACK]
      else
        w1 == s1 && outcome == outcome' && Fate(w, job, d) == d
  {
    var key := KeyOf(job);
    RowShadow(RowOf(w.steps, key), RowOf(s.steps, key), job.stepKey, d);
    hide RunOnce;
  }

  /** A smooth delivery that meets no lease of the dead stays what it is. */
  lemma TimelyFate(w: World, job: Job, d: Delivery, until: Option<int>)
    requires Smooth(d) && NoLeaseAt(until, d.now)
    requires KeyOf(job) in w.steps && w.steps[KeyOf(job)].status == Running ==> HeldByTheDead(w, KeyOf(job), until)
    ensures Fate(w, job, d) == d
  {}

  // ---- The driven step ----

  /** What `Execute` writes before the guarded step. */
  function Prepared(w: World, job: Job, status: RunStatus): (World, Failure) {
    var (w1, failure) := MoveToStepPhase(w, job, status);
    if failure == NoFailure && job.stepKey == Cleanup then StoreWriteFor(w1, job, SetCleanup(CleanupPending))
    else (w1, failure)
  }

  lemma PreparedThenGuarded(w: World, job: Job, d: Delivery, status: RunStatus)
    requires d.landing == Nowhere
    ensures var (w1, failure) := Prepared(w, job, status);
      Execute(w, job, d, status) ==
        if failure != NoFailure then (w1, failure)
        else Conclude(GuardedStep(w1, job, d).0, job, d, GuardedStep(w1, job, d).1)
  {
    hide MoveToStepPhase, StoreWriteFor, GuardedStep, Conclude;
  }

  /** These writes do not look at the step records. */
  lemma PreparedIgnoresSteps(w: World, job: Job, status: RunStatus, steps: StepRows)
    ensures Prepared(w.(steps := steps), job, status) ==
      (Prepared(w, job, status).0.(steps := steps), Prepared(w, job, status).1)
    ensures Prepared(w, job, status).0.steps == w.steps
  {
    hide Write;
  }

  lemma HorizonGrows(w: World, key: StepGuardKey, until: Option<int>, d: Delivery)
    requires HeldByTheDead(w, key, until)
    ensures HeldByTheDead(w, key, Horizon(until, d))
  {}

  lemma FateIgnoresTheRest(w: World, w1: World, job: Job, d: Delivery)
    requires w1.steps == w.steps
    ensures Fate(w1, job, d) == Fate(w, job, d)
  {
    hide RunOnce;
  }

  lemma ExecuteShadow(w: World, s: World, job: Job, d: Delivery, until: Option<int>, status: RunStatus)
    requires StepShadows(w, s, KeyOf(job), until) && Open(s, KeyOf(job)) && d.landing == Nowhere
    ensures SameEnd(s.steps, job, Horizon(until, d),
      Execute(w, job, d, status), Execute(s, job, Fate(w, job, d), status))
  {
    hide Execute, Prepared, GuardedStep, Fate, AfterStep;
    var key := KeyOf(job);
    var d' := Fate(w, job, d);
    assert d'.landing == Nowhere && d'.dispatchFails == d.dispatchFails by { FateDoesNotCancel(w, job, d); }
    PreparedThenGuarded(w, job, d, status);
    PreparedThenGuarded(s, job, d', status);
    PreparedIgnoresSteps(w, job, status, s.steps);
    assert s == w.(steps := s.steps);
    var (w1, failure) := Prepared(w, job, status);
    var s1 := Prepared(s, job, status).0;
    if failure != NoFailure {
      if s != w {
        HorizonGrows(w1, key, until, d);
        assert s.steps == s.steps[key := HANDED_BACK];
      }
    } else {
      FateIgnoresTheRest(w, w1, job, d);
      GuardedShadow(w1, s1, job, d, until);
    }
  }

  lemma FateDoesNotCancel(w: World, job: Job, d: Delivery)
    ensures var d' := Fate(w, job, d);
      && !d'.operation.Crashes? && d' == d.(operation := d'.operation)
  {
    hide GuardedStep;
  }

  // ---- Deliveries ----

  lemma SamePlan(marks: Marks, shadow: Marks, step: StepKey)
    requires step in marks && marks[step].status == Running && shadow == marks[step := Mark(Pending, None)]
    ensures Planned(marks) == Planned(shadow)
  {
    OpenRecordsDecideNothing(marks, shadow);
  }

  lemma HandedBackMarks(w: World, key: StepGuardKey)
    ensures MarksOf(HandBack(w, key).steps, key.runId, key.attempt)
         == MarksOf(w.steps, key.runId, key.attempt)[key.stepKey := Mark(Pending, None)]
  {
    MarksPut(w.steps, key, HANDED_BACK);
  }

  /** The planned step of a going run is open, and nobody holds it. */
  lemma PlannedIsPending(s: World, r: RunIdent, job: Job, front: nat)
    requires Going(s, r, Some(job), front) && Planned(MarksIn(s, r)) == Some(RunStep(job.stepKey))
    ensures Open(s, KeyOf(job)) && !Settled(MarksIn(s, r), job.stepKey)
  {
    PlannedStep(MarksIn(s, r), front);
    assert KeyOf(job) in s.steps <==> job.stepKey in MarksIn(s, r);
  }

  lemma DrivenShadow(w: World, s: World, r: RunIdent, job: Job, d: Delivery, until: Option<int>, front: nat)
    requires Going(s, r, Some(job), front) && Shadows(w, s, Some(job), until) && d.landing == Nowhere
    requires Planned(MarksIn(s, r)) == Some(RunStep(job.stepKey))
    ensures SameEnd(s.steps, job, Horizon(until, d), Handle(w, job, d), Handle(s, job, Fate(w, job, d)))
  {
    hide Handle, Execute, Good, NoRival, Planned, MarksOf, Fate, GuardedStep, NoneRunning;
    PlannedIsPending(s, r, job, front);
    FateDoesNotCancel(w, job, d);
    if s != w {
      HandedBackMarks(w, KeyOf(job));
      HeldMarks(w, r, job, until);
      SamePlan(MarksIn(w, r), MarksIn(s, r), job.stepKey);
    }
    NothingToSkip(w, r, job, d);
    NothingToSkip(s, r, job, Fate(w, job, d));
    ExecuteShadow(w, s, job, d, until, StatusIn(w, r));
  }

  lemma HeldMarks(w: World, r: RunIdent, job: Job, until: Option<int>)
    requires JobOf(r, job) && HeldByTheDead(w, KeyOf(job), until)
    ensures job.stepKey in MarksIn(w, r) && MarksIn(w, r)[job.stepKey].status == Running
  {}

  /** A delivery ends alike in both runs. */
  lemma DeliveryShadow(w: World, s: World, r: RunIdent, job: Job, d: Delivery, until: Option<int>, front: nat)
    requires Going(s, r, Some(job), front) && Shadows(w, s, Some(job), until) && d.landing == Nowhere
    ensures var a, b := Handle(w, job, d), Handle(s, job, Fate(w, job, d));
      && SameEnd(s.steps, job, Horizon(until, d), a, b)
      && (a != b ==> Planned(MarksIn(s, r)) == Some(RunStep(job.stepKey)))
  {
    hide Handle, Good, NoRival, Planned, MarksOf, Fate, NoneRunning, HeldByTheDead;
    if Planned(MarksIn(s, r)) == Some(RunStep(job.stepKey)) {
      DrivenShadow(w, s, r, job, d, until, front);
    } else {
      var d' := Fate(w, job, d);
      FateDoesNotCancel(w, job, d);
      if Settled(MarksIn(s, r), job.stepKey) {
        IdlePassing(s, r, job, d, d'.operation, front);
      } else {
        IdleOperation(s, r, job, d, d'.operation, front);
      }
    }
  }

  lemma ShadowGoesOn(w: World, s: World, r: RunIdent, job: Job, d: Delivery, until: Option<int>, front: nat)
    requires Going(s, r, Some(job), front) && Shadows(w, s, Some(job), until) && d.landing == Nowhere
    ensures var a, b := Handle(w, job, d), Handle(s, job, Fate(w, job, d));
      Live(w, job, a) == Live(s, job, b) && Shadows(a.0, b.0, Live(w, job, a), Horizon(until, d))
  {
    hide Handle, Good, NoRival, Planned, MarksOf, Fate, NoneRunning, HeldByTheDead;
    DeliveryShadow(w, s, r, job, d, until, front);
    var a, b := Handle(w, job, d), Handle(s, job, Fate(w, job, d));
    if a != b {
      PlannedIsPending(s, r, job, front);
      StillPlanned(s, r, job, b.0);
    }
  }

  lemma StillPlanned(s: World, r: RunIdent, job: Job, after: World)
    requires JobOf(r, job) && after.steps == s.steps[KeyOf(job) := HANDED_BACK]
    requires !Settled(MarksIn(s, r), job.stepKey)
    ensures Planned(MarksIn(after, r)) == Planned(MarksIn(s, r))
  {
    HandedBackMarks(s, KeyOf(job));
    OpenRecordsDecideNothing(MarksIn(s, r), MarksIn(after, r));
  }

  /** A smooth delivery counts in the run with throws, unless it meets a lease of the dead. */
  lemma TimelyCounts(w: World, s: World, r: RunIdent, job: Job, d: Delivery, until: Option<int>, front: nat)
    requires Going(s, r, Some(job), front) && Shadows(w, s, Some(job), until) && Smooth(d) && NoLeaseAt(until, d.now)
    ensures Smooth(Fate(w, job, d))
  {
    hide Good, NoRival, Planned, Fate;
    assert KeyOf(job) in s.steps <==> job.stepKey in MarksIn(s, r);
    TimelyFate(w, job, d, until);
  }

  // ---- Whole runs ----

  /** The run with deaths and the run with throws go side by side. */
  lemma {:induction false} DriveShadow(w: World, s: World, r: RunIdent, live: Option<Job>, deliveries: seq<Delivery>,
      until: Option<int>, front: nat) returns (thrown: seq<Delivery>)
    requires Going(s, r, live, front) && front <= WORK_STEPS && Shadows(w, s, live, until)
    requires forall d :: d in deliveries ==> d.landing == Nowhere
    ensures forall d :: d in thrown ==> Undisturbed(d)
    ensures var (end, last) := Drive(w, live, deliveries);
      var (end', last') := Drive(s, live, thrown);
      && last == last' && (last == None ==> end == end')
      && (last == None || SmoothCount(thrown) >= TimelyCount(deliveries, until))
    decreases |deliveries|, 0
  {
    hide Handle, Going, HeldByTheDead, Planned, Smooth, NoLeaseAt;
    thrown := [];
    if live.Some? && deliveries != [] {
      var d := deliveries[0];
      thrown := DriveShadowOn(w, s, r, live.value, d, deliveries[1..], until, front);
    }
  }

  lemma {:induction false} DriveShadowOn(w: World, s: World, r: RunIdent, job: Job, d: Delivery, rest: seq<Delivery>,
      until: Option<int>, front: nat) returns (thrown: seq<Delivery>)
    requires Going(s, r, Some(job), front) && front <= WORK_STEPS && Shadows(w, s, Some(job), until)
    requires d.landing == Nowhere && forall e :: e in rest ==> e.landing == Nowhere
    ensures forall e :: e in thrown ==> Undisturbed(e)
    ensures var a := Handle(w, job, d);
      var (end, last) := Drive(a.0, Live(w, job, a), rest);
      var (end', last') := Drive(s, Some(job), thrown);
      && last == last' && (last == None ==> end == end')
      && (last == None || SmoothCount(thrown) >=
            (if Smooth(d) && NoLeaseAt(until, d.now) then 1 else 0) + TimelyCount(rest, Horizon(until, d)))
    decreases |rest|, 1
  {
    hide Handle, Going, Shadows, Fate, Smooth, NoLeaseAt;
    var d' := Fate(w, job, d);
    FateDoesNotCancel(w, job, d);
    var front1 := AlwaysCloser(s, r, job, d', front);
    ShadowGoesOn(w, s, r, job, d, until, front);
    var a, b := Handle(w, job, d), Handle(s, job, d');
    var more := DriveShadow(a.0, b.0, r, Live(w, job, a), rest, Horizon(until, d), front1);
    thrown := [d'] + more;
    assert thrown[1..] == more;
    if Smooth(d) && NoLeaseAt(until, d.now) {
      TimelyCounts(w, s, r, job, d, until, front);
    }
  }

  lemma GoneToTheEnd(end: World, r: RunIdent, front: nat)
    requires Going(end, r, None, front)
    ensures r.id in end.runs
    ensures (forall step: StepKey :: Settled(MarksIn(end, r), step))
    ensures IsVerdict(StatusIn(end, r)) && VerdictTells(StatusIn(end, r), MarksIn(end, r))
    ensures end.runs[r.id].cleanupStatus == (if CleanupPassed(MarksIn(end, r)) then Cleaned else CleanupFailed)
  {
    hide Good, NoRival;
    FinishedRun(end, r, front);
  }

  /** A fresh run whose workers die, whose steps throw and whose dispatches fail as often as they like
      comes to its end as soon as eleven of its deliveries are smooth and find no lease of a dead
      worker: all eleven steps are settled, the run has the verdict it deserves, and the cleanup
      status tells how the cleanup went. */
  lemma EveryRunFinishesDespiteDeaths(w: World, r: RunIdent, deliveries: seq<Delivery>)
    requires Fresh(w, r) && TimelyCount(deliveries, None) >= |WORKFLOW_STEPS|
    requires forall d :: d in deliveries ==> d.landing == Nowhere
    ensures var (end, live) := Drive(w, Some(Job(r.id, r.attempt, r.headSha, Detect)), deliveries);
      && live == None && r.id in end.runs
      && (forall step: StepKey :: Settled(MarksIn(end, r), step))
      && IsVerdict(StatusIn(end, r)) && VerdictTells(StatusIn(end, r), MarksIn(end, r))
      && end.runs[r.id].cleanupStatus == (if CleanupPassed(MarksIn(end, r)) then Cleaned else CleanupFailed)
  {
    var job := Job(r.id, r.attempt, r.headSha, Detect);
    FreshChain(w, r, job);
    ChainGoes(w, r, Some(job), 0);
    hide Drive, TimelyCount, Going;
    var thrown := DriveShadow(w, w, r, Some(job), deliveries, None, 0);
    var front := DriveGoes(w, r, Some(job), thrown, 0);
    assert Drive(w, Some(job), deliveries).1 == None;
    GoneToTheEnd(Drive(w, Some(job), deliveries).0, r, front);
  }
}
