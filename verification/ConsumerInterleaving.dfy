/** The consumer's single transactions, interleaved. A delivery is a process that makes one
    transaction after the other; any number of them run at once, on the same run or on others, and
    the API, the publisher and retention may commit in between any two. */
module ConsumerInterleaving {
  import opened WorkflowTypes
  import opened RunStatusContract
  import opened Tables
  import opened Plan
  import opened StepGuard
  import opened WorkflowStore
  import opened Api
  import opened Consumer
  import L = RunLifecycle
  import D = ConsumerLifecycle

  // ---- One delivery ----

  /** What a delivery does next. */
  datatype Place =
    | ReadsRun
    | ListsSteps(status: RunStatus)
    | SkipsStep(status: RunStatus, step: StepKey)
    | MovesPhase(status: RunStatus)
    | ListsRunning
    | SchedulesCleanup
    | TakesStep
    | Works(token: nat)
    | FinishesStep(token: nat, result: StepResult)
    | HandsBack(token: nat)
    | ListsVerdict
    | ReadsVerdict(verdict: RunStatus)
    | WritesVerdict(verdict: RunStatus)
    | WritesFailed
    | WritesCleaned
    | ReadsCancelled
    | WritesCancelled
    | Ended

  /** How it goes on with an executor at work. */
  datatype News = StillWorks | Comes(result: StepResult) | Fails

  /** The clock, a fresh lease token, and the news from the executor. */
  datatype Turn = Turn(now: int, token: nat, news: News)

  function MarksFor(s: L.System, job: Job): Marks {
    MarksOf(s.steps, job.runId, job.attempt)
  }

  /** A store write, and whether it was made. */
  function Store(s: L.System, job: Job, write: StoreWrite): (L.System, bool) {
    var (runs, error) := Write(s.runs, job.runId, job.attempt, job.headSha, write);
    (s.(runs := runs), error == None)
  }

  function Guard(s: L.System, key: StepGuardKey, call: L.GuardCall): L.System {
    s.(steps := Put(s.steps, key, L.GuardRow(RowOf(s.steps, key), key.stepKey, call)))
  }

  /** After a step with a record. */
  function AfterRecord(job: Job, passed: bool): Place {
    match job.stepKey
    case Report => ListsVerdict
    case Cleanup => if passed then WritesCleaned else WritesFailed
    case _ => Ended
  }

  function NextPlace(ok: bool, next: Place): Place {
    if ok then next else Ended
  }

  /** A change of status takes the lock of the run, which a retry may hold: then the delivery waits. */
  function Transit(s: L.System, job: Job, to: RunStatus, here: Place, next: Place): (L.System, Place) {
    if L.Locked(s, job.runId) then (s, here)
    else
      var (s', ok) := Store(s, job, Transition(to));
      (s', NextPlace(ok, next))
  }

  function FirstPlace(s: L.System, job: Job): Place {
    if !Identifies(s.runs, job.runId, job.attempt, job.headSha) then Ended
    else
      var status := s.runs[job.runId].status;
      if status != CancelRequested then ListsSteps(status)
      else if job.stepKey == Cleanup then ListsRunning
      else Ended
  }

  function PlannedPlace(s: L.System, job: Job, status: RunStatus): Place {
    match Planned(MarksFor(s, job))
    case None => Ended
    case Some(SkipStep(step)) => SkipsStep(status, step)
    case Some(RunStep(step)) => if step == job.stepKey then MovesPhase(status) else Ended
  }

  function Phase(s: L.System, job: Job, status: RunStatus): (L.System, Place) {
    var next := if job.stepKey == Cleanup then SchedulesCleanup else TakesStep;
    match PhaseForStep(job.stepKey)
    case None => (s, next)
    case Some(target) =>
      if status == target then (s, next)
      else if status == Received then (s, Ended)
      else Transit(s, job, target, MovesPhase(status), next)
  }

  function Take(s: L.System, job: Job, now: int, token: nat): (L.System, Place) {
    (Guard(s, KeyOf(job), L.Admits(now, token)),
      match Admit(RowOf(s.steps, KeyOf(job)), job.stepKey, now, token).0
      case WasTerminal(status) => AfterRecord(job, status == StepStatus.Passed)
      case LeaseBusy => Ended
      case Admitted => Works(token))
  }

  /** One transaction of a delivery, or one piece of news. */
  function Go(s: L.System, job: Job, at: Place, turn: Turn): (L.System, Place) {
    match at
    case ReadsRun => (s, FirstPlace(s, job))
    case ListsSteps(status) => (s, PlannedPlace(s, job, status))
    case SkipsStep(status, step) =>
      var key := StepGuardKey(job.runId, job.attempt, step);
      (Guard(s, key, L.Skips("SKIPPED_UPSTREAM")),
        NextPlace(!MarkSkipped(RowOf(s.steps, key), step, "SKIPPED_UPSTREAM").0, ListsSteps(status)))
    case MovesPhase(status) => Phase(s, job, status)
    case ListsRunning => (s, NextPlace(!OtherStepRunning(MarksFor(s, job)), SchedulesCleanup))
    case SchedulesCleanup =>
      var (s', ok) := Store(s, job, SetCleanup(CleanupPending));
      (s', NextPlace(ok, TakesStep))
    case TakesStep => Take(s, job, turn.now, turn.token)
    case Works(token) =>
      (match turn.news
       case StillWorks => (Guard(s, KeyOf(job), L.Beats(turn.now, token)), at)
       case Comes(result) => (s, FinishesStep(token, result))
       case Fails => (s, HandsBack(token)))
    case FinishesStep(token, result) =>
      (Guard(s, KeyOf(job), L.Finishes(token, result)),
        if Holds(RowOf(s.steps, KeyOf(job)), token) then AfterRecord(job, result.StepPassed?) else HandsBack(token))
    case HandsBack(token) => (Guard(s, KeyOf(job), L.Resets(token)), Ended)
    case ListsVerdict => (s, ReadsVerdict(Verdict(MarksFor(s, job))))
    case ReadsVerdict(verdict) =>
      (s, NextPlace(job.runId in s.runs && !IsTerminal(s.runs[job.runId].status), WritesVerdict(verdict)))
    case WritesVerdict(verdict) => Transit(s, job, verdict, at, Ended)
    case WritesFailed => (Store(s, job, SetCleanup(CleanupFailed)).0, Ended)
    case WritesCleaned =>
      var (s', ok) := Store(s, job, SetCleanup(Cleaned));
      (s', NextPlace(ok, ReadsCancelled))
    case ReadsCancelled =>
      (s, NextPlace(job.runId in s.runs && s.runs[job.runId].status == CancelRequested, WritesCancelled))
    case WritesCancelled => Transit(s, job, RunStatus.Cancelled, at, Ended)
    case Ended => (s, Ended)
  }

  // ---- Any number of deliveries, and everyone else ----

  datatype Process = Process(job: Job, at: Place)

  datatype Office = Office(system: L.System, processes: map<nat, Process>)

  /** A worker that dies is one whose delivery never proceeds again. */
  datatype Act = Happens(e: L.Event) | Begins(p: nat, job: Job) | Proceeds(p: nat, turn: Turn)

  function Do(o: Office, a: Act): Office {
    match a
    case Happens(e) => if D.IsTheWorkers(e) then o else o.(system := L.Step(o.system, e))
    case Begins(p, job) =>
      if p in o.processes then o else o.(processes := o.processes[p := Process(job, ReadsRun)])
    case Proceeds(p, turn) =>
      if p !in o.processes then o
      else
        var (s, at) := Go(o.system, o.processes[p].job, o.processes[p].at, turn);
        Office(s, o.processes[p := o.processes[p].(at := at)])
  }

  function DoAll(o: Office, acts: seq<Act>): Office
    decreases |acts|
  {
    if acts == [] then o else DoAll(Do(o, acts[0]), acts[1..])
  }

  // ---- The interleaving is a run of the lifecycle ----

  function CleanupOf(job: Job): StepGuardKey {
    StepGuardKey(job.runId, job.attempt, Cleanup)
  }

  /** A delivery that goes to write CLEANED has seen the cleanup record PASSED. */
  predicate HasSeen(t: L.System, job: Job, at: Place) {
    at.WritesCleaned? ==> CleanupOf(job) in t.seenPassed
  }

  predicate AllHaveSeen(o: Office, t: L.System) {
    forall p :: p in o.processes ==> HasSeen(t, o.processes[p].job, o.processes[p].at)
  }

  lemma RunOne(t: L.System, e: L.Event)
    ensures L.Run(t, [e]) == L.Step(t, e)
  {
    hide L.Step;
    assert [e][1..] == [];
    assert L.Run(L.Step(t, e), []) == L.Step(t, e);
  }

  lemma RunTwo(t: L.System, e: L.Event, f: L.Event)
    ensures L.Run(t, [e, f]) == L.Step(L.Step(t, e), f)
  {
    hide L.Step;
    assert [e, f][1..] == [f];
    RunOne(L.Step(t, e), f);
  }

  /** A store write of the consumer is one of the lifecycle's worker. */
  lemma StoreFollows(s: L.System, t: L.System, job: Job, write: StoreWrite) returns (events: seq<L.Event>)
    requires D.SameSystem(s, t) && (write.Transition? ==> !L.Locked(s, job.runId))
    requires write == SetCleanup(Cleaned) ==> CleanupOf(job) in t.seenPassed
    ensures D.SameSystem(Store(s, job, write).0, L.Run(t, events)) && L.Run(t, events).seenPassed == t.seenPassed
  {
    hide Write;
    events := [D.StoreEvent(job, write)];
    RunOne(t, events[0]);
  }

  lemma GuardFollows(s: L.System, t: L.System, key: StepGuardKey, call: L.GuardCall) returns (events: seq<L.Event>)
    requires D.SameSystem(s, t)
    ensures D.SameSystem(Guard(s, key, call), L.Run(t, events)) && t.seenPassed <= L.Run(t, events).seenPassed
    ensures key.stepKey == Cleanup && L.CleanupPassed(Guard(s, key, call).steps, key.runId, key.attempt) ==>
      key in L.Run(t, events).seenPassed
  {
    hide L.GuardRow;
    events := [L.CallGuard(key, call), L.SeePassed(key)];
    RunTwo(t, events[0], events[1]);
  }

  /** The guard says PASSED only when the record is. */
  lemma PassedIsOnRecord(s: L.System, job: Job, at: Place, turn: Turn)
    requires at.TakesStep? || at.FinishesStep?
    ensures Go(s, job, at, turn).1.WritesCleaned? ==>
      job.stepKey == Cleanup && L.CleanupPassed(Go(s, job, at, turn).0.steps, job.runId, job.attempt)
  {}

  lemma GoFollows(s: L.System, t: L.System, job: Job, at: Place, turn: Turn) returns (events: seq<L.Event>)
    requires D.SameSystem(s, t) && HasSeen(t, job, at)
    ensures var (s', at') := Go(s, job, at, turn);
      var t' := L.Run(t, events);
      D.SameSystem(s', t') && HasSeen(t', job, at') && t.seenPassed <= t'.seenPassed
  {
    events := [];
    match at {
      case SkipsStep(_, step) =>
        events := GuardFollows(s, t, StepGuardKey(job.runId, job.attempt, step), L.Skips("SKIPPED_UPSTREAM"));
      case MovesPhase(_) => events := PhaseFollows(s, t, job, at.status);
      case SchedulesCleanup => events := StoreFollows(s, t, job, SetCleanup(CleanupPending));
      case TakesStep =>
        events := GuardFollows(s, t, KeyOf(job), L.Admits(turn.now, turn.token));
        PassedIsOnRecord(s, job, at, turn);
      case Works(token) =>
        if turn.news.StillWorks? {
          events := GuardFollows(s, t, KeyOf(job), L.Beats(turn.now, token));
        }
      case FinishesStep(token, result) =>
        events := GuardFollows(s, t, KeyOf(job), L.Finishes(token, result));
        PassedIsOnRecord(s, job, at, turn);
      case HandsBack(token) => events := GuardFollows(s, t, KeyOf(job), L.Resets(token));
      case WritesVerdict(verdict) => events := TransitFollows(s, t, job, verdict);
      case WritesFailed => events := StoreFollows(s, t, job, SetCleanup(CleanupFailed));
      case WritesCleaned => events := StoreFollows(s, t, job, SetCleanup(Cleaned));
      case WritesCancelled => events := TransitFollows(s, t, job, RunStatus.Cancelled);
      case _ =>
    }
  }

  lemma TransitFollows(s: L.System, t: L.System, job: Job, to: RunStatus) returns (events: seq<L.Event>)
    requires D.SameSystem(s, t)
    ensures forall here, next :: D.SameSystem(Transit(s, job, to, here, next).0, L.Run(t, events))
    ensures L.Run(t, events).seenPassed == t.seenPassed
  {
    hide Store;
    events := [];
    if !L.Locked(s, job.runId) {
      events := StoreFollows(s, t, job, Transition(to));
    }
  }

  lemma PhaseFollows(s: L.System, t: L.System, job: Job, status: RunStatus) returns (events: seq<L.Event>)
    requires D.SameSystem(s, t)
    ensures D.SameSystem(Phase(s, job, status).0, L.Run(t, events)) && L.Run(t, events).seenPassed == t.seenPassed
    ensures !Phase(s, job, status).1.WritesCleaned?
  {
    events := [];
    var target := PhaseForStep(job.stepKey);
    if target.Some? && status != target.value && status != Received {
      events := TransitFollows(s, t, job, target.value);
    }
  }

  lemma OthersKeepSeen(t: L.System, e: L.Event)
    ensures t.seenPassed <= L.Step(t, e).seenPassed
  {
    hide L.CommitRetry, L.CommitAdmission, CancelRuns, CancelOutbox, L.GuardRow, AdmissionStatus, EnqueueCleanup, Write;
    CommitsKeepSeen(t, e);
  }

  lemma CommitsKeepSeen(t: L.System, e: L.Event)
    ensures e.RetryCommit? && t.capacityLock.Retrying? ==> L.CommitRetry(t, e.now).seenPassed == t.seenPassed
    ensures e.AdmitCommit? && t.capacityLock.Admitting? ==>
      L.CommitAdmission(t, e.id, e.now).seenPassed == t.seenPassed
  {
    hide RetryRuns, InsertRun, RunExists, RetryMatches;
  }

  lemma ActFollows(o: Office, t: L.System, a: Act) returns (events: seq<L.Event>)
    requires D.SameSystem(o.system, t) && AllHaveSeen(o, t)
    ensures D.SameSystem(Do(o, a).system, L.Run(t, events)) && AllHaveSeen(Do(o, a), L.Run(t, events))
  {
    hide L.Step, Go;
    events := [];
    match a
    case Happens(e) =>
      if !D.IsTheWorkers(e) {
        events := [e];
        D.OthersDoNotLook(o.system, t, e);
        OthersKeepSeen(t, e);
        RunOne(t, e);
      }
    case Begins(_, _) =>
    case Proceeds(p, turn) =>
      if p in o.processes {
        events := GoFollows(o.system, t, o.processes[p].job, o.processes[p].at, turn);
      }
  }

  lemma {:induction false} ActsFollow(o: Office, t: L.System, acts: seq<Act>) returns (events: seq<L.Event>)
    requires D.SameSystem(o.system, t) && AllHaveSeen(o, t)
    ensures D.SameSystem(DoAll(o, acts).system, L.Run(t, events))
    decreases |acts|
  {
    hide Do, AllHaveSeen;
    events := [];
    if acts != [] {
      var first := ActFollows(o, t, acts[0]);
      var rest := ActsFollow(Do(o, acts[0]), L.Run(t, first), acts[1..]);
      L.RunConcat(t, first, rest);
      events := first + rest;
    }
  }

  /** However the transactions of any number of deliveries fall among each other and among those of
      the other writers: a CANCELLED run and one marked CLEANED have a PASSED cleanup record, at most
      one run is active and at most three are queued, and every queued run has its detect job. */
  lemma TransactionsKeepTheLifecycle(maxQueuedRuns: nat, acts: seq<Act>, id: RunId)
    requires maxQueuedRuns <= MAX_QUEUED_RUNS
    ensures var s := DoAll(Office(L.Start(maxQueuedRuns), map[]), acts).system;
      && |ActiveIds(s.runs)| <= 1 && |QueuedIds(s.runs)| <= 3
      && (id in s.runs && L.SaysCleaned(s.runs[id]) ==>
            L.CleanupPassed(s.steps, id, s.runs[id].currentAttempt))
      && (id in s.runs && s.runs[id].status == Queued ==> L.DetectJobOf(s, id, s.runs[id].currentAttempt))
  {
    hide DoAll, ActiveIds, QueuedIds;
    var start := L.Start(maxQueuedRuns);
    var events := ActsFollow(Office(start, map[]), start, acts);
    L.CapacityHolds(maxQueuedRuns, events);
    L.CancelledMeansCleaned(maxQueuedRuns, events, id);
    if id in L.Run(start, events).runs {
      L.DetectJobsTellAdmission(maxQueuedRuns, events, id);
    }
  }

  // ---- A delivery that nothing interrupts ----

  function Solo(s: L.System, job: Job, at: Place): Office {
    Office(s, map[0 := Process(job, at)])
  }

  function Holding(s: L.System, w: World): L.System {
    s.(runs := w.runs, steps := w.steps, outbox := w.outbox)
  }

  /** Only the delivery proceeds, but for its own cancellation. */
  predicate OwnActs(acts: seq<Act>, job: Job, d: Delivery) {
    forall a :: a in acts ==>
      a.Proceeds? || (d.landing != Nowhere && a == Happens(L.CancelRun(job.runId, d.now)))
  }

  /** These acts take the delivery from one place to another, and the tables to those of `w`. */
  predicate Leads(s: L.System, job: Job, d: Delivery, at: Place, acts: seq<Act>, w: World, at': Place) {
    OwnActs(acts, job, d) && DoAll(Solo(s, job, at), acts) == Solo(Holding(s, w), job, at')
  }

  lemma {:induction false} DoAllConcat(o: Office, a: seq<Act>, b: seq<Act>)
    ensures DoAll(o, a + b) == DoAll(DoAll(o, a), b)
    decreases |a|
  {
    hide Do;
    if a == [] {
      assert a + b == b;
    } else {
      assert (a + b)[1..] == a[1..] + b;
      DoAllConcat(Do(o, a[0]), a[1..], b);
    }
  }

  lemma LeadsNowhere(s: L.System, w: World, job: Job, d: Delivery, at: Place)
    requires D.Matches(s, w)
    ensures Leads(s, job, d, at, [], w, at)
  {
    assert Holding(s, w) == s;
  }

  lemma LeadsByTurn(s: L.System, job: Job, d: Delivery, at: Place, turn: Turn, w: World, at': Place)
    requires Go(s, job, at, turn) == (Holding(s, w), at')
    ensures Leads(s, job, d, at, [Proceeds(0, turn)], w, at')
  {
    hide Go;
    var acts := [Proceeds(0, turn)];
    assert acts[1..] == [];
    assert Do(Solo(s, job, at), acts[0]) == Solo(Holding(s, w), job, at');
    assert DoAll(Solo(Holding(s, w), job, at'), []) == Solo(Holding(s, w), job, at');
  }

  lemma LeadsOn(s: L.System, job: Job, d: Delivery, at: Place, a: seq<Act>, w1: World, at1: Place, b: seq<Act>,
      w2: World, at2: Place)
    requires Leads(s, job, d, at, a, w1, at1) && Leads(Holding(s, w1), job, d, at1, b, w2, at2)
    ensures Leads(s, job, d, at, a + b, w2, at2)
  {
    hide DoAll;
    DoAllConcat(Solo(s, job, at), a, b);
  }

  /** The turn before the rest. */
  lemma TurnThen(s: L.System, job: Job, d: Delivery, at: Place, turn: Turn, w1: World, at1: Place, rest: seq<Act>,
      w2: World, at2: Place)
    requires Go(s, job, at, turn) == (Holding(s, w1), at1) && Leads(Holding(s, w1), job, d, at1, rest, w2, at2)
    ensures Leads(s, job, d, at, [Proceeds(0, turn)] + rest, w2, at2)
  {
    hide Go, Leads;
    LeadsByTurn(s, job, d, at, turn, w1, at1);
    LeadsOn(s, job, d, at, [Proceeds(0, turn)], w1, at1, rest, w2, at2);
  }

  lemma CancelLeads(s: L.System, w: World, job: Job, d: Delivery, at: Place)
    requires D.Matches(s, w) && !L.Locked(s, job.runId) && d.landing != Nowhere
    ensures Leads(s, job, d, at, [Happens(L.CancelRun(job.runId, d.now))], CancelWorld(w, job.runId, d.now), at)
  {
    hide CancelRuns, CancelOutbox;
    var acts := [Happens(L.CancelRun(job.runId, d.now))];
    var w1 := CancelWorld(w, job.runId, d.now);
    assert acts[1..] == [];
    assert Do(Solo(s, job, at), acts[0]) == Solo(Holding(s, w1), job, at);
    assert DoAll(Solo(Holding(s, w1), job, at), []) == Solo(Holding(s, w1), job, at);
  }

  // ---- The guarded step ----

  function TurnWith(d: Delivery, news: News): Turn {
    Turn(d.now, d.token, news)
  }

  /** Where the guarded step leaves the delivery. */
  function PlaceAfter(job: Job, d: Delivery, outcome: GuardOutcome): Place {
    match outcome
    case Executed(result) => AfterRecord(job, result.StepPassed?)
    case AlreadyTerminal(status) => AfterRecord(job, status == StepStatus.Passed)
    case Died => Works(d.token)
    case _ => Ended
  }

  function WithRow(w: World, job: Job, row: Option<StepRow>): World {
    w.(steps := Put(w.steps, KeyOf(job), row))
  }

  lemma GuardedLeads(s: L.System, w: World, job: Job, d: Delivery) returns (acts: seq<Act>)
    requires D.Matches(s, w)
    ensures var (after, outcome) := GuardedStep(w, job, d);
      Leads(s, job, d, TakesStep, acts, after, PlaceAfter(job, d, outcome))
  {
    var key := KeyOf(job);
    var (admission, row) := Admit(RowOf(w.steps, key), job.stepKey, d.now, d.token);
    var w1 := WithRow(w, job, row);
    var turn := TurnWith(d, StillWorks);
    var place := Go(s, job, TakesStep, turn).1;
    assert Go(s, job, TakesStep, turn) == (Holding(s, w1), place);
    if admission == Admitted {
      var rest := WorkLeads(Holding(s, w1), w1, job, d);
      acts := [Proceeds(0, turn)] + rest;
      hide Leads, Admit;
      TurnThen(s, job, d, TakesStep, turn, w1, place, rest, WithRow(w1, job, WorkedRow(w1, job, d)),
        PlaceAfter(job, d, WorkedOutcome(d)));
      AdmittedStep(w, job, d);
    } else {
      acts := [Proceeds(0, turn)];
      LeadsByTurn(s, job, d, TakesStep, turn, w1, place);
      assert w1 == GuardedStep(w, job, d).0;
    }
  }

  /** What an admitted call does to its row. */
  function WorkedRow(w: World, job: Job, d: Delivery): Option<StepRow> {
    var row := RowOf(w.steps, KeyOf(job));
    match d.operation
    case Returns(result) => Finish(row, d.token, result)
    case Throws => Reset(row, d.token)
    case Crashes(beat) => if beat.Some? then Heartbeat(row, beat.value, d.token) else row
  }

  function WorkedOutcome(d: Delivery): GuardOutcome {
    match d.operation
    case Returns(result) => Executed(result)
    case Throws => Threw
    case Crashes(_) => Died
  }

  lemma AdmittedStep(w: World, job: Job, d: Delivery)
    requires Admit(RowOf(w.steps, KeyOf(job)), job.stepKey, d.now, d.token).0 == Admitted
    ensures var w1 := WithRow(w, job, Admit(RowOf(w.steps, KeyOf(job)), job.stepKey, d.now, d.token).1);
      && GuardedStep(w, job, d) == (WithRow(w1, job, WorkedRow(w1, job, d)), WorkedOutcome(d))
      && Holds(RowOf(w1.steps, KeyOf(job)), d.token)
  {
    var key := KeyOf(job);
    var row := Admit(RowOf(w.steps, key), job.stepKey, d.now, d.token).1;
    var w1 := WithRow(w, job, row);
    assert RowOf(w1.steps, key) == row;
    PutTwice(w.steps, key, row, WorkedRow(w1, job, d));
  }

  lemma PutTwice(steps: StepRows, key: StepGuardKey, first: Option<StepRow>, second: Option<StepRow>)
    requires second.Some?
    ensures Put(Put(steps, key, first), key, second) == Put(steps, key, second)
  {}

  /** From the admission to the end of the call. */
  lemma WorkLeads(s: L.System, w: World, job: Job, d: Delivery) returns (acts: seq<Act>)
    requires D.Matches(s, w) && Holds(RowOf(w.steps, KeyOf(job)), d.token)
    ensures Leads(s, job, d, Works(d.token), acts, WithRow(w, job, WorkedRow(w, job, d)),
      PlaceAfter(job, d, WorkedOutcome(d)))
  {
    hide Leads;
    var w1 := WithRow(w, job, WorkedRow(w, job, d));
    var last := TurnWith(d, StillWorks);
    assert Holding(s, w) == s;
    match d.operation
    case Returns(result) =>
      LeadsByTurn(s, job, d, FinishesStep(d.token, result), last, w1, AfterRecord(job, result.StepPassed?));
      acts := [Proceeds(0, TurnWith(d, Comes(result)))] + [Proceeds(0, last)];
      TurnThen(s, job, d, Works(d.token), TurnWith(d, Comes(result)), w, FinishesStep(d.token, result),
        [Proceeds(0, last)], w1, AfterRecord(job, result.StepPassed?));
    case Throws =>
      LeadsByTurn(s, job, d, HandsBack(d.token), last, w1, Ended);
      acts := [Proceeds(0, TurnWith(d, Fails))] + [Proceeds(0, last)];
      TurnThen(s, job, d, Works(d.token), TurnWith(d, Fails), w, HandsBack(d.token), [Proceeds(0, last)], w1, Ended);
    case Crashes(beat) =>
      if beat.Some? {
        var turn := Turn(beat.value, d.token, StillWorks);
        acts := [Proceeds(0, turn)];
        LeadsByTurn(s, job, d, Works(d.token), turn, w1, Works(d.token));
      } else {
        acts := [];
        assert w1 == w;
        LeadsNowhere(s, w, job, d, Works(d.token));
      }
  }

  lemma RunStepLeads(s: L.System, w: World, job: Job, d: Delivery) returns (acts: seq<Act>)
    requires D.Matches(s, w) && !L.Locked(s, job.runId)
    ensures var (after, outcome) := RunStepOnce(w, job, d);
      Leads(s, job, d, TakesStep, acts, after, PlaceAfter(job, d, outcome))
  {
    hide Leads, GuardedStep, CancelWorld;
    acts := GuardedLeads(s, w, job, d);
    if d.landing == AroundStep {
      var (w1, outcome) := GuardedStep(w, job, d);
      var place := PlaceAfter(job, d, outcome);
      CancelLeads(Holding(s, w1), w1, job, d, place);
      var cancel := [Happens(L.CancelRun(job.runId, d.now))];
      LeadsOn(s, job, d, TakesStep, acts, w1, place, cancel, CancelWorld(w1, job.runId, d.now), place);
      acts := acts + cancel;
    }
  }

  // ---- What follows the step ----

  lemma StoreIsStoreWrite(s: L.System, w: World, job: Job, write: StoreWrite)
    requires D.Matches(s, w)
    ensures var (w1, failure) := StoreWriteFor(w, job, write);
      Store(s, job, write) == (Holding(s, w1), failure == NoFailure) && D.Matches(Holding(s, w1), w1)
  {
    hide Write;
  }

  lemma ReportLeads(s: L.System, w: World, job: Job, d: Delivery) returns (acts: seq<Act>)
    requires D.Matches(s, w) && !L.Locked(s, job.runId)
    ensures Leads(s, job, d, ListsVerdict, acts, FinalizeReport(w, job).0, Ended)
  {
    hide Leads, Store, StoreWriteFor, Verdict, MarksOf;
    var verdict := Verdict(JobMarks(w, job));
    var turn := TurnWith(d, StillWorks);
    assert Holding(s, w) == s;
    if job.runId !in w.runs || IsTerminal(w.runs[job.runId].status) {
      LeadsByTurn(s, job, d, ReadsVerdict(verdict), turn, w, Ended);
      acts := [Proceeds(0, turn)];
    } else {
      var w1 := StoreWriteFor(w, job, Transition(verdict)).0;
      StoreIsStoreWrite(s, w, job, Transition(verdict));
      LeadsByTurn(s, job, d, WritesVerdict(verdict), turn, w1, Ended);
      acts := [Proceeds(0, turn)] + [Proceeds(0, turn)];
      TurnThen(s, job, d, ReadsVerdict(verdict), turn, w, WritesVerdict(verdict), [Proceeds(0, turn)], w1, Ended);
    }
    TurnThen(s, job, d, ListsVerdict, turn, w, ReadsVerdict(verdict), acts, FinalizeReport(w, job).0, Ended);
    acts := [Proceeds(0, turn)] + acts;
  }

  lemma CleanupLeads(s: L.System, w: World, job: Job, d: Delivery, outcome: GuardOutcome) returns (acts: seq<Act>)
    requires D.Matches(s, w) && !L.Locked(s, job.runId)
    ensures Leads(s, job, d, if StepSucceeded(outcome) then WritesCleaned else WritesFailed, acts,
      FinalizeCleanup(w, job, outcome).0, Ended)
  {
    hide Leads, Store, StoreWriteFor;
    var turn := TurnWith(d, StillWorks);
    acts := [Proceeds(0, turn)];
    if !StepSucceeded(outcome) {
      StoreIsStoreWrite(s, w, job, SetCleanup(CleanupFailed));
      LeadsByTurn(s, job, d, WritesFailed, turn, StoreWriteFor(w, job, SetCleanup(CleanupFailed)).0, Ended);
    } else {
      StoreIsStoreWrite(s, w, job, SetCleanup(Cleaned));
      var (w1, failure) := StoreWriteFor(w, job, SetCleanup(Cleaned));
      if failure != NoFailure {
        LeadsByTurn(s, job, d, WritesCleaned, turn, w1, Ended);
      } else {
        var rest := CancelledLeads(Holding(s, w1), w1, job, d);
        acts := acts + rest;
        TurnThen(s, job, d, WritesCleaned, turn, w1, ReadsCancelled, rest, FinalizeCleanup(w, job, outcome).0, Ended);
      }
    }
  }

  /** The last look at the run, after CLEANED was written. */
  lemma CancelledLeads(s: L.System, w: World, job: Job, d: Delivery) returns (acts: seq<Act>)
    requires D.Matches(s, w) && !L.Locked(s, job.runId)
    ensures var after := StoreWriteFor(w, job, Transition(RunStatus.Cancelled)).0;
      Leads(s, job, d, ReadsCancelled, acts, if StatusNow(w, job.runId) == CancelRequested then after else w, Ended)
  {
    hide Leads, Store, StoreWriteFor;
    var turn := TurnWith(d, StillWorks);
    assert Holding(s, w) == s;
    acts := [Proceeds(0, turn)];
    if StatusNow(w, job.runId) == CancelRequested {
      var w1 := StoreWriteFor(w, job, Transition(RunStatus.Cancelled)).0;
      StoreIsStoreWrite(s, w, job, Transition(RunStatus.Cancelled));
      LeadsByTurn(s, job, d, WritesCancelled, turn, w1, Ended);
      TurnThen(s, job, d, ReadsCancelled, turn, w, WritesCancelled, acts, w1, Ended);
      acts := acts + acts;
    } else {
      LeadsByTurn(s, job, d, ReadsCancelled, turn, w, Ended);
    }
  }

  /** The queue is none of the tables. */
  lemma DispatchIsNoTable(s: L.System, w: World, job: Job, d: Delivery)
    ensures Holding(s, Dispatch(w, job, d).0) == Holding(s, w)
    ensures Holding(s, DispatchNext(w, job, d).0) == Holding(s, w)
  {
    hide Planned;
  }

  lemma ConcludeLeads(s: L.System, w: World, job: Job, d: Delivery, outcome: GuardOutcome)
      returns (acts: seq<Act>, place: Place)
    requires D.Matches(s, w) && !L.Locked(s, job.runId)
    ensures Leads(s, job, d, PlaceAfter(job, d, outcome), acts, Conclude(w, job, d, outcome).0, place)
  {
    hide FinalizeReport, FinalizeCleanup, Dispatch, DispatchNext, DoAll;
    acts, place := [], PlaceAfter(job, d, outcome);
    LeadsNowhere(s, w, job, d, place);
    if OutcomeFailure(outcome) == NoFailure {
      var w1 := w;
      if job.stepKey == Report {
        w1 := FinalizeReport(w, job).0;
        acts := ReportLeads(s, w, job, d);
        place := Ended;
      } else if job.stepKey == Cleanup {
        w1 := FinalizeCleanup(w, job, outcome).0;
        acts := CleanupLeads(s, w, job, d, outcome);
        place := Ended;
      }
      DispatchIsNoTable(s, w1, job, d);
      DispatchIsNoTable(s, w1, job.(stepKey := Cleanup), d);
    }
  }

  lemma StepLeads(s: L.System, w: World, job: Job, d: Delivery) returns (acts: seq<Act>, place: Place)
    requires D.Matches(s, w) && !L.Locked(s, job.runId)
    ensures var (w1, outcome) := RunStepOnce(w, job, d);
      Leads(s, job, d, TakesStep, acts, Conclude(w1, job, d, outcome).0, place)
  {
    hide Leads, RunStepOnce, Conclude, PlaceAfter;
    var (w1, outcome) := RunStepOnce(w, job, d);
    var first := RunStepLeads(s, w, job, d);
    var rest, last := ConcludeLeads(Holding(s, w1), w1, job, d, outcome);
    LeadsOn(s, job, d, TakesStep, first, w1, PlaceAfter(job, d, outcome), rest, Conclude(w1, job, d, outcome).0, last);
    acts, place := first + rest, last;
  }

  // ---- What comes before the step ----

  lemma ScheduleLeads(s: L.System, w: World, job: Job, d: Delivery, rest: seq<Act>, after: World, place: Place)
    requires D.Matches(s, w)
    requires var (w1, failure) := StoreWriteFor(w, job, SetCleanup(CleanupPending));
      if failure != NoFailure then rest == [] && after == w1 && place == Ended
      else Leads(Holding(s, w1), job, d, TakesStep, rest, after, place)
    ensures Leads(s, job, d, SchedulesCleanup, [Proceeds(0, TurnWith(d, StillWorks))] + rest, after, place)
  {
    hide Leads, Store, StoreWriteFor;
    var turn := TurnWith(d, StillWorks);
    StoreIsStoreWrite(s, w, job, SetCleanup(CleanupPending));
    var (w1, failure) := StoreWriteFor(w, job, SetCleanup(CleanupPending));
    if failure != NoFailure {
      LeadsByTurn(s, job, d, SchedulesCleanup, turn, w1, Ended);
      assert [Proceeds(0, turn)] + rest == [Proceeds(0, turn)];
    } else {
      TurnThen(s, job, d, SchedulesCleanup, turn, w1, TakesStep, rest, after, place);
    }
  }

  lemma PhaseIsMove(s: L.System, w: World, job: Job, status: RunStatus)
    requires D.Matches(s, w) && !L.Locked(s, job.runId)
    ensures var (w1, failure) := MoveToStepPhase(w, job, status);
      && D.Matches(Holding(s, w1), w1)
      && Phase(s, job, status) == (Holding(s, w1),
           NextPlace(failure == NoFailure, if job.stepKey == Cleanup then SchedulesCleanup else TakesStep))
  {
    hide Store, StoreWriteFor;
    assert Holding(s, w) == s;
    var target := PhaseForStep(job.stepKey);
    if target.Some? {
      StoreIsStoreWrite(s, w, job, Transition(target.value));
    }
  }

  lemma ExecuteLeads(s: L.System, w: World, job: Job, d: Delivery, status: RunStatus)
      returns (acts: seq<Act>, place: Place)
    requires D.Matches(s, w) && !L.Locked(s, job.runId)
    ensures Leads(s, job, d, MovesPhase(status), acts, Execute(w, job, d, status).0, place)
  {
    hide Leads, StoreWriteFor, MoveToStepPhase, Phase, RunStepOnce, Conclude;
    var turn := TurnWith(d, StillWorks);
    PhaseIsMove(s, w, job, status);
    var (w1, failure) := MoveToStepPhase(w, job, status);
    if failure != NoFailure {
      acts, place := [Proceeds(0, turn)], Ended;
      LeadsByTurn(s, job, d, MovesPhase(status), turn, w1, Ended);
    } else {
      var rest: seq<Act>;
      rest, place := PreparedLeads(Holding(s, w1), w1, job, d);
      acts := [Proceeds(0, turn)] + rest;
      TurnThen(s, job, d, MovesPhase(status), turn, w1,
        if job.stepKey == Cleanup then SchedulesCleanup else TakesStep, rest, Execute(w, job, d, status).0, place);
    }
  }

  /** `Execute` from the change of phase on. */
  function AfterMove(w: World, job: Job, d: Delivery): World {
    var (w1, failure) :=
      if job.stepKey == Cleanup then StoreWriteFor(w, job, SetCleanup(CleanupPending)) else (w, NoFailure);
    if failure != NoFailure then w1 else Conclude(RunStepOnce(w1, job, d).0, job, d, RunStepOnce(w1, job, d).1).0
  }

  lemma PreparedLeads(s: L.System, w: World, job: Job, d: Delivery) returns (acts: seq<Act>, place: Place)
    requires D.Matches(s, w) && !L.Locked(s, job.runId)
    ensures Leads(s, job, d, if job.stepKey == Cleanup then SchedulesCleanup else TakesStep, acts,
      AfterMove(w, job, d), place)
  {
    hide Leads, StoreWriteFor, RunStepOnce, Conclude;
    if job.stepKey != Cleanup {
      acts, place := StepLeads(s, w, job, d);
    } else {
      StoreIsStoreWrite(s, w, job, SetCleanup(CleanupPending));
      var (w1, failure) := StoreWriteFor(w, job, SetCleanup(CleanupPending));
      var rest: seq<Act> := [];
      place := Ended;
      if failure == NoFailure {
        rest, place := StepLeads(Holding(s, w1), w1, job, d);
      }
      ScheduleLeads(s, w, job, d, rest, AfterMove(w, job, d), place);
      acts := [Proceeds(0, TurnWith(d, StillWorks))] + rest;
    }
  }

  /** One turn of the loop that finds a step to skip. */
  lemma OneSkipLeads(s: L.System, w: World, job: Job, d: Delivery, status: RunStatus, step: StepKey)
      returns (acts: seq<Act>)
    requires D.Matches(s, w) && Planned(JobMarks(w, job)) == Some(SkipStep(step))
    ensures var key := StepGuardKey(job.runId, job.attempt, step);
      var (refused, row) := MarkSkipped(RowOf(w.steps, key), step, "SKIPPED_UPSTREAM");
      Leads(s, job, d, ListsSteps(status), acts, w.(steps := Put(w.steps, key, row)),
        if refused then Ended else ListsSteps(status))
  {
    hide Leads, Planned, MarksOf, MarkSkipped;
    var key := StepGuardKey(job.runId, job.attempt, step);
    var turn := TurnWith(d, StillWorks);
    var (refused, row) := MarkSkipped(RowOf(w.steps, key), step, "SKIPPED_UPSTREAM");
    var w1 := w.(steps := Put(w.steps, key, row));
    var place := if refused then Ended else ListsSteps(status);
    assert Holding(s, w) == s;
    LeadsByTurn(s, job, d, SkipsStep(status, step), turn, w1, place);
    acts := [Proceeds(0, turn)] + [Proceeds(0, turn)];
    TurnThen(s, job, d, ListsSteps(status), turn, w, SkipsStep(status, step), [Proceeds(0, turn)], w1, place);
  }

  /** The skipping turns of the loop. */
  lemma {:induction false} SkipsLead(s: L.System, w: World, job: Job, d: Delivery, status: RunStatus)
      returns (acts: seq<Act>)
    requires D.Matches(s, w)
    ensures var (steps, refused) := SkipBlocked(w.steps, job.runId, job.attempt);
      Leads(s, job, d, ListsSteps(status), acts, w.(steps := steps), if refused then Ended else ListsSteps(status))
    decreases |WORKFLOW_STEPS| - FirstOpen(MarksOf(w.steps, job.runId, job.attempt))
  {
    hide Leads, MarksOf, MarkSkipped, Planned, FirstOpen;
    acts := [];
    assert w.(steps := w.steps) == w;
    LeadsNowhere(s, w, job, d, ListsSteps(status));
    var planned := Planned(JobMarks(w, job));
    if planned.Some? && planned.value.SkipStep? {
      var step := planned.value.stepKey;
      var key := StepGuardKey(job.runId, job.attempt, step);
      var (refused, row) := MarkSkipped(RowOf(w.steps, key), step, "SKIPPED_UPSTREAM");
      acts := OneSkipLeads(s, w, job, d, status, step);
      if refused {
        RefusedStays(w.steps, key, "SKIPPED_UPSTREAM");
      } else {
        D.SkippedRowMovesOn(w.steps, job.runId, job.attempt, step);
        var w1 := w.(steps := Put(w.steps, key, row));
        var rest := SkipsLead(Holding(s, w1), w1, job, d, status);
        hide SkipBlocked;
        SkipBlockedOn(w.steps, job.runId, job.attempt, step);
        var (steps, stopped) := SkipBlocked(w1.steps, job.runId, job.attempt);
        LeadsOn(s, job, d, ListsSteps(status), acts, w1, ListsSteps(status), rest, w1.(steps := steps),
          if stopped then Ended else ListsSteps(status));
        acts := acts + rest;
      }
    }
  }

  lemma SkipBlockedOn(steps: StepRows, runId: RunId, attempt: nat, step: StepKey)
    requires Planned(MarksOf(steps, runId, attempt)) == Some(SkipStep(step))
    requires !MarkSkipped(RowOf(steps, StepGuardKey(runId, attempt, step)), step, "SKIPPED_UPSTREAM").0
    ensures var key := StepGuardKey(runId, attempt, step);
      var row := MarkSkipped(RowOf(steps, key), step, "SKIPPED_UPSTREAM").1;
      SkipBlocked(steps, runId, attempt) == SkipBlocked(Put(steps, key, row), runId, attempt)
  {
    hide MarksOf, Planned;
  }

  lemma RefusedStays(steps: StepRows, key: StepGuardKey, reason: string)
    ensures MarkSkipped(RowOf(steps, key), key.stepKey, reason).0 ==>
      Put(steps, key, MarkSkipped(RowOf(steps, key), key.stepKey, reason).1) == steps
  {}

  lemma TurnLeads(s: L.System, w: World, job: Job, d: Delivery, status: RunStatus)
      returns (acts: seq<Act>, place: Place)
    requires D.Matches(s, w) && !L.Locked(s, job.runId)
    requires var planned := Planned(JobMarks(w, job)); planned == None || planned.value.RunStep?
    ensures Leads(s, job, d, ListsSteps(status), acts, TakeTurn(w, job, d, status).0, place)
  {
    hide Leads, Planned, MarksOf, Execute, Dispatch;
    var turn := TurnWith(d, StillWorks);
    assert Holding(s, w) == s;
    var planned := Planned(JobMarks(w, job));
    if planned.Some? && planned.value.stepKey == job.stepKey {
      var rest: seq<Act>;
      rest, place := ExecuteLeads(s, w, job, d, status);
      acts := [Proceeds(0, turn)] + rest;
      TurnThen(s, job, d, ListsSteps(status), turn, w, MovesPhase(status), rest, Execute(w, job, d, status).0, place);
    } else {
      acts, place := [Proceeds(0, turn)], Ended;
      var after := TakeTurn(w, job, d, status).0;
      DispatchIsNoTable(s, w, job, d);
      LeadsByTurn(s, job, d, ListsSteps(status), turn, after, Ended);
    }
  }

  lemma {:induction false} SkippedPlans(steps: StepRows, runId: RunId, attempt: nat)
    ensures var (after, refused) := SkipBlocked(steps, runId, attempt);
      var planned := Planned(MarksOf(after, runId, attempt));
      refused || planned == None || planned.value.RunStep?
    decreases |WORKFLOW_STEPS| - FirstOpen(MarksOf(steps, runId, attempt))
  {
    var planned := Planned(MarksOf(steps, runId, attempt));
    if planned.Some? && planned.value.SkipStep? {
      var step := planned.value.stepKey;
      var key := StepGuardKey(runId, attempt, step);
      var (refused, row) := MarkSkipped(RowOf(steps, key), step, "SKIPPED_UPSTREAM");
      if !refused {
        D.SkippedRowMovesOn(steps, runId, attempt, step);
        SkippedPlans(steps[key := row.value], runId, attempt);
      }
    }
  }

  lemma AdvanceLeads(s: L.System, w: World, job: Job, d: Delivery, status: RunStatus)
      returns (acts: seq<Act>, place: Place)
    requires D.Matches(s, w) && !L.Locked(s, job.runId)
    ensures Leads(s, job, d, ListsSteps(status), acts, Advance(w, job, d, status).0, place)
  {
    hide Leads, SkipBlocked, TakeTurn, Planned, MarksOf;
    var (steps, refused) := SkipBlocked(w.steps, job.runId, job.attempt);
    var w1 := w.(steps := steps);
    acts := SkipsLead(s, w, job, d, status);
    place := Ended;
    if !refused {
      SkippedPlans(w.steps, job.runId, job.attempt);
      var rest: seq<Act>;
      rest, place := TurnLeads(Holding(s, w1), w1, job, d, status);
      LeadsOn(s, job, d, ListsSteps(status), acts, w1, ListsSteps(status), rest, TakeTurn(w1, job, d, status).0, place);
      acts := acts + rest;
    }
  }

  lemma CancellationLeads(s: L.System, w: World, job: Job, d: Delivery) returns (acts: seq<Act>, place: Place)
    requires D.Matches(s, w) && !L.Locked(s, job.runId) && job.stepKey == Cleanup
    ensures Leads(s, job, d, ListsRunning, acts, AdvanceCancellation(w, job, d).0, place)
  {
    hide Leads, OtherStepRunning, MarksOf, StoreWriteFor, RunStepOnce, FinalizeCleanup;
    var turn := TurnWith(d, StillWorks);
    assert Holding(s, w) == s;
    acts, place := [Proceeds(0, turn)], Ended;
    if OtherStepRunning(JobMarks(w, job)) {
      LeadsByTurn(s, job, d, ListsRunning, turn, w, Ended);
    } else {
      StoreIsStoreWrite(s, w, job, SetCleanup(CleanupPending));
      var (w1, failure) := StoreWriteFor(w, job, SetCleanup(CleanupPending));
      var rest: seq<Act> := [];
      if failure == NoFailure {
        rest, place := CleaningLeads(Holding(s, w1), w1, job, d);
      }
      ScheduleLeads(s, w, job, d, rest, AdvanceCancellation(w, job, d).0, place);
      rest := [Proceeds(0, turn)] + rest;
      TurnThen(s, job, d, ListsRunning, turn, w, SchedulesCleanup, rest, AdvanceCancellation(w, job, d).0, place);
      acts := acts + rest;
    }
  }

  /** The cleanup of a run that is being cancelled. */
  lemma CleaningLeads(s: L.System, w: World, job: Job, d: Delivery) returns (acts: seq<Act>, place: Place)
    requires D.Matches(s, w) && !L.Locked(s, job.runId) && job.stepKey == Cleanup
    ensures var (w1, outcome) := RunStepOnce(w, job, d);
      Leads(s, job, d, TakesStep, acts,
        if OutcomeFailure(outcome) != NoFailure then w1 else FinalizeCleanup(w1, job, outcome).0, place)
  {
    hide Leads, RunStepOnce, FinalizeCleanup;
    var (w1, outcome) := RunStepOnce(w, job, d);
    acts := RunStepLeads(s, w, job, d);
    place := PlaceAfter(job, d, outcome);
    if OutcomeFailure(outcome) == NoFailure {
      var rest := CleanupLeads(Holding(s, w1), w1, job, d, outcome);
      LeadsOn(s, job, d, TakesStep, acts, w1, place, rest, FinalizeCleanup(w1, job, outcome).0, Ended);
      acts, place := acts + rest, Ended;
    }
  }

  /** Every delivery of the consumer, taken as a whole, is one of the interleavings: the one in which
      only its own transactions are made, and its cancellation where it lands. */
  lemma DeliveryIsAnInterleaving(s: L.System, w: World, job: Job, d: Delivery) returns (acts: seq<Act>, place: Place)
    requires D.Matches(s, w) && !L.Locked(s, job.runId)
    ensures OwnActs(acts, job, d)
    ensures DoAll(Solo(s, job, ReadsRun), acts) == Solo(Holding(s, Handle(w, job, d).0), job, place)
  {
    hide Advance, AdvanceCancellation, CancelWorld, Dispatch, DoAll, OwnActs;
    var turn := TurnWith(d, StillWorks);
    assert Holding(s, w) == s;
    var at := FirstPlace(s, job);
    if Stale(w, job) {
      acts, place := [Proceeds(0, turn)], Ended;
      LeadsByTurn(s, job, d, ReadsRun, turn, w, Ended);
    } else {
      var w1 := CancelledEarly(w, job, d);
      var rest: seq<Act>;
      rest, place := RestLeads(Holding(s, w1), w1, job, d, w.runs[job.runId].status);
      if d.landing == BeforePhase {
        CancelLeads(s, w, job, d, at);
        var cancel := [Happens(L.CancelRun(job.runId, d.now))];
        LeadsOn(s, job, d, at, cancel, w1, at, rest, Handle(w, job, d).0, place);
        rest := cancel + rest;
      }
      TurnThen(s, job, d, ReadsRun, turn, w, at, rest, Handle(w, job, d).0, place);
      acts := [Proceeds(0, turn)] + rest;
    }
  }

  /** A delivery from the read of its run on. */
  function AfterRead(w: World, job: Job, d: Delivery, status: RunStatus): World {
    if status == CancelRequested && job.stepKey != Cleanup then Dispatch(w, job.(stepKey := Cleanup), d).0
    else if status == CancelRequested then AdvanceCancellation(w, job, d).0
    else Advance(w, job, d, status).0
  }

  lemma RestLeads(s: L.System, w: World, job: Job, d: Delivery, status: RunStatus)
      returns (acts: seq<Act>, place: Place)
    requires D.Matches(s, w) && !L.Locked(s, job.runId)
    ensures var at :=
        if status != CancelRequested then ListsSteps(status)
        else if job.stepKey == Cleanup then ListsRunning
        else Ended;
      Leads(s, job, d, at, acts, AfterRead(w, job, d, status), place)
  {
    hide Advance, AdvanceCancellation, Dispatch, DoAll;
    if status != CancelRequested {
      acts, place := AdvanceLeads(s, w, job, d, status);
    } else if job.stepKey == Cleanup {
      acts, place := CancellationLeads(s, w, job, d);
    } else {
      acts, place := [], Ended;
      LeadsNowhere(s, w, job, d, Ended);
      DispatchIsNoTable(s, w, job.(stepKey := Cleanup), d);
    }
  }
}
