/** The step planner and the final verdict. Both read a listing of step records in whatever
    order the database returns it; `Marks` is the order-free view they are proved against. */
module Plan {
  import opened WorkflowTypes

  datatype StepAction = RunStep(stepKey: StepKey) | SkipStep(stepKey: StepKey)

  /** The steps that an application failure of `failed` makes pointless. */
  function ApplicationGate(failed: StepKey): set<StepKey> {
    match failed
    case Detect => {Fetch, Analyze, Test, Build, Preview, Health}
    case Test => {Build, Preview, Health}
    case Build => {Preview, Health}
    case Preview => {Health}
    case _ => {}
  }

  function Find(records: seq<StepRecord>, step: StepKey): Option<StepRecord> {
    if records == [] then None
    else if records[0].stepKey == step then Some(records[0])
    else Find(records[1..], step)
  }

  predicate HasFailure(records: seq<StepRecord>, step: StepKey, kind: Option<FailureKind>) {
    exists r ::
      r in records && r.stepKey == step && r.status == StepStatus.Failed && (kind == None || r.failureKind == kind)
  }

  predicate HasHardFailureBeforeAssemble(records: seq<StepRecord>) {
    exists r ::
      r in records && IsHardFailure(r.status, r.failureKind) && StepIndex(r.stepKey) < StepIndex(AssembleReviewInput)
  }

  /** An outcome that leaves the run without evidence: INCOMPLETE, or FAILED for a reason of the platform. */
  predicate IsHardFailure(status: StepStatus, kind: Option<FailureKind>) {
    status == StepStatus.Incomplete || (status == StepStatus.Failed && kind != Some(Application))
  }

  /** Evidence gathering and cleanup go on after a hard failure. */
  predicate RunsAfterHardFailure(step: StepKey) {
    step in {AssembleReviewInput, AgentReview, Report, Cleanup}
  }

  predicate ShouldSkip(step: StepKey, records: seq<StepRecord>) {
    if exists failed: StepKey :: HasFailure(records, failed, Some(Application)) && step in ApplicationGate(failed) then
      true
    else if !RunsAfterHardFailure(step) && HasHardFailureBeforeAssemble(records) then
      true
    else
      step == AgentReview && HasFailure(records, AssembleReviewInput, None)
  }

  function NextStepAction(records: seq<StepRecord>): Option<StepAction> {
    var cleanup := Find(records, Cleanup);
    if cleanup.Some? && cleanup.value.status in {StepStatus.Failed, StepStatus.Incomplete} then
      Some(RunStep(Cleanup))
    else
      PlanFrom(records, 0)
  }

  /** The scan over WORKFLOW_STEPS, from position `index` on. */
  function PlanFrom(records: seq<StepRecord>, index: nat): Option<StepAction>
    requires index <= |WORKFLOW_STEPS|
    decreases |WORKFLOW_STEPS| - index
  {
    if index == |WORKFLOW_STEPS| then None
    else
      var step := WORKFLOW_STEPS[index];
      var record := Find(records, step);
      var cleanupRetryable := step == Cleanup && record.Some?
        && record.value.status in {StepStatus.Failed, StepStatus.Incomplete};
      if !cleanupRetryable && record.Some? && record.value.status.Settled() then
        PlanFrom(records, index + 1)
      else if ShouldSkip(step, records) then
        Some(SkipStep(step))
      else
        Some(RunStep(step))
  }

  function DeriveFinalRunStatus(records: seq<StepRecord>): RunStatus {
    var report := Find(records, Report);
    if report == None || report.value.status != StepStatus.Passed then
      RunStatus.Incomplete
    else if exists r :: r in records && IsHardFailure(r.status, r.failureKind) then
      RunStatus.Incomplete
    else if exists r :: r in records && r.status == StepStatus.Failed && r.failureKind == Some(Application) then
      RunStatus.Failed
    else
      RunStatus.Passed
  }

  // ---- The order-free reference ----

  datatype Mark = Mark(status: StepStatus, failureKind: Option<FailureKind>)

  type Marks = map<StepKey, Mark>

  predicate Settled(marks: Marks, step: StepKey) {
    step in marks && marks[step].status.Settled()
  }

  predicate FailedBecause(marks: Marks, step: StepKey, kind: Option<FailureKind>) {
    step in marks && marks[step].status == StepStatus.Failed && (kind == None || marks[step].failureKind == kind)
  }

  predicate HardFailed(marks: Marks, step: StepKey) {
    step in marks && IsHardFailure(marks[step].status, marks[step].failureKind)
  }

  predicate GateFailed(marks: Marks, step: StepKey) {
    exists gate: StepKey :: step in ApplicationGate(gate) && FailedBecause(marks, gate, Some(Application))
  }

  predicate EvidenceLost(marks: Marks) {
    exists hard: StepKey :: StepIndex(hard) < StepIndex(AssembleReviewInput) && HardFailed(marks, hard)
  }

  /** `step` is not worth running: one of its gates failed as an application failure, or evidence
      before the assembly is already lost, or there is no review input to review. */
  predicate Blocked(marks: Marks, step: StepKey) {
    || GateFailed(marks, step)
    || (!RunsAfterHardFailure(step) && EvidenceLost(marks))
    || (step == AgentReview && FailedBecause(marks, AssembleReviewInput, None))
  }

  predicate CleanupRetryable(marks: Marks) {
    Cleanup in marks && marks[Cleanup].status in {StepStatus.Failed, StepStatus.Incomplete}
  }

  /** The first position at or after `index` whose step is not settled, or the end. */
  function FirstOpenFrom(marks: Marks, index: nat): (first: nat)
    requires index <= |WORKFLOW_STEPS|
    ensures index <= first <= |WORKFLOW_STEPS|
    ensures forall i :: index <= i < first ==> Settled(marks, WORKFLOW_STEPS[i])
    ensures first < |WORKFLOW_STEPS| ==> !Settled(marks, WORKFLOW_STEPS[first])
    decreases |WORKFLOW_STEPS| - index
  {
    if index < |WORKFLOW_STEPS| && Settled(marks, WORKFLOW_STEPS[index]) then FirstOpenFrom(marks, index + 1) else index
  }

  function FirstOpen(marks: Marks): (first: nat)
    ensures first <= |WORKFLOW_STEPS|
  {
    FirstOpenFrom(marks, 0)
  }

  /** The plan: retry a failed cleanup; otherwise take the first open step, skipping it when blocked. */
  function Planned(marks: Marks): Option<StepAction> {
    if CleanupRetryable(marks) then Some(RunStep(Cleanup))
    else if FirstOpen(marks) == |WORKFLOW_STEPS| then None
    else
      var step := WORKFLOW_STEPS[FirstOpen(marks)];
      Some(if Blocked(marks, step) then SkipStep(step) else RunStep(step))
  }

  function Verdict(marks: Marks): RunStatus {
    if Report !in marks || marks[Report].status != StepStatus.Passed then RunStatus.Incomplete
    else if exists step :: step in marks && HardFailed(marks, step) then RunStatus.Incomplete
    else if exists step :: step in marks && FailedBecause(marks, step, Some(Application)) then RunStatus.Failed
    else RunStatus.Passed
  }

  /** `records` is a listing of `marks`, in any order. */
  ghost predicate Lists(records: seq<StepRecord>, marks: Marks) {
    && (forall r :: r in records ==> r.stepKey in marks && marks[r.stepKey] == Mark(r.status, r.failureKind))
    && (forall step :: step in marks ==> exists r :: r in records && r.stepKey == step)
  }

  /** `b` knows the same settled steps as `a`; open steps may be recorded differently or not at
      all, and the failure kind matters only for a failed step. */
  ghost predicate SameSettled(a: Marks, b: Marks) {
    forall step :: (Settled(a, step) || Settled(b, step)) ==>
      && step in a && step in b
      && a[step].status == b[step].status
      && (a[step].status == StepStatus.Failed ==> a[step].failureKind == b[step].failureKind)
  }

  lemma {:induction false} FindFirst(records: seq<StepRecord>, step: StepKey)
    ensures Find(records, step) == None ==> forall r :: r in records ==> r.stepKey != step
    ensures Find(records, step).Some? ==>
      Find(records, step).value in records && Find(records, step).value.stepKey == step
  {
    if records != [] && records[0].stepKey != step {
      FindFirst(records[1..], step);
      assert forall r :: r in records <==> r == records[0] || r in records[1..];
    }
  }

  lemma FindInListing(records: seq<StepRecord>, marks: Marks, step: StepKey)
    requires Lists(records, marks)
    ensures Find(records, step).Some? <==> step in marks
    ensures step in marks ==>
      Mark(Find(records, step).value.status, Find(records, step).value.failureKind) == marks[step]
  {
    FindFirst(records, step);
  }

  lemma FailureInListing(records: seq<StepRecord>, marks: Marks, step: StepKey, kind: Option<FailureKind>)
    requires Lists(records, marks)
    ensures HasFailure(records, step, kind) <==> FailedBecause(marks, step, kind)
  {
    if FailedBecause(marks, step, kind) {
      var r :| r in records && r.stepKey == step;
      assert HasFailure(records, step, kind);
    }
  }

  lemma HardFailureInListing(records: seq<StepRecord>, marks: Marks)
    requires Lists(records, marks)
    ensures HasHardFailureBeforeAssemble(records) <==> EvidenceLost(marks)
  {
    if HasHardFailureBeforeAssemble(records) {
      var r :| r in records && IsHardFailure(r.status, r.failureKind)
        && StepIndex(r.stepKey) < StepIndex(AssembleReviewInput);
      assert HardFailed(marks, r.stepKey);
    }
    if hard :| StepIndex(hard) < StepIndex(AssembleReviewInput) && HardFailed(marks, hard) {
      var r :| r in records && r.stepKey == hard;
      assert IsHardFailure(r.status, r.failureKind);
    }
  }

  lemma SkipInListing(records: seq<StepRecord>, marks: Marks, step: StepKey)
    requires Lists(records, marks)
    ensures ShouldSkip(step, records) <==> Blocked(marks, step)
  {
    forall failed: StepKey
      ensures HasFailure(records, failed, Some(Application)) <==> FailedBecause(marks, failed, Some(Application))
    {
      FailureInListing(records, marks, failed, Some(Application));
    }
    HardFailureInListing(records, marks);
    FailureInListing(records, marks, AssembleReviewInput, None);
  }

  lemma {:induction false} PlanFromListing(records: seq<StepRecord>, marks: Marks, index: nat)
    requires index <= |WORKFLOW_STEPS|
    requires Lists(records, marks) && !CleanupRetryable(marks)
    ensures PlanFrom(records, index) ==
      var first := FirstOpenFrom(marks, index);
      if first == |WORKFLOW_STEPS| then None
      else if Blocked(marks, WORKFLOW_STEPS[first]) then Some(SkipStep(WORKFLOW_STEPS[first]))
      else Some(RunStep(WORKFLOW_STEPS[first]))
    decreases |WORKFLOW_STEPS| - index
  {
    if index < |WORKFLOW_STEPS| {
      var step := WORKFLOW_STEPS[index];
      FindInListing(records, marks, step);
      SkipInListing(records, marks, step);
      if Settled(marks, step) {
        PlanFromListing(records, marks, index + 1);
      }
    }
  }

  /** The planner answers the plan of the records, whatever order they are listed in. */
  lemma PlanOfListing(records: seq<StepRecord>, marks: Marks)
    requires Lists(records, marks)
    ensures NextStepAction(records) == Planned(marks)
  {
    FindInListing(records, marks, Cleanup);
    if !CleanupRetryable(marks) {
      PlanFromListing(records, marks, 0);
    }
  }

  predicate AppFailed(marks: Marks, step: StepKey) {
    step in marks && marks[step] == Mark(StepStatus.Failed, Some(Application))
  }

  /** INCOMPLETE, or FAILED for any other reason or none. */
  predicate LosesEvidence(marks: Marks, step: StepKey) {
    && step in marks
    && (marks[step].status == StepStatus.Incomplete
        || (marks[step].status == StepStatus.Failed && marks[step].failureKind != Some(Application)))
  }

  /** The steps that come before this one. */
  function StepsBefore(step: StepKey): set<StepKey> {
    match step
    case Detect => {}
    case Fetch => {Detect}
    case Analyze => {Detect, Fetch}
    case Test => {Detect, Fetch, Analyze}
    case Build => {Detect, Fetch, Analyze, Test}
    case Preview => {Detect, Fetch, Analyze, Test, Build}
    case Health => {Detect, Fetch, Analyze, Test, Build, Preview}
    case AssembleReviewInput => {Detect, Fetch, Analyze, Test, Build, Preview, Health}
    case AgentReview => {Detect, Fetch, Analyze, Test, Build, Preview, Health, AssembleReviewInput}
    case Report => {Detect, Fetch, Analyze, Test, Build, Preview, Health, AssembleReviewInput, AgentReview}
    case Cleanup => {Detect, Fetch, Analyze, Test, Build, Preview, Health, AssembleReviewInput, AgentReview, Report}
  }

  lemma OrderInFull(t: StepKey, s: StepKey)
    ensures StepIndex(t) < StepIndex(s) <==> t in StepsBefore(s)
  {}

  /** The plan, spelled out: which failure makes which steps pointless. `s` is the first step that has
      no final record, and no cleanup has failed. */
  lemma PlanInFull(records: seq<StepRecord>, marks: Marks, s: StepKey)
    requires Lists(records, marks)
    requires Cleanup in marks ==> marks[Cleanup].status !in {StepStatus.Failed, StepStatus.Incomplete}
    requires forall t :: t in StepsBefore(s) ==> t in marks && marks[t].status !in {Pending, Running}
    requires s in marks ==> marks[s].status in {Pending, Running}
    ensures NextStepAction(records) in {Some(SkipStep(s)), Some(RunStep(s))}
    ensures NextStepAction(records) == Some(SkipStep(s)) <==>
      || (AppFailed(marks, Detect) && s in {Fetch, Analyze, Test, Build, Preview, Health})
      || (AppFailed(marks, Test) && s in {Build, Preview, Health})
      || (AppFailed(marks, Build) && s in {Preview, Health})
      || (AppFailed(marks, Preview) && s == Health)
      || (s in {Detect, Fetch, Analyze, Test, Build, Preview, Health}
          && exists lost ::
            lost in {Detect, Fetch, Analyze, Test, Build, Preview, Health} && LosesEvidence(marks, lost))
      || (s == AgentReview && AssembleReviewInput in marks && marks[AssembleReviewInput].status == StepStatus.Failed)
  {
    hide NextStepAction, Lists, GateFailed, EvidenceLost, AppFailed, LosesEvidence, FirstOpen, StepsBefore, StepIndex;
    PlanOfListing(records, marks);
    forall t: StepKey
      ensures StepIndex(t) < StepIndex(s) <==> t in StepsBefore(s)
    {
      OrderInFull(t, s);
    }
    FirstOpenIs(marks, s);
    GatesInFull(marks, s);
    LossInFull(marks);
    assert WORKFLOW_STEPS[StepIndex(s)] == s;
  }

  lemma FirstOpenIs(marks: Marks, s: StepKey)
    requires forall t: StepKey :: StepIndex(t) < StepIndex(s) ==> Settled(marks, t)
    requires !Settled(marks, s)
    ensures FirstOpen(marks) == StepIndex(s)
  {
    var first := FirstOpen(marks);
    hide Settled;
    if first > StepIndex(s) {
      assert false;
    } else if first < StepIndex(s) {
      IndexOfStep(first);
      assert false;
    }
  }

  lemma IndexOfStep(index: nat)
    requires index < |WORKFLOW_STEPS|
    ensures StepIndex(WORKFLOW_STEPS[index]) == index
  {}

  lemma GatesInFull(marks: Marks, s: StepKey)
    ensures GateFailed(marks, s) <==>
      || (AppFailed(marks, Detect) && s in {Fetch, Analyze, Test, Build, Preview, Health})
      || (AppFailed(marks, Test) && s in {Build, Preview, Health})
      || (AppFailed(marks, Build) && s in {Preview, Health})
      || (AppFailed(marks, Preview) && s == Health)
  {
    forall gate: StepKey
      ensures FailedBecause(marks, gate, Some(Application)) <==> AppFailed(marks, gate)
    {}
    hide FailedBecause, AppFailed;
    assert s in ApplicationGate(Detect) <==> s in {Fetch, Analyze, Test, Build, Preview, Health};
    assert s in ApplicationGate(Test) <==> s in {Build, Preview, Health};
    assert s in ApplicationGate(Build) <==> s in {Preview, Health};
    assert s in ApplicationGate(Preview) <==> s == Health;
  }

  lemma LossInFull(marks: Marks)
    ensures EvidenceLost(marks) <==>
      exists lost :: lost in {Detect, Fetch, Analyze, Test, Build, Preview, Health} && LosesEvidence(marks, lost)
  {
    forall step: StepKey
      ensures HardFailed(marks, step) <==> LosesEvidence(marks, step)
    {}
    hide HardFailed, LosesEvidence;
    if hard: StepKey :| StepIndex(hard) < StepIndex(AssembleReviewInput) && HardFailed(marks, hard) {
      assert hard in {Detect, Fetch, Analyze, Test, Build, Preview, Health} && LosesEvidence(marks, hard);
    }
    if lost :| lost in {Detect, Fetch, Analyze, Test, Build, Preview, Health} && LosesEvidence(marks, lost) {
      assert StepIndex(lost) < StepIndex(AssembleReviewInput) && HardFailed(marks, lost);
    }
  }

  /** A failed cleanup comes before everything else; with every step final there is nothing to do. */
  lemma PlanAtTheEnds(records: seq<StepRecord>, marks: Marks)
    requires Lists(records, marks)
    ensures Cleanup in marks && marks[Cleanup].status in {StepStatus.Failed, StepStatus.Incomplete} ==>
      NextStepAction(records) == Some(RunStep(Cleanup))
    ensures NextStepAction(records) == None <==>
      && (forall step: StepKey :: step in marks && marks[step].status !in {Pending, Running})
      && marks[Cleanup].status !in {StepStatus.Failed, StepStatus.Incomplete}
  {
    hide NextStepAction, Lists, Blocked, FirstOpen;
    PlanOfListing(records, marks);
    AllSettledIff(marks);
    assert forall step: StepKey :: Settled(marks, step) <==> step in marks && marks[step].status !in {Pending, Running};
    if forall step: StepKey :: step in marks && marks[step].status !in {Pending, Running} {
      assert forall step: StepKey :: Settled(marks, step);
    }
  }

  lemma AllSettledIff(marks: Marks)
    ensures FirstOpen(marks) == |WORKFLOW_STEPS| <==> forall step: StepKey :: Settled(marks, step)
  {
    var first := FirstOpen(marks);
    hide Settled;
    if first == |WORKFLOW_STEPS| {
      forall step: StepKey
        ensures Settled(marks, step)
      {
        assert WORKFLOW_STEPS[StepIndex(step)] == step;
      }
    }
  }

  /** The verdict, spelled out. */
  lemma VerdictInFull(records: seq<StepRecord>, marks: Marks)
    requires Lists(records, marks)
    ensures DeriveFinalRunStatus(records) in {RunStatus.Passed, RunStatus.Failed, RunStatus.Incomplete}
    ensures DeriveFinalRunStatus(records) == RunStatus.Incomplete <==>
      || !(Report in marks && marks[Report].status == StepStatus.Passed)
      || (exists step: StepKey :: LosesEvidence(marks, step))
    ensures DeriveFinalRunStatus(records) == RunStatus.Passed ==>
      forall step :: step in marks ==> marks[step].status !in {StepStatus.Failed, StepStatus.Incomplete}
    ensures DeriveFinalRunStatus(records) == RunStatus.Failed ==> exists step: StepKey :: AppFailed(marks, step)
  {
    VerdictOfListing(records, marks);
    forall step: StepKey
      ensures HardFailed(marks, step) <==> LosesEvidence(marks, step)
      ensures FailedBecause(marks, step, Some(Application)) <==> AppFailed(marks, step)
    {}
  }

  /** The verdict, too, does not depend on the order of the listing. */
  lemma VerdictOfListing(records: seq<StepRecord>, marks: Marks)
    requires Lists(records, marks)
    ensures DeriveFinalRunStatus(records) == Verdict(marks)
  {
    FindInListing(records, marks, Report);
    if step :| step in marks && HardFailed(marks, step) {
      var r :| r in records && r.stepKey == step;
      assert IsHardFailure(r.status, r.failureKind);
    }
    if step :| step in marks && FailedBecause(marks, step, Some(Application)) {
      var r :| r in records && r.stepKey == step;
      assert r.status == StepStatus.Failed && r.failureKind == Some(Application);
    }
    forall r | r in records ensures IsHardFailure(r.status, r.failureKind) ==> HardFailed(marks, r.stepKey) {}
    forall r | r in records
      ensures r.status == StepStatus.Failed && r.failureKind == Some(Application) ==>
        FailedBecause(marks, r.stepKey, Some(Application))
    {}
  }

  lemma {:induction false} FirstOpenIgnoresOpenRecords(a: Marks, b: Marks, index: nat)
    requires SameSettled(a, b) && index <= |WORKFLOW_STEPS|
    ensures FirstOpenFrom(a, index) == FirstOpenFrom(b, index)
    decreases |WORKFLOW_STEPS| - index
  {
    if index < |WORKFLOW_STEPS| {
      FirstOpenIgnoresOpenRecords(a, b, index + 1);
    }
  }

  lemma GateFailureCarries(a: Marks, b: Marks, step: StepKey)
    requires forall s: StepKey ::
      StepIndex(s) < StepIndex(AssembleReviewInput) && FailedBecause(a, s, Some(Application)) ==>
        FailedBecause(b, s, Some(Application))
    ensures GateFailed(a, step) ==> GateFailed(b, step)
  {
    if gate :| step in ApplicationGate(gate) && FailedBecause(a, gate, Some(Application)) {
      hide FailedBecause;
      assert FailedBecause(b, gate, Some(Application));
    }
  }

  lemma LossCarries(a: Marks, b: Marks)
    requires forall s: StepKey :: StepIndex(s) < StepIndex(AssembleReviewInput) && HardFailed(a, s) ==> HardFailed(b, s)
    ensures EvidenceLost(a) ==> EvidenceLost(b)
  {
    hide HardFailed;
    if hard :| StepIndex(hard) < StepIndex(AssembleReviewInput) && HardFailed(a, hard) {
      assert HardFailed(b, hard);
    }
  }

  /** Only the failed records before the review decide whether a step is blocked. */
  lemma BlockedDependsOnFailures(a: Marks, b: Marks, step: StepKey)
    requires forall s: StepKey {:trigger HardFailed(a, s)} {:trigger HardFailed(b, s)} ::
      StepIndex(s) < StepIndex(AssembleReviewInput) ==> (HardFailed(a, s) <==> HardFailed(b, s))
    requires forall s: StepKey
      {:trigger FailedBecause(a, s, Some(Application))} {:trigger FailedBecause(b, s, Some(Application))} ::
      StepIndex(s) < StepIndex(AssembleReviewInput) ==>
        (FailedBecause(a, s, Some(Application)) <==> FailedBecause(b, s, Some(Application)))
    requires step == AgentReview ==>
      (FailedBecause(a, AssembleReviewInput, None) <==> FailedBecause(b, AssembleReviewInput, None))
    ensures Blocked(a, step) <==> Blocked(b, step)
  {
    hide GateFailed, EvidenceLost, HardFailed, FailedBecause;
    GateFailureCarries(a, b, step);
    GateFailureCarries(b, a, step);
    LossCarries(a, b);
    LossCarries(b, a);
  }

  /** PENDING and RUNNING records decide nothing: neither the plan nor the verdict sees them. */
  lemma OpenRecordsDecideNothing(a: Marks, b: Marks)
    requires SameSettled(a, b)
    ensures Planned(a) == Planned(b)
    ensures Verdict(a) == Verdict(b)
  {
    FirstOpenIgnoresOpenRecords(a, b, 0);
    forall step: StepKey
      ensures HardFailed(a, step) <==> HardFailed(b, step)
      ensures FailedBecause(a, step, Some(Application)) <==> FailedBecause(b, step, Some(Application))
      ensures FailedBecause(a, step, None) <==> FailedBecause(b, step, None)
    {
      assert HardFailed(a, step) || FailedBecause(a, step, None) ==> Settled(a, step);
      assert HardFailed(b, step) || FailedBecause(b, step, None) ==> Settled(b, step);
    }
    forall step: StepKey ensures Blocked(a, step) <==> Blocked(b, step) {
      BlockedDependsOnFailures(a, b, step);
    }
    assert Settled(a, Cleanup) <==> Settled(b, Cleanup);
    assert Settled(a, Report) <==> Settled(b, Report);
  }
}
