/** The vocabulary of the workflow engine: step keys in their fixed order, step and run
    statuses, and the records and jobs that the worker passes around. */
module WorkflowTypes {

  datatype Option<+T> = None | Some(value: T)

  type RunId = string

  datatype StepKey =
    | Detect | Fetch | Analyze | Test | Build | Preview | Health
    | AssembleReviewInput | AgentReview | Report | Cleanup

  /** The order in which a run goes through its steps. */
  const WORKFLOW_STEPS: seq<StepKey> :=
    [Detect, Fetch, Analyze, Test, Build, Preview, Health, AssembleReviewInput, AgentReview, Report, Cleanup]

  function StepIndex(step: StepKey): (index: nat)
    ensures index < |WORKFLOW_STEPS| && WORKFLOW_STEPS[index] == step
  {
    match step
    case Detect => 0 case Fetch => 1 case Analyze => 2 case Test => 3 case Build => 4 case Preview => 5
    case Health => 6 case AssembleReviewInput => 7 case AgentReview => 8 case Report => 9 case Cleanup => 10
  }

  lemma StepIndexInjective(a: StepKey, b: StepKey)
    ensures StepIndex(a) == StepIndex(b) ==> a == b
  {
    assert WORKFLOW_STEPS[StepIndex(a)] == a && WORKFLOW_STEPS[StepIndex(b)] == b;
  }

  datatype StepStatus = Pending | Running | Passed | Failed | Skipped | Incomplete | Cancelled {
    /** A status that ends a step. */
    predicate Settled() {
      this != Pending && this != Running
    }
  }

  datatype FailureKind = Application | Infrastructure | Model | Evidence | CancelledKind

  datatype StepRecord = StepRecord(stepKey: StepKey, status: StepStatus, failureKind: Option<FailureKind>,
    errorCode: Option<string>)

  /** What an executor answers; INCOMPLETE is never an application failure (`StepExecutionResult`). */
  datatype StepResult =
    | StepPassed
    | StepFailed(kind: FailureKind, errorCode: string)
    | StepIncomplete(kind: FailureKind, errorCode: string)
  {
    function Status(): StepStatus {
      match this
      case StepPassed => StepStatus.Passed
      case StepFailed(_, _) => StepStatus.Failed
      case StepIncomplete(_, _) => StepStatus.Incomplete
    }

    function Kind(): Option<FailureKind> {
      if StepPassed? then None else Some(kind)
    }

    function Code(): Option<string> {
      if StepPassed? then None else Some(errorCode)
    }
  }

  datatype RunStatus =
    | Received | Queued | Planning | Executing | Analyzing | Reporting
    | Passed | Failed | Incomplete | CancelRequested | Cancelled | RejectedByCapacity

  datatype CleanupStatus = NotScheduled | CleanupPending | Cleaned | CleanupFailed

  datatype Job = Job(runId: RunId, attempt: nat, headSha: string, stepKey: StepKey)
}
