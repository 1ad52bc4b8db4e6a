/** The status contract that every component shares. */
module RunStatusContract {
  import opened WorkflowTypes

  /** The transition table. */
  function Transitions(from: RunStatus): set<RunStatus> {
    match from
    case Received => {Queued, RejectedByCapacity}
    case Queued => {Planning, CancelRequested}
    case Planning => {Executing, Analyzing, RunStatus.Incomplete, CancelRequested}
    case Executing => {Analyzing, RunStatus.Incomplete, CancelRequested}
    case Analyzing => {Reporting, RunStatus.Incomplete, CancelRequested}
    case Reporting => {RunStatus.Passed, RunStatus.Failed, RunStatus.Incomplete}
    case CancelRequested => {RunStatus.Cancelled}
    case _ => {}
  }

  predicate IsValidTransition(from: RunStatus, to: RunStatus, cleanupConfirmed: bool) {
    if from == CancelRequested && to == RunStatus.Cancelled then cleanupConfirmed else to in Transitions(from)
  }

  predicate IsTerminal(status: RunStatus) {
    status in {RunStatus.Passed, RunStatus.Failed, RunStatus.Incomplete, RunStatus.Cancelled, RejectedByCapacity}
  }

  /** The statuses that occupy the single execution slot. */
  predicate IsActive(status: RunStatus) {
    status in {Planning, Executing, Analyzing, Reporting, CancelRequested}
  }

  predicate IsVerdict(status: RunStatus) {
    status in {RunStatus.Passed, RunStatus.Failed, RunStatus.Incomplete}
  }

  predicate CanRetry(status: RunStatus, cleanup: CleanupStatus, manuallyConfirmed: bool) {
    && status in {RunStatus.Failed, RunStatus.Incomplete}
    && (cleanup == Cleaned || (cleanup == CleanupFailed && manuallyConfirmed))
  }

  /** The API cancels from REPORTING too, which the transition table does not list. */
  predicate IsCancellable(status: RunStatus) {
    status in {Queued, Planning, Executing, Analyzing, Reporting}
  }

  /** The table, read from the target: what may become of a run, and from where. */
  lemma TransitionsInFull(from: RunStatus, to: RunStatus, confirmed: bool)
    ensures IsValidTransition(from, to, confirmed) <==>
      match to
      case Received => false
      case Queued => from == Received
      case RejectedByCapacity => from == Received
      case Planning => from == Queued
      case Executing => from == Planning
      case Analyzing => from == Planning || from == Executing
      case Reporting => from == Analyzing
      case Passed => from == Reporting
      case Failed => from == Reporting
      case Incomplete => from == Planning || from == Executing || from == Analyzing || from == Reporting
      case CancelRequested => from == Queued || from == Planning || from == Executing || from == Analyzing
      case Cancelled => from == CancelRequested && confirmed
  {}

  /** The terminal statuses are those that nothing follows; every run that is under way, and no other,
      holds the slot; the verdicts follow REPORTING; a run can be cancelled until it is over. */
  lemma StatusesInFull(status: RunStatus)
    ensures IsTerminal(status) <==> forall to: RunStatus :: !IsValidTransition(status, to, true)
    ensures IsActive(status) <==> !IsTerminal(status) && status != Received && status != Queued
    ensures IsVerdict(status) <==> IsTerminal(status) && IsValidTransition(Reporting, status, false)
    ensures IsCancellable(status) <==> !IsTerminal(status) && status != Received && status != CancelRequested
  {
    assert forall to: RunStatus :: IsValidTransition(status, to, true) ==> to in Transitions(status);
    if !IsTerminal(status) {
      var next: RunStatus :=
        match status
        case Received => Queued
        case Queued => Planning
        case Planning => Executing
        case Executing => Analyzing
        case Analyzing => Reporting
        case Reporting => RunStatus.Passed
        case _ => RunStatus.Cancelled;
      assert IsValidTransition(status, next, true);
    }
  }
}
