/** Any number of workers calling the database step guard on one row, their transactions
    interleaved in every possible way. A call is named by its fresh lease token. */
module StepLease {
  import opened WorkflowTypes
  import opened Tables
  import opened StepGuard

  datatype Call =
    | Began(now: int)                            // the clock was read, the admission is still to come
    | Operating(renewedAt: int, lost: bool)      // admitted; `lost` is the leaseLost flag
    | Finishing(result: StepResult)              // the operation returned with the lease believed held
    | Resetting                                  // in the catch block
    | Done(outcome: GuardOutcome)
    | Crashed

  /** `clock` only grows. `renewedAt` is the time of the admission or of the last successful heartbeat. */
  datatype Lease = Lease(row: Option<StepRow>, clock: int, calls: map<nat, Call>)

  datatype Event =
    | Begin(token: nat)
    | AdmitCall(token: nat)
    | Beat(token: nat)
    | BeatFails(token: nat)
    | OperationReturns(token: nat, result: StepResult)
    | OperationThrows(token: nat)
    | FinishCall(token: nat)
    | FinishFails(token: nat)
    | ResetCall(token: nat)
    | Die(token: nat)
    | Skip(reason: string)
    | Tick(elapsed: nat)

  const START := Lease(None, 0, map[])

  predicate IsCallEvent(e: Event) {
    !e.Skip? && !e.Tick?
  }

  /** What event `e` of call `t` makes of the row and of the call. An event that is not possible
      changes nothing. */
  function Advance(row: Option<StepRow>, clock: int, step: StepKey, t: nat, call: Call, e: Event)
      : (Option<StepRow>, Call) {
    match (e, call)
    case (AdmitCall(_), Began(now)) =>
      var (admission, row') := Admit(row, step, now, t);
      (row', match admission
        case WasTerminal(status) => Done(AlreadyTerminal(status))
        case LeaseBusy => Done(Busy)
        case Admitted => Operating(now, false))
    case (Beat(_), Operating(renewedAt, lost)) =>
      (Heartbeat(row, clock, t), if Holds(row, t) then Operating(clock, lost) else Operating(renewedAt, true))
    case (Beat(_), Began(_)) => (row, call)
    case (Beat(_), _) => (Heartbeat(row, clock, t), call)  // a heartbeat still in flight
    case (BeatFails(_), Operating(renewedAt, _)) => (row, Operating(renewedAt, true))
    case (OperationReturns(_, result), Operating(_, lost)) => (row, if lost then Resetting else Finishing(result))
    case (OperationThrows(_), Operating(_, _)) => (row, Resetting)
    case (FinishCall(_), Finishing(result)) =>
      if Holds(row, t) then (Finish(row, t, result), Done(Executed(result))) else (row, Resetting)
    case (FinishFails(_), Finishing(_)) => (row, Resetting)
    case (ResetCall(_), Resetting) => (Reset(row, t), Done(Threw))
    case (Die(_), Done(_)) => (row, call)
    case (Die(_), _) => (row, Crashed)
    case _ => (row, call)
  }

  /** One event on the row of step `step`. */
  function Step(s: Lease, step: StepKey, e: Event): Lease {
    if e.Tick? then s.(clock := s.clock + e.elapsed)
    else if e.Skip? then s.(row := MarkSkipped(s.row, step, e.reason).1)
    else if e.Begin? then (if e.token in s.calls then s else s.(calls := s.calls[e.token := Began(s.clock)]))
    else if e.token in s.calls then
      var (row, call) := Advance(s.row, s.clock, step, e.token, s.calls[e.token], e);
      s.(row := row, calls := s.calls[e.token := call])
    else s
  }

  function Run(s: Lease, step: StepKey, events: seq<Event>): Lease
    decreases |events|
  {
    if events == [] then s else Run(Step(s, step, events[0]), step, events[1..])
  }

  /** The row says exactly what an executed call reported. */
  predicate Recorded(row: Option<StepRow>, result: StepResult) {
    row == Some(StepRow(result.Status(), result.Kind(), result.Code(), None, None))
  }

  /** The call returned `executed` with a result that ends the step for good. */
  predicate ExecutedForGood(s: Lease, step: StepKey, t: nat) {
    t in s.calls && s.calls[t].Done? && s.calls[t].outcome.Executed?
      && IsTerminalForRetry(step, s.calls[t].outcome.result.Status())
  }

  predicate FinalRow(row: Option<StepRow>, step: StepKey) {
    row.Some? && IsTerminalForRetry(step, row.value.status)
  }

  predicate OwnedBy(row: Option<StepRow>, t: nat) {
    row.Some? && row.value.leaseToken == Some(t)
  }

  /** The call was admitted and has not come back. */
  predicate Live(call: Call) {
    !call.Began? && !call.Done?
  }

  /** A row carries a token exactly while it is RUNNING, and then with cleared failure columns. */
  predicate RowOk(row: Option<StepRow>) {
    row.Some? ==>
      && (row.value.leaseToken.Some? <==> row.value.status == Running)
      && (row.value.leaseUntil.Some? <==> row.value.status == Running)
      && (row.value.status == Running ==> row.value.failureKind == None && row.value.errorCode == None)
  }

  predicate EndedForGood(call: Call, step: StepKey) {
    call.Done? && call.outcome.Executed? && IsTerminalForRetry(step, call.outcome.result.Status())
  }

  ghost predicate Inv(s: Lease, step: StepKey) {
    && RowOk(s.row)
    && (forall t :: OwnedBy(s.row, t) ==> t in s.calls && Live(s.calls[t]))
    && (forall t :: ExecutedForGood(s, step, t) ==> Recorded(s.row, s.calls[t].outcome.result))
    && (forall t, u :: ExecutedForGood(s, step, t) && ExecutedForGood(s, step, u) ==> t == u)
    && (forall t :: t in s.calls && s.calls[t].Began? ==> s.calls[t].now <= s.clock)
  }

  /** What one event of call `t` can do to a row. */
  lemma AdvanceRow(row: Option<StepRow>, clock: int, step: StepKey, t: nat, call: Call, e: Event)
    requires RowOk(row) && (OwnedBy(row, t) ==> Live(call))
    ensures var (row', call') := Advance(row, clock, step, t, call, e);
      && RowOk(row')
      && (FinalRow(row, step) ==> row' == row)
      && (OwnedBy(row', t) ==> Live(call'))
      && (forall u :: u != t && OwnedBy(row', u) ==> OwnedBy(row, u))
      && (!call.Began? && !OwnedBy(row, t) ==> row' == row)
      && (EndedForGood(call', step) && call' != call ==> Holds(row, t) && Recorded(row', call'.outcome.result))
      && (EndedForGood(call, step) ==> call' == call)
      && (call'.Began? ==> call' == call)
  {}

  /** A final execution is either an old one, left alone, or the finish of a call that held the row. */
  lemma ExecutionStep(s: Lease, step: StepKey, e: Event, t: nat)
    requires Inv(s, step) && ExecutedForGood(Step(s, step, e), step, t)
    ensures Recorded(Step(s, step, e).row, Step(s, step, e).calls[t].outcome.result)
    ensures ExecutedForGood(s, step, t) || (IsCallEvent(e) && t == e.token && Holds(s.row, t))
  {
    if ExecutedForGood(s, step, t) {
      assert FinalRow(s.row, step);
    }
    if IsCallEvent(e) && !e.Begin? && e.token in s.calls {
      AdvanceRow(s.row, s.clock, step, e.token, s.calls[e.token], e);
    }
  }

  /** The row's owner is a live call, a final row stays, and no call begins in the future. */
  lemma OwnersStep(s: Lease, step: StepKey, e: Event)
    requires Inv(s, step)
    ensures var s' := Step(s, step, e);
      && RowOk(s'.row) && (FinalRow(s.row, step) ==> s'.row == s.row)
      && (forall t :: OwnedBy(s'.row, t) ==> t in s'.calls && Live(s'.calls[t]))
      && (forall t :: t in s'.calls && s'.calls[t].Began? ==> s'.calls[t].now <= s'.clock)
  {
    hide Advance, Recorded, ExecutedForGood;
    if IsCallEvent(e) && !e.Begin? && e.token in s.calls {
      AdvanceRow(s.row, s.clock, step, e.token, s.calls[e.token], e);
    }
  }

  lemma InvStep(s: Lease, step: StepKey, e: Event)
    requires Inv(s, step)
    ensures Inv(Step(s, step, e), step)
    ensures FinalRow(s.row, step) ==> Step(s, step, e).row == s.row
  {
    hide Advance, RowOk, OwnedBy, Live;
    OwnersStep(s, step, e);
    var s' := Step(s, step, e);
    forall t, u | ExecutedForGood(s', step, t) && ExecutedForGood(s', step, u)
      ensures t == u && Recorded(s'.row, s'.calls[t].outcome.result)
    {
      ExecutionStep(s, step, e, t);
      ExecutionStep(s, step, e, u);
    }
  }

  lemma {:induction false} InvRun(s: Lease, step: StepKey, events: seq<Event>)
    requires Inv(s, step)
    ensures Inv(Run(s, step, events), step)
    ensures FinalRow(s.row, step) ==> Run(s, step, events).row == s.row
    decreases |events|
  {
    if events != [] {
      InvStep(s, step, events[0]);
      InvRun(Step(s, step, events[0]), step, events[1..]);
    }
  }

  lemma {:induction false} RunAppend(s: Lease, step: StepKey, a: seq<Event>, b: seq<Event>)
    ensures Run(s, step, a + b) == Run(Run(s, step, a), step, b)
    decreases |a|
  {
    if a == [] {
      assert a + b == b;
    } else {
      assert (a + b)[0] == a[0] && (a + b)[1..] == a[1..] + b;
      RunAppend(Step(s, step, a[0]), step, a[1..], b);
    }
  }

  /** Lease safety: once a record is final no interleaving changes it again. */
  lemma FinalRecordNeverChanges(step: StepKey, before: seq<Event>, after: seq<Event>)
    requires FinalRow(Run(START, step, before).row, step)
    ensures Run(START, step, before + after).row == Run(START, step, before).row
  {
    InvRun(START, step, before);
    InvRun(Run(START, step, before), step, after);
    RunAppend(START, step, before, after);
  }

  /** At most one call ever returns `executed` with a final result, and that result is what the
      row records, then and ever after. */
  lemma OneFinalExecution(step: StepKey, events: seq<Event>, t: nat)
    requires ExecutedForGood(Run(START, step, events), step, t)
    ensures Recorded(Run(START, step, events).row, Run(START, step, events).calls[t].outcome.result)
    ensures forall u :: ExecutedForGood(Run(START, step, events), step, u) ==> u == t
  {
    InvRun(START, step, events);
  }

  // ---- A call that lost its lease ----

  /** The call was admitted, and the row is no longer (or not) held under its token. */
  predicate Replaced(s: Lease, t: nat) {
    t in s.calls && !s.calls[t].Began? && !OwnedBy(s.row, t)
  }

  function WithoutCall(events: seq<Event>, t: nat): seq<Event>
    decreases |events|
  {
    if events == [] then []
    else if IsCallEvent(events[0]) && events[0].token == t then WithoutCall(events[1..], t)
    else [events[0]] + WithoutCall(events[1..], t)
  }

  /** The same state, except for how far the replaced call `t` has got. */
  ghost predicate SameBut(a: Lease, b: Lease, t: nat) {
    && Replaced(a, t) && Replaced(b, t)
    && a.row == b.row && a.clock == b.clock
    && (forall u :: u != t ==> (u in a.calls <==> u in b.calls))
    && (forall u :: u != t && u in a.calls ==> a.calls[u] == b.calls[u])
  }

  /** Other calls never hand a row to `t`, and without owning it `t` cannot touch it. */
  lemma ReplacedStays(row: Option<StepRow>, clock: int, step: StepKey, t: nat, u: nat, call: Call, e: Event)
    requires !OwnedBy(row, t)
    ensures t != u ==> !OwnedBy(Advance(row, clock, step, u, call, e).0, t)
    ensures t == u && !call.Began? ==>
      Advance(row, clock, step, u, call, e).0 == row && !Advance(row, clock, step, u, call, e).1.Began?
  {}

  lemma SameButStep(a: Lease, b: Lease, step: StepKey, e: Event, t: nat)
    requires SameBut(a, b, t)
    ensures IsCallEvent(e) && e.token == t ==> SameBut(Step(a, step, e), b, t)
    ensures !(IsCallEvent(e) && e.token == t) ==> SameBut(Step(a, step, e), Step(b, step, e), t)
  {
    if IsCallEvent(e) && !e.Begin? && e.token in a.calls {
      ReplacedStays(a.row, a.clock, step, t, e.token, a.calls[e.token], e);
    }
  }

  lemma {:induction false} SameButRun(a: Lease, b: Lease, step: StepKey, events: seq<Event>, t: nat)
    requires SameBut(a, b, t)
    ensures SameBut(Run(a, step, events), Run(b, step, WithoutCall(events, t)), t)
    decreases |events|
  {
    if events != [] {
      SameButStep(a, b, step, events[0], t);
      if IsCallEvent(events[0]) && events[0].token == t {
        SameButRun(Step(a, step, events[0]), b, step, events[1..], t);
      } else {
        var rest := WithoutCall(events[1..], t);
        assert ([events[0]] + rest)[1..] == rest;
        SameButRun(Step(a, step, events[0]), Step(b, step, events[0]), step, events[1..], t);
      }
    }
  }

  /** A worker whose token was replaced changes nothing: leaving out everything it still does
      gives the same row and the same course of every other call. */
  lemma ReplacedCallChangesNothing(s: Lease, step: StepKey, events: seq<Event>, t: nat)
    requires Replaced(s, t)
    ensures Run(s, step, events).row == Run(s, step, WithoutCall(events, t)).row
    ensures Run(s, step, events).calls - {t} == Run(s, step, WithoutCall(events, t)).calls - {t}
  {
    SameButRun(s, s, step, events, t);
    assert SameBut(Run(s, step, events), Run(s, step, WithoutCall(events, t)), t);
  }

  // ---- A call that fails ----

  /** From here on the call cannot come back as executed. */
  predicate Doomed(call: Call) {
    || (call.Operating? && call.lost) || call == Resetting || call == Done(Threw) || call == Crashed
  }

  lemma DoomedStays(s: Lease, step: StepKey, e: Event, t: nat)
    requires t in s.calls && Doomed(s.calls[t])
    ensures t in Step(s, step, e).calls && Doomed(Step(s, step, e).calls[t])
  {}

  lemma {:induction false} DoomedRun(s: Lease, step: StepKey, events: seq<Event>, t: nat)
    requires t in s.calls && Doomed(s.calls[t])
    ensures t in Run(s, step, events).calls && Doomed(Run(s, step, events).calls[t])
    decreases |events|
  {
    hide Step, Doomed;
    if events != [] {
      DoomedStays(s, step, events[0], t);
      DoomedRun(Step(s, step, events[0]), step, events[1..], t);
    }
  }

  /** One heartbeat that fails, or finds the row in other hands, is enough: whatever happens then, and
      even if the row comes to no other call, this call never reports that it executed the step. */
  lemma LostHeartbeatIsNoSuccess(s: Lease, step: StepKey, t: nat, e: Event, events: seq<Event>)
    requires t in s.calls && s.calls[t].Operating?
    requires e == BeatFails(t) || (e == Beat(t) &&
      (s.row == None || s.row.value.status != Running || s.row.value.leaseToken != Some(t)))
    ensures var calls := Run(Step(s, step, e), step, events).calls;
      t in calls && !(calls[t].Done? && calls[t].outcome.Executed?)
  {
    hide Run;
    DoomedRun(Step(s, step, e), step, events, t);
  }

  /** A call that fails, in whichever way, throws, and hands the row back as PENDING if it still is its own. */
  lemma FailingCallHandsBack(s: Lease, step: StepKey, t: nat, e: Event, result: StepResult)
    requires t in s.calls
    requires
      || (s.calls[t].Operating? && (e == OperationThrows(t) || (s.calls[t].lost && e == OperationReturns(t, result))))
      || (s.calls[t].Finishing? && e == FinishFails(t))
      || (s.calls[t].Finishing? && e == FinishCall(t)
          && (s.row == None || s.row.value.status != Running || s.row.value.leaseToken != Some(t)))
    ensures var end := Run(s, step, [e, ResetCall(t)]);
      && end.calls == s.calls[t := Done(Threw)] && end.clock == s.clock
      && end.row ==
        if s.row.Some? && s.row.value.leaseToken == Some(t)
        then Some(StepRow(Pending, None, Some("STEP_RETRYABLE_ERROR"), None, None)) else s.row
  {
    assert [e, ResetCall(t)][1..] == [ResetCall(t)] && [ResetCall(t)][1..] == [];
    var s1 := Step(s, step, e);
    assert s1.row == s.row && s1.calls == s.calls[t := Resetting];
    var s2 := Step(s1, step, ResetCall(t));
    assert Run(s, step, [e, ResetCall(t)]) == Run(s1, step, [ResetCall(t)]) == Run(s2, step, []) == s2;
  }

  // ---- Mutual exclusion ----

  /** Every operation in progress renewed its lease less than STALE_STEP_MS ago. */
  ghost predicate Timely(s: Lease) {
    forall t :: t in s.calls && s.calls[t].Operating? ==> s.clock - s.calls[t].renewedAt < STALE_STEP_MS
  }

  ghost predicate AlwaysTimely(s: Lease, step: StepKey, events: seq<Event>)
    decreases |events|
  {
    Timely(s) && (events != [] ==> AlwaysTimely(Step(s, step, events[0]), step, events[1..]))
  }

  ghost predicate AtMostOneOperates(s: Lease) {
    forall t, u :: t in s.calls && u in s.calls && s.calls[t].Operating? && s.calls[u].Operating? ==> t == u
  }

  /** Every operation in progress holds the row, with the lease its last renewal gave it. */
  ghost predicate OperatorsHold(s: Lease) {
    forall t :: t in s.calls && s.calls[t].Operating? ==>
      Holds(s.row, t) && s.row.value.leaseUntil == Some(s.calls[t].renewedAt + STALE_STEP_MS)
  }

  /** An event of another call cannot touch a row whose lease runs beyond that call's clock reading. */
  lemma HeldRowStays(row: Option<StepRow>, clock: int, step: StepKey, t: nat, u: nat, call: Call, e: Event)
    requires t != u && Holds(row, t) && row.value.leaseUntil.Some? && row.value.leaseUntil.value > clock
    requires call.Began? ==> call.now <= clock
    ensures Advance(row, clock, step, u, call, e).0 == row
    ensures Advance(row, clock, step, u, call, e).1.Operating? ==> call.Operating?
  {}

  /** An operation that goes on, or starts, holds the row with the lease of its last renewal. */
  lemma OperatorHolds(row: Option<StepRow>, clock: int, step: StepKey, t: nat, call: Call, e: Event)
    requires call.Operating? ==> Holds(row, t) && row.value.leaseUntil == Some(call.renewedAt + STALE_STEP_MS)
    ensures var (row', call') := Advance(row, clock, step, t, call, e);
      call'.Operating? ==> Holds(row', t) && row'.value.leaseUntil == Some(call'.renewedAt + STALE_STEP_MS)
  {}

  lemma OperatorsHoldStep(s: Lease, step: StepKey, e: Event)
    requires Inv(s, step) && Timely(s) && OperatorsHold(s)
    ensures OperatorsHold(Step(s, step, e))
  {
    var s' := Step(s, step, e);
    forall t | t in s'.calls && s'.calls[t].Operating?
      ensures Holds(s'.row, t) && s'.row.value.leaseUntil == Some(s'.calls[t].renewedAt + STALE_STEP_MS)
    {
      if IsCallEvent(e) && !e.Begin? && e.token in s.calls {
        var u, call := e.token, s.calls[e.token];
        if t == u {
          OperatorHolds(s.row, s.clock, step, t, call, e);
        } else {
          HeldRowStays(s.row, s.clock, step, t, u, call, e);
        }
      }
    }
  }

  /** While holders renew in time, no two operations on the same step overlap, at any moment of
      any interleaving. */
  lemma {:induction false} OperationsExclude(s: Lease, step: StepKey, events: seq<Event>)
    requires Inv(s, step) && OperatorsHold(s) && AlwaysTimely(s, step, events)
    ensures AtMostOneOperates(Run(s, step, events)) && OperatorsHold(Run(s, step, events))
    decreases |events|
  {
    if events != [] {
      InvStep(s, step, events[0]);
      OperatorsHoldStep(s, step, events[0]);
      OperationsExclude(Step(s, step, events[0]), step, events[1..]);
    }
  }

  lemma MutualExclusion(step: StepKey, events: seq<Event>)
    requires AlwaysTimely(START, step, events)
    ensures AtMostOneOperates(Run(START, step, events))
  {
    OperationsExclude(START, step, events);
  }

  /** An operating call that still holds the row has the lease of its last renewal. */
  ghost predicate HoldersLease(s: Lease) {
    forall t :: t in s.calls && s.calls[t].Operating? && Holds(s.row, t) ==>
      s.row.value.leaseUntil == Some(s.calls[t].renewedAt + STALE_STEP_MS)
  }

  /** One call's event keeps the lease of whoever holds the row before and after. */
  lemma HolderLease(row: Option<StepRow>, clock: int, step: StepKey, t: nat, call: Call, e: Event)
    requires call.Operating? && Holds(row, t) ==> row.value.leaseUntil == Some(call.renewedAt + STALE_STEP_MS)
    requires call.Began? || call.Done? ==> !OwnedBy(row, t)
    ensures var (row', call') := Advance(row, clock, step, t, call, e);
      && (call'.Operating? && Holds(row', t) ==> row'.value.leaseUntil == Some(call'.renewedAt + STALE_STEP_MS))
      && (forall u :: u != t && Holds(row', u) ==> row' == row)
  {}

  lemma HoldersLeaseStep(s: Lease, step: StepKey, e: Event)
    requires Inv(s, step) && HoldersLease(s)
    ensures HoldersLease(Step(s, step, e))
  {
    if IsCallEvent(e) && !e.Begin? && e.token in s.calls {
      HolderLease(s.row, s.clock, step, e.token, s.calls[e.token], e);
    }
  }

  lemma {:induction false} HoldersLeaseRun(s: Lease, step: StepKey, events: seq<Event>)
    requires Inv(s, step) && HoldersLease(s)
    ensures Inv(Run(s, step, events), step) && HoldersLease(Run(s, step, events))
    decreases |events|
  {
    if events != [] {
      hide Step, Inv, HoldersLease;
      InvStep(s, step, events[0]);
      HoldersLeaseStep(s, step, events[0]);
      HoldersLeaseRun(Step(s, step, events[0]), step, events[1..]);
    }
  }

  /** The bound is exact, in every reachable state with an operation in progress: after any silence
      of its holder a second worker gets in beside it iff the last renewal is STALE_STEP_MS ago. */
  lemma SilenceLetsASecondWorkerIn(step: StepKey, events: seq<Event>, holder: nat, second: nat, silence: nat)
    requires var s := Run(START, step, events);
      holder in s.calls && s.calls[holder].Operating? && Holds(s.row, holder) && second !in s.calls
    ensures var s := Run(START, step, events);
      var end := Run(s, step, [Tick(silence), Begin(second), AdmitCall(second)]);
      var stale := s.clock + silence - s.calls[holder].renewedAt >= STALE_STEP_MS;
      && holder in end.calls && end.calls[holder].Operating? && second in end.calls
      && (end.calls[second].Operating? <==> stale)
      && (end.calls[second] == Done(Busy) <==> !stale)
  {
    HoldersLeaseRun(START, step, events);
    var s := Run(START, step, events);
    hide Inv;
    var s1 := Step(s, step, Tick(silence));
    var s2 := Step(s1, step, Begin(second));
    var s3 := Step(s2, step, AdmitCall(second));
    RunTwo(s1, step, Begin(second), AdmitCall(second));
    assert [Tick(silence), Begin(second), AdmitCall(second)][1..] == [Begin(second), AdmitCall(second)];
    assert Run(s, step, [Tick(silence), Begin(second), AdmitCall(second)]) ==
      Run(s1, step, [Begin(second), AdmitCall(second)]) == s3;
  }

  // ---- The sequential guard is one of the interleavings ----

  function OperationEvents(t: nat, operation: Operation): seq<Event> {
    match operation
    case Returns(result) => [OperationReturns(t, result), FinishCall(t)]
    case Throws => [OperationThrows(t), ResetCall(t)]
    case Crashes(_) => [Beat(t), Die(t)]
  }

  /** A fresh call begins and is answered by the admission. */
  lemma UninterruptedAdmission(s: Lease, step: StepKey, t: nat)
    requires t !in s.calls
    ensures var s2 := Step(Step(s, step, Begin(t)), step, AdmitCall(t));
      var (admission, row) := Admit(s.row, step, s.clock, t);
      && t in s2.calls && s2.clock == s.clock && s2.row == row
      && s2.calls[t] == match admission
           case WasTerminal(status) => Done(AlreadyTerminal(status))
           case LeaseBusy => Done(Busy)
           case Admitted => Operating(s.clock, false)
  {
    hide Heartbeat, Finish, Reset;
  }

  lemma AdmissionRow(row: Option<StepRow>, step: StepKey, clock: int, t: nat)
    ensures var (admission, after) := Admit(row, step, clock, t);
      if admission == Admitted then
        Holds(after, t) && after == Some(StepRow(Running, None, None, Some(t), Some(clock + STALE_STEP_MS)))
      else
        after == row
  {}

  /** Uninterrupted, a fresh call goes through admission, operation and finish exactly as `RunOnce` says. */
  lemma UninterruptedCallIsRunOnce(s: Lease, step: StepKey, t: nat, operation: Operation)
    requires Inv(s, step) && t !in s.calls && (operation.Crashes? ==> operation.lastBeat == Some(s.clock))
    ensures var end := Run(s, step, [Begin(t), AdmitCall(t)] + OperationEvents(t, operation));
      var (outcome, row) := RunOnce(s.row, step, s.clock, t, operation);
      && end.row == row
      && t in end.calls && end.calls[t] == (if outcome == Died then Crashed else Done(outcome))
  {
    assert !OwnedBy(s.row, t);
    hide Inv, Run, Step, Admit, Finish, Reset, Heartbeat, Advance, OwnedBy, Holds;
    var events := OperationEvents(t, operation);
    var s2 := Step(Step(s, step, Begin(t)), step, AdmitCall(t));
    RunAppend(s, step, [Begin(t), AdmitCall(t)], events);
    RunTwo(s, step, Begin(t), AdmitCall(t));
    UninterruptedAdmission(s, step, t);
    AdmissionRow(s.row, step, s.clock, t);
    OperationAdvances(s2, step, t, operation);
    UninterruptedOperation(s2.row, s.clock, step, t, s2.calls[t], operation);
  }

  /** The two events of an operation move nothing but the row and the call. */
  lemma OperationAdvances(s: Lease, step: StepKey, t: nat, operation: Operation)
    requires t in s.calls
    ensures var events := OperationEvents(t, operation);
      var (row1, call1) := Advance(s.row, s.clock, step, t, s.calls[t], events[0]);
      var (row2, call2) := Advance(row1, s.clock, step, t, call1, events[1]);
      var end := Run(s, step, events);
      end.row == row2 && t in end.calls && end.calls[t] == call2
  {
    hide Run, Advance;
    var events := OperationEvents(t, operation);
    RunTwo(s, step, events[0], events[1]);
  }

  lemma RunTwo(s: Lease, step: StepKey, first: Event, second: Event)
    ensures Run(s, step, [first, second]) == Step(Step(s, step, first), step, second)
  {
    assert [first, second][1..] == [second];
    assert Run(Step(s, step, first), step, [second]) == Step(Step(s, step, first), step, second);
  }

  /** The two events of an operation, from the state its admission left. */
  lemma UninterruptedOperation(row: Option<StepRow>, clock: int, step: StepKey, t: nat, call: Call,
      operation: Operation)
    requires call == Operating(clock, false) ==>
      Holds(row, t) && row == Some(StepRow(Running, None, None, Some(t), Some(clock + STALE_STEP_MS)))
    requires call != Operating(clock, false) ==> call.Done? && !OwnedBy(row, t)
    ensures var events := OperationEvents(t, operation);
      var (row1, call1) := Advance(row, clock, step, t, call, events[0]);
      var (row2, call2) := Advance(row1, clock, step, t, call1, events[1]);
      if call.Done? then row2 == row && call2 == call
      else match operation
        case Returns(result) => row2 == Finish(row, t, result) && call2 == Done(Executed(result))
        case Throws => row2 == Reset(row, t) && call2 == Done(Threw)
        case Crashes(_) => row2 == Heartbeat(row, clock, t) && call2 == Crashed
  {}
}
