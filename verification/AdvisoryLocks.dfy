/** The advisory locks that transactions take, in the order in which they ask for them. A lock is
    held until its transaction ends. */
module AdvisoryLocks {
  import opened WorkflowTypes
  import opened RunStatusContract
  import opened Tables

  datatype Lock =
    | RunLock(id: RunId)
    | RunCapacity
    | ActiveRuns
    | QueuedRuns
    | StepLock(key: StepGuardKey)
    | RowLock(row: string)

  datatype Transaction =
    | Admission(status: RunStatus)
    | Retry(id: RunId, from: RunStatus)
    | Cancel(id: RunId, from: RunStatus)
    | Transition(id: RunId, from: RunStatus, to: RunStatus)
    | Guard(key: StepGuardKey)
    | Claim(row: string)

  /** What the two triggers lock for one write of the status column. They fire in name order; the
      queued trigger sees what the active one left. */
  function TriggerLocks(before: Option<RunStatus>, asked: RunStatus, rejected: bool): seq<Lock> {
    var countsActive := IsActive(asked) && !(before.Some? && IsActive(before.value));
    var left := if countsActive && rejected then RejectedByCapacity else asked;
    (if countsActive then [ActiveRuns] else [])
    + (if left == Queued && before != Some(Queued) then [QueuedRuns] else [])
  }

  /** The locks a transaction asks for; `rejected` is whether the active trigger finds a rival. */
  function Locks(tx: Transaction, rejected: bool): seq<Lock> {
    match tx
    case Admission(status) => [RunCapacity] + TriggerLocks(None, status, rejected)
    case Retry(id, from) => [RunLock(id), RunCapacity] + TriggerLocks(Some(from), Queued, rejected)
    case Cancel(id, from) => [RunLock(id)] + TriggerLocks(Some(from), CancelRequested, rejected)
    case Transition(id, from, to) => [RunLock(id)] + TriggerLocks(Some(from), to, rejected)
    case Guard(key) => [StepLock(key)]
    case Claim(row) => [RowLock(row)]
  }

  lemma TriggersInFull(before: Option<RunStatus>, asked: RunStatus, rejected: bool)
    ensures TriggerLocks(before, asked, rejected) ==
      if IsUnderWay(asked) && (before == None || !IsUnderWay(before.value)) then [ActiveRuns]
      else if asked == Queued && before != Some(Queued) then [QueuedRuns]
      else []
  {}

  /** Which locks the transactions ask for, spelled out. */
  lemma LocksInFull(id: RunId, from: RunStatus, to: RunStatus, rejected: bool)
    ensures Locks(Admission(Queued), rejected) == [RunCapacity, QueuedRuns]
    ensures Locks(Admission(RejectedByCapacity), rejected) == [RunCapacity]
    ensures from in {RunStatus.Failed, RunStatus.Incomplete} ==>
      Locks(Retry(id, from), rejected) == [RunLock(id), RunCapacity, QueuedRuns]
    ensures from in {Planning, Executing, Analyzing, Reporting} ==> Locks(Cancel(id, from), rejected) == [RunLock(id)]
    ensures from == Queued ==> Locks(Cancel(id, from), rejected) == [RunLock(id), ActiveRuns]
    ensures Locks(Transition(id, from, to), rejected) ==
      if IsUnderWay(to) && !IsUnderWay(from) then [RunLock(id), ActiveRuns]
      else if to == Queued && from != Queued then [RunLock(id), QueuedRuns]
      else [RunLock(id)]
  {
    hide TriggerLocks;
    TriggersInFull(None, Queued, rejected);
    TriggersInFull(None, RejectedByCapacity, rejected);
    TriggersInFull(Some(from), Queued, rejected);
    TriggersInFull(Some(from), CancelRequested, rejected);
    TriggersInFull(Some(from), to, rejected);
  }

  /** The order in which every transaction takes its locks. */
  function Rank(lock: Lock): nat {
    match lock
    case RunLock(_) => 0
    case RunCapacity => 1
    case _ => 2
  }

  predicate Ascending(locks: seq<Lock>) {
    forall i, j :: 0 <= i < j < |locks| ==> Rank(locks[i]) < Rank(locks[j])
  }

  /** A write fires at most one of the two counting triggers, so no transaction holds both of their
      locks, and every transaction climbs the order. */
  lemma LocksAscend(tx: Transaction, rejected: bool)
    ensures Ascending(Locks(tx, rejected)) && |Locks(tx, rejected)| <= 3
  {
    hide TriggerLocks;
    match tx
    case Admission(status) => OneCountingLock(None, status, rejected);
    case Retry(_, from) => OneCountingLock(Some(from), Queued, rejected);
    case Cancel(_, from) => OneCountingLock(Some(from), CancelRequested, rejected);
    case Transition(_, from, to) => OneCountingLock(Some(from), to, rejected);
    case _ =>
  }

  lemma OneCountingLock(before: Option<RunStatus>, asked: RunStatus, rejected: bool)
    ensures var locks := TriggerLocks(before, asked, rejected);
      |locks| <= 1 && forall lock :: lock in locks ==> Rank(lock) == 2
  {}

  type TxId = nat

  /** A transaction in progress: what it asks for, and how many of those it got. */
  datatype Progress = Progress(locks: seq<Lock>, taken: nat)

  type Bench = map<TxId, Progress>

  datatype Event = Begin(id: TxId, tx: Transaction, rejected: bool) | Take(id: TxId) | End(id: TxId)

  predicate Holds(b: Bench, id: TxId, lock: Lock) {
    id in b && exists k :: 0 <= k < b[id].taken && k < |b[id].locks| && b[id].locks[k] == lock
  }

  predicate Waits(b: Bench, id: TxId, holder: TxId) {
    id in b && b[id].taken < |b[id].locks| && id != holder && Holds(b, holder, b[id].locks[b[id].taken])
  }

  ghost predicate Blocked(b: Bench, id: TxId) {
    exists holder :: Waits(b, id, holder)
  }

  /** A blocked request stays asked; a transaction may end, by commit or rollback, whenever it is
      not waiting for a lock. */
  ghost function Step(b: Bench, e: Event): Bench {
    match e
    case Begin(id, tx, rejected) => if id in b then b else b[id := Progress(Locks(tx, rejected), 0)]
    case Take(id) =>
      if id in b && b[id].taken < |b[id].locks| && !Blocked(b, id) then b[id := b[id].(taken := b[id].taken + 1)] else b
    case End(id) => if id in b && !Blocked(b, id) then b - {id} else b
  }

  ghost function Run(b: Bench, events: seq<Event>): Bench
    decreases |events|
  {
    if events == [] then b else Run(Step(b, events[0]), events[1..])
  }

  ghost predicate Exclusive(b: Bench) {
    forall x, y, lock :: Holds(b, x, lock) && Holds(b, y, lock) ==> x == y
  }

  ghost predicate Inv(b: Bench) {
    && (forall id :: id in b ==> Ascending(b[id].locks) && b[id].taken <= |b[id].locks|)
    && Exclusive(b)
  }

  lemma TakeExcludes(b: Bench, id: TxId)
    requires Inv(b) && id in b && b[id].taken < |b[id].locks| && !Blocked(b, id)
    ensures Inv(Step(b, Take(id)))
  {
    var after := Step(b, Take(id));
    var lock := b[id].locks[b[id].taken];
    forall x, l | Holds(after, x, l)
      ensures Holds(b, x, l) || (x == id && l == lock)
    {}
    forall y | y != id
      ensures !Holds(b, y, lock)
    {
      assert !Waits(b, id, y);
    }
  }

  lemma InvStep(b: Bench, e: Event)
    requires Inv(b)
    ensures Inv(Step(b, e))
  {
    match e
    case Begin(id, tx, rejected) =>
      LocksAscend(tx, rejected);
      assert forall x, lock :: Holds(Step(b, e), x, lock) ==> Holds(b, x, lock);
    case Take(id) =>
      if id in b && b[id].taken < |b[id].locks| && !Blocked(b, id) {
        TakeExcludes(b, id);
      }
    case End(id) =>
      assert forall x, lock :: Holds(Step(b, e), x, lock) ==> Holds(b, x, lock);
  }

  lemma {:induction false} InvRun(b: Bench, events: seq<Event>)
    requires Inv(b)
    ensures Inv(Run(b, events))
    decreases |events|
  {
    hide Inv, Step;
    if events != [] {
      InvStep(b, events[0]);
      InvRun(Step(b, events[0]), events[1..]);
    }
  }

  /** Two transactions never hold the same lock. */
  lemma LocksExclude(events: seq<Event>, x: TxId, y: TxId, lock: Lock)
    requires Holds(Run(map[], events), x, lock) && Holds(Run(map[], events), y, lock)
    ensures x == y
  {
    InvRun(map[], events);
  }

  // ---- No deadlock ----

  /** The rank of the lock a transaction waits for. */
  function WantedRank(b: Bench, id: TxId): nat {
    if id in b && b[id].taken < |b[id].locks| then Rank(b[id].locks[b[id].taken]) else 3
  }

  /** Whoever is waited for wants a lock further up, or none. */
  lemma WaitingClimbs(b: Bench, id: TxId, holder: TxId)
    requires Inv(b) && Waits(b, id, holder)
    ensures WantedRank(b, id) < WantedRank(b, holder)
  {
    var k :| 0 <= k < b[holder].taken && k < |b[holder].locks| && b[holder].locks[k] == b[id].locks[b[id].taken];
  }

  /** Each member of the path waits for the next one. */
  predicate WaitPath(b: Bench, path: seq<TxId>) {
    forall i :: 0 <= i < |path| - 1 ==> Waits(b, path[i], path[i + 1])
  }

  lemma {:induction false} PathClimbs(b: Bench, path: seq<TxId>)
    requires Inv(b) && WaitPath(b, path) && |path| >= 2
    ensures WantedRank(b, path[0]) < WantedRank(b, path[|path| - 1])
    decreases |path|
  {
    WaitingClimbs(b, path[0], path[1]);
    if |path| > 2 {
      var rest := path[1..];
      forall i | 0 <= i < |rest| - 1
        ensures Waits(b, rest[i], rest[i + 1])
      {
        assert Waits(b, path[i + 1], path[i + 1 + 1]);
      }
      PathClimbs(b, rest);
    }
  }

  /** The wait-for relation has no cycle, whatever transactions run and however they interleave. */
  lemma NoWaitCycle(events: seq<Event>, path: seq<TxId>)
    requires |path| >= 2 && WaitPath(Run(map[], events), path)
    ensures path[0] != path[|path| - 1]
  {
    InvRun(map[], events);
    PathClimbs(Run(map[], events), path);
  }

  /** Follow the waiting from here to a transaction that is not blocked. */
  lemma {:induction false} SomeoneCanGoOn(b: Bench, id: TxId) returns (free: TxId)
    requires Inv(b) && id in b
    ensures free in b && !Blocked(b, free)
    decreases 3 - WantedRank(b, id)
  {
    if Blocked(b, id) {
      var holder :| Waits(b, id, holder);
      WaitingClimbs(b, id, holder);
      free := SomeoneCanGoOn(b, holder);
    } else {
      free := id;
    }
  }

  function Remaining(p: Progress): nat {
    if p.taken <= |p.locks| then |p.locks| - p.taken else 0
  }

  lemma TakingClimbs(b: Bench, id: TxId)
    requires Inv(b) && id in b && b[id].taken < |b[id].locks| && !Blocked(b, id)
    ensures var after := Step(b, Take(id));
      && id in after && WantedRank(b, id) <= WantedRank(after, id) && Remaining(after[id]) < Remaining(b[id])
        && after.Keys == b.Keys
  {}

  /** A transaction that takes what it still needs, unhindered, and ends: only the others matter. */
  lemma {:induction false} Drain(b: Bench, id: TxId) returns (events: seq<Event>)
    requires Inv(b) && id in b
    ensures forall e :: e in events ==> e.Take? || e.End?
    ensures Inv(Run(b, events)) && Run(b, events).Keys < b.Keys
    decreases |b.Keys|, 3 - WantedRank(b, id), Remaining(b[id])
  {
    if Blocked(b, id) {
      var holder :| Waits(b, id, holder);
      WaitingClimbs(b, id, holder);
      hide Inv;
      events := Drain(b, holder);
    } else {
      var e := if b[id].taken < |b[id].locks| then Take(id) else End(id);
      InvStep(b, e);
      var after := Step(b, e);
      if e.Take? {
        TakingClimbs(b, id);
        hide Inv, Blocked, Waits, WantedRank;
        var rest := Drain(after, id);
        events := [e] + rest;
      } else {
        events := [e];
        assert id in b.Keys && id !in after.Keys;
      }
      assert events[0] == e;
      assert Run(b, events) == Run(after, events[1..]);
    }
  }

  /** From every reachable state all the transactions can come to their end: nothing is ever stuck. */
  lemma {:induction false} EveryTransactionCanEnd(events: seq<Event>) returns (more: seq<Event>)
    ensures forall e :: e in more ==> e.Take? || e.End?
    ensures Run(Run(map[], events), more) == map[]
  {
    InvRun(map[], events);
    more := DrainAll(Run(map[], events));
  }

  lemma {:induction false} DrainAll(b: Bench) returns (events: seq<Event>)
    requires Inv(b)
    ensures forall e :: e in events ==> e.Take? || e.End?
    ensures Run(b, events) == map[]
    decreases |b.Keys|
  {
    if b == map[] {
      events := [];
    } else {
      var id :| id in b;
      var first := Drain(b, id);
      SmallerSet(Run(b, first).Keys, b.Keys);
      var rest := DrainAll(Run(b, first));
      RunConcat(b, first, rest);
      events := first + rest;
    }
  }

  lemma SmallerSet<T>(a: set<T>, b: set<T>)
    requires a < b
    ensures |a| < |b|
  {
    assert b == a + (b - a);
  }

  lemma {:induction false} RunConcat(b: Bench, first: seq<Event>, rest: seq<Event>)
    ensures Run(b, first + rest) == Run(Run(b, first), rest)
    decreases |first|
  {
    if first == [] {
      assert first + rest == rest;
    } else {
      assert (first + rest)[1..] == first[1..] + rest;
      RunConcat(Step(b, first[0]), first[1..], rest);
    }
  }
}
