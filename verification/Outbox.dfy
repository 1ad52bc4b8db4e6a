/** The workflow outbox: rows are claimed under a lease, dispatched, and marked; cancellation and
    retention arm them again. The row functions are the single updates; module OutboxProtocol
    interleaves them. */
module Outbox {
  import opened WorkflowTypes
  import opened RunStatusContract
  import opened Tables
  import opened Api

  const LEASE_MS: int := 30000
  const RETRY_DELAY_MS: int := 5000
  const MAX_BATCH: nat := 10
  const MAX_CLEANUP_RETRIES: nat := 3

  /** The claim transaction takes a row that is unpublished, available and not leased. */
  predicate Claimable(row: OutboxRow, now: int) {
    row.status != OutboxPublished && row.availableAt <= now && !(row.leaseUntil.Some? && row.leaseUntil.value >= now)
  }

  function Claim(row: OutboxRow, now: int): OutboxRow {
    row.(attempts := row.attempts + 1, leaseUntil := Some(now + LEASE_MS))
  }

  /** Marking and failing find the row by the lease timestamp of the claim. */
  function MarkPublished(row: OutboxRow, lease: int): OutboxRow {
    if row.leaseUntil == Some(lease) then row.(status := OutboxPublished, leaseUntil := None) else row
  }

  function MarkFailed(row: OutboxRow, lease: int, now: int): OutboxRow {
    if row.leaseUntil == Some(lease) then
      row.(status := OutboxFailed, availableAt := now + RETRY_DELAY_MS, leaseUntil := None)
    else
      row
  }

  /** What every re-arm sets. */
  function Armed(row: OutboxRow, now: int): OutboxRow {
    row.(status := OutboxPending, availableAt := now, leaseUntil := None)
  }

  /** Retention arms only a row that has been through a publisher, and only so often. */
  predicate RetentionArms(row: OutboxRow) {
    row.attempts < MAX_CLEANUP_RETRIES && row.status in {OutboxFailed, OutboxPublished}
  }

  /** A whole `publish` of one row that nothing interrupts: claim, dispatch, mark or fail. */
  function Publish(row: OutboxRow, now: int, dispatchFails: bool): OutboxRow {
    if !Claimable(row, now) then row
    else if row.payload == None || dispatchFails then MarkFailed(Claim(row, now), now + LEASE_MS, now)
    else MarkPublished(Claim(row, now), now + LEASE_MS)
  }

  /** The rows that `poll` selects from. */
  predicate Due(row: OutboxRow, now: int) {
    row.status in {OutboxPending, OutboxFailed} && row.availableAt <= now
      && (row.leaseUntil == None || row.leaseUntil.value < now)
  }

  /** A row that a publication takes: not published, due, and under no lease. */
  predicate Waiting(row: OutboxRow, now: int) {
    && row.status in {OutboxPending, OutboxFailed} && row.availableAt <= now
    && (row.leaseUntil.Some? ==> row.leaseUntil.value < now)
  }

  /** The row after a publication took it: published if its job went out, otherwise failed and due
      again in five seconds. */
  function AfterPublication(row: OutboxRow, now: int, out: bool): OutboxRow {
    if out then OutboxRow(OutboxPublished, row.availableAt, row.attempts + 1, None, row.payload)
    else OutboxRow(OutboxFailed, now + 5000, row.attempts + 1, None, row.payload)
  }

  /** The job that goes out for a row, if any. */
  function JobOut(outbox: Outbox, key: OutboxKey, fails: OutboxKey -> bool): seq<Job> {
    if key in outbox && outbox[key].payload.Some? && !fails(key) then [outbox[key].payload.value] else []
  }

  /** The jobs that go out for these rows, in their order. */
  function JobsOut(outbox: Outbox, batch: seq<OutboxKey>, fails: OutboxKey -> bool): seq<Job> {
    if batch == [] then []
    else JobsOut(outbox, batch[..|batch| - 1], fails) + JobOut(outbox, batch[|batch| - 1], fails)
  }

  lemma OneJobMore(outbox: Outbox, batch: seq<OutboxKey>, key: OutboxKey, fails: OutboxKey -> bool)
    ensures JobsOut(outbox, batch + [key], fails) == JobsOut(outbox, batch, fails) + JobOut(outbox, key, fails)
  {
    assert (batch + [key])[..|batch|] == batch;
  }

  /** These due rows were published, each once, and no other row has changed. */
  ghost predicate Polled(before: Outbox, after: Outbox, batch: seq<OutboxKey>, now: int, fails: OutboxKey -> bool) {
    && after.Keys == before.Keys
    && (forall i, j :: 0 <= i < j < |batch| ==> batch[i] != batch[j])
    && (forall key :: key in batch ==> key in before && Due(before[key], now))
    && (forall key :: key in before ==>
          after[key] == if key in batch then Publish(before[key], now, fails(key)) else before[key])
  }

  lemma PolledOneMore(before: Outbox, middle: Outbox, batch: seq<OutboxKey>, key: OutboxKey, now: int,
      fails: OutboxKey -> bool)
    requires Polled(before, middle, batch, now, fails) && key in before && Due(before[key], now) && key !in batch
    ensures key in middle
    ensures Polled(before, middle[key := Publish(middle[key], now, fails(key))], batch + [key], now, fails)
  {
    hide Due, Publish;
  }

  lemma PolledInFull(before: Outbox, after: Outbox, batch: seq<OutboxKey>, now: int, fails: OutboxKey -> bool)
    requires Polled(before, after, batch, now, fails)
    ensures after.Keys == before.Keys && forall i, j :: 0 <= i < j < |batch| ==> batch[i] != batch[j]
    ensures forall key :: key in before ==>
      after[key] == if key in batch then Publish(before[key], now, fails(key)) else before[key]
    ensures forall key :: key in batch ==>
      && key in before && key in after && Waiting(before[key], now)
      && after[key] == AfterPublication(before[key], now, before[key].payload.Some? && !fails(key))
  {
    hide Due, Publish, Waiting, AfterPublication, Claimable;
    forall key | key in batch
      ensures key in before && key in after && Waiting(before[key], now)
      ensures after[key] == AfterPublication(before[key], now, before[key].payload.Some? && !fails(key))
    {
      PublishInFull(before[key], now, fails(key));
    }
  }

  predicate DueBatch(outbox: Outbox, batch: seq<OutboxKey>, now: int) {
    && (forall i, j :: 0 <= i < j < |batch| ==> batch[i] != batch[j])
    && (forall key :: key in batch ==> key in outbox && Due(outbox[key], now))
  }

  /** Publications one after the other: the rows, and the jobs that went out. */
  function PublishAll(outbox: Outbox, batch: seq<OutboxKey>, now: int, fails: OutboxKey -> bool): (Outbox, seq<Job>) {
    if batch == [] then (outbox, [])
    else
      var (before, sent) := PublishAll(outbox, batch[..|batch| - 1], now, fails);
      var key := batch[|batch| - 1];
      if key !in before then (before, sent)
      else
        (before[key := Publish(before[key], now, fails(key))],
          sent + if Waiting(before[key], now) then JobOut(before, key, fails) else [])
  }

  lemma PublishOneMore(outbox: Outbox, batch: seq<OutboxKey>, key: OutboxKey, now: int, fails: OutboxKey -> bool)
    ensures var (before, sent) := PublishAll(outbox, batch, now, fails);
      PublishAll(outbox, batch + [key], now, fails) ==
        if key !in before then (before, sent)
        else
          (before[key := Publish(before[key], now, fails(key))],
            sent + if Waiting(before[key], now) then JobOut(before, key, fails) else [])
  {
    assert (batch + [key])[..|batch|] == batch;
  }

  lemma {:induction false} PublishAllIsPolled(outbox: Outbox, batch: seq<OutboxKey>, now: int,
      fails: OutboxKey -> bool)
    requires DueBatch(outbox, batch, now)
    ensures Polled(outbox, PublishAll(outbox, batch, now, fails).0, batch, now, fails)
    ensures PublishAll(outbox, batch, now, fails).1 == JobsOut(outbox, batch, fails)
    decreases |batch|
  {
    if batch != [] {
      var front, key := batch[..|batch| - 1], batch[|batch| - 1];
      assert batch == front + [key] && key !in front;
      PublishAllIsPolled(outbox, front, now, fails);
      var before := PublishAll(outbox, front, now, fails).0;
      assert before[key] == outbox[key];
      hide Publish, Due, Waiting, Claimable, AfterPublication, DueBatch;
      PublishInFull(outbox[key], now, fails(key));
      PolledOneMore(outbox, before, front, key, now, fails);
      OneJobMore(outbox, front, key, fails);
    }
  }

  lemma PublishInFull(row: OutboxRow, now: int, fails: bool)
    ensures Waiting(row, now) <==> Due(row, now)
    ensures Waiting(row, now) <==> Claimable(row, now)
    ensures Publish(row, now, fails) ==
      if Waiting(row, now) then AfterPublication(row, now, row.payload.Some? && !fails) else row
  {}

  class OutboxPublisher {
    const db: Database
    var sent: seq<Job>

    constructor (db: Database)
      ensures this.db == db && sent == []
    {
      this.db := db;
      sent := [];
    }

    method PublishRow(key: OutboxKey, now: int, dispatchFails: bool)
      modifies db`outbox, this`sent
      ensures key !in old(db.outbox) ==> db.outbox == old(db.outbox) && sent == old(sent)
      ensures key in old(db.outbox) ==>
        db.outbox == old(db.outbox)[key := Publish(old(db.outbox)[key], now, dispatchFails)]
      ensures key in old(db.outbox) ==>
        var row := old(db.outbox)[key];
        sent ==
          if Claimable(row, now) && row.payload.Some? && !dispatchFails
          then old(sent) + [row.payload.value] else old(sent)
      // The same, spelled out.
      ensures key in old(db.outbox) && !Waiting(old(db.outbox)[key], now) ==>
        db.outbox == old(db.outbox) && sent == old(sent)
      ensures key in old(db.outbox) && Waiting(old(db.outbox)[key], now) ==>
        var row := old(db.outbox)[key];
        var out := row.payload.Some? && !dispatchFails;
        && db.outbox == old(db.outbox)[key := AfterPublication(row, now, out)]
        && sent == if out then old(sent) + [row.payload.value] else old(sent)
    {
      if key !in db.outbox {
        return;
      }
      var row := db.outbox[key];
      if row.status == OutboxPublished || row.availableAt > now
        || (row.leaseUntil.Some? && row.leaseUntil.value >= now) {
        assert db.outbox == db.outbox[key := row];
        return;
      }
      var leaseUntil := now + LEASE_MS;
      db.outbox := db.outbox[key := row.(attempts := row.attempts + 1, leaseUntil := Some(leaseUntil))];
      if row.payload == None || dispatchFails {
        db.outbox := db.outbox[key := MarkFailed(db.outbox[key], leaseUntil, now)];
      } else {
        sent := sent + [row.payload.value];
        db.outbox := db.outbox[key := MarkPublished(db.outbox[key], leaseUntil)];
      }
    }

    /** Select at most MAX_BATCH of the due rows. */
    method SelectDue(now: int) returns (batch: seq<OutboxKey>)
      ensures |batch| <= MAX_BATCH && forall i, j :: 0 <= i < j < |batch| ==> batch[i] != batch[j]
      ensures forall key :: key in batch ==> key in db.outbox && Due(db.outbox[key], now)
      ensures forall key :: key in batch ==> Waiting(db.outbox[key], now)
      ensures |batch| < MAX_BATCH ==>
        forall key :: key in db.outbox && Waiting(db.outbox[key], now) ==> key in batch
      ensures forall key :: key in db.outbox ==> (Waiting(db.outbox[key], now) <==> Due(db.outbox[key], now))
    {
      var due := set key | key in db.outbox && Due(db.outbox[key], now);
      ghost var all := due;
      hide Waiting, Due;
      batch := [];
      while due != {} && |batch| < MAX_BATCH
        invariant |batch| <= MAX_BATCH && forall i, j :: 0 <= i < j < |batch| ==> batch[i] != batch[j]
        invariant due <= all && forall key :: key in all ==> (key in due <==> key !in batch)
        invariant forall key :: key in batch ==> key in all
        decreases |due|
      {
        var key :| key in due;
        batch := batch + [key];
        due := due - {key};
      }
      forall key | key in db.outbox
        ensures Waiting(db.outbox[key], now) <==> key in all
        ensures Waiting(db.outbox[key], now) <==> Due(db.outbox[key], now)
      {
        PublishInFull(db.outbox[key], now, false);
      }
    }

    /** The rows of a batch, one after the other. */
    method PublishBatch(batch: seq<OutboxKey>, now: int, fails: OutboxKey -> bool)
      modifies db`outbox, this`sent
      ensures db.outbox == PublishAll(old(db.outbox), batch, now, fails).0
      ensures sent == old(sent) + PublishAll(old(db.outbox), batch, now, fails).1
    {
      ghost var before := db.outbox;
      assert batch[..0] == [] && PublishAll(before, [], now, fails) == (before, []);
      hide PublishAll, Publish, Waiting, AfterPublication, Claimable;
      for i := 0 to |batch|
        invariant db.outbox == PublishAll(before, batch[..i], now, fails).0
        invariant sent == old(sent) + PublishAll(before, batch[..i], now, fails).1
      {
        assert batch[..i + 1] == batch[..i] + [batch[i]];
        PublishOneMore(before, batch[..i], batch[i], now, fails);
        PublishRow(batch[i], now, fails(batch[i]));
      }
      assert batch[..|batch|] == batch;
    }

    /** Pick at most MAX_BATCH due rows and publish each; other rows stay as they are. */
    method Poll(now: int, fails: OutboxKey -> bool) returns (batch: seq<OutboxKey>)
      modifies db`outbox, this`sent
      ensures |batch| <= MAX_BATCH
      ensures forall key :: key in batch ==> key in old(db.outbox) && Due(old(db.outbox)[key], now)
      ensures |batch| < MAX_BATCH ==>
        forall key :: key in old(db.outbox) && Due(old(db.outbox)[key], now) ==> key in batch
      ensures db.outbox.Keys == old(db.outbox).Keys
      ensures forall key :: key in old(db.outbox) ==>
        db.outbox[key] == if key in batch then Publish(old(db.outbox)[key], now, fails(key)) else old(db.outbox)[key]
      // The same, spelled out.
      ensures |batch| <= 10 && forall i, j :: 0 <= i < j < |batch| ==> batch[i] != batch[j]
      ensures forall key :: key in batch ==> key in old(db.outbox) && Waiting(old(db.outbox)[key], now)
      ensures |batch| < 10 ==>
        forall key :: key in old(db.outbox) && Waiting(old(db.outbox)[key], now) ==> key in batch
      ensures forall key :: key in batch ==>
        var row := old(db.outbox)[key];
        db.outbox[key] == AfterPublication(row, now, row.payload.Some? && !fails(key))
      ensures sent == old(sent) + JobsOut(old(db.outbox), batch, fails)
    {
      ghost var before := db.outbox;
      batch := SelectDue(now);
      hide Publish, AfterPublication, Due, Claimable, Waiting, JobsOut, Polled;
      PublishBatch(batch, now, fails);
      PublishAllIsPolled(before, batch, now, fails);
      PolledInFull(before, db.outbox, batch, now, fails);
    }
  }

  const MAX_SWEEP: nat := 100

  /** Finished runs whose cleanup was never scheduled, or failed. */
  predicate Candidate(row: RunRow) {
    IsTerminal(row.status) && row.cleanupStatus in {NotScheduled, CleanupFailed}
  }

  /** The run is over, and its cleanup was never asked for, or failed. */
  predicate NeedsCleanup(row: RunRow) {
    && row.status in
         {RunStatus.Passed, RunStatus.Failed, RunStatus.Incomplete, RunStatus.Cancelled, RejectedByCapacity}
    && (row.cleanupStatus == NotScheduled || row.cleanupStatus == CleanupFailed)
  }

  lemma CandidatesNeedCleanup(runs: Runs)
    ensures forall id :: id in runs ==> (Candidate(runs[id]) <==> NeedsCleanup(runs[id]))
  {}

  function CleanupKey(runs: Runs, id: RunId): OutboxKey
    requires id in runs
  {
    OutboxKey(id, Cleanup, runs[id].currentAttempt)
  }

  /** Whether the sweep inserts the cleanup row, or arms it again. */
  predicate SweepArms(outbox: Outbox, key: OutboxKey) {
    key !in outbox || RetentionArms(outbox[key])
  }

  /** The runs of a batch whose cleanup row the sweep inserts or arms. */
  function ArmedOf(outbox: Outbox, runs: Runs, batch: set<RunId>): set<RunId> {
    set id | id in batch && id in runs && SweepArms(outbox, CleanupKey(runs, id))
  }

  function CleanupRow(outbox: Outbox, runs: Runs, id: RunId, now: int): OutboxRow
    requires id in runs
  {
    var key := CleanupKey(runs, id);
    if key in outbox then Armed(outbox[key], now)
    else OutboxRow(OutboxPending, now, 0, None, Some(Job(id, runs[id].currentAttempt, runs[id].headSha, Cleanup)))
  }

  /** The cleanup rows of these runs were inserted or armed, and no other row changed. */
  ghost predicate Swept(before: Outbox, after: Outbox, runs: Runs, ids: set<RunId>, now: int) {
    && (forall id :: id in ids && id in runs ==>
      CleanupKey(runs, id) in after && after[CleanupKey(runs, id)] == CleanupRow(before, runs, id, now))
    && (forall key: OutboxKey :: !(key.runId in ids && key.runId in runs && key == CleanupKey(runs, key.runId)) ==>
          (key in after <==> key in before) && (key in after ==> after[key] == before[key]))
  }

  lemma SweptOneMore(before: Outbox, middle: Outbox, runs: Runs, ids: set<RunId>, id: RunId, now: int)
    requires id in runs && id !in ids && Swept(before, middle, runs, ids, now)
    ensures Swept(before, middle[CleanupKey(runs, id) := CleanupRow(before, runs, id, now)], runs, ids + {id}, now)
    ensures SweepArms(middle, CleanupKey(runs, id)) == SweepArms(before, CleanupKey(runs, id))
    ensures CleanupRow(middle, runs, id, now) == CleanupRow(before, runs, id, now)
  {}

  lemma ArmedOneMore(outbox: Outbox, runs: Runs, batch: set<RunId>, id: RunId)
    requires id in runs && id !in batch
    ensures ArmedOf(outbox, runs, batch + {id}) ==
      ArmedOf(outbox, runs, batch) + if SweepArms(outbox, CleanupKey(runs, id)) then {id} else {}
    ensures id !in ArmedOf(outbox, runs, batch)
    ensures |ArmedOf(outbox, runs, batch + {id})| ==
      |ArmedOf(outbox, runs, batch)| + if SweepArms(outbox, CleanupKey(runs, id)) then 1 else 0
  {
    hide SweepArms;
  }

  class Retention {
    const db: Database

    constructor (db: Database)
      ensures this.db == db
    {
      this.db := db;
    }

    method ArmCleanup(id: RunId, attempt: nat, headSha: string, now: int) returns (armed: bool)
      modifies db`outbox
      // At most three attempts, and never a row that is still pending.
      ensures var key := OutboxKey(id, Cleanup, attempt);
        && (armed <==> key in old(db.outbox) ==>
              old(db.outbox)[key].attempts < 3 && old(db.outbox)[key].status in {OutboxFailed, OutboxPublished})
        && (if armed then CleanupArmed(old(db.outbox), db.outbox, Job(id, attempt, headSha, Cleanup), now)
            else db.outbox == old(db.outbox))
      ensures var key := OutboxKey(id, Cleanup, attempt);
        && armed == SweepArms(old(db.outbox), key)
        && (key in old(db.outbox) ==>
          db.outbox == if armed then old(db.outbox)[key := Armed(old(db.outbox)[key], now)] else old(db.outbox))
        && (key !in old(db.outbox) ==>
              db.outbox ==
                old(db.outbox)[key := OutboxRow(OutboxPending, now, 0, None, Some(Job(id, attempt, headSha, Cleanup)))])
    {
      var key := OutboxKey(id, Cleanup, attempt);
      var attempts := if key in db.outbox then db.outbox[key].attempts else 0;
      if attempts >= MAX_CLEANUP_RETRIES {
        return false;
      }
      if key !in db.outbox {
        db.outbox := db.outbox[key := OutboxRow(OutboxPending, now, 0, None, Some(Job(id, attempt, headSha, Cleanup)))];
        return true;
      }
      if db.outbox[key].status !in {OutboxFailed, OutboxPublished} {
        return false;
      }
      db.outbox := db.outbox[key := Armed(db.outbox[key], now)];
      return true;
    }

    method SweepRun(id: RunId, now: int, ghost before: Outbox, ghost ids: set<RunId>) returns (armed: bool)
      requires id in db.runs && id !in ids && Swept(before, db.outbox, db.runs, ids, now)
      modifies db`outbox
      ensures armed == SweepArms(before, CleanupKey(db.runs, id))
      ensures Swept(before, db.outbox, db.runs, if armed then ids + {id} else ids, now)
      ensures db.runs == old(db.runs)
    {
      hide Swept, RetentionArms;
      SweptOneMore(before, db.outbox, db.runs, ids, id, now);
      var run := db.runs[id];
      armed := ArmCleanup(id, run.currentAttempt, run.headSha, now);
    }

    /** One sweep over at most MAX_SWEEP candidates; `expired` stands for the time columns. It counts
        the rows it inserted or armed, and changes no other row. */
    method QueueExpiredCleanup(now: int, expired: RunId -> bool) returns (queued: nat, batch: set<RunId>)
      modifies db`outbox
      ensures |batch| <= 100
      ensures forall id :: id in batch ==> id in db.runs && NeedsCleanup(db.runs[id]) && expired(id)
      ensures |batch| < 100 ==>
        forall id :: id in db.runs && NeedsCleanup(db.runs[id]) && expired(id) ==> id in batch
      ensures queued == |ArmedOf(old(db.outbox), db.runs, batch)|
      ensures Swept(old(db.outbox), db.outbox, db.runs, ArmedOf(old(db.outbox), db.runs, batch), now)
    {
      ghost var before := db.outbox;
      var candidates := set id | id in db.runs && Candidate(db.runs[id]) && expired(id);
      queued, batch := 0, {};
      assert ArmedOf(before, db.runs, batch) == {};
      assert Swept(before, db.outbox, db.runs, {}, now);
      hide Swept, Candidate, SweepArms, ArmedOf, NeedsCleanup;
      while candidates != {} && |batch| < MAX_SWEEP
        invariant |batch| <= MAX_SWEEP && batch !! candidates
        invariant forall id :: id in batch || id in candidates <==>
          id in db.runs && Candidate(db.runs[id]) && expired(id)
        invariant queued == |ArmedOf(before, db.runs, batch)|
        invariant Swept(before, db.outbox, db.runs, ArmedOf(before, db.runs, batch), now)
        decreases |candidates|
      {
        var id :| id in candidates;
        ArmedOneMore(before, db.runs, batch, id);
        var armed := SweepRun(id, now, before, ArmedOf(before, db.runs, batch));
        candidates, batch := candidates - {id}, batch + {id};
        if armed {
          queued := queued + 1;
        }
      }
      CandidatesNeedCleanup(db.runs);
    }
  }
}

/** Any number of publishers, cancellations and retention sweeps on one outbox row, interleaved. */
module OutboxProtocol {
  import opened WorkflowTypes
  import opened Tables
  import opened Api
  import opened Outbox

  /** A publisher between its claim and its last update; `epoch` counts the arms before its claim. */
  datatype Publisher =
    | Claimed(lease: int, epoch: nat)
    | Sent(lease: int, epoch: nat)
    | SendFailed(lease: int)
    | Gone

  datatype ClaimNote = ClaimNote(at: int, epoch: nat)

  /** History beside the row: how often it was armed, in which epochs a claim of that epoch was
      dispatched, the latest claim, and how often retention armed it. */
  datatype Bench = Bench(
    row: Option<OutboxRow>,
    clock: int,
    publishers: map<nat, Publisher>,
    epoch: nat,
    dispatched: set<nat>,
    lastClaim: Option<ClaimNote>,
    retentionArms: nat)

  datatype Event =
    | Tick(elapsed: nat)
    | CancelArms(payload: Option<Job>)
    | RetentionSweeps(payload: Option<Job>)
    | TryClaim(publisher: nat)
    | Dispatch(publisher: nat, fails: bool)
    | Mark(publisher: nat)
    | Fail(publisher: nat)
    | Die(publisher: nat)

  const START := Bench(None, 0, map[], 0, {}, None, 0)

  function Insert(clock: int, payload: Option<Job>): OutboxRow {
    OutboxRow(OutboxPending, clock, 0, None, payload)
  }

  predicate Claims(s: Bench, e: Event) {
    e.TryClaim? && e.publisher !in s.publishers && s.row.Some? && Claimable(s.row.value, s.clock)
  }

  function Step(s: Bench, e: Event): Bench {
    match e
    case Tick(elapsed) => s.(clock := s.clock + elapsed)
    case CancelArms(payload) =>
      s.(row := Some(if s.row.Some? then Armed(s.row.value, s.clock) else Insert(s.clock, payload)),
        epoch := s.epoch + 1)
    case RetentionSweeps(payload) =>
      if s.row == None then
        s.(row := Some(Insert(s.clock, payload)), epoch := s.epoch + 1, retentionArms := s.retentionArms + 1)
      else if RetentionArms(s.row.value) then
        s.(row := Some(Armed(s.row.value, s.clock)), epoch := s.epoch + 1, retentionArms := s.retentionArms + 1)
      else s
    case TryClaim(p) =>
      if !Claims(s, e) then s
      else
        s.(row := Some(Claim(s.row.value, s.clock)),
           publishers := s.publishers[p :=
             if s.row.value.payload.Some? then Claimed(s.clock + LEASE_MS, s.epoch)
             else SendFailed(s.clock + LEASE_MS)],
           lastClaim := Some(ClaimNote(s.clock, s.epoch)))
    case _ =>
      if e.publisher in s.publishers && s.row.Some?
      then PublisherStep(s, e, s.publishers[e.publisher], s.row.value) else s
  }

  function PublisherStep(s: Bench, e: Event, publisher: Publisher, row: OutboxRow): Bench
    requires e.Dispatch? || e.Mark? || e.Fail? || e.Die?
  {
    match (e, publisher)
    case (Dispatch(p, fails), Claimed(lease, epoch)) =>
      if fails then s.(publishers := s.publishers[p := SendFailed(lease)])
      else s.(publishers := s.publishers[p := Sent(lease, epoch)], dispatched := s.dispatched + {epoch})
    case (Mark(p), Sent(lease, _)) => s.(row := Some(MarkPublished(row, lease)), publishers := s.publishers[p := Gone])
    case (Fail(p), SendFailed(lease)) =>
      s.(row := Some(MarkFailed(row, lease, s.clock)), publishers := s.publishers[p := Gone])
    case (Fail(p), Sent(lease, _)) =>
      s.(row := Some(MarkFailed(row, lease, s.clock)), publishers := s.publishers[p := Gone])
    case (Die(p), _) => s.(publishers := s.publishers[p := Gone])
    case _ => s
  }

  function Run(s: Bench, events: seq<Event>): Bench
    decreases |events|
  {
    if events == [] then s else Run(Step(s, events[0]), events[1..])
  }

  // ---- The transactions of the program are events of the protocol ----

  /** A publication that nothing interrupts is a claim, a dispatch, and a mark or a failure. */
  lemma PublicationIsARun(s: Bench, p: nat, fails: bool)
    requires s.row.Some? && p !in s.publishers
    ensures var row := s.row.value;
      var out := row.payload.Some? && !fails;
      var end := Run(s, [TryClaim(p), Dispatch(p, fails), if out then Mark(p) else Fail(p)]);
      && end.row == Some(Publish(row, s.clock, fails))
      && end.row == Some(if Waiting(row, s.clock) then AfterPublication(row, s.clock, out) else row)
      && (Waiting(row, s.clock) && out ==> s.epoch in end.dispatched)
      && (NoLostWakeup(s) ==> NoLostWakeup(end))
  {
    var out := s.row.value.payload.Some? && !fails;
    RunThree(s, TryClaim(p), Dispatch(p, fails), if out then Mark(p) else Fail(p));
  }

  lemma RunThree(s: Bench, a: Event, b: Event, c: Event)
    ensures Run(s, [a, b, c]) == Step(Step(Step(s, a), b), c)
  {
    hide Step;
    assert [a, b, c][1..] == [b, c] && [b, c][1..] == [c] && [c][1..] == [];
    assert Run(s, [a, b, c]) == Run(Step(s, a), [b, c]) == Run(Step(Step(s, a), b), [c]);
    assert Run(Step(Step(Step(s, a), b), c), []) == Step(Step(Step(s, a), b), c);
  }

  function RowIn(outbox: map<OutboxKey, OutboxRow>, job: Job): Option<OutboxRow> {
    var key := OutboxKey(job.runId, job.stepKey, job.attempt);
    if key in outbox then Some(outbox[key]) else None
  }

  /** What an accepted cancellation leaves of the cleanup row is what `CancelArms` makes of it. */
  lemma CancellationIsCancelArms(s: Bench, before: map<OutboxKey, OutboxRow>, after: map<OutboxKey, OutboxRow>,
      job: Job)
    requires CleanupArmed(before, after, job, s.clock) && s.row == RowIn(before, job)
    ensures Step(s, CancelArms(Some(job))).row == RowIn(after, job)
  {}

  // ---- No lost wake-up ----

  /** A published row was dispatched under a claim made after the latest arm. */
  predicate NoLostWakeup(s: Bench) {
    s.row.Some? && s.row.value.status == OutboxPublished ==> s.epoch in s.dispatched
  }

  /** Every claim comes at a later instant than the claim before it. */
  ghost predicate ClaimsAtDistinctInstants(s: Bench, events: seq<Event>)
    decreases |events|
  {
    events != [] ==>
      && (Claims(s, events[0]) && s.lastClaim.Some? ==> s.lastClaim.value.at < s.clock)
      && ClaimsAtDistinctInstants(Step(s, events[0]), events[1..])
  }

  predicate HasLease(p: Publisher) {
    !p.Gone?
  }

  predicate HoldsLatestClaim(s: Bench, p: Publisher) {
    (p.Claimed? || p.Sent?) && s.lastClaim.Some? && p.lease == s.lastClaim.value.at + LEASE_MS
  }

  ghost predicate Inv(s: Bench) {
    && NoLostWakeup(s)
    // a leased row carries the lease of the latest claim, and no arm came after it
    && (s.row.Some? && s.row.value.leaseUntil.Some? ==>
          s.lastClaim.Some? && s.row.value.leaseUntil.value == s.lastClaim.value.at + LEASE_MS
            && s.lastClaim.value.epoch == s.epoch)
    // leases are no newer than the latest claim, and only the latest claim has its lease
    && (forall p :: p in s.publishers && HasLease(s.publishers[p]) ==>
          s.lastClaim.Some? && s.publishers[p].lease <= s.lastClaim.value.at + LEASE_MS)
    && (forall p :: p in s.publishers && HoldsLatestClaim(s, s.publishers[p]) ==>
      s.publishers[p].epoch == s.lastClaim.value.epoch)
    && (forall p :: p in s.publishers && s.publishers[p].Sent? ==> s.publishers[p].epoch in s.dispatched)
    && (s.lastClaim.Some? ==> s.lastClaim.value.at <= s.clock)
    && (s.row == None ==> s.publishers == map[])
  }

  lemma InvStep(s: Bench, e: Event)
    requires Inv(s) && (Claims(s, e) && s.lastClaim.Some? ==> s.lastClaim.value.at < s.clock)
    ensures Inv(Step(s, e))
  {
    match e
    case Tick(_) => ArmKeepsInv(s, e);
    case CancelArms(_) => ArmKeepsInv(s, e);
    case RetentionSweeps(_) => ArmKeepsInv(s, e);
    case TryClaim(_) => ClaimKeepsInv(s, e);
    case _ => PublisherKeepsInv(s, e);
  }

  lemma ArmKeepsInv(s: Bench, e: Event)
    requires Inv(s) && (e.Tick? || e.CancelArms? || e.RetentionSweeps?)
    ensures Inv(Step(s, e))
  {}

  lemma ClaimKeepsInv(s: Bench, e: Event)
    requires Inv(s) && e.TryClaim? && (Claims(s, e) && s.lastClaim.Some? ==> s.lastClaim.value.at < s.clock)
    ensures Inv(Step(s, e))
  {}

  lemma PublisherKeepsInv(s: Bench, e: Event)
    requires Inv(s) && (e.Dispatch? || e.Mark? || e.Fail? || e.Die?)
    ensures Inv(Step(s, e))
  {}

  lemma {:induction false} InvRun(s: Bench, events: seq<Event>)
    requires Inv(s) && ClaimsAtDistinctInstants(s, events)
    ensures Inv(Run(s, events))
    decreases |events|
  {
    if events != [] {
      InvStep(s, events[0]);
      InvRun(Step(s, events[0]), events[1..]);
    }
  }

  /** No wake-up is lost, however publishers, cancellations and sweeps interleave, as long as two
      claims of the row never fall on the same instant. */
  lemma WakeupsAreNotLost(events: seq<Event>)
    requires ClaimsAtDistinctInstants(START, events)
    ensures NoLostWakeup(Run(START, events))
  {
    InvRun(START, events);
  }

  lemma {:induction false} RunAppend(s: Bench, a: seq<Event>, b: seq<Event>)
    ensures Run(s, a + b) == Run(Run(s, a), b)
    decreases |a|
  {
    if a == [] {
      assert a + b == b;
    } else {
      assert (a + b)[0] == a[0] && (a + b)[1..] == a[1..] + b;
      RunAppend(Step(s, a[0]), a[1..], b);
    }
  }

  // ---- When a wake-up is lost ----

  /** A publisher that has sent the payload of an earlier epoch marks the row under a lease that
      has its own timestamp, but was taken after the latest arm. */
  predicate LosesWakeup(s: Bench, e: Event) {
    && e.Mark? && e.publisher in s.publishers && s.publishers[e.publisher].Sent?
    && s.row.Some? && s.row.value.leaseUntil == Some(s.publishers[e.publisher].lease)
    && s.epoch !in s.dispatched
  }

  /** In every state, whatever the instants of the claims, this is the one event that loses a wake-up. */
  lemma OneEventLosesWakeups(s: Bench, e: Event)
    requires NoLostWakeup(s)
    ensures !NoLostWakeup(Step(s, e)) <==> LosesWakeup(s, e)
  {}

  /** The state before event `i`. */
  function At(events: seq<Event>, i: nat): Bench
    requires i <= |events|
  {
    Run(START, events[..i])
  }

  /** Event `i` is a claim, under this lease, of the row as armed in this epoch. */
  predicate ClaimsUnder(events: seq<Event>, i: nat, lease: int, epoch: nat) {
    && i < |events| && Claims(At(events, i), events[i])
    && At(events, i).clock + LEASE_MS == lease && At(events, i).epoch == epoch
  }

  ghost predicate WasClaimed(events: seq<Event>, lease: int, epoch: nat) {
    exists i :: ClaimsUnder(events, i, lease, epoch)
  }

  /** Event `j` arms the row. */
  predicate ArmsAt(events: seq<Event>, j: nat) {
    j < |events| && Step(At(events, j), events[j]).epoch == At(events, j).epoch + 1
  }

  lemma StepOfRun(events: seq<Event>, i: nat)
    requires i < |events|
    ensures At(events, i + 1) == Step(At(events, i), events[i])
  {
    assert events[..i + 1] == events[..i] + [events[i]];
    RunAppend(START, events[..i], [events[i]]);
    assert [events[i]][1..] == [];
    assert Run(At(events, i), [events[i]]) == Step(At(events, i), events[i]);
  }

  lemma EpochStep(s: Bench, e: Event)
    ensures Step(s, e).epoch in {s.epoch, s.epoch + 1}
    ensures Claims(s, e) ==> Step(s, e).epoch == s.epoch
  {}

  /** Epochs never go back, and between two different ones there was an arm. */
  lemma {:induction false} EpochsGrow(events: seq<Event>, i: nat, k: nat)
    requires i <= k <= |events|
    ensures At(events, i).epoch <= At(events, k).epoch
    ensures At(events, i).epoch < At(events, k).epoch ==> exists j :: i <= j < k && ArmsAt(events, j)
    decreases k - i
  {
    hide Step, Run, At;
    if i < k {
      EpochsGrow(events, i, k - 1);
      StepOfRun(events, k - 1);
      EpochStep(At(events, k - 1), events[k - 1]);
      if At(events, k - 1).epoch < At(events, k).epoch {
        assert ArmsAt(events, k - 1);
      }
    }
  }

  /** What holds of the leases whether or not claims share an instant. */
  ghost predicate Leased(s: Bench) {
    && (s.row.Some? && s.row.value.leaseUntil.Some? ==>
          && s.lastClaim.Some? && s.lastClaim.value.epoch == s.epoch
          && s.row.value.leaseUntil.value == s.lastClaim.value.at + LEASE_MS)
    && (forall p :: p in s.publishers && s.publishers[p].Sent? ==> s.publishers[p].epoch in s.dispatched)
  }

  lemma LeasedStep(s: Bench, e: Event)
    requires Leased(s)
    ensures Leased(Step(s, e))
  {}

  lemma {:induction false} LeasedRun(events: seq<Event>)
    ensures Leased(Run(START, events))
    decreases |events|
  {
    if events != [] {
      hide Step, Leased;
      var last := |events| - 1;
      LeasedRun(events[..last]);
      LeasedStep(Run(START, events[..last]), events[last]);
      StepOfRun(events, last);
      assert events[..|events|] == events;
    }
  }

  predicate HasPayloadOf(p: Publisher) {
    p.Claimed? || p.Sent?
  }

  /** The claim behind the note of the latest one, and behind each publisher's lease. */
  ghost predicate ClaimsKnown(events: seq<Event>, s: Bench) {
    && (s.lastClaim.Some? ==> WasClaimed(events, s.lastClaim.value.at + LEASE_MS, s.lastClaim.value.epoch))
    && (forall p :: p in s.publishers && HasPayloadOf(s.publishers[p]) ==>
          WasClaimed(events, s.publishers[p].lease, s.publishers[p].epoch))
  }

  /** Who has a payload after an event had it before, or got it by a claim. */
  lemma PayloadsComeFromClaims(s: Bench, e: Event)
    ensures var t := Step(s, e);
      && (t.lastClaim != s.lastClaim ==> Claims(s, e) && t.lastClaim == Some(ClaimNote(s.clock, s.epoch)))
      && (forall p :: p in t.publishers && HasPayloadOf(t.publishers[p]) ==>
            || (p in s.publishers && HasPayloadOf(s.publishers[p])
                && s.publishers[p].lease == t.publishers[p].lease && s.publishers[p].epoch == t.publishers[p].epoch)
            || (Claims(s, e) && t.publishers[p].lease == s.clock + LEASE_MS && t.publishers[p].epoch == s.epoch))
  {}

  lemma ClaimStays(events: seq<Event>, e: Event, lease: int, epoch: nat)
    requires WasClaimed(events, lease, epoch)
    ensures WasClaimed(events + [e], lease, epoch)
  {
    var i: nat :| ClaimsUnder(events, i, lease, epoch);
    assert (events + [e])[..i] == events[..i];
    assert ClaimsUnder(events + [e], i, lease, epoch);
  }

  lemma ClaimIsKnown(events: seq<Event>, e: Event)
    requires Claims(Run(START, events), e)
    ensures WasClaimed(events + [e], Run(START, events).clock + LEASE_MS, Run(START, events).epoch)
  {
    assert (events + [e])[..|events|] == events;
    assert ClaimsUnder(events + [e], |events|, Run(START, events).clock + LEASE_MS, Run(START, events).epoch);
  }

  lemma ClaimsKnownStep(events: seq<Event>, e: Event)
    requires ClaimsKnown(events, Run(START, events))
    ensures ClaimsKnown(events + [e], Step(Run(START, events), e))
  {
    hide Step, Run, WasClaimed;
    var s := Run(START, events);
    var t := Step(s, e);
    PayloadsComeFromClaims(s, e);
    if Claims(s, e) {
      ClaimIsKnown(events, e);
    }
    if s.lastClaim.Some? {
      ClaimStays(events, e, s.lastClaim.value.at + LEASE_MS, s.lastClaim.value.epoch);
    }
    forall p | p in t.publishers && HasPayloadOf(t.publishers[p])
      ensures WasClaimed(events + [e], t.publishers[p].lease, t.publishers[p].epoch)
    {
      if p in s.publishers && HasPayloadOf(s.publishers[p]) {
        ClaimStays(events, e, s.publishers[p].lease, s.publishers[p].epoch);
      }
    }
  }

  lemma {:induction false} ClaimsAreKnown(events: seq<Event>)
    ensures ClaimsKnown(events, Run(START, events))
    decreases |events|
  {
    if events != [] {
      hide Step, ClaimsKnown;
      var last := |events| - 1;
      ClaimsAreKnown(events[..last]);
      ClaimsKnownStep(events[..last], events[last]);
      StepOfRun(events, last);
      assert events[..last] + [events[last]] == events && events[..|events|] == events;
    }
  }

  /** Two claims at one instant, and an arm between them. */
  ghost predicate SharedInstant(events: seq<Event>, i: nat, j: nat, k: nat) {
    && i < j < k < |events|
    && Claims(At(events, i), events[i]) && Claims(At(events, k), events[k])
    && At(events, i).clock == At(events, k).clock
    && ArmsAt(events, j)
  }

  /** For every run, without any premise on the instants: the next event loses a wake-up if and only
      if it is the mark of a publisher that sent an older payload under the lease timestamp that the
      row carries now. Then the row was claimed twice at one instant, and armed in between. */
  lemma WakeupsAreLostExactly(events: seq<Event>, e: Event)
    requires NoLostWakeup(Run(START, events))
    ensures var s := Run(START, events);
      && (!NoLostWakeup(Step(s, e)) <==> LosesWakeup(s, e))
      && (LosesWakeup(s, e) ==> exists i, j, k :: SharedInstant(events, i, j, k))
  {
    var s := Run(START, events);
    OneEventLosesWakeups(s, e);
    if LosesWakeup(s, e) {
      LossHasAHistory(events, e);
    }
  }

  lemma LossHasAHistory(events: seq<Event>, e: Event)
    requires LosesWakeup(Run(START, events), e)
    ensures exists i, j, k :: SharedInstant(events, i, j, k)
  {
    hide Step, Run;
    var s := Run(START, events);
    LeasedRun(events);
    ClaimsAreKnown(events);
    var sender := s.publishers[e.publisher];
    assert sender.epoch != s.epoch && sender.lease == s.lastClaim.value.at + LEASE_MS;
    var i: nat :| ClaimsUnder(events, i, sender.lease, sender.epoch);
    var k: nat :| ClaimsUnder(events, k, sender.lease, s.lastClaim.value.epoch);
    assert At(events, |events|) == s by { assert events[..|events|] == events; }
    EpochsGrow(events, i, |events|);
    if k <= i {
      EpochsGrow(events, k, i);
    }
    assert i < k;
    StepOfRun(events, i);
    EpochStep(At(events, i), events[i]);
    EpochsGrow(events, i + 1, k);
    var j: nat :| i + 1 <= j < k && ArmsAt(events, j);
    assert SharedInstant(events, i, j, k);
  }

  /** It does happen. The race that the lease timestamp cannot see: a publisher has dispatched, a
      cancellation arms the row again, and a second publisher claims it `gap` milliseconds after the
      first claim. When the first publisher then marks the row, the wake-up is lost iff the two
      claims share an instant. */
  lemma SameInstantLosesTheWakeup(job: Job, gap: nat)
    ensures var race := [CancelArms(Some(job)), TryClaim(0), Dispatch(0, false), CancelArms(Some(job)), Tick(gap),
      TryClaim(1), Mark(0)];
      && (NoLostWakeup(Run(START, race)) <==> gap != 0)
      && (ClaimsAtDistinctInstants(START, race) <==> gap != 0)
  {
    var race := [CancelArms(Some(job)), TryClaim(0), Dispatch(0, false), CancelArms(Some(job)), Tick(gap), TryClaim(1),
      Mark(0)];
    var s1 := Step(START, race[0]);
    var s2 := Step(s1, race[1]);
    var s3 := Step(s2, race[2]);
    var s4 := Step(s3, race[3]);
    var s5 := Step(s4, race[4]);
    var s6 := Step(s5, race[5]);
    var s7 := Step(s6, race[6]);
    assert s6.row.value.leaseUntil == Some(gap + LEASE_MS) && s6.publishers[0] == Sent(LEASE_MS, 1) && s6.epoch == 2;
    assert race[1..][1..] == race[2..] && race[2..][1..] == race[3..] && race[3..][1..] == race[4..];
    assert race[4..][1..] == race[5..] && race[5..][1..] == race[6..] && race[6..][1..] == [];
    assert Run(START, race) == Run(s1, race[1..]) == Run(s2, race[2..]) == Run(s3, race[3..]) == Run(s4, race[4..]);
    assert Run(s4, race[4..]) == Run(s5, race[5..]) == Run(s6, race[6..]) == Run(s7, []) == s7;
    assert ClaimsAtDistinctInstants(s6, race[6..]);
    assert ClaimsAtDistinctInstants(s5, race[5..]) <==> gap != 0;
    assert ClaimsAtDistinctInstants(s4, race[4..]) <==> gap != 0;
    assert ClaimsAtDistinctInstants(s3, race[3..]) <==> gap != 0;
    assert ClaimsAtDistinctInstants(s2, race[2..]) <==> gap != 0;
    assert ClaimsAtDistinctInstants(s1, race[1..]) <==> gap != 0;
  }

  // ---- The cleanup circuit breaker ----

  ghost predicate Bounded(s: Bench) {
    && s.retentionArms <= MAX_CLEANUP_RETRIES
    && (s.row == None ==> s.retentionArms == 0)
    && (s.row.Some? ==> s.retentionArms <= s.row.value.attempts + 1)
    && (s.row.Some? && (s.row.value.status != OutboxPending || s.row.value.leaseUntil.Some?) ==>
      s.retentionArms <= s.row.value.attempts)
  }

  lemma BoundedStep(s: Bench, e: Event)
    requires Bounded(s)
    ensures Bounded(Step(s, e))
  {}

  lemma {:induction false} BoundedRun(s: Bench, events: seq<Event>)
    requires Bounded(s)
    ensures Bounded(Run(s, events))
    decreases |events|
  {
    if events != [] {
      BoundedStep(s, events[0]);
      BoundedRun(Step(s, events[0]), events[1..]);
    }
  }

  /** Over any run of sweeps, claims, failures and cancellations, retention arms the cleanup row of
      one run attempt at most three times. */
  lemma RetentionArmsAtMostThreeTimes(events: seq<Event>)
    ensures Run(START, events).retentionArms <= 3
  {
    BoundedRun(START, events);
  }

  /** An unpublished row is never stuck: once its delay and its lease have passed, a fresh publisher
      gets it, whatever became of the earlier ones. */
  lemma UnpublishedRowsCanBeClaimed(s: Bench, p: nat, wait: nat)
    requires s.row.Some? && s.row.value.status != OutboxPublished && p !in s.publishers
    requires s.row.value.availableAt <= s.clock + wait
    requires s.row.value.leaseUntil.Some? ==> s.row.value.leaseUntil.value < s.clock + wait
    ensures var after := Run(s, [Tick(wait), TryClaim(p)]);
      && after.row == Some(Claim(s.row.value, s.clock + wait))
      && p in after.publishers && HasLease(after.publishers[p])
        && after.publishers[p].lease == s.clock + wait + 30000
  {
    var s1 := Step(s, Tick(wait));
    var s2 := Step(s1, TryClaim(p));
    assert Run(s, [Tick(wait), TryClaim(p)]) == Run(s1, [TryClaim(p)]) == Run(s2, []) == s2;
  }
}
