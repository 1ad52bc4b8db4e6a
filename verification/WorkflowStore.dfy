/** The worker's guarded writes to a run row. Every one names the attempt and the head commit it
    was meant for. */
module WorkflowStore {
  import opened WorkflowTypes
  import opened RunStatusContract
  import opened Tables

  datatype StoreError = RunNotFound | StaleIdentity | InvalidTransition(from: RunStatus, to: RunStatus)

  datatype StoreWrite =
    | Transition(to: RunStatus)
    | SetCleanup(status: CleanupStatus)
    | SetPreview(host: string)
    | SetPlan(plan: map<string, string>)

  predicate Identifies(runs: Runs, id: RunId, attempt: nat, headSha: string) {
    id in runs && runs[id].currentAttempt == attempt && runs[id].headSha == headSha
  }

  /** The columns that a status transition sets, before the triggers look at them. */
  function Moved(row: RunRow, to: RunStatus): RunRow {
    row.(status := to, verdict := if IsVerdict(to) then Some(to) else row.verdict)
  }

  /** A write of the worker: the new table, or the error with the table as it was. */
  function Write(runs: Runs, id: RunId, attempt: nat, headSha: string, write: StoreWrite): (Runs, Option<StoreError>) {
    if write.Transition? && id !in runs then (runs, Some(RunNotFound))
    else if !Identifies(runs, id, attempt, headSha) then (runs, Some(StaleIdentity))
    else
      var row := runs[id];
      match write
      case Transition(to) =>
        if IsValidTransition(row.status, to, row.cleanupStatus == Cleaned) then
          (WriteStatus(runs, id, Moved(row, to)), None)
        else
          (runs, Some(InvalidTransition(row.status, to)))
      case SetCleanup(status) => (runs[id := row.(cleanupStatus := status)], None)
      case SetPreview(host) => (runs[id := row.(previewHost := Some(host))], None)
      case SetPlan(plan) => (runs[id := row.(executionPlan := row.executionPlan + plan)], None)
  }

  predicate IsOfAttempt(row: RunRow, attempt: nat, headSha: string) {
    row.currentAttempt == attempt && row.headSha == headSha
  }

  /** New entries come in, and replace old ones of the same name; the others stay. */
  predicate IsMerged(before: map<string, string>, plan: map<string, string>, after: map<string, string>) {
    && after.Keys == before.Keys + plan.Keys
    && forall name :: name in after ==> after[name] == if name in plan then plan[name] else before[name]
  }

  class DatabaseWorkflowStore {
    const db: Database

    constructor (db: Database)
      ensures this.db == db
    {
      this.db := db;
    }

    method TransitionRun(id: RunId, attempt: nat, headSha: string, to: RunStatus) returns (error: Option<StoreError>)
      modifies db`runs
      ensures (db.runs, error) == Write(old(db.runs), id, attempt, headSha, Transition(to))
      ensures error == Some(RunNotFound) <==> id !in old(db.runs)
      ensures error == Some(StaleIdentity) <==>
        id in old(db.runs) && !IsOfAttempt(old(db.runs)[id], attempt, headSha)
      ensures id in old(db.runs) && IsOfAttempt(old(db.runs)[id], attempt, headSha) ==>
        var row := old(db.runs)[id];
        var isVerdict := to in {RunStatus.Passed, RunStatus.Failed, RunStatus.Incomplete};
        var verdict := if isVerdict then Some(to) else row.verdict;
        if IsValidTransition(row.status, to, row.cleanupStatus == Cleaned) then
          && error == None
          && db.runs == old(db.runs)[id :=
               row.(status := Granted(old(db.runs), Some(row.status), to), verdict := verdict)]
        else
          error == Some(InvalidTransition(row.status, to)) && db.runs == old(db.runs)
      ensures error.Some? ==> db.runs == old(db.runs)
    {
      if id !in db.runs {
        return Some(RunNotFound);
      }
      var row := db.runs[id];
      if row.currentAttempt != attempt || row.headSha != headSha {
        return Some(StaleIdentity);
      }
      if !IsValidTransition(row.status, to, row.cleanupStatus == Cleaned) {
        return Some(InvalidTransition(row.status, to));
      }
      db.StoreRun(id, Moved(row, to));
      return None;
    }

    method SetCleanupStatus(id: RunId, attempt: nat, headSha: string, status: CleanupStatus)
        returns (error: Option<StoreError>)
      modifies db`runs
      ensures (db.runs, error) == Write(old(db.runs), id, attempt, headSha, SetCleanup(status))
      ensures if id in old(db.runs) && IsOfAttempt(old(db.runs)[id], attempt, headSha) then
          error == None && db.runs == old(db.runs)[id := old(db.runs)[id].(cleanupStatus := status)]
        else
          error == Some(StaleIdentity) && db.runs == old(db.runs)
    {
      if id !in db.runs || db.runs[id].currentAttempt != attempt || db.runs[id].headSha != headSha {
        return Some(StaleIdentity);
      }
      db.runs := db.runs[id := db.runs[id].(cleanupStatus := status)];
      return None;
    }

    method SetPreviewHost(id: RunId, attempt: nat, headSha: string, host: string) returns (error: Option<StoreError>)
      modifies db`runs
      ensures (db.runs, error) == Write(old(db.runs), id, attempt, headSha, SetPreview(host))
      ensures if id in old(db.runs) && IsOfAttempt(old(db.runs)[id], attempt, headSha) then
          error == None && db.runs == old(db.runs)[id := old(db.runs)[id].(previewHost := Some(host))]
        else
          error == Some(StaleIdentity) && db.runs == old(db.runs)
    {
      if id !in db.runs || db.runs[id].currentAttempt != attempt || db.runs[id].headSha != headSha {
        return Some(StaleIdentity);
      }
      db.runs := db.runs[id := db.runs[id].(previewHost := Some(host))];
      return None;
    }

    method SetExecutionPlan(id: RunId, attempt: nat, headSha: string, plan: map<string, string>)
        returns (error: Option<StoreError>)
      modifies db`runs
      ensures (db.runs, error) == Write(old(db.runs), id, attempt, headSha, SetPlan(plan))
      ensures if id in old(db.runs) && IsOfAttempt(old(db.runs)[id], attempt, headSha) then
          && error == None && id in db.runs
          && db.runs == old(db.runs)[id := old(db.runs)[id].(executionPlan := db.runs[id].executionPlan)]
          && IsMerged(old(db.runs)[id].executionPlan, plan, db.runs[id].executionPlan)
        else
          error == Some(StaleIdentity) && db.runs == old(db.runs)
    {
      if id !in db.runs || db.runs[id].currentAttempt != attempt || db.runs[id].headSha != headSha {
        return Some(StaleIdentity);
      }
      var merged := db.runs[id].executionPlan + plan;
      db.runs := db.runs[id := db.runs[id].(executionPlan := merged)];
      return None;
    }
  }

  /** A write that carries another attempt, or another head commit, changes no row at all; one that
      matches touches no other run, and never the attempt or the identity of its own. */
  lemma StaleWritesChangeNothing(runs: Runs, id: RunId, attempt: nat, headSha: string, write: StoreWrite)
    ensures !Identifies(runs, id, attempt, headSha) ==>
      Write(runs, id, attempt, headSha, write).0 == runs && Write(runs, id, attempt, headSha, write).1.Some?
    ensures Write(runs, id, attempt, headSha, write).1.Some? ==> Write(runs, id, attempt, headSha, write).0 == runs
    ensures var after := Write(runs, id, attempt, headSha, write).0;
      && after.Keys == runs.Keys
      && (forall other :: other in runs && other != id ==> after[other] == runs[other])
      && (id in runs ==> after[id].currentAttempt == runs[id].currentAttempt && after[id].headSha == runs[id].headSha
                         && after[id].pullRequest == runs[id].pullRequest)
  {}
}
