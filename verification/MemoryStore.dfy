/** The in-memory store (internal/repository/memory/store.go). Its lock makes each method one atomic operation. */
module MemoryStore {
  import opened Domain
  import opened Workflow
  import opened Database

  class Store {
    var requests: Rows
    var audit: map<string, seq<AuditEntry>>
    var reviews: map<string, seq<ReviewAction>>
    var idempotency: map<string, IdempotencyRecord>
    var jobRuns: map<string, seq<JobRun>>

    /** Rows are stored under their own id. */
    ghost predicate Valid()
      reads this
    {
      forall id <- requests :: requests[id].id == id
    }

    ghost function Model(): Db
      reads this
    {
      Db(requests, audit, reviews, idempotency, jobRuns)
    }

    constructor ()
      ensures Valid() && Model() == EMPTY
    {
      requests, audit, reviews, idempotency, jobRuns := map[], map[], map[], map[], map[];
    }

    method CreateRequest(row: Request)
      requires Valid()
      modifies this
      ensures Valid() && Model() == PutRequest(old(Model()), row)
    {
      requests := requests[row.id := row];
    }

    method GetRequest(id: string) returns (answer: Fallible<Request>)
      ensures answer == Database.GetRequest(Model(), id)
    {
      if id !in requests {
        return Err(NotFound);
      }
      return Ok(requests[id]);
    }

    method UpdateRequest(row: Request, expected: int) returns (error: Option<Error>)
      requires Valid()
      modifies this
      ensures Valid() && (Model(), error) == Database.UpdateRequest(old(Model()), row, expected)
    {
      if row.id !in requests {
        return Some(NotFound);
      }
      var current := requests[row.id];
      if current.version != expected {
        return Some(Conflict);
      }
      requests := requests[row.id := row];
      return None;
    }

    method AppendAudit(entry: AuditEntry)
      requires Valid()
      modifies this
      ensures Valid() && Model() == Database.AppendAudit(old(Model()), entry)
    {
      var log := if entry.requestId in audit then audit[entry.requestId] else [];
      audit := audit[entry.requestId := log + [entry]];
    }

    method CreateReview(review: ReviewAction)
      requires Valid()
      modifies this
      ensures Valid() && Model() == Database.CreateReview(old(Model()), review)
    {
      var log := if review.requestId in reviews then reviews[review.requestId] else [];
      reviews := reviews[review.requestId := log + [review]];
    }

    method GetIdempotency(scope: string, key: string) returns (answer: Fallible<IdempotencyRecord>)
      ensures answer == Database.GetIdempotency(Model(), scope, key)
    {
      var compound := scope + "|" + key;
      if compound !in idempotency {
        return Err(NotFound);
      }
      return Ok(idempotency[compound]);
    }

    method CreateIdempotency(record: IdempotencyRecord) returns (error: Option<Error>)
      requires Valid()
      modifies this
      ensures Valid() && (Model(), error) == Database.CreateIdempotency(old(Model()), record)
    {
      var compound := record.scope + "|" + record.key;
      if compound in idempotency {
        return Some(Conflict);
      }
      idempotency := idempotency[compound := record];
      return None;
    }

    method AppendJobRun(run: JobRun)
      requires Valid()
      modifies this
      ensures Valid() && Model() == Database.AppendJobRun(old(Model()), run)
    {
      var log := if run.requestId in jobRuns then jobRuns[run.requestId] else [];
      jobRuns := jobRuns[run.requestId := log + [run]];
    }

    /** The map is scanned in no particular order, until the limit is reached. */
    method ListRequestsNeedingReminder(before: Time, limit: int) returns (results: seq<Request>)
      requires Valid()
      ensures PicksReminders(requests, before, limit, results)
      ensures forall r <- results ::
                && r.id in requests && requests[r.id] == r
                && r.status == PendingReview && r.submittedAt.Some? && r.submittedAt.value <= before
                && (r.remindedAt.Some? ==> r.remindedAt.value < before)
      ensures forall i, j :: 0 <= i < j < |results| ==> results[i].id != results[j].id
      ensures limit > 0 ==> |results| <= limit
      ensures limit <= 0 || |results| < limit ==>
                forall id <- requests ::
                  && requests[id].status == PendingReview
                  && requests[id].submittedAt.Some? && requests[id].submittedAt.value <= before
                  && (requests[id].remindedAt.Some? ==> requests[id].remindedAt.value < before)
                  ==> requests[id] in results
    {
      results := [];
      var unseen := requests.Keys;
      while unseen != {}
        invariant unseen <= requests.Keys
        invariant Scanned(requests, r => DueForReminder(r, before, true), limit, unseen, results)
        decreases |unseen|
      {
        var id :| id in unseen;
        unseen := unseen - {id};
        var row := requests[id];
        if row.status != PendingReview {
          continue;
        }
        if row.submittedAt.None? || row.submittedAt.value > before {
          continue;
        }
        if row.remindedAt.Some? && row.remindedAt.value >= before {
          continue;
        }
        results := results + [row];
        if limit > 0 && |results| >= limit {
          ReminderScan(requests, before, limit, unseen, results);
          return;
        }
      }
      ReminderScan(requests, before, limit, {}, results);
    }

    method ListRequestsReadyForExecution(before: Time, limit: int) returns (results: seq<Request>)
      requires Valid()
      ensures PicksExecutions(requests, before, limit, results)
      ensures forall r <- results ::
                && r.id in requests && requests[r.id] == r && r.status in {Approved, ExecutionFailed}
                && r.nextAt.Some? && r.nextAt.value <= before
      ensures forall i, j :: 0 <= i < j < |results| ==> results[i].id != results[j].id
      ensures limit > 0 ==> |results| <= limit
      ensures limit <= 0 || |results| < limit ==>
                forall id <- requests ::
                  && requests[id].status in {Approved, ExecutionFailed}
                  && requests[id].nextAt.Some? && requests[id].nextAt.value <= before
                  ==> requests[id] in results
    {
      results := [];
      var unseen := requests.Keys;
      while unseen != {}
        invariant unseen <= requests.Keys
        invariant Scanned(requests, r => DueForExecution(r, before), limit, unseen, results)
        decreases |unseen|
      {
        var id :| id in unseen;
        unseen := unseen - {id};
        var row := requests[id];
        if row.status != Approved && row.status != ExecutionFailed {
          continue;
        }
        if row.nextAt.None? || row.nextAt.value > before {
          continue;
        }
        results := results + [row];
        if limit > 0 && |results| >= limit {
          ExecutionScan(requests, before, limit, unseen, results);
          return;
        }
      }
      ExecutionScan(requests, before, limit, {}, results);
    }
  }

  /** A scan has collected each due row among those it has seen, once, up to the limit. */
  ghost predicate Collected(rows: Rows, due: Request -> bool, limit: int, unseen: set<string>, results: seq<Request>) {
    && (forall i :: 0 <= i < |results| ==>
          results[i].id in rows && rows[results[i].id] == results[i] && due(results[i]) && results[i].id !in unseen)
    && (forall i, j :: 0 <= i < j < |results| ==> results[i].id != results[j].id)
    && (limit > 0 ==> |results| <= limit)
    && (forall id <- rows :: id !in unseen && due(rows[id]) ==> rows[id] in results)
  }

  /** And is still below the limit. */
  ghost predicate Scanned(rows: Rows, due: Request -> bool, limit: int, unseen: set<string>, results: seq<Request>) {
    Collected(rows, due, limit, unseen, results) && (limit > 0 ==> |results| < limit)
  }

  /** What a finished scan for reminders has found. */
  lemma ReminderScan(rows: Rows, before: Time, limit: int, unseen: set<string>, results: seq<Request>)
    requires Collected(rows, r => DueForReminder(r, before, true), limit, unseen, results)
    requires unseen != {} ==> 0 < limit == |results|
    ensures PicksReminders(rows, before, limit, results)
    ensures forall r <- results ::
              && r.id in rows && rows[r.id] == r
              && r.status == PendingReview && r.submittedAt.Some? && r.submittedAt.value <= before
              && (r.remindedAt.Some? ==> r.remindedAt.value < before)
    ensures limit <= 0 || |results| < limit ==>
              forall id <- rows ::
                && rows[id].status == PendingReview
                && rows[id].submittedAt.Some? && rows[id].submittedAt.value <= before
                && (rows[id].remindedAt.Some? ==> rows[id].remindedAt.value < before)
                ==> rows[id] in results
  {
  }

  /** What a finished scan for executions has found. */
  lemma ExecutionScan(rows: Rows, before: Time, limit: int, unseen: set<string>, results: seq<Request>)
    requires Collected(rows, r => DueForExecution(r, before), limit, unseen, results)
    requires unseen != {} ==> 0 < limit == |results|
    ensures PicksExecutions(rows, before, limit, results)
    ensures forall r <- results ::
              && r.id in rows && rows[r.id] == r && r.status in {Approved, ExecutionFailed}
              && r.nextAt.Some? && r.nextAt.value <= before
    ensures limit <= 0 || |results| < limit ==>
              forall id <- rows ::
                && rows[id].status in {Approved, ExecutionFailed}
                && rows[id].nextAt.Some? && rows[id].nextAt.value <= before
                ==> rows[id] in results
  {
  }
}
