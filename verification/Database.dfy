/** The five tables of a store and its operations as functions on them, as the memory store answers; its class in
    MemoryStore is proved against them. Postgres answers the same but for two: an update of a missing row reports a
    conflict, and idempotency records are keyed by the pair (scope, key), which KeyTable shows to agree. `Picks` is
    common to both. */
module Database {
  import opened Domain
  import opened Workflow

  datatype Db = Db(
    requests: Rows,
    audit: map<string, seq<AuditEntry>>,
    reviews: map<string, seq<ReviewAction>>,
    idempotency: map<string, IdempotencyRecord>,
    jobRuns: map<string, seq<JobRun>>)

  const EMPTY := Db(map[], map[], map[], map[], map[])

  /** A value or an error. */
  datatype Fallible<+T> = Ok(value: T) | Err(error: Error)

  /** The list stored under a key; a missing key is a nil slice. */
  function Listed<T>(log: map<string, seq<T>>, id: string): seq<T> {
    if id in log then log[id] else []
  }

  function PutRequest(db: Db, row: Request): Db {
    db.(requests := db.requests[row.id := row])
  }

  function GetRequest(db: Db, id: string): Fallible<Request> {
    if id in db.requests then Ok(db.requests[id]) else Err(NotFound)
  }

  /** Compare and swap on the version. */
  function UpdateRequest(db: Db, row: Request, expected: int): (Db, Option<Error>) {
    if row.id !in db.requests then (db, Some(NotFound))
    else if db.requests[row.id].version != expected then (db, Some(Conflict))
    else (db.(requests := db.requests[row.id := row]), None)
  }

  function AppendAudit(db: Db, entry: AuditEntry): Db {
    db.(audit := db.audit[entry.requestId := Listed(db.audit, entry.requestId) + [entry]])
  }

  function CreateReview(db: Db, review: ReviewAction): Db {
    db.(reviews := db.reviews[review.requestId := Listed(db.reviews, review.requestId) + [review]])
  }

  function AppendJobRun(db: Db, run: JobRun): Db {
    db.(jobRuns := db.jobRuns[run.requestId := Listed(db.jobRuns, run.requestId) + [run]])
  }

  /** The memory store's map key for a (scope, key) pair. */
  function Compound(scope: string, key: string): string {
    scope + "|" + key
  }

  function GetIdempotency(db: Db, scope: string, key: string): Fallible<IdempotencyRecord> {
    if Compound(scope, key) in db.idempotency then Ok(db.idempotency[Compound(scope, key)]) else Err(NotFound)
  }

  function CreateIdempotency(db: Db, record: IdempotencyRecord): (Db, Option<Error>) {
    if Compound(record.scope, record.key) in db.idempotency then (db, Some(Conflict))
    else (db.(idempotency := db.idempotency[Compound(record.scope, record.key) := record]), None)
  }

  /** What a due-work query may answer in either store: stored rows, each once, all meeting `loose`; none that
      meets `strict` is missing unless the limit stopped the scan. A limit of zero or less means 25 in Postgres
      and no limit in memory. */
  ghost predicate Picks(rows: Rows, loose: Request -> bool, strict: Request -> bool, limit: int, pick: seq<Request>) {
    && (forall i :: 0 <= i < |pick| ==> pick[i].id in rows && rows[pick[i].id] == pick[i] && loose(pick[i]))
    && (forall i, j :: 0 <= i < j < |pick| ==> pick[i].id != pick[j].id)
    && (limit > 0 ==> |pick| <= limit)
    && (|pick| < (if limit > 0 then limit else 25) ==> forall id <- rows :: strict(rows[id]) ==> rows[id] in pick)
  }

  ghost predicate PicksReminders(rows: Rows, cutoff: Time, limit: int, pick: seq<Request>) {
    Picks(rows, r => DueForReminder(r, cutoff, false), r => DueForReminder(r, cutoff, true), limit, pick)
  }

  ghost predicate PicksExecutions(rows: Rows, now: Time, limit: int, pick: seq<Request>) {
    Picks(rows, r => DueForExecution(r, now), r => DueForExecution(r, now), limit, pick)
  }
}
