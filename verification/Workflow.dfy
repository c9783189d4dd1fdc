/** The workflow as atomic, guarded transitions of one row: what `Service` means to do each time a
    version swap succeeds. Everything else in the project is measured against this module. */
module Workflow {
  import opened Domain

  datatype Config = Config(
    reviewer: string,
    reminderAfter: int,
    retryBase: int,
    maxAttempts: int,
    simulated: bool,
    digest: string -> string)

  ghost predicate Configured(cfg: Config) {
    cfg.reminderAfter >= 0 && cfg.retryBase >= 0 && cfg.maxAttempts >= 1
  }

  datatype Change =
    | Submit(key: string)
    | Decide(decision: Decision, comment: string, key: string)
    | Remind
    | Execute(success: bool, message: string)

  type Rows = map<string, Request>

  function DecisionText(d: Decision): string {
    if d == Approve then "approved" else "rejected"
  }

  function DecidedStatus(d: Decision): Status {
    if d == Approve then Approved else Rejected
  }

  /** The row a successful swap writes, computed from the row it read. */
  function Apply(cfg: Config, row: Request, change: Change, now: Time): Request {
    var next := row.(version := row.version + 1, updatedAt := now);
    match change
    case Submit(_) =>
      next.(status := PendingReview, reviewer := cfg.reviewer, submittedAt := Some(now))
    case Decide(Approve, _, _) =>
      next.(status := Approved, reviewedAt := Some(now), approvedAt := Some(now), nextAt := Some(now), lastError := "")
    case Decide(Reject, _, _) =>
      next.(status := Rejected, reviewedAt := Some(now), nextAt := None)
    case Remind =>
      next.(reminders := row.reminders + 1, remindedAt := Some(now))
    case Execute(true, _) =>
      next.(status := Executed, attempts := row.attempts + 1, executedAt := Some(now), nextAt := None, lastError := "")
    case Execute(false, message) =>
      next.(status := ExecutionFailed, attempts := row.attempts + 1, lastError := TrimSpace(message),
            nextAt := if row.attempts + 1 >= cfg.maxAttempts then None
                      else Some(now + (row.attempts + 1) * cfg.retryBase))
  }

  // ---------- Guards

  predicate MaySubmit(actor: Actor, row: Request) {
    actor.role == Admin || row.requester == actor.id
  }

  predicate CanReview(actor: Actor, row: Request) {
    actor.role == Admin || (actor.role == Reviewer && row.reviewer == actor.id)
  }

  predicate MayRecord(actor: Actor) {
    actor.role == Admin || actor.role == Reviewer
  }

  predicate AwaitsExecution(row: Request) {
    row.status == Approved || row.status == ExecutionFailed
  }

  predicate DueForExecution(row: Request, now: Time) {
    AwaitsExecution(row) && row.nextAt.Some? && row.nextAt.value <= now
  }

  /** Due for a reminder. The memory store wants the last reminder strictly before the cutoff, Postgres also takes
      one exactly at it; `strict` tells them apart. */
  predicate DueForReminder(row: Request, cutoff: Time, strict: bool) {
    && row.status == PendingReview
    && row.submittedAt.Some? && row.submittedAt.value <= cutoff
    && (row.remindedAt.Some? ==> if strict then row.remindedAt.value < cutoff else row.remindedAt.value <= cutoff)
  }

  /** When `actor` may make `change` to `row` at `at`; `due` is the time a worker listed the row at, absent for API
      calls. */
  predicate Permitted(cfg: Config, row: Request, actor: Actor, change: Change, at: Time, due: Option<Time>) {
    match change
    case Submit(_) =>
      row.status == Draft && due == None && MaySubmit(actor, row)
    case Decide(_, _, _) =>
      row.status == PendingReview && due == None && CanReview(actor, row) && actor.id != row.requester
    case Remind =>
      due == Some(at) && DueForReminder(row, at - cfg.reminderAfter, false)
    case Execute(_, _) =>
      AwaitsExecution(row) && (if due.Some? then DueForExecution(row, due.value) else MayRecord(actor))
  }

  /** A row as `CreateDraft` writes it. Issued ids contain no `|`. */
  predicate IsNewDraft(row: Request) {
    && '|' !in row.id
    && row.status == Draft && row.version == 1 && row.reminders == 0 && row.attempts == 0
    && row.reviewer == "" && row.lastError == "" && row.updatedAt == row.createdAt
    && row.submittedAt == None && row.approvedAt == None && row.reviewedAt == None
    && row.executedAt == None && row.remindedAt == None && row.nextAt == None
  }

  // ---------- Shape of a row

  function One(b: bool): int { if b then 1 else 0 }

  predicate Decided(s: Status) {
    s != Draft && s != PendingReview
  }

  /** Version accounting, which times are set, the retry schedule and the reminder spacing of a single row. */
  ghost predicate Shape(cfg: Config, row: Request) {
    && '|' !in row.id
    && row.reminders >= 0 && row.attempts >= 0
    && row.version == 1 + One(row.status != Draft) + row.reminders + One(Decided(row.status)) + row.attempts
    && row.submittedAt.Some? == (row.status != Draft)
    && row.reviewedAt.Some? == Decided(row.status)
    && row.approvedAt == (if row.status in {Approved, Executed, ExecutionFailed} then row.reviewedAt else None)
    && row.executedAt == (if row.status == Executed then Some(row.updatedAt) else None)
    && row.remindedAt.Some? == (row.reminders > 0)
    && (row.attempts > 0) == (row.status in {Executed, ExecutionFailed})
    && (row.status == Draft ==> row.reminders == 0 && row.updatedAt == row.createdAt)
    && row.reviewer == (if row.status == Draft then "" else cfg.reviewer)
    && row.nextAt == Schedule(cfg, row)
    && (row.status == PendingReview ==>
          row.updatedAt == if row.remindedAt.Some? then row.remindedAt.value else row.submittedAt.value)
    && (row.status == Approved || row.status == Rejected ==> row.reviewedAt == Some(row.updatedAt))
    && (row.reminders > 0 ==> row.remindedAt.value >= row.submittedAt.value + row.reminders * cfg.reminderAfter)
  }

  /** When a row is next due: at once when approved, `attempts` retry bases after a failure with budget left, else
      never. */
  ghost function Schedule(cfg: Config, row: Request): Option<Time> {
    if row.status == Approved then row.approvedAt
    else if row.status == ExecutionFailed && row.attempts < cfg.maxAttempts then
      Some(row.updatedAt + row.attempts * cfg.retryBase)
    else None
  }

  // ---------- How a row may evolve

  ghost predicate SameOrigin(a: Request, b: Request) {
    a.id == b.id && a.kind == b.kind && a.target == b.target && a.justification == b.justification
    && a.requester == b.requester && a.createdAt == b.createdAt
  }

  /** The statuses a row can have at a later version. */
  ghost predicate Later(a: Status, b: Status) {
    match a
    case Draft => b != Draft
    case PendingReview => b != Draft
    case Approved => b == Executed || b == ExecutionFailed
    case ExecutionFailed => b == Executed || b == ExecutionFailed
    case Rejected => false
    case Executed => false
  }

  /** `b` is `a` or a strictly later version of it. */
  ghost predicate Descends(a: Request, b: Request) {
    a == b ||
    (&& a.version < b.version
     && SameOrigin(a, b)
     && Later(a.status, b.status)
     && a.attempts <= b.attempts && a.reminders <= b.reminders
     && (a.status != Draft ==> b.submittedAt == a.submittedAt && b.reviewer == a.reviewer)
     && (Decided(a.status) ==>
           && b.reviewedAt == a.reviewedAt && b.approvedAt == a.approvedAt
           && b.reminders == a.reminders && b.remindedAt == a.remindedAt
           && a.attempts < b.attempts))
  }

  ghost predicate Grows(before: Rows, after: Rows) {
    forall id <- before :: id in after && Descends(before[id], after[id])
  }

  lemma DescendsTransitive(a: Request, b: Request, c: Request)
    requires Descends(a, b) && Descends(b, c)
    ensures Descends(a, c)
  {
  }

  lemma GrowsTransitive(a: Rows, b: Rows, c: Rows)
    requires Grows(a, b) && Grows(b, c)
    ensures Grows(a, c)
  {
    forall id <- a ensures id in c && Descends(a[id], c[id]) {
      DescendsTransitive(a[id], b[id], c[id]);
    }
  }

  lemma ResultKeepsShape(cfg: Config, row: Request, success: bool, message: string, at: Time)
    requires Shape(cfg, row) && AwaitsExecution(row)
    ensures Shape(cfg, Apply(cfg, row, Execute(success, message), at))
  {
    hide TrimSpace;
  }

  lemma StepKeepsShape(cfg: Config, row: Request, actor: Actor, change: Change, at: Time, due: Option<Time>)
    requires cfg.maxAttempts >= 1 && Shape(cfg, row) && Permitted(cfg, row, actor, change, at, due) && !change.Execute?
    ensures Shape(cfg, Apply(cfg, row, change, at))
  {
    hide CanReview, MaySubmit;
    if change.Remind? {
      assert (row.reminders + 1) * cfg.reminderAfter == row.reminders * cfg.reminderAfter + cfg.reminderAfter;
    }
  }

  lemma ApplyDescends(cfg: Config, row: Request, actor: Actor, change: Change, at: Time, due: Option<Time>)
    requires Shape(cfg, row) && Permitted(cfg, row, actor, change, at, due)
    ensures Descends(row, Apply(cfg, row, change, at))
  {
    hide TrimSpace, CanReview, MaySubmit, Schedule;
  }

  /** Every permitted transition keeps the shape and yields a later version. */
  lemma ApplyKeepsShape(cfg: Config, row: Request, actor: Actor, change: Change, at: Time, due: Option<Time>)
    requires cfg.maxAttempts >= 1 && Shape(cfg, row) && Permitted(cfg, row, actor, change, at, due)
    ensures Shape(cfg, Apply(cfg, row, change, at))
    ensures Descends(row, Apply(cfg, row, change, at))
  {
    hide Shape, Descends, Apply, DueForReminder, DueForExecution;
    ApplyDescends(cfg, row, actor, change, at, due);
    if change.Execute? {
      ResultKeepsShape(cfg, row, change.success, change.message, at);
    } else {
      StepKeepsShape(cfg, row, actor, change, at, due);
    }
  }

  // ---------- The atomic machine

  datatype Event =
    | Created(row: Request)
    | Changed(id: string, actor: Actor, change: Change, at: Time, due: Option<Time>)

  /** One atomic transition of the table, or None when its guard is false of the stored row. */
  function Perform(cfg: Config, rows: Rows, event: Event): Option<Rows> {
    match event
    case Created(row) =>
      if row.id !in rows && IsNewDraft(row) then Some(rows[row.id := row]) else None
    case Changed(id, actor, change, at, due) =>
      if id in rows && Permitted(cfg, rows[id], actor, change, at, due)
      then Some(rows[id := Apply(cfg, rows[id], change, at)]) else None
  }

  /** The table after a sequence of atomic transitions, or None if one of them was not permitted. */
  function PerformAll(cfg: Config, events: seq<Event>): Option<Rows> {
    if events == [] then Some(map[])
    else
      var before := PerformAll(cfg, events[..|events| - 1]);
      if before == None then None else Perform(cfg, before.value, events[|events| - 1])
  }

  ghost predicate RowsOk(cfg: Config, rows: Rows) {
    forall id <- rows :: rows[id].id == id && Shape(cfg, rows[id])
  }

  lemma PerformKeepsRows(cfg: Config, rows: Rows, event: Event)
    requires cfg.maxAttempts >= 1 && RowsOk(cfg, rows)
    requires Perform(cfg, rows, event).Some?
    ensures RowsOk(cfg, Perform(cfg, rows, event).value)
    ensures Grows(rows, Perform(cfg, rows, event).value)
  {
    if event.Changed? {
      ApplyKeepsShape(cfg, rows[event.id], event.actor, event.change, event.at, event.due);
    }
  }
}
