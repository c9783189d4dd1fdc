/** A call of `Service` as a little program: each stage ends in one store operation, one clock reading or one
    executor call, so that calls can be interleaved between any two of them. `Act` runs one stage and is the only
    place where the code of internal/application/service.go appears; the classes are proved to perform it. */
module Calls {
  import opened Domain
  import opened Workflow
  import opened Database

  datatype DraftInput = DraftInput(kind: string, target: string, justification: string)

  /** A log row that a call still has to append. An audit entry is stamped when it is appended. */
  datatype Owed =
    | OweAudit(id: string, actor: Actor, action: Action, description: string)
    | OweReview(review: ReviewAction)
    | OweRun(run: JobRun)

  /** What a call does once it has settled its current row. */
  datatype Rest =
    | Answer
    | Reminding(now: Time, batch: seq<Request>)
    | Executing(now: Time, batch: seq<Request>)

  /** What the world supplies to one stage: the clock, the answer of a due-work query, and the outcome of an
      executor other than the simulated one (Some is its error message). */
  datatype Input = Input(now: Time, pick: seq<Request>, outcome: Option<string>)

  datatype Call =
    | Drafting(actor: Actor, input: DraftInput, id: string)
    | Creating(actor: Actor, row: Request)
    | SubmitRead(actor: Actor, id: string, key: string)
    | SubmitFind(actor: Actor, snap: Request, key: string)
    | SubmitClaim(actor: Actor, snap: Request, key: string)
    | SubmitRecheck(actor: Actor, snap: Request, key: string)
    | Reread(id: string)
    | ReviewRead(actor: Actor, id: string, key: string, decision: Decision, comment: string)
    | ReviewFind(actor: Actor, snap: Request, key: string, decision: Decision, comment: string)
    | ReviewClaim(actor: Actor, snap: Request, key: string, decision: Decision, comment: string)
    | ResultRead(actor: Actor, id: string, success: bool, message: string)
    | RemindStart(limit: int)
    | RemindList(limit: int, now: Time)
    | ExecuteStart(limit: int)
    | ExecuteList(limit: int, now: Time)
    | Invoking(now: Time, batch: seq<Request>)
    | Swapping(actor: Actor, snap: Request, change: Change, at: Option<Time>, then_: Rest)
    | Logging(row: Request, owed: seq<Owed>, then_: Rest)
    | Done(reply: Reply)

  /** The stages a caller starts in. */
  predicate Initial(call: Call) {
    call.Drafting? || call.SubmitRead? || call.ReviewRead? || call.ResultRead? || call.RemindStart?
      || call.ExecuteStart?
  }

  function SubmitScope(id: string): string { "submit:" + id }

  function ReviewScope(d: Decision, id: string): string { DecisionText(d) + ":" + id }

  /** SHA-256 over the parts joined with `|`; the hash itself is not interpreted. */
  function Fingerprint(cfg: Config, d: Decision, comment: string): string {
    cfg.digest(DecisionText(d) + "|" + comment)
  }

  function NewDraft(id: string, actor: Actor, input: DraftInput, now: Time): Request {
    Request(id, TrimSpace(input.kind), TrimSpace(input.target), TrimSpace(input.justification), actor.id, "",
            Draft, 1, 0, 0, "", now, now, None, None, None, None, None, None)
  }

  /** Ids are issued fresh and without `|`. */
  predicate FreshId(db: Db, id: string) {
    id !in db.requests && '|' !in id
  }

  function DecisionDescription(d: Decision, comment: string): string {
    if Blank(comment) then DecisionText(d) else DecisionText(d) + ": " + TrimSpace(comment)
  }

  function ReminderRun(row: Request, now: Time): JobRun {
    JobRun(row.id, ReminderJob, true, row.reminders, "reminder recorded", now)
  }

  /** The executor's error for a row, or None. */
  function Outcome(cfg: Config, snap: Request, input: Input): Option<string> {
    if cfg.simulated then Simulate(snap) else input.outcome
  }

  /** `SimulatedExecutor.Execute` */
  function Simulate(snap: Request): Option<string> {
    if MentionsFail(snap.target) then Some("simulated provisioning failure for " + snap.target) else None
  }

  /** The log rows owed for a swap that won, in the order they are appended. */
  function Owes(actor: Actor, change: Change, row: Request, at: Time, then_: Rest): seq<Owed> {
    match change
    case Submit(_) =>
      [OweAudit(row.id, actor, RequestSubmitted, "request submitted for review"),
       OweAudit(row.id, SYSTEM, ReviewAssigned, "request assigned to reviewer")]
    case Decide(d, comment, _) =>
      [OweReview(ReviewAction(row.id, d, TrimSpace(comment), actor.id, at)),
       OweAudit(row.id, actor, RequestDecided(d), DecisionDescription(d, comment))]
    case Remind =>
      [OweAudit(row.id, SYSTEM, ReminderSent, "review reminder generated"), OweRun(ReminderRun(row, at))]
    case Execute(success, message) =>
      [OweAudit(row.id, actor, if success then AttemptSucceeded else AttemptFailed,
                if success then "request executed successfully" else "execution failed: " + TrimSpace(message))]
      + OwedRun(row.id, row.attempts, change, then_)
  }

  /** The job run a worker appends for an executor call, whether or not its swap wins. */
  function OwedRun(id: string, attempt: int, change: Change, then_: Rest): seq<Owed> {
    if change.Execute? && then_.Executing? then
      [OweRun(JobRun(id, ExecutionJob, change.success, attempt,
                     if change.success then "execution completed" else change.message, then_.now))]
    else []
  }

  lemma OwedRunIsForExecutions(id: string, attempt: int, change: Change, rest: Rest)
    ensures !change.Execute? ==> OwedRun(id, attempt, change, rest) == []
    ensures forall o <- OwedRun(id, attempt, change, rest) :: o.OweRun?
  {
  }

  /** The next stage once nothing is owed: the answer of an API call, or the next row of a batch. */
  function Continue(reply: Reply, then_: Rest): Call {
    match then_
    case Answer => Done(reply)
    case Reminding(now, batch) =>
      if batch == [] then Done(Finished)
      else Swapping(SYSTEM, batch[0], Remind, Some(now), Reminding(now, batch[1..]))
    case Executing(now, batch) =>
      if batch == [] then Done(Finished) else Invoking(now, batch)
  }

  lemma ContinueAnyReply(a: Reply, b: Reply, rest: Rest)
    requires !rest.Answer?
    ensures Continue(a, rest) == Continue(b, rest)
  {
  }

  lemma ContinueInvokes(now: Time, batch: seq<Request>)
    requires batch != []
    ensures Continue(Finished, Executing(now, batch)) == Invoking(now, batch)
  {
  }

  lemma ContinueReminds(now: Time, batch: seq<Request>)
    requires batch != []
    ensures Continue(Finished, Reminding(now, batch))
            == Swapping(SYSTEM, batch[0], Remind, Some(now), Reminding(now, batch[1..]))
  {
  }

  lemma ContinueEnds(now: Time)
    ensures Continue(Finished, Executing(now, [])) == Continue(Finished, Reminding(now, [])) == Done(Finished)
  {
  }

  function Log(row: Request, owed: seq<Owed>, then_: Rest): Call {
    if owed == [] then Continue(Returned(row), then_) else Logging(row, owed, then_)
  }

  lemma LogOne(row: Request, owed: seq<Owed>, rest: Rest)
    requires owed != []
    ensures Log(row, owed, rest) == Logging(row, owed, rest)
  {
  }

  function Append(db: Db, owed: Owed, now: Time): Db {
    match owed
    case OweAudit(id, actor, action, description) => AppendAudit(db, AuditEntry(id, actor, action, description, now))
    case OweReview(review) => CreateReview(db, review)
    case OweRun(run) => AppendJobRun(db, run)
  }

  function Swap(cfg: Config, call: Call, db: Db): (Call, Db)
    requires call.Swapping? && call.at.Some?
  {
    var Swapping(actor, snap, change, at, then_) := call;
    var next := Apply(cfg, snap, change, at.value);
    var (swapped, error) := UpdateRequest(db, next, snap.version);
    if error == None then
      (Log(next, Owes(actor, change, next, at.value, then_), then_), swapped)
    else if then_.Answer? then (Done(Failed(error.value)), db)
    else (Log(snap, OwedRun(snap.id, snap.attempts + 1, change, then_), then_), db)
  }

  function Claim(db: Db, scope: string, key: string, fingerprint: string, id: string, now: Time): (Db, Option<Error>) {
    CreateIdempotency(db, IdempotencyRecord(key, scope, fingerprint, id, now))
  }

  /** `reviewRequest` once the key is known to be new to the caller, or to carry the same payload (`replay`). */
  function AfterReviewKey(call: Call, replay: bool): Call
    requires call.ReviewFind? || call.ReviewClaim?
  {
    if call.snap.status != PendingReview then Done(Returned(call.snap))
    else if replay then Reread(call.snap.id)
    else Swapping(call.actor, call.snap, Decide(call.decision, call.comment, call.key), None, Answer)
  }

  /** `reviewRequest` once the key is refused: on a decided row the error is lost to the shadowed variable. */
  function RefuseReview(call: Call, error: Error): Call
    requires call.ReviewFind? || call.ReviewClaim?
  {
    if call.snap.status != PendingReview then Done(ZeroRow) else Done(Failed(error))
  }

  function StartSubmit(db: Db, actor: Actor, id: string, key: string): Call {
    match GetRequest(db, id)
    case Err(error) => Done(Failed(error))
    case Ok(row) =>
      if !MaySubmit(actor, row) then Done(Failed(Forbidden))
      else if Blank(key) then Done(Failed(InvalidInput))
      else SubmitFind(actor, row, key)
  }

  function StartReview(db: Db, actor: Actor, id: string, key: string, decision: Decision, comment: string): Call {
    match GetRequest(db, id)
    case Err(error) => Done(Failed(error))
    case Ok(row) =>
      if row.status == DecidedStatus(decision) then
        if Blank(key) then Done(ZeroRow) else ReviewFind(actor, row, key, decision, comment)
      else if row.status != PendingReview then Done(Failed(Conflict))
      else if !CanReview(actor, row) || actor.id == row.requester then Done(Failed(Forbidden))
      else if Blank(key) then Done(Failed(InvalidInput))
      else ReviewFind(actor, row, key, decision, comment)
  }

  function StartResult(db: Db, actor: Actor, id: string, success: bool, message: string): Call {
    if !MayRecord(actor) then Done(Failed(Forbidden))
    else match GetRequest(db, id)
         case Err(error) => Done(Failed(error))
         case Ok(row) =>
           if AwaitsExecution(row) then Swapping(actor, row, Execute(success, message), None, Answer)
           else Done(Failed(Conflict))
  }

  function ClaimSubmit(call: Call, db: Db, now: Time): (Call, Db)
    requires call.SubmitClaim?
  {
    var (claimed, error) := Claim(db, SubmitScope(call.snap.id), call.key, call.actor.id, call.snap.id, now);
    if error.Some? then (SubmitRecheck(call.actor, call.snap, call.key), db)
    else if call.snap.status != Draft then (Done(Failed(Conflict)), claimed)
    else (Swapping(call.actor, call.snap, Submit(call.key), None, Answer), claimed)
  }

  function ClaimReview(cfg: Config, call: Call, db: Db, now: Time): (Call, Db)
    requires call.ReviewClaim?
  {
    var (claimed, error) := Claim(db, ReviewScope(call.decision, call.snap.id), call.key,
                                  Fingerprint(cfg, call.decision, call.comment), call.snap.id, now);
    if error.Some? then (RefuseReview(call, error.value), db) else (AfterReviewKey(call, false), claimed)
  }

  /** The executor call for the first row of the batch, and the status check of `applyExecutionResult`. */
  function Invoke(cfg: Config, call: Call, input: Input): Call
    requires call.Invoking? && call.batch != []
  {
    var snap := call.batch[0];
    var failure := Outcome(cfg, snap, input);
    var change := Execute(failure.None?, if failure.Some? then failure.value else "");
    var rest := Executing(call.now, call.batch[1..]);
    if AwaitsExecution(snap) then Swapping(SYSTEM, snap, change, None, rest)
    else Log(snap, OwedRun(snap.id, snap.attempts + 1, change, rest), rest)
  }

  /** One stage of a call. A stage whose input the world cannot supply (an id that is not fresh, a query answer that
      is not one) does nothing. */
  ghost function Act(cfg: Config, call: Call, db: Db, input: Input): (Call, Db) {
    match call
    case Drafting(actor, draft, id) =>
      if !ValidActor(actor) || Blank(draft.kind) || Blank(draft.target) || Blank(draft.justification)
      then (Done(Failed(InvalidInput)), db)
      else (Creating(actor, NewDraft(id, actor, draft, input.now)), db)
    case Creating(actor, row) =>
      if !FreshId(db, row.id) then (call, db)
      else (Logging(row, [OweAudit(row.id, actor, DraftCreated, "draft request created")], Answer), PutRequest(db, row))
    case SubmitRead(actor, id, key) => (StartSubmit(db, actor, id, key), db)
    case SubmitFind(actor, snap, key) =>
      (match GetIdempotency(db, SubmitScope(snap.id), key)
       case Ok(record) => if record.fingerprint != actor.id then Done(Failed(KeyUsed)) else Reread(snap.id)
       case Err(_) => SubmitClaim(actor, snap, key), db)
    case SubmitClaim(_, _, _) => ClaimSubmit(call, db, input.now)
    case SubmitRecheck(actor, snap, key) =>
      (match GetIdempotency(db, SubmitScope(snap.id), key)
       case Ok(record) => if record.fingerprint != actor.id then Done(Failed(KeyUsed)) else Reread(snap.id)
       case Err(_) => Done(Failed(Conflict)), db)
    case Reread(id) =>
      (match GetRequest(db, id) case Ok(row) => Done(Returned(row)) case Err(error) => Done(Failed(error)), db)
    case ReviewRead(actor, id, key, decision, comment) => (StartReview(db, actor, id, key, decision, comment), db)
    case ReviewFind(actor, snap, key, decision, comment) =>
      (match GetIdempotency(db, ReviewScope(decision, snap.id), key)
       case Ok(record) =>
         if record.fingerprint != Fingerprint(cfg, decision, comment) then RefuseReview(call, KeyUsed)
         else AfterReviewKey(call, true)
       case Err(_) => ReviewClaim(actor, snap, key, decision, comment), db)
    case ReviewClaim(_, _, _, _, _) => ClaimReview(cfg, call, db, input.now)
    case ResultRead(actor, id, success, message) => (StartResult(db, actor, id, success, message), db)
    case RemindStart(limit) => (RemindList(limit, input.now), db)
    case RemindList(limit, now) =>
      if !PicksReminders(db.requests, now - cfg.reminderAfter, limit, input.pick) then (call, db)
      else (Continue(Finished, Reminding(now, input.pick)), db)
    case ExecuteStart(limit) => (ExecuteList(limit, input.now), db)
    case ExecuteList(limit, now) =>
      if !PicksExecutions(db.requests, now, limit, input.pick) then (call, db)
      else (Continue(Finished, Executing(now, input.pick)), db)
    case Invoking(now, batch) => (if batch == [] then Done(Finished) else Invoke(cfg, call, input), db)
    case Swapping(actor, snap, change, at, then_) =>
      if at == None then (call.(at := Some(input.now)), db) else Swap(cfg, call, db)
    case Logging(row, owed, then_) =>
      if owed == [] then (Continue(Returned(row), then_), db)
      else (Log(row, owed[1..], then_), Append(db, owed[0], input.now))
    case Done(_) => (call, db)
  }

  /** Only a claim files an idempotency record. */
  lemma KeysStay(cfg: Config, call: Call, db: Db, input: Input)
    requires !call.SubmitClaim? && !call.ReviewClaim?
    ensures Act(cfg, call, db, input).1.idempotency == db.idempotency
  {
    hide Fingerprint, ReviewScope, SubmitScope, Compound, Blank, StartSubmit, StartReview, StartResult, Invoke,
      Continue, Log, Apply, Owes, OwedRun, Picks, AfterReviewKey, RefuseReview;
  }

  /** A call left to itself for as many stages as there are inputs. */
  ghost function After(cfg: Config, call: Call, db: Db, inputs: seq<Input>): (Call, Db) {
    if inputs == [] then (call, db)
    else
      var (c, d) := After(cfg, call, db, inputs[..|inputs| - 1]);
      Act(cfg, c, d, inputs[|inputs| - 1])
  }
}
