/** What each stage of a call does, one by one. */
module Stages {
  import opened Domain
  import opened Workflow
  import opened Database
  import opened Calls

  lemma DraftingStage(cfg: Config, actor: Actor, draft: DraftInput, id: string, db: Db, input: Input)
    ensures Act(cfg, Drafting(actor, draft, id), db, input) ==
      (if !ValidActor(actor) || Blank(draft.kind) || Blank(draft.target) || Blank(draft.justification)
       then Done(Failed(InvalidInput)) else Creating(actor, NewDraft(id, actor, draft, input.now)), db)
  {
  }

  lemma CreatingStage(cfg: Config, actor: Actor, row: Request, db: Db, input: Input)
    requires FreshId(db, row.id)
    ensures Act(cfg, Creating(actor, row), db, input) ==
      (Logging(row, [OweAudit(row.id, actor, DraftCreated, "draft request created")], Answer), PutRequest(db, row))
  {
  }

  lemma LoggingStage(cfg: Config, row: Request, owed: seq<Owed>, rest: Rest, db: Db, input: Input)
    requires owed != []
    ensures Act(cfg, Logging(row, owed, rest), db, input) == (Log(row, owed[1..], rest), Append(db, owed[0], input.now))
  {
  }

  lemma SubmitReadStage(cfg: Config, actor: Actor, id: string, key: string, db: Db, input: Input)
    ensures Act(cfg, SubmitRead(actor, id, key), db, input) == (StartSubmit(db, actor, id, key), db)
  {
  }

  lemma ReviewReadStage(cfg: Config, actor: Actor, id: string, key: string, d: Decision, comment: string, db: Db,
                        input: Input)
    ensures Act(cfg, ReviewRead(actor, id, key, d, comment), db, input)
            == (StartReview(db, actor, id, key, d, comment), db)
  {
  }

  lemma ResultReadStage(cfg: Config, actor: Actor, id: string, success: bool, message: string, db: Db, input: Input)
    ensures Act(cfg, ResultRead(actor, id, success, message), db, input)
            == (StartResult(db, actor, id, success, message), db)
  {
  }

  lemma RereadStage(cfg: Config, id: string, db: Db, input: Input)
    ensures Act(cfg, Reread(id), db, input) ==
      (if id in db.requests then Done(Returned(db.requests[id])) else Done(Failed(NotFound)), db)
  {
  }

  lemma SwappingStage(cfg: Config, call: Call, db: Db, input: Input)
    requires call.Swapping?
    ensures Act(cfg, call, db, input) == if call.at == None then (call.(at := Some(input.now)), db)
            else Swap(cfg, call, db)
  {
  }

  /** The stages of `ensureIdempotency`. */
  predicate UsesKey(call: Call) {
    call.SubmitFind? || call.SubmitClaim? || call.ReviewFind? || call.ReviewClaim?
  }

  /** The scope a call's key is claimed in, and the payload it is claimed with. */
  function KeyScope(call: Call): string
    requires UsesKey(call)
  {
    if call.SubmitFind? || call.SubmitClaim? then SubmitScope(call.snap.id)
      else ReviewScope(call.decision, call.snap.id)
  }

  function KeyPayload(cfg: Config, call: Call): string
    requires UsesKey(call)
  {
    if call.SubmitFind? || call.SubmitClaim? then call.actor.id else Fingerprint(cfg, call.decision, call.comment)
  }

  /** The stage before a key is claimed. */
  function Claiming(call: Call): Call
    requires call.SubmitFind? || call.ReviewFind?
  {
    if call.SubmitFind? then SubmitClaim(call.actor, call.snap, call.key)
    else ReviewClaim(call.actor, call.snap, call.key, call.decision, call.comment)
  }

  /** Where `ensureIdempotency` leaves its caller. */
  function AfterKey(call: Call, error: Option<Error>): Call
    requires call.SubmitFind? || call.ReviewFind?
  {
    if call.ReviewFind? then
      if error == None then AfterReviewKey(call, false)
      else if error == Some(NotFound) then AfterReviewKey(call, true)
      else RefuseReview(call, error.value)
    else
      match error
      case None =>
        if call.snap.status != Draft then Done(Failed(Conflict))
        else Swapping(call.actor, call.snap, Submit(call.key), None, Answer)
      case Some(NotFound) => Reread(call.snap.id)
      case Some(Conflict) => SubmitRecheck(call.actor, call.snap, call.key)
      case Some(other) => Done(Failed(other))
  }

  lemma FindStage(cfg: Config, call: Call, db: Db, input: Input)
    requires call.SubmitFind? || call.ReviewFind?
    ensures Act(cfg, call, db, input) ==
      (match Database.GetIdempotency(db, KeyScope(call), call.key)
       case Ok(record) =>
         if record.fingerprint != KeyPayload(cfg, call) then AfterKey(call, Some(KeyUsed))
         else AfterKey(call, Some(NotFound))
       case Err(_) => Claiming(call), db)
  {
  }

  lemma ClaimStage(cfg: Config, call: Call, db: Db, input: Input)
    requires call.SubmitFind? || call.ReviewFind?
    ensures var (claimed, error) := Claim(db, KeyScope(call), call.key, KeyPayload(cfg, call), call.snap.id, input.now);
            Act(cfg, Claiming(call), db, input) == (AfterKey(call, error), claimed)
  {
    hide Fingerprint, SubmitScope, ReviewScope, Compound;
  }

  lemma RecheckStage(cfg: Config, actor: Actor, snap: Request, key: string, db: Db, input: Input)
    ensures Act(cfg, SubmitRecheck(actor, snap, key), db, input) ==
      (match Database.GetIdempotency(db, SubmitScope(snap.id), key)
       case Ok(record) => if record.fingerprint != actor.id then Done(Failed(KeyUsed)) else Reread(snap.id)
       case Err(_) => Done(Failed(Conflict)), db)
  {
  }

  lemma ListingStages(cfg: Config, limit: int, now: Time, db: Db, input: Input)
    ensures Act(cfg, RemindStart(limit), db, input) == (RemindList(limit, input.now), db)
    ensures Act(cfg, ExecuteStart(limit), db, input) == (ExecuteList(limit, input.now), db)
    ensures PicksReminders(db.requests, now - cfg.reminderAfter, limit, input.pick) ==>
              Act(cfg, RemindList(limit, now), db, input) == (Continue(Finished, Reminding(now, input.pick)), db)
    ensures PicksExecutions(db.requests, now, limit, input.pick) ==>
              Act(cfg, ExecuteList(limit, now), db, input) == (Continue(Finished, Executing(now, input.pick)), db)
  {
    hide Picks;
  }

  lemma InvokingStage(cfg: Config, now: Time, batch: seq<Request>, db: Db, input: Input)
    requires batch != []
    ensures Act(cfg, Invoking(now, batch), db, input) == (Invoke(cfg, Invoking(now, batch), input), db)
  {
  }

  lemma DoneStage(cfg: Config, call: Call, db: Db, input: Input)
    requires call.Done?
    ensures Act(cfg, call, db, input) == (call, db)
  {
  }
}
