/** What drafting, submitting and reporting promise a client, in plain terms of rows, keys and logs: the answer in every
    case, and what each stage writes. `met` are the stores the call meets at its stages, as any other calls have left
    them; Meetings shows that every call of every run goes through such stores. */
module Promises {
  import opened Domain
  import opened Workflow
  import opened Database
  import opened Calls
  import opened Machine
  import opened Stages
  import opened Meetings

  // ---------- Swapping and logging

  /** The clock reading and the swap of an API call. */
  lemma SwapMet(cfg: Config, call: Call, met: seq<Met>, n: nat, actor: Actor, row: Request, change: Change)
    requires n + 2 <= |met| && Through(cfg, call, met[..n]) == Swapping(actor, row, change, None, Answer)
    ensures Left(cfg, call, met, n) == met[n].db
    ensures var at, db := met[n].input.now, met[n + 1].db;
            var next := Apply(cfg, row, change, at);
            if row.id !in db.requests then
              Through(cfg, call, met) == Done(Failed(NotFound)) && Spares(cfg, call, met, n + 1)
            else if db.requests[row.id].version != row.version then
              Through(cfg, call, met) == Done(Failed(Conflict)) && Spares(cfg, call, met, n + 1)
            else
              && Left(cfg, call, met, n + 1) == db.(requests := db.requests[row.id := next])
              && Through(cfg, call, met[..n + 2]) == Log(next, Owes(actor, change, next, at, Answer), Answer)
  {
    hide Act, Through, Left, Apply, Owes, Log, Spares;
    var first := Swapping(actor, row, change, None, Answer);
    var at, db := met[n].input.now, met[n + 1].db;
    Next(cfg, call, met, n);
    SwappingStage(cfg, first, met[n].db, met[n].input);
    Next(cfg, call, met, n + 1);
    SwappingStage(cfg, first.(at := Some(at)), db, met[n + 1].input);
    ApplyKeepsId(cfg, row, change, at);
    if row.id !in db.requests || db.requests[row.id].version != row.version {
      Over(cfg, call, met, n + 2);
      hide Swap;
      SpareFrom(cfg, call, met, n + 1);
    }
  }

  lemma SpareFrom(cfg: Config, call: Call, met: seq<Met>, i: nat)
    requires i < |met| && Left(cfg, call, met, i) == met[i].db && Spares(cfg, call, met, i + 1)
    ensures Spares(cfg, call, met, i)
  {
  }

  lemma LogMet(cfg: Config, call: Call, met: seq<Met>, n: nat, row: Request, owed: seq<Owed>, rest: Rest)
    requires n < |met| && owed != [] && Through(cfg, call, met[..n]) == Log(row, owed, rest)
    ensures Left(cfg, call, met, n) == Append(met[n].db, owed[0], met[n].input.now)
    ensures Through(cfg, call, met[..n + 1]) == Log(row, owed[1..], rest)
  {
    hide Act, Through, Left, Append;
    LogOne(row, owed, rest);
    Next(cfg, call, met, n);
    LoggingStage(cfg, row, owed, rest, met[n].db, met[n].input);
  }

  /** A call that is done after `n` stages that wrote nothing. */
  lemma Ends(cfg: Config, call: Call, met: seq<Met>, n: nat)
    requires n <= |met| && Through(cfg, call, met[..n]).Done?
    requires forall k :: 0 <= k < n ==> Left(cfg, call, met, k) == met[k].db
    ensures Through(cfg, call, met) == Through(cfg, call, met[..n]) && Spares(cfg, call, met, 0)
  {
    hide Through, Left;
    Over(cfg, call, met, n);
  }

  // ---------- Drafting

  /** A draft is refused without an actor's id, with an unknown role, or with a blank field; nothing is stored. */
  lemma DraftRefused(cfg: Config, actor: Actor, input: DraftInput, id: string, met: seq<Met>)
    requires |met| >= 1
    requires || Blank(actor.id) || actor.role.OtherRole?
             || Blank(input.kind) || Blank(input.target) || Blank(input.justification)
    ensures var call := Drafting(actor, input, id);
            Through(cfg, call, met) == Done(Failed(InvalidInput)) && Spares(cfg, call, met, 0)
  {
    hide Through, Left, Blank, Act;
    var call := Drafting(actor, input, id);
    AtFirst(cfg, call, met);
    Next(cfg, call, met, 0);
    DraftingStage(cfg, actor, input, id, met[0].db, met[0].input);
    Ends(cfg, call, met, 1);
  }

  /** Any other draft is stored under its id, as it was put in but for surrounding space, and logged. */
  lemma DraftKept(cfg: Config, actor: Actor, input: DraftInput, id: string, met: seq<Met>)
    requires |met| >= 3 && FreshId(met[1].db, id)
    requires !Blank(actor.id) && actor.role in {Employee, Reviewer, Admin}
    requires !Blank(input.kind) && !Blank(input.target) && !Blank(input.justification)
    ensures var call := Drafting(actor, input, id);
            var now := met[0].input.now;
            var row := Request(
              id := id, kind := TrimSpace(input.kind), target := TrimSpace(input.target),
              justification := TrimSpace(input.justification), requester := actor.id, reviewer := "",
              status := Draft, version := 1, reminders := 0, attempts := 0, lastError := "",
              createdAt := now, updatedAt := now, submittedAt := None, approvedAt := None, reviewedAt := None,
              executedAt := None, remindedAt := None, nextAt := None);
            var entry := AuditEntry(id, actor, DraftCreated, "draft request created", met[2].input.now);
            var (created, logged) := (met[1].db, met[2].db);
            && Through(cfg, call, met) == Done(Returned(row))
            && Left(cfg, call, met, 0) == met[0].db
            && Left(cfg, call, met, 1) == created.(requests := created.requests[id := row])
            && Left(cfg, call, met, 2) == logged.(audit := logged.audit[id := Listed(logged.audit, id) + [entry]])
  {
    hide Through, Left, Blank, Act, TrimSpace;
    var call := Drafting(actor, input, id);
    var row := NewDraft(id, actor, input, met[0].input.now);
    AtFirst(cfg, call, met);
    Next(cfg, call, met, 0);
    DraftingStage(cfg, actor, input, id, met[0].db, met[0].input);
    Next(cfg, call, met, 1);
    CreatingStage(cfg, actor, row, met[1].db, met[1].input);
    LogMet(cfg, call, met, 2, row, [OweAudit(id, actor, DraftCreated, "draft request created")], Answer);
    Over(cfg, call, met, 3);
  }

  // ---------- Submitting

  /** The compound key of a submission. */
  function SubmitKey(id: string, key: string): string {
    "submit:" + id + "|" + key
  }

  lemma SubmitKeyIs(id: string, key: string)
    ensures SubmitKey(id, key) == Compound(SubmitScope(id), key)
  {
  }

  /** The request exists, the actor is its requester or an admin, and the key is not blank. */
  predicate MayTry(db: Db, actor: Actor, id: string, key: string) {
    && id in db.requests && db.requests[id].id == id
    && (actor.role == Admin || actor.id == db.requests[id].requester)
    && !Blank(key)
  }

  /** A submission is refused for a request that does not exist, to anyone but its requester and admins, and without a
      key; nothing is written. */
  lemma SubmitRefused(cfg: Config, actor: Actor, id: string, key: string, met: seq<Met>)
    requires |met| >= 1
    requires var rows := met[0].db.requests;
             || id !in rows || (actor.role != Admin && actor.id != rows[id].requester) || Blank(key)
    ensures var call := SubmitRead(actor, id, key);
            var rows := met[0].db.requests;
            && Spares(cfg, call, met, 0)
            && Through(cfg, call, met) == Done(Failed(
                 if id !in rows then NotFound
                 else if actor.role != Admin && actor.id != rows[id].requester then Forbidden
                 else InvalidInput))
  {
    hide Through, Left, Blank, Act;
    var call := SubmitRead(actor, id, key);
    AtFirst(cfg, call, met);
    Next(cfg, call, met, 0);
    SubmitReadStage(cfg, actor, id, key, met[0].db, met[0].input);
    Ends(cfg, call, met, 1);
  }

  lemma SubmitLooks(cfg: Config, actor: Actor, id: string, key: string, met: seq<Met>)
    requires |met| >= 2 && MayTry(met[0].db, actor, id, key)
    ensures var call := SubmitRead(actor, id, key);
            && Left(cfg, call, met, 0) == met[0].db && Left(cfg, call, met, 1) == met[1].db
            && Through(cfg, call, met[..1]) == SubmitFind(actor, met[0].db.requests[id], key)
            && Through(cfg, call, met[..2]) ==
                 match GetIdempotency(met[1].db, SubmitScope(id), key)
                 case Ok(record) => if record.fingerprint != actor.id then Done(Failed(KeyUsed)) else Reread(id)
                 case Err(_) => SubmitClaim(actor, met[0].db.requests[id], key)
  {
    hide Through, Left, Blank, Act, GetIdempotency;
    var call := SubmitRead(actor, id, key);
    AtFirst(cfg, call, met);
    Next(cfg, call, met, 0);
    SubmitReadStage(cfg, actor, id, key, met[0].db, met[0].input);
    Next(cfg, call, met, 1);
    FindStage(cfg, SubmitFind(actor, met[0].db.requests[id], key), met[1].db, met[1].input);
  }

  lemma RereadMet(cfg: Config, call: Call, met: seq<Met>, n: nat, id: string)
    requires n < |met| && Through(cfg, call, met[..n]) == Reread(id)
    requires forall k :: 0 <= k < n ==> Left(cfg, call, met, k) == met[k].db
    ensures var rows := met[n].db.requests;
            && Spares(cfg, call, met, 0)
            && Through(cfg, call, met) == Done(if id in rows then Returned(rows[id]) else Failed(NotFound))
  {
    hide Through, Left, Act;
    Next(cfg, call, met, n);
    RereadStage(cfg, id, met[n].db, met[n].input);
    Ends(cfg, call, met, n + 1);
  }

  /** A submission whose key is on record answers with the row as it then is, if the record is the actor's, and is
      refused otherwise; nothing is written. */
  lemma SubmitReplayed(cfg: Config, actor: Actor, id: string, key: string, met: seq<Met>)
    requires |met| >= 3 && MayTry(met[0].db, actor, id, key) && SubmitKey(id, key) in met[1].db.idempotency
    ensures var call := SubmitRead(actor, id, key);
            var record, rows := met[1].db.idempotency[SubmitKey(id, key)], met[2].db.requests;
            && Spares(cfg, call, met, 0)
            && Through(cfg, call, met) == Done(
                 if record.fingerprint != actor.id then Failed(KeyUsed)
                 else if id in rows then Returned(rows[id]) else Failed(NotFound))
  {
    hide Through, Left, Blank, Act, Compound, SubmitKey;
    var call := SubmitRead(actor, id, key);
    SubmitKeyIs(id, key);
    SubmitLooks(cfg, actor, id, key, met);
    if Through(cfg, call, met[..2]).Done? {
      Ends(cfg, call, met, 2);
    } else {
      RereadMet(cfg, call, met, 2, id);
    }
  }

  lemma SubmitClaims(cfg: Config, actor: Actor, id: string, key: string, met: seq<Met>)
    requires |met| >= 3 && MayTry(met[0].db, actor, id, key) && SubmitKey(id, key) !in met[1].db.idempotency
    ensures var call := SubmitRead(actor, id, key);
            var row := met[0].db.requests[id];
            && Left(cfg, call, met, 0) == met[0].db && Left(cfg, call, met, 1) == met[1].db
            && (Through(cfg, call, met[..3]), Left(cfg, call, met, 2))
               == ClaimSubmit(SubmitClaim(actor, row, key), met[2].db, met[2].input.now)
  {
    hide Through, Left, Blank, Act, Compound, SubmitKey, ClaimSubmit;
    var call, row := SubmitRead(actor, id, key), met[0].db.requests[id];
    SubmitKeyIs(id, key);
    SubmitLooks(cfg, actor, id, key, met);
    Next(cfg, call, met, 2);
    assert Act(cfg, SubmitClaim(actor, row, key), met[2].db, met[2].input)
        == ClaimSubmit(SubmitClaim(actor, row, key), met[2].db, met[2].input.now) by {
          SubmitClaimStage(cfg, actor, row, key, met[2]);
        }
  }

  lemma SubmitClaimStage(cfg: Config, actor: Actor, row: Request, key: string, met: Met)
    ensures Act(cfg, SubmitClaim(actor, row, key), met.db, met.input)
            == ClaimSubmit(SubmitClaim(actor, row, key), met.db, met.input.now)
  {
    hide ClaimSubmit;
  }

  /** A submission whose claim comes second to an equal key answers as the record then says; nothing is written. */
  lemma SubmitOutclaimed(cfg: Config, actor: Actor, id: string, key: string, met: seq<Met>)
    requires |met| >= 5 && MayTry(met[0].db, actor, id, key)
    requires SubmitKey(id, key) !in met[1].db.idempotency && SubmitKey(id, key) in met[2].db.idempotency
    ensures var call := SubmitRead(actor, id, key);
            var records, rows := met[3].db.idempotency, met[4].db.requests;
            && Spares(cfg, call, met, 0)
            && Through(cfg, call, met) == Done(
                 if SubmitKey(id, key) !in records then Failed(Conflict)
                 else if records[SubmitKey(id, key)].fingerprint != actor.id then Failed(KeyUsed)
                 else if id in rows then Returned(rows[id]) else Failed(NotFound))
  {
    hide Through, Left, Blank, Act, Compound, SubmitKey;
    var call, row := SubmitRead(actor, id, key), met[0].db.requests[id];
    SubmitKeyIs(id, key);
    SubmitClaims(cfg, actor, id, key, met);
    Next(cfg, call, met, 3);
    RecheckStage(cfg, actor, row, key, met[3].db, met[3].input);
    if Through(cfg, call, met[..4]).Done? {
      Ends(cfg, call, met, 4);
    } else {
      RereadMet(cfg, call, met, 4, id);
    }
  }

  /** The record that a submission files. */
  predicate Files(before: Db, after: Db, id: string, key: string, payload: string, now: Time) {
    after == before.(idempotency := before.idempotency[
      SubmitKey(id, key) := IdempotencyRecord(key, "submit:" + id, payload, id, now)])
  }

  /** A submission with a new key of a request that is no longer a draft is a conflict, with its key used up. */
  lemma SubmitNotDraft(cfg: Config, actor: Actor, id: string, key: string, met: seq<Met>)
    requires |met| >= 3 && MayTry(met[0].db, actor, id, key) && met[0].db.requests[id].status != Draft
    requires SubmitKey(id, key) !in met[1].db.idempotency && SubmitKey(id, key) !in met[2].db.idempotency
    ensures var call := SubmitRead(actor, id, key);
            && Through(cfg, call, met) == Done(Failed(Conflict))
            && Left(cfg, call, met, 0) == met[0].db && Left(cfg, call, met, 1) == met[1].db
            && Files(met[2].db, Left(cfg, call, met, 2), id, key, actor.id, met[2].input.now)
            && Spares(cfg, call, met, 3)
  {
    hide Through, Left, Blank;
    var call := SubmitRead(actor, id, key);
    SubmitKeyIs(id, key);
    SubmitClaims(cfg, actor, id, key, met);
    hide Act;
    Over(cfg, call, met, 3);
  }

  lemma SubmitClaimed(cfg: Config, actor: Actor, id: string, key: string, met: seq<Met>)
    requires |met| >= 3 && MayTry(met[0].db, actor, id, key) && met[0].db.requests[id].status == Draft
    requires SubmitKey(id, key) !in met[1].db.idempotency && SubmitKey(id, key) !in met[2].db.idempotency
    ensures var call := SubmitRead(actor, id, key);
            && Left(cfg, call, met, 0) == met[0].db && Left(cfg, call, met, 1) == met[1].db
            && Files(met[2].db, Left(cfg, call, met, 2), id, key, actor.id, met[2].input.now)
            && Through(cfg, call, met[..3]) == Swapping(actor, met[0].db.requests[id], Submit(key), None, Answer)
  {
    hide Through, Left, Blank;
    SubmitKeyIs(id, key);
    SubmitClaims(cfg, actor, id, key, met);
  }

  lemma SubmitWrites(cfg: Config, row: Request, key: string, now: Time)
    ensures Apply(cfg, row, Submit(key), now)
            == row.(status := PendingReview, reviewer := cfg.reviewer, submittedAt := Some(now), updatedAt := now,
                    version := row.version + 1)
  {
  }

  lemma SubmitLogs(cfg: Config, call: Call, met: seq<Met>, actor: Actor, key: string, next: Request, at: Time)
    requires |met| >= 7
    requires Through(cfg, call, met[..5]) == Log(next, Owes(actor, Submit(key), next, at, Answer), Answer)
    ensures Through(cfg, call, met) == Done(Returned(next))
    ensures Logs(met[5].db, Left(cfg, call, met, 5), AuditEntry(
              next.id, actor, RequestSubmitted, "request submitted for review", met[5].input.now))
    ensures Logs(met[6].db, Left(cfg, call, met, 6), AuditEntry(
              next.id, Actor("system", Admin), ReviewAssigned, "request assigned to reviewer", met[6].input.now))
  {
    hide Through, Left;
    var owed := Owes(actor, Submit(key), next, at, Answer);
    assert |owed| == 2 && owed[1..][1..] == [];
    LogMet(cfg, call, met, 5, next, owed, Answer);
    LogMet(cfg, call, met, 6, next, owed[1..], Answer);
    Over(cfg, call, met, 7);
  }

  /** A submission of a draft with a new key: when the stored row still has the version that was read it becomes pending
      with the default reviewer, and is answered; the key, the row and two audit entries are all that is written.
      Otherwise it is a conflict. */
  lemma SubmitDraft(cfg: Config, actor: Actor, id: string, key: string, met: seq<Met>)
    requires |met| >= 7 && MayTry(met[0].db, actor, id, key) && met[0].db.requests[id].status == Draft
    requires SubmitKey(id, key) !in met[1].db.idempotency && SubmitKey(id, key) !in met[2].db.idempotency
    ensures var call := SubmitRead(actor, id, key);
            var (row, now) := (met[0].db.requests[id], met[3].input.now);
            var next := row.(status := PendingReview, reviewer := cfg.reviewer, submittedAt := Some(now),
                             updatedAt := now, version := row.version + 1);
            var (swapped, s5, s6) := (met[4].db, met[5].db, met[6].db);
            && Left(cfg, call, met, 0) == met[0].db && Left(cfg, call, met, 1) == met[1].db
            && Files(met[2].db, Left(cfg, call, met, 2), id, key, actor.id, met[2].input.now)
            && Left(cfg, call, met, 3) == met[3].db
            && if id !in swapped.requests then
                 Through(cfg, call, met) == Done(Failed(NotFound)) && Spares(cfg, call, met, 4)
               else if swapped.requests[id].version != row.version then
                 Through(cfg, call, met) == Done(Failed(Conflict)) && Spares(cfg, call, met, 4)
               else
                 && Through(cfg, call, met) == Done(Returned(next))
                 && Left(cfg, call, met, 4) == swapped.(requests := swapped.requests[id := next])
                 && Logs(s5, Left(cfg, call, met, 5), AuditEntry(
                      id, actor, RequestSubmitted, "request submitted for review", met[5].input.now))
                 && Logs(s6, Left(cfg, call, met, 6), AuditEntry(
                      id, Actor("system", Admin), ReviewAssigned, "request assigned to reviewer", met[6].input.now))
  {
    hide Through, Left, Blank, Act, Spares, Apply, Owes, Logs, Files, SubmitKey;
    var call, row := SubmitRead(actor, id, key), met[0].db.requests[id];
    SubmitClaimed(cfg, actor, id, key, met);
    SwapMet(cfg, call, met, 3, actor, row, Submit(key));
    SubmitWrites(cfg, row, key, met[3].input.now);
    if id in met[4].db.requests && met[4].db.requests[id].version == row.version {
      SubmitLogs(cfg, call, met, actor, key, Apply(cfg, row, Submit(key), met[3].input.now), met[3].input.now);
    }
  }

  /** One audit entry is appended to the log of its request. */
  predicate Logs(before: Db, after: Db, entry: AuditEntry) {
    after == before.(audit := before.audit[entry.requestId := Listed(before.audit, entry.requestId) + [entry]])
  }

  // ---------- Reporting

  /** A report is refused to anyone but reviewers and admins, for a request that does not exist, and for one that does
      not await execution; nothing is written. */
  lemma ReportRefused(cfg: Config, actor: Actor, id: string, success: bool, message: string, met: seq<Met>)
    requires |met| >= 1
    requires var rows := met[0].db.requests;
             || (actor.role != Reviewer && actor.role != Admin) || id !in rows
             || rows[id].status !in {Approved, ExecutionFailed}
    ensures var call := ResultRead(actor, id, success, message);
            && Spares(cfg, call, met, 0)
            && Through(cfg, call, met) == Done(Failed(
                 if actor.role != Reviewer && actor.role != Admin then Forbidden
                 else if id !in met[0].db.requests then NotFound else Conflict))
  {
    hide Through, Left, Act;
    var call := ResultRead(actor, id, success, message);
    AtFirst(cfg, call, met);
    Next(cfg, call, met, 0);
    ResultReadStage(cfg, actor, id, success, message, met[0].db, met[0].input);
    Ends(cfg, call, met, 1);
  }

  lemma ReportWrites(cfg: Config, row: Request, success: bool, message: string, now: Time)
    ensures var tried := row.(attempts := row.attempts + 1, updatedAt := now, version := row.version + 1);
            Apply(cfg, row, Execute(success, message), now) ==
              if success then tried.(status := Executed, executedAt := Some(now), nextAt := None, lastError := "")
              else tried.(status := ExecutionFailed, lastError := TrimSpace(message),
                          nextAt := if row.attempts + 1 < cfg.maxAttempts
                                    then Some(now + (row.attempts + 1) * cfg.retryBase) else None)
  {
    hide TrimSpace;
  }

  lemma ReportLogs(cfg: Config, call: Call, met: seq<Met>, actor: Actor, success: bool, message: string, next: Request,
                   at: Time)
    requires |met| >= 4
    requires Through(cfg, call, met[..3])
             == Log(next, Owes(actor, Execute(success, message), next, at, Answer), Answer)
    ensures Through(cfg, call, met) == Done(Returned(next))
    ensures Logs(met[3].db, Left(cfg, call, met, 3), AuditEntry(
              next.id, actor, if success then AttemptSucceeded else AttemptFailed,
              if success then "request executed successfully" else "execution failed: " + TrimSpace(message),
              met[3].input.now))
  {
    hide Through, Left, TrimSpace;
    var owed := Owes(actor, Execute(success, message), next, at, Answer);
    assert |owed| == 1 && owed[1..] == [];
    LogMet(cfg, call, met, 3, next, owed, Answer);
    Over(cfg, call, met, 4);
  }

  lemma ReportReads(cfg: Config, actor: Actor, id: string, success: bool, message: string, met: seq<Met>)
    requires |met| >= 1 && (actor.role == Reviewer || actor.role == Admin)
    requires var rows := met[0].db.requests;
             id in rows && rows[id].status in {Approved, ExecutionFailed}
    ensures var call := ResultRead(actor, id, success, message);
            && Left(cfg, call, met, 0) == met[0].db
            && Through(cfg, call, met[..1])
               == Swapping(actor, met[0].db.requests[id], Execute(success, message), None, Answer)
  {
    hide Through, Left, Act;
    var call := ResultRead(actor, id, success, message);
    AtFirst(cfg, call, met);
    Next(cfg, call, met, 0);
    ResultReadStage(cfg, actor, id, success, message, met[0].db, met[0].input);
  }

  lemma ReportMet(cfg: Config, actor: Actor, id: string, success: bool, message: string, met: seq<Met>)
    requires |met| >= 4 && (actor.role == Reviewer || actor.role == Admin)
    requires var rows := met[0].db.requests;
             id in rows && rows[id].id == id && rows[id].status in {Approved, ExecutionFailed}
    ensures var call := ResultRead(actor, id, success, message);
            var (row, now, swapped) := (met[0].db.requests[id], met[1].input.now, met[2].db);
            var next := Apply(cfg, row, Execute(success, message), now);
            && Left(cfg, call, met, 0) == met[0].db && Left(cfg, call, met, 1) == met[1].db
            && if id !in swapped.requests then
                 Through(cfg, call, met) == Done(Failed(NotFound)) && Spares(cfg, call, met, 2)
               else if swapped.requests[id].version != row.version then
                 Through(cfg, call, met) == Done(Failed(Conflict)) && Spares(cfg, call, met, 2)
               else
                 && Through(cfg, call, met) == Done(Returned(next))
                 && Left(cfg, call, met, 2) == swapped.(requests := swapped.requests[id := next])
                 && Logs(met[3].db, Left(cfg, call, met, 3), AuditEntry(
                      id, actor, if success then AttemptSucceeded else AttemptFailed,
                      if success then "request executed successfully" else "execution failed: " + TrimSpace(message),
                      met[3].input.now))
  {
    hide Through, Left, Act, TrimSpace, Spares, Apply, Owes, Logs;
    var call, row := ResultRead(actor, id, success, message), met[0].db.requests[id];
    ReportReads(cfg, actor, id, success, message, met);
    SwapMet(cfg, call, met, 1, actor, row, Execute(success, message));
    ApplyKeepsId(cfg, row, Execute(success, message), met[1].input.now);
    if id in met[2].db.requests && met[2].db.requests[id].version == row.version {
      var at := met[1].input.now;
      ReportLogs(cfg, call, met, actor, success, message, Apply(cfg, row, Execute(success, message), at), at);
    }
  }

  /** Any other report is recorded when the stored row still has the version that was read, and is a conflict otherwise.
      A success ends the request; a failure schedules a retry while there is budget. */
  lemma ReportKept(cfg: Config, actor: Actor, id: string, success: bool, message: string, met: seq<Met>)
    requires |met| >= 4 && (actor.role == Reviewer || actor.role == Admin)
    requires var rows := met[0].db.requests;
             id in rows && rows[id].id == id && rows[id].status in {Approved, ExecutionFailed}
    ensures var call := ResultRead(actor, id, success, message);
            var (row, now, swapped) := (met[0].db.requests[id], met[1].input.now, met[2].db);
            var tried := row.(attempts := row.attempts + 1, updatedAt := now, version := row.version + 1);
            var next :=
              if success then tried.(status := Executed, executedAt := Some(now), nextAt := None, lastError := "")
              else tried.(status := ExecutionFailed, lastError := TrimSpace(message),
                          nextAt := if row.attempts + 1 < cfg.maxAttempts
                                    then Some(now + (row.attempts + 1) * cfg.retryBase) else None);
            && Left(cfg, call, met, 0) == met[0].db && Left(cfg, call, met, 1) == met[1].db
            && if id !in swapped.requests then
                 Through(cfg, call, met) == Done(Failed(NotFound)) && Spares(cfg, call, met, 2)
               else if swapped.requests[id].version != row.version then
                 Through(cfg, call, met) == Done(Failed(Conflict)) && Spares(cfg, call, met, 2)
               else
                 && Through(cfg, call, met) == Done(Returned(next))
                 && Left(cfg, call, met, 2) == swapped.(requests := swapped.requests[id := next])
                 && Logs(met[3].db, Left(cfg, call, met, 3), AuditEntry(
                      id, actor, if success then AttemptSucceeded else AttemptFailed,
                      if success then "request executed successfully" else "execution failed: " + TrimSpace(message),
                      met[3].input.now))
  {
    hide Through, Left, TrimSpace, Spares, Apply, Logs;
    ReportWrites(cfg, met[0].db.requests[id], success, message, met[1].input.now);
    ReportMet(cfg, actor, id, success, message, met);
  }
}
