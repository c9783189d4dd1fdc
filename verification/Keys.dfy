/** Idempotency keys: stored records never change, a claim is lost to a reminder at most, and replays are
    harmless. */
module Keys {
  import opened Domain
  import opened Workflow
  import opened Database
  import opened Calls
  import opened Machine
  import opened Schedules
  import opened Stages
  import opened Decisions

  /** The record of (scope, key) is stored with this payload. */
  predicate Known(db: Db, scope: string, key: string, fingerprint: string) {
    Compound(scope, key) in db.idempotency && db.idempotency[Compound(scope, key)].fingerprint == fingerprint
  }

  ghost predicate Keeps(before: Db, after: Db) {
    forall k <- before.idempotency :: k in after.idempotency && after.idempotency[k] == before.idempotency[k]
  }

  lemma ActKeepsRecords(cfg: Config, call: Call, db: Db, input: Input)
    ensures Keeps(db, Act(cfg, call, db, input).1)
  {
    hide Fingerprint, ReviewScope, SubmitScope, Compound, AfterReviewKey, RefuseReview;
    if !call.SubmitClaim? && !call.ReviewClaim? {
      hide Act;
      KeysStay(cfg, call, db, input);
    }
  }

  lemma StepKeepsRecords(cfg: Config, s: System, move: Move)
    ensures Keeps(s.db, Step(cfg, s, move).db)
  {
    hide Act;
    if move.Stage? && move.pid < |s.calls| {
      ActKeepsRecords(cfg, s.calls[move.pid], s.db, Input(s.clock, move.pick, move.outcome));
    }
  }

  /** Idempotency records are never changed or dropped once stored. */
  lemma {:induction false} RecordsNeverChange(cfg: Config, moves: seq<Move>, i: nat, j: nat)
    requires i <= j <= |moves|
    ensures Keeps(Run(cfg, moves[..i]).db, Run(cfg, moves[..j]).db)
    decreases j
  {
    if i < j {
      hide Step;
      RecordsNeverChange(cfg, moves, i, j - 1);
      StepKeepsRecords(cfg, Run(cfg, moves[..j - 1]), moves[j - 1]);
      assert moves[..j][..j - 1] == moves[..j - 1];
    }
  }

  // ---------- No claim is lost

  predicate IsClaim(call: Call) {
    call.SubmitClaim? || call.ReviewClaim?
  }

  /** The change that a key is claimed for. */
  function Aim(claim: Call): Change
    requires IsClaim(claim)
  {
    if claim.SubmitClaim? then Submit(claim.key) else Decide(claim.decision, claim.comment, claim.key)
  }

  /** The call has made this claim and not yet tried its swap. */
  predicate Holds(call: Call, claim: Call)
    requires IsClaim(claim)
  {
    call.Swapping? && call.actor == claim.actor && call.snap == claim.snap && call.change == Aim(claim)
  }

  /** The row has left the state in which its claimant read it: a submission's is past draft, a decision's is decided or
      has been reminded since. */
  predicate MovedOn(rows: Rows, claim: Call)
    requires IsClaim(claim)
  {
    var id := claim.snap.id;
    && id in rows
    && if claim.SubmitClaim? then rows[id].status != Draft
       else Decided(rows[id].status) || rows[id].reminders > claim.snap.reminders
  }

  ghost predicate Kept(s: System, claim: Call)
    requires IsClaim(claim)
  {
    MovedOn(s.db.requests, claim) || exists call <- s.calls :: Holds(call, claim)
  }

  /** The record was filed by this claim. */
  ghost predicate IsFor(cfg: Config, record: IdempotencyRecord, claim: Call) {
    && IsClaim(claim)
    && record.scope == KeyScope(claim) && record.key == claim.key
    && record.fingerprint == KeyPayload(cfg, claim) && record.requestId == claim.snap.id
  }

  /** Move `i` of the schedule is the claim that filed a record under `k`. */
  ghost predicate FiledBy(cfg: Config, moves: seq<Move>, i: nat, k: string, claim: Call) {
    && i < |moves| && moves[i].Stage? && At(cfg, moves[..i], moves[i].pid, claim)
    && IsClaim(claim) && k == Compound(KeyScope(claim), claim.key)
    && k !in Run(cfg, moves[..i]).db.idempotency
  }

  /** A decision's swap leaves its request pending exactly when a reminder has changed the row since it was read and
      nobody has decided it. */
  lemma DecisionBeaten(cfg: Config, call: Call, db: Db)
    requires cfg.maxAttempts >= 1 && call.Swapping? && call.at.Some? && call.change.Decide?
    requires RowsOk(cfg, db.requests) && CallOk(cfg, call, db.requests)
    ensures var before, after := db.requests, Swap(cfg, call, db).1.requests;
            var id := call.snap.id;
            && id in before && id in after
            && (after[id].status == PendingReview <==>
                  before[id].status == PendingReview && before[id].reminders > call.snap.reminders)
            && (Decided(after[id].status) || after[id].reminders > call.snap.reminders)
  {
    hide Swap, RestOk, RowsOk, TrimSpace, CanReview;
    SwapEither(cfg, call, db);
  }

  lemma SubmissionSettles(cfg: Config, call: Call, db: Db)
    requires cfg.maxAttempts >= 1 && call.Swapping? && call.at.Some? && call.change.Submit?
    requires RowsOk(cfg, db.requests) && CallOk(cfg, call, db.requests)
    ensures var after := Swap(cfg, call, db).1.requests;
            call.snap.id in after && after[call.snap.id].status != Draft
  {
    hide Swap, RestOk, RowsOk, MaySubmit;
    SwapEither(cfg, call, db);
  }

  /** Won or lost, the claimant's swap leaves the row moved on: only another submission can have beaten a submission,
      and only another decision or a reminder a decision. */
  lemma HolderSettles(cfg: Config, call: Call, db: Db, input: Input, claim: Call)
    requires cfg.maxAttempts >= 1 && RowsOk(cfg, db.requests) && CallOk(cfg, call, db.requests)
    requires IsClaim(claim) && Holds(call, claim)
    ensures var (c, d) := Act(cfg, call, db, input);
            Holds(c, claim) || MovedOn(d.requests, claim)
  {
    hide RowsOk, CallOk, Swap;
    if call.at.Some? {
      if call.change.Submit? {
        SubmissionSettles(cfg, call, db);
      } else {
        DecisionBeaten(cfg, call, db);
      }
    }
  }

  /** A stage that files a record is a claim, and holds it unless it found the row moved on when it read it. */
  lemma NewRecord(cfg: Config, call: Call, db: Db, input: Input, k: string)
    requires CallOk(cfg, call, db.requests)
    requires k in Act(cfg, call, db, input).1.idempotency && k !in db.idempotency
    ensures IsClaim(call) && k == Compound(KeyScope(call), call.key)
    ensures var (c, d) := Act(cfg, call, db, input);
            IsFor(cfg, d.idempotency[k], call) && (Holds(c, call) || MovedOn(d.requests, call))
  {
    hide Shape, Fingerprint, MaySubmit, CanReview, SubmitScope, ReviewScope, Compound;
    if !IsClaim(call) {
      hide Act, CallOk;
      KeysStay(cfg, call, db, input);
    }
  }

  lemma MovedOnGrows(before: Rows, after: Rows, claim: Call)
    requires IsClaim(claim) && MovedOn(before, claim) && Grows(before, after)
    ensures MovedOn(after, claim)
  {
    assert Descends(before[claim.snap.id], after[claim.snap.id]);
  }

  lemma StepKept(cfg: Config, s: System, move: Move, claim: Call)
    requires cfg.maxAttempts >= 1 && Core(cfg, s) && IsClaim(claim) && Kept(s, claim)
    ensures Kept(Step(cfg, s, move), claim)
  {
    hide CallOk, RowsOk, Grows, Act, MovedOn, Holds, IsClaim;
    var t := Step(cfg, s, move);
    StepCore(cfg, s, move);
    if MovedOn(s.db.requests, claim) {
      MovedOnGrows(s.db.requests, t.db.requests, claim);
    } else {
      var p :| 0 <= p < |s.calls| && Holds(s.calls[p], claim);
      if move.Stage? && move.pid == p {
        HolderSettles(cfg, s.calls[p], s.db, Input(s.clock, move.pick, move.outcome), claim);
      } else {
        HolderStays(cfg, s, move, p, claim);
      }
      assert t.calls[p] in t.calls;
    }
  }

  lemma HolderStays(cfg: Config, s: System, move: Move, p: nat, claim: Call)
    requires p < |s.calls| && IsClaim(claim) && Holds(s.calls[p], claim) && !(move.Stage? && move.pid == p)
    ensures p < |Step(cfg, s, move).calls| && Step(cfg, s, move).calls[p] == s.calls[p]
  {
    hide Act;
  }

  lemma FiledLater(cfg: Config, before: seq<Move>, move: Move, i: nat, k: string, claim: Call)
    requires FiledBy(cfg, before, i, k, claim)
    ensures FiledBy(cfg, before + [move], i, k, claim)
  {
    hide Run, IsClaim;
    assert (before + [move])[..i] == before[..i];
  }

  /** The last move files the record, or it was filed before. */
  lemma FiledNow(cfg: Config, before: seq<Move>, move: Move, k: string) returns (claim: Call)
    requires cfg.maxAttempts >= 1
    requires k in Run(cfg, before + [move]).db.idempotency && k !in Run(cfg, before).db.idempotency
    ensures FiledBy(cfg, before + [move], |before|, k, claim)
    ensures var s := Run(cfg, before + [move]); IsFor(cfg, s.db.idempotency[k], claim) && Kept(s, claim)
  {
    hide Act, Run, MovedOn, Holds, CallOk, RowsOk, IsFor, KeyScope;
    var s, t := Run(cfg, before), Run(cfg, before + [move]);
    RunOne(cfg, before, move);
    RunCore(cfg, before);
    claim := s.calls[move.pid];
    NewRecord(cfg, claim, s.db, Input(s.clock, move.pick, move.outcome), k);
    assert (before + [move])[..|before|] == before;
    assert t.calls[move.pid] in t.calls;
  }

  /** No claim is lost: in any reachable state each stored record was filed by a claim whose row has moved on, or whose
      claimant is still on its way to its swap. */
  lemma {:induction false} ClaimKept(cfg: Config, moves: seq<Move>, k: string) returns (i: nat, claim: Call)
    requires cfg.maxAttempts >= 1 && k in Run(cfg, moves).db.idempotency
    ensures FiledBy(cfg, moves, i, k, claim)
    ensures var s := Run(cfg, moves); IsFor(cfg, s.db.idempotency[k], claim) && Kept(s, claim)
  {
    hide Step, Core, Kept, FiledBy, Keeps;
    assert moves != [];
    var before, move := moves[..|moves| - 1], moves[|moves| - 1];
    assert before + [move] == moves;
    if k in Run(cfg, before).db.idempotency {
      i, claim := ClaimKept(cfg, before, k);
      RunCore(cfg, before);
      StepKept(cfg, Run(cfg, before), move, claim);
      FiledLater(cfg, before, move, i, k, claim);
      RecordStays(cfg, before, move, k);
    } else {
      i := |before|;
      claim := FiledNow(cfg, before, move, k);
    }
  }

  lemma RecordStays(cfg: Config, before: seq<Move>, move: Move, k: string)
    requires k in Run(cfg, before).db.idempotency
    ensures var s, t := Run(cfg, before), Run(cfg, before + [move]);
            k in t.db.idempotency && t.db.idempotency[k] == s.db.idempotency[k]
  {
    hide Run, Step;
    RunOne(cfg, before, move);
    StepKeepsRecords(cfg, Run(cfg, before), move);
  }

  predicate IsSubmitRecord(record: IdempotencyRecord) {
    record.scope == SubmitScope(record.requestId)
  }

  predicate IsReviewRecord(record: IdempotencyRecord) {
    || record.scope == ReviewScope(Approve, record.requestId)
    || record.scope == ReviewScope(Reject, record.requestId)
  }

  lemma ScopesDiffer(cfg: Config, record: IdempotencyRecord, claim: Call)
    requires IsFor(cfg, record, claim)
    ensures IsSubmitRecord(record) <==> claim.SubmitClaim?
    ensures IsReviewRecord(record) <==> claim.ReviewClaim?
  {
    var id := record.requestId;
    assert SubmitScope(id)[0] == 's';
    assert ReviewScope(Approve, id)[0] == 'a' && ReviewScope(Reject, id)[0] == 'r';
    if claim.ReviewClaim? { assert claim.decision == Approve || claim.decision == Reject; }
  }

  /** Submit is never lost: in any reachable state, the request of a stored submission record is past draft, or a
      submission holding that very claim is still on its way to its swap. */
  lemma SubmitNeverLost(cfg: Config, moves: seq<Move>, k: string) returns (i: nat, claim: Call)
    requires cfg.maxAttempts >= 1 && k in Run(cfg, moves).db.idempotency
    requires IsSubmitRecord(Run(cfg, moves).db.idempotency[k])
    ensures FiledBy(cfg, moves, i, k, claim) && claim.SubmitClaim?
    ensures var s := Run(cfg, moves);
            var id := s.db.idempotency[k].requestId;
            || (id in s.db.requests && s.db.requests[id].status != Draft)
            || exists call <- s.calls :: Holds(call, claim)
  {
    hide Run, Holds, IsSubmitRecord, IsReviewRecord;
    i, claim := ClaimKept(cfg, moves, k);
    ScopesDiffer(cfg, Run(cfg, moves).db.idempotency[k], claim);
  }

  /** A decision's claim is lost to a reminder only: in any reachable state, the request of a stored decision record is
      decided, or has had more reminders than when the claimant read it, or the claimant is still on its way to its
      swap. */
  lemma DecisionLostToReminders(cfg: Config, moves: seq<Move>, k: string) returns (i: nat, claim: Call)
    requires cfg.maxAttempts >= 1 && k in Run(cfg, moves).db.idempotency
    requires IsReviewRecord(Run(cfg, moves).db.idempotency[k])
    ensures FiledBy(cfg, moves, i, k, claim) && claim.ReviewClaim?
    ensures var s := Run(cfg, moves);
            var id := s.db.idempotency[k].requestId;
            || (id in s.db.requests && Decided(s.db.requests[id].status))
            || (id in s.db.requests && s.db.requests[id].reminders > claim.snap.reminders)
            || exists call <- s.calls :: Holds(call, claim)
  {
    hide Run, Holds, IsSubmitRecord, IsReviewRecord;
    i, claim := ClaimKept(cfg, moves, k);
    ScopesDiffer(cfg, Run(cfg, moves).db.idempotency[k], claim);
  }

  // ---------- Winners have their key on record

  /** A call past its key check carries a usable key, and one about to swap has it stored. */
  ghost predicate Keyed(cfg: Config, call: Call, db: Db) {
    match call
    case SubmitFind(_, _, key) => !Blank(key)
    case SubmitClaim(_, _, key) => !Blank(key)
    case ReviewFind(_, _, key, _, _) => !Blank(key)
    case ReviewClaim(_, _, key, _, _) => !Blank(key)
    case Swapping(actor, snap, change, _, _) => OnRecord(cfg, db, snap.id, actor, change)
    case _ => true
  }

  ghost predicate OnRecord(cfg: Config, db: Db, id: string, actor: Actor, change: Change) {
    match change
    case Submit(key) => !Blank(key) && Known(db, SubmitScope(id), key, actor.id)
    case Decide(d, comment, key) => !Blank(key) && Known(db, ReviewScope(d, id), key, Fingerprint(cfg, d, comment))
    case _ => true
  }

  lemma ActKeyed(cfg: Config, call: Call, db: Db, input: Input)
    requires Keyed(cfg, call, db)
    ensures var (c, d) := Act(cfg, call, db, input); Keyed(cfg, c, d)
  {
    hide Fingerprint, ReviewScope, SubmitScope, Compound, Blank, MaySubmit, CanReview, Apply, Owes, OwedRun, Picks,
      Outcome, Append;
  }

  lemma KeyedLater(cfg: Config, call: Call, before: Db, after: Db)
    requires Keyed(cfg, call, before) && Keeps(before, after)
    ensures Keyed(cfg, call, after)
  {
    hide Fingerprint, ReviewScope, SubmitScope, Compound, Blank;
  }

  ghost predicate AllKeyed(cfg: Config, s: System) {
    forall call <- s.calls :: Keyed(cfg, call, s.db)
  }

  lemma StepKeyed(cfg: Config, s: System, move: Move)
    requires AllKeyed(cfg, s)
    ensures AllKeyed(cfg, Step(cfg, s, move))
  {
    hide Act, Keyed, Keeps;
    var t := Step(cfg, s, move);
    StepKeepsRecords(cfg, s, move);
    if move.Stage? && move.pid < |s.calls| {
      ActKeyed(cfg, s.calls[move.pid], s.db, Input(s.clock, move.pick, move.outcome));
    }
    forall call <- t.calls ensures Keyed(cfg, call, t.db) {
      if call in s.calls { KeyedLater(cfg, call, s.db, t.db); }
      else if move.Begin? { InitialKeyed(cfg, call, t.db); }
    }
  }

  lemma InitialKeyed(cfg: Config, call: Call, db: Db)
    requires Initial(call)
    ensures Keyed(cfg, call, db)
  {
  }

  lemma {:induction false} RunKeyed(cfg: Config, moves: seq<Move>)
    ensures AllKeyed(cfg, Run(cfg, moves))
  {
    if moves != [] {
      hide Step, Keyed;
      RunKeyed(cfg, moves[..|moves| - 1]);
      StepKeyed(cfg, Run(cfg, moves[..|moves| - 1]), moves[|moves| - 1]);
    }
  }

  /** Every submission and decision that ever won has its key on record, with its payload, for good. */
  lemma {:induction false} WinnersOnRecord(cfg: Config, moves: seq<Move>, e: Event)
    requires e in Events(cfg, moves) && e.Changed?
    ensures OnRecord(cfg, Run(cfg, moves).db, e.id, e.actor, e.change)
  {
    hide Act, OnRecord;
    var before, move := moves[..|moves| - 1], moves[|moves| - 1];
    var s := Run(cfg, before);
    StepKeepsRecords(cfg, s, move);
    if e in Events(cfg, before) {
      WinnersOnRecord(cfg, before, e);
    } else {
      assert e in EventOf(s, move);
      RunKeyed(cfg, before);
      assert Keyed(cfg, s.calls[move.pid], s.db);
    }
    OnRecordLater(cfg, s.db, Run(cfg, moves).db, e);
  }

  lemma OnRecordLater(cfg: Config, before: Db, after: Db, e: Event)
    requires e.Changed? && OnRecord(cfg, before, e.id, e.actor, e.change) && Keeps(before, after)
    ensures OnRecord(cfg, after, e.id, e.actor, e.change)
  {
    hide Fingerprint, ReviewScope, SubmitScope, Compound, Blank;
  }

  // ---------- Replays

  /** The stages of a submission whose key is on record with the same payload. */
  predicate SubmitReplay(call: Call, actor: Actor, id: string, key: string) {
    || call == SubmitRead(actor, id, key)
    || (call.SubmitFind? && call.actor == actor && call.key == key && call.snap.id == id)
    || call == Reread(id)
    || (call.Done? && call.reply.Returned? && call.reply.row.id == id)
  }

  /** The stages of a decision whose key is on record with the same payload. */
  predicate ReviewReplay(call: Call, id: string, key: string, d: Decision, comment: string) {
    || (call.ReviewRead? && call.id == id && call.key == key && call.decision == d && call.comment == comment)
    || (call.ReviewFind? && call.snap.id == id && call.key == key && call.decision == d && call.comment == comment)
    || call == Reread(id)
    || (call.Done? && (call.reply.Returned? ==> call.reply.row.id == id))
  }

  /** What a replayed submission finds: its row, the right to submit it, and its key on record. */
  ghost predicate Submitted(cfg: Config, db: Db, actor: Actor, id: string, key: string) {
    && RowsOk(cfg, db.requests) && id in db.requests && MaySubmit(actor, db.requests[id]) && !Blank(key)
    && Known(db, SubmitScope(id), key, actor.id)
  }

  lemma SubmitReplayStage(cfg: Config, call: Call, db: Db, input: Input, actor: Actor, id: string, key: string)
    requires Submitted(cfg, db, actor, id, key) && SubmitReplay(call, actor, id, key)
    ensures var (c, d) := Act(cfg, call, db, input);
            d == db && SubmitReplay(c, actor, id, key)
  {
    hide Shape, Blank, MaySubmit, Compound;
  }

  ghost predicate Reviewed(cfg: Config, db: Db, id: string, key: string, d: Decision, comment: string) {
    && RowsOk(cfg, db.requests) && id in db.requests && !Blank(key)
    && Known(db, ReviewScope(d, id), key, Fingerprint(cfg, d, comment))
  }

  lemma ReviewReplayStage(cfg: Config, call: Call, db: Db, input: Input, id: string, key: string, d: Decision,
                          comment: string)
    requires Reviewed(cfg, db, id, key, d, comment) && ReviewReplay(call, id, key, d, comment)
    ensures var (c, after) := Act(cfg, call, db, input);
            after == db && ReviewReplay(c, id, key, d, comment)
  {
    hide Shape, Blank, CanReview, Compound, Fingerprint, ReviewScope;
  }

  lemma ReadyForReplay(cfg: Config, moves: seq<Move>, e: Event)
    requires cfg.maxAttempts >= 1 && e in Events(cfg, moves) && e.Changed?
    ensures var db := Run(cfg, moves).db;
            && (e.change.Submit? ==> Submitted(cfg, db, e.actor, e.id, e.change.key))
            && (e.change.Decide? ==> Reviewed(cfg, db, e.id, e.change.key, e.change.decision, e.change.comment))
  {
    RunCore(cfg, moves);
    WinnersOnRecord(cfg, moves, e);
    EventRow(cfg, moves, e);
  }

  /** The row of an event is still there, and its requester with it. */
  lemma {:induction false} EventRow(cfg: Config, moves: seq<Move>, e: Event)
    requires cfg.maxAttempts >= 1 && e in Events(cfg, moves) && e.Changed?
    ensures var rows := Run(cfg, moves).db.requests;
            e.id in rows && (e.change.Submit? ==> MaySubmit(e.actor, rows[e.id]))
  {
    var before, move := moves[..|moves| - 1], moves[|moves| - 1];
    RunCore(cfg, before);
    StepCore(cfg, Run(cfg, before), move);
    hide Step, Core, EventOf, Shape;
    if e in Events(cfg, before) {
      EventRow(cfg, before, e);
      assert Descends(Run(cfg, before).db.requests[e.id], Run(cfg, moves).db.requests[e.id]);
    } else {
      assert e == EventOf(Run(cfg, before), move)[0];
    }
  }

  /** Replaying a submission that once won, with its key, in any later state: left alone, it answers with the stored
      row; interleaved with anything (`SubmitReplayHarmless`), its stages change nothing. */
  lemma SubmitReplayAnswers(cfg: Config, moves: seq<Move>, e: Event, inputs: seq<Input>)
    requires cfg.maxAttempts >= 1 && e in Events(cfg, moves) && e.Changed? && e.change.Submit?
    requires |inputs| == 3
    ensures var db := Run(cfg, moves).db;
            && e.id in db.requests
            && After(cfg, SubmitRead(e.actor, e.id, e.change.key), db, inputs)
              == (Done(Returned(db.requests[e.id])), db)
  {
    hide Run, Events, Act, Submitted, After;
    ReadyForReplay(cfg, moves, e);
    SubmitReplayAlone(cfg, Run(cfg, moves).db, e.actor, e.id, e.change.key, inputs);
  }

  lemma SubmitReplayAlone(cfg: Config, db: Db, actor: Actor, id: string, key: string, inputs: seq<Input>)
    requires Submitted(cfg, db, actor, id, key) && |inputs| == 3
    ensures id in db.requests
    ensures After(cfg, SubmitRead(actor, id, key), db, inputs) == (Done(Returned(db.requests[id])), db)
  {
    hide After, Shape, Blank, MaySubmit, Compound;
    AfterThree(cfg, SubmitRead(actor, id, key), db, inputs);
    assert Act(cfg, SubmitRead(actor, id, key), db, inputs[0]) == (SubmitFind(actor, db.requests[id], key), db);
    assert Act(cfg, SubmitFind(actor, db.requests[id], key), db, inputs[1]) == (Reread(id), db);
    assert Act(cfg, Reread(id), db, inputs[2]) == (Done(Returned(db.requests[id])), db);
  }

  lemma AfterThree(cfg: Config, call: Call, db: Db, inputs: seq<Input>)
    requires |inputs| == 3
    ensures var (c1, d1) := Act(cfg, call, db, inputs[0]);
            var (c2, d2) := Act(cfg, c1, d1, inputs[1]);
            After(cfg, call, db, inputs) == Act(cfg, c2, d2, inputs[2])
  {
    hide Act;
    assert inputs[..2][..1] == inputs[..1] && inputs[..1][..0] == [];
    assert After(cfg, call, db, inputs[..1]) == Act(cfg, call, db, inputs[0]);
    assert After(cfg, call, db, inputs[..2])
      == Act(cfg, After(cfg, call, db, inputs[..1]).0, After(cfg, call, db, inputs[..1]).1, inputs[1]);
  }

  /** Replaying a decision that once won, in any later state: it changes nothing and answers with the row exactly as
      long as the row's status is still that decision, and afterwards with a conflict. docs/failure-scenarios.md
      promises the row in every state. */
  lemma ReviewReplayAnswers(cfg: Config, moves: seq<Move>, e: Event, inputs: seq<Input>)
    requires cfg.maxAttempts >= 1 && e in Events(cfg, moves) && e.Changed? && e.change.Decide?
    requires |inputs| == 3
    ensures var db := Run(cfg, moves).db;
            var call := ReviewRead(e.actor, e.id, e.change.key, e.change.decision, e.change.comment);
            && e.id in db.requests
            && var row := db.requests[e.id];
               After(cfg, call, db, inputs)
               == (Done(if row.status == DecidedStatus(e.change.decision) then Returned(row) else Failed(Conflict)), db)
  {
    hide Run, Events, Act, Reviewed, After;
    ReadyForReplay(cfg, moves, e);
    assert Decided(Run(cfg, moves).db.requests[e.id].status) by { WinnerDecided(cfg, moves, e); }
    ReviewReplayAlone(cfg, Run(cfg, moves).db, e.actor, e.id, e.change.key, e.change.decision, e.change.comment,
                      inputs);
  }

  lemma WinnerDecided(cfg: Config, moves: seq<Move>, e: Event)
    requires cfg.maxAttempts >= 1 && e in Events(cfg, moves) && e.Changed? && e.change.Decide?
    ensures var rows := Run(cfg, moves).db.requests; e.id in rows && Decided(rows[e.id].status)
  {
    hide Run, Events, RowsOk;
    Linearisable(cfg, moves);
    DecisionsStand(cfg, Events(cfg, moves));
  }

  lemma ReviewReplayAlone(cfg: Config, db: Db, actor: Actor, id: string, key: string, d: Decision, comment: string,
                          inputs: seq<Input>)
    requires Reviewed(cfg, db, id, key, d, comment) && Decided(db.requests[id].status) && |inputs| == 3
    ensures var row := db.requests[id];
            After(cfg, ReviewRead(actor, id, key, d, comment), db, inputs)
            == (Done(if row.status == DecidedStatus(d) then Returned(row) else Failed(Conflict)), db)
  {
    hide After, Shape, Blank, CanReview, Compound, Fingerprint, ReviewScope;
    var row := db.requests[id];
    AfterThree(cfg, ReviewRead(actor, id, key, d, comment), db, inputs);
    var start := StartReview(db, actor, id, key, d, comment);
    assert Act(cfg, ReviewRead(actor, id, key, d, comment), db, inputs[0]) == (start, db);
    if row.status == DecidedStatus(d) {
      assert start == ReviewFind(actor, row, key, d, comment);
      assert Act(cfg, start, db, inputs[1]) == (AfterReviewKey(start, true), db);
    } else {
      assert start == Done(Failed(Conflict));
      assert Act(cfg, start, db, inputs[1]) == (start, db);
    }
  }

  /** No label of the schedule begins a new call on this thread. */
  ghost predicate SameCall(moves: seq<Move>, pid: nat) {
    forall move <- moves :: move.Begin? ==> move.pid != pid
  }

  lemma SubmittedLater(cfg: Config, s: System, move: Move, actor: Actor, id: string, key: string)
    requires cfg.maxAttempts >= 1 && Core(cfg, s) && Submitted(cfg, s.db, actor, id, key)
    ensures Submitted(cfg, Step(cfg, s, move).db, actor, id, key)
  {
    StepCore(cfg, s, move);
    StepKeepsRecords(cfg, s, move);
    hide Step, Shape, Blank, Compound, SubmitScope;
    assert Descends(s.db.requests[id], Step(cfg, s, move).db.requests[id]);
  }

  lemma SubmitReplayStep(cfg: Config, s: System, move: Move, pid: nat, actor: Actor, id: string, key: string)
    requires cfg.maxAttempts >= 1 && Core(cfg, s) && (move.Begin? ==> move.pid != pid)
    requires pid < |s.calls| && SubmitReplay(s.calls[pid], actor, id, key) && Submitted(cfg, s.db, actor, id, key)
    ensures var t := Step(cfg, s, move);
            && pid < |t.calls| && SubmitReplay(t.calls[pid], actor, id, key) && Submitted(cfg, t.db, actor, id, key)
            && (move.Stage? && move.pid == pid ==> t.db == s.db)
  {
    hide Core, Submitted, SubmitReplay, Act;
    SubmittedLater(cfg, s, move, actor, id, key);
    if move.Stage? && move.pid == pid {
      SubmitReplayStage(cfg, s.calls[pid], s.db, Input(s.clock, move.pick, move.outcome), actor, id, key);
    }
  }

  /** Whatever runs beside it, a replayed submission stays a replay, and no stage of it changes the store. */
  lemma {:induction false} SubmitReplayHarmless(cfg: Config, moves: seq<Move>, more: seq<Move>, pid: nat,
                                                actor: Actor, id: string, key: string, own: Move)
    requires cfg.maxAttempts >= 1 && SameCall(more, pid) && own.Stage? && own.pid == pid
    requires var s := Run(cfg, moves);
             pid < |s.calls| && s.calls[pid] == SubmitRead(actor, id, key) && Submitted(cfg, s.db, actor, id, key)
    ensures var t := Run(cfg, moves + more);
            && pid < |t.calls| && SubmitReplay(t.calls[pid], actor, id, key)
            && Submitted(cfg, t.db, actor, id, key)
            && Step(cfg, t, own).db == t.db
  {
    hide Core, Submitted, Step;
    if more == [] {
      assert moves + more == moves;
    } else {
      hide SubmitReplay;
      var before, move := more[..|more| - 1], more[|more| - 1];
      SubmitReplayHarmless(cfg, moves, before, pid, actor, id, key, own);
      assert (moves + more)[..|moves + more| - 1] == moves + before;
      RunCore(cfg, moves + before);
      SubmitReplayStep(cfg, Run(cfg, moves + before), move, pid, actor, id, key);
    }
    RunCore(cfg, moves + more);
    SubmitReplayStep(cfg, Run(cfg, moves + more), own, pid, actor, id, key);
  }

  lemma ReviewReplayStep(cfg: Config, s: System, move: Move, pid: nat, id: string, key: string, d: Decision,
                         comment: string)
    requires cfg.maxAttempts >= 1 && Core(cfg, s) && (move.Begin? ==> move.pid != pid)
    requires pid < |s.calls| && ReviewReplay(s.calls[pid], id, key, d, comment)
    requires Reviewed(cfg, s.db, id, key, d, comment)
    ensures var t := Step(cfg, s, move);
            && pid < |t.calls| && ReviewReplay(t.calls[pid], id, key, d, comment)
              && Reviewed(cfg, t.db, id, key, d, comment)
            && (move.Stage? && move.pid == pid ==> t.db == s.db)
  {
    hide Core, Reviewed, ReviewReplay, Act;
    ReviewedLater(cfg, s, move, id, key, d, comment);
    if move.Stage? && move.pid == pid {
      ReviewReplayStage(cfg, s.calls[pid], s.db, Input(s.clock, move.pick, move.outcome), id, key, d, comment);
    }
  }

  lemma ReviewedLater(cfg: Config, s: System, move: Move, id: string, key: string, d: Decision, comment: string)
    requires cfg.maxAttempts >= 1 && Core(cfg, s) && Reviewed(cfg, s.db, id, key, d, comment)
    ensures Reviewed(cfg, Step(cfg, s, move).db, id, key, d, comment)
  {
    StepCore(cfg, s, move);
    StepKeepsRecords(cfg, s, move);
    hide Step, Shape, Blank, Compound, ReviewScope;
  }

  /** The same for a decision: replayed under any interleaving, it never decides, logs or stores anything again. */
  lemma {:induction false} ReviewReplayHarmless(cfg: Config, moves: seq<Move>, more: seq<Move>, pid: nat, actor: Actor,
                                                id: string,
                                                key: string, d: Decision, comment: string, own: Move)
    requires cfg.maxAttempts >= 1 && SameCall(more, pid) && own.Stage? && own.pid == pid
    requires var s := Run(cfg, moves);
             pid < |s.calls| && s.calls[pid] == ReviewRead(actor, id, key, d, comment)
               && Reviewed(cfg, s.db, id, key, d, comment)
    ensures var t := Run(cfg, moves + more);
            && pid < |t.calls| && ReviewReplay(t.calls[pid], id, key, d, comment)
            && Reviewed(cfg, t.db, id, key, d, comment)
            && Step(cfg, t, own).db == t.db
  {
    hide Core, Reviewed, Step;
    if more == [] {
      assert moves + more == moves;
    } else {
      hide ReviewReplay;
      var before, move := more[..|more| - 1], more[|more| - 1];
      ReviewReplayHarmless(cfg, moves, before, pid, actor, id, key, d, comment, own);
      assert (moves + more)[..|moves + more| - 1] == moves + before;
      RunCore(cfg, moves + before);
      ReviewReplayStep(cfg, Run(cfg, moves + before), move, pid, id, key, d, comment);
    }
    RunCore(cfg, moves + more);
    ReviewReplayStep(cfg, Run(cfg, moves + more), own, pid, id, key, d, comment);
  }
}
