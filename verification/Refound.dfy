/** A submission that answers with a row without having submitted it has found its own key on record. */
module Refound {
  import opened Domain
  import opened Workflow
  import opened Database
  import opened Calls
  import opened Machine
  import opened Schedules
  import opened Stages
  import opened Keys
  import opened KeyTable
  import opened Replies

  /** The stages of a submission that has filed nothing. */
  predicate Seeking(call: Call) {
    call.SubmitRead? || call.SubmitFind? || call.SubmitClaim? || call.SubmitRecheck? || call.Reread?
  }

  /** A stage of a submission on its way to an answer: it files its key and leaves this way, or finds it filed. */
  lemma SeekingStage(cfg: Config, origin: Call, call: Call, db: Db, input: Input)
    requires origin.SubmitRead? && Stems(origin, call)
    ensures var (c, d) := Act(cfg, call, db, input);
            && (Seeking(c) ==> Seeking(call) && d.idempotency == db.idempotency)
            && (c.Reread? ==> call.SubmitFind? || call.SubmitRecheck?)
            && (c.Reread? ==> Known(d, SubmitScope(origin.id), origin.key, origin.actor.id))
            && (c.Done? && c.reply.Returned? && !call.Logging? ==>
                  d.idempotency == db.idempotency && (call.Reread? || c == call))
  {
    hide SubmitScope, Compound, Blank, MaySubmit, Append, Apply;
  }

  /** Thread `pid` has not filed a record under `k` since `first`. */
  ghost predicate Unfiled(cfg: Config, first: seq<Move>, later: seq<Move>, pid: nat, k: string) {
    forall i: nat, claim: Call :: |first| <= i && FiledBy(cfg, later, i, k, claim) ==> later[i].pid != pid
  }

  ghost predicate Found(cfg: Config, origin: Call, first: seq<Move>, later: seq<Move>, pid: nat)
    requires origin.SubmitRead?
  {
    && Unfiled(cfg, first, later, pid, Compound(SubmitScope(origin.id), origin.key))
    && Known(Run(cfg, later).db, SubmitScope(origin.id), origin.key, origin.actor.id)
  }

  ghost predicate Searching(cfg: Config, origin: Call, first: seq<Move>, later: seq<Move>, pid: nat)
    requires origin.SubmitRead?
  {
    && pid < |Run(cfg, later).calls|
    && var call := Run(cfg, later).calls[pid];
       && (Seeking(call) ==> Unfiled(cfg, first, later, pid, Compound(SubmitScope(origin.id), origin.key)))
       && (call.Reread? ==> Found(cfg, origin, first, later, pid))
       && (call.Done? && call.reply.Returned? && Wins(cfg, first, later, pid) == [] ==>
             Found(cfg, origin, first, later, pid))
  }

  lemma FiledBefore(cfg: Config, before: seq<Move>, move: Move, i: nat, k: string, claim: Call)
    requires i < |before|
    ensures FiledBy(cfg, before + [move], i, k, claim) <==> FiledBy(cfg, before, i, k, claim)
  {
    hide Run, At, IsClaim;
    assert (before + [move])[..i] == before[..i];
  }

  /** A move that files nothing, or is another thread's, leaves the key unfiled. */
  lemma StaysUnfiled(cfg: Config, first: seq<Move>, before: seq<Move>, move: Move, pid: nat, k: string)
    requires Unfiled(cfg, first, before, pid, k)
    requires move.Stage? && move.pid == pid ==>
               Run(cfg, before + [move]).db.idempotency == Run(cfg, before).db.idempotency
    ensures Unfiled(cfg, first, before + [move], pid, k)
  {
    hide Run, At, IsClaim, KeyScope;
    var later := before + [move];
    forall i: nat, claim: Call | |first| <= i && FiledBy(cfg, later, i, k, claim) ensures later[i].pid != pid {
      if i < |before| {
        FiledBefore(cfg, before, move, i, k, claim);
      } else {
        FilingShows(cfg, before, move, i, k, claim);
      }
    }
  }

  lemma FilingShows(cfg: Config, before: seq<Move>, move: Move, i: nat, k: string, claim: Call)
    requires i >= |before| && FiledBy(cfg, before + [move], i, k, claim)
    ensures i == |before| && move.Stage? && k !in Run(cfg, before).db.idempotency
    ensures k in Run(cfg, before + [move]).db.idempotency
  {
    hide Run, Act;
    assert (before + [move])[..i] == before;
    StageRuns(cfg, before, move.pid, claim, move);
    var s := Run(cfg, before);
    ClaimFiles(cfg, claim, s.db, Input(s.clock, move.pick, move.outcome), k);
  }

  lemma ClaimFiles(cfg: Config, claim: Call, db: Db, input: Input, k: string)
    requires IsClaim(claim) && k == Compound(KeyScope(claim), claim.key) && k !in db.idempotency
    ensures k in Act(cfg, claim, db, input).1.idempotency
  {
    hide Fingerprint, SubmitScope, ReviewScope, Compound, AfterReviewKey, RefuseReview;
  }

  lemma KnownLater(before: Db, after: Db, scope: string, key: string, fingerprint: string)
    requires Known(before, scope, key, fingerprint) && Keys.Keeps(before, after)
    ensures Known(after, scope, key, fingerprint)
  {
  }

  lemma MoveSearching(cfg: Config, origin: Call, first: seq<Move>, before: seq<Move>, move: Move, pid: nat)
    requires cfg.maxAttempts >= 1 && origin.SubmitRead? && |first| <= |before|
    requires Sincere(cfg, origin, first, before, pid) && Searching(cfg, origin, first, before, pid)
    requires Sincere(cfg, origin, first, before + [move], pid) && !(move.Begin? && move.pid == pid)
    ensures Searching(cfg, origin, first, before + [move], pid)
  {
    hide Act, Run, Known, Unfiled, Stems, Wrote, AsksFor, Compound, SubmitScope, Held, Keys.Keeps;
    var s, t := Run(cfg, before), Run(cfg, before + [move]);
    var k := Compound(SubmitScope(origin.id), origin.key);
    var call := s.calls[pid];
    RunOne(cfg, before, move);
    StepKeepsRecords(cfg, s, move);
    WinsMore(cfg, first, before, move, pid);
    if Known(s.db, SubmitScope(origin.id), origin.key, origin.actor.id) {
      KnownLater(s.db, t.db, SubmitScope(origin.id), origin.key, origin.actor.id);
    }
    if move.Stage? && move.pid == pid {
      SeekingStage(cfg, origin, call, s.db, Input(s.clock, move.pick, move.outcome));
    }
    if Unfiled(cfg, first, before, pid, k)
       && (move.Stage? && move.pid == pid ==> t.db.idempotency == s.db.idempotency) {
      StaysUnfiled(cfg, first, before, move, pid, k);
    }
  }

  lemma {:induction false} CallSearching(cfg: Config, origin: Call, first: seq<Move>, later: seq<Move>, pid: nat)
    requires cfg.maxAttempts >= 1 && origin.SubmitRead? && At(cfg, first, pid, origin) && NoneBegun(first, later, pid)
    ensures Searching(cfg, origin, first, later, pid)
    decreases |later|
  {
    hide Run, Known;
    if |later| == |first| {
      assert later == first;
      assert Unfiled(cfg, first, later, pid, Compound(SubmitScope(origin.id), origin.key));
    } else {
      hide Searching, Sincere;
      var before, move := later[..|later| - 1], later[|later| - 1];
      assert before[..|first|] == later[..|first|] && before + [move] == later;
      assert NoneBegun(first, before, pid);
      CallSearching(cfg, origin, first, before, pid);
      CallSincere(cfg, origin, first, before, pid);
      CallSincere(cfg, origin, first, later, pid);
      MoveSearching(cfg, origin, first, before, move, pid);
    }
  }

  /** The id of a stored row has no bar. */
  lemma HeldId(cfg: Config, first: seq<Move>, later: seq<Move>, row: Request)
    requires cfg.maxAttempts >= 1 && Held(cfg, first, later, row)
    ensures '|' !in row.id
  {
    hide Run;
    var k :| |first| <= k <= |later| && StoredIn(Run(cfg, later[..k]).db.requests, row);
    RowShape(cfg, later[..k], row.id);
  }

  /** In any run, a submission that answers with a row although it performed no transition found a record of its key,
      filed by another call: a submission of the same request by the same actor with the same key. */
  lemma RowWithoutWin(cfg: Config, origin: Call, first: seq<Move>, later: seq<Move>, pid: nat, row: Request)
    returns (i: nat, claim: Call)
    requires cfg.maxAttempts >= 1 && origin.SubmitRead? && At(cfg, first, pid, origin)
    requires NoneBegun(first, later, pid) && At(cfg, later, pid, Done(Returned(row)))
    requires Wins(cfg, first, later, pid) == []
    ensures FiledBy(cfg, later, i, "submit:" + origin.id + "|" + origin.key, claim)
    ensures i < |first| || later[i].pid != pid
    ensures claim.SubmitClaim?
    ensures claim.snap.id == origin.id && claim.key == origin.key && claim.actor.id == origin.actor.id
  {
    hide Run, FiledBy, Wins, Held, Known, IsFor;
    CallSearching(cfg, origin, first, later, pid);
    AnswersAreTrue(cfg, origin, first, later, pid, Returned(row));
    HeldId(cfg, first, later, row);
    var k := Compound(SubmitScope(origin.id), origin.key);
    FoundKey(cfg, origin, first, later, pid, row);
    i, claim := ClaimKept(cfg, later, k);
    RunFiles(cfg, later);
    SameClaim(cfg, Run(cfg, later).db.idempotency[k], claim, origin);
  }

  lemma FoundKey(cfg: Config, origin: Call, first: seq<Move>, later: seq<Move>, pid: nat, row: Request)
    requires origin.SubmitRead? && Searching(cfg, origin, first, later, pid)
    requires At(cfg, later, pid, Done(Returned(row))) && Wins(cfg, first, later, pid) == []
    ensures Unfiled(cfg, first, later, pid, Compound(SubmitScope(origin.id), origin.key))
    ensures var (db, k) := (Run(cfg, later).db, Compound(SubmitScope(origin.id), origin.key));
            k in db.idempotency && db.idempotency[k].fingerprint == origin.actor.id
  {
    hide Run, Wins, Unfiled;
  }

  lemma SameClaim(cfg: Config, record: IdempotencyRecord, claim: Call, origin: Call)
    requires origin.SubmitRead? && '|' !in origin.id && IsFor(cfg, record, claim)
    requires Filed(Compound(SubmitScope(origin.id), origin.key), record) && record.fingerprint == origin.actor.id
    ensures claim.SubmitClaim?
    ensures claim.snap.id == origin.id && claim.key == origin.key && claim.actor.id == origin.actor.id
  {
    var scope := SubmitScope(origin.id);
    ServiceScopesHaveNoBar(origin.id, Approve);
    CompoundInjective(scope, origin.key, record.scope, record.key);
    var id := claim.snap.id;
    assert scope[0] == 's' && scope[7..] == origin.id && SubmitScope(id)[7..] == id;
    assert ReviewScope(Approve, id)[0] == 'a' && ReviewScope(Reject, id)[0] == 'r';
  }
}
