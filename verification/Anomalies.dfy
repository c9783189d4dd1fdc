/** What the code does not promise, each with the exact condition. Scenarios has a run for each. */
module Anomalies {
  import opened Domain
  import opened Workflow
  import opened Database
  import opened Calls
  import opened Machine
  import opened Schedules
  import opened Meetings
  import opened ReviewPromises
  import opened Keys
  import opened KeyTable

  /** A decision's key is on record, yet its request is still pending and no call is in flight. */
  ghost predicate Burned(cfg: Config, moves: seq<Move>, id: string, key: string, d: Decision, comment: string) {
    var s := Run(cfg, moves);
    && id in s.db.requests && s.db.requests[id].status == PendingReview
    && Known(s.db, ReviewScope(d, id), key, Fingerprint(cfg, d, comment))
    && forall call <- s.calls :: call.Done?
  }

  lemma IdHasNoBar(cfg: Config, row: Request)
    ensures Shape(cfg, row) ==> '|' !in row.id
  {
  }

  lemma ClaimIsForRequest(cfg: Config, record: IdempotencyRecord, claim: Call, d: Decision, id: string)
    requires IsFor(cfg, record, claim) && record.scope == ReviewScope(d, id)
    ensures claim.ReviewClaim? && claim.decision == d && claim.snap.id == id && record.requestId == id
    ensures IsReviewRecord(record)
  {
    var request := claim.snap.id;
    assert record.scope[0] == if d == Approve then 'a' else 'r';
    assert SubmitScope(request)[0] == 's' && record.scope[9..] == id;
    assert ReviewScope(Approve, request)[0] == 'a' && ReviewScope(Approve, request)[9..] == request;
    assert ReviewScope(Reject, request)[0] == 'r' && ReviewScope(Reject, request)[9..] == request;
  }

  /** Whatever the schedule, only a reminder burns a decision's key: with no call in flight, a decision key on record
      for a request that is still pending was claimed at some move `i` by a decision that had read the request before
      its latest reminder. */
  lemma OnlyRemindersBurn(cfg: Config, moves: seq<Move>, id: string, key: string, d: Decision, comment: string)
    returns (i: nat, claim: Call)
    requires cfg.maxAttempts >= 1 && Burned(cfg, moves, id, key, d, comment)
    ensures FiledBy(cfg, moves, i, Compound(ReviewScope(d, id), key), claim)
    ensures claim.ReviewClaim? && claim.decision == d && claim.snap.id == id
    ensures Run(cfg, moves).db.requests[id].reminders > claim.snap.reminders
  {
    hide Run, Shape, Compound, ReviewScope, Fingerprint, IsReviewRecord, FiledBy, IsFor;
    var s, k := Run(cfg, moves), Compound(ReviewScope(d, id), key);
    RunFiles(cfg, moves);
    RowShape(cfg, moves, id);
    IdHasNoBar(cfg, s.db.requests[id]);
    RunCore(cfg, moves);
    ServiceScopesHaveNoBar(id, d);
    CompoundInjective(s.db.idempotency[k].scope, s.db.idempotency[k].key, ReviewScope(d, id), key);
    i, claim := ClaimKept(cfg, moves, k);
    ClaimIsForRequest(cfg, s.db.idempotency[k], claim, d, id);
  }

  // ---------- Replays that do not answer with the row

  /** A record is on file for this decision's key. */
  predicate OnFile(db: Db, id: string, key: string, d: Decision) {
    Compound(ReviewScope(d, id), key) in db.idempotency
  }

  /** When a decision on a row already decided the same way gets the zero row: its key is blank, or on file with another
      payload when it is looked up, or not on file then but on file when it is claimed. */
  predicate LosesRow(cfg: Config, lookup: Db, claim: Db, id: string, key: string, d: Decision, comment: string) {
    || Blank(key)
    || (OnFile(lookup, id, key, d) && !Known(lookup, ReviewScope(d, id), key, Fingerprint(cfg, d, comment)))
    || (!OnFile(lookup, id, key, d) && OnFile(claim, id, key, d))
  }

  /** Only idempotency records differ. */
  ghost predicate KeysOnly(before: Db, after: Db) {
    after.(idempotency := before.idempotency) == before
  }

  /** The three stages of such a decision over the stores it meets, each as other calls have left it. */
  lemma ZeroRowStages(cfg: Config, read: Db, lookup: Db, claim: Db, actor: Actor, id: string, key: string, d: Decision,
                      comment: string, i: Input, j: Input, k: Input)
    requires id in read.requests && read.requests[id].id == id && read.requests[id].status == DecidedStatus(d)
    ensures var (c1, d1) := Act(cfg, ReviewRead(actor, id, key, d, comment), read, i);
            var (c2, d2) := Act(cfg, c1, lookup, j);
            var (c3, d3) := Act(cfg, c2, claim, k);
            && d1 == read && d2 == lookup && KeysOnly(claim, d3)
            && (!Blank(key) && !OnFile(lookup, id, key, d) ==> OnFile(d3, id, key, d))
            && c3 == Done(if LosesRow(cfg, lookup, claim, id, key, d, comment) then ZeroRow
                          else Returned(read.requests[id]))
  {
    var call := ReviewRead(actor, id, key, d, comment);
    var met := [Met(read, i), Met(lookup, j), Met(claim, k)];
    hide Blank, Compound, Fingerprint, Act, ReviewScope, Payload, ReviewKey, Through, Left;
    ReviewKeyIs(cfg, id, key, d, comment);
    ReviewAgrees(cfg, actor, id, key, d, comment, met);
    AtFirst(cfg, call, met);
    Next(cfg, call, met, 0);
    Next(cfg, call, met, 1);
    Next(cfg, call, met, 2);
    assert met[..3] == met;
  }

  /** In any interleaving: a decision that finds its row already decided the same way answers after three stages of its
      own, with the zero row and a nil error exactly when `LosesRow` holds of the stores at its lookup and its claim,
      otherwise with the row it read; it changes no row and no log. `read`, `lookup` and `claim` are the schedules up to
      its stages `a`, `b` and `c`. */
  lemma ZeroRowAnswers(cfg: Config, read: seq<Move>, a: Move, lookup: seq<Move>, b: Move, claim: seq<Move>, c: Move,
                       pid: nat, actor: Actor, id: string, key: string, d: Decision, comment: string)
    requires cfg.maxAttempts >= 1 && forall own <- [a, b, c] :: own.Stage? && own.pid == pid
    requires At(cfg, read, pid, ReviewRead(actor, id, key, d, comment))
    requires OthersRan(read + [a], lookup, pid) && OthersRan(lookup + [b], claim, pid)
    requires id in Run(cfg, read).db.requests && Run(cfg, read).db.requests[id].status == DecidedStatus(d)
    ensures var s, t, u := Run(cfg, read).db, Run(cfg, lookup).db, Run(cfg, claim).db;
            && Run(cfg, read + [a]).db == s && Run(cfg, lookup + [b]).db == t && KeysOnly(u, Run(cfg, claim + [c]).db)
            && At(cfg, claim + [c], pid,
                  Done(if LosesRow(cfg, t, u, id, key, d, comment) then ZeroRow else Returned(s.requests[id])))
  {
    hide Act, Run, LosesRow, Shape, KeysOnly;
    assert a in [a, b, c] && b in [a, b, c] && c in [a, b, c];
    var s, t, u := Run(cfg, read), Run(cfg, lookup), Run(cfg, claim);
    var i, j, k := OwnInput(s, a), OwnInput(t, b), OwnInput(u, c);
    RunCore(cfg, read);
    var first := ReviewRead(actor, id, key, d, comment);
    ZeroRowStages(cfg, s.db, t.db, u.db, actor, id, key, d, comment, i, j, k);
    StageRuns(cfg, read, pid, first, a);
    var second := Act(cfg, first, s.db, i).0;
    OthersKeep(cfg, read + [a], lookup, pid, second);
    StageRuns(cfg, lookup, pid, second, b);
    var third := Act(cfg, second, t.db, j).0;
    OthersKeep(cfg, lookup + [b], claim, pid, third);
    StageRuns(cfg, claim, pid, third, c);
  }

  function OwnInput(s: System, own: Move): Input
    requires own.Stage?
  {
    Input(s.clock, own.pick, own.outcome)
  }
}
