/** What approving and rejecting promise a client, in plain terms: the answer in every case, and what each stage writes.
    `met` are the stores the call meets at its stages. */
module ReviewPromises {
  import opened Domain
  import opened Workflow
  import opened Database
  import opened Calls
  import opened Stages
  import opened Meetings
  import opened Promises

  /** The compound key of a decision. */
  function ReviewKey(id: string, key: string, d: Decision): string {
    (if d == Approve then "approved:" else "rejected:") + id + "|" + key
  }

  function Payload(cfg: Config, d: Decision, comment: string): string {
    cfg.digest((if d == Approve then "approved|" else "rejected|") + comment)
  }

  lemma ReviewKeyIs(cfg: Config, id: string, key: string, d: Decision, comment: string)
    ensures ReviewKey(id, key, d) == Compound(ReviewScope(d, id), key)
    ensures Payload(cfg, d, comment) == Fingerprint(cfg, d, comment)
  {
    assert "approved" + "|" + comment == "approved|" + comment && "rejected" + "|" + comment == "rejected|" + comment;
  }

  /** The record that a decision files. */
  predicate Files(before: Db, after: Db, id: string, key: string, d: Decision, payload: string, now: Time) {
    after == before.(idempotency := before.idempotency[
      ReviewKey(id, key, d) := IdempotencyRecord(
        key, (if d == Approve then "approved:" else "rejected:") + id, payload, id, now)])
  }

  predicate Exists(db: Db, id: string) {
    id in db.requests && db.requests[id].id == id
  }

  /** The row is already decided this way. */
  predicate Agreed(row: Request, d: Decision) {
    (d == Approve && row.status == Approved) || (d == Reject && row.status == Rejected)
  }

  /** An admin, or the reviewer the row is assigned to; and never its requester. */
  predicate Independent(actor: Actor, row: Request) {
    && (actor.role == Admin || (actor.role == Reviewer && actor.id == row.reviewer))
    && actor.id != row.requester
  }

  /** A decision is refused for a request that does not exist, for one that is neither pending nor already decided this
      way, to anyone but an independent reviewer, and without a key; nothing is written. */
  lemma ReviewRefused(cfg: Config, actor: Actor, id: string, key: string, d: Decision, comment: string, met: seq<Met>)
    requires |met| >= 1
    requires var rows := met[0].db.requests;
             || id !in rows
             || (!(rows[id].status == Approved && d == Approve) && !(rows[id].status == Rejected && d == Reject)
                 && (|| rows[id].status != PendingReview
                     || !(actor.role == Admin || (actor.role == Reviewer && actor.id == rows[id].reviewer))
                     || actor.id == rows[id].requester
                     || Blank(key)))
    ensures var call := ReviewRead(actor, id, key, d, comment);
            var rows := met[0].db.requests;
            && Spares(cfg, call, met, 0)
            && Through(cfg, call, met) == Done(Failed(
                 if id !in rows then NotFound
                 else if rows[id].status != PendingReview then Conflict
                 else if !(actor.role == Admin || (actor.role == Reviewer && actor.id == rows[id].reviewer))
                   then Forbidden
                 else if actor.id == rows[id].requester then Forbidden
                 else InvalidInput))
  {
    hide Through, Left, Blank, Act;
    var call := ReviewRead(actor, id, key, d, comment);
    AtFirst(cfg, call, met);
    Next(cfg, call, met, 0);
    ReviewReadStage(cfg, actor, id, key, d, comment, met[0].db, met[0].input);
    Ends(cfg, call, met, 1);
  }

  lemma ReviewLooks(cfg: Config, actor: Actor, id: string, key: string, d: Decision, comment: string, met: seq<Met>)
    requires |met| >= 2 && Exists(met[0].db, id) && !Blank(key)
    requires var row := met[0].db.requests[id];
             Agreed(row, d) || (row.status == PendingReview && Independent(actor, row))
    ensures var call := ReviewRead(actor, id, key, d, comment);
            var find := ReviewFind(actor, met[0].db.requests[id], key, d, comment);
            && Left(cfg, call, met, 0) == met[0].db && Left(cfg, call, met, 1) == met[1].db
            && Through(cfg, call, met[..2]) ==
                 match GetIdempotency(met[1].db, ReviewScope(d, id), key)
                 case Ok(record) =>
                   if record.fingerprint != Fingerprint(cfg, d, comment) then AfterKey(find, Some(KeyUsed))
                   else AfterKey(find, Some(NotFound))
                 case Err(_) => Claiming(find)
  {
    hide Through, Left, Blank, Act, GetIdempotency, AfterKey, Claiming, Fingerprint, ReviewScope;
    var call := ReviewRead(actor, id, key, d, comment);
    AtFirst(cfg, call, met);
    Next(cfg, call, met, 0);
    ReviewReadStage(cfg, actor, id, key, d, comment, met[0].db, met[0].input);
    Next(cfg, call, met, 1);
    FindStage(cfg, ReviewFind(actor, met[0].db.requests[id], key, d, comment), met[1].db, met[1].input);
  }

  lemma ReviewClaimsMet(cfg: Config, actor: Actor, id: string, key: string, d: Decision, comment: string, met: seq<Met>)
    requires |met| >= 3 && Exists(met[0].db, id) && !Blank(key)
    requires var row := met[0].db.requests[id];
             Agreed(row, d) || (row.status == PendingReview && Independent(actor, row))
    requires ReviewKey(id, key, d) !in met[1].db.idempotency
    ensures var call := ReviewRead(actor, id, key, d, comment);
            var find := ReviewFind(actor, met[0].db.requests[id], key, d, comment);
            && Left(cfg, call, met, 0) == met[0].db && Left(cfg, call, met, 1) == met[1].db
            && if ReviewKey(id, key, d) in met[2].db.idempotency then
                 && Through(cfg, call, met[..3]) == AfterKey(find, Some(Conflict))
                 && Left(cfg, call, met, 2) == met[2].db
               else
                 && Through(cfg, call, met[..3]) == AfterKey(find, None)
                 && Files(met[2].db, Left(cfg, call, met, 2), id, key, d, Payload(cfg, d, comment), met[2].input.now)
  {
    hide Through, Left, Blank, Act, AfterKey, Fingerprint, ReviewScope, Compound, ReviewKey, Payload;
    var call := ReviewRead(actor, id, key, d, comment);
    var find := ReviewFind(actor, met[0].db.requests[id], key, d, comment);
    ReviewKeyIs(cfg, id, key, d, comment);
    ReviewLooks(cfg, actor, id, key, d, comment, met);
    Next(cfg, call, met, 2);
    ClaimStage(cfg, find, met[2].db, met[2].input);
    assert ReviewScope(d, id) == (if d == Approve then "approved:" else "rejected:") + id by { ScopeWord(d, id); }
  }

  lemma ScopeWord(d: Decision, id: string)
    ensures ReviewScope(d, id) == (if d == Approve then "approved:" else "rejected:") + id
  {
  }

  /** A decision on a request already decided this way, by anyone: without a key the zero row; with a key on record the
      row it read if the payload is the same and else the zero row; with a new key the row it read, the key being used
      up, unless an equal claim came first. */
  lemma ReviewAgrees(cfg: Config, actor: Actor, id: string, key: string, d: Decision, comment: string, met: seq<Met>)
    requires |met| >= 3 && Exists(met[0].db, id) && Agreed(met[0].db.requests[id], d)
    ensures var call := ReviewRead(actor, id, key, d, comment);
            var (row, k, found) := (met[0].db.requests[id], ReviewKey(id, key, d), met[1].db.idempotency);
            if Blank(key) then
              Through(cfg, call, met) == Done(ZeroRow) && Spares(cfg, call, met, 0)
            else if k in found then
              && Spares(cfg, call, met, 0)
              && Through(cfg, call, met)
                 == Done(if found[k].fingerprint == Payload(cfg, d, comment) then Returned(row) else ZeroRow)
            else if k in met[2].db.idempotency then
              Through(cfg, call, met) == Done(ZeroRow) && Spares(cfg, call, met, 0)
            else
              && Through(cfg, call, met) == Done(Returned(row))
              && Left(cfg, call, met, 0) == met[0].db && Left(cfg, call, met, 1) == met[1].db
              && Files(met[2].db, Left(cfg, call, met, 2), id, key, d, Payload(cfg, d, comment), met[2].input.now)
              && Spares(cfg, call, met, 3)
  {
    hide Through, Left, Blank, Act, Compound, ReviewKey, Payload, Fingerprint, ReviewScope, Files, Spares;
    var call := ReviewRead(actor, id, key, d, comment);
    ReviewKeyIs(cfg, id, key, d, comment);
    if Blank(key) {
      BlankAgrees(cfg, actor, id, key, d, comment, met);
    } else if ReviewKey(id, key, d) in met[1].db.idempotency {
      ReviewLooks(cfg, actor, id, key, d, comment, met);
      Ends(cfg, call, met, 2);
    } else {
      ReviewClaimsMet(cfg, actor, id, key, d, comment, met);
      if ReviewKey(id, key, d) in met[2].db.idempotency {
        Ends(cfg, call, met, 3);
      } else {
        Over(cfg, call, met, 3);
      }
    }
  }

  lemma BlankAgrees(cfg: Config, actor: Actor, id: string, key: string, d: Decision, comment: string, met: seq<Met>)
    requires |met| >= 1 && Exists(met[0].db, id) && Agreed(met[0].db.requests[id], d) && Blank(key)
    ensures var call := ReviewRead(actor, id, key, d, comment);
            Through(cfg, call, met) == Done(ZeroRow) && Spares(cfg, call, met, 0)
  {
    hide Through, Left, Blank, Act;
    var call := ReviewRead(actor, id, key, d, comment);
    AtFirst(cfg, call, met);
    Next(cfg, call, met, 0);
    ReviewReadStage(cfg, actor, id, key, d, comment, met[0].db, met[0].input);
    Ends(cfg, call, met, 1);
  }

  /** A decision on a pending request whose key is on record: with the same payload the row as it then is, else refused;
      and a decision whose claim comes second to an equal key is a conflict. Nothing is written. */
  lemma ReviewKnown(cfg: Config, actor: Actor, id: string, key: string, d: Decision, comment: string, met: seq<Met>)
    requires |met| >= 3 && Exists(met[0].db, id) && !Blank(key)
    requires met[0].db.requests[id].status == PendingReview && Independent(actor, met[0].db.requests[id])
    requires ReviewKey(id, key, d) in met[1].db.idempotency || ReviewKey(id, key, d) in met[2].db.idempotency
    ensures var call := ReviewRead(actor, id, key, d, comment);
            var (k, found, rows) := (ReviewKey(id, key, d), met[1].db.idempotency, met[2].db.requests);
            && Spares(cfg, call, met, 0)
            && Through(cfg, call, met) == Done(
                 if k !in found then Failed(Conflict)
                 else if found[k].fingerprint != Payload(cfg, d, comment) then Failed(KeyUsed)
                 else if id in rows then Returned(rows[id]) else Failed(NotFound))
  {
    hide Through, Left, Blank, Act, Compound, ReviewKey, Payload, Fingerprint, ReviewScope, Files, Spares;
    var call := ReviewRead(actor, id, key, d, comment);
    ReviewKeyIs(cfg, id, key, d, comment);
    if ReviewKey(id, key, d) in met[1].db.idempotency {
      ReviewLooks(cfg, actor, id, key, d, comment, met);
      if Through(cfg, call, met[..2]).Done? {
        Ends(cfg, call, met, 2);
      } else {
        RereadMet(cfg, call, met, 2, id);
      }
    } else {
      ReviewClaimsMet(cfg, actor, id, key, d, comment, met);
      Ends(cfg, call, met, 3);
    }
  }

  lemma ReviewClaimed(cfg: Config, actor: Actor, id: string, key: string, d: Decision, comment: string, met: seq<Met>)
    requires |met| >= 3 && Exists(met[0].db, id) && !Blank(key)
    requires met[0].db.requests[id].status == PendingReview && Independent(actor, met[0].db.requests[id])
    requires ReviewKey(id, key, d) !in met[1].db.idempotency && ReviewKey(id, key, d) !in met[2].db.idempotency
    ensures var call := ReviewRead(actor, id, key, d, comment);
            && Left(cfg, call, met, 0) == met[0].db && Left(cfg, call, met, 1) == met[1].db
            && Files(met[2].db, Left(cfg, call, met, 2), id, key, d, Payload(cfg, d, comment), met[2].input.now)
            && Through(cfg, call, met[..3])
               == Swapping(actor, met[0].db.requests[id], Decide(d, comment, key), None, Answer)
  {
    hide Through, Left, Blank, Files, ReviewKey, Payload;
    ReviewClaimsMet(cfg, actor, id, key, d, comment, met);
  }

  lemma DecisionWrites(cfg: Config, row: Request, d: Decision, comment: string, key: string, now: Time)
    ensures var decided := row.(reviewedAt := Some(now), updatedAt := now, version := row.version + 1);
            Apply(cfg, row, Decide(d, comment, key), now) ==
              if d == Approve
              then decided.(status := Approved, approvedAt := Some(now), nextAt := Some(now), lastError := "")
              else decided.(status := Rejected, nextAt := None)
  {
  }

  lemma DecisionLogs(cfg: Config, call: Call, met: seq<Met>, actor: Actor, d: Decision, comment: string, key: string,
                     next: Request, at: Time)
    requires |met| >= 7
    requires Through(cfg, call, met[..5]) == Log(next, Owes(actor, Decide(d, comment, key), next, at, Answer), Answer)
    ensures Through(cfg, call, met) == Done(Returned(next))
    ensures var review := ReviewAction(next.id, d, TrimSpace(comment), actor.id, at);
            Left(cfg, call, met, 5) == met[5].db.(reviews :=
              met[5].db.reviews[next.id := Listed(met[5].db.reviews, next.id) + [review]])
    ensures Logs(met[6].db, Left(cfg, call, met, 6), AuditEntry(
              next.id, actor, RequestDecided(d),
              (if d == Approve then "approved" else "rejected") + if Blank(comment) then ""
                else ": " + TrimSpace(comment),
              met[6].input.now))
  {
    hide Through, Left, TrimSpace, Blank;
    var owed := Owes(actor, Decide(d, comment, key), next, at, Answer);
    assert |owed| == 2 && owed[1..][1..] == [];
    assert "approved" + "" == "approved" && "rejected" + "" == "rejected";
    assert forall text: string :: "approved" + (": " + text) == "approved" + ": " + text;
    assert forall text: string :: "rejected" + (": " + text) == "rejected" + ": " + text;
    LogMet(cfg, call, met, 5, next, owed, Answer);
    LogMet(cfg, call, met, 6, next, owed[1..], Answer);
    Over(cfg, call, met, 7);
  }

  /** A decision on a pending request by an independent reviewer with a new key: when the stored row still has the
      version that was read it becomes approved, due at once, or rejected, and is answered; the key, the row, a review
      row and an audit entry are all that is written. Otherwise it is a conflict, with its key used up. */
  lemma ReviewDecides(cfg: Config, actor: Actor, id: string, key: string, d: Decision, comment: string, met: seq<Met>)
    requires |met| >= 7 && Exists(met[0].db, id) && !Blank(key)
    requires met[0].db.requests[id].status == PendingReview && Independent(actor, met[0].db.requests[id])
    requires ReviewKey(id, key, d) !in met[1].db.idempotency && ReviewKey(id, key, d) !in met[2].db.idempotency
    ensures var call := ReviewRead(actor, id, key, d, comment);
            var (row, now, swapped) := (met[0].db.requests[id], met[3].input.now, met[4].db);
            var decided := row.(reviewedAt := Some(now), updatedAt := now, version := row.version + 1);
            var next :=
              if d == Approve
              then decided.(status := Approved, approvedAt := Some(now), nextAt := Some(now), lastError := "")
              else decided.(status := Rejected, nextAt := None);
            var review := ReviewAction(id, d, TrimSpace(comment), actor.id, now);
            && Left(cfg, call, met, 0) == met[0].db && Left(cfg, call, met, 1) == met[1].db
            && Files(met[2].db, Left(cfg, call, met, 2), id, key, d, Payload(cfg, d, comment), met[2].input.now)
            && Left(cfg, call, met, 3) == met[3].db
            && if id !in swapped.requests then
                 Through(cfg, call, met) == Done(Failed(NotFound)) && Spares(cfg, call, met, 4)
               else if swapped.requests[id].version != row.version then
                 Through(cfg, call, met) == Done(Failed(Conflict)) && Spares(cfg, call, met, 4)
               else
                 && Through(cfg, call, met) == Done(Returned(next))
                 && Left(cfg, call, met, 4) == swapped.(requests := swapped.requests[id := next])
                 && Left(cfg, call, met, 5) == met[5].db.(reviews :=
                      met[5].db.reviews[id := Listed(met[5].db.reviews, id) + [review]])
                 && Logs(met[6].db, Left(cfg, call, met, 6), AuditEntry(
                      id, actor, RequestDecided(d),
                      (if d == Approve then "approved" else "rejected") + if Blank(comment) then ""
                        else ": " + TrimSpace(comment),
              met[6].input.now))
  {
    hide Through, Left, Blank, Act, Spares, Apply, Owes, Logs, Files, ReviewKey, Payload, TrimSpace, Independent;
    var call, row := ReviewRead(actor, id, key, d, comment), met[0].db.requests[id];
    ReviewClaimed(cfg, actor, id, key, d, comment, met);
    SwapMet(cfg, call, met, 3, actor, row, Decide(d, comment, key));
    DecisionWrites(cfg, row, d, comment, key, met[3].input.now);
    if id in met[4].db.requests && met[4].db.requests[id].version == row.version {
      var at := met[3].input.now;
      DecisionLogs(cfg, call, met, actor, d, comment, key, Apply(cfg, row, Decide(d, comment, key), at), at);
    }
  }
}
