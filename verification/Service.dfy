/** The service itself (internal/application/service.go): its methods, statement by statement, over the memory store,
    with any number of other calls running between any two store operations. Each method is proved to be a run of its
    call in Machine, so everything proved about runs holds of it. */
module ServiceCode {
  import opened Domain
  import opened Workflow
  import opened Database
  import opened Calls
  import opened Machine
  import opened Schedules
  import opened Stages
  import opened Meetings
  import opened Clocks
  import opened WorkerRuns
  import opened MemoryStore

  /** A decision that is refused outright: no such request, one that is neither pending nor decided this way already, or
      an actor who is not an independent reviewer of it. */
  predicate Unreviewable(rows: Rows, actor: Actor, id: string, d: Decision) {
    || id !in rows
    || (rows[id].status != PendingReview
        && !(rows[id].status == Approved && d == Approve) && !(rows[id].status == Rejected && d == Reject))
    || (rows[id].status == PendingReview
        && (|| !(actor.role == Admin || (actor.role == Reviewer && actor.id == rows[id].reviewer))
            || actor.id == rows[id].requester))
  }

  class Service {
    const store: Store
    const cfg: Config
    /** Whether the clock behind `now` never runs backwards. */
    const steady: bool
    /** What that clock last showed, to this or another thread. */
    var clock: Time
    /** The schedule so far, of this and all other threads. */
    ghost var moves: seq<Move>

    ghost predicate Valid()
      reads this, store
    {
      && store.Valid() && store.Model() == Run(cfg, moves).db
      && Scheduled()
    }

    /** The clock is that of the schedule, which is steady if the clock is. */
    ghost predicate Scheduled()
      reads this
    {
      clock == Run(cfg, moves).clock && (steady ==> Monotone(moves))
    }

    constructor (store: Store, defaultReviewer: string, reminderAfter: int, retryBase: int, maxAttempts: int,
                 simulated: bool, digest: string -> string, steady: bool)
      requires store.Valid() && store.Model() == EMPTY
      ensures Valid() && moves == [] && this.store == store && this.steady == steady
      ensures cfg == Config(TrimSpace(defaultReviewer), reminderAfter, retryBase, maxAttempts, simulated, digest)
    {
      this.store := store;
      this.steady := steady;
      cfg := Config(TrimSpace(defaultReviewer), reminderAfter, retryBase, maxAttempts, simulated, digest);
      clock, moves := 0, [];
    }

    /** What every method keeps, in whatever company it runs: the rows in the store have their shape, and they are what
        the winning swaps of all threads yield one after the other. */
    lemma Sound()
      requires Valid() && cfg.maxAttempts >= 1
      ensures RowsOk(cfg, store.requests)
      ensures PerformAll(cfg, Events(cfg, moves)) == Some(store.requests)
    {
      RunCore(cfg, moves);
      Linearisable(cfg, moves);
    }

    /** What every method keeps when the clock is steady: the times of every stored row are in order, and no row was
        updated earlier than at any point the schedule has passed. */
    lemma Timely(earlier: seq<Move>)
      requires Valid() && Configured(cfg) && steady && earlier <= moves
      ensures forall id <- store.requests :: Causal(store.requests[id]) && store.requests[id].updatedAt <= clock
      ensures var rows := Run(cfg, earlier).db.requests;
              forall id <- rows :: id in store.requests && rows[id].updatedAt <= store.requests[id].updatedAt
    {
      hide Run, Causal, Monotone;
      RunTimed(cfg, moves);
      var rows := Run(cfg, earlier).db.requests;
      assert moves[..|earlier|] == earlier && moves[..|moves|] == moves;
      forall id <- rows ensures id in store.requests && rows[id].updatedAt <= store.requests[id].updatedAt {
        UpdatesForward(cfg, moves, |earlier|, |moves|, id);
      }
    }

    /** And when no thread reports results, the retries of every stored row are backed off and within the budget. */
    lemma Patient()
      requires Valid() && Configured(cfg) && NoReports(moves)
      ensures forall id <- store.requests :: Fated(cfg, store.requests[id])
      ensures steady ==> forall id <- store.requests :: BackedOff(cfg, store.requests[id])
    {
      hide Run, Fated, BackedOff, Monotone, NoReports, FromWorker;
      RowsFated(cfg, moves);
      if steady { Backoff(cfg, moves); }
    }

    /** What a call answered is what its stages over the stores it met come to, so Promises and ReviewPromises say what
        each method answers and writes. */
    lemma Answered(earlier: seq<Move>, pid: nat, call: Call, reply: Reply)
      requires Free(cfg, earlier, pid) && Initial(call)
      requires Ran(earlier, moves, pid, call) && At(cfg, moves, pid, Done(reply))
      ensures Through(cfg, call, MetBy(cfg, earlier + [Begin(pid, call)], moves, pid)) == Done(reply)
    {
      hide Run;
      BeginRuns(cfg, earlier, pid, call);
      RunThrough(cfg, earlier + [Begin(pid, call)], moves, pid, call);
    }

    // ---------- The world

    /** Between two store operations other threads may run any stages of any calls, and time may pass. Ids are issued
        once: no other thread stores a row under an id issued to this one. This body is the quiet case; callers know
        only the contract. */
    method Yield(ghost pid: nat, ghost issued: set<string>)
      requires Valid()
      modifies this`moves, this`clock, store
      ensures Valid() && OthersRan(old(moves), moves, pid)
      ensures forall id <- issued :: FreshId(old(store.Model()), id) ==> FreshId(store.Model(), id)
    {
    }

    /** `s.now()`: the clock has moved, and not backwards if it is steady. */
    method Now(ghost pid: nat, ghost first: seq<Move>, ghost call: Call) returns (now: Time)
      requires Valid() && At(cfg, moves, pid, call) && NoneBegun(first, moves, pid)
      modifies this`moves, this`clock
      ensures Valid() && At(cfg, moves, pid, call) && NoneBegun(first, moves, pid)
      ensures now == clock
    {
      hide Run, Monotone;
      var passed: int := *;
      if steady && passed < 0 {
        passed := 0;
      }
      TickRuns(cfg, moves, pid, call, passed);
      NoneBegunTransitive(first, moves, moves + [Tick(passed)], pid);
      if steady { StaysMonotone(moves, Tick(passed)); }
      moves := moves + [Tick(passed)];
      clock := clock + passed;
      now := clock;
    }

    /** The world as a stage sees it that lists nothing and calls no executor. */
    ghost function Reading(): Input
      reads this
    {
      Input(clock, [], None)
    }

    method RunExecutor(row: Request) returns (failure: Option<string>)
      ensures cfg.simulated ==> failure == Simulate(row)
    {
      if cfg.simulated {
        failure := Simulate(row);
      } else {
        failure := *;
      }
    }

    // ---------- Schedule keeping. `first` is the schedule up to the beginning of the running call.

    ghost method Start(pid: nat, call: Call) returns (first: seq<Move>)
      requires Valid() && Free(cfg, moves, pid) && Initial(call)
      modifies this`moves
      ensures Valid() && At(cfg, moves, pid, call)
      ensures first == moves == old(moves) + [Begin(pid, call)] && NoneBegun(first, moves, pid)
    {
      hide Run, Monotone;
      BeginRuns(cfg, moves, pid, call);
      if steady { StaysMonotone(moves, Begin(pid, call)); }
      moves := moves + [Begin(pid, call)];
      first := moves;
    }

    /** Thread `pid` has just done the store operation, clock reading or executor call of its stage. */
    ghost method Took(pid: nat, first: seq<Move>, call: Call, input: Input)
      requires At(cfg, moves, pid, call) && NoneBegun(first, moves, pid) && Scheduled() && input.now == clock
      requires store.Valid() && store.Model() == Act(cfg, call, Run(cfg, moves).db, input).1
      modifies this`moves
      ensures Valid() && At(cfg, moves, pid, Act(cfg, call, old(Run(cfg, moves).db), input).0)
      ensures NoneBegun(first, moves, pid)
    {
      hide Act, Run, Monotone;
      var stage := Stage(pid, input.pick, input.outcome);
      StageRuns(cfg, moves, pid, call, stage);
      NoneBegunTransitive(first, moves, moves + [stage], pid);
      if steady { StaysMonotone(moves, stage); }
      moves := moves + [stage];
    }

    /** Yield, and be where one was. */
    method Pause(ghost pid: nat, ghost first: seq<Move>, ghost call: Call)
      requires Valid() && At(cfg, moves, pid, call) && NoneBegun(first, moves, pid)
      modifies this`moves, this`clock, store
      ensures Valid() && At(cfg, moves, pid, call) && NoneBegun(first, moves, pid)
      ensures OthersRan(old(moves), moves, pid)
      ensures call.Creating? && FreshId(old(store.Model()), call.row.id) ==> FreshId(store.Model(), call.row.id)
    {
      hide Step;
      ghost var before := moves;
      Yield(pid, if call.Creating? then {call.row.id} else {});
      OthersKeep(cfg, before, moves, pid, call);
      NoneBegunTransitive(first, before, moves, pid);
    }

    // ---------- Drafts

    /** `id` is what NewID returns: fresh. */
    method CreateDraft(ghost pid: nat, actor: Actor, input: DraftInput, id: string) returns (reply: Reply)
      requires Valid() && Free(cfg, moves, pid) && FreshId(store.Model(), id)
      modifies this`moves, this`clock, store
      ensures Valid() && Ran(old(moves), moves, pid, Drafting(actor, input, id)) && At(cfg, moves, pid, Done(reply))
      ensures || Blank(actor.id) || actor.role.OtherRole?
              || Blank(input.kind) || Blank(input.target) || Blank(input.justification)
              ==> reply == Failed(InvalidInput) && unchanged(store)
    {
      hide Act, Run, At, NoneBegun, IsSpace;
      ghost var call := Drafting(actor, input, id);
      ghost var first := Start(pid, call);
      if !ValidActor(actor) || TrimSpace(input.kind) == "" || TrimSpace(input.target) == ""
         || TrimSpace(input.justification) == ""
      {
        DraftingStage(cfg, actor, input, id, store.Model(), Reading());
        Took(pid, first, call, Reading());
        return Failed(InvalidInput);
      }
      var now := Now(pid, first, call);
      DraftingStage(cfg, actor, input, id, store.Model(), Reading());
      Took(pid, first, call, Reading());
      var row := Request(id, TrimSpace(input.kind), TrimSpace(input.target), TrimSpace(input.justification), actor.id,
                         "", Draft, 1, 0, 0, "", now, now, None, None, None, None, None, None);
      Pause(pid, first, Creating(actor, row));
      CreatingStage(cfg, actor, row, store.Model(), Reading());
      store.CreateRequest(row);
      Took(pid, first, Creating(actor, row), Reading());
      ghost var owed := [OweAudit(row.id, actor, DraftCreated, "draft request created")];
      AppendAudit(pid, first, row, owed, Answer, row.id, actor, DraftCreated, "draft request created");
      return Returned(row);
    }

    /** `AppendAudit(auditFor(...))`: the entry is stamped now. */
    method AppendAudit(ghost pid: nat, ghost first: seq<Move>, ghost row: Request, ghost owed: seq<Owed>,
                       ghost then_: Rest, id: string, actor: Actor, action: Action, description: string)
      requires Valid() && At(cfg, moves, pid, Logging(row, owed, then_)) && NoneBegun(first, moves, pid)
      requires owed != [] && owed[0] == OweAudit(id, actor, action, description)
      modifies this`moves, this`clock, store
      ensures Valid() && At(cfg, moves, pid, Log(row, owed[1..], then_)) && NoneBegun(first, moves, pid)
    {
      hide Act, Run, At, NoneBegun;
      Pause(pid, first, Logging(row, owed, then_));
      var now := Now(pid, first, Logging(row, owed, then_));
      LoggingStage(cfg, row, owed, then_, store.Model(), Reading());
      store.AppendAudit(AuditEntry(id, actor, action, description, now));
      Took(pid, first, Logging(row, owed, then_), Reading());
    }

    method AppendReview(ghost pid: nat, ghost first: seq<Move>, ghost row: Request, ghost owed: seq<Owed>,
                        ghost then_: Rest, review: ReviewAction)
      requires Valid() && At(cfg, moves, pid, Logging(row, owed, then_)) && NoneBegun(first, moves, pid)
      requires owed != [] && owed[0] == OweReview(review)
      modifies this`moves, this`clock, store
      ensures Valid() && At(cfg, moves, pid, Log(row, owed[1..], then_)) && NoneBegun(first, moves, pid)
    {
      hide Act, Run, At, NoneBegun;
      Pause(pid, first, Logging(row, owed, then_));
      LoggingStage(cfg, row, owed, then_, store.Model(), Reading());
      store.CreateReview(review);
      Took(pid, first, Logging(row, owed, then_), Reading());
    }

    method AppendJobRun(ghost pid: nat, ghost first: seq<Move>, ghost row: Request, ghost owed: seq<Owed>,
                        ghost then_: Rest, run: JobRun)
      requires Valid() && At(cfg, moves, pid, Logging(row, owed, then_)) && NoneBegun(first, moves, pid)
      requires owed != [] && owed[0] == OweRun(run)
      modifies this`moves, this`clock, store
      ensures Valid() && At(cfg, moves, pid, Log(row, owed[1..], then_)) && NoneBegun(first, moves, pid)
    {
      hide Act, Run, At, NoneBegun;
      Pause(pid, first, Logging(row, owed, then_));
      LoggingStage(cfg, row, owed, then_, store.Model(), Reading());
      store.AppendJobRun(run);
      Took(pid, first, Logging(row, owed, then_), Reading());
    }

    // ---------- Submission

    /** `ensureIdempotency`, with a key that is not blank: the callers here have refused blank ones. */
    method EnsureIdempotency(ghost pid: nat, ghost first: seq<Move>, ghost find: Call, scope: string, key: string,
                             id: string, payload: string)
      returns (error: Option<Error>)
      requires find.SubmitFind? || find.ReviewFind?
      requires !Blank(key) ==> Valid() && At(cfg, moves, pid, find) && NoneBegun(first, moves, pid)
      requires scope == KeyScope(find) && key == find.key && id == find.snap.id && payload == KeyPayload(cfg, find)
      modifies this`moves, this`clock, store
      ensures Blank(key) ==>
                error == Some(InvalidInput) && moves == old(moves) && clock == old(clock) && unchanged(store)
      ensures !Blank(key) ==> Valid() && At(cfg, moves, pid, AfterKey(find, error)) && NoneBegun(first, moves, pid)
      ensures !Blank(key) ==> error in {None, Some(NotFound), Some(KeyUsed), Some(Conflict)}
    {
      hide Act, Run, At, NoneBegun, AfterKey, Claiming, KeyScope, KeyPayload, IsSpace;
      if TrimSpace(key) == "" {
        return Some(InvalidInput);
      }
      Pause(pid, first, find);
      FindStage(cfg, find, store.Model(), Reading());
      var found := store.GetIdempotency(scope, key);
      Took(pid, first, find, Reading());
      if found.Ok? {
        if found.value.fingerprint != payload {
          return Some(KeyUsed);
        }
        return Some(NotFound);
      }
      Pause(pid, first, Claiming(find));
      var now := Now(pid, first, Claiming(find));
      ClaimStage(cfg, find, store.Model(), Reading());
      error := store.CreateIdempotency(IdempotencyRecord(key, scope, payload, id, now));
      Took(pid, first, Claiming(find), Reading());
    }

    method RequireOwnedOrAdmin(actor: Actor, id: string) returns (answer: Fallible<Request>)
      ensures answer == match Database.GetRequest(store.Model(), id)
                        case Err(error) => Err(error)
                        case Ok(row) =>
                          if actor.role == Admin || row.requester == actor.id then Ok(row) else Err(Forbidden)
    {
      answer := store.GetRequest(id);
      if answer.Ok? && !(actor.role == Admin || answer.value.requester == actor.id) {
        answer := Err(Forbidden);
      }
    }

    /** The final `return s.store.GetRequest(ctx, requestID)` of a replay. */
    method ReturnStored(ghost pid: nat, ghost first: seq<Move>, id: string) returns (reply: Reply)
      requires Valid() && At(cfg, moves, pid, Reread(id)) && NoneBegun(first, moves, pid)
      modifies this`moves, this`clock, store
      ensures Valid() && At(cfg, moves, pid, Done(reply)) && NoneBegun(first, moves, pid)
    {
      hide Act, Run, At, NoneBegun;
      Pause(pid, first, Reread(id));
      RereadStage(cfg, id, store.Model(), Reading());
      var answer := store.GetRequest(id);
      Took(pid, first, Reread(id), Reading());
      reply := match answer case Ok(row) => Returned(row) case Err(error) => Failed(error);
    }

    method SubmitRequest(ghost pid: nat, actor: Actor, id: string, key: string) returns (reply: Reply)
      requires Valid() && Free(cfg, moves, pid)
      modifies this`moves, this`clock, store
      ensures Valid() && Ran(old(moves), moves, pid, SubmitRead(actor, id, key)) && At(cfg, moves, pid, Done(reply))
      ensures var rows := old(store.requests);
              && (id !in rows ==> reply == Failed(NotFound) && unchanged(store))
              && (id in rows && actor.role != Admin && actor.id != rows[id].requester ==>
                    reply == Failed(Forbidden) && unchanged(store))
              && (id in rows && (actor.role == Admin || actor.id == rows[id].requester) && Blank(key) ==>
                    reply == Failed(InvalidInput) && unchanged(store))
    {
      hide Act, Run, At, NoneBegun, IsSpace, SubmitScope;
      ghost var first := Start(pid, SubmitRead(actor, id, key));
      SubmitReadStage(cfg, actor, id, key, store.Model(), Reading());
      var owned := RequireOwnedOrAdmin(actor, id);
      Took(pid, first, SubmitRead(actor, id, key), Reading());
      if owned.Err? {
        return Failed(owned.error);
      }
      var row := owned.value;
      var scope := SubmitScope(id);
      ghost var find := SubmitFind(actor, row, key);
      var error := EnsureIdempotency(pid, first, find, scope, key, id, actor.id);
      if error.Some? {
        if error.value == NotFound {
          reply := ReturnStored(pid, first, id);
          return;
        }
        if error.value != Conflict {
          return Failed(error.value);
        }
        reply := RecheckKey(pid, first, actor, row, key);
        return;
      }
      if row.status != Draft {
        return Failed(Conflict);
      }
      reply := SwapSubmission(pid, first, actor, row, key);
    }

    /** A concurrent claim of the same key won: the error path of `SubmitRequest`. */
    method RecheckKey(ghost pid: nat, ghost first: seq<Move>, actor: Actor, row: Request, key: string)
      returns (reply: Reply)
      requires Valid() && At(cfg, moves, pid, SubmitRecheck(actor, row, key)) && NoneBegun(first, moves, pid)
      modifies this`moves, this`clock, store
      ensures Valid() && At(cfg, moves, pid, Done(reply)) && NoneBegun(first, moves, pid)
    {
      hide Act, Run, At, NoneBegun, SubmitScope;
      Pause(pid, first, SubmitRecheck(actor, row, key));
      RecheckStage(cfg, actor, row, key, store.Model(), Reading());
      var record := store.GetIdempotency(SubmitScope(row.id), key);
      Took(pid, first, SubmitRecheck(actor, row, key), Reading());
      if record.Err? {
        return Failed(Conflict);
      }
      if record.value.fingerprint != actor.id {
        return Failed(KeyUsed);
      }
      reply := ReturnStored(pid, first, row.id);
    }

    /** Reads the clock for a pending swap. */
    method ReadClock(ghost pid: nat, ghost first: seq<Move>, ghost call: Call) returns (now: Time)
      requires Valid() && At(cfg, moves, pid, call) && NoneBegun(first, moves, pid) && call.Swapping? && call.at == None
      modifies this`moves, this`clock, store
      ensures Valid() && At(cfg, moves, pid, call.(at := Some(now))) && NoneBegun(first, moves, pid)
    {
      hide Act, Run, At, NoneBegun;
      Pause(pid, first, call);
      now := Now(pid, first, call);
      SwappingStage(cfg, call, store.Model(), Reading());
      Took(pid, first, call, Reading());
    }

    /** `UpdateRequest` for a pending swap. */
    method WriteRow(ghost pid: nat, ghost first: seq<Move>, ghost call: Call, next: Request, expected: int)
      returns (error: Option<Error>)
      requires Valid() && At(cfg, moves, pid, call) && NoneBegun(first, moves, pid) && call.Swapping? && call.at.Some?
      requires next == Apply(cfg, call.snap, call.change, call.at.value) && expected == call.snap.version
      modifies this`moves, this`clock, store
      ensures Valid() && NoneBegun(first, moves, pid)
      ensures At(cfg, moves, pid,
        if error == None then Log(next, Owes(call.actor, call.change, next, call.at.value, call.then_), call.then_)
        else if call.then_.Answer? then Done(Failed(error.value))
        else Log(call.snap, OwedRun(call.snap.id, call.snap.attempts + 1, call.change, call.then_), call.then_))
    {
      hide Act, Run, At, NoneBegun, Apply, Log, Owes, OwedRun;
      Pause(pid, first, call);
      SwappingStage(cfg, call, store.Model(), Reading());
      error := store.UpdateRequest(next, expected);
      Took(pid, first, call, Reading());
    }

    method SwapSubmission(ghost pid: nat, ghost first: seq<Move>, actor: Actor, row: Request, key: string)
      returns (reply: Reply)
      requires Valid() && At(cfg, moves, pid, Swapping(actor, row, Submit(key), None, Answer))
      requires NoneBegun(first, moves, pid)
      modifies this`moves, this`clock, store
      ensures Valid() && At(cfg, moves, pid, Done(reply)) && NoneBegun(first, moves, pid)
    {
      hide Act, Run, At, NoneBegun;
      var now := ReadClock(pid, first, Swapping(actor, row, Submit(key), None, Answer));
      var expected := row.version;
      var next := row.(status := PendingReview, reviewer := cfg.reviewer, submittedAt := Some(now), updatedAt := now,
                       version := row.version + 1);
      var error := WriteRow(pid, first, Swapping(actor, row, Submit(key), Some(now), Answer), next, expected);
      if error.Some? {
        return Failed(error.value);
      }
      ghost var owed := Owes(actor, Submit(key), next, now, Answer);
      AppendAudit(pid, first, next, owed, Answer, next.id, actor, RequestSubmitted, "request submitted for review");
      AppendAudit(pid, first, next, owed[1..], Answer, next.id, SYSTEM, ReviewAssigned, "request assigned to reviewer");
      return Returned(next);
    }

    // ---------- Review

    method ApproveRequest(ghost pid: nat, actor: Actor, id: string, key: string, comment: string) returns (reply: Reply)
      requires Valid() && Free(cfg, moves, pid)
      modifies this`moves, this`clock, store
      ensures Valid() && Ran(old(moves), moves, pid, ReviewRead(actor, id, key, Approve, comment))
      ensures At(cfg, moves, pid, Done(reply))
      ensures Unreviewable(old(store.requests), actor, id, Approve) ==> unchanged(store) && reply == Failed(
                if id !in old(store.requests) then NotFound
                else if old(store.requests)[id].status != PendingReview then Conflict else Forbidden)
    {
      reply := ReviewRequest(pid, actor, id, key, Approve, comment);
    }

    method RejectRequest(ghost pid: nat, actor: Actor, id: string, key: string, comment: string) returns (reply: Reply)
      requires Valid() && Free(cfg, moves, pid)
      modifies this`moves, this`clock, store
      ensures Valid() && Ran(old(moves), moves, pid, ReviewRead(actor, id, key, Reject, comment))
      ensures At(cfg, moves, pid, Done(reply))
      ensures Unreviewable(old(store.requests), actor, id, Reject) ==> unchanged(store) && reply == Failed(
                if id !in old(store.requests) then NotFound
                else if old(store.requests)[id].status != PendingReview then Conflict else Forbidden)
    {
      reply := ReviewRequest(pid, actor, id, key, Reject, comment);
    }

    method ReviewRequest(ghost pid: nat, actor: Actor, id: string, key: string, decision: Decision, comment: string)
      returns (reply: Reply)
      requires Valid() && Free(cfg, moves, pid)
      modifies this`moves, this`clock, store
      ensures Valid() && Ran(old(moves), moves, pid, ReviewRead(actor, id, key, decision, comment))
      ensures At(cfg, moves, pid, Done(reply))
      ensures Unreviewable(old(store.requests), actor, id, decision) ==> unchanged(store) && reply == Failed(
                if id !in old(store.requests) then NotFound
                else if old(store.requests)[id].status != PendingReview then Conflict else Forbidden)
    {
      hide Act, Run, At, NoneBegun, IsSpace, ReviewScope, Fingerprint;
      ghost var first := Start(pid, ReviewRead(actor, id, key, decision, comment));
      ReviewReadStage(cfg, actor, id, key, decision, comment, store.Model(), Reading());
      var found := store.GetRequest(id);
      Took(pid, first, ReviewRead(actor, id, key, decision, comment), Reading());
      if found.Err? {
        return Failed(found.error);
      }
      var row := found.value;
      ghost var find := ReviewFind(actor, row, key, decision, comment);
      if (row.status == Approved && decision == Approve) || (row.status == Rejected && decision == Reject) {
        var settled := EnsureIdempotency(pid, first, find, ReviewScope(decision, id), key, id,
                                         Fingerprint(cfg, decision, comment));
        if settled == None || settled == Some(NotFound) {
          return Returned(row);
        }
        return ZeroRow; // `err` is the outer, nil one
      }
      if row.status != PendingReview {
        return Failed(Conflict);
      }
      if !CanReview(actor, row) {
        return Failed(Forbidden);
      }
      if actor.id == row.requester {
        return Failed(Forbidden);
      }
      var error := EnsureIdempotency(pid, first, find, ReviewScope(decision, id), key, id,
                                     Fingerprint(cfg, decision, comment));
      if error.Some? {
        if error.value == NotFound {
          reply := ReturnStored(pid, first, id);
          return;
        }
        return Failed(error.value);
      }
      reply := SwapDecision(pid, first, actor, row, key, decision, comment);
    }

    method SwapDecision(ghost pid: nat, ghost first: seq<Move>, actor: Actor, row: Request, ghost key: string,
                        decision: Decision, comment: string)
      returns (reply: Reply)
      requires Valid() && At(cfg, moves, pid, Swapping(actor, row, Decide(decision, comment, key), None, Answer))
      requires NoneBegun(first, moves, pid)
      modifies this`moves, this`clock, store
      ensures Valid() && At(cfg, moves, pid, Done(reply)) && NoneBegun(first, moves, pid)
    {
      hide Act, Run, At, NoneBegun, TrimSpace;
      ghost var change := Decide(decision, comment, key);
      var now := ReadClock(pid, first, Swapping(actor, row, change, None, Answer));
      var expected := row.version;
      var next := row.(reviewedAt := Some(now), updatedAt := now, version := row.version + 1);
      if decision == Approve {
        next := next.(status := Approved, approvedAt := Some(now), nextAt := Some(now), lastError := "");
      } else {
        next := next.(status := Rejected, nextAt := None);
      }
      var error := WriteRow(pid, first, Swapping(actor, row, change, Some(now), Answer), next, expected);
      if error.Some? {
        return Failed(error.value);
      }
      ghost var owed := Owes(actor, change, next, now, Answer);
      AppendReview(pid, first, next, owed, Answer, ReviewAction(row.id, decision, TrimSpace(comment), actor.id, now));
      AppendAudit(pid, first, next, owed[1..], Answer, next.id, actor, RequestDecided(decision),
                  DecisionDescription(decision, comment));
      return Returned(next);
    }

    // ---------- Execution results

    method RecordExecutionResult(ghost pid: nat, actor: Actor, id: string, success: bool, message: string)
      returns (reply: Reply)
      requires Valid() && Free(cfg, moves, pid)
      modifies this`moves, this`clock, store
      ensures Valid() && Ran(old(moves), moves, pid, ResultRead(actor, id, success, message))
      ensures At(cfg, moves, pid, Done(reply))
      ensures actor.role != Reviewer && actor.role != Admin ==> reply == Failed(Forbidden) && unchanged(store)
      ensures var rows := old(store.requests);
              && (actor.role == Reviewer || actor.role == Admin)
              && (id !in rows || rows[id].status !in {Approved, ExecutionFailed})
              ==> reply == Failed(if id !in rows then NotFound else Conflict) && unchanged(store)
    {
      hide Act, Run, At, NoneBegun, TrimSpace;
      ghost var first := Start(pid, ResultRead(actor, id, success, message));
      ResultReadStage(cfg, actor, id, success, message, store.Model(), Reading());
      if actor.role != Admin && actor.role != Reviewer {
        Took(pid, first, ResultRead(actor, id, success, message), Reading());
        return Failed(Forbidden);
      }
      var found := store.GetRequest(id);
      Took(pid, first, ResultRead(actor, id, success, message), Reading());
      if found.Err? {
        return Failed(found.error);
      }
      var result := ApplyExecutionResult(pid, first, found.value, actor, success, message, Answer);
      reply := match result case Ok(row) => Returned(row) case Err(error) => Failed(error);
    }

    /** Leaves the caller with the job run still to append, if it is a worker. */
    method ApplyExecutionResult(ghost pid: nat, ghost first: seq<Move>, row: Request, actor: Actor, success: bool,
                                message: string, ghost then_: Rest)
      returns (result: Fallible<Request>)
      requires AwaitsExecution(row) ==>
                 Valid() && At(cfg, moves, pid, Swapping(actor, row, Execute(success, message), None, then_))
                   && NoneBegun(first, moves, pid)
      modifies this`moves, this`clock, store
      ensures !AwaitsExecution(row)
              ==> result == Err(Conflict) && moves == old(moves) && clock == old(clock) && unchanged(store)
      ensures AwaitsExecution(row) ==> Valid() && NoneBegun(first, moves, pid) && At(cfg, moves, pid,
                if result.Err? && then_.Answer? then Done(Failed(result.error))
                else Log(if result.Ok? then result.value else row,
                         OwedRun(row.id, row.attempts + 1, Execute(success, message), then_), then_))
    {
      hide Act, Run, At, NoneBegun, TrimSpace, Log, OwedRun;
      if row.status != Approved && row.status != ExecutionFailed {
        return Err(Conflict);
      }
      ghost var change := Execute(success, message);
      var now := ReadClock(pid, first, Swapping(actor, row, change, None, then_));
      var expected := row.version;
      var next := row.(updatedAt := now, version := row.version + 1, attempts := row.attempts + 1);
      if success {
        next := next.(status := Executed, executedAt := Some(now), nextAt := None, lastError := "");
      } else {
        next := next.(status := ExecutionFailed, lastError := TrimSpace(message));
        if next.attempts >= cfg.maxAttempts {
          next := next.(nextAt := None);
        } else {
          next := next.(nextAt := Some(now + next.attempts * cfg.retryBase));
        }
      }
      var error := WriteRow(pid, first, Swapping(actor, row, change, Some(now), then_), next, expected);
      if error.Some? {
        return Err(error.value);
      }
      ghost var owed := Owes(actor, change, next, now, then_);
      assert owed[1..] == OwedRun(next.id, next.attempts, change, then_);
      LogOne(next, owed, then_);
      AppendAudit(pid, first, next, owed, then_, next.id, actor, if success then AttemptSucceeded else AttemptFailed,
                  if success then "request executed successfully" else "execution failed: " + TrimSpace(message));
      return Ok(next);
    }

    // ---------- Worker passes

    method ProcessDueReminders(ghost pid: nat, limit: int)
      requires Valid() && Free(cfg, moves, pid)
      modifies this`moves, this`clock, store
      ensures Valid() && Ran(old(moves), moves, pid, RemindStart(limit)) && At(cfg, moves, pid, Done(Finished))
    {
      hide Act, Run, At, NoneBegun, Monotone, PicksReminders, Continue;
      ghost var first := Start(pid, RemindStart(limit));
      var now := Now(pid, first, RemindStart(limit));
      ListingStages(cfg, limit, now, store.Model(), Reading());
      Took(pid, first, RemindStart(limit), Reading());
      var rows := ListReminders(pid, first, limit, now);
      assert rows[0..] == rows;
      for i := 0 to |rows|
        invariant Valid() && NoneBegun(first, moves, pid)
        invariant At(cfg, moves, pid, Continue(Finished, Reminding(now, rows[i..])))
      {
        assert rows[i..][1..] == rows[i + 1..];
        ContinueReminds(now, rows[i..]);
        SendReminder(pid, first, rows[i], now, Reminding(now, rows[i + 1..]));
      }
      assert rows[|rows|..] == [];
      ContinueEnds(now);
    }

    method ListReminders(ghost pid: nat, ghost first: seq<Move>, limit: int, now: Time) returns (rows: seq<Request>)
      requires Valid() && At(cfg, moves, pid, RemindList(limit, now)) && NoneBegun(first, moves, pid)
      modifies this`moves, this`clock, store
      ensures Valid() && At(cfg, moves, pid, Continue(Finished, Reminding(now, rows))) && NoneBegun(first, moves, pid)
    {
      hide Act, Run, At, NoneBegun, Monotone, PicksReminders, Continue;
      Pause(pid, first, RemindList(limit, now));
      rows := store.ListRequestsNeedingReminder(now - cfg.reminderAfter, limit);
      ListingStages(cfg, limit, now, store.Model(), Input(clock, rows, None));
      Took(pid, first, RemindList(limit, now), Input(clock, rows, None));
    }

    method ListExecutions(ghost pid: nat, ghost first: seq<Move>, limit: int, now: Time) returns (rows: seq<Request>)
      requires Valid() && At(cfg, moves, pid, ExecuteList(limit, now)) && NoneBegun(first, moves, pid)
      modifies this`moves, this`clock, store
      ensures Valid() && At(cfg, moves, pid, Continue(Finished, Executing(now, rows))) && NoneBegun(first, moves, pid)
    {
      hide Act, Run, At, NoneBegun, Monotone, PicksExecutions, Continue;
      Pause(pid, first, ExecuteList(limit, now));
      rows := store.ListRequestsReadyForExecution(now, limit);
      ListingStages(cfg, limit, now, store.Model(), Input(clock, rows, None));
      Took(pid, first, ExecuteList(limit, now), Input(clock, rows, None));
    }

    method SendReminder(ghost pid: nat, ghost first: seq<Move>, row: Request, now: Time, ghost rest: Rest)
      requires Valid() && At(cfg, moves, pid, Swapping(SYSTEM, row, Remind, Some(now), rest))
      requires NoneBegun(first, moves, pid)
      requires rest.Reminding?
      modifies this`moves, this`clock, store
      ensures Valid() && At(cfg, moves, pid, Continue(Finished, rest)) && NoneBegun(first, moves, pid)
    {
      hide Act, Run, At, NoneBegun, Continue;
      var expected := row.version;
      var next := row.(version := row.version + 1, reminders := row.reminders + 1, updatedAt := now,
                       remindedAt := Some(now));
      var error := WriteRow(pid, first, Swapping(SYSTEM, row, Remind, Some(now), rest), next, expected);
      ContinueAnyReply(Returned(row), Finished, rest);
      ContinueAnyReply(Returned(next), Finished, rest);
      if error.Some? {
        return;
      }
      ghost var owed := Owes(SYSTEM, Remind, next, now, rest);
      assert owed[1..][1..] == [];
      AppendAudit(pid, first, next, owed, rest, next.id, SYSTEM, ReminderSent, "review reminder generated");
      AppendJobRun(pid, first, next, owed[1..], rest,
                   JobRun(next.id, ReminderJob, true, next.reminders, "reminder recorded", now));
    }

    method ProcessDueExecutions(ghost pid: nat, limit: int)
      requires Valid() && Free(cfg, moves, pid)
      modifies this`moves, this`clock, store
      ensures Valid() && Ran(old(moves), moves, pid, ExecuteStart(limit)) && At(cfg, moves, pid, Done(Finished))
    {
      hide Act, Run, At, NoneBegun, Monotone, PicksExecutions, Continue;
      ghost var first := Start(pid, ExecuteStart(limit));
      var now := Now(pid, first, ExecuteStart(limit));
      ListingStages(cfg, limit, now, store.Model(), Reading());
      Took(pid, first, ExecuteStart(limit), Reading());
      var rows := ListExecutions(pid, first, limit, now);
      assert rows[0..] == rows;
      for i := 0 to |rows|
        invariant Valid() && NoneBegun(first, moves, pid)
        invariant At(cfg, moves, pid, Continue(Finished, Executing(now, rows[i..])))
      {
        assert rows[i..][1..] == rows[i + 1..];
        ContinueInvokes(now, rows[i..]);
        ExecuteRow(pid, first, rows[i], now, rows[i..]);
      }
      assert rows[|rows|..] == [];
      ContinueEnds(now);
    }

    method ExecuteRow(ghost pid: nat, ghost first: seq<Move>, row: Request, now: Time, ghost batch: seq<Request>)
      requires batch != [] && batch[0] == row
      requires Valid() && At(cfg, moves, pid, Invoking(now, batch)) && NoneBegun(first, moves, pid)
      modifies this`moves, this`clock, store
      ensures Valid() && At(cfg, moves, pid, Continue(Finished, Executing(now, batch[1..])))
      ensures NoneBegun(first, moves, pid)
    {
      hide Act, Run, At, NoneBegun, Continue, Simulate;
      ghost var rest := Executing(now, batch[1..]);
      Pause(pid, first, Invoking(now, batch));
      var failure := RunExecutor(row);
      InvokingStage(cfg, now, batch, store.Model(), Input(clock, [], failure));
      Took(pid, first, Invoking(now, batch), Input(clock, [], failure));
      var run := JobRun(row.id, ExecutionJob, true, row.attempts + 1, "", now);
      var result: Fallible<Request>;
      if failure.Some? {
        run := run.(succeeded := false, message := failure.value);
        result := ApplyExecutionResult(pid, first, row, SYSTEM, false, failure.value, rest);
      } else {
        run := run.(message := "execution completed");
        result := ApplyExecutionResult(pid, first, row, SYSTEM, true, "", rest);
      }
      ghost var logged := if result.Ok? then result.value else row;
      ghost var owed := [OweRun(run)];
      ContinueAnyReply(Returned(logged), Finished, rest);
      assert owed[1..] == [];
      AppendJobRun(pid, first, logged, owed, rest, run);
    }
  }
}
