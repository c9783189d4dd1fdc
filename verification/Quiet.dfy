/** Calls that nothing interrupts: they are runs of the machine, and they succeed. */
module Quiet {
  import opened Domain
  import opened Workflow
  import opened Database
  import opened Calls
  import opened Machine
  import opened Schedules
  import opened Stages

  /** All threads but one are where they were. */
  ghost predicate OthersStill(before: seq<Call>, after: seq<Call>, pid: nat) {
    |before| == |after| && forall p :: 0 <= p < |before| && p != pid ==> after[p] == before[p]
  }

  /** One stage of thread `pid` at a given clock reading. */
  ghost function Taken(cfg: Config, moves: seq<Move>, pid: nat, input: Input): seq<Move> {
    moves + [Tick(input.now - Run(cfg, moves).clock)] + [Stage(pid, input.pick, input.outcome)]
  }

  lemma TakenRuns(cfg: Config, moves: seq<Move>, pid: nat, call: Call, input: Input)
    requires At(cfg, moves, pid, call)
    ensures var (c, d) := Act(cfg, call, Run(cfg, moves).db, input);
            At(cfg, Taken(cfg, moves, pid, input), pid, c) && Run(cfg, Taken(cfg, moves, pid, input)).db == d
  {
    hide Act, Run;
    var tick := Tick(input.now - Run(cfg, moves).clock);
    TickRuns(cfg, moves, pid, call, tick.delta);
    StageRuns(cfg, moves + [tick], pid, call, Stage(pid, input.pick, input.outcome));
  }

  /** `later` extends `earlier` by stages of thread `pid` and ticks only. */
  ghost predicate Solo(earlier: seq<Move>, later: seq<Move>, pid: nat) {
    && |earlier| <= |later| && later[..|earlier|] == earlier
    && forall i :: |earlier| <= i < |later| ==> later[i].Tick? || (later[i].Stage? && later[i].pid == pid)
  }

  lemma SoloTaken(cfg: Config, earlier: seq<Move>, later: seq<Move>, pid: nat, input: Input)
    requires Solo(earlier, later, pid)
    ensures Solo(earlier, Taken(cfg, later, pid, input), pid)
  {
    hide Run;
    assert Taken(cfg, later, pid, input)[..|earlier|] == later[..|earlier|];
  }

  /** A call left alone is a run in which only its thread moves. */
  lemma {:induction false} AloneIsRun(cfg: Config, moves: seq<Move>, pid: nat, call: Call, inputs: seq<Input>)
    returns (later: seq<Move>)
    requires At(cfg, moves, pid, call)
    ensures var (c, d) := After(cfg, call, Run(cfg, moves).db, inputs);
            && At(cfg, later, pid, c) && Run(cfg, later).db == d
            && OthersStill(Run(cfg, moves).calls, Run(cfg, later).calls, pid)
    ensures Solo(moves, later, pid)
  {
    later := moves;
    if inputs != [] {
      hide Act, Step;
      var last := |inputs| - 1;
      later := AloneIsRun(cfg, moves, pid, call, inputs[..last]);
      var (c, d) := After(cfg, call, Run(cfg, moves).db, inputs[..last]);
      TakenRuns(cfg, later, pid, c, inputs[last]);
      TakenAlone(cfg, later, pid, inputs[last]);
      SoloTaken(cfg, moves, later, pid, inputs[last]);
      later := Taken(cfg, later, pid, inputs[last]);
    }
  }

  /** A thread that is free begins a call and is left alone with it. */
  lemma CallAlone(cfg: Config, moves: seq<Move>, pid: nat, call: Call, inputs: seq<Input>) returns (later: seq<Move>)
    requires Free(cfg, moves, pid) && Initial(call)
    ensures var (c, d) := After(cfg, call, Run(cfg, moves).db, inputs);
            var before, after := Run(cfg, moves).calls, Run(cfg, later).calls;
            && At(cfg, later, pid, c) && Run(cfg, later).db == d
            && |after| == (if pid < |before| then |before| else pid + 1)
            && forall p :: 0 <= p < |before| && p != pid ==> after[p] == before[p]
    ensures Ran(moves, later, pid, call)
    ensures forall other: nat :: other != pid ==> OthersRan(moves, later, other)
  {
    hide Act, After;
    BeginRuns(cfg, moves, pid, call);
    RunOne(cfg, moves, Begin(pid, call));
    var begun := moves + [Begin(pid, call)];
    later := AloneIsRun(cfg, begun, pid, call, inputs);
    hide Run;
    assert later[..|moves|] == begun[..|moves|] == moves;
    assert later[|moves|] == begun[|moves|];
  }

  lemma TakenAlone(cfg: Config, moves: seq<Move>, pid: nat, input: Input)
    requires pid < |Run(cfg, moves).calls|
    ensures OthersStill(Run(cfg, moves).calls, Run(cfg, Taken(cfg, moves, pid, input)).calls, pid)
  {
    hide Act;
    var tick := Tick(input.now - Run(cfg, moves).clock);
    RunOne(cfg, moves, tick);
    RunOne(cfg, moves + [tick], Stage(pid, input.pick, input.outcome));
  }

  lemma {:induction false} AfterAppend(cfg: Config, call: Call, db: Db, first: seq<Input>, then_: seq<Input>)
    ensures var (c, d) := After(cfg, call, db, first); After(cfg, call, db, first + then_) == After(cfg, c, d, then_)
  {
    hide Act;
    if then_ == [] {
      assert first + then_ == first;
    } else {
      AfterAppend(cfg, call, db, first, then_[..|then_| - 1]);
      assert (first + then_)[..|first + then_| - 1] == first + then_[..|then_| - 1];
    }
  }

  lemma AfterOne(cfg: Config, call: Call, db: Db, input: Input)
    ensures After(cfg, call, db, [input]) == Act(cfg, call, db, input)
  {
    hide Act;
    assert [input][..0] == [];
    assert After(cfg, call, db, [input][..0]) == (call, db);
  }

  /** The first of several stages. */
  lemma FirstStage(cfg: Config, call: Call, db: Db, inputs: seq<Input>)
    requires inputs != []
    ensures var (c, d) := Act(cfg, call, db, inputs[0]);
            After(cfg, call, db, inputs) == After(cfg, c, d, inputs[1..])
  {
    hide Act, After;
    AfterOne(cfg, call, db, inputs[0]);
    AfterAppend(cfg, call, db, [inputs[0]], inputs[1..]);
    assert inputs == [inputs[0]] + inputs[1..];
  }

  lemma NoStage(cfg: Config, call: Call, db: Db)
    ensures After(cfg, call, db, []) == (call, db)
  {
  }

  /** Appending what is owed, undisturbed, touches neither rows nor keys. */
  lemma {:induction false} LogsAlone(cfg: Config, row: Request, owed: seq<Owed>, rest: Rest, db: Db, inputs: seq<Input>)
    requires |inputs| == |owed|
    ensures var (c, d) := After(cfg, Log(row, owed, rest), db, inputs);
            c == Continue(Returned(row), rest) && d.requests == db.requests && d.idempotency == db.idempotency
    decreases |owed|
  {
    if owed == [] {
      NoStage(cfg, Log(row, owed, rest), db);
    } else {
      hide Act, After, Log, Append, Continue;
      LogOne(row, owed, rest);
      FirstStage(cfg, Logging(row, owed, rest), db, inputs);
      LoggingStage(cfg, row, owed, rest, db, inputs[0]);
      AppendKeepsKeys(db, owed[0], inputs[0].now);
      LogsAlone(cfg, row, owed[1..], rest, Append(db, owed[0], inputs[0].now), inputs[1..]);
    }
  }

  lemma AppendKeepsKeys(db: Db, owed: Owed, now: Time)
    ensures Append(db, owed, now).requests == db.requests && Append(db, owed, now).idempotency == db.idempotency
  {
  }

  lemma SwapStored(cfg: Config, call: Call, db: Db)
    requires call.Swapping? && call.at.Some? && call.snap.id in db.requests && db.requests[call.snap.id] == call.snap
    ensures var next := Apply(cfg, call.snap, call.change, call.at.value);
            Swap(cfg, call, db) == (Log(next, Owes(call.actor, call.change, next, call.at.value, call.then_),
                                        call.then_),
                                    db.(requests := db.requests[call.snap.id := next]))
  {
    hide Apply, Owes, Log;
    ApplyKeepsId(cfg, call.snap, call.change, call.at.value);
  }

  /** The log rows owed for a swap made at `at`. */
  function OwedFor(cfg: Config, actor: Actor, row: Request, change: Change, at: Time, rest: Rest): seq<Owed> {
    Owes(actor, change, Apply(cfg, row, change, at), at, rest)
  }

  /** A swap of the stored row, undisturbed, from its write on: the row is written and all its log rows follow. */
  lemma WritesAlone(cfg: Config, call: Call, db: Db, inputs: seq<Input>)
    requires call.Swapping? && call.at.Some? && call.snap.id in db.requests && db.requests[call.snap.id] == call.snap
    requires |inputs| == 1 + |OwedFor(cfg, call.actor, call.snap, call.change, call.at.value, call.then_)|
    ensures var next := Apply(cfg, call.snap, call.change, call.at.value);
            var (c, d) := After(cfg, call, db, inputs);
            && c == Continue(Returned(next), call.then_)
            && d.requests == db.requests[call.snap.id := next] && d.idempotency == db.idempotency
  {
    hide Act, After, Apply, Owes, Log, Swap, Continue;
    var next := Apply(cfg, call.snap, call.change, call.at.value);
    var owed := Owes(call.actor, call.change, next, call.at.value, call.then_);
    SwapStored(cfg, call, db);
    FirstStage(cfg, call, db, inputs);
    SwappingStage(cfg, call, db, inputs[0]);
    LogsAlone(cfg, next, owed, call.then_, db.(requests := db.requests[call.snap.id := next]), inputs[1..]);
  }

  /** And from its clock reading on. */
  lemma SwapsAlone(cfg: Config, actor: Actor, row: Request, change: Change, rest: Rest, db: Db, inputs: seq<Input>)
    requires row.id in db.requests && db.requests[row.id] == row && inputs != []
    requires |inputs| == 2 + |OwedFor(cfg, actor, row, change, inputs[0].now, rest)|
    ensures var next := Apply(cfg, row, change, inputs[0].now);
            var (c, d) := After(cfg, Swapping(actor, row, change, None, rest), db, inputs);
            && c == Continue(Returned(next), rest)
            && d.requests == db.requests[row.id := next] && d.idempotency == db.idempotency
  {
    hide Act, After, Apply, OwedFor, Continue;
    var call := Swapping(actor, row, change, None, rest);
    FirstStage(cfg, call, db, inputs);
    SwappingStage(cfg, call, db, inputs[0]);
    WritesAlone(cfg, call.(at := Some(inputs[0].now)), db, inputs[1..]);
  }

  /** An undisturbed submission of a draft by its owner or an admin, with a key not seen before, succeeds. Its fourth
      stage reads the clock. */
  lemma SubmitSucceeds(cfg: Config, db: Db, actor: Actor, id: string, key: string, inputs: seq<Input>)
    requires id in db.requests && db.requests[id].id == id && db.requests[id].status == Draft
    requires MaySubmit(actor, db.requests[id]) && !Blank(key) && Compound(SubmitScope(id), key) !in db.idempotency
    requires |inputs| == 7
    ensures var next := Apply(cfg, db.requests[id], Submit(key), inputs[3].now);
            var (c, d) := After(cfg, SubmitRead(actor, id, key), db, inputs);
            && c == Done(Returned(next)) && d.requests == db.requests[id := next]
            && d.idempotency.Keys == db.idempotency.Keys + {Compound(SubmitScope(id), key)}
  {
    hide Act, After, Apply, Blank, SubmitScope, Compound, MaySubmit;
    var row := db.requests[id];
    var find := SubmitFind(actor, row, key);
    FirstStage(cfg, SubmitRead(actor, id, key), db, inputs);
    SubmitReadStage(cfg, actor, id, key, db, inputs[0]);
    FirstStage(cfg, find, db, inputs[1..]);
    FindStage(cfg, find, db, inputs[1]);
    assert inputs[1..][1..] == inputs[2..] && inputs[2..][1..] == inputs[3..];
    FirstStage(cfg, Claiming(find), db, inputs[2..]);
    ClaimStage(cfg, find, db, inputs[2]);
    var claimed := Claim(db, SubmitScope(id), key, actor.id, id, inputs[2].now).0;
    SwapsAlone(cfg, actor, row, Submit(key), Answer, claimed, inputs[3..]);
  }

  /** An undisturbed decision on a pending request by an independent reviewer, with a new key, succeeds. */
  lemma ReviewSucceeds(cfg: Config, db: Db, actor: Actor, id: string, key: string, d: Decision, comment: string,
                       inputs: seq<Input>)
    requires id in db.requests && db.requests[id].id == id && db.requests[id].status == PendingReview
    requires CanReview(actor, db.requests[id]) && actor.id != db.requests[id].requester
    requires !Blank(key) && Compound(ReviewScope(d, id), key) !in db.idempotency
    requires |inputs| == 7
    ensures var next := Apply(cfg, db.requests[id], Decide(d, comment, key), inputs[3].now);
            var (c, after) := After(cfg, ReviewRead(actor, id, key, d, comment), db, inputs);
            && c == Done(Returned(next)) && after.requests == db.requests[id := next]
            && after.idempotency.Keys == db.idempotency.Keys + {Compound(ReviewScope(d, id), key)}
  {
    hide Act, After, Apply, Blank, ReviewScope, Compound, Fingerprint, CanReview;
    ReviewClaims(cfg, db, actor, id, key, d, comment, inputs);
    var claimed := Claim(db, ReviewScope(d, id), key, Fingerprint(cfg, d, comment), id, inputs[2].now).0;
    SwapsAlone(cfg, actor, db.requests[id], Decide(d, comment, key), Answer, claimed, inputs[3..]);
  }

  /** Its first three stages store the key and leave the swap pending. */
  lemma ReviewClaims(cfg: Config, db: Db, actor: Actor, id: string, key: string, d: Decision, comment: string,
                     inputs: seq<Input>)
    requires |inputs| >= 3 && id in db.requests && db.requests[id].id == id && db.requests[id].status == PendingReview
    requires CanReview(actor, db.requests[id]) && actor.id != db.requests[id].requester
    requires !Blank(key) && Compound(ReviewScope(d, id), key) !in db.idempotency
    ensures var claimed := Claim(db, ReviewScope(d, id), key, Fingerprint(cfg, d, comment), id, inputs[2].now).0;
            After(cfg, ReviewRead(actor, id, key, d, comment), db, inputs)
            == After(cfg, Swapping(actor, db.requests[id], Decide(d, comment, key), None, Answer), claimed, inputs[3..])
  {
    hide Act, After, Blank, ReviewScope, Compound, Fingerprint, CanReview;
    var row := db.requests[id];
    var find := ReviewFind(actor, row, key, d, comment);
    FirstStage(cfg, ReviewRead(actor, id, key, d, comment), db, inputs);
    ReviewReadStage(cfg, actor, id, key, d, comment, db, inputs[0]);
    FirstStage(cfg, find, db, inputs[1..]);
    FindStage(cfg, find, db, inputs[1]);
    assert inputs[1..][1..] == inputs[2..] && inputs[2..][1..] == inputs[3..];
    FirstStage(cfg, Claiming(find), db, inputs[2..]);
    ClaimStage(cfg, find, db, inputs[2]);
  }

  /** An undisturbed report on a request that awaits execution always succeeds: due or not, budget or none. So it keeps
      the attempts within the budget exactly when the budget was not spent. */
  lemma ReportIgnoresBudget(cfg: Config, db: Db, actor: Actor, id: string, success: bool, message: string,
                            inputs: seq<Input>)
    requires id in db.requests && db.requests[id].id == id && AwaitsExecution(db.requests[id]) && MayRecord(actor)
    requires |inputs| == 4
    ensures var next := Apply(cfg, db.requests[id], Execute(success, message), inputs[1].now);
            var (c, d) := After(cfg, ResultRead(actor, id, success, message), db, inputs);
            && c == Done(Returned(next)) && d.requests == db.requests[id := next]
            && (next.attempts <= cfg.maxAttempts <==> db.requests[id].attempts < cfg.maxAttempts)
  {
    hide Act, After;
    FirstStage(cfg, ResultRead(actor, id, success, message), db, inputs);
    ResultReadStage(cfg, actor, id, success, message, db, inputs[0]);
    SwapsAlone(cfg, actor, db.requests[id], Execute(success, message), Answer, db, inputs[1..]);
  }

  /** An undisturbed draft with nothing blank is stored under its fresh id. */
  lemma DraftSucceeds(cfg: Config, db: Db, actor: Actor, draft: DraftInput, id: string, inputs: seq<Input>)
    requires FreshId(db, id) && ValidActor(actor)
    requires !Blank(draft.kind) && !Blank(draft.target) && !Blank(draft.justification)
    requires |inputs| == 3
    ensures var row := NewDraft(id, actor, draft, inputs[0].now);
            var (c, d) := After(cfg, Drafting(actor, draft, id), db, inputs);
            c == Done(Returned(row)) && d.requests == db.requests[id := row] && d.idempotency == db.idempotency
  {
    hide Act, After, Blank, ValidActor, NewDraft;
    var row := NewDraft(id, actor, draft, inputs[0].now);
    assert row.id == id by { DraftId(id, actor, draft, inputs[0].now); }
    var owed := [OweAudit(id, actor, DraftCreated, "draft request created")];
    FirstStage(cfg, Drafting(actor, draft, id), db, inputs);
    DraftingStage(cfg, actor, draft, id, db, inputs[0]);
    FirstStage(cfg, Creating(actor, row), db, inputs[1..]);
    CreatingStage(cfg, actor, row, db, inputs[1]);
    LogsAlone(cfg, row, owed, Answer, PutRequest(db, row), inputs[1..][1..]);
  }

  lemma DraftId(id: string, actor: Actor, draft: DraftInput, now: Time)
    ensures NewDraft(id, actor, draft, now).id == id
  {
  }
}
