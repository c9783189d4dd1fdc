/** Any number of calls over one store, interleaved stage by stage. A run is a schedule: a sequence of moves. */
module Machine {
  import opened Domain
  import opened Workflow
  import opened Database
  import opened Calls

  /** An executor call that thread `pid` made for attempt number `attempt` of a request. */
  datatype Execution = Execution(pid: nat, id: string, attempt: int)

  datatype System = System(db: Db, clock: Time, calls: seq<Call>, history: seq<Execution>)

  datatype Move =
    | Begin(pid: nat, call: Call)
    | Stage(pid: nat, pick: seq<Request>, outcome: Option<string>)
    | Tick(delta: int)

  const INIT := System(EMPTY, 0, [], [])

  function Invocations(pid: nat, call: Call): seq<Execution> {
    if call.Invoking? && call.batch != [] then [Execution(pid, call.batch[0].id, call.batch[0].attempts + 1)] else []
  }

  ghost function StageOf(cfg: Config, s: System, move: Move): (Call, Db)
    requires move.Stage? && move.pid < |s.calls|
  {
    Act(cfg, s.calls[move.pid], s.db, Input(s.clock, move.pick, move.outcome))
  }

  /** One move. A thread begins a call when it is new or has finished its previous one. */
  ghost function Step(cfg: Config, s: System, move: Move): System {
    match move
    case Tick(delta) => s.(clock := s.clock + delta)
    case Begin(pid, call) =>
      if !Initial(call) then s
      else if pid == |s.calls| then s.(calls := s.calls + [call])
      else if pid < |s.calls| && s.calls[pid].Done? then s.(calls := s.calls[pid := call])
      else s
    case Stage(pid, _, _) =>
      if pid >= |s.calls| then s
      else
        var (call, db) := StageOf(cfg, s, move);
        System(db, s.clock, s.calls[pid := call], s.history + Invocations(pid, s.calls[pid]))
  }

  ghost function Run(cfg: Config, moves: seq<Move>): System {
    if moves == [] then INIT else Step(cfg, Run(cfg, moves[..|moves| - 1]), moves[|moves| - 1])
  }

  // ---------- The core invariant

  ghost predicate Anchored(cfg: Config, snap: Request, rows: Rows) {
    Shape(cfg, snap) && snap.id in rows && Descends(snap, rows[snap.id])
  }

  ghost predicate BatchOk(cfg: Config, batch: seq<Request>, rows: Rows) {
    && (forall q <- batch :: Anchored(cfg, q, rows))
    && (forall i, j :: 0 <= i < j < |batch| ==> batch[i].id != batch[j].id)
  }

  ghost predicate RestOk(cfg: Config, rest: Rest, rows: Rows) {
    match rest
    case Answer => true
    case Reminding(now, batch) =>
      BatchOk(cfg, batch, rows) && forall q <- batch :: DueForReminder(q, now - cfg.reminderAfter, false)
    case Executing(now, batch) =>
      BatchOk(cfg, batch, rows) && forall q <- batch :: DueForExecution(q, now)
  }

  function DueOf(rest: Rest): Option<Time> {
    match rest
    case Answer => None
    case Reminding(now, _) => Some(now)
    case Executing(now, _) => Some(now)
  }

  /** The guard of a pending swap, made good on the snapshot. */
  ghost predicate SwapOk(cfg: Config, call: Call)
    requires call.Swapping?
  {
    && (call.change.Remind? == call.then_.Reminding?)
    && (call.then_.Executing? ==> call.change.Execute? && call.actor == SYSTEM)
    && (call.change.Remind? ==> call.at == Some(call.then_.now))
    && Permitted(cfg, call.snap, call.actor, call.change, if call.at.Some? then call.at.value else 0, DueOf(call.then_))
    && (call.then_.Executing? ==> forall q <- call.then_.batch :: q.id != call.snap.id)
  }

  /** What a call in flight may rely on, whatever the other calls have done since it read. */
  ghost predicate CallOk(cfg: Config, call: Call, rows: Rows) {
    match call
    case Creating(actor, row) => ('|' !in row.id ==> IsNewDraft(row)) && row.requester == actor.id
    case SubmitFind(actor, snap, _) => Anchored(cfg, snap, rows) && MaySubmit(actor, snap)
    case SubmitClaim(actor, snap, _) => Anchored(cfg, snap, rows) && MaySubmit(actor, snap)
    case SubmitRecheck(actor, snap, _) => Anchored(cfg, snap, rows) && MaySubmit(actor, snap)
    case ReviewFind(actor, snap, _, _, _) => Anchored(cfg, snap, rows) && ReviewerOk(actor, snap)
    case ReviewClaim(actor, snap, _, _, _) => Anchored(cfg, snap, rows) && ReviewerOk(actor, snap)
    case Invoking(now, batch) => RestOk(cfg, Executing(now, batch), rows)
    case Swapping(_, snap, _, _, then_) => Anchored(cfg, snap, rows) && SwapOk(cfg, call) && RestOk(cfg, then_, rows)
    case Logging(_, _, then_) => RestOk(cfg, then_, rows)
    case _ => true
  }

  predicate ReviewerOk(actor: Actor, snap: Request) {
    && snap.status != Draft
    && (snap.status == PendingReview ==> CanReview(actor, snap) && actor.id != snap.requester)
  }

  ghost predicate Core(cfg: Config, s: System) {
    RowsOk(cfg, s.db.requests) && forall call <- s.calls :: CallOk(cfg, call, s.db.requests)
  }

  // ---------- Linearisation: every stage is one permitted atomic transition of the stored row, or none

  /** The atomic transition a move performs, if it is a create or a swap that wins. */
  function EventOf(s: System, move: Move): seq<Event> {
    if move.Stage? && move.pid < |s.calls| then StageEvent(s.calls[move.pid], s.db) else []
  }

  function StageEvent(call: Call, db: Db): seq<Event> {
    match call
    case Creating(_, row) => if FreshId(db, row.id) then [Created(row)] else []
    case Swapping(actor, snap, change, Some(at), then_) =>
      if snap.id in db.requests && db.requests[snap.id].version == snap.version
      then [Changed(snap.id, actor, change, at, DueOf(then_))] else []
    case _ => []
  }

  ghost predicate Atomic(cfg: Config, before: Rows, events: seq<Event>, after: Rows) {
    if events == [] then after == before
    else |events| == 1 && Perform(cfg, before, events[0]) == Some(after)
  }

  lemma AnchoredGrows(cfg: Config, snap: Request, before: Rows, after: Rows)
    requires Anchored(cfg, snap, before) && Grows(before, after)
    ensures Anchored(cfg, snap, after)
  {
    DescendsTransitive(snap, before[snap.id], after[snap.id]);
  }

  lemma RestGrows(cfg: Config, rest: Rest, before: Rows, after: Rows)
    requires RestOk(cfg, rest, before) && Grows(before, after)
    ensures RestOk(cfg, rest, after)
  {
    hide Shape, Descends, DueForReminder, DueForExecution;
    var batch := if rest == Answer then [] else rest.batch;
    forall q <- batch ensures Anchored(cfg, q, after) {
      AnchoredGrows(cfg, q, before, after);
    }
  }

  /** A call keeps what it relies on while others write. */
  lemma CallGrows(cfg: Config, call: Call, before: Rows, after: Rows)
    requires CallOk(cfg, call, before) && Grows(before, after)
    ensures CallOk(cfg, call, after)
  {
    hide Shape, Descends, Grows, SwapOk, BatchOk, Anchored;
    match call
    case SubmitFind(_, snap, _) => AnchoredGrows(cfg, snap, before, after);
    case SubmitClaim(_, snap, _) => AnchoredGrows(cfg, snap, before, after);
    case SubmitRecheck(_, snap, _) => AnchoredGrows(cfg, snap, before, after);
    case ReviewFind(_, snap, _, _, _) => AnchoredGrows(cfg, snap, before, after);
    case ReviewClaim(_, snap, _, _, _) => AnchoredGrows(cfg, snap, before, after);
    case Invoking(now, batch) => RestGrows(cfg, Executing(now, batch), before, after);
    case Swapping(_, snap, _, _, then_) =>
      AnchoredGrows(cfg, snap, before, after);
      RestGrows(cfg, then_, before, after);
    case Logging(_, _, then_) => RestGrows(cfg, then_, before, after);
    case _ =>
  }

  lemma GrowsReflexive(rows: Rows)
    ensures Grows(rows, rows)
  {
  }

  lemma TailOk(cfg: Config, batch: seq<Request>, rows: Rows)
    requires batch != [] && BatchOk(cfg, batch, rows)
    ensures BatchOk(cfg, batch[1..], rows) && Anchored(cfg, batch[0], rows)
    ensures forall q <- batch[1..] :: q in batch && q.id != batch[0].id
  {
    hide Anchored;
    assert batch[0] in batch;
    assert forall q <- batch[1..] :: q in batch;
  }

  lemma ContinueOk(cfg: Config, reply: Reply, rest: Rest, rows: Rows)
    requires RestOk(cfg, rest, rows)
    ensures CallOk(cfg, Continue(reply, rest), rows)
  {
    hide Anchored, BatchOk, DueForReminder;
    if rest.Reminding? && rest.batch != [] {
      TailOk(cfg, rest.batch, rows);
      assert rest.batch[0] in rest.batch;
    }
  }

  lemma LogOk(cfg: Config, row: Request, owed: seq<Owed>, rest: Rest, rows: Rows)
    requires RestOk(cfg, rest, rows)
    ensures CallOk(cfg, Log(row, owed, rest), rows)
  {
    hide RestOk;
    ContinueOk(cfg, Returned(row), rest, rows);
  }

  /** A batch is anchored when it is listed. */
  lemma PickOk(cfg: Config, rows: Rows, pick: seq<Request>)
    requires RowsOk(cfg, rows)
    requires forall i :: 0 <= i < |pick| ==> pick[i].id in rows && rows[pick[i].id] == pick[i]
    requires forall i, j :: 0 <= i < j < |pick| ==> pick[i].id != pick[j].id
    ensures BatchOk(cfg, pick, rows)
  {
    hide Shape;
  }

  /** A winning swap found the very row it had read, so it is the atomic transition its guard was checked for. */
  lemma SwapWins(cfg: Config, call: Call, db: Db)
    requires cfg.maxAttempts >= 1
    requires call.Swapping? && call.at.Some? && StageEvent(call, db) != []
    requires RowsOk(cfg, db.requests) && Anchored(cfg, call.snap, db.requests) && SwapOk(cfg, call)
    ensures db.requests[call.snap.id] == call.snap
    ensures var rows := db.requests[call.snap.id := Apply(cfg, call.snap, call.change, call.at.value)];
            && Perform(cfg, db.requests, StageEvent(call, db)[0]) == Some(rows)
            && RowsOk(cfg, rows) && Grows(db.requests, rows)
  {
    assert db.requests[call.snap.id] == call.snap by { hide Shape, SwapOk, StageEvent; }
    hide Shape, Descends, Apply, RowsOk, Grows;
    PerformKeepsRows(cfg, db.requests, StageEvent(call, db)[0]);
  }

  lemma ApplyKeepsId(cfg: Config, row: Request, change: Change, now: Time)
    ensures Apply(cfg, row, change, now).id == row.id
  {
  }

  /** A swap either wins, on the very row its call had read, or finds another version and writes nothing. */
  lemma SwapEither(cfg: Config, call: Call, db: Db)
    requires cfg.maxAttempts >= 1 && call.Swapping? && call.at.Some?
    requires RowsOk(cfg, db.requests) && CallOk(cfg, call, db.requests)
    ensures var (id, rows, after) := (call.snap.id, db.requests, Swap(cfg, call, db).1.requests);
            && id in rows && Shape(cfg, call.snap) && Shape(cfg, rows[id]) && Descends(call.snap, rows[id])
            && if StageEvent(call, db) != []
               then rows[id] == call.snap && after == rows[id := Apply(cfg, call.snap, call.change, call.at.value)]
               else rows[id].version != call.snap.version && after == rows
  {
    hide Apply, Owes, OwedRun, RestOk, Log, Shape, SwapOk, Grows;
    ApplyKeepsId(cfg, call.snap, call.change, call.at.value);
    if StageEvent(call, db) != [] { SwapWins(cfg, call, db); }
  }

  lemma SwapCore(cfg: Config, call: Call, db: Db)
    requires cfg.maxAttempts >= 1
    requires call.Swapping? && call.at.Some?
    requires RowsOk(cfg, db.requests) && CallOk(cfg, call, db.requests)
    ensures var (c, d) := Swap(cfg, call, db);
            && Atomic(cfg, db.requests, StageEvent(call, db), d.requests)
            && RowsOk(cfg, d.requests) && Grows(db.requests, d.requests)
            && CallOk(cfg, c, d.requests)
  {
    hide Apply, Owes, OwedRun, RowsOk, Grows, Anchored, SwapOk, RestOk, Perform, Log;
    var (c, d) := Swap(cfg, call, db);
    ApplyKeepsId(cfg, call.snap, call.change, call.at.value);
    if StageEvent(call, db) != [] {
      SwapWins(cfg, call, db);
    } else {
      GrowsReflexive(db.requests);
    }
    RestGrows(cfg, call.then_, db.requests, d.requests);
    var next := Apply(cfg, call.snap, call.change, call.at.value);
    LogOk(cfg, next, Owes(call.actor, call.change, next, call.at.value, call.then_), call.then_, d.requests);
    LogOk(cfg, call.snap, OwedRun(call.snap.id, call.snap.attempts + 1, call.change, call.then_), call.then_,
          d.requests);
  }

  predicate Reviewing(call: Call) {
    call.ReviewRead? || call.ReviewFind? || call.ReviewClaim?
  }

  lemma ReviewCore(cfg: Config, call: Call, db: Db, input: Input)
    requires RowsOk(cfg, db.requests) && CallOk(cfg, call, db.requests) && Reviewing(call)
    ensures var (c, d) := Act(cfg, call, db, input);
            d.requests == db.requests && CallOk(cfg, c, db.requests)
  {
    hide Shape, Fingerprint, ReviewScope, Compound, Blank, CanReview;
  }

  lemma SubmitCore(cfg: Config, call: Call, db: Db, input: Input)
    requires RowsOk(cfg, db.requests) && CallOk(cfg, call, db.requests) && !Reviewing(call)
    requires !call.Creating? && !call.RemindList? && !call.ExecuteList? && !call.Invoking? && !call.Logging?
    requires !call.Swapping?
    ensures var (c, d) := Act(cfg, call, db, input);
            d.requests == db.requests && CallOk(cfg, c, db.requests)
  {
    hide Shape, DueForReminder, DueForExecution, SubmitScope, Compound, Blank, TrimSpace, StartReview, MaySubmit;
  }

  /** The stages of an API call that do not swap. */
  lemma ReadCore(cfg: Config, call: Call, db: Db, input: Input)
    requires RowsOk(cfg, db.requests) && CallOk(cfg, call, db.requests)
    requires !call.Creating? && !call.RemindList? && !call.ExecuteList? && !call.Invoking? && !call.Logging?
    requires !call.Swapping?
    ensures var (c, d) := Act(cfg, call, db, input);
            d.requests == db.requests && CallOk(cfg, c, db.requests)
  {
    hide Act, CallOk, RowsOk;
    if Reviewing(call) { ReviewCore(cfg, call, db, input); } else { SubmitCore(cfg, call, db, input); }
  }

  lemma ListCore(cfg: Config, call: Call, db: Db, input: Input)
    requires RowsOk(cfg, db.requests) && CallOk(cfg, call, db.requests)
    requires call.RemindList? || call.ExecuteList?
    ensures var (c, d) := Act(cfg, call, db, input);
            d == db && CallOk(cfg, c, db.requests)
  {
    hide Shape, Descends, Continue, DueForReminder, DueForExecution, BatchOk, RowsOk;
    var rows := db.requests;
    if call.RemindList? {
      if PicksReminders(rows, call.now - cfg.reminderAfter, call.limit, input.pick) {
        PickOk(cfg, rows, input.pick);
        ContinueOk(cfg, Finished, Reminding(call.now, input.pick), rows);
      }
    } else if PicksExecutions(rows, call.now, call.limit, input.pick) {
      PickOk(cfg, rows, input.pick);
      ContinueOk(cfg, Finished, Executing(call.now, input.pick), rows);
    }
  }

  lemma InvokeCore(cfg: Config, call: Call, db: Db, input: Input)
    requires CallOk(cfg, call, db.requests) && call.Invoking? && call.batch != []
    ensures CallOk(cfg, Invoke(cfg, call, input), db.requests)
  {
    hide Anchored, BatchOk, Outcome;
    TailOk(cfg, call.batch, db.requests);
    assert call.batch[0] in call.batch;
  }

  lemma FinishedOk(cfg: Config, rows: Rows)
    ensures CallOk(cfg, Done(Finished), rows)
  {
  }

  lemma CreateCore(cfg: Config, row: Request, db: Db)
    requires cfg.maxAttempts >= 1 && RowsOk(cfg, db.requests) && FreshId(db, row.id) && IsNewDraft(row)
    ensures var rows := db.requests[row.id := row];
            Perform(cfg, db.requests, Created(row)) == Some(rows) && RowsOk(cfg, rows) && Grows(db.requests, rows)
  {
    hide Shape, Grows, RowsOk;
    PerformKeepsRows(cfg, db.requests, Created(row));
  }

  lemma AppendKeepsRows(db: Db, owed: Owed, now: Time)
    ensures Append(db, owed, now).requests == db.requests
  {
  }

  lemma LogCore(cfg: Config, call: Call, db: Db, input: Input)
    requires CallOk(cfg, call, db.requests) && call.Logging?
    ensures var (c, d) := Act(cfg, call, db, input);
            d.requests == db.requests && CallOk(cfg, c, db.requests)
  {
    hide RestOk, Append, Log, Continue;
    ContinueOk(cfg, Returned(call.row), call.then_, db.requests);
    if call.owed != [] {
      AppendKeepsRows(db, call.owed[0], input.now);
      LogOk(cfg, call.row, call.owed[1..], call.then_, db.requests);
    }
  }

  /** The stages that neither create nor swap write no row. */
  lemma QuietCore(cfg: Config, call: Call, db: Db, input: Input)
    requires RowsOk(cfg, db.requests) && CallOk(cfg, call, db.requests)
    requires !(call.Creating? && FreshId(db, call.row.id)) && !(call.Swapping? && call.at.Some?)
    ensures var (c, d) := Act(cfg, call, db, input);
            d.requests == db.requests && CallOk(cfg, c, db.requests) && StageEvent(call, db) == []
  {
    hide RowsOk, RestOk, Shape, Descends;
    if call.Creating? || call.Swapping? {
      hide IsNewDraft;
    } else if call.Invoking? {
      hide CallOk, Invoke;
      if call.batch != [] {
        InvokeCore(cfg, call, db, input);
      } else {
        FinishedOk(cfg, db.requests);
      }
    } else {
      hide CallOk, Act;
      if call.Logging? {
        LogCore(cfg, call, db, input);
      } else if call.RemindList? || call.ExecuteList? {
        ListCore(cfg, call, db, input);
      } else {
        ReadCore(cfg, call, db, input);
      }
    }
  }

  /** Every stage keeps the core and is atomic on the rows. */
  lemma ActCore(cfg: Config, call: Call, db: Db, input: Input)
    requires cfg.maxAttempts >= 1
    requires RowsOk(cfg, db.requests) && CallOk(cfg, call, db.requests)
    ensures var (c, d) := Act(cfg, call, db, input);
            && Atomic(cfg, db.requests, StageEvent(call, db), d.requests)
            && RowsOk(cfg, d.requests) && Grows(db.requests, d.requests)
            && CallOk(cfg, c, d.requests)
  {
    hide Grows, RowsOk, Perform, IsNewDraft;
    if call.Creating? && FreshId(db, call.row.id) {
      CreateCore(cfg, call.row, db);
    } else if call.Swapping? && call.at.Some? {
      hide Swap, CallOk, Atomic;
      SwapCore(cfg, call, db);
    } else {
      hide Act, CallOk, StageEvent;
      GrowsReflexive(db.requests);
      QuietCore(cfg, call, db, input);
    }
  }

  lemma InitialOk(cfg: Config, call: Call, rows: Rows)
    requires Initial(call)
    ensures CallOk(cfg, call, rows)
  {
  }

  lemma StepCore(cfg: Config, s: System, move: Move)
    requires cfg.maxAttempts >= 1 && Core(cfg, s)
    ensures Core(cfg, Step(cfg, s, move))
    ensures Atomic(cfg, s.db.requests, EventOf(s, move), Step(cfg, s, move).db.requests)
    ensures Grows(s.db.requests, Step(cfg, s, move).db.requests)
  {
    hide CallOk, RowsOk, Grows, Act;
    var t := Step(cfg, s, move);
    GrowsReflexive(s.db.requests);
    if move.Stage? && move.pid < |s.calls| {
      ActCore(cfg, s.calls[move.pid], s.db, Input(s.clock, move.pick, move.outcome));
      forall call <- t.calls ensures CallOk(cfg, call, t.db.requests) {
        if call in s.calls { CallGrows(cfg, call, s.db.requests, t.db.requests); }
      }
    } else if move.Begin? {
      forall call <- t.calls ensures CallOk(cfg, call, t.db.requests) {
        if call in s.calls {
        } else { InitialOk(cfg, call, s.db.requests); }
      }
    }
  }

  // ---------- Over whole runs

  lemma {:induction false} RunCore(cfg: Config, moves: seq<Move>)
    requires cfg.maxAttempts >= 1
    ensures Core(cfg, Run(cfg, moves))
  {
    if moves != [] {
      RunCore(cfg, moves[..|moves| - 1]);
      StepCore(cfg, Run(cfg, moves[..|moves| - 1]), moves[|moves| - 1]);
    }
  }

  /** The atomic transitions of a run, in the order their swaps won. */
  ghost function Events(cfg: Config, moves: seq<Move>): seq<Event> {
    if moves == [] then []
    else
      var before := moves[..|moves| - 1];
      Events(cfg, before) + EventOf(Run(cfg, before), moves[|moves| - 1])
  }

  /** Linearisation. Whatever the schedule, the table is what the run's winning swaps yield when performed one after
      the other as atomic transitions, each one permitted on the row stored at that instant. */
  lemma {:induction false} Linearisable(cfg: Config, moves: seq<Move>)
    requires cfg.maxAttempts >= 1
    ensures PerformAll(cfg, Events(cfg, moves)) == Some(Run(cfg, moves).db.requests)
  {
    if moves != [] {
      hide Perform, Step, EventOf, RowsOk, CallOk;
      var before, move := moves[..|moves| - 1], moves[|moves| - 1];
      Linearisable(cfg, before);
      RunCore(cfg, before);
      StepCore(cfg, Run(cfg, before), move);
      var events := EventOf(Run(cfg, before), move);
      if events == [] {
        assert Events(cfg, moves) == Events(cfg, before);
      } else {
        assert events == [events[0]];
        assert Events(cfg, moves)[..|Events(cfg, moves)| - 1] == Events(cfg, before);
      }
    }
  }

  /** Every stored row has the shape of its status. */
  lemma RowShape(cfg: Config, moves: seq<Move>, id: string)
    requires cfg.maxAttempts >= 1 && id in Run(cfg, moves).db.requests
    ensures Shape(cfg, Run(cfg, moves).db.requests[id])
  {
    RunCore(cfg, moves);
  }

  /** The rows of a run descend with its last move. */
  lemma LastMoveGrows(cfg: Config, moves: seq<Move>)
    requires cfg.maxAttempts >= 1 && moves != []
    ensures Grows(Run(cfg, moves[..|moves| - 1]).db.requests, Run(cfg, moves).db.requests)
  {
    hide Grows, Core, Step;
    RunCore(cfg, moves[..|moves| - 1]);
    StepCore(cfg, Run(cfg, moves[..|moves| - 1]), moves[|moves| - 1]);
  }

  /** Between any two points of a run each row only descends: one content per version, a status that follows the
      workflow, frozen origin, and no change at all once rejected or executed. */
  lemma {:induction false} RowsDescend(cfg: Config, moves: seq<Move>, i: nat, j: nat)
    requires cfg.maxAttempts >= 1 && i <= j <= |moves|
    ensures Grows(Run(cfg, moves[..i]).db.requests, Run(cfg, moves[..j]).db.requests)
    decreases j
  {
    hide Grows, Run;
    if i == j {
      GrowsReflexive(Run(cfg, moves[..i]).db.requests);
    } else {
      RowsDescend(cfg, moves, i, j - 1);
      LastMoveGrows(cfg, moves[..j]);
      assert moves[..j][..j - 1] == moves[..j - 1];
      GrowsTransitive(Run(cfg, moves[..i]).db.requests, Run(cfg, moves[..j - 1]).db.requests,
                      Run(cfg, moves[..j]).db.requests);
    }
  }

  /** No ABA: a version number names one content of a row, for good. */
  lemma OneContentPerVersion(cfg: Config, moves: seq<Move>, i: nat, j: nat, id: string)
    requires cfg.maxAttempts >= 1 && i <= j <= |moves| && id in Run(cfg, moves[..i]).db.requests
    ensures var early, late := Run(cfg, moves[..i]).db.requests, Run(cfg, moves[..j]).db.requests;
            id in late && (early[id].version == late[id].version <==> early[id] == late[id])
  {
    RowsDescend(cfg, moves, i, j);
  }

  /** A rejected or executed row never changes again. */
  lemma FinalRowsFrozen(cfg: Config, moves: seq<Move>, i: nat, j: nat, id: string)
    requires cfg.maxAttempts >= 1 && i <= j <= |moves| && id in Run(cfg, moves[..i]).db.requests
    requires Run(cfg, moves[..i]).db.requests[id].status in {Rejected, Executed}
    ensures id in Run(cfg, moves[..j]).db.requests
    ensures Run(cfg, moves[..j]).db.requests[id] == Run(cfg, moves[..i]).db.requests[id]
  {
    RowsDescend(cfg, moves, i, j);
  }

  /** The edges of the workflow. */
  ghost predicate Edge(a: Status, b: Status) {
    || (a == Draft && b == PendingReview)
    || (a == PendingReview && (b == Approved || b == Rejected))
    || (AwaitingStatus(a) && (b == Executed || b == ExecutionFailed))
  }

  predicate AwaitingStatus(s: Status) { s == Approved || s == ExecutionFailed }

  /** One version up: a status moved along an edge, or a pending row reminded once more. */
  ghost predicate OneEdge(a: Request, b: Request) {
    && b.version == a.version + 1
    && if b.reminders == a.reminders then Edge(a.status, b.status)
       else b.reminders == a.reminders + 1 && a.status == b.status == PendingReview
  }

  lemma PerformFollowsEdge(cfg: Config, rows: Rows, event: Event, id: string)
    requires Perform(cfg, rows, event).Some? && id in rows
    ensures var after := Perform(cfg, rows, event).value;
            id in after && (after[id] == rows[id] || OneEdge(rows[id], after[id]))
  {
  }

  /** A single step moves a status along one edge of the workflow, or not at all; a reminder leaves a pending row
      pending and touches no other, however old the snapshot it swaps. */
  lemma StepFollowsEdge(cfg: Config, moves: seq<Move>, move: Move, id: string)
    requires cfg.maxAttempts >= 1 && id in Run(cfg, moves).db.requests
    ensures var before, after := Run(cfg, moves).db.requests, Run(cfg, moves + [move]).db.requests;
            id in after && (after[id] == before[id] || OneEdge(before[id], after[id]))
  {
    hide Step, Core, EventOf, Perform, OneEdge;
    var s := Run(cfg, moves);
    assert (moves + [move])[..|moves|] == moves;
    RunCore(cfg, moves);
    StepCore(cfg, s, move);
    if EventOf(s, move) != [] { PerformFollowsEdge(cfg, s.db.requests, EventOf(s, move)[0], id); }
  }
}
