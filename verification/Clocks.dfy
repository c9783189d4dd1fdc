/** Properties of time. Reminder spacing is part of `Shape` and needs no assumption on the clock; the properties here
    are for schedules whose clock never runs backwards. */
module Clocks {
  import opened Domain
  import opened Workflow
  import opened Database
  import opened Calls
  import opened Machine

  ghost predicate Monotone(moves: seq<Move>) {
    forall move <- moves :: move.Tick? ==> move.delta >= 0
  }

  lemma StaysMonotone(moves: seq<Move>, move: Move)
    requires Monotone(moves) && (move.Tick? ==> move.delta >= 0)
    ensures Monotone(moves + [move])
  {
  }

  /** `a`, when present, is no later than `b`. */
  predicate NotAfter(a: Option<Time>, b: Time) {
    a.Some? ==> a.value <= b
  }

  /** CreatedAt <= SubmittedAt <= LastRemindedAt <= ReviewedAt <= ExecutedAt where present, none after UpdatedAt. */
  ghost predicate Causal(row: Request) {
    && row.createdAt <= row.updatedAt
    && (row.submittedAt.Some? ==> row.createdAt <= row.submittedAt.value <= row.updatedAt)
    && (row.remindedAt.Some? ==>
          NotAfter(row.submittedAt, row.remindedAt.value) && row.remindedAt.value <= row.updatedAt)
    && (row.reviewedAt.Some? ==>
          && NotAfter(row.submittedAt, row.reviewedAt.value) && NotAfter(row.remindedAt, row.reviewedAt.value)
          && row.reviewedAt.value <= row.updatedAt)
    && (row.executedAt.Some? ==> NotAfter(row.reviewedAt, row.executedAt.value))
  }

  ghost predicate RowsTimed(rows: Rows, clock: Time) {
    forall id <- rows :: Causal(rows[id]) && rows[id].updatedAt <= clock
  }

  /** Batches were listed, and their rows written, no later than now. */
  ghost predicate RestTimed(rest: Rest, clock: Time) {
    match rest
    case Answer => true
    case Reminding(now, _) => now <= clock
    case Executing(now, batch) => now <= clock && forall q <- batch :: q.updatedAt <= clock
  }

  /** Times a call has captured are in the past, and a swap's time is no earlier than its snapshot or its listing. */
  ghost predicate CallTimed(call: Call, clock: Time) {
    match call
    case Creating(_, row) => row.updatedAt <= clock
    case SubmitFind(_, snap, _) => snap.updatedAt <= clock
    case SubmitClaim(_, snap, _) => snap.updatedAt <= clock
    case ReviewFind(_, snap, _, _, _) => snap.updatedAt <= clock
    case ReviewClaim(_, snap, _, _, _) => snap.updatedAt <= clock
    case RemindList(_, now) => now <= clock
    case ExecuteList(_, now) => now <= clock
    case Invoking(now, batch) => RestTimed(Executing(now, batch), clock)
    case Swapping(_, snap, _, at, then_) =>
      && snap.updatedAt <= clock && RestTimed(then_, clock)
      && (at.Some? ==> snap.updatedAt <= at.value <= clock && (then_.Executing? ==> then_.now <= at.value))
    case Logging(_, _, then_) => RestTimed(then_, clock)
    case _ => true
  }

  ghost predicate Timed(s: System) {
    RowsTimed(s.db.requests, s.clock) && forall call <- s.calls :: CallTimed(call, s.clock)
  }

  /** A permitted change made no earlier than the row's last update keeps its times in order. */
  lemma ApplyCausal(cfg: Config, row: Request, actor: Actor, change: Change, at: Time, due: Option<Time>)
    requires Shape(cfg, row) && Causal(row) && Permitted(cfg, row, actor, change, at, due)
    requires row.updatedAt <= at
    ensures Causal(Apply(cfg, row, change, at)) && Apply(cfg, row, change, at).updatedAt == at
  {
    hide DueForExecution, CanReview, TrimSpace, Schedule;
  }

  lemma CallTimedLater(call: Call, clock: Time, later: Time)
    requires CallTimed(call, clock) && clock <= later
    ensures CallTimed(call, later)
  {
  }

  /** A reminder's time was read before its batch, yet no listed row was written after it. */
  lemma ReminderNotEarly(cfg: Config, row: Request, now: Time)
    requires cfg.reminderAfter >= 0 && Shape(cfg, row) && DueForReminder(row, now - cfg.reminderAfter, false)
    ensures row.updatedAt <= now
  {
  }

  lemma ContinueTimed(cfg: Config, reply: Reply, rest: Rest, rows: Rows, clock: Time)
    requires cfg.reminderAfter >= 0 && RestOk(cfg, rest, rows) && RestTimed(rest, clock)
    ensures CallTimed(Continue(reply, rest), clock)
  {
    hide Shape, Descends, DueForReminder, DueForExecution;
    if rest.Reminding? && rest.batch != [] {
      assert rest.batch[0] in rest.batch;
      ReminderNotEarly(cfg, rest.batch[0], rest.now);
    }
  }

  lemma LogTimed(cfg: Config, row: Request, owed: seq<Owed>, rest: Rest, rows: Rows, clock: Time)
    requires cfg.reminderAfter >= 0 && RestOk(cfg, rest, rows) && RestTimed(rest, clock)
    ensures CallTimed(Log(row, owed, rest), clock)
  {
    hide RestOk;
    ContinueTimed(cfg, Returned(row), rest, rows, clock);
  }

  lemma SwapTimed(cfg: Config, call: Call, db: Db, clock: Time)
    requires Configured(cfg) && call.Swapping? && call.at.Some?
    requires RowsOk(cfg, db.requests) && CallOk(cfg, call, db.requests)
    requires RowsTimed(db.requests, clock) && CallTimed(call, clock)
    ensures var (c, d) := Swap(cfg, call, db); RowsTimed(d.requests, clock) && CallTimed(c, clock)
  {
    hide Shape, Apply, Owes, OwedRun, RestOk, Log, Causal, Permitted, Descends, DueForReminder;
    var next := Apply(cfg, call.snap, call.change, call.at.value);
    ApplyKeepsId(cfg, call.snap, call.change, call.at.value);
    LogTimed(cfg, next, Owes(call.actor, call.change, next, call.at.value, call.then_), call.then_, db.requests, clock);
    LogTimed(cfg, call.snap, OwedRun(call.snap.id, call.snap.attempts + 1, call.change, call.then_), call.then_,
             db.requests, clock);
    if StageEvent(call, db) != [] {
      SwapWins(cfg, call, db);
      ApplyCausal(cfg, call.snap, call.actor, call.change, call.at.value, DueOf(call.then_));
    }
  }

  lemma ListTimed(cfg: Config, call: Call, db: Db, input: Input)
    requires Configured(cfg) && RowsOk(cfg, db.requests) && RowsTimed(db.requests, input.now)
    requires (call.RemindList? || call.ExecuteList?) && CallTimed(call, input.now)
    ensures CallTimed(Act(cfg, call, db, input).0, input.now)
  {
    hide Shape, Causal, Descends, DueForReminder, DueForExecution, Continue, BatchOk, RowsOk;
    var rows := db.requests;
    if call.RemindList? {
      if PicksReminders(rows, call.now - cfg.reminderAfter, call.limit, input.pick) {
        PickOk(cfg, rows, input.pick);
        ContinueTimed(cfg, Finished, Reminding(call.now, input.pick), rows, input.now);
      }
    } else if PicksExecutions(rows, call.now, call.limit, input.pick) {
      PickOk(cfg, rows, input.pick);
      ContinueTimed(cfg, Finished, Executing(call.now, input.pick), rows, input.now);
    }
  }

  lemma CreateTimed(row: Request, rows: Rows, clock: Time)
    requires IsNewDraft(row) && row.updatedAt <= clock && RowsTimed(rows, clock)
    ensures RowsTimed(rows[row.id := row], clock)
  {
  }

  lemma ReadTimed(cfg: Config, call: Call, db: Db, input: Input)
    requires RowsTimed(db.requests, input.now) && CallTimed(call, input.now)
    requires !call.Creating? && !call.RemindList? && !call.ExecuteList? && !call.Logging?
    requires !(call.Swapping? && call.at.Some?)
    requires call.Invoking? ==> call.batch == [] || DueForExecution(call.batch[0], call.now)
    ensures CallTimed(Act(cfg, call, db, input).0, input.now)
  {
    hide Causal, Fingerprint, ReviewScope, SubmitScope, Compound, Blank, TrimSpace, CanReview, MaySubmit, Outcome,
      OwedRun;
  }

  lemma ActTimed(cfg: Config, call: Call, db: Db, input: Input)
    requires Configured(cfg) && RowsOk(cfg, db.requests) && CallOk(cfg, call, db.requests)
    requires RowsTimed(db.requests, input.now) && CallTimed(call, input.now)
    ensures var (c, d) := Act(cfg, call, db, input); RowsTimed(d.requests, input.now) && CallTimed(c, input.now)
  {
    hide RowsOk, RowsTimed, Swap, Invoke, Continue, Append, Log, IsNewDraft, Anchored, BatchOk, SwapOk;
    match call
    case Creating(_, row) =>
      if FreshId(db, row.id) { CreateTimed(row, db.requests, input.now); }
    case RemindList(_, _) => ListTimed(cfg, call, db, input);
    case ExecuteList(_, _) => ListTimed(cfg, call, db, input);
    case Logging(row, owed, rest) =>
      ContinueTimed(cfg, Returned(row), rest, db.requests, input.now);
      if owed != [] {
        AppendKeepsRows(db, owed[0], input.now);
        LogTimed(cfg, row, owed[1..], rest, db.requests, input.now);
      }
    case Swapping(_, _, _, at, _) =>
      if at.Some? { SwapTimed(cfg, call, db, input.now); }
    case Invoking(_, batch) =>
      if batch != [] { assert batch[0] in batch; }
      ReadTimed(cfg, call, db, input);
    case _ =>
      ReadTimed(cfg, call, db, input);
      ReadCore(cfg, call, db, input);
  }

  lemma StepTimed(cfg: Config, s: System, move: Move)
    requires Configured(cfg) && Core(cfg, s) && Timed(s) && (move.Tick? ==> move.delta >= 0)
    ensures Timed(Step(cfg, s, move))
  {
    hide CallOk, RowsOk, CallTimed, Act, Causal;
    var t := Step(cfg, s, move);
    if move.Stage? && move.pid < |s.calls| {
      ActTimed(cfg, s.calls[move.pid], s.db, Input(s.clock, move.pick, move.outcome));
    }
    forall call <- t.calls ensures CallTimed(call, t.clock) {
      if call in s.calls { CallTimedLater(call, s.clock, t.clock); }
      else if move.Begin? { InitialTimed(call, t.clock); }
    }
  }

  lemma InitialTimed(call: Call, clock: Time)
    requires Initial(call)
    ensures CallTimed(call, clock)
  {
  }

  lemma {:induction false} RunTimed(cfg: Config, moves: seq<Move>)
    requires Configured(cfg) && Monotone(moves)
    ensures Timed(Run(cfg, moves))
  {
    if moves != [] {
      hide Step, Core, Timed;
      var before := moves[..|moves| - 1];
      RunTimed(cfg, before);
      RunCore(cfg, before);
      StepTimed(cfg, Run(cfg, before), moves[|moves| - 1]);
    } else {
      assert Timed(INIT);
    }
  }

  /** Timestamp causality, in every reachable state, although a reminder reads its time before its batch. */
  lemma TimesInOrder(cfg: Config, moves: seq<Move>, id: string)
    requires Configured(cfg) && Monotone(moves) && id in Run(cfg, moves).db.requests
    ensures Causal(Run(cfg, moves).db.requests[id])
  {
    RunTimed(cfg, moves);
  }

  /** Reminder spacing, with any number of workers and no assumption on the clock: the n-th reminder of a request comes
      at least n reminder periods after its submission. */
  lemma RemindersSpaced(cfg: Config, moves: seq<Move>, id: string)
    requires cfg.maxAttempts >= 1 && id in Run(cfg, moves).db.requests
    ensures var row := Run(cfg, moves).db.requests[id];
            row.reminders > 0 ==>
              && row.remindedAt.Some? && row.submittedAt.Some?
              && row.remindedAt.value >= row.submittedAt.value + row.reminders * cfg.reminderAfter
  {
    RowShape(cfg, moves, id);
  }

  lemma StepUpdatesForward(cfg: Config, s: System, move: Move, id: string)
    requires Configured(cfg) && Core(cfg, s) && Timed(s) && id in s.db.requests
    ensures var t := Step(cfg, s, move);
            id in t.db.requests && s.db.requests[id].updatedAt <= t.db.requests[id].updatedAt
  {
    hide RowsTimed, Permitted, Shape, Descends;
    StepCore(cfg, s, move);
    if EventOf(s, move) != [] {
      var call := s.calls[move.pid];
      assert CallTimed(call, s.clock) && CallOk(cfg, call, s.db.requests);
      hide Core, Timed;
      if call.Swapping? { SwapWins(cfg, call, s.db); }
    }
  }

  /** UpdatedAt never decreases. */
  lemma {:induction false} UpdatesForward(cfg: Config, moves: seq<Move>, i: nat, j: nat, id: string)
    requires Configured(cfg) && Monotone(moves) && i <= j <= |moves|
    requires id in Run(cfg, moves[..i]).db.requests
    ensures id in Run(cfg, moves[..j]).db.requests
    ensures Run(cfg, moves[..i]).db.requests[id].updatedAt <= Run(cfg, moves[..j]).db.requests[id].updatedAt
    decreases j
  {
    if i < j {
      hide Core, Step, Timed;
      UpdatesForward(cfg, moves, i, j - 1, id);
      RunCore(cfg, moves[..j - 1]);
      RunTimed(cfg, moves[..j - 1]);
      StepUpdatesForward(cfg, Run(cfg, moves[..j - 1]), moves[j - 1], id);
      assert moves[..j][..j - 1] == moves[..j - 1];
    }
  }
}
