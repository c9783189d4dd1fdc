/** What the job runs of a request say, in any run: reminders always succeed, executions say what the executor said. */
module JobRuns {
  import opened Domain
  import opened Workflow
  import opened Database
  import opened Calls
  import opened Machine
  import opened Strings

  /** A job run that tells the truth about its request. */
  ghost predicate Honest(cfg: Config, rows: Rows, run: JobRun) {
    && run.requestId in rows
    && var row := rows[run.requestId];
       match run.kind
       case ReminderJob => run.succeeded && run.message == "reminder recorded" && 1 <= run.attempt <= row.reminders
       case ExecutionJob =>
         && run.attempt >= 1
         && (run.succeeded ==> run.message == "execution completed")
         && (cfg.simulated ==> run.succeeded == !MentionsFail(row.target))
         && (cfg.simulated && !run.succeeded ==> run.message == "simulated provisioning failure for " + row.target)
  }

  ghost predicate OwedHonest(cfg: Config, rows: Rows, owed: seq<Owed>) {
    forall o <- owed :: o.OweRun? ==> Honest(cfg, rows, o.run)
  }

  /** The job runs that a call still owes are honest, and so is the one for an executor call whose swap is pending. */
  ghost predicate CallHonest(cfg: Config, rows: Rows, call: Call) {
    match call
    case Logging(_, owed, _) => OwedHonest(cfg, rows, owed)
    case Swapping(_, snap, change, _, then_) =>
      OwedHonest(cfg, rows, OwedRun(snap.id, snap.attempts + 1, change, then_))
    case _ => true
  }

  ghost predicate RunsHonest(cfg: Config, db: Db) {
    forall id <- db.jobRuns :: forall run <- db.jobRuns[id] :: run.requestId == id && Honest(cfg, db.requests, run)
  }

  ghost predicate AllHonest(cfg: Config, s: System) {
    RunsHonest(cfg, s.db) && forall call <- s.calls :: CallHonest(cfg, s.db.requests, call)
  }

  lemma HonestLater(cfg: Config, before: Rows, after: Rows, run: JobRun)
    requires Honest(cfg, before, run) && Grows(before, after)
    ensures Honest(cfg, after, run)
  {
    hide MentionsFail;
    assert Descends(before[run.requestId], after[run.requestId]);
  }

  lemma CallHonestLater(cfg: Config, before: Rows, after: Rows, call: Call)
    requires CallHonest(cfg, before, call) && Grows(before, after)
    ensures CallHonest(cfg, after, call)
  {
    hide Honest, Grows, OwedRun;
    forall run | Honest(cfg, before, run) ensures Honest(cfg, after, run) { HonestLater(cfg, before, after, run); }
  }

  lemma DbHonestLater(cfg: Config, before: Db, after: Db)
    requires RunsHonest(cfg, before) && Grows(before.requests, after.requests) && after.jobRuns == before.jobRuns
    ensures RunsHonest(cfg, after)
  {
    hide Honest, Grows;
    forall run | Honest(cfg, before.requests, run) ensures Honest(cfg, after.requests, run) {
      HonestLater(cfg, before.requests, after.requests, run);
    }
  }

  lemma ContinueHonest(cfg: Config, rows: Rows, reply: Reply, rest: Rest)
    ensures CallHonest(cfg, rows, Continue(reply, rest))
  {
  }

  lemma LogHonest(cfg: Config, rows: Rows, row: Request, owed: seq<Owed>, rest: Rest)
    requires OwedHonest(cfg, rows, owed)
    ensures CallHonest(cfg, rows, Log(row, owed, rest))
  {
    hide Honest;
    ContinueHonest(cfg, rows, Returned(row), rest);
  }

  /** What a winning swap owes. */
  lemma OwesHonest(cfg: Config, call: Call, rows: Rows)
    requires call.Swapping? && call.at.Some?
    requires var next := Apply(cfg, call.snap, call.change, call.at.value);
             next.id in rows && rows[next.id] == next && next.reminders >= 0 && call.snap.reminders >= 0
    requires OwedHonest(cfg, rows, OwedRun(call.snap.id, call.snap.attempts + 1, call.change, call.then_))
    ensures var next := Apply(cfg, call.snap, call.change, call.at.value);
            OwedHonest(cfg, rows, Owes(call.actor, call.change, next, call.at.value, call.then_))
  {
    hide MentionsFail, TrimSpace, DecisionDescription;
  }

  lemma SwapHonest(cfg: Config, call: Call, db: Db)
    requires cfg.maxAttempts >= 1 && call.Swapping? && call.at.Some?
    requires RowsOk(cfg, db.requests) && CallOk(cfg, call, db.requests)
    requires RunsHonest(cfg, db) && CallHonest(cfg, db.requests, call)
    ensures var (c, d) := Swap(cfg, call, db); RunsHonest(cfg, d) && CallHonest(cfg, d.requests, c)
  {
    hide Owes, OwedRun, RunsHonest, Honest, RestOk, RowsOk, Log, OwedHonest, Apply, Shape, Descends, SwapOk, Grows;
    var (c, d) := Swap(cfg, call, db);
    var owed := OwedRun(call.snap.id, call.snap.attempts + 1, call.change, call.then_);
    var next := Apply(cfg, call.snap, call.change, call.at.value);
    SwapCore(cfg, call, db);
    SwapEither(cfg, call, db);
    ApplyKeepsId(cfg, call.snap, call.change, call.at.value);
    DbHonestLater(cfg, db, d);
    CallHonestLater(cfg, db.requests, d.requests, call);
    LogHonest(cfg, d.requests, call.snap, owed, call.then_);
    if StageEvent(call, db) != [] {
      RemindersCount(cfg, call.snap, call.change, call.at.value);
      OwesHonest(cfg, call, d.requests);
      LogHonest(cfg, d.requests, next, Owes(call.actor, call.change, next, call.at.value, call.then_), call.then_);
    }
    DoneHonest(cfg, d.requests, c);
  }

  lemma RemindersCount(cfg: Config, row: Request, change: Change, at: Time)
    ensures Shape(cfg, row) ==> row.reminders >= 0 && Apply(cfg, row, change, at).reminders >= 0
  {
  }

  lemma DoneHonest(cfg: Config, rows: Rows, call: Call)
    ensures call.Done? ==> CallHonest(cfg, rows, call)
  {
  }

  /** The run owed for an executor call says what the executor said. */
  lemma InvokeHonest(cfg: Config, call: Call, rows: Rows, input: Input)
    requires call.Invoking? && call.batch != [] && CallOk(cfg, call, rows)
    ensures CallHonest(cfg, rows, Invoke(cfg, call, input))
  {
    hide MentionsFail, Continue;
    assert call.batch[0] in call.batch;
    assert Anchored(cfg, call.batch[0], rows);
    assert CallHonest(cfg, rows, Continue(Returned(call.batch[0]), Executing(call.now, call.batch[1..]))) by {
      ContinueHonest(cfg, rows, Returned(call.batch[0]), Executing(call.now, call.batch[1..]));
    }
  }

  lemma AppendHonest(cfg: Config, db: Db, owed: Owed, now: Time)
    requires RunsHonest(cfg, db) && (owed.OweRun? ==> Honest(cfg, db.requests, owed.run))
    ensures RunsHonest(cfg, Append(db, owed, now))
  {
    hide Honest;
  }

  lemma QuietHonest(cfg: Config, call: Call, db: Db, input: Input)
    requires !call.Logging? && !call.Invoking? && !(call.Swapping? && call.at.Some?)
    requires CallHonest(cfg, db.requests, call)
    ensures var (c, d) := Act(cfg, call, db, input);
            d.jobRuns == db.jobRuns && CallHonest(cfg, db.requests, c)
  {
    hide Honest, Fingerprint, ReviewScope, SubmitScope, Compound, Blank, TrimSpace, CanReview, MaySubmit, Picks;
  }

  lemma ActHonest(cfg: Config, call: Call, db: Db, input: Input)
    requires cfg.maxAttempts >= 1 && RowsOk(cfg, db.requests) && CallOk(cfg, call, db.requests)
    requires RunsHonest(cfg, db) && CallHonest(cfg, db.requests, call)
    ensures var (c, d) := Act(cfg, call, db, input); RunsHonest(cfg, d) && CallHonest(cfg, d.requests, c)
  {
    hide RunsHonest, Honest, RowsOk, CallOk, Swap, Invoke, Append, Log, Continue, Grows, OwedRun;
    var (c, d) := Act(cfg, call, db, input);
    if call.Swapping? && call.at.Some? {
      SwapHonest(cfg, call, db);
    } else if call.Logging? {
      ContinueHonest(cfg, db.requests, Returned(call.row), call.then_);
      if call.owed != [] {
        AppendHonest(cfg, db, call.owed[0], input.now);
        AppendKeepsRows(db, call.owed[0], input.now);
        LogHonest(cfg, db.requests, call.row, call.owed[1..], call.then_);
      }
    } else if call.Invoking? {
      if call.batch != [] { InvokeHonest(cfg, call, db.requests, input); }
    } else {
      QuietHonest(cfg, call, db, input);
      ActCore(cfg, call, db, input);
      hide Act, CallHonest;
      DbHonestLater(cfg, db, d);
      CallHonestLater(cfg, db.requests, d.requests, c);
    }
  }

  lemma StepHonest(cfg: Config, s: System, move: Move)
    requires cfg.maxAttempts >= 1 && Core(cfg, s) && AllHonest(cfg, s)
    ensures AllHonest(cfg, Step(cfg, s, move))
  {
    hide Act, CallOk, RowsOk, CallHonest, RunsHonest, Grows;
    var t := Step(cfg, s, move);
    StepCore(cfg, s, move);
    if move.Stage? && move.pid < |s.calls| {
      ActHonest(cfg, s.calls[move.pid], s.db, Input(s.clock, move.pick, move.outcome));
    }
    forall call <- t.calls ensures CallHonest(cfg, t.db.requests, call) {
      if call in s.calls { CallHonestLater(cfg, s.db.requests, t.db.requests, call); }
      else if move.Begin? { InitialHonest(cfg, t.db.requests, call); }
    }
  }

  lemma InitialHonest(cfg: Config, rows: Rows, call: Call)
    requires Initial(call)
    ensures CallHonest(cfg, rows, call)
  {
  }

  lemma {:induction false} RunHonest(cfg: Config, moves: seq<Move>)
    requires cfg.maxAttempts >= 1
    ensures AllHonest(cfg, Run(cfg, moves))
  {
    if moves != [] {
      hide Step, Core, AllHonest;
      var before := moves[..|moves| - 1];
      RunHonest(cfg, before);
      RunCore(cfg, before);
      StepHonest(cfg, Run(cfg, before), moves[|moves| - 1]);
    } else {
      assert AllHonest(cfg, INIT);
    }
  }

  /** In any run, under any interference and with swaps lost: a stored reminder run has succeeded and counts a reminder
      that the row shows; a stored execution run that succeeded says so in its message; and with the simulated executor
      it succeeded exactly when the target of its request has no "fail" in it, in any case. */
  lemma RunsTell(cfg: Config, moves: seq<Move>, id: string, run: JobRun)
    requires cfg.maxAttempts >= 1 && run in Listed(Run(cfg, moves).db.jobRuns, id)
    ensures var rows := Run(cfg, moves).db.requests;
            && id in rows && run.requestId == id
            && (run.kind == ReminderJob ==>
                  run.succeeded && run.message == "reminder recorded" && 1 <= run.attempt <= rows[id].reminders)
            && (run.kind == ExecutionJob && run.succeeded ==> run.message == "execution completed")
            && (run.kind == ExecutionJob && cfg.simulated ==>
                  && (run.succeeded <==> !exists p: string, q: string :: Lowered(rows[id].target) == p + "fail" + q)
                  && (!run.succeeded ==> run.message == "simulated provisioning failure for " + rows[id].target))
  {
    hide Run, MentionsFail;
    RunHonest(cfg, moves);
    FailMeans(Run(cfg, moves).db.requests[id].target);
  }
}
