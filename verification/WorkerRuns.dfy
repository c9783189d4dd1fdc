/** Runs in which every execution result comes from a worker: nobody reports one through `RecordExecutionResult`,
    which checks neither the schedule nor the retry budget. */
module WorkerRuns {
  import opened Domain
  import opened Workflow
  import opened Database
  import opened Calls
  import opened Machine
  import opened Clocks

  ghost predicate NoReports(moves: seq<Move>) {
    forall move <- moves :: move.Begin? ==> !move.call.ResultRead?
  }

  /** No call in flight reports a result, and a simulated executor failed exactly the targets that mention "fail". */
  ghost predicate FromWorker(cfg: Config, call: Call) {
    && !call.ResultRead?
    && (call.Swapping? && call.change.Execute? ==> call.then_.Executing?)
    && (call.Swapping? && call.change.Execute? && cfg.simulated ==>
          call.change.success == !MentionsFail(call.snap.target))
  }

  /** Within the budget; and with the simulated executor, executed at the first attempt exactly when the target does
      not mention "fail". */
  ghost predicate Fated(cfg: Config, row: Request) {
    && row.attempts <= cfg.maxAttempts
    && (cfg.simulated && row.status == Executed ==> row.attempts == 1 && !MentionsFail(row.target))
    && (cfg.simulated && row.status == ExecutionFailed ==> MentionsFail(row.target))
  }

  ghost predicate AllFated(cfg: Config, s: System) {
    && (forall id <- s.db.requests :: Fated(cfg, s.db.requests[id]))
    && (forall call <- s.calls :: FromWorker(cfg, call))
  }

  lemma ApplyFated(cfg: Config, call: Call)
    requires cfg.maxAttempts >= 1 && call.Swapping? && call.at.Some?
    requires Shape(cfg, call.snap) && Fated(cfg, call.snap) && SwapOk(cfg, call) && FromWorker(cfg, call)
    ensures Fated(cfg, Apply(cfg, call.snap, call.change, call.at.value))
  {
    hide MentionsFail, CanReview, MaySubmit, TrimSpace, DueForReminder;
  }

  lemma ContinueFromWorker(cfg: Config, reply: Reply, rest: Rest)
    ensures FromWorker(cfg, Continue(reply, rest))
  {
  }

  lemma LogFromWorker(cfg: Config, row: Request, owed: seq<Owed>, rest: Rest)
    ensures FromWorker(cfg, Log(row, owed, rest))
  {
    ContinueFromWorker(cfg, Returned(row), rest);
  }

  lemma SwapFated(cfg: Config, call: Call, db: Db)
    requires cfg.maxAttempts >= 1 && call.Swapping? && call.at.Some?
    requires RowsOk(cfg, db.requests) && CallOk(cfg, call, db.requests) && FromWorker(cfg, call)
    requires forall id <- db.requests :: Fated(cfg, db.requests[id])
    ensures var (c, d) := Swap(cfg, call, db);
            FromWorker(cfg, c) && forall id <- d.requests :: Fated(cfg, d.requests[id])
  {
    hide Shape, Apply, Owes, OwedRun, RestOk, Log, FromWorker, Fated, SwapOk, Descends;
    var next := Apply(cfg, call.snap, call.change, call.at.value);
    ApplyKeepsId(cfg, call.snap, call.change, call.at.value);
    LogFromWorker(cfg, next, Owes(call.actor, call.change, next, call.at.value, call.then_), call.then_);
    LogFromWorker(cfg, call.snap, OwedRun(call.snap.id, call.snap.attempts + 1, call.change, call.then_), call.then_);
    ContinueFromWorker(cfg, Failed(Conflict), Answer);
    ContinueFromWorker(cfg, Failed(NotFound), Answer);
    if StageEvent(call, db) != [] {
      SwapWins(cfg, call, db);
      ApplyFated(cfg, call);
    }
  }

  lemma ReadFromWorker(cfg: Config, call: Call, db: Db, input: Input)
    requires FromWorker(cfg, call) && !(call.Swapping? && call.at.Some?)
    ensures FromWorker(cfg, Act(cfg, call, db, input).0)
  {
    hide MentionsFail, Fingerprint, ReviewScope, SubmitScope, Compound, Blank, TrimSpace, CanReview, MaySubmit, Picks,
      OwedRun, AwaitsExecution, Append;
  }

  lemma ActFated(cfg: Config, call: Call, db: Db, input: Input)
    requires cfg.maxAttempts >= 1 && RowsOk(cfg, db.requests) && CallOk(cfg, call, db.requests) && FromWorker(cfg, call)
    requires forall id <- db.requests :: Fated(cfg, db.requests[id])
    ensures var (c, d) := Act(cfg, call, db, input);
            FromWorker(cfg, c) && forall id <- d.requests :: Fated(cfg, d.requests[id])
  {
    var d := Act(cfg, call, db, input).1;
    if call.Swapping? && call.at.Some? {
      hide FromWorker, Fated, RowsOk, CallOk, Swap;
      SwapFated(cfg, call, db);
    } else {
      ReadFromWorker(cfg, call, db, input);
      hide FromWorker;
      ActCore(cfg, call, db, input);
      hide CallOk, RowsOk, Act, MentionsFail;
    }
  }

  lemma StepFated(cfg: Config, s: System, move: Move)
    requires cfg.maxAttempts >= 1 && Core(cfg, s) && AllFated(cfg, s) && (move.Begin? ==> !move.call.ResultRead?)
    ensures AllFated(cfg, Step(cfg, s, move))
  {
    hide CallOk, RowsOk, Act, Fated;
    if move.Stage? && move.pid < |s.calls| {
      hide FromWorker;
      ActFated(cfg, s.calls[move.pid], s.db, Input(s.clock, move.pick, move.outcome));
    }
  }

  /** Budget and fate of every row, in every run without reported results: attempts never exceed the budget, and with
      the simulated executor an executed row took one attempt at a target without "fail" and a failed row's target has
      it. */
  lemma {:induction false} RowsFated(cfg: Config, moves: seq<Move>)
    requires cfg.maxAttempts >= 1 && NoReports(moves)
    ensures AllFated(cfg, Run(cfg, moves))
  {
    if moves != [] {
      hide Step, Core, AllFated;
      var before := moves[..|moves| - 1];
      RowsFated(cfg, before);
      RunCore(cfg, before);
      StepFated(cfg, Run(cfg, before), moves[|moves| - 1]);
    } else {
      assert AllFated(cfg, INIT);
    }
  }

  // ---------- Reports

  /** How far a request is beyond its budget. */
  function Excess(cfg: Config, rows: Rows, id: string): int {
    if id in rows && rows[id].attempts > cfg.maxAttempts then rows[id].attempts - cfg.maxAttempts else 0
  }

  /** A report on a request whose budget is spent. */
  predicate Overruns(cfg: Config, rows: Rows, e: Event, id: string) {
    && e.Changed? && e.id == id && e.change.Execute? && e.due == None
    && id in rows && rows[id].attempts >= cfg.maxAttempts
  }

  function CountOverruns(cfg: Config, events: seq<Event>, id: string): int {
    if events == [] then 0
    else
      var before, last := events[..|events| - 1], events[|events| - 1];
      var rows := PerformAll(cfg, before);
      CountOverruns(cfg, before, id) + One(rows.Some? && Overruns(cfg, rows.value, last, id))
  }

  lemma PerformExceeds(cfg: Config, rows: Rows, e: Event, id: string)
    requires cfg.maxAttempts >= 1 && RowsOk(cfg, rows) && Perform(cfg, rows, e).Some?
    ensures Excess(cfg, Perform(cfg, rows, e).value, id) == Excess(cfg, rows, id) + One(Overruns(cfg, rows, e, id))
  {
    hide CanReview, MaySubmit, MayRecord, TrimSpace;
    if id in rows { assert Shape(cfg, rows[id]); }
  }

  lemma {:induction false} OverrunsExceed(cfg: Config, events: seq<Event>, id: string)
    requires cfg.maxAttempts >= 1 && PerformAll(cfg, events).Some?
    ensures RowsOk(cfg, PerformAll(cfg, events).value)
    ensures Excess(cfg, PerformAll(cfg, events).value, id) == CountOverruns(cfg, events, id)
  {
    if events != [] {
      hide Perform, RowsOk, Grows, Excess, Overruns;
      var before, last := events[..|events| - 1], events[|events| - 1];
      OverrunsExceed(cfg, before, id);
      PerformKeepsRows(cfg, PerformAll(cfg, before).value, last);
      PerformExceeds(cfg, PerformAll(cfg, before).value, last, id);
    } else {
      assert RowsOk(cfg, map[]) && Excess(cfg, map[], id) == 0;
    }
  }

  /** When attempts stay within the budget, in any run: a request is beyond its budget by exactly the number of reports
      that won on it when the budget was spent. */
  lemma ReportsExceedBudget(cfg: Config, moves: seq<Move>, id: string)
    requires cfg.maxAttempts >= 1
    ensures Excess(cfg, Run(cfg, moves).db.requests, id) == CountOverruns(cfg, Events(cfg, moves), id)
  {
    Linearisable(cfg, moves);
    OverrunsExceed(cfg, Events(cfg, moves), id);
  }

  // ---------- Backoff

  /** 0 + 1 + ... + (n - 1) */
  function Triangle(n: int): int {
    if n <= 0 then 0 else Triangle(n - 1) + n - 1
  }

  lemma {:induction false} TriangleClosed(n: nat)
    ensures 2 * Triangle(n) == n * (n - 1)
  {
    if n > 0 { TriangleClosed(n - 1); }
  }

  lemma TriangleStep(n: nat, base: int)
    ensures base * Triangle(n + 1) == base * Triangle(n) + n * base
  {
    assert Triangle(n + 1) == Triangle(n) + n;
  }

  /** After n attempts at least the sum of the first n - 1 backoffs has passed since approval. */
  ghost predicate BackedOff(cfg: Config, row: Request) {
    row.approvedAt.Some? ==> row.updatedAt >= row.approvedAt.value + cfg.retryBase * Triangle(row.attempts)
  }

  ghost predicate AllBackedOff(cfg: Config, rows: Rows) {
    forall id <- rows :: BackedOff(cfg, rows[id])
  }

  /** The new update time is past the schedule, which was `attempts` retry bases past the old one. */
  lemma ApplyBackedOff(cfg: Config, call: Call)
    requires call.Swapping? && call.at.Some?
    requires Shape(cfg, call.snap) && BackedOff(cfg, call.snap) && SwapOk(cfg, call) && FromWorker(cfg, call)
    requires call.then_.Executing? ==> call.then_.now <= call.at.value
    ensures BackedOff(cfg, Apply(cfg, call.snap, call.change, call.at.value))
  {
    hide MentionsFail, CanReview, MaySubmit, TrimSpace;
    var snap := call.snap;
    if call.change.Execute? {
      assert snap.nextAt.Some? && snap.nextAt.value <= call.at.value;
      TriangleStep(snap.attempts, cfg.retryBase);
      assert snap.nextAt.value >= snap.approvedAt.value + cfg.retryBase * Triangle(snap.attempts + 1);
    } else {
      assert snap.attempts == 0 && Triangle(0) == 0;
    }
  }

  lemma StepBacksOff(cfg: Config, s: System, move: Move)
    requires Configured(cfg) && Core(cfg, s) && Timed(s) && AllFated(cfg, s) && AllBackedOff(cfg, s.db.requests)
    ensures AllBackedOff(cfg, Step(cfg, s, move).db.requests)
  {
    hide RowsOk, RowsTimed, Fated, BackedOff, Permitted, Shape, Descends, DueForReminder;
    StepCore(cfg, s, move);
    if EventOf(s, move) != [] {
      var call := s.calls[move.pid];
      assert CallTimed(call, s.clock) && CallOk(cfg, call, s.db.requests) && FromWorker(cfg, call);
      hide Core, Timed, AllFated, FromWorker, RestOk, RestTimed, SwapOk, Apply;
      if call.Swapping? {
        SwapWins(cfg, call, s.db);
        ApplyBackedOff(cfg, call);
        ApplyKeepsId(cfg, call.snap, call.change, call.at.value);
      } else {
        NewDraftBackedOff(cfg, call.row);
      }
    }
  }

  lemma NewDraftBackedOff(cfg: Config, row: Request)
    ensures IsNewDraft(row) ==> BackedOff(cfg, row)
  {
  }

  /** Triangular backoff, in every run of workers and reviewers whose clock does not run backwards: a request with n
      attempts was last updated at least base * n(n-1)/2 after its approval. */
  lemma {:induction false} Backoff(cfg: Config, moves: seq<Move>)
    requires Configured(cfg) && Monotone(moves) && NoReports(moves)
    ensures AllBackedOff(cfg, Run(cfg, moves).db.requests)
  {
    if moves != [] {
      hide Step, Core, AllFated, Timed, AllBackedOff;
      var before := moves[..|moves| - 1];
      Backoff(cfg, before);
      RunCore(cfg, before);
      RunTimed(cfg, before);
      RowsFated(cfg, before);
      StepBacksOff(cfg, Run(cfg, before), moves[|moves| - 1]);
    } else {
      assert AllBackedOff(cfg, INIT.db.requests);
    }
  }
}
