/** How often the executor can be called, under any interleaving: swaps that are lost, results reported through the
    API and other workers included. */
module Executions {
  import opened Domain
  import opened Workflow
  import opened Database
  import opened Calls
  import opened Machine
  import opened Trail

  /** The rows a call has still to execute. */
  function Remaining(call: Call): seq<Request> {
    match call
    case Invoking(_, batch) => batch
    case Swapping(_, _, _, _, Executing(_, batch)) => batch
    case Logging(_, _, Executing(_, batch)) => batch
    case _ => []
  }

  /** The call made this executor call and has not yet tried to record it. */
  predicate Unrecorded(call: Call, h: Execution) {
    call.Swapping? && call.then_.Executing? && call.snap.id == h.id && call.snap.attempts + 1 == h.attempt
  }

  /** An executor call by the thread now at `call`: within the budget, recorded in the row's attempts unless the swap
      is still to come, and never to be repeated by the rest of the thread's batch. */
  ghost predicate Accounted(cfg: Config, h: Execution, call: Call, rows: Rows) {
    && h.id in rows && 1 <= h.attempt <= cfg.maxAttempts
    && (rows[h.id].attempts >= h.attempt || Unrecorded(call, h))
    && forall q <- Remaining(call) :: q.id == h.id ==> h.attempt <= q.attempts
  }

  ghost predicate Increasing(history: seq<Execution>) {
    forall i, j :: 0 <= i < j < |history| && history[i].pid == history[j].pid && history[i].id == history[j].id
                   ==> history[i].attempt < history[j].attempt
  }

  ghost predicate Bounded(cfg: Config, s: System) {
    && Increasing(s.history)
    && forall h <- s.history :: h.pid < |s.calls| && Accounted(cfg, h, s.calls[h.pid], s.db.requests)
  }

  lemma AccountedGrows(cfg: Config, h: Execution, call: Call, before: Rows, after: Rows)
    requires Accounted(cfg, h, call, before) && Grows(before, after)
    ensures Accounted(cfg, h, call, after)
  {
    assert Descends(before[h.id], after[h.id]);
  }

  /** Won or lost, an execution swap leaves the row with more attempts than the snapshot had. */
  lemma SwapRecords(cfg: Config, call: Call, db: Db)
    requires cfg.maxAttempts >= 1 && call.Swapping? && call.at.Some? && call.change.Execute?
    requires RowsOk(cfg, db.requests) && CallOk(cfg, call, db.requests)
    ensures var d := Swap(cfg, call, db).1;
            call.snap.id in d.requests && d.requests[call.snap.id].attempts >= call.snap.attempts + 1
  {
    hide Swap, RestOk, RowsOk, TrimSpace;
    SwapEither(cfg, call, db);
  }

  lemma RemainingShrinks(cfg: Config, call: Call, db: Db, input: Input)
    ensures var c := Act(cfg, call, db, input).0;
            forall q <- Remaining(c) :: q in Remaining(call)
              || (call.ExecuteList? && q.id in db.requests && db.requests[q.id] == q)
  {
    hide Fingerprint, ReviewScope, SubmitScope, Compound, Blank, TrimSpace, MaySubmit, CanReview, DueForExecution,
      Owes, OwedRun, Apply, UpdateRequest, Outcome, AwaitsExecution;
  }

  /** The thread that made an executor call keeps it accounted for. */
  lemma ActAccounts(cfg: Config, h: Execution, call: Call, db: Db, input: Input)
    requires cfg.maxAttempts >= 1 && RowsOk(cfg, db.requests) && CallOk(cfg, call, db.requests)
    requires Accounted(cfg, h, call, db.requests)
    ensures var (c, d) := Act(cfg, call, db, input); Accounted(cfg, h, c, d.requests)
  {
    var (c, d) := Act(cfg, call, db, input);
    ActCore(cfg, call, db, input);
    RemainingShrinks(cfg, call, db, input);
    if Unrecorded(call, h) && call.at.Some? {
      hide Shape, Descends, CallOk, Log, Permitted, Apply;
      assert call.change.Execute? by { SwapIsExecution(cfg, call, db.requests); }
      SwapRecords(cfg, call, db);
    } else if Unrecorded(call, h) {
      hide Shape, Descends, CallOk;
    } else {
      hide Act, Shape, CallOk, RowsOk;
      assert Descends(db.requests[h.id], d.requests[h.id]);
    }
  }

  lemma SwapIsExecution(cfg: Config, call: Call, rows: Rows)
    requires call.Swapping? && call.then_.Executing? && CallOk(cfg, call, rows)
    ensures call.change.Execute?
  {
  }

  /** A new executor call is within the budget and past every earlier one by the same thread for that request. */
  lemma InvocationAccounted(cfg: Config, pid: nat, call: Call, db: Db, input: Input)
    requires cfg.maxAttempts >= 1 && CallOk(cfg, call, db.requests) && Invocations(pid, call) != []
    ensures Accounted(cfg, Invocations(pid, call)[0], Invoke(cfg, call, input), db.requests)
  {
    hide Outcome, Descends;
    TailOk(cfg, call.batch, db.requests);
    assert call.batch[0] in call.batch;
  }

  lemma StepBounded(cfg: Config, s: System, move: Move)
    requires cfg.maxAttempts >= 1 && Core(cfg, s) && Bounded(cfg, s)
    ensures Bounded(cfg, Step(cfg, s, move))
  {
    hide CallOk, RowsOk, Accounted, Initial;
    var t := Step(cfg, s, move);
    StepCore(cfg, s, move);
    if move.Stage? && move.pid < |s.calls| {
      var call, input := s.calls[move.pid], Input(s.clock, move.pick, move.outcome);
      forall h <- t.history ensures h.pid < |t.calls| && Accounted(cfg, h, t.calls[h.pid], t.db.requests) {
        hide Act, Grows;
        if h !in s.history {
          assert h == Invocations(move.pid, call)[0];
          NewInvocation(cfg, h, call, s.db, input);
        } else if h.pid == move.pid {
          ActAccounts(cfg, h, call, s.db, input);
        } else {
          AccountedGrows(cfg, h, s.calls[h.pid], s.db.requests, t.db.requests);
        }
      }
      StepIncreases(cfg, s, move.pid);
    } else if move.Begin? && move.pid < |s.calls| && s.calls[move.pid].Done? {
      forall h <- t.history ensures Accounted(cfg, h, t.calls[h.pid], t.db.requests) {
        if h.pid == move.pid && Initial(move.call) {
          RestartAccounted(cfg, h, s.calls[h.pid], move.call, s.db.requests);
        }
      }
    }
  }

  lemma NewInvocation(cfg: Config, h: Execution, call: Call, db: Db, input: Input)
    requires cfg.maxAttempts >= 1 && CallOk(cfg, call, db.requests) && Invocations(h.pid, call) == [h]
    ensures var (c, d) := Act(cfg, call, db, input); Accounted(cfg, h, c, d.requests)
  {
    hide CallOk, Accounted, Invoke;
    InvocationAccounted(cfg, h.pid, call, db, input);
  }

  lemma RestartAccounted(cfg: Config, h: Execution, done: Call, call: Call, rows: Rows)
    requires Accounted(cfg, h, done, rows) && done.Done? && Initial(call)
    ensures Accounted(cfg, h, call, rows)
  {
  }

  lemma StepIncreases(cfg: Config, s: System, pid: nat)
    requires pid < |s.calls| && Bounded(cfg, s)
    ensures Increasing(s.history + Invocations(pid, s.calls[pid]))
  {
    var more := Invocations(pid, s.calls[pid]);
    if more != [] {
      var batch := s.calls[pid].batch;
      assert batch[0] in Remaining(s.calls[pid]);
      forall i | 0 <= i < |s.history| && s.history[i].pid == pid && s.history[i].id == batch[0].id
        ensures s.history[i].attempt < more[0].attempt
      {
        assert s.history[i] in s.history;
      }
    } else {
      assert s.history + more == s.history;
    }
  }

  /** Executor call bound. In any run, the executor calls one thread makes for one request carry strictly increasing
      attempt numbers between 1 and the budget. */
  lemma {:induction false} ExecutorCallsBounded(cfg: Config, moves: seq<Move>)
    requires cfg.maxAttempts >= 1
    ensures Bounded(cfg, Run(cfg, moves))
  {
    if moves != [] {
      hide Step, Core, Bounded;
      var before := moves[..|moves| - 1];
      ExecutorCallsBounded(cfg, before);
      RunCore(cfg, before);
      StepBounded(cfg, Run(cfg, before), moves[|moves| - 1]);
    } else {
      assert Bounded(cfg, INIT);
    }
  }

  // ---------- Counting

  /** The executor calls of one thread for one request. */
  function CallsBy(history: seq<Execution>, pid: nat, id: string): seq<Execution> {
    if history == [] then []
    else
      var last := history[|history| - 1];
      CallsBy(history[..|history| - 1], pid, id) + (if last.pid == pid && last.id == id then [last] else [])
  }

  lemma LastIsLargest(history: seq<Execution>)
    requires Increasing(history) && history != []
    ensures var before, last := history[..|history| - 1], history[|history| - 1];
            && Increasing(before)
            && forall h <- before :: h.pid == last.pid && h.id == last.id ==> h.attempt < last.attempt
  {
    var last := |history| - 1;
    forall h <- history[..last] | h.pid == history[last].pid && h.id == history[last].id
      ensures h.attempt < history[last].attempt
    {
      var k :| 0 <= k < last && history[k] == h;
    }
  }

  lemma {:induction false} CallsByLast(history: seq<Execution>, pid: nat, id: string, max: int)
    requires Increasing(history) && max >= 0
    requires forall h <- history :: 1 <= h.attempt <= max
    ensures |CallsBy(history, pid, id)| <= max
    ensures forall h <- CallsBy(history, pid, id) :: h in history && h.pid == pid && h.id == id
    ensures var mine := CallsBy(history, pid, id); mine != [] ==> |mine| <= mine[|mine| - 1].attempt
  {
    if history != [] {
      var before, last := history[..|history| - 1], history[|history| - 1];
      LastIsLargest(history);
      hide Increasing;
      CallsByLast(before, pid, id, max);
    }
  }

  /** At most the budget of executor calls per thread and request, in any run. */
  lemma ExecutorCallCount(cfg: Config, moves: seq<Move>, pid: nat, id: string)
    requires cfg.maxAttempts >= 1
    ensures |CallsBy(Run(cfg, moves).history, pid, id)| <= cfg.maxAttempts
  {
    ExecutorCallsBounded(cfg, moves);
    CallsByLast(Run(cfg, moves).history, pid, id, cfg.maxAttempts);
  }

  /** The threads that have called the executor for this attempt number of a request. */
  function Callers(history: seq<Execution>, id: string, number: int): set<nat> {
    set h <- history | h.id == id && h.attempt == number :: h.pid
  }

  lemma LastCaller(before: seq<Execution>, last: Execution, id: string, number: int)
    ensures Callers(before + [last], id, number)
            == Callers(before, id, number) + if last.id == id && last.attempt == number then {last.pid} else {}
  {
  }

  /** No thread calls the executor for the same attempt number twice. */
  lemma {:induction false} OneCallPerThread(history: seq<Execution>, id: string, number: int)
    requires Increasing(history)
    ensures CountHistory(history, id, number) == |Callers(history, id, number)|
  {
    if history != [] {
      var before, last := history[..|history| - 1], history[|history| - 1];
      LastIsLargest(history);
      hide Increasing;
      OneCallPerThread(before, id, number);
      assert history == before + [last];
      LastCaller(before, last, id, number);
    }
  }

  lemma {:induction false} BelowCount(pids: set<nat>, bound: nat)
    requires forall pid <- pids :: pid < bound
    ensures |pids| <= bound
  {
    if bound > 0 {
      BelowCount(pids - {bound - 1}, bound - 1);
    } else {
      assert pids == {};
    }
  }

  /** Job runs follow, whoever executes: in any run the execution job runs of a request with a given attempt number,
      stored or owed, are as many as the threads that made that attempt; there are none outside 1 to the budget. */
  lemma RunsPerAttempt(cfg: Config, moves: seq<Move>, id: string, number: int)
    requires cfg.maxAttempts >= 1
    ensures var s := Run(cfg, moves);
            var callers := Callers(s.history, id, number);
            && Stored(s.db, id, Attempt(number)) + OwedByAll(s.calls, id, Attempt(number)) == |callers|
            && |callers| <= |s.calls|
            && (callers != {} ==> 1 <= number <= cfg.maxAttempts)
  {
    hide Run, Stored, OwedByAll;
    var s := Run(cfg, moves);
    TrailConserved(cfg, moves, id, Attempt(number));
    ExecutorCallsBounded(cfg, moves);
    OneCallPerThread(s.history, id, number);
    BelowCount(Callers(s.history, id, number), |s.calls|);
  }

  /** So when one thread does all the executing, the execution runs of a request carry distinct attempt numbers. */
  lemma OneRunPerAttempt(cfg: Config, moves: seq<Move>, pid: nat, id: string, number: int)
    requires cfg.maxAttempts >= 1
    requires forall h <- Run(cfg, moves).history :: h.pid == pid
    ensures var s := Run(cfg, moves);
            && Stored(s.db, id, Attempt(number)) + OwedByAll(s.calls, id, Attempt(number))
               == One(Execution(pid, id, number) in s.history)
            && (Execution(pid, id, number) in s.history ==> 1 <= number <= cfg.maxAttempts)
  {
    hide Run, Stored, OwedByAll;
    RunsPerAttempt(cfg, moves, id, number);
    var history := Run(cfg, moves).history;
    if Execution(pid, id, number) in history {
      assert Execution(pid, id, number).pid in Callers(history, id, number);
      assert Callers(history, id, number) == {pid};
    } else {
      assert Callers(history, id, number) == {};
    }
  }
}
