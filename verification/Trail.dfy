/** Conservation of the trail: nothing the workflow does goes unlogged and nothing is logged that was not done,
    counting what calls in flight still owe. */
module Trail {
  import opened Domain
  import opened Workflow
  import opened Database
  import opened Calls
  import opened Machine

  /** A kind of log row to count. */
  datatype Mark = Audit(action: Action) | Review(decision: Decision) | Reminder | Attempt(number: int)

  predicate RunMarks(run: JobRun, mark: Mark) {
    match mark
    case Reminder => run.kind == ReminderJob
    case Attempt(number) => run.kind == ExecutionJob && run.attempt == number
    case _ => false
  }

  function CountAudit(log: seq<AuditEntry>, mark: Mark): int {
    if log == [] then 0
    else CountAudit(log[..|log| - 1], mark) + One(mark == Audit(log[|log| - 1].action))
  }

  function CountReviews(log: seq<ReviewAction>, mark: Mark): int {
    if log == [] then 0
    else CountReviews(log[..|log| - 1], mark) + One(mark == Review(log[|log| - 1].decision))
  }

  function CountRuns(log: seq<JobRun>, mark: Mark): int {
    if log == [] then 0
    else CountRuns(log[..|log| - 1], mark) + One(RunMarks(log[|log| - 1], mark))
  }

  /** The log rows of a request with a given mark. */
  function Stored(db: Db, id: string, mark: Mark): int {
    CountAudit(Listed(db.audit, id), mark) + CountReviews(Listed(db.reviews, id), mark)
    + CountRuns(Listed(db.jobRuns, id), mark)
  }

  predicate OwedMarks(owed: Owed, id: string, mark: Mark) {
    match owed
    case OweAudit(request, _, action, _) => request == id && mark == Audit(action)
    case OweReview(review) => review.requestId == id && mark == Review(review.decision)
    case OweRun(run) => run.requestId == id && RunMarks(run, mark)
  }

  function CountOwed(owed: seq<Owed>, id: string, mark: Mark): int {
    if owed == [] then 0 else One(OwedMarks(owed[0], id, mark)) + CountOwed(owed[1..], id, mark)
  }

  /** What a call still has to append: its pending log rows, and the job run of an executor call already made. */
  function OwedBy(call: Call, id: string, mark: Mark): int {
    match call
    case Logging(_, owed, _) => CountOwed(owed, id, mark)
    case Swapping(_, snap, change, _, then_) => CountOwed(OwedRun(snap.id, snap.attempts + 1, change, then_), id, mark)
    case _ => 0
  }

  function OwedByAll(calls: seq<Call>, id: string, mark: Mark): int {
    if calls == [] then 0 else OwedByAll(calls[..|calls| - 1], id, mark) + OwedBy(calls[|calls| - 1], id, mark)
  }

  function CountHistory(history: seq<Execution>, id: string, number: int): int {
    if history == [] then 0
    else
      var last := history[|history| - 1];
      CountHistory(history[..|history| - 1], id, number) + One(last.id == id && last.attempt == number)
  }

  /** What the trail of a row should hold, read off the row alone. */
  function Earned(row: Request, mark: Mark): int {
    match mark
    case Audit(DraftCreated) => 1
    case Audit(RequestSubmitted) => One(row.status != Draft)
    case Audit(ReviewAssigned) => One(row.status != Draft)
    case Audit(ReminderSent) => row.reminders
    case Audit(RequestDecided(Approve)) => One(row.approvedAt.Some?)
    case Audit(RequestDecided(Reject)) => One(row.status == Rejected)
    case Audit(AttemptSucceeded) => One(row.status == Executed)
    case Audit(AttemptFailed) => row.attempts - One(row.status == Executed)
    case Review(Approve) => One(row.approvedAt.Some?)
    case Review(Reject) => One(row.status == Rejected)
    case Reminder => row.reminders
    case Attempt(_) => 0
  }

  /** What the trail should hold: as the row says, and one job run for every executor call ever made. */
  function Expected(rows: Rows, history: seq<Execution>, id: string, mark: Mark): int {
    (if id in rows then Earned(rows[id], mark) else 0)
    + (if mark.Attempt? then CountHistory(history, id, mark.number) else 0)
  }

  // ---------- One stage

  lemma CountAuditAppend(log: seq<AuditEntry>, e: AuditEntry, mark: Mark)
    ensures CountAudit(log + [e], mark) == CountAudit(log, mark) + One(mark == Audit(e.action))
  {
    assert (log + [e])[..|log|] == log;
  }

  lemma CountReviewsAppend(log: seq<ReviewAction>, e: ReviewAction, mark: Mark)
    ensures CountReviews(log + [e], mark) == CountReviews(log, mark) + One(mark == Review(e.decision))
  {
    assert (log + [e])[..|log|] == log;
  }

  lemma CountRunsAppend(log: seq<JobRun>, e: JobRun, mark: Mark)
    ensures CountRuns(log + [e], mark) == CountRuns(log, mark) + One(RunMarks(e, mark))
  {
    assert (log + [e])[..|log|] == log;
  }

  lemma CountHistoryAppend(history: seq<Execution>, e: Execution, id: string, number: int)
    ensures CountHistory(history + [e], id, number) == CountHistory(history, id, number)
            + One(e.id == id && e.attempt == number)
  {
    assert (history + [e])[..|history|] == history;
  }

  lemma StoresEntry(db: Db, entry: AuditEntry, id: string, mark: Mark)
    ensures Stored(AppendAudit(db, entry), id, mark)
            == Stored(db, id, mark) + One(entry.requestId == id && mark == Audit(entry.action))
  {
    hide CountAudit, CountReviews, CountRuns;
    CountAuditAppend(Listed(db.audit, entry.requestId), entry, mark);
  }

  lemma StoresReview(db: Db, review: ReviewAction, id: string, mark: Mark)
    ensures Stored(CreateReview(db, review), id, mark)
            == Stored(db, id, mark) + One(review.requestId == id && mark == Review(review.decision))
  {
    hide CountAudit, CountReviews, CountRuns;
    CountReviewsAppend(Listed(db.reviews, review.requestId), review, mark);
  }

  lemma StoresRun(db: Db, run: JobRun, id: string, mark: Mark)
    ensures Stored(AppendJobRun(db, run), id, mark) == Stored(db, id, mark)
            + One(run.requestId == id && RunMarks(run, mark))
  {
    hide CountAudit, CountReviews, CountRuns, RunMarks;
    CountRunsAppend(Listed(db.jobRuns, run.requestId), run, mark);
  }

  lemma AppendStores(db: Db, owed: Owed, now: Time, id: string, mark: Mark)
    ensures Stored(Append(db, owed, now), id, mark) == Stored(db, id, mark) + One(OwedMarks(owed, id, mark))
  {
    hide Stored, RunMarks, AppendAudit, CreateReview, AppendJobRun;
    match owed
    case OweAudit(request, actor, action, text) =>
      StoresEntry(db, AuditEntry(request, actor, action, text, now), id, mark);
    case OweReview(review) => StoresReview(db, review, id, mark);
    case OweRun(run) => StoresRun(db, run, id, mark);
  }

  lemma ContinueOwesNothing(reply: Reply, rest: Rest, id: string, mark: Mark)
    ensures OwedBy(Continue(reply, rest), id, mark) == 0
  {
  }

  lemma OwesNothing(call: Call, id: string, mark: Mark)
    requires !call.Swapping? && (call.Logging? ==> call.owed == [])
    ensures OwedBy(call, id, mark) == 0
  {
  }

  lemma LogOwes(row: Request, owed: seq<Owed>, rest: Rest, id: string, mark: Mark)
    ensures OwedBy(Log(row, owed, rest), id, mark) == CountOwed(owed, id, mark)
  {
  }

  lemma CountOwedFirst(first: Owed, rest: seq<Owed>, id: string, mark: Mark)
    ensures CountOwed([first] + rest, id, mark) == One(OwedMarks(first, id, mark)) + CountOwed(rest, id, mark)
  {
    assert ([first] + rest)[1..] == rest;
  }

  /** The marks a change puts on the trail. */
  function Leaves(change: Change, mark: Mark): int {
    match change
    case Submit(_) => One(mark == Audit(RequestSubmitted)) + One(mark == Audit(ReviewAssigned))
    case Decide(d, _, _) => One(mark == Review(d)) + One(mark == Audit(RequestDecided(d)))
    case Remind => One(mark == Audit(ReminderSent)) + One(mark == Reminder)
    case Execute(success, _) => One(mark == Audit(if success then AttemptSucceeded else AttemptFailed))
  }

  lemma ApplyEarns(cfg: Config, row: Request, actor: Actor, change: Change, at: Time, due: Option<Time>, mark: Mark)
    requires Shape(cfg, row) && Permitted(cfg, row, actor, change, at, due)
    ensures Earned(Apply(cfg, row, change, at), mark) == Earned(row, mark) + Leaves(change, mark)
  {
    hide TrimSpace, Schedule, DueForExecution, DueForReminder, CanReview, MaySubmit;
  }

  lemma OwesLeft(actor: Actor, change: Change, row: Request, at: Time, rest: Rest, id: string, mark: Mark)
    ensures CountOwed(Owes(actor, change, row, at, rest), id, mark) ==
              CountOwed(OwedRun(row.id, row.attempts, change, rest), id, mark)
              + (if id == row.id then Leaves(change, mark) else 0)
  {
    hide OwedRun, DecisionDescription, TrimSpace;
    var owed := Owes(actor, change, row, at, rest);
    if change.Execute? {
      CountOwedFirst(owed[0], OwedRun(row.id, row.attempts, change, rest), id, mark);
    } else {
      CountOwedFirst(owed[0], [owed[1]], id, mark);
      CountOwedFirst(owed[1], [], id, mark);
      assert owed == [owed[0]] + [owed[1]] && [owed[1]] == [owed[1]] + [];
      assert OwedRun(row.id, row.attempts, change, rest) == [] by {
        OwedRunIsForExecutions(row.id, row.attempts, change, rest);
      }
    }
  }

  /** What a stage adds to the trail, to what is owed and to what is expected balances, for every request and mark. */
  ghost predicate Balanced(pid: nat, call: Call, db: Db, call': Call, db': Db, id: string, mark: Mark) {
    Stored(db', id, mark) + OwedBy(call', id, mark) - Expected(db'.requests, Invocations(pid, call), id, mark)
    == Stored(db, id, mark) + OwedBy(call, id, mark) - Expected(db.requests, [], id, mark)
  }

  /** Only the request rows differ. */
  ghost predicate SameLogs(db: Db, db': Db) {
    db'.audit == db.audit && db'.reviews == db.reviews && db'.jobRuns == db.jobRuns
  }

  lemma SwapBalances(cfg: Config, pid: nat, call: Call, db: Db, id: string, mark: Mark)
    requires cfg.maxAttempts >= 1 && call.Swapping? && call.at.Some?
    requires RowsOk(cfg, db.requests) && CallOk(cfg, call, db.requests)
    ensures var (c, d) := Swap(cfg, call, db); Balanced(pid, call, db, c, d, id, mark)
  {
    hide Apply, Owes, OwedRun, RowsOk, Grows, SwapOk, RestOk, Perform, Log, Earned, CountOwed, Stored, Shape,
      Descends;
    var (c, d) := Swap(cfg, call, db);
    var snap, rest := call.snap, call.then_;
    var next := Apply(cfg, snap, call.change, call.at.value);
    ApplyKeepsId(cfg, snap, call.change, call.at.value);
    assert SameLogs(db, d);
    SameLogsStored(db, d, id, mark);
    if StageEvent(call, db) != [] {
      SwapWins(cfg, call, db);
      ApplyPermitted(cfg, call, mark);
      LogOwes(next, Owes(call.actor, call.change, next, call.at.value, rest), rest, id, mark);
      OwesLeft(call.actor, call.change, next, call.at.value, rest, id, mark);
      OwedRunAttempts(cfg, snap, call.change, call.at.value, rest);
    } else {
      LogOwes(snap, OwedRun(snap.id, snap.attempts + 1, call.change, rest), rest, id, mark);
      OwedRunNeedsBatch(snap, call.change, rest, id, mark);
    }
  }

  lemma SameLogsStored(db: Db, db': Db, id: string, mark: Mark)
    requires SameLogs(db, db')
    ensures Stored(db', id, mark) == Stored(db, id, mark)
  {
  }

  lemma ApplyPermitted(cfg: Config, call: Call, mark: Mark)
    requires call.Swapping? && call.at.Some? && Shape(cfg, call.snap) && SwapOk(cfg, call)
    ensures Earned(Apply(cfg, call.snap, call.change, call.at.value), mark) == Earned(call.snap, mark)
            + Leaves(call.change, mark)
  {
    hide Shape, Apply, Earned, Permitted;
    ApplyEarns(cfg, call.snap, call.actor, call.change, call.at.value, DueOf(call.then_), mark);
  }

  lemma OwedRunAttempts(cfg: Config, snap: Request, change: Change, at: Time, rest: Rest)
    ensures var next := Apply(cfg, snap, change, at);
            OwedRun(next.id, next.attempts, change, rest) == OwedRun(snap.id, snap.attempts + 1, change, rest)
  {
  }

  lemma OwedRunNeedsBatch(snap: Request, change: Change, rest: Rest, id: string, mark: Mark)
    ensures rest.Answer? ==> CountOwed(OwedRun(snap.id, snap.attempts + 1, change, rest), id, mark) == 0
  {
  }

  lemma InvokeOwes(cfg: Config, call: Call, input: Input, id: string, mark: Mark)
    requires call.Invoking? && call.batch != []
    ensures var snap := call.batch[0];
            OwedBy(Invoke(cfg, call, input), id, mark) == One(id == snap.id && mark == Attempt(snap.attempts + 1))
  {
    hide Continue, Outcome, AwaitsExecution;
    var snap := call.batch[0];
    var failure := Outcome(cfg, snap, input);
    var change := Execute(failure.None?, if failure.Some? then failure.value else "");
    var rest := Executing(call.now, call.batch[1..]);
    var owed := OwedRun(snap.id, snap.attempts + 1, change, rest);
    CountOwedFirst(owed[0], [], id, mark);
    assert owed == [owed[0]] + [];
    LogOwes(snap, owed, rest, id, mark);
  }

  /** The executor call is owed from the moment it is made. */
  lemma InvokeBalances(cfg: Config, pid: nat, call: Call, db: Db, input: Input, id: string, mark: Mark)
    requires call.Invoking? && call.batch != []
    ensures Balanced(pid, call, db, Invoke(cfg, call, input), db, id, mark)
  {
    hide Stored, Invoke, Earned;
    var execution := Execution(pid, call.batch[0].id, call.batch[0].attempts + 1);
    InvokeOwes(cfg, call, input, id, mark);
    assert Invocations(pid, call) == [] + [execution];
    if mark.Attempt? { CountHistoryAppend([], execution, id, mark.number); }
  }

  lemma CreateBalances(pid: nat, call: Call, db: Db, input: Input, id: string, mark: Mark)
    requires call.Creating? && FreshId(db, call.row.id) && IsNewDraft(call.row)
    ensures var owed := [OweAudit(call.row.id, call.actor, DraftCreated, "draft request created")];
            Balanced(pid, call, db, Logging(call.row, owed, Answer), PutRequest(db, call.row), id, mark)
  {
    SameLogsStored(db, PutRequest(db, call.row), id, mark);
    hide Stored;
    var owed := [OweAudit(call.row.id, call.actor, DraftCreated, "draft request created")];
    CountOwedFirst(owed[0], [], id, mark);
    assert owed == [owed[0]] + [];
  }

  lemma LogBalances(pid: nat, call: Call, db: Db, now: Time, id: string, mark: Mark)
    requires call.Logging? && call.owed != []
    ensures Balanced(pid, call, db, Log(call.row, call.owed[1..], call.then_), Append(db, call.owed[0], now), id, mark)
  {
    hide Stored, Append, Log, Earned, OwedMarks;
    AppendStores(db, call.owed[0], now, id, mark);
    AppendKeepsRows(db, call.owed[0], now);
    LogOwes(call.row, call.owed[1..], call.then_, id, mark);
  }

  /** The remaining stages write no request row and no log. */
  lemma QuietKeepsLogs(cfg: Config, call: Call, db: Db, input: Input)
    requires !call.Creating? && !call.Logging? && !(call.Swapping? && call.at.Some?)
    ensures var d := Act(cfg, call, db, input).1; d.requests == db.requests && SameLogs(db, d)
  {
    hide Fingerprint, ReviewScope, SubmitScope, Compound, Picks, StartSubmit, StartReview, StartResult, Invoke,
      Continue, FreshId;
  }

  lemma QuietOwes(cfg: Config, call: Call, db: Db, input: Input, id: string, mark: Mark)
    requires !call.Creating? && !call.Invoking? && !call.Logging? && !(call.Swapping? && call.at.Some?)
    ensures OwedBy(Act(cfg, call, db, input).0, id, mark) == OwedBy(call, id, mark)
  {
    ReadsOweNothing(db, call, id, mark);
    hide Fingerprint, ReviewScope, SubmitScope, Compound, Blank, TrimSpace, Picks, StartSubmit, StartReview,
      StartResult;
  }

  lemma QuietBalances(cfg: Config, pid: nat, call: Call, db: Db, input: Input, id: string, mark: Mark)
    requires !call.Creating? && !call.Invoking? && !call.Logging? && !(call.Swapping? && call.at.Some?)
    ensures var (c, d) := Act(cfg, call, db, input);
            Balanced(pid, call, db, c, d, id, mark)
  {
    hide Act, Stored, Earned, OwedBy;
    QuietKeepsLogs(cfg, call, db, input);
    QuietOwes(cfg, call, db, input, id, mark);
    SameLogsStored(db, Act(cfg, call, db, input).1, id, mark);
  }

  lemma ReadsOweNothing(db: Db, call: Call, id: string, mark: Mark)
    ensures call.SubmitRead? ==> OwedBy(StartSubmit(db, call.actor, call.id, call.key), id, mark) == 0
    ensures call.ReviewRead?
            ==> OwedBy(StartReview(db, call.actor, call.id, call.key, call.decision, call.comment), id, mark) == 0
    ensures call.ResultRead? ==> OwedBy(StartResult(db, call.actor, call.id, call.success, call.message), id, mark) == 0
  {
  }

  lemma IdleBalances(pid: nat, call: Call, db: Db, next: Call, id: string, mark: Mark)
    requires Invocations(pid, call) == [] && OwedBy(next, id, mark) == OwedBy(call, id, mark)
    ensures Balanced(pid, call, db, next, db, id, mark)
  {
  }

  lemma ActBalances(cfg: Config, pid: nat, call: Call, db: Db, input: Input, id: string, mark: Mark)
    requires cfg.maxAttempts >= 1
    requires RowsOk(cfg, db.requests) && CallOk(cfg, call, db.requests)
    ensures var (c, d) := Act(cfg, call, db, input); Balanced(pid, call, db, c, d, id, mark)
  {
    hide RowsOk, Swap, Invoke, Stored, Earned, Append, Log, Continue, RestOk, Picks, ClaimSubmit, ClaimReview,
      StartSubmit, StartReview, StartResult, AfterReviewKey, RefuseReview, OwedRun, OwedBy, Balanced, Expected;
    match call
    case Creating(_, row) =>
      if FreshId(db, row.id) { CreateBalances(pid, call, db, input, id, mark); }
      else { IdleBalances(pid, call, db, call, id, mark); }
    case Invoking(_, batch) =>
      if batch != [] { InvokeBalances(cfg, pid, call, db, input, id, mark); }
      else {
        OwesNothing(call, id, mark);
        OwesNothing(Done(Finished), id, mark);
        IdleBalances(pid, call, db, Done(Finished), id, mark);
      }
    case Swapping(_, _, _, at, _) =>
      if at.Some? {
        SwapBalances(cfg, pid, call, db, id, mark);
      } else {
        QuietBalances(cfg, pid, call, db, input, id, mark);
      }
    case Logging(row, owed, rest) =>
      if owed != [] { LogBalances(pid, call, db, input.now, id, mark); }
      else {
        ContinueOwesNothing(Returned(row), rest, id, mark);
        OwesNothing(call, id, mark);
        IdleBalances(pid, call, db, Continue(Returned(row), rest), id, mark);
      }
    case _ => QuietBalances(cfg, pid, call, db, input, id, mark);
  }

  // ---------- All threads

  lemma {:induction false} OwedUpdate(calls: seq<Call>, pid: nat, call: Call, id: string, mark: Mark)
    requires pid < |calls|
    ensures OwedByAll(calls[pid := call], id, mark) == OwedByAll(calls, id, mark) - OwedBy(calls[pid], id, mark)
            + OwedBy(call, id, mark)
  {
    var last := |calls| - 1;
    if pid < last {
      OwedUpdate(calls[..last], pid, call, id, mark);
      assert calls[pid := call][..last] == calls[..last][pid := call];
    } else {
      assert calls[pid := call][..last] == calls[..last];
    }
  }

  lemma {:induction false} HistoryAppend(history: seq<Execution>, more: seq<Execution>, id: string, number: int)
    ensures CountHistory(history + more, id, number) == CountHistory(history, id, number)
            + CountHistory(more, id, number)
  {
    if more == [] {
      assert history + more == history;
    } else {
      var last := |more| - 1;
      HistoryAppend(history, more[..last], id, number);
      assert (history + more)[..|history + more| - 1] == history + more[..last];
    }
  }

  /** The trail of a state is in balance. */
  ghost predicate Conserved(s: System, id: string, mark: Mark) {
    Stored(s.db, id, mark) + OwedByAll(s.calls, id, mark) == Expected(s.db.requests, s.history, id, mark)
  }

  lemma StageConserves(cfg: Config, s: System, move: Move, id: string, mark: Mark)
    requires cfg.maxAttempts >= 1 && Core(cfg, s) && Conserved(s, id, mark) && move.Stage? && move.pid < |s.calls|
    ensures Conserved(Step(cfg, s, move), id, mark)
  {
    hide Act, Stored, Earned, OwedBy, OwedByAll, CallOk, RowsOk, CountHistory, Invocations;
    var (call, db) := StageOf(cfg, s, move);
    ActBalances(cfg, move.pid, s.calls[move.pid], s.db, Input(s.clock, move.pick, move.outcome), id, mark);
    OwedUpdate(s.calls, move.pid, call, id, mark);
    if mark.Attempt? { HistoryAppend(s.history, Invocations(move.pid, s.calls[move.pid]), id, mark.number); }
    if mark.Attempt? { assert CountHistory([], id, mark.number) == 0 by { NothingCounted(id, mark.number); } }
  }

  lemma NothingCounted(id: string, number: int)
    ensures CountHistory([], id, number) == 0
  {
  }

  lemma StepConserves(cfg: Config, s: System, move: Move, id: string, mark: Mark)
    requires cfg.maxAttempts >= 1 && Core(cfg, s) && Conserved(s, id, mark)
    ensures Conserved(Step(cfg, s, move), id, mark)
  {
    hide Act, Stored, Earned, OwedBy, CallOk, RowsOk;
    if move.Stage? && move.pid < |s.calls| {
      StageConserves(cfg, s, move, id, mark);
    } else if move.Begin? && Initial(move.call) {
      OwesNothing(move.call, id, mark);
      if move.pid == |s.calls| {
        assert (s.calls + [move.call])[..|s.calls|] == s.calls;
      } else if move.pid < |s.calls| && s.calls[move.pid].Done? {
        OwesNothing(s.calls[move.pid], id, mark);
        OwedUpdate(s.calls, move.pid, move.call, id, mark);
      }
    }
  }

  /** Conservation of the trail: in every reachable state, for every request and every kind of log row, what is
      stored plus what calls in flight still owe is what the row itself says was done, and each executor call ever
      made has exactly one job run with its attempt number, stored or owed. */
  lemma {:induction false} TrailConserved(cfg: Config, moves: seq<Move>, id: string, mark: Mark)
    requires cfg.maxAttempts >= 1
    ensures Conserved(Run(cfg, moves), id, mark)
  {
    if moves != [] {
      hide Step, Core, Conserved;
      TrailConserved(cfg, moves[..|moves| - 1], id, mark);
      RunCore(cfg, moves[..|moves| - 1]);
      StepConserves(cfg, Run(cfg, moves[..|moves| - 1]), moves[|moves| - 1], id, mark);
    } else {
      assert Conserved(INIT, id, mark);
    }
  }

  // ---------- Lengths

  /** The sum of `count` over all audit actions. */
  ghost function OverActions(count: Action -> int): int {
    count(DraftCreated) + count(RequestSubmitted) + count(ReviewAssigned) + count(ReminderSent)
    + count(RequestDecided(Approve)) + count(RequestDecided(Reject)) + count(AttemptSucceeded) + count(AttemptFailed)
  }

  lemma {:induction false} AuditLength(log: seq<AuditEntry>)
    ensures |log| == OverActions(a => CountAudit(log, Audit(a)))
  {
    if log != [] {
      var before, last := log[..|log| - 1], log[|log| - 1].action;
      AuditLength(before);
      assert forall a: Action :: CountAudit(log, Audit(a)) == CountAudit(before, Audit(a)) + One(a == last);
      match last
      case RequestDecided(d) => if d == Approve {} else {}
      case _ =>
    }
  }

  lemma {:induction false} OnlyItsOwnMarks(reviews: seq<ReviewAction>, runs: seq<JobRun>, action: Action)
    ensures CountReviews(reviews, Audit(action)) == 0 && CountRuns(runs, Audit(action)) == 0
    decreases |reviews| + |runs|
  {
    if reviews != [] { OnlyItsOwnMarks(reviews[..|reviews| - 1], runs, action); }
    if runs != [] { OnlyItsOwnMarks(reviews, runs[..|runs| - 1], action); }
  }

  /** In every reachable state the audit log of a request is as long as its version, plus one for the second entry
      of a submission, less the entries that calls in flight still owe. */
  lemma AuditLengthIsVersion(cfg: Config, moves: seq<Move>, id: string)
    requires cfg.maxAttempts >= 1 && id in Run(cfg, moves).db.requests
    ensures var s := Run(cfg, moves);
            var row := s.db.requests[id];
            |Listed(s.db.audit, id)| + OverActions(a => OwedByAll(s.calls, id, Audit(a))) == row.version
              + One(row.status != Draft)
  {
    var s := Run(cfg, moves);
    RowShape(cfg, moves, id);
    AuditLength(Listed(s.db.audit, id));
    hide Run, OwedByAll, CountAudit;
    forall action: Action
      ensures CountAudit(Listed(s.db.audit, id), Audit(action)) + OwedByAll(s.calls, id, Audit(action))
              == Earned(s.db.requests[id], Audit(action))
    {
      TrailConserved(cfg, moves, id, Audit(action));
      OnlyItsOwnMarks(Listed(s.db.reviews, id), Listed(s.db.jobRuns, id), action);
    }
  }
}
