/** When calls run one after the other, the audit log alone tells where every request stands. */
module AuditReplay {
  import opened Domain
  import opened Workflow
  import opened Database
  import opened Calls
  import opened Machine

  /** The workflow read off the audit log: where a request stands, or that the log makes no sense. */
  datatype Standing = Unborn | At(status: Status, version: int, reminders: int, attempts: int, routed: bool) | Senseless

  function Advance(at: Standing, action: Action): Standing {
    match (at, action)
    case (Unborn, DraftCreated) => At(Draft, 1, 0, 0, false)
    case (At(Draft, v, r, n, false), RequestSubmitted) => At(PendingReview, v + 1, r, n, false)
    case (At(PendingReview, v, r, n, false), ReviewAssigned) => At(PendingReview, v, r, n, true)
    case (At(PendingReview, v, r, n, true), ReminderSent) => At(PendingReview, v + 1, r + 1, n, true)
    case (At(PendingReview, v, r, n, true), RequestDecided(d)) => At(DecidedStatus(d), v + 1, r, n, true)
    case (At(Approved, v, r, n, true), AttemptSucceeded) => At(Executed, v + 1, r, n + 1, true)
    case (At(Approved, v, r, n, true), AttemptFailed) => At(ExecutionFailed, v + 1, r, n + 1, true)
    case (At(ExecutionFailed, v, r, n, true), AttemptSucceeded) => At(Executed, v + 1, r, n + 1, true)
    case (At(ExecutionFailed, v, r, n, true), AttemptFailed) => At(ExecutionFailed, v + 1, r, n + 1, true)
    case _ => Senseless
  }

  function Fold(actions: seq<Action>): Standing {
    if actions == [] then Unborn else Advance(Fold(actions[..|actions| - 1]), actions[|actions| - 1])
  }

  function Actions(log: seq<AuditEntry>): seq<Action> {
    seq(|log|, i requires 0 <= i < |log| => log[i].action)
  }

  function OwedActions(owed: seq<Owed>, id: string): seq<Action> {
    if owed == [] then []
    else (if owed[0].OweAudit? && owed[0].id == id then [owed[0].action] else []) + OwedActions(owed[1..], id)
  }

  function Unsaid(call: Call, id: string): seq<Action> {
    if call.Logging? then OwedActions(call.owed, id) else []
  }

  /** Where the stored row stands. */
  function Stands(rows: Rows, id: string): Standing {
    if id in rows
    then At(rows[id].status, rows[id].version, rows[id].reminders, rows[id].attempts, rows[id].status != Draft)
    else Unborn
  }

  /** The log of a request, completed with what the running call owes it, tells where its row stands. */
  ghost predicate Told(call: Call, db: Db, id: string) {
    Fold(Actions(Listed(db.audit, id)) + Unsaid(call, id)) == Stands(db.requests, id)
  }

  lemma FoldLast(actions: seq<Action>, action: Action)
    ensures Fold(actions + [action]) == Advance(Fold(actions), action)
  {
    assert (actions + [action])[..|actions|] == actions;
  }

  lemma LogSays(row: Request, owed: seq<Owed>, rest: Rest, id: string)
    ensures Unsaid(Log(row, owed, rest), id) == OwedActions(owed, id)
  {
  }

  lemma OwedRunIsSilent(id: string, attempt: int, change: Change, rest: Rest, other: string)
    ensures OwedActions(OwedRun(id, attempt, change, rest), other) == []
  {
  }

  lemma OwedFirst(first: Owed, rest: seq<Owed>, id: string)
    ensures OwedActions([first] + rest, id)
            == (if first.OweAudit? && first.id == id then [first.action] else []) + OwedActions(rest, id)
  {
    assert ([first] + rest)[1..] == rest;
  }

  /** The audit actions of a change. */
  function ActionsOf(change: Change): seq<Action> {
    match change
    case Submit(_) => [RequestSubmitted, ReviewAssigned]
    case Decide(d, _, _) => [RequestDecided(d)]
    case Remind => [ReminderSent]
    case Execute(success, _) => [if success then AttemptSucceeded else AttemptFailed]
  }

  lemma OwesSays(actor: Actor, change: Change, row: Request, at: Time, rest: Rest, id: string)
    ensures OwedActions(Owes(actor, change, row, at, rest), id) == if id == row.id then ActionsOf(change) else []
  {
    hide OwedRun, DecisionDescription, TrimSpace;
    var owed := Owes(actor, change, row, at, rest);
    if change.Execute? {
      OwedFirst(owed[0], OwedRun(row.id, row.attempts, change, rest), id);
      OwedRunIsSilent(row.id, row.attempts, change, rest, id);
    } else {
      assert owed[1..] == [owed[1]] + [];
      OwedFirst(owed[0], owed[1..], id);
      OwedFirst(owed[1], [], id);
      assert owed == [owed[0]] + owed[1..];
      if !change.Execute? { OwedRunIsForExecutions(row.id, row.attempts, change, rest); }
    }
  }

  /** The automaton follows every permitted change. */
  lemma ChangeTold(cfg: Config, row: Request, actor: Actor, change: Change, at: Time, due: Option<Time>,
                   told: seq<Action>)
    requires Permitted(cfg, row, actor, change, at, due)
    requires Fold(told) == Stands(map[row.id := row], row.id)
    ensures Fold(told + ActionsOf(change)) == Stands(map[row.id := Apply(cfg, row, change, at)], row.id)
  {
    hide TrimSpace, CanReview, MaySubmit, Fold;
    if change.Submit? {
      FoldLast(told, RequestSubmitted);
      FoldLast(told + [RequestSubmitted], ReviewAssigned);
      assert told + ActionsOf(change) == told + [RequestSubmitted] + [ReviewAssigned];
    } else {
      FoldLast(told, ActionsOf(change)[0]);
      assert ActionsOf(change) == [ActionsOf(change)[0]];
    }
  }

  lemma SwapTold(cfg: Config, call: Call, db: Db, id: string)
    requires cfg.maxAttempts >= 1 && call.Swapping? && call.at.Some?
    requires RowsOk(cfg, db.requests) && CallOk(cfg, call, db.requests) && Told(call, db, id)
    ensures var (c, d) := Swap(cfg, call, db); Told(c, d, id)
  {
    hide Shape, Apply, Owes, OwedRun, RestOk, Log, Permitted, Fold, Actions, Grows, Descends, ActionsOf;
    var (c, d) := Swap(cfg, call, db);
    var snap, rest := call.snap, call.then_;
    var next := Apply(cfg, snap, call.change, call.at.value);
    var told := Actions(Listed(db.audit, id));
    ApplyKeepsId(cfg, snap, call.change, call.at.value);
    assert told + [] == told;
    if StageEvent(call, db) != [] {
      SwapWins(cfg, call, db);
      LogSays(next, Owes(call.actor, call.change, next, call.at.value, rest), rest, id);
      OwesSays(call.actor, call.change, next, call.at.value, rest, id);
      if id == snap.id { ChangeTold(cfg, snap, call.actor, call.change, call.at.value, DueOf(rest), told); }
    } else {
      LogSays(snap, OwedRun(snap.id, snap.attempts + 1, call.change, rest), rest, id);
      OwedRunIsSilent(snap.id, snap.attempts + 1, call.change, rest, id);
    }
  }

  function Said(owed: Owed, id: string): seq<Action> {
    if owed.OweAudit? && owed.id == id then [owed.action] else []
  }

  lemma AppendSays(db: Db, owed: Owed, now: Time, id: string)
    ensures Actions(Listed(Append(db, owed, now).audit, id)) == Actions(Listed(db.audit, id)) + Said(owed, id)
    ensures Append(db, owed, now).requests == db.requests
  {
    var log := Listed(db.audit, id);
    assert Actions(log) + [] == Actions(log);
    if owed.OweAudit? && owed.id == id {
      var entry := AuditEntry(id, owed.actor, owed.action, owed.description, now);
      assert Actions(log + [entry]) == Actions(log) + [entry.action];
    }
  }

  lemma AppendTold(call: Call, db: Db, now: Time, id: string)
    requires call.Logging? && call.owed != [] && Told(call, db, id)
    ensures Told(Log(call.row, call.owed[1..], call.then_), Append(db, call.owed[0], now), id)
  {
    hide Fold, Log, Append, Actions, Listed;
    LogSays(call.row, call.owed[1..], call.then_, id);
    AppendSays(db, call.owed[0], now, id);
    var told, first, rest := Actions(Listed(db.audit, id)), Said(call.owed[0], id), OwedActions(call.owed[1..], id);
    assert told + first + rest == told + (first + rest);
  }

  lemma CreateTold(call: Call, db: Db, id: string)
    requires call.Creating? && FreshId(db, call.row.id) && IsNewDraft(call.row) && Told(call, db, id)
    ensures Told(Logging(call.row, [OweAudit(call.row.id, call.actor, DraftCreated, "draft request created")], Answer),
                 PutRequest(db, call.row), id)
  {
    hide Fold, Actions;
    var told := Actions(Listed(db.audit, id));
    var owed := OweAudit(call.row.id, call.actor, DraftCreated, "draft request created");
    OwedFirst(owed, [], id);
    assert [owed] + [] == [owed];
    assert Unsaid(call, id) == [] && told + [] == told;
    assert OwedActions([owed], id) == if id == call.row.id then [DraftCreated] else [];
    FoldLast(told, DraftCreated);
  }

  /** The other stages neither write a row or an audit entry nor owe one. */
  lemma QuietTold(cfg: Config, call: Call, db: Db, input: Input, id: string)
    requires !call.Creating? && !(call.Logging? && call.owed != []) && !(call.Swapping? && call.at.Some?)
    ensures var (c, d) := Act(cfg, call, db, input);
            Unsaid(c, id) == Unsaid(call, id) && d.requests == db.requests && d.audit == db.audit
  {
    hide Fingerprint, ReviewScope, SubmitScope, Compound, Blank, TrimSpace, CanReview, MaySubmit, Picks, Outcome;
    if call.Invoking? && call.batch != [] { InvokeSays(cfg, call, input, id); }
  }

  lemma InvokeSays(cfg: Config, call: Call, input: Input, id: string)
    requires call.Invoking? && call.batch != []
    ensures Unsaid(Invoke(cfg, call, input), id) == []
  {
    hide Outcome, AwaitsExecution, OwedRun;
    var snap := call.batch[0];
    var failure := Outcome(cfg, snap, input);
    var change := Execute(failure.None?, if failure.Some? then failure.value else "");
    var rest := Executing(call.now, call.batch[1..]);
    OwedRunIsSilent(snap.id, snap.attempts + 1, change, rest, id);
    LogSays(snap, OwedRun(snap.id, snap.attempts + 1, change, rest), rest, id);
  }

  /** A stage that neither writes nor owes anything new keeps the log telling. */
  lemma SameTold(call: Call, db: Db, call': Call, db': Db, id: string)
    requires Told(call, db, id)
    requires Unsaid(call', id) == Unsaid(call, id) && db'.requests == db.requests && db'.audit == db.audit
    ensures Told(call', db', id)
  {
  }

  lemma ActTold(cfg: Config, call: Call, db: Db, input: Input, id: string)
    requires cfg.maxAttempts >= 1
    requires RowsOk(cfg, db.requests) && CallOk(cfg, call, db.requests) && Told(call, db, id)
    ensures var (c, d) := Act(cfg, call, db, input); Told(c, d, id)
  {
    hide RowsOk, Told, Unsaid, Append, Log, Swap, Picks, IsNewDraft;
    if call.Creating? {
      if FreshId(db, call.row.id) {
        CreateTold(call, db, id);
      }
    } else if call.Logging? && call.owed != [] {
      AppendTold(call, db, input.now, id);
    } else if call.Swapping? && call.at.Some? {
      SwapTold(cfg, call, db, id);
    } else {
      hide Act, CallOk;
      QuietTold(cfg, call, db, input, id);
      var (c, d) := Act(cfg, call, db, input);
      SameTold(call, db, c, d, id);
    }
  }

  // ---------- Calls one after the other

  /** A call left alone keeps the core, descends the rows and keeps the log telling. */
  lemma {:induction false} AfterTold(cfg: Config, call: Call, db: Db, inputs: seq<Input>, id: string)
    requires cfg.maxAttempts >= 1
    requires RowsOk(cfg, db.requests) && CallOk(cfg, call, db.requests) && Told(call, db, id)
    ensures var (c, d) := After(cfg, call, db, inputs);
            RowsOk(cfg, d.requests) && CallOk(cfg, c, d.requests) && Told(c, d, id)
  {
    if inputs != [] {
      hide Act, RowsOk, CallOk, Told;
      AfterTold(cfg, call, db, inputs[..|inputs| - 1], id);
      var (c, d) := After(cfg, call, db, inputs[..|inputs| - 1]);
      ActCore(cfg, c, d, inputs[|inputs| - 1]);
      ActTold(cfg, c, d, inputs[|inputs| - 1], id);
    }
  }

  /** A call together with everything the world supplies to it. */
  datatype Job = Job(call: Call, inputs: seq<Input>)

  /** The store after complete calls made one after the other. */
  ghost function Serial(cfg: Config, jobs: seq<Job>): Db {
    if jobs == [] then EMPTY
    else
      var last := jobs[|jobs| - 1];
      After(cfg, last.call, Serial(cfg, jobs[..|jobs| - 1]), last.inputs).1
  }

  ghost predicate Complete(cfg: Config, jobs: seq<Job>) {
    forall i :: 0 <= i < |jobs| ==>
      Initial(jobs[i].call) && After(cfg, jobs[i].call, Serial(cfg, jobs[..i]), jobs[i].inputs).0.Done?
  }

  /** Audit replay: after any sequence of complete calls, folding the audit log of any request through the workflow
      automaton is accepted and yields the status, version, reminder count and attempt count of its row; a request
      without a row has no log. */
  lemma {:induction false} AuditReplays(cfg: Config, jobs: seq<Job>, id: string)
    requires cfg.maxAttempts >= 1 && Complete(cfg, jobs)
    ensures var db := Serial(cfg, jobs);
            RowsOk(cfg, db.requests) && Fold(Actions(Listed(db.audit, id))) == Stands(db.requests, id)
  {
    var log := Actions(Listed(Serial(cfg, jobs).audit, id));
    if jobs != [] {
      hide Fold, Actions, RowsOk, After;
      var before, last := jobs[..|jobs| - 1], jobs[|jobs| - 1];
      forall i | 0 <= i < |before| ensures jobs[..i] == before[..i] && jobs[i] == before[i] {}
      AuditReplays(cfg, before, id);
      var db := Serial(cfg, before);
      InitialOk(cfg, last.call, db.requests);
      assert Actions(Listed(db.audit, id)) + [] == Actions(Listed(db.audit, id));
      assert Told(last.call, db, id);
      AfterTold(cfg, last.call, db, last.inputs, id);
      assert log + [] == log;
    } else {
      assert log == [];
    }
  }
}
