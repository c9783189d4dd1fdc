/** What the worker's two calls promise, in plain terms: whom they list, and what is written for each listed row. `met`
    are the stores a call meets at its stages. */
module WorkerPromises {
  import opened Domain
  import opened Workflow
  import opened Database
  import opened Calls
  import opened Machine
  import opened Stages
  import opened Meetings
  import opened Promises
  import opened Strings

  // ---------- Listing

  /** The rows that a reminder pass lists at `now`: pending ones submitted, and last reminded if at all, a reminder
      period ago; each once, within the limit, and all reminded longer ago unless the limit stopped the scan. */
  lemma ReminderAnswers(rows: Rows, cutoff: Time, limit: int, pick: seq<Request>)
    ensures PicksReminders(rows, cutoff, limit, pick) <==>
      && (forall r <- pick ::
            && r.id in rows && rows[r.id] == r
            && r.status == PendingReview && r.submittedAt.Some? && r.submittedAt.value <= cutoff
            && (r.remindedAt.Some? ==> r.remindedAt.value <= cutoff))
      && (forall i, j :: 0 <= i < j < |pick| ==> pick[i].id != pick[j].id)
      && (limit > 0 ==> |pick| <= limit)
      && (|pick| < (if limit > 0 then limit else 25) ==>
            forall id <- rows ::
              && rows[id].status == PendingReview && rows[id].submittedAt.Some? && rows[id].submittedAt.value <= cutoff
              && (rows[id].remindedAt.Some? ==> rows[id].remindedAt.value < cutoff)
              ==> rows[id] in pick)
  {
  }

  /** The rows that an execution pass lists at `now`: those awaiting execution whose next time has come. */
  lemma ExecutionAnswers(rows: Rows, now: Time, limit: int, pick: seq<Request>)
    ensures PicksExecutions(rows, now, limit, pick) <==>
      && (forall r <- pick ::
            && r.id in rows && rows[r.id] == r && r.status in {Approved, ExecutionFailed}
            && r.nextAt.Some? && r.nextAt.value <= now)
      && (forall i, j :: 0 <= i < j < |pick| ==> pick[i].id != pick[j].id)
      && (limit > 0 ==> |pick| <= limit)
      && (|pick| < (if limit > 0 then limit else 25) ==>
            forall id <- rows ::
              && rows[id].status in {Approved, ExecutionFailed} && rows[id].nextAt.Some? && rows[id].nextAt.value <= now
              ==> rows[id] in pick)
  {
  }

  /** A reminder call reads the clock, and goes on with an answer of the query a reminder period before. */
  lemma ReminderLists(cfg: Config, limit: int, met: seq<Met>)
    requires |met| == 2
    requires PicksReminders(met[1].db.requests, met[0].input.now - cfg.reminderAfter, limit, met[1].input.pick)
    ensures var call := RemindStart(limit);
            && Through(cfg, call, met) == Continue(Finished, Reminding(met[0].input.now, met[1].input.pick))
            && Spares(cfg, call, met, 0)
  {
    hide Through, Left, Act, Continue, PicksReminders;
    var call, now := RemindStart(limit), met[0].input.now;
    AtFirst(cfg, call, met);
    Next(cfg, call, met, 0);
    ListingStages(cfg, limit, now, met[0].db, met[0].input);
    Next(cfg, call, met, 1);
    ListingStages(cfg, limit, now, met[1].db, met[1].input);
    assert met[..2] == met;
  }

  lemma ExecutionLists(cfg: Config, limit: int, met: seq<Met>)
    requires |met| == 2
    requires PicksExecutions(met[1].db.requests, met[0].input.now, limit, met[1].input.pick)
    ensures var call := ExecuteStart(limit);
            && Through(cfg, call, met) == Continue(Finished, Executing(met[0].input.now, met[1].input.pick))
            && Spares(cfg, call, met, 0)
  {
    hide Through, Left, Act, Continue, PicksExecutions;
    var call, now := ExecuteStart(limit), met[0].input.now;
    AtFirst(cfg, call, met);
    Next(cfg, call, met, 0);
    ListingStages(cfg, limit, now, met[0].db, met[0].input);
    Next(cfg, call, met, 1);
    ListingStages(cfg, limit, now, met[1].db, met[1].input);
    assert met[..2] == met;
  }

  /** After its last row a worker's call is over. */
  lemma BatchOver(now: Time)
    ensures Continue(Finished, Reminding(now, [])) == Done(Finished)
    ensures Continue(Finished, Executing(now, [])) == Done(Finished)
  {
  }

  /** One job run is appended to the log of its request. */
  predicate LogsRun(before: Db, after: Db, run: JobRun) {
    after == before.(jobRuns := before.jobRuns[run.requestId := Listed(before.jobRuns, run.requestId) + [run]])
  }

  // ---------- One row of a reminder pass

  lemma ReminderWrites(cfg: Config, row: Request, now: Time)
    ensures Apply(cfg, row, Remind, now)
            == row.(reminders := row.reminders + 1, remindedAt := Some(now), updatedAt := now, version := row.version
                    + 1)
  {
  }

  lemma ReminderSwaps(cfg: Config, call: Call, met: seq<Met>, row: Request, now: Time, rest: Rest)
    requires |met| >= 1 && rest.Reminding? && call == Swapping(SYSTEM, row, Remind, Some(now), rest)
    ensures var db := met[0].db;
            var next := Apply(cfg, row, Remind, now);
            if row.id in db.requests && db.requests[row.id].version == row.version then
              && Left(cfg, call, met, 0) == db.(requests := db.requests[row.id := next])
              && Through(cfg, call, met[..1]) == Log(next, Owes(SYSTEM, Remind, next, now, rest), rest)
            else Left(cfg, call, met, 0) == db && Through(cfg, call, met[..1]) == Continue(Finished, rest)
  {
    hide Through, Left, Act, Apply, Owes, Log, Continue;
    AtFirst(cfg, call, met);
    Next(cfg, call, met, 0);
    SwappingStage(cfg, call, met[0].db, met[0].input);
    ApplyKeepsId(cfg, row, Remind, now);
    ContinueAnyReply(Returned(row), Finished, rest);
    NothingOwed(row, Remind, rest);
  }

  lemma NothingOwed(row: Request, change: Change, rest: Rest)
    ensures !change.Execute?
            ==> Log(row, OwedRun(row.id, row.attempts + 1, change, rest), rest) == Continue(Returned(row), rest)
  {
  }

  lemma ReminderLogs(cfg: Config, call: Call, met: seq<Met>, next: Request, now: Time, rest: Rest)
    requires |met| == 3 && rest.Reminding?
    requires Through(cfg, call, met[..1]) == Log(next, Owes(SYSTEM, Remind, next, now, rest), rest)
    ensures Through(cfg, call, met) == Continue(Finished, rest)
    ensures Logs(met[1].db, Left(cfg, call, met, 1), AuditEntry(
              next.id, Actor("system", Admin), ReminderSent, "review reminder generated", met[1].input.now))
    ensures LogsRun(met[2].db, Left(cfg, call, met, 2),
              JobRun(next.id, ReminderJob, true, next.reminders, "reminder recorded", now))
  {
    hide Through, Left, Continue;
    var owed := Owes(SYSTEM, Remind, next, now, rest);
    assert |owed| == 2 && owed[1..][1..] == [];
    LogMet(cfg, call, met, 1, next, owed, rest);
    LogMet(cfg, call, met, 2, next, owed[1..], rest);
    ContinueAnyReply(Returned(next), Finished, rest);
    assert met[..3] == met;
  }

  /** A listed row that has not changed is reminded once more, at the time the pass began, with an audit entry and a job
      run that counts its reminders. */
  lemma RowReminds(cfg: Config, now: Time, batch: seq<Request>, met: seq<Met>)
    requires batch != [] && |met| == 3
    requires var (row, db) := (batch[0], met[0].db); row.id in db.requests && db.requests[row.id].version == row.version
    ensures var call := Continue(Finished, Reminding(now, batch));
            var (row, db) := (batch[0], met[0].db);
            var next := row.(reminders := row.reminders + 1, remindedAt := Some(now), updatedAt := now,
                             version := row.version + 1);
            && Through(cfg, call, met) == Continue(Finished, Reminding(now, batch[1..]))
            && Left(cfg, call, met, 0) == db.(requests := db.requests[row.id := next])
            && Logs(met[1].db, Left(cfg, call, met, 1), AuditEntry(
                 row.id, Actor("system", Admin), ReminderSent, "review reminder generated", met[1].input.now))
            && LogsRun(met[2].db, Left(cfg, call, met, 2),
                 JobRun(row.id, ReminderJob, true, row.reminders + 1, "reminder recorded", now))
  {
    hide Through, Left, Continue, Logs, LogsRun, Owes, Apply;
    var call, row, rest := Continue(Finished, Reminding(now, batch)), batch[0], Reminding(now, batch[1..]);
    ContinueReminds(now, batch);
    ReminderSwaps(cfg, call, met, row, now, rest);
    ReminderWrites(cfg, row, now);
    ReminderLogs(cfg, call, met, Apply(cfg, row, Remind, now), now, rest);
  }

  /** A listed row that has changed is passed over, and nothing is written. */
  lemma RowNotReminded(cfg: Config, now: Time, batch: seq<Request>, met: seq<Met>)
    requires batch != [] && |met| == 1
    requires var (row, db) := (batch[0], met[0].db);
             row.id !in db.requests || db.requests[row.id].version != row.version
    ensures var call := Continue(Finished, Reminding(now, batch));
            && Through(cfg, call, met) == Continue(Finished, Reminding(now, batch[1..]))
            && Spares(cfg, call, met, 0)
  {
    hide Through, Left, Continue, Owes, Apply;
    var call := Continue(Finished, Reminding(now, batch));
    ContinueReminds(now, batch);
    ReminderSwaps(cfg, call, met, batch[0], now, Reminding(now, batch[1..]));
    assert met[..1] == met;
  }

  // ---------- One row of an execution pass

  /** What the executor says of a row: the simulated one fails every target with "fail" in it, in any case. */
  lemma OutcomeMeans(cfg: Config, row: Request, input: Input)
    ensures Outcome(cfg, row, input) ==
      if !cfg.simulated then input.outcome
      else if exists p: string, q: string :: Lowered(row.target) == p + "fail" + q
      then Some("simulated provisioning failure for " + row.target) else None
  {
    FailMeans(row.target);
  }

  /** The job run for an executor call on a row, made at `now`. */
  function RunOf(row: Request, failure: Option<string>, now: Time): JobRun {
    match failure
    case None => JobRun(row.id, ExecutionJob, true, row.attempts + 1, "execution completed", now)
    case Some(message) => JobRun(row.id, ExecutionJob, false, row.attempts + 1, message, now)
  }

  ghost predicate Awaits(row: Request) {
    row.status in {Approved, ExecutionFailed}
  }

  lemma Invokes(cfg: Config, now: Time, batch: seq<Request>, met: seq<Met>)
    requires batch != [] && |met| >= 1
    ensures var call := Continue(Finished, Executing(now, batch));
            var (row, rest) := (batch[0], Executing(now, batch[1..]));
            var failure := Outcome(cfg, row, met[0].input);
            var change := Execute(failure.None?, if failure.Some? then failure.value else "");
            && Left(cfg, call, met, 0) == met[0].db
            && Through(cfg, call, met[..1]) ==
                 if Awaits(row) then Swapping(SYSTEM, row, change, None, rest)
                 else Log(row, [OweRun(RunOf(row, failure, now))], rest)
  {
    hide Through, Left, Act, Outcome, Continue, Log;
    var call := Continue(Finished, Executing(now, batch));
    ContinueInvokes(now, batch);
    AtFirst(cfg, call, met);
    Next(cfg, call, met, 0);
    InvokingStage(cfg, now, batch, met[0].db, met[0].input);
  }

  lemma ExecutionSwaps(cfg: Config, call: Call, met: seq<Met>, row: Request, failure: Option<string>, rest: Rest)
    requires |met| >= 3 && rest.Executing?
    requires var change := Execute(failure.None?, if failure.Some? then failure.value else "");
             Through(cfg, call, met[..1]) == Swapping(SYSTEM, row, change, None, rest)
    ensures var change := Execute(failure.None?, if failure.Some? then failure.value else "");
            var (at, db) := (met[1].input.now, met[2].db);
            var next := Apply(cfg, row, change, at);
            && Left(cfg, call, met, 1) == met[1].db
            && if row.id in db.requests && db.requests[row.id].version == row.version then
                 && Left(cfg, call, met, 2) == db.(requests := db.requests[row.id := next])
                 && Through(cfg, call, met[..3]) == Log(next, Owes(SYSTEM, change, next, at, rest), rest)
               else
                 && Left(cfg, call, met, 2) == db
                 && Through(cfg, call, met[..3]) == Log(row, [OweRun(RunOf(row, failure, rest.now))], rest)
  {
    hide Through, Left, Act, Apply, Owes, Log;
    var change := Execute(failure.None?, if failure.Some? then failure.value else "");
    var pending := Swapping(SYSTEM, row, change, None, rest);
    Next(cfg, call, met, 1);
    SwappingStage(cfg, pending, met[1].db, met[1].input);
    Next(cfg, call, met, 2);
    SwappingStage(cfg, pending.(at := Some(met[1].input.now)), met[2].db, met[2].input);
    ApplyKeepsId(cfg, row, change, met[1].input.now);
  }

  lemma RunMet(cfg: Config, call: Call, met: seq<Met>, row: Request, run: JobRun, rest: Rest)
    requires met != [] && rest.Executing?
    requires Through(cfg, call, met[..|met| - 1]) == Log(row, [OweRun(run)], rest)
    ensures Through(cfg, call, met) == Continue(Finished, rest)
    ensures LogsRun(met[|met| - 1].db, Left(cfg, call, met, |met| - 1), run)
  {
    hide Through, Left, Continue;
    var last := |met| - 1;
    var owed := [OweRun(run)];
    assert owed[1..] == [];
    LogMet(cfg, call, met, last, row, owed, rest);
    ContinueAnyReply(Returned(row), Finished, rest);
    assert met[..last + 1] == met;
  }

  lemma ExecutionLogs(cfg: Config, call: Call, met: seq<Met>, row: Request, next: Request, failure: Option<string>,
                      at: Time,
                      rest: Rest)
    requires |met| == 5 && rest.Executing? && next.id == row.id && next.attempts == row.attempts + 1
    requires var change := Execute(failure.None?, if failure.Some? then failure.value else "");
             Through(cfg, call, met[..3]) == Log(next, Owes(SYSTEM, change, next, at, rest), rest)
    ensures Through(cfg, call, met) == Continue(Finished, rest)
    ensures Logs(met[3].db, Left(cfg, call, met, 3), AuditEntry(
              row.id, Actor("system", Admin), if failure.None? then AttemptSucceeded else AttemptFailed,
              if failure.None? then "request executed successfully"
                else "execution failed: " + TrimSpace(failure.value),
              met[3].input.now))
    ensures LogsRun(met[4].db, Left(cfg, call, met, 4), RunOf(row, failure, rest.now))
  {
    hide Through, Left, Continue, TrimSpace;
    var change := Execute(failure.None?, if failure.Some? then failure.value else "");
    var owed := Owes(SYSTEM, change, next, at, rest);
    assert |owed| == 2 && owed[1..] == [OweRun(RunOf(row, failure, rest.now))];
    LogMet(cfg, call, met, 3, next, owed, rest);
    RunMet(cfg, call, met, next, RunOf(row, failure, rest.now), rest);
  }

  /** A listed row that has not changed is executed and takes the executor's outcome: executed, or failed with a retry
      while there is budget; an audit entry and a job run of the same outcome follow. */
  lemma RowExecutes(cfg: Config, now: Time, batch: seq<Request>, met: seq<Met>)
    requires batch != [] && |met| == 5 && Awaits(batch[0])
    requires var (row, db) := (batch[0], met[2].db); row.id in db.requests && db.requests[row.id].version == row.version
    ensures var call := Continue(Finished, Executing(now, batch));
            var (row, at, db) := (batch[0], met[1].input.now, met[2].db);
            var failure := Outcome(cfg, row, met[0].input);
            var tried := row.(attempts := row.attempts + 1, updatedAt := at, version := row.version + 1);
            var next :=
              if failure.None? then tried.(status := Executed, executedAt := Some(at), nextAt := None, lastError := "")
              else tried.(status := ExecutionFailed, lastError := TrimSpace(failure.value),
                          nextAt := if row.attempts + 1 < cfg.maxAttempts
                                    then Some(at + (row.attempts + 1) * cfg.retryBase) else None);
            && Through(cfg, call, met) == Continue(Finished, Executing(now, batch[1..]))
            && Left(cfg, call, met, 0) == met[0].db && Left(cfg, call, met, 1) == met[1].db
            && Left(cfg, call, met, 2) == db.(requests := db.requests[row.id := next])
            && Logs(met[3].db, Left(cfg, call, met, 3), AuditEntry(
                 row.id, Actor("system", Admin), if failure.None? then AttemptSucceeded else AttemptFailed,
                 if failure.None? then "request executed successfully"
                 else "execution failed: " + TrimSpace(failure.value), met[3].input.now))
            && LogsRun(met[4].db, Left(cfg, call, met, 4), JobRun(
                 row.id, ExecutionJob, failure.None?, row.attempts + 1,
                 if failure.None? then "execution completed" else failure.value, now))
  {
    hide Through, Left, Continue, Logs, LogsRun, Owes, Apply, Outcome, TrimSpace;
    var call, row, rest := Continue(Finished, Executing(now, batch)), batch[0], Executing(now, batch[1..]);
    var failure, at := Outcome(cfg, row, met[0].input), met[1].input.now;
    var change := Execute(failure.None?, if failure.Some? then failure.value else "");
    Invokes(cfg, now, batch, met);
    ExecutionSwaps(cfg, call, met, row, failure, rest);
    ReportWrites(cfg, row, change.success, change.message, at);
    ExecutionLogs(cfg, call, met, row, Apply(cfg, row, change, at), failure, at, rest);
  }

  /** A listed row that has changed is executed all the same; only the job run is written. */
  lemma RowExecutedInVain(cfg: Config, now: Time, batch: seq<Request>, met: seq<Met>)
    requires batch != [] && |met| == 4 && Awaits(batch[0])
    requires var (row, db) := (batch[0], met[2].db);
             row.id !in db.requests || db.requests[row.id].version != row.version
    ensures var call := Continue(Finished, Executing(now, batch));
            && Through(cfg, call, met) == Continue(Finished, Executing(now, batch[1..]))
            && Left(cfg, call, met, 0) == met[0].db && Left(cfg, call, met, 1) == met[1].db
            && Left(cfg, call, met, 2) == met[2].db
            && var (row, failure) := (batch[0], Outcome(cfg, batch[0], met[0].input));
               LogsRun(met[3].db, Left(cfg, call, met, 3), JobRun(
                 row.id, ExecutionJob, failure.None?, row.attempts + 1,
                 if failure.None? then "execution completed" else failure.value, now))
  {
    hide Through, Left, Continue, LogsRun, Owes, Apply, Outcome;
    var call, row, rest := Continue(Finished, Executing(now, batch)), batch[0], Executing(now, batch[1..]);
    var failure := Outcome(cfg, row, met[0].input);
    Invokes(cfg, now, batch, met);
    ExecutionSwaps(cfg, call, met, row, failure, rest);
    RunMet(cfg, call, met, row, RunOf(row, failure, now), rest);
  }
}
