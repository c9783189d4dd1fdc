/** Whatever is due gets done: undisturbed passes with room for every due row leave none of them out. */
module DueWork {
  import opened Domain
  import opened Workflow
  import opened Database
  import opened Calls
  import opened Passes
  import opened PassCalls
  import opened Promises
  import opened WorkerPromises

  lemma {:induction false} RemindedAt(cfg: Config, rows: Rows, batch: seq<Request>, now: Time, i: nat)
    requires i < |batch| && forall j, k :: 0 <= j < k < |batch| ==> batch[j].id != batch[k].id
    ensures var after := RemindBatch(cfg, rows, batch, now);
            batch[i].id in after && after[batch[i].id] == Apply(cfg, batch[i], Remind, now)
  {
    hide Apply;
    var last := |batch| - 1;
    if i < last { RemindedAt(cfg, rows, batch[..last], now, i); }
  }

  /** Distinct stored rows are no more than the table holds. */
  lemma {:induction false} PicksFit(rows: Rows, pick: seq<Request>)
    requires forall i :: 0 <= i < |pick| ==> pick[i].id in rows
    requires forall i, j :: 0 <= i < j < |pick| ==> pick[i].id != pick[j].id
    ensures |pick| <= |rows|
  {
    IdsCount(pick);
    SubsetSize(Ids(pick), rows.Keys);
  }

  lemma DueIsListed(rows: Rows, cutoff: Time, limit: int, pick: seq<Request>, id: string) returns (i: nat)
    requires PicksReminders(rows, cutoff, limit, pick) && limit > |rows| && id in rows
    requires var row := rows[id];
             && row.status == PendingReview && row.submittedAt.Some? && row.submittedAt.value <= cutoff
             && (row.remindedAt.Some? ==> row.remindedAt.value < cutoff)
    ensures i < |pick| && pick[i] == rows[id]
    ensures forall j, k :: 0 <= j < k < |pick| ==> pick[j].id != pick[k].id
  {
    hide PicksReminders;
    ReminderAnswers(rows, cutoff, limit, pick);
    assert forall i :: 0 <= i < |pick| ==> pick[i] in pick;
    PicksFit(rows, pick);
    i :| 0 <= i < |pick| && pick[i] == rows[id];
  }

  /** Every pending request submitted, and last reminded if at all, more than a reminder period ago is reminded by an
      undisturbed reminder call whose limit leaves room for all rows; and a request is reminded by such a call only if
      it is pending and that long ago. */
  lemma DueIsReminded(cfg: Config, db: Db, limit: int, inputs: seq<Input>, id: string)
    requires Reminds(cfg, db.requests, limit, inputs) && limit > |db.requests|
    requires id in db.requests && db.requests[id].id == id
    requires var row := db.requests[id];
             var cutoff := inputs[0].now - cfg.reminderAfter;
             && row.status == PendingReview && row.submittedAt.Some? && row.submittedAt.value <= cutoff
             && (row.remindedAt.Some? ==> row.remindedAt.value < cutoff)
    ensures var (row, now) := (db.requests[id], inputs[0].now);
            var (c, d) := After(cfg, RemindStart(limit), db, inputs);
            && c == Done(Finished) && id in d.requests
            && d.requests[id] == row.(reminders := row.reminders + 1, remindedAt := Some(now), updatedAt := now,
                                      version := row.version + 1)
  {
    var now, pick, row := inputs[0].now, inputs[1].pick, db.requests[id];
    hide After, PicksReminders, RemindBatch, Apply;
    var i := DueIsListed(db.requests, now - cfg.reminderAfter, limit, pick, id);
    ReminderCallAlone(cfg, db, limit, inputs);
    RemindedAt(cfg, db.requests, pick, now, i);
    ReminderWrites(cfg, row, now);
  }

  /** No other row is touched: one that is not pending, or was submitted or reminded too recently. */
  lemma NotDueIsSpared(cfg: Config, db: Db, limit: int, inputs: seq<Input>, id: string)
    requires Reminds(cfg, db.requests, limit, inputs)
    requires id in db.requests && db.requests[id].id == id
    requires var row := db.requests[id];
             var cutoff := inputs[0].now - cfg.reminderAfter;
             || row.status != PendingReview || row.submittedAt.None? || row.submittedAt.value > cutoff
             || (row.remindedAt.Some? && row.remindedAt.value > cutoff)
    ensures var d := After(cfg, RemindStart(limit), db, inputs).1; id in d.requests && d.requests[id] == db.requests[id]
  {
    var now, pick, row := inputs[0].now, inputs[1].pick, db.requests[id];
    hide After, PicksReminders, RemindBatch, Apply;
    ReminderAnswers(db.requests, now - cfg.reminderAfter, limit, pick);
    ReminderCallAlone(cfg, db, limit, inputs);
    RemindKeepsOthers(cfg, db.requests, pick, now, id);
  }

  /** Every request that awaits execution and whose next time has come is executed by an undisturbed execution call
      whose limit leaves room for all rows. */
  lemma DueIsExecuted(cfg: Config, db: Db, limit: int, inputs: seq<Input>, id: string)
    requires Executes(db.requests, limit, inputs) && limit > |db.requests|
    requires id in db.requests && db.requests[id].id == id
    requires var row := db.requests[id];
             row.status in {Approved, ExecutionFailed} && row.nextAt.Some? && row.nextAt.value <= inputs[0].now
    ensures var row := db.requests[id];
            var (c, d) := After(cfg, ExecuteStart(limit), db, inputs);
            && c == Done(Finished) && id in d.requests
            && d.requests[id].attempts == row.attempts + 1 && d.requests[id].version == row.version + 1
            && d.requests[id].status in {Executed, ExecutionFailed}
  {
    var now, pick, row := inputs[0].now, inputs[1].pick, db.requests[id];
    hide After, PicksExecutions, RunBatch, Apply, Outcome;
    ExecutionAnswers(db.requests, now, limit, pick);
    assert forall i :: 0 <= i < |pick| ==> pick[i] in pick;
    PicksFit(db.requests, pick);
    assert row in pick;
    var i :| 0 <= i < |pick| && pick[i] == row;
    ExecutionCallAlone(cfg, db, limit, inputs);
    var results := ResultsOf(cfg, pick, inputs[2..]);
    Recorded(cfg, db.requests, pick, results, i);
    var change := ChangeOf(results[i]);
    ReportWrites(cfg, row, change.success, change.message, results[i].at);
  }
}
