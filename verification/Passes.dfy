/** The worker as a scheduler: sequences of worker passes, each reminding and then executing, with no other writer
    between them. PassCalls shows that these are its calls. */
module Passes {
  import opened Domain
  import opened Workflow
  import opened Database
  import opened Calls
  import opened Machine
  import opened WorkerRuns

  /** What happened to one row of a batch: the executor's error, if any, and the clock when its result was recorded. */
  datatype Result = Result(failure: Option<string>, at: Time)

  /** One worker pass: when its reminder half began and whom it reminded, when its execution half began and what it
      executed, with which results. Both halves have the worker's batch size as their limit. */
  datatype Pass = Pass(
    limit: int,
    nudgedAt: Time,
    nudged: seq<Request>,
    now: Time,
    batch: seq<Request>,
    results: seq<Result>)

  function ChangeOf(result: Result): Change {
    Execute(result.failure.None?, if result.failure.Some? then result.failure.value else "")
  }

  /** The rows after a pass has recorded the results of its batch. */
  function RunBatch(cfg: Config, rows: Rows, batch: seq<Request>, results: seq<Result>): Rows
    requires |results| == |batch|
  {
    if batch == [] then rows
    else
      var last := |batch| - 1;
      RunBatch(cfg, rows, batch[..last], results[..last])
        [batch[last].id := Apply(cfg, batch[last], ChangeOf(results[last]), results[last].at)]
  }

  /** The rows after a reminder pass over its batch. */
  function RemindBatch(cfg: Config, rows: Rows, batch: seq<Request>, now: Time): Rows {
    if batch == [] then rows
    else
      var last := |batch| - 1;
      RemindBatch(cfg, rows, batch[..last], now)[batch[last].id := Apply(cfg, batch[last], Remind, now)]
  }

  function Nudged(cfg: Config, rows: Rows, p: Pass): Rows {
    RemindBatch(cfg, rows, p.nudged, p.nudgedAt)
  }

  function RunPass(cfg: Config, rows: Rows, p: Pass): Rows {
    if |p.results| != |p.batch| then Nudged(cfg, rows, p)
    else RunBatch(cfg, Nudged(cfg, rows, p), p.batch, p.results)
  }

  /** The execution half of a pass over these rows: its batch answers the due-work query, its results come from the
      executor, and the clock does not run backwards during it. */
  ghost predicate Serving(cfg: Config, rows: Rows, p: Pass) {
    && PicksExecutions(rows, p.now, p.limit, p.batch)
    && |p.results| == |p.batch|
    && forall i :: 0 <= i < |p.batch| ==>
         && p.now <= p.results[i].at
         && (cfg.simulated ==> p.results[i].failure == Simulate(p.batch[i]))
  }

  ghost predicate PassOk(cfg: Config, rows: Rows, p: Pass) {
    && PicksReminders(rows, p.nudgedAt - cfg.reminderAfter, p.limit, p.nudged)
    && Serving(cfg, Nudged(cfg, rows, p), p)
  }

  ghost function RunPasses(cfg: Config, rows: Rows, passes: seq<Pass>): Rows {
    if passes == [] then rows
    else RunPass(cfg, RunPasses(cfg, rows, passes[..|passes| - 1]), passes[|passes| - 1])
  }

  ghost predicate PassesOk(cfg: Config, rows: Rows, passes: seq<Pass>) {
    forall i :: 0 <= i < |passes| ==> PassOk(cfg, RunPasses(cfg, rows, passes[..i]), passes[i])
  }

  // ---------- The reminder half

  /** A reminder pass touches pending rows only, and nothing in them that execution depends on. */
  predicate Spared(a: Request, b: Request) {
    a == b || (a.status == PendingReview == b.status && a.nextAt == None == b.nextAt && a.attempts == b.attempts)
  }

  ghost predicate AllSpared(before: Rows, after: Rows) {
    after.Keys == before.Keys && forall id <- before :: Spared(before[id], after[id])
  }

  ghost predicate Listing(cfg: Config, rows: Rows, batch: seq<Request>, now: Time) {
    && (forall i :: 0 <= i < |batch| ==>
          && batch[i].id in rows && rows[batch[i].id] == batch[i]
          && DueForReminder(batch[i], now - cfg.reminderAfter, false))
    && (forall i, j :: 0 <= i < j < |batch| ==> batch[i].id != batch[j].id)
  }

  lemma RemindSpares(cfg: Config, row: Request, now: Time)
    requires cfg.maxAttempts >= 1 && Shape(cfg, row) && DueForReminder(row, now - cfg.reminderAfter, false)
    ensures Spared(row, Apply(cfg, row, Remind, now))
  {
  }

  lemma {:induction false} RemindKeepsOthers(cfg: Config, rows: Rows, batch: seq<Request>, now: Time, id: string)
    requires id in rows && forall q <- batch :: q.id != id
    ensures var after := RemindBatch(cfg, rows, batch, now); id in after && after[id] == rows[id]
  {
    if batch != [] {
      hide Apply;
      RemindKeepsOthers(cfg, rows, batch[..|batch| - 1], now, id);
    }
  }

  lemma {:induction false} RemindKeepsRows(cfg: Config, rows: Rows, batch: seq<Request>, now: Time)
    requires cfg.maxAttempts >= 1 && RowsOk(cfg, rows) && Listing(cfg, rows, batch, now)
    ensures var after := RemindBatch(cfg, rows, batch, now);
            RowsOk(cfg, after) && Grows(rows, after) && AllSpared(rows, after)
  {
    hide Apply, Shape, Descends, DueForReminder, Spared;
    if batch == [] {
      GrowsReflexive(rows);
      forall id <- rows ensures Spared(rows[id], rows[id]) { SparedReflexive(rows[id]); }
    } else {
      var last := |batch| - 1;
      RemindKeepsRows(cfg, rows, batch[..last], now);
      RemindKeepsOthers(cfg, rows, batch[..last], now, batch[last].id);
      RemindOne(cfg, rows, RemindBatch(cfg, rows, batch[..last], now), batch[last], now);
    }
  }

  lemma SparedReflexive(row: Request)
    ensures Spared(row, row)
  {
  }

  lemma RemindOne(cfg: Config, rows: Rows, middle: Rows, row: Request, now: Time)
    requires cfg.maxAttempts >= 1 && RowsOk(cfg, middle) && Grows(rows, middle) && AllSpared(rows, middle)
    requires row.id in rows && rows[row.id] == row && middle[row.id] == row
    requires DueForReminder(row, now - cfg.reminderAfter, false)
    ensures var after := middle[row.id := Apply(cfg, row, Remind, now)];
            RowsOk(cfg, after) && Grows(rows, after) && AllSpared(rows, after)
  {
    var after := middle[row.id := Apply(cfg, row, Remind, now)];
    RemindSpares(cfg, row, now);
    hide Apply, Shape, Descends, DueForReminder, Spared, Grows, RowsOk;
    PerformKeepsRows(cfg, middle, Changed(row.id, SYSTEM, Remind, now, Some(now)));
    GrowsTransitive(rows, middle, after);
  }

  lemma PickLists(cfg: Config, rows: Rows, p: Pass)
    requires PassOk(cfg, rows, p)
    ensures Listing(cfg, rows, p.nudged, p.nudgedAt)
  {
    hide DueForReminder, Serving;
  }

  /** The reminder half of a pass keeps the rows sound and spares the execution queue. */
  lemma NudgesSpare(cfg: Config, rows: Rows, p: Pass)
    requires cfg.maxAttempts >= 1 && RowsOk(cfg, rows) && PassOk(cfg, rows, p)
    ensures var middle := Nudged(cfg, rows, p);
            && RowsOk(cfg, middle) && Grows(rows, middle) && AllSpared(rows, middle)
            && Serving(cfg, middle, p)
  {
    hide RowsOk, Grows, AllSpared, Serving, Listing, RemindBatch;
    PickLists(cfg, rows, p);
    RemindKeepsRows(cfg, rows, p.nudged, p.nudgedAt);
  }

  // ---------- A batch

  lemma {:induction false} Untouched(cfg: Config, rows: Rows, batch: seq<Request>, results: seq<Result>, id: string)
    requires |results| == |batch| && forall q <- batch :: q.id != id
    ensures var after := RunBatch(cfg, rows, batch, results);
            (id in after <==> id in rows) && (id in rows ==> after[id] == rows[id])
  {
    if batch != [] {
      hide Apply;
      Untouched(cfg, rows, batch[..|batch| - 1], results[..|batch| - 1], id);
    }
  }

  lemma {:induction false} Recorded(cfg: Config, rows: Rows, batch: seq<Request>, results: seq<Result>, i: nat)
    requires |results| == |batch| && i < |batch|
    requires forall j, k :: 0 <= j < k < |batch| ==> batch[j].id != batch[k].id
    ensures var after := RunBatch(cfg, rows, batch, results);
            batch[i].id in after && after[batch[i].id] == Apply(cfg, batch[i], ChangeOf(results[i]), results[i].at)
  {
    hide Apply;
    var last := |batch| - 1;
    if i < last { Recorded(cfg, rows, batch[..last], results[..last], i); }
  }

  /** A row of the batch carries its result, any other is as it was. */
  lemma BatchRows(cfg: Config, rows: Rows, batch: seq<Request>, results: seq<Result>, id: string)
    requires |results| == |batch|
    requires forall j, k :: 0 <= j < k < |batch| ==> batch[j].id != batch[k].id
    ensures var after := RunBatch(cfg, rows, batch, results);
            && (id in after <==> id in rows || exists q <- batch :: q.id == id)
            && ((forall q <- batch :: q.id != id) && id in rows ==> after[id] == rows[id])
            && forall i :: 0 <= i < |batch| && batch[i].id == id ==>
                 (id in after && after[id] == Apply(cfg, batch[i], ChangeOf(results[i]), results[i].at))
  {
    hide RunBatch, Apply;
    if i :| 0 <= i < |batch| && batch[i].id == id {
      Recorded(cfg, rows, batch, results, i);
    } else {
      Untouched(cfg, rows, batch, results, id);
    }
  }

  ghost predicate AllFatedRows(cfg: Config, rows: Rows) {
    forall id <- rows :: Fated(cfg, rows[id])
  }

  /** A recorded result keeps shape, budget and fate. */
  lemma ResultOk(cfg: Config, row: Request, now: Time, result: Result)
    requires cfg.maxAttempts >= 1 && Shape(cfg, row) && DueForExecution(row, now)
    ensures var next := Apply(cfg, row, ChangeOf(result), result.at);
            Shape(cfg, next) && Descends(row, next)
  {
    hide Shape, Descends, Apply;
    ApplyKeepsShape(cfg, row, SYSTEM, ChangeOf(result), result.at, Some(now));
  }

  lemma ResultFated(cfg: Config, row: Request, now: Time, result: Result)
    requires cfg.maxAttempts >= 1 && Shape(cfg, row) && Fated(cfg, row) && DueForExecution(row, now)
    requires cfg.simulated ==> result.failure == Simulate(row)
    ensures Fated(cfg, Apply(cfg, row, ChangeOf(result), result.at))
  {
    hide MentionsFail, TrimSpace;
  }

  lemma ServingKeepsRows(cfg: Config, rows: Rows, p: Pass)
    requires cfg.maxAttempts >= 1 && RowsOk(cfg, rows) && Serving(cfg, rows, p)
    ensures var after := RunBatch(cfg, rows, p.batch, p.results);
            RowsOk(cfg, after) && Grows(rows, after) && after.Keys == rows.Keys
  {
    var after := RunBatch(cfg, rows, p.batch, p.results);
    hide Shape, Descends, Apply, RunBatch, DueForExecution;
    forall id
      ensures (id in after <==> id in rows)
      ensures id in after ==> after[id].id == id && Shape(cfg, after[id]) && Descends(rows[id], after[id])
    {
      BatchRows(cfg, rows, p.batch, p.results, id);
      if i :| 0 <= i < |p.batch| && p.batch[i].id == id {
        ResultOk(cfg, p.batch[i], p.now, p.results[i]);
        ApplyKeepsId(cfg, p.batch[i], ChangeOf(p.results[i]), p.results[i].at);
      } else if id in rows {
        DescendsReflexive(rows[id]);
      }
    }
  }

  lemma DescendsReflexive(row: Request)
    ensures Descends(row, row)
  {
  }

  lemma ServingKeepsFate(cfg: Config, rows: Rows, p: Pass)
    requires cfg.maxAttempts >= 1 && RowsOk(cfg, rows) && AllFatedRows(cfg, rows) && Serving(cfg, rows, p)
    ensures AllFatedRows(cfg, RunBatch(cfg, rows, p.batch, p.results))
  {
    var after := RunBatch(cfg, rows, p.batch, p.results);
    hide Shape, Apply, RunBatch, DueForExecution, Fated, Simulate;
    forall id <- after ensures Fated(cfg, after[id]) {
      BatchRows(cfg, rows, p.batch, p.results, id);
      if i :| 0 <= i < |p.batch| && p.batch[i].id == id {
        ResultFated(cfg, p.batch[i], p.now, p.results[i]);
      }
    }
  }

  lemma FateSpared(cfg: Config, before: Rows, after: Rows)
    requires AllSpared(before, after) && AllFatedRows(cfg, before)
    ensures AllFatedRows(cfg, after)
  {
    hide MentionsFail;
  }

  lemma PassKeepsRows(cfg: Config, rows: Rows, p: Pass)
    requires cfg.maxAttempts >= 1 && RowsOk(cfg, rows) && PassOk(cfg, rows, p)
    ensures var after := RunPass(cfg, rows, p);
            RowsOk(cfg, after) && Grows(rows, after) && (AllFatedRows(cfg, rows) ==> AllFatedRows(cfg, after))
  {
    hide RowsOk, Grows, AllFatedRows, AllSpared, PassOk, RunBatch, PicksExecutions, Nudged;
    var middle := Nudged(cfg, rows, p);
    NudgesSpare(cfg, rows, p);
    ServingKeepsRows(cfg, middle, p);
    GrowsTransitive(rows, middle, RunPass(cfg, rows, p));
    if AllFatedRows(cfg, rows) {
      FateSpared(cfg, rows, middle);
      ServingKeepsFate(cfg, middle, p);
    }
  }

  lemma {:induction false} PassesKeepRows(cfg: Config, rows: Rows, passes: seq<Pass>)
    requires cfg.maxAttempts >= 1 && RowsOk(cfg, rows) && PassesOk(cfg, rows, passes)
    ensures var after := RunPasses(cfg, rows, passes);
            RowsOk(cfg, after) && Grows(rows, after) && (AllFatedRows(cfg, rows) ==> AllFatedRows(cfg, after))
  {
    if passes == [] {
      GrowsReflexive(rows);
    } else {
      hide RowsOk, Grows, AllFatedRows, PassOk, RunPass;
      var before, p := passes[..|passes| - 1], passes[|passes| - 1];
      PrefixOk(cfg, rows, passes);
      PassesKeepRows(cfg, rows, before);
      var middle := RunPasses(cfg, rows, before);
      PassKeepsRows(cfg, middle, p);
      GrowsTransitive(rows, middle, RunPasses(cfg, rows, passes));
    }
  }

  lemma PrefixOk(cfg: Config, rows: Rows, passes: seq<Pass>)
    requires passes != [] && PassesOk(cfg, rows, passes)
    ensures var before := passes[..|passes| - 1];
            PassesOk(cfg, rows, before) && PassOk(cfg, RunPasses(cfg, rows, before), passes[|passes| - 1])
  {
    hide PassOk, RunPasses;
    var before := passes[..|passes| - 1];
    forall i | 0 <= i < |before| ensures PassOk(cfg, RunPasses(cfg, rows, before[..i]), before[i]) {
      assert before[..i] == passes[..i] && before[i] == passes[i];
    }
  }

  // ---------- Drain

  /** Attempts a queued row may still take. */
  ghost function Weight(cfg: Config, row: Request): nat {
    if row.nextAt.Some? && row.attempts < cfg.maxAttempts then cfg.maxAttempts - row.attempts else 0
  }

  /** The attempts that all queued rows may still take. */
  ghost function Budget(cfg: Config, rows: Rows): nat {
    if rows == map[] then 0
    else
      var id :| id in rows;
      Weight(cfg, rows[id]) + Budget(cfg, rows - {id})
  }

  lemma {:induction false} BudgetWithout(cfg: Config, rows: Rows, id: string)
    requires id in rows
    ensures Budget(cfg, rows) == Weight(cfg, rows[id]) + Budget(cfg, rows - {id})
  {
    var first :| first in rows && Budget(cfg, rows) == Weight(cfg, rows[first]) + Budget(cfg, rows - {first});
    if first != id {
      BudgetWithout(cfg, rows - {first}, id);
      BudgetWithout(cfg, rows - {id}, first);
      assert rows - {first} - {id} == rows - {id} - {first};
    }
  }

  lemma BudgetUpdate(cfg: Config, rows: Rows, id: string, row: Request)
    requires id in rows
    ensures Budget(cfg, rows[id := row]) + Weight(cfg, rows[id]) == Budget(cfg, rows) + Weight(cfg, row)
  {
    BudgetWithout(cfg, rows, id);
    BudgetWithout(cfg, rows[id := row], id);
    assert rows[id := row] - {id} == rows - {id};
  }

  lemma ResultSpends(cfg: Config, row: Request, now: Time, result: Result)
    requires cfg.maxAttempts >= 1 && Shape(cfg, row) && DueForExecution(row, now)
    ensures Weight(cfg, Apply(cfg, row, ChangeOf(result), result.at)) + 1 <= Weight(cfg, row)
  {
    hide TrimSpace;
  }

  lemma {:induction false} BatchSpends(cfg: Config, rows: Rows, batch: seq<Request>, results: seq<Result>, now: Time)
    requires cfg.maxAttempts >= 1 && RowsOk(cfg, rows) && |results| == |batch|
    requires forall i :: 0 <= i < |batch| ==>
               batch[i].id in rows && rows[batch[i].id] == batch[i] && DueForExecution(batch[i], now)
    requires forall i, j :: 0 <= i < j < |batch| ==> batch[i].id != batch[j].id
    ensures Budget(cfg, RunBatch(cfg, rows, batch, results)) + |batch| <= Budget(cfg, rows)
  {
    if batch != [] {
      hide Shape, Apply, Weight, DueForExecution;
      var last := |batch| - 1;
      BatchSpends(cfg, rows, batch[..last], results[..last], now);
      BatchRows(cfg, rows, batch[..last], results[..last], batch[last].id);
      var before := RunBatch(cfg, rows, batch[..last], results[..last]);
      BudgetUpdate(cfg, before, batch[last].id, Apply(cfg, batch[last], ChangeOf(results[last]), results[last].at));
      ResultSpends(cfg, batch[last], now, results[last]);
    }
  }

  function Served(passes: seq<Pass>): nat {
    if passes == [] then 0 else Served(passes[..|passes| - 1]) + |passes[|passes| - 1].batch|
  }

  lemma ServingSpends(cfg: Config, rows: Rows, p: Pass)
    requires cfg.maxAttempts >= 1 && RowsOk(cfg, rows) && Serving(cfg, rows, p)
    ensures Budget(cfg, RunBatch(cfg, rows, p.batch, p.results)) + |p.batch| <= Budget(cfg, rows)
  {
    hide Shape, RunBatch, DueForExecution;
    BatchSpends(cfg, rows, p.batch, p.results, p.now);
  }

  lemma {:induction false} BudgetSpared(cfg: Config, before: Rows, after: Rows)
    requires AllSpared(before, after)
    ensures Budget(cfg, after) == Budget(cfg, before)
  {
    if before != map[] {
      var id :| id in before;
      BudgetWithout(cfg, before, id);
      BudgetWithout(cfg, after, id);
      BudgetSpared(cfg, before - {id}, after - {id});
    }
  }

  lemma PassSpends(cfg: Config, rows: Rows, p: Pass)
    requires cfg.maxAttempts >= 1 && RowsOk(cfg, rows) && PassOk(cfg, rows, p)
    ensures Budget(cfg, RunPass(cfg, rows, p)) + |p.batch| <= Budget(cfg, rows)
  {
    hide RowsOk, PassOk, Budget, RunBatch, Nudged, AllSpared, PicksExecutions;
    NudgesSpare(cfg, rows, p);
    BudgetSpared(cfg, rows, Nudged(cfg, rows, p));
    ServingSpends(cfg, Nudged(cfg, rows, p), p);
  }

  /** Drain measure. Every worker pass spends at least its batch size of the attempts left to the queued rows, so all
      passes together make at most that many executor calls. */
  lemma {:induction false} Drains(cfg: Config, rows: Rows, passes: seq<Pass>)
    requires cfg.maxAttempts >= 1 && RowsOk(cfg, rows) && PassesOk(cfg, rows, passes)
    ensures Budget(cfg, RunPasses(cfg, rows, passes)) + Served(passes) <= Budget(cfg, rows)
  {
    if passes != [] {
      hide RowsOk, PassOk, Budget, RunPass;
      var before := passes[..|passes| - 1];
      PrefixOk(cfg, rows, passes);
      Drains(cfg, rows, before);
      PassesKeepRows(cfg, rows, before);
      PassSpends(cfg, RunPasses(cfg, rows, before), passes[|passes| - 1]);
    }
  }

  // ---------- Fate

  /** Some queued row is due at this time. */
  ghost predicate FindsDue(rows: Rows, now: Time) {
    exists id <- rows :: rows[id].nextAt.Some? && rows[id].nextAt.value <= now
  }

  /** How many passes found a row due. */
  ghost function DuePasses(cfg: Config, rows: Rows, passes: seq<Pass>): nat {
    if passes == [] then 0
    else
      var before, p := passes[..|passes| - 1], passes[|passes| - 1];
      DuePasses(cfg, rows, before) + if FindsDue(RunPasses(cfg, rows, before), p.now) then 1 else 0
  }

  ghost predicate NothingQueued(rows: Rows) {
    forall id <- rows :: rows[id].nextAt == None
  }

  lemma {:induction false} NothingLeft(cfg: Config, rows: Rows)
    requires cfg.maxAttempts >= 1 && RowsOk(cfg, rows)
    ensures Budget(cfg, rows) == 0 <==> NothingQueued(rows)
  {
    hide Descends;
    if rows != map[] {
      var id :| id in rows && Budget(cfg, rows) == Weight(cfg, rows[id]) + Budget(cfg, rows - {id});
      NothingLeft(cfg, rows - {id});
      assert Shape(cfg, rows[id]);
      assert Weight(cfg, rows[id]) == 0 <==> rows[id].nextAt == None;
      assert forall other <- rows :: other != id ==> other in rows - {id} && (rows - {id})[other] == rows[other];
    }
  }

  /** A pass that finds a row due serves one. */
  lemma PassServes(cfg: Config, rows: Rows, p: Pass)
    requires cfg.maxAttempts >= 1 && RowsOk(cfg, rows) && PassOk(cfg, rows, p) && FindsDue(rows, p.now)
    ensures p.batch != []
  {
    hide PassOk, RunBatch, Nudged;
    NudgesSpare(cfg, rows, p);
    var id :| id in rows && rows[id].nextAt.Some? && rows[id].nextAt.value <= p.now;
    var middle := Nudged(cfg, rows, p);
    assert Spared(rows[id], middle[id]) && Shape(cfg, middle[id]);
  }

  lemma {:induction false} DuePassesServe(cfg: Config, rows: Rows, passes: seq<Pass>)
    requires cfg.maxAttempts >= 1 && RowsOk(cfg, rows) && PassesOk(cfg, rows, passes)
    ensures DuePasses(cfg, rows, passes) <= Served(passes)
  {
    if passes != [] {
      hide RowsOk, PassOk, FindsDue, RunPass;
      var before, p := passes[..|passes| - 1], passes[|passes| - 1];
      PrefixOk(cfg, rows, passes);
      DuePassesServe(cfg, rows, before);
      PassesKeepRows(cfg, rows, before);
      var middle := RunPasses(cfg, rows, before);
      if FindsDue(middle, p.now) { PassServes(cfg, middle, p); }
    }
  }

  /** No pass can find a row due once as many have as there were attempts left; idle passes do not matter. */
  lemma DuePassesBounded(cfg: Config, rows: Rows, passes: seq<Pass>)
    requires cfg.maxAttempts >= 1 && RowsOk(cfg, rows) && PassesOk(cfg, rows, passes)
    ensures Budget(cfg, RunPasses(cfg, rows, passes)) + DuePasses(cfg, rows, passes) <= Budget(cfg, rows)
  {
    hide RowsOk, PassesOk, RunPasses, Budget, DuePasses, Served;
    Drains(cfg, rows, passes);
    DuePassesServe(cfg, rows, passes);
  }

  /** When a pass is sure to find a row due: the longest backoff after the last update of every queued row. */
  lemma WaitedOut(cfg: Config, rows: Rows, now: Time)
    requires Configured(cfg) && RowsOk(cfg, rows) && !NothingQueued(rows)
    requires forall id <- rows :: rows[id].nextAt.Some? ==>
               rows[id].updatedAt + (cfg.maxAttempts - 1) * cfg.retryBase <= now
    ensures FindsDue(rows, now)
  {
    var id :| id in rows && rows[id].nextAt.Some?;
    var row := rows[id];
    assert Shape(cfg, row);
    if row.status == ExecutionFailed {
      assert row.attempts * cfg.retryBase <= (cfg.maxAttempts - 1) * cfg.retryBase by {
        ProductGrows(row.attempts, cfg.maxAttempts - 1, cfg.retryBase);
      }
    } else {
      ProductGrows(0, cfg.maxAttempts - 1, cfg.retryBase);
    }
  }

  lemma ProductGrows(a: int, b: int, base: int)
    requires a <= b && base >= 0
    ensures a * base <= b * base
  {
  }

  /** Where a request that awaited execution ends up. */
  ghost predicate Settled(cfg: Config, start: Request, end: Request) {
    && start.target == end.target && end.nextAt == None
    && (end.status == Executed || (end.status == ExecutionFailed && end.attempts == cfg.maxAttempts))
    && (cfg.simulated ==> (end.status == Executed <==> !MentionsFail(end.target)))
    && (cfg.simulated && end.status == Executed ==> end.attempts == 1)
  }

  /** Fate. Once as many passes have found a row due as there were attempts left, every row that awaited
      execution with a retry scheduled is executed, or failed with exactly the budget of attempts and no next time; with
      the simulated executor its target alone decides which. */
  lemma EveryRowSettles(cfg: Config, rows: Rows, passes: seq<Pass>, id: string)
    requires cfg.maxAttempts >= 1 && RowsOk(cfg, rows) && AllFatedRows(cfg, rows) && PassesOk(cfg, rows, passes)
    requires DuePasses(cfg, rows, passes) >= Budget(cfg, rows)
    requires id in rows && AwaitsExecution(rows[id])
    ensures var after := RunPasses(cfg, rows, passes);
            NothingQueued(after) && id in after && Settled(cfg, rows[id], after[id])
  {
    DuePassesBounded(cfg, rows, passes);
    PassesKeepRows(cfg, rows, passes);
    var after := RunPasses(cfg, rows, passes);
    hide RunPasses, PassesOk, Budget, DuePasses;
    NothingLeft(cfg, after);
    RowSettles(cfg, rows[id], after[id]);
  }

  lemma RowSettles(cfg: Config, start: Request, end: Request)
    requires cfg.maxAttempts >= 1 && Shape(cfg, start) && AwaitsExecution(start) && Descends(start, end)
    requires Shape(cfg, end) && Fated(cfg, end) && end.nextAt == None
    ensures Settled(cfg, start, end)
  {
    hide MentionsFail;
  }

  // ---------- No starvation

  /** Postgres reads a limit of zero or less as 25. */
  function Cap(limit: int): int {
    if limit <= 0 then 25 else limit
  }

  /** The answer of Postgres: the due rows ordered by their next time, cut off at the limit. */
  ghost predicate OldestFirst(rows: Rows, now: Time, limit: int, batch: seq<Request>) {
    && (forall i :: 0 <= i < |batch| ==>
          batch[i].id in rows && rows[batch[i].id] == batch[i] && DueForExecution(batch[i], now))
    && (forall i, j :: 0 <= i < j < |batch| ==>
          batch[i].id != batch[j].id && batch[i].nextAt.value <= batch[j].nextAt.value)
    && |batch| <= Cap(limit)
    && (forall id <- rows :: DueForExecution(rows[id], now) && rows[id] !in batch ==>
          |batch| == Cap(limit) && forall q <- batch :: q.nextAt.value <= rows[id].nextAt.value)
  }

  /** That is one of the answers the common contract of the two stores allows. */
  lemma OldestFirstPicks(rows: Rows, now: Time, limit: int, batch: seq<Request>)
    requires OldestFirst(rows, now, limit, batch)
    ensures PicksExecutions(rows, now, limit, batch)
  {
    hide DueForExecution;
  }

  /** The other queued rows ordered at or before row `x`. */
  ghost function Ahead(rows: Rows, x: string): set<string>
    requires x in rows && rows[x].nextAt.Some?
  {
    set y <- rows | y != x && rows[y].nextAt.Some? && rows[y].nextAt.value <= rows[x].nextAt.value
  }

  predicate Serves(p: Pass, x: string) {
    exists q <- p.batch :: q.id == x
  }

  /** A row recorded while `x` was due comes back strictly after it, if at all. */
  lemma RequeuedBehind(cfg: Config, row: Request, now: Time, result: Result, next: Time)
    requires cfg.retryBase >= 1 && Shape(cfg, row) && DueForExecution(row, now) && next <= now <= result.at
    ensures var after := Apply(cfg, row, ChangeOf(result), result.at);
            after.nextAt.Some? ==> after.nextAt.value > next
  {
    assert (row.attempts + 1) * cfg.retryBase >= 1;
  }

  /** A pass that leaves `x` out is full of rows ahead of it. */
  lemma BatchAhead(cfg: Config, rows: Rows, p: Pass, x: string)
    requires RowsOk(cfg, rows) && OldestFirst(rows, p.now, p.limit, p.batch)
    requires x in rows && rows[x].nextAt.Some? && rows[x].nextAt.value <= p.now && !Serves(p, x)
    ensures |p.batch| == Cap(p.limit) && Ids(p.batch) <= Ahead(rows, x)
  {
    assert Shape(cfg, rows[x]);
    assert DueForExecution(rows[x], p.now);
    hide Shape;
    assert forall q <- p.batch :: q.id != x;
  }

  /** And none of them is ahead of it afterwards, nor is any other new row. */
  lemma AheadShrinks(cfg: Config, rows: Rows, p: Pass, x: string)
    requires cfg.retryBase >= 1 && RowsOk(cfg, rows) && Serving(cfg, rows, p)
    requires x in rows && rows[x].nextAt.Some? && rows[x].nextAt.value <= p.now && !Serves(p, x)
    ensures var after := RunBatch(cfg, rows, p.batch, p.results);
            && x in after && after[x] == rows[x]
            && Ahead(after, x) <= Ahead(rows, x) - Ids(p.batch)
  {
    var after := RunBatch(cfg, rows, p.batch, p.results);
    hide Shape, Apply, RunBatch, Descends, DueForExecution;
    BatchRows(cfg, rows, p.batch, p.results, x);
    forall y <- Ahead(after, x) ensures y in Ahead(rows, x) && y !in Ids(p.batch) {
      BatchRows(cfg, rows, p.batch, p.results, y);
      if i :| 0 <= i < |p.batch| && p.batch[i].id == y {
        RequeuedBehind(cfg, p.batch[i], p.now, p.results[i], rows[x].nextAt.value);
      }
    }
  }

  lemma ServingAdvances(cfg: Config, rows: Rows, p: Pass, x: string)
    requires cfg.maxAttempts >= 1 && cfg.retryBase >= 1 && RowsOk(cfg, rows)
    requires Serving(cfg, rows, p) && OldestFirst(rows, p.now, p.limit, p.batch)
    requires x in rows && rows[x].nextAt.Some? && rows[x].nextAt.value <= p.now && !Serves(p, x)
    ensures var after := RunBatch(cfg, rows, p.batch, p.results);
            && x in after && after[x] == rows[x]
            && |Ahead(after, x)| + Cap(p.limit) <= |Ahead(rows, x)|
  {
    hide RowsOk, RunBatch, Ahead, Serves, DueForExecution, Cap;
    BatchAhead(cfg, rows, p, x);
    AheadShrinks(cfg, rows, p, x);
    IdsCount(p.batch);
    SubsetSize(Ahead(RunBatch(cfg, rows, p.batch, p.results), x), Ahead(rows, x) - Ids(p.batch));
  }

  /** What a reminder pass leaves alone: every queued row, the attempts left to the queue, and who is ahead of whom. */
  lemma RemindersSpareQueue(cfg: Config, rows: Rows, batch: seq<Request>, now: Time)
    requires cfg.maxAttempts >= 1 && RowsOk(cfg, rows) && Listing(cfg, rows, batch, now)
    ensures var after := RemindBatch(cfg, rows, batch, now);
            && Budget(cfg, after) == Budget(cfg, rows)
            && forall x <- rows :: rows[x].nextAt.Some? ==>
                 x in after && after[x] == rows[x] && Ahead(after, x) == Ahead(rows, x)
  {
    hide RowsOk, Listing, RemindBatch, Budget;
    RemindKeepsRows(cfg, rows, batch, now);
    BudgetSpared(cfg, rows, RemindBatch(cfg, rows, batch, now));
  }

  lemma PassAdvances(cfg: Config, rows: Rows, p: Pass, x: string)
    requires cfg.maxAttempts >= 1 && cfg.retryBase >= 1 && RowsOk(cfg, rows)
    requires PassOk(cfg, rows, p) && OldestFirst(Nudged(cfg, rows, p), p.now, p.limit, p.batch)
    requires x in rows && rows[x].nextAt.Some? && rows[x].nextAt.value <= p.now && !Serves(p, x)
    ensures var after := RunPass(cfg, rows, p);
            && x in after && after[x] == rows[x]
            && |Ahead(after, x)| + Cap(p.limit) <= |Ahead(rows, x)|
  {
    hide RowsOk, RunBatch, RemindBatch, Listing, Ahead, Serves, PicksExecutions, OldestFirst, Cap;
    assert Listing(cfg, rows, p.nudged, p.nudgedAt) by { PickLists(cfg, rows, p); }
    NudgesSpare(cfg, rows, p);
    RemindersSpareQueue(cfg, rows, p.nudged, p.nudgedAt);
    ServingAdvances(cfg, Nudged(cfg, rows, p), p, x);
  }

  function Ids(batch: seq<Request>): set<string> {
    set q <- batch :: q.id
  }

  lemma {:induction false} IdsCount(batch: seq<Request>)
    requires forall i, j :: 0 <= i < j < |batch| ==> batch[i].id != batch[j].id
    ensures |Ids(batch)| == |batch|
  {
    if batch != [] {
      var last := |batch| - 1;
      IdsCount(batch[..last]);
      assert batch == batch[..last] + [batch[last]];
      assert Ids(batch) == Ids(batch[..last]) + {batch[last].id};
    }
  }

  lemma {:induction false} SubsetSize(a: set<string>, b: set<string>)
    requires a <= b
    ensures |a| <= |b|
  {
    if a != {} {
      var x :| x in a;
      SubsetSize(a - {x}, b - {x});
    }
  }

  /** Passes of the Postgres store that all find `x` due. */
  ghost predicate FairPasses(cfg: Config, rows: Rows, passes: seq<Pass>, x: string, limit: int) {
    && PassesOk(cfg, rows, passes)
    && x in rows && rows[x].nextAt.Some?
    && forall i :: 0 <= i < |passes| ==>
         && passes[i].limit == limit && rows[x].nextAt.value <= passes[i].now
         && OldestFirst(Nudged(cfg, RunPasses(cfg, rows, passes[..i]), passes[i]), passes[i].now, limit,
                        passes[i].batch)
  }

  lemma FairPrefix(cfg: Config, rows: Rows, passes: seq<Pass>, x: string, limit: int)
    requires passes != [] && FairPasses(cfg, rows, passes, x, limit)
    ensures var before, p := passes[..|passes| - 1], passes[|passes| - 1];
            && PassesOk(cfg, rows, before) && FairPasses(cfg, rows, before, x, limit)
            && x in rows && rows[x].nextAt.Some? && rows[x].nextAt.value <= p.now && p.limit == limit
            && PassOk(cfg, RunPasses(cfg, rows, before), p)
            && OldestFirst(Nudged(cfg, RunPasses(cfg, rows, before), p), p.now, limit, p.batch)
  {
    hide PassOk, OldestFirst, RunPasses;
    PrefixOk(cfg, rows, passes);
    var before := passes[..|passes| - 1];
    forall i | 0 <= i < |before| ensures before[..i] == passes[..i] && before[i] == passes[i] {}
  }

  lemma {:induction false} UnservedAdvances(cfg: Config, rows: Rows, passes: seq<Pass>, x: string, limit: int)
    requires cfg.maxAttempts >= 1 && cfg.retryBase >= 1 && RowsOk(cfg, rows)
    requires FairPasses(cfg, rows, passes, x, limit) && forall p <- passes :: !Serves(p, x)
    ensures var after := RunPasses(cfg, rows, passes);
            && x in after && after[x] == rows[x]
            && |Ahead(after, x)| + Cap(limit) * |passes| <= |Ahead(rows, x)|
  {
    if passes != [] {
      hide RowsOk, PassOk, OldestFirst, RunPass, Nudged, Serves, Ahead, FairPasses, Cap;
      var before, p := passes[..|passes| - 1], passes[|passes| - 1];
      FairPrefix(cfg, rows, passes, x, limit);
      UnservedAdvances(cfg, rows, before, x, limit);
      PassesKeepRows(cfg, rows, before);
      var middle := RunPasses(cfg, rows, before);
      PassAdvances(cfg, middle, p, x);
      assert Cap(limit) * (|before| + 1) == Cap(limit) * |before| + Cap(limit);
    }
  }

  /** No starvation. With a positive retry base and the oldest-first query, a due request with r other queued rows
      ordered at or before it is executed within r / k + 1 passes of batch size k. */
  lemma NoStarvation(cfg: Config, rows: Rows, passes: seq<Pass>, x: string, limit: int)
    requires cfg.maxAttempts >= 1 && cfg.retryBase >= 1 && RowsOk(cfg, rows)
    requires FairPasses(cfg, rows, passes, x, limit)
    requires |passes| == |Ahead(rows, x)| / Cap(limit) + 1
    ensures exists p <- passes :: Serves(p, x)
  {
    hide RowsOk, RunPasses, FairPasses, PassesOk;
    assert x in rows && rows[x].nextAt.Some? by { FairPrefix(cfg, rows, passes, x, limit); }
    hide Ahead, Serves, Cap;
    if forall p <- passes :: !Serves(p, x) {
      UnservedAdvances(cfg, rows, passes, x, limit);
      DivisionRounds(|Ahead(rows, x)|, Cap(limit));
    }
  }

  lemma DivisionRounds(r: nat, k: int)
    requires k >= 1
    ensures k * (r / k + 1) > r
  {
    assert r == k * (r / k) + r % k;
    assert k * (r / k + 1) == k * (r / k) + k;
  }
}
