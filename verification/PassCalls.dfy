/** The worker's two calls, left alone, are a pass of Passes. */
module PassCalls {
  import opened Domain
  import opened Workflow
  import opened Database
  import opened Calls
  import opened Passes
  import opened Quiet
  import opened Stages

  // ---------- The reminder call

  /** Left alone, a worker takes three stages over a row to remind it: swap, audit entry, job run. */
  lemma RowReminded(cfg: Config, now: Time, batch: seq<Request>, db: Db, inputs: seq<Input>)
    requires batch != [] && |inputs| == 3
    requires batch[0].id in db.requests && db.requests[batch[0].id] == batch[0]
    ensures var (c, d) := After(cfg, Continue(Finished, Reminding(now, batch)), db, inputs);
            && c == Continue(Finished, Reminding(now, batch[1..]))
            && d.requests == db.requests[batch[0].id := Apply(cfg, batch[0], Remind, now)]
  {
    hide After, Apply, Continue;
    var rest := Reminding(now, batch[1..]);
    ContinueReminds(now, batch);
    WritesAlone(cfg, Swapping(SYSTEM, batch[0], Remind, Some(now), rest), db, inputs);
    ContinueAnyReply(Returned(Apply(cfg, batch[0], Remind, now)), Finished, rest);
  }

  lemma {:induction false} PrefixReminded(cfg: Config, now: Time, batch: seq<Request>, db: Db, inputs: seq<Input>,
                                          done: nat)
    requires Listing(cfg, db.requests, batch, now) && |inputs| == 3 * |batch| && done <= |batch|
    ensures var (c, d) := After(cfg, Continue(Finished, Reminding(now, batch)), db, inputs[..3 * done]);
            && c == Continue(Finished, Reminding(now, batch[done..]))
            && d.requests == RemindBatch(cfg, db.requests, batch[..done], now)
  {
    hide After, Apply, Continue, DueForReminder;
    var start := Continue(Finished, Reminding(now, batch));
    if done == 0 {
      NoStage(cfg, start, db);
      assert batch[0..] == batch;
    } else {
      var last := done - 1;
      PrefixReminded(cfg, now, batch, db, inputs, last);
      var (c, d) := After(cfg, start, db, inputs[..3 * last]);
      RemindKeepsOthers(cfg, db.requests, batch[..last], now, batch[last].id);
      RowReminded(cfg, now, batch[last..], d, inputs[3 * last..3 * done]);
      AfterAppend(cfg, start, db, inputs[..3 * last], inputs[3 * last..3 * done]);
      assert inputs[..3 * last] + inputs[3 * last..3 * done] == inputs[..3 * done];
      assert batch[last..][1..] == batch[done..] && batch[..done][..last] == batch[..last];
    }
  }

  // ---------- The execution call

  /** What a batch records when its stages meet these inputs: five for each row, the executor's outcome first, then the
      clock. */
  function ResultsOf(cfg: Config, batch: seq<Request>, inputs: seq<Input>): (results: seq<Result>)
    requires |inputs| == 5 * |batch|
    ensures |results| == |batch|
  {
    seq(|batch|, i requires 0 <= i < |batch| =>
      Result(Outcome(cfg, batch[i], inputs[5 * i]), inputs[5 * i + 1].now))
  }

  lemma InvokesDue(cfg: Config, now: Time, batch: seq<Request>, input: Input, at: Time)
    requires batch != [] && DueForExecution(batch[0], now)
    ensures var change := ChangeOf(Result(Outcome(cfg, batch[0], input), at));
            var rest := Executing(now, batch[1..]);
            && Invoke(cfg, Invoking(now, batch), input) == Swapping(SYSTEM, batch[0], change, None, rest)
            && |OwedFor(cfg, SYSTEM, batch[0], change, at, rest)| == 2
  {
    hide Outcome, Apply, TrimSpace;
  }

  /** Left alone, a worker takes five stages over a row and records its result. */
  lemma RowServed(cfg: Config, now: Time, batch: seq<Request>, db: Db, inputs: seq<Input>)
    requires batch != [] && |inputs| == 5 && DueForExecution(batch[0], now)
    requires batch[0].id in db.requests && db.requests[batch[0].id] == batch[0]
    ensures var result := Result(Outcome(cfg, batch[0], inputs[0]), inputs[1].now);
            var (c, d) := After(cfg, Continue(Finished, Executing(now, batch)), db, inputs);
            && c == Continue(Finished, Executing(now, batch[1..]))
            && d.requests == db.requests[batch[0].id := Apply(cfg, batch[0], ChangeOf(result), result.at)]
  {
    hide Act, After, Apply, Outcome, Invoke, Continue, OwedFor, DueForExecution;
    var change := ChangeOf(Result(Outcome(cfg, batch[0], inputs[0]), inputs[1].now));
    var rest := Executing(now, batch[1..]);
    ContinueInvokes(now, batch);
    FirstStage(cfg, Invoking(now, batch), db, inputs);
    InvokingStage(cfg, now, batch, db, inputs[0]);
    InvokesDue(cfg, now, batch, inputs[0], inputs[1].now);
    SwapsAlone(cfg, SYSTEM, batch[0], change, rest, db, inputs[1..]);
    ContinueAnyReply(Returned(Apply(cfg, batch[0], change, inputs[1].now)), Finished, rest);
  }

  /** The rows of a due batch, each once, as they are stored. */
  ghost predicate Due(rows: Rows, batch: seq<Request>, now: Time) {
    && (forall i :: 0 <= i < |batch| ==>
          batch[i].id in rows && rows[batch[i].id] == batch[i] && DueForExecution(batch[i], now))
    && (forall i, j :: 0 <= i < j < |batch| ==> batch[i].id != batch[j].id)
  }

  /** The next row of a batch, still as listed when its turn comes. */
  lemma NextServed(cfg: Config, now: Time, batch: seq<Request>, db: Db, middle: Db, inputs: seq<Input>, next: nat)
    requires Due(db.requests, batch, now) && |inputs| == 5 * |batch| && next < |batch|
    requires middle.requests == RunBatch(cfg, db.requests, batch[..next], ResultsOf(cfg, batch, inputs)[..next])
    ensures var (c, d) := After(cfg, Continue(Finished, Executing(now, batch[next..])), middle,
                                inputs[5 * next..5 * next + 5]);
            && c == Continue(Finished, Executing(now, batch[next + 1..]))
            && d.requests == RunBatch(cfg, db.requests, batch[..next + 1], ResultsOf(cfg, batch, inputs)[..next + 1])
  {
    hide After, Apply, Continue, DueForExecution, Outcome;
    var results := ResultsOf(cfg, batch, inputs);
    Untouched(cfg, db.requests, batch[..next], results[..next], batch[next].id);
    RowServed(cfg, now, batch[next..], middle, inputs[5 * next..5 * next + 5]);
    assert batch[next..][1..] == batch[next + 1..] && batch[..next + 1][..next] == batch[..next];
    assert results[..next + 1][..next] == results[..next];
  }

  lemma {:induction false} PrefixServed(cfg: Config, now: Time, batch: seq<Request>, db: Db, inputs: seq<Input>,
                                        done: nat)
    requires Due(db.requests, batch, now) && |inputs| == 5 * |batch| && done <= |batch|
    ensures var (c, d) := After(cfg, Continue(Finished, Executing(now, batch)), db, inputs[..5 * done]);
            && c == Continue(Finished, Executing(now, batch[done..]))
            && d.requests == RunBatch(cfg, db.requests, batch[..done], ResultsOf(cfg, batch, inputs)[..done])
  {
    hide After, Continue, DueForExecution, ResultsOf, Apply;
    var start := Continue(Finished, Executing(now, batch));
    if done == 0 {
      NoStage(cfg, start, db);
      assert batch[0..] == batch && inputs[..0] == [] && batch[..0] == [];
    } else {
      hide RunBatch;
      var last := done - 1;
      PrefixServed(cfg, now, batch, db, inputs, last);
      var (c, d) := After(cfg, start, db, inputs[..5 * last]);
      NextServed(cfg, now, batch, db, d, inputs, last);
      AfterAppend(cfg, start, db, inputs[..5 * last], inputs[5 * last..5 * done]);
      assert inputs[..5 * last] + inputs[5 * last..5 * done] == inputs[..5 * done];
    }
  }

  // ---------- Both

  /** The listing stages of a worker's call. */
  lemma ListsAlone(cfg: Config, call: Call, db: Db, inputs: seq<Input>)
    requires |inputs| >= 2 && (call.RemindStart? || call.ExecuteStart?)
    requires call.RemindStart? ==>
               PicksReminders(db.requests, inputs[0].now - cfg.reminderAfter, call.limit, inputs[1].pick)
    requires call.ExecuteStart? ==> PicksExecutions(db.requests, inputs[0].now, call.limit, inputs[1].pick)
    ensures var rest := if call.RemindStart? then Reminding(inputs[0].now, inputs[1].pick)
                        else Executing(inputs[0].now, inputs[1].pick);
            After(cfg, call, db, inputs) == After(cfg, Continue(Finished, rest), db, inputs[2..])
  {
    hide Act, After, Continue, PicksReminders, PicksExecutions;
    var now := inputs[0].now;
    FirstStage(cfg, call, db, inputs);
    ListingStages(cfg, call.limit, now, db, inputs[0]);
    ListingStages(cfg, call.limit, now, db, inputs[1]);
    var listing := if call.RemindStart? then RemindList(call.limit, now) else ExecuteList(call.limit, now);
    FirstStage(cfg, listing, db, inputs[1..]);
    assert inputs[1..][1..] == inputs[2..];
  }

  /** The inputs of a worker's undisturbed reminder call, complete: its batch answers the query of these rows. */
  ghost predicate Reminds(cfg: Config, rows: Rows, limit: int, inputs: seq<Input>) {
    && |inputs| >= 2 && |inputs| == 2 + 3 * |inputs[1].pick|
    && PicksReminders(rows, inputs[0].now - cfg.reminderAfter, limit, inputs[1].pick)
  }

  /** Those of its execution call. */
  ghost predicate Executes(rows: Rows, limit: int, inputs: seq<Input>) {
    && |inputs| >= 2 && |inputs| == 2 + 5 * |inputs[1].pick|
    && PicksExecutions(rows, inputs[0].now, limit, inputs[1].pick)
  }

  /** The clock does not run backwards between the start of the execution call and its results. */
  predicate Forward(inputs: seq<Input>)
    requires |inputs| >= 2 && |inputs| == 2 + 5 * |inputs[1].pick|
  {
    forall i :: 0 <= i < |inputs[1].pick| ==> inputs[0].now <= inputs[2..][5 * i + 1].now
  }

  /** The pass that the two calls make. */
  function PassOf(cfg: Config, limit: int, nudges: seq<Input>, inputs: seq<Input>): Pass
    requires |nudges| >= 2 && |inputs| >= 2 && |inputs| == 2 + 5 * |inputs[1].pick|
  {
    Pass(limit, nudges[0].now, nudges[1].pick, inputs[0].now, inputs[1].pick,
         ResultsOf(cfg, inputs[1].pick, inputs[2..]))
  }

  lemma ReminderCallAlone(cfg: Config, db: Db, limit: int, nudges: seq<Input>)
    requires Reminds(cfg, db.requests, limit, nudges)
    ensures var (c, d) := After(cfg, RemindStart(limit), db, nudges);
            c == Done(Finished) && d.requests == RemindBatch(cfg, db.requests, nudges[1].pick, nudges[0].now)
  {
    hide After, RemindBatch, DueForReminder;
    var batch, now := nudges[1].pick, nudges[0].now;
    ListsAlone(cfg, RemindStart(limit), db, nudges);
    PrefixReminded(cfg, now, batch, db, nudges[2..], |batch|);
    assert nudges[2..][..3 * |batch|] == nudges[2..] && batch[..|batch|] == batch && batch[|batch|..] == [];
  }

  lemma ExecutionCallAlone(cfg: Config, db: Db, limit: int, inputs: seq<Input>)
    requires Executes(db.requests, limit, inputs)
    ensures var (c, d) := After(cfg, ExecuteStart(limit), db, inputs);
            var batch := inputs[1].pick;
            c == Done(Finished) && d.requests == RunBatch(cfg, db.requests, batch, ResultsOf(cfg, batch, inputs[2..]))
  {
    hide After, RunBatch, DueForExecution, Outcome;
    var batch, now := inputs[1].pick, inputs[0].now;
    ListsAlone(cfg, ExecuteStart(limit), db, inputs);
    PrefixServed(cfg, now, batch, db, inputs[2..], |batch|);
    var results := ResultsOf(cfg, batch, inputs[2..]);
    assert inputs[2..][..5 * |batch|] == inputs[2..] && batch[..|batch|] == batch && batch[|batch|..] == [];
    assert results[..|batch|] == results;
  }

  /** The worker's two calls, one after the other and with no other call between their stages, are a pass: they finish,
      the rows are those of the pass, and it is one that Passes speaks about if the clock ran forward. */
  lemma CallsArePass(cfg: Config, db: Db, limit: int, nudges: seq<Input>, inputs: seq<Input>)
    requires Reminds(cfg, db.requests, limit, nudges)
    requires Executes(After(cfg, RemindStart(limit), db, nudges).1.requests, limit, inputs)
    ensures var (c, d) := After(cfg, RemindStart(limit), db, nudges);
            var (c', d') := After(cfg, ExecuteStart(limit), d, inputs);
            var p := PassOf(cfg, limit, nudges, inputs);
            && c == c' == Done(Finished) && d'.requests == RunPass(cfg, db.requests, p)
            && (Forward(inputs) ==> PassOk(cfg, db.requests, p))
  {
    hide After, RunBatch, RemindBatch, PicksReminders, PicksExecutions;
    ReminderCallAlone(cfg, db, limit, nudges);
    ExecutionCallAlone(cfg, After(cfg, RemindStart(limit), db, nudges).1, limit, inputs);
  }

  // ---------- And every pass comes about so

  function NudgeInputs(p: Pass): seq<Input> {
    [Input(p.nudgedAt, [], None), Input(p.nudgedAt, p.nudged, None)]
      + seq(3 * |p.nudged|, _ => Input(p.nudgedAt, [], None))
  }

  function PassInputs(p: Pass): seq<Input>
    requires |p.results| == |p.batch|
  {
    [Input(p.now, [], None), Input(p.now, p.batch, None)]
    + seq(5 * |p.batch|, k requires 0 <= k < 5 * |p.batch| => Input(p.results[k / 5].at, [], p.results[k / 5].failure))
  }

  lemma RowInputs(cfg: Config, p: Pass, i: nat)
    requires |p.results| == |p.batch| && i < |p.batch|
    ensures var inputs, input := PassInputs(p)[2..], Input(p.results[i].at, [], p.results[i].failure);
            |inputs| == 5 * |p.batch| && inputs[5 * i] == input && inputs[5 * i + 1] == input
  {
    var k := 5 * i;
    assert k / 5 == i && (k + 1) / 5 == i;
    assert PassInputs(p)[2..][k] == PassInputs(p)[k + 2] && PassInputs(p)[2..][k + 1] == PassInputs(p)[k + 3];
  }

  lemma InputsFrame(p: Pass)
    requires |p.results| == |p.batch|
    ensures var inputs := PassInputs(p);
            |inputs| == 2 + 5 * |p.batch| && inputs[0].now == p.now && inputs[1].pick == p.batch
  {
  }

  lemma InputsMakePass(cfg: Config, rows: Rows, p: Pass)
    requires Serving(cfg, rows, p)
    ensures Executes(rows, p.limit, PassInputs(p)) && Forward(PassInputs(p))
    ensures PassOf(cfg, p.limit, NudgeInputs(p), PassInputs(p)) == p
  {
    var inputs := PassInputs(p)[2..];
    hide PicksExecutions, Simulate, PassInputs;
    InputsFrame(p);
    forall i | 0 <= i < |p.batch|
      ensures ResultsOf(cfg, p.batch, inputs)[i] == p.results[i]
      ensures p.now <= inputs[5 * i + 1].now
    {
      RowInputs(cfg, p, i);
    }
    assert ResultsOf(cfg, p.batch, inputs) == p.results;
  }

  /** Left alone, the worker's two calls make any pass that Passes speaks about, given its listings, outcomes and
      times. */
  lemma PassIsCalls(cfg: Config, db: Db, p: Pass)
    requires PassOk(cfg, db.requests, p)
    ensures var (c, d) := After(cfg, RemindStart(p.limit), db, NudgeInputs(p));
            var (c', d') := After(cfg, ExecuteStart(p.limit), d, PassInputs(p));
            c == c' == Done(Finished) && d'.requests == RunPass(cfg, db.requests, p)
  {
    hide After, PicksReminders, PicksExecutions, Serving, Executes, RemindBatch, RunPass, PassInputs;
    InputsMakePass(cfg, Nudged(cfg, db.requests, p), p);
    ReminderCallAlone(cfg, db, p.limit, NudgeInputs(p));
    CallsArePass(cfg, db, p.limit, NudgeInputs(p), PassInputs(p));
  }
}
