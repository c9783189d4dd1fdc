/** Runs that show what Anomalies and WorkerRuns say can happen. */
module Scenarios {
  import opened Domain
  import opened Workflow
  import opened Database
  import opened Calls
  import opened Machine
  import opened Schedules
  import opened Stages
  import opened Strings
  import opened Keys
  import opened Quiet
  import opened Anomalies

  const ALICE := Actor("alice", Employee)
  const BOB := Actor("bob", Admin)
  const ID := "req_1"
  const KEY := "k"
  const DRAFT := DraftInput("access", "crm", "support")

  lemma NotBlank(s: string)
    requires s != [] && 'a' <= s[0] <= 'z'
    ensures !Blank(s)
  {
    BlankMeans(s);
    assert s[0] in s;
  }

  lemma LettersNotBlank()
    ensures ValidActor(ALICE) && !Blank(DRAFT.kind) && !Blank(DRAFT.target) && !Blank(DRAFT.justification)
    ensures !Blank(KEY)
  {
    hide Blank;
    NotBlank(ALICE.id);
    NotBlank(DRAFT.kind);
    NotBlank(DRAFT.target);
    NotBlank(DRAFT.justification);
    NotBlank(KEY);
  }

  /** The request just submitted by its owner. */
  function Pending(cfg: Config): Request {
    Apply(cfg, NewDraft(ID, ALICE, DRAFT, 0), Submit(KEY), 0)
  }

  /** The inputs of n stages while the clock stands still. */
  function Still(now: Time, n: nat): seq<Input> {
    seq(n, _ => Input(now, [], None))
  }

  /** Thread 0 drafts and submits a request, undisturbed. */
  lemma SubmitOne(cfg: Config) returns (moves: seq<Move>)
    ensures var s := Run(cfg, moves);
            && s.db.requests == map[ID := Pending(cfg)] && s.db.idempotency.Keys == {Compound(SubmitScope(ID), KEY)}
            && |s.calls| == 1 && s.calls[0].Done?
  {
    hide Act, After, Apply, Blank, NewDraft, SubmitScope, Compound;
    LettersNotBlank();
    assert Run(cfg, []) == INIT && '|' !in ID;
    moves := CallAlone(cfg, [], 0, Drafting(ALICE, DRAFT, ID), Still(0, 3));
    DraftSucceeds(cfg, EMPTY, ALICE, DRAFT, ID, Still(0, 3));
    var row := NewDraft(ID, ALICE, DRAFT, 0);
    DraftFields(row);
    var db := Run(cfg, moves).db;
    moves := CallAlone(cfg, moves, 0, SubmitRead(ALICE, ID, KEY), Still(0, 7));
    SubmitSucceeds(cfg, db, ALICE, ID, KEY, Still(0, 7));
  }

  lemma DraftFields(row: Request)
    requires row == NewDraft(ID, ALICE, DRAFT, 0)
    ensures row.id == ID && row.status == Draft && row.requester == ALICE.id && row.reminders == 0
  {
  }

  lemma PendingFields(cfg: Config)
    ensures var row := Pending(cfg);
            && row.id == ID && row.status == PendingReview && row.requester == "alice"
            && row.submittedAt == Some(0) && row.remindedAt == None
  {
  }

  /** Thread 0 has claimed an approval's key and is about to swap; thread 1 has listed the same row for a reminder. */
  ghost predicate Racing(cfg: Config, moves: seq<Move>) {
    var s := Run(cfg, moves);
    var row := Pending(cfg);
    && s.db.requests == map[ID := row]
    && Known(s.db, ReviewScope(Approve, ID), KEY, Fingerprint(cfg, Approve, ""))
    && |s.calls| == 2
    && s.calls[0] == Swapping(BOB, row, Decide(Approve, "", KEY), Some(cfg.reminderAfter), Answer)
    && s.calls[1] == Swapping(SYSTEM, row, Remind, Some(cfg.reminderAfter), Reminding(cfg.reminderAfter, []))
  }

  lemma RaceBegins(cfg: Config) returns (moves: seq<Move>)
    ensures Racing(cfg, moves)
  {
    hide Act, After, Apply, Blank, NewDraft, Compound, Fingerprint;
    moves := SubmitOne(cfg);
    PendingFields(cfg);
    LettersNotBlank();
    ScopesDiffer();
    var row, inputs := Pending(cfg), Still(cfg.reminderAfter, 4);
    var call := ReviewRead(BOB, ID, KEY, Approve, "");
    var db := Run(cfg, moves).db;
    moves := CallAlone(cfg, moves, 0, call, inputs);
    ReviewClaims(cfg, db, BOB, ID, KEY, Approve, "", inputs);
    var claimed := Claim(db, ReviewScope(Approve, ID), KEY, Fingerprint(cfg, Approve, ""), ID, inputs[2].now).0;
    var pending := Swapping(BOB, row, Decide(Approve, "", KEY), None, Answer);
    FirstStage(cfg, pending, claimed, inputs[3..]);
    SwappingStage(cfg, pending, claimed, inputs[3]);
    assert inputs[3..][1..] == [];
    NoStage(cfg, pending.(at := Some(cfg.reminderAfter)), claimed);
    moves := ReminderLists(cfg, moves);
  }

  lemma PicksTheRow(row: Request, cutoff: Time)
    requires row.id == ID && DueForReminder(row, cutoff, true)
    ensures PicksReminders(map[ID := row], cutoff, 1, [row])
  {
  }

  lemma Reminded(cfg: Config, row: Request, now: Time)
    ensures var next := Apply(cfg, row, Remind, now);
            next.id == row.id && next.status == row.status && next.version == row.version + 1
  {
  }

  lemma SwapLoses(cfg: Config, call: Call, db: Db)
    requires call.Swapping? && call.at.Some? && call.then_.Answer?
    requires call.snap.id in db.requests && db.requests[call.snap.id].version != call.snap.version
    ensures Swap(cfg, call, db) == (Done(Failed(Conflict)), db)
  {
  }

  /** Thread 1 begins a reminder pass and reads the clock. */
  lemma ReminderStarts(cfg: Config, before: seq<Move>) returns (moves: seq<Move>)
    requires |Run(cfg, before).calls| == 1
    ensures var s, t := Run(cfg, before), Run(cfg, moves);
            && t.db == s.db && |t.calls| == 2 && t.calls[0] == s.calls[0]
            && t.calls[1] == RemindList(1, cfg.reminderAfter)
  {
    hide Act;
    BeginRuns(cfg, before, 1, RemindStart(1));
    RunOne(cfg, before, Begin(1, RemindStart(1)));
    moves := before + [Begin(1, RemindStart(1))];
    var clock := Input(cfg.reminderAfter, [], None);
    TakenRuns(cfg, moves, 1, RemindStart(1), clock);
    TakenAlone(cfg, moves, 1, clock);
    ListingStages(cfg, 1, 0, Run(cfg, before).db, clock);
    moves := Taken(cfg, moves, 1, clock);
  }

  /** And lists the pending row. */
  lemma ReminderLists(cfg: Config, before: seq<Move>) returns (moves: seq<Move>)
    requires var s := Run(cfg, before);
             s.db.requests == map[ID := Pending(cfg)] && |s.calls| == 1
    ensures var s, t := Run(cfg, before), Run(cfg, moves);
            && t.db == s.db && |t.calls| == 2 && t.calls[0] == s.calls[0]
            && t.calls[1] == Swapping(SYSTEM, Pending(cfg), Remind, Some(cfg.reminderAfter),
                                      Reminding(cfg.reminderAfter, []))
  {
    hide Act, Pending, Step, PicksReminders;
    PendingFields(cfg);
    var row, now := Pending(cfg), cfg.reminderAfter;
    moves := ReminderStarts(cfg, before);
    var list := Input(now, [row], None);
    PicksTheRow(row, now - cfg.reminderAfter);
    ListingStages(cfg, 1, now, Run(cfg, moves).db, list);
    TakenRuns(cfg, moves, 1, RemindList(1, now), list);
    TakenAlone(cfg, moves, 1, list);
    ContinueReminds(now, [row]);
    assert [row][1..] == [];
    moves := Taken(cfg, moves, 1, list);
  }

  lemma ScopesDiffer()
    ensures Compound(ReviewScope(Approve, ID), KEY) != Compound(SubmitScope(ID), KEY)
  {
    assert Compound(ReviewScope(Approve, ID), KEY)[0] == 'a' && Compound(SubmitScope(ID), KEY)[0] == 's';
  }

  /** A stored `approved:` record does not mean the request was approved: whatever the configuration, there is a
      schedule in which a reminder wins the swap after the approval has stored its key. */
  lemma ApprovalKeyCanBeBurned(cfg: Config) returns (moves: seq<Move>)
    ensures Burned(cfg, moves, ID, KEY, Approve, "")
  {
    moves := RaceBegins(cfg);
    moves := ReminderWins(cfg, moves);
    moves := ApprovalLoses(cfg, moves);
  }

  /** Thread 1 does one stage of its own. */
  lemma ReminderSwaps(cfg: Config, before: seq<Move>) returns (moves: seq<Move>)
    requires Racing(cfg, before)
    ensures var s, t := Run(cfg, before), Run(cfg, moves);
            var next, rest := Apply(cfg, Pending(cfg), Remind, cfg.reminderAfter), Reminding(cfg.reminderAfter, []);
            && t.db.requests == map[ID := next] && t.db.idempotency == s.db.idempotency
            && |t.calls| == 2 && t.calls[0] == s.calls[0]
            && t.calls[1] == Logging(next, Owes(SYSTEM, Remind, next, cfg.reminderAfter, rest), rest)
  {
    hide Act, Pending, Apply, Known, Fingerprint, ReviewScope, Swap;
    PendingFields(cfg);
    var s, input := Run(cfg, before), Input(cfg.reminderAfter, [], None);
    var next := Apply(cfg, Pending(cfg), Remind, cfg.reminderAfter);
    SwapStored(cfg, s.calls[1], s.db);
    SwappingStage(cfg, s.calls[1], s.db, input);
    assert s.db.requests[ID := next] == map[ID := next];
    TakenRuns(cfg, before, 1, s.calls[1], input);
    TakenAlone(cfg, before, 1, input);
    moves := Taken(cfg, before, 1, input);
  }

  lemma ReminderWins(cfg: Config, before: seq<Move>) returns (moves: seq<Move>)
    requires Racing(cfg, before)
    ensures var s, t := Run(cfg, before), Run(cfg, moves);
            && t.db.requests == map[ID := Apply(cfg, Pending(cfg), Remind, cfg.reminderAfter)]
            && t.db.idempotency == s.db.idempotency
            && |t.calls| == 2 && t.calls[0] == s.calls[0] && t.calls[1].Done?
  {
    hide Step, Pending, Apply, Known, Fingerprint, ReviewScope;
    moves := ReminderSwaps(cfg, before);
    var now, next := cfg.reminderAfter, Apply(cfg, Pending(cfg), Remind, cfg.reminderAfter);
    var rest := Reminding(now, []);
    var owed, input := Owes(SYSTEM, Remind, next, now, rest), Input(now, [], None);
    assert |owed| == 2 && owed[1..][1..] == [];
    hide Owes;
    moves := LogTaken(cfg, moves, next, owed, rest, input);
    LogOne(next, owed[1..], rest);
    moves := LogTaken(cfg, moves, next, owed[1..], rest, input);
  }

  lemma LogTaken(cfg: Config, before: seq<Move>, row: Request, owed: seq<Owed>, rest: Rest, input: Input)
    returns (moves: seq<Move>)
    requires At(cfg, before, 1, Logging(row, owed, rest)) && owed != []
    ensures At(cfg, moves, 1, Log(row, owed[1..], rest))
    ensures Run(cfg, moves).db.requests == Run(cfg, before).db.requests
    ensures Run(cfg, moves).db.idempotency == Run(cfg, before).db.idempotency
    ensures OthersStill(Run(cfg, before).calls, Run(cfg, moves).calls, 1)
  {
    hide Act, Log, Append;
    TakenRuns(cfg, before, 1, Logging(row, owed, rest), input);
    TakenAlone(cfg, before, 1, input);
    LoggingStage(cfg, row, owed, rest, Run(cfg, before).db, input);
    AppendKeepsKeys(Run(cfg, before).db, owed[0], input.now);
    moves := Taken(cfg, before, 1, input);
  }

  lemma ApprovalLoses(cfg: Config, before: seq<Move>) returns (moves: seq<Move>)
    requires var s := Run(cfg, before);
             && s.db.requests == map[ID := Apply(cfg, Pending(cfg), Remind, cfg.reminderAfter)]
             && Known(s.db, ReviewScope(Approve, ID), KEY, Fingerprint(cfg, Approve, ""))
             && |s.calls| == 2 && s.calls[1].Done?
             && s.calls[0] == Swapping(BOB, Pending(cfg), Decide(Approve, "", KEY), Some(cfg.reminderAfter), Answer)
    ensures Burned(cfg, moves, ID, KEY, Approve, "")
  {
    hide Act, Known, Pending, Apply, Fingerprint, ReviewScope, Swap;
    PendingFields(cfg);
    Reminded(cfg, Pending(cfg), cfg.reminderAfter);
    var s, input := Run(cfg, before), Input(cfg.reminderAfter, [], None);
    SwapLoses(cfg, s.calls[0], s.db);
    SwappingStage(cfg, s.calls[0], s.db, input);
    TakenRuns(cfg, before, 0, s.calls[0], input);
    TakenAlone(cfg, before, 0, input);
    moves := Taken(cfg, before, 0, input);
  }

  // ---------- Reports beyond the budget

  lemma ApproveScopeNew(key: string)
    requires key != KEY
    ensures Compound(ReviewScope(Approve, ID), key) != Compound(SubmitScope(ID), KEY)
    ensures Compound(ReviewScope(Approve, ID), key) != Compound(ReviewScope(Approve, ID), KEY)
  {
    var scope := ReviewScope(Approve, ID);
    assert Compound(scope, key)[0] == 'a' && Compound(SubmitScope(ID), KEY)[0] == 's';
    assert Compound(scope, key)[|scope| + 1..] == key && Compound(scope, KEY)[|scope| + 1..] == KEY;
  }

  /** The approved request, the two keys on record, and one thread, at rest. */
  ghost predicate ApprovedRun(cfg: Config, moves: seq<Move>) {
    var s := Run(cfg, moves);
    && s.db.requests == map[ID := ApprovedRow(cfg)]
    && s.db.idempotency.Keys == {Compound(SubmitScope(ID), KEY), Compound(ReviewScope(Approve, ID), KEY)}
    && |s.calls| == 1 && s.calls[0] == Done(Returned(ApprovedRow(cfg)))
  }

  function ApprovedRow(cfg: Config): Request {
    Apply(cfg, Pending(cfg), Decide(Approve, "", KEY), 0)
  }

  lemma ApprovedFields(cfg: Config)
    ensures var row := ApprovedRow(cfg); row.id == ID && row.status == Approved && row.attempts == 0
  {
  }

  /** Bob approves the submitted request. */
  lemma ApproveOne(cfg: Config) returns (before: seq<Move>, moves: seq<Move>)
    ensures Ran(before, moves, 0, ReviewRead(BOB, ID, KEY, Approve, "")) && ApprovedRun(cfg, moves)
  {
    hide Act, After, Apply, Blank, NewDraft, Compound, Fingerprint, Ran, OthersRan;
    before := SubmitOne(cfg);
    PendingFields(cfg);
    LettersNotBlank();
    ScopesDiffer();
    var db := Run(cfg, before).db;
    moves := CallAlone(cfg, before, 0, ReviewRead(BOB, ID, KEY, Approve, ""), Still(0, 7));
    ReviewSucceeds(cfg, db, BOB, ID, KEY, Approve, "", Still(0, 7));
  }

  /** Bob reports a result, undisturbed. */
  lemma ReportOne(cfg: Config, before: seq<Move>, success: bool) returns (moves: seq<Move>)
    requires var s := Run(cfg, before);
             && s.db.requests.Keys == {ID} && s.db.requests[ID].id == ID && AwaitsExecution(s.db.requests[ID])
             && |s.calls| == 1 && s.calls[0].Done?
    ensures var s, t := Run(cfg, before), Run(cfg, moves);
            && t.db.requests.Keys == {ID} && t.db.requests[ID].id == ID
            && t.db.requests[ID].attempts == s.db.requests[ID].attempts + 1
            && t.db.requests[ID].status == (if success then Executed else ExecutionFailed)
            && |t.calls| == 1 && t.calls[0].Done?
    ensures Ran(before, moves, 0, ResultRead(BOB, ID, success, ""))
  {
    hide Act, After, Ran, OthersRan, TrimSpace;
    var db := Run(cfg, before).db;
    moves := CallAlone(cfg, before, 0, ResultRead(BOB, ID, success, ""), Still(0, 4));
    ReportIgnoresBudget(cfg, db, BOB, ID, success, "", Still(0, 4));
  }

  /** Reported attempts are not bounded: for every configuration and every n there is a run whose request has exactly n
      attempts. */
  lemma {:induction false} ReportsUnbounded(cfg: Config, n: nat) returns (moves: seq<Move>)
    ensures var s := Run(cfg, moves);
            && s.db.requests.Keys == {ID} && s.db.requests[ID].id == ID
            && s.db.requests[ID].attempts == n && AwaitsExecution(s.db.requests[ID])
            && |s.calls| == 1 && s.calls[0].Done?
  {
    if n == 0 {
      var before;
      before, moves := ApproveOne(cfg);
      ApprovedFields(cfg);
    } else {
      moves := ReportsUnbounded(cfg, n - 1);
      moves := ReportOne(cfg, moves, false);
    }
  }

  // ---------- A replay that answers with a conflict

  /** Bob approves, a result is reported, and Bob's same approval, sent again, is answered with a conflict. */
  lemma ReplayConflicts(cfg: Config)
    returns (before: seq<Move>, approved: seq<Move>, executed: seq<Move>, replayed: seq<Move>)
    ensures var call := ReviewRead(BOB, ID, KEY, Approve, "");
            && Ran(before, approved, 0, call) && At(cfg, approved, 0, Done(Returned(ApprovedRow(cfg))))
            && Ran(approved, executed, 0, ResultRead(BOB, ID, true, ""))
            && Ran(executed, replayed, 0, call) && At(cfg, replayed, 0, Done(Failed(Conflict)))
  {
    hide Act, After, Ran, OthersRan, ApprovedRow;
    before, approved := ApproveOne(cfg);
    ApprovedFields(cfg);
    executed := ReportOne(cfg, approved, true);
    var db := Run(cfg, executed).db;
    var call, inputs := ReviewRead(BOB, ID, KEY, Approve, ""), Still(0, 1);
    replayed := CallAlone(cfg, executed, 0, call, inputs);
    FirstStage(cfg, call, db, inputs);
    ReviewReadStage(cfg, BOB, ID, KEY, Approve, "", db, inputs[0]);
    assert inputs[1..] == [];
    NoStage(cfg, Done(Failed(Conflict)), db);
  }

  // ---------- Replays that answer with the zero row

  /** Bob approves again without a key. */
  lemma BlankKeyGetsZeroRow(cfg: Config) returns (approved: seq<Move>, replayed: seq<Move>)
    ensures ApprovedRun(cfg, approved)
    ensures Ran(approved, replayed, 0, ReviewRead(BOB, ID, "", Approve, "")) && At(cfg, replayed, 0, Done(ZeroRow))
  {
    hide Act, After, Ran, OthersRan, ApprovedRow;
    var before;
    before, approved := ApproveOne(cfg);
    ApprovedFields(cfg);
    var db := Run(cfg, approved).db;
    var call, inputs := ReviewRead(BOB, ID, "", Approve, ""), Still(0, 1);
    replayed := CallAlone(cfg, approved, 0, call, inputs);
    FirstStage(cfg, call, db, inputs);
    ReviewReadStage(cfg, BOB, ID, "", Approve, "", db, inputs[0]);
    assert inputs[1..] == [];
    NoStage(cfg, Done(ZeroRow), db);
  }

  /** Thread 1 approves the approved request again with a new key, and has found no record of it. */
  lemma LoserLooks(cfg: Config, approved: seq<Move>, call: Call, own: Move) returns (read: seq<Move>)
    requires ApprovedRun(cfg, approved) && own == Stage(1, [], None) && call == ReviewRead(BOB, ID, "j", Approve, "")
    ensures read == approved + [Begin(1, call)] && At(cfg, read, 1, call)
    ensures Run(cfg, read).db == Run(cfg, approved).db
    ensures Run(cfg, read + [own]).db == Run(cfg, approved).db
    ensures Run(cfg, read + [own] + [own]).db == Run(cfg, approved).db
    ensures At(cfg, read + [own] + [own], 0, Done(Returned(ApprovedRow(cfg))))
  {
    hide Act, ApprovedRow, Blank, Compound, ReviewScope;
    read := approved + [Begin(1, call)];
    ApprovedFields(cfg);
    ApproveScopeNew("j");
    assert !Blank("j") by { NotBlank("j"); }
    var db, row := Run(cfg, approved).db, ApprovedRow(cfg);
    var find := ReviewFind(BOB, row, "j", Approve, "");
    BeginRuns(cfg, approved, 1, call);
    hide Run;
    StageRuns(cfg, read, 1, call, own);
    ReviewReadStage(cfg, BOB, ID, "j", Approve, "", db, Input(Run(cfg, read).clock, [], None));
    StageRuns(cfg, read + [own], 1, find, own);
    FindStage(cfg, find, db, Input(Run(cfg, read + [own]).clock, [], None));
    var middle := read + [own] + [own];
    assert middle[..|approved|] == approved;
    OthersKeep(cfg, approved, middle, 0, Done(Returned(row)));
  }

  /** Thread 0 makes the same approval and claims the key. */
  lemma WinnerClaims(cfg: Config, middle: seq<Move>, call: Call) returns (claim: seq<Move>)
    requires call == ReviewRead(BOB, ID, "j", Approve, "") && At(cfg, middle, 0, Done(Returned(ApprovedRow(cfg))))
    requires var db := Run(cfg, middle).db;
             db.requests == map[ID := ApprovedRow(cfg)] && !OnFile(db, ID, "j", Approve)
    ensures Ran(middle, claim, 0, call) && OthersRan(middle, claim, 1)
    ensures At(cfg, claim, 0, Done(Returned(ApprovedRow(cfg)))) && OnFile(Run(cfg, claim).db, ID, "j", Approve)
  {
    hide Act, After, ApprovedRow, Run, OnFile, Blank;
    ApprovedFields(cfg);
    assert !Blank("j") by { NotBlank("j"); }
    var db, inputs := Run(cfg, middle).db, Still(0, 3);
    claim := CallAlone(cfg, middle, 0, call, inputs);
    AfterThree(cfg, call, db, inputs);
    ZeroRowStages(cfg, db, db, db, BOB, ID, "j", Approve, "", inputs[0], inputs[1], inputs[2]);
  }

  /** So thread 1, when it claims, gets the zero row. */
  lemma LoserAnswers(cfg: Config, approved: seq<Move>, read: seq<Move>, claim: seq<Move>, own: Move)
    requires cfg.maxAttempts >= 1 && ApprovedRun(cfg, approved) && own == Stage(1, [], None)
    requires At(cfg, read, 1, ReviewRead(BOB, ID, "j", Approve, "")) && Run(cfg, read).db == Run(cfg, approved).db
    requires Run(cfg, read + [own]).db == Run(cfg, approved).db && OthersRan(read + [own] + [own], claim, 1)
    requires !OnFile(Run(cfg, approved).db, ID, "j", Approve) && OnFile(Run(cfg, claim).db, ID, "j", Approve)
    ensures At(cfg, claim + [own], 1, Done(ZeroRow))
  {
    ApprovedFields(cfg);
    hide ApprovedRow, Run, OnFile, Known, At, OthersRan, Blank;
    OthersRanNone(read + [own], 1);
    ZeroRowAnswers(cfg, read, own, read + [own], own, claim, own, 1, BOB, ID, "j", Approve, "");
  }

  lemma OthersRanNone(moves: seq<Move>, pid: nat)
    ensures OthersRan(moves, moves, pid)
  {
  }

  lemma NotOnFile(cfg: Config, approved: seq<Move>)
    requires ApprovedRun(cfg, approved)
    ensures var db := Run(cfg, approved).db; db.requests == map[ID := ApprovedRow(cfg)] && !OnFile(db, ID, "j", Approve)
  {
    hide Run, ApprovedRow, Compound, ReviewScope;
    ApproveScopeNew("j");
  }

  /** Two threads approve the approved request again with one and the same new key, and both find no record of it. The
      one that claims first answers with the row, the other with the zero row and a nil error. */
  lemma LostClaimGetsZeroRow(cfg: Config) returns (approved: seq<Move>, middle: seq<Move>, moves: seq<Move>)
    requires cfg.maxAttempts >= 1
    ensures var call := ReviewRead(BOB, ID, "j", Approve, "");
            && ApprovedRun(cfg, approved)
            && Ran(approved, moves, 1, call) && At(cfg, moves, 1, Done(ZeroRow))
            && Ran(middle, moves, 0, call) && At(cfg, moves, 0, Done(Returned(ApprovedRow(cfg))))
  {
    hide ApprovedRow, Run, ApprovedRun, OnFile, At, Ran;
    var before;
    before, approved := ApproveOne(cfg);
    var call, own := ReviewRead(BOB, ID, "j", Approve, ""), Stage(1, [], None);
    var read := LoserLooks(cfg, approved, call, own);
    middle := read + [own] + [own];
    NotOnFile(cfg, approved);
    var claim := WinnerClaims(cfg, middle, call);
    moves := claim + [own];
    LoserAnswers(cfg, approved, read, claim, own);
    RanBoth(approved, read, middle, claim, moves, call, own);
    hide NoneBegun;
    WinnerStays(cfg, claim, own);
  }

  lemma WinnerStays(cfg: Config, claim: seq<Move>, own: Move)
    requires At(cfg, claim, 0, Done(Returned(ApprovedRow(cfg)))) && own == Stage(1, [], None)
    ensures At(cfg, claim + [own], 0, Done(Returned(ApprovedRow(cfg))))
  {
    hide Run, ApprovedRow, At;
    OthersKeep(cfg, claim, claim + [own], 0, Done(Returned(ApprovedRow(cfg))));
  }

  lemma RanBoth(approved: seq<Move>, read: seq<Move>, middle: seq<Move>, claim: seq<Move>, moves: seq<Move>, call: Call,
                own: Move)
    requires own == Stage(1, [], None) && read == approved + [Begin(1, call)] && middle == read + [own] + [own]
    requires Ran(middle, claim, 0, call) && OthersRan(middle, claim, 1) && moves == claim + [own]
    ensures Ran(approved, moves, 1, call) && Ran(middle, moves, 0, call)
  {
    assert middle[..|read|] == read && moves[..|claim|] == claim;
    NoneBegunTransitive(read, middle, claim, 1);
    NoneBegunTransitive(read, claim, moves, 1);
    NoneBegunTransitive(middle + [Begin(0, call)], claim, moves, 0);
  }
}
