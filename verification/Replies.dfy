/** What an API call answers, measured against what it did: linearisation seen from the client. */
module Replies {
  import opened Domain
  import opened Workflow
  import opened Database
  import opened Calls
  import opened Machine
  import opened Schedules
  import opened Stages

  /** A transition that a thread performed, and the rows it was performed on. */
  datatype Win = Win(before: Rows, event: Event)

  /** The transitions that thread `pid` performed after the schedule `first`. */
  ghost function Wins(cfg: Config, first: seq<Move>, later: seq<Move>, pid: nat): seq<Win>
    decreases |later|
  {
    if |later| <= |first| then []
    else
      var before, move := later[..|later| - 1], later[|later| - 1];
      Wins(cfg, first, before, pid)
      + if move.Stage? && move.pid == pid then MoveWins(Run(cfg, before), move) else []
  }

  function MoveWins(s: System, move: Move): seq<Win>
    requires move.Stage?
  {
    if move.pid < |s.calls| then StageWins(s.calls[move.pid], s.db) else []
  }

  function StageWins(call: Call, db: Db): seq<Win> {
    if StageEvent(call, db) == [] then [] else [Win(db.requests, StageEvent(call, db)[0])]
  }

  function Target(event: Event): string {
    match event
    case Created(row) => row.id
    case Changed(id, _, _, _, _) => id
  }

  /** The transition, performed on the rows it found, left this row. */
  ghost predicate Wrote(cfg: Config, win: Win, row: Request) {
    && row.id == Target(win.event)
    && Perform(cfg, win.before, win.event).Some?
    && StoredIn(Perform(cfg, win.before, win.event).value, row)
  }

  predicate StoredIn(rows: Rows, row: Request) {
    row.id in rows && rows[row.id] == row
  }

  /** The table held this row at some instant between the two schedules. */
  ghost predicate Held(cfg: Config, first: seq<Move>, later: seq<Move>, row: Request) {
    exists k :: |first| <= k <= |later| && StoredIn(Run(cfg, later[..k]).db.requests, row)
  }

  /** The change is the one that `origin` asks for. */
  predicate Asks(origin: Call, id: string, actor: Actor, change: Change) {
    match change
    case Submit(key) => origin == SubmitRead(actor, id, key)
    case Decide(d, comment, key) => origin == ReviewRead(actor, id, key, d, comment)
    case Execute(success, message) => origin == ResultRead(actor, id, success, message)
    case Remind => false
  }

  predicate AsksFor(origin: Call, event: Event) {
    match event
    case Created(row) => origin.Drafting? && row == NewDraft(origin.id, origin.actor, origin.input, row.createdAt)
    case Changed(id, actor, change, _, _) => Asks(origin, id, actor, change)
  }

  /** `call` is a stage of the API call that began as `origin`. */
  predicate Stems(origin: Call, call: Call) {
    match call
    case Drafting(_, _, _) => call == origin
    case Creating(actor, row) => AsksFor(origin, Created(row)) && actor == origin.actor
    case SubmitRead(_, _, _) => call == origin
    case SubmitFind(actor, snap, key) => origin == SubmitRead(actor, snap.id, key)
    case SubmitClaim(actor, snap, key) => origin == SubmitRead(actor, snap.id, key)
    case SubmitRecheck(actor, snap, key) => origin == SubmitRead(actor, snap.id, key)
    case Reread(id) => (origin.SubmitRead? || origin.ReviewRead?) && origin.id == id
    case ReviewRead(_, _, _, _, _) => call == origin
    case ReviewFind(actor, snap, key, d, comment) => origin == ReviewRead(actor, snap.id, key, d, comment)
    case ReviewClaim(actor, snap, key, d, comment) => origin == ReviewRead(actor, snap.id, key, d, comment)
    case ResultRead(_, _, _, _) => call == origin
    case Swapping(actor, snap, change, _, then_) => then_ == Answer && Asks(origin, snap.id, actor, change)
    case Logging(row, _, then_) => then_ == Answer && Api(origin) && row.id == origin.id
    case Done(Returned(row)) => Api(origin) && row.id == origin.id
    case Done(_) => true
    case _ => false
  }

  /** The calls of the HTTP handlers. */
  predicate Api(origin: Call) {
    origin.Drafting? || origin.SubmitRead? || origin.ReviewRead? || origin.ResultRead?
  }

  /** The row that a call would answer with as it stands. */
  function Showing(call: Call): seq<Request> {
    match call
    case ReviewFind(_, snap, _, _, _) => [snap]
    case ReviewClaim(_, snap, _, _, _) => [snap]
    case Logging(row, _, _) => [row]
    case Done(Returned(row)) => [row]
    case _ => []
  }

  /** What a call has performed so far agrees with where it stands. */
  ghost predicate Vouched(cfg: Config, origin: Call, call: Call, wins: seq<Win>) {
    match call
    case Logging(row, _, _) => |wins| == 1 && Wrote(cfg, wins[0], row) && AsksFor(origin, wins[0].event)
    case Done(Returned(row)) =>
      wins == [] || (|wins| == 1 && Wrote(cfg, wins[0], row) && AsksFor(origin, wins[0].event))
    case _ => wins == []
  }

  // ---------- One stage

  lemma ReviewShows(cfg: Config, origin: Call, call: Call, db: Db, input: Input)
    requires RowsOk(cfg, db.requests) && Stems(origin, call) && Reviewing(call)
    ensures var (c, d) := Act(cfg, call, db, input);
            && Stems(origin, c) && !c.Logging?
            && forall q <- Showing(c) :: q in Showing(call) || StoredIn(db.requests, q)
  {
    hide Shape, Fingerprint, ReviewScope, Compound, Blank, CanReview;
  }

  lemma SubmitShows(cfg: Config, origin: Call, call: Call, db: Db, input: Input)
    requires RowsOk(cfg, db.requests) && Stems(origin, call)
    requires call.SubmitFind? || call.SubmitClaim? || call.SubmitRecheck?
    ensures var (c, d) := Act(cfg, call, db, input);
            && Stems(origin, c) && !c.Logging?
            && forall q <- Showing(c) :: q in Showing(call) || StoredIn(db.requests, q)
  {
    hide Shape, RowsOk, SubmitScope, Compound;
  }

  lemma FetchShows(cfg: Config, origin: Call, call: Call, db: Db, input: Input)
    requires RowsOk(cfg, db.requests) && Stems(origin, call)
    requires call.SubmitRead? || call.Reread?
    ensures var (c, d) := Act(cfg, call, db, input);
            && Stems(origin, c) && !c.Logging?
            && forall q <- Showing(c) :: q in Showing(call) || StoredIn(db.requests, q)
  {
    hide Shape, Blank, MaySubmit;
  }

  lemma OtherShows(cfg: Config, origin: Call, call: Call, db: Db, input: Input)
    requires RowsOk(cfg, db.requests) && Stems(origin, call)
    requires call.Drafting? || call.ResultRead? || call.Done? || (call.Swapping? && call.at.None?)
    ensures var (c, d) := Act(cfg, call, db, input);
            && Stems(origin, c) && !c.Logging?
            && forall q <- Showing(c) :: q in Showing(call) || StoredIn(db.requests, q)
  {
    hide Shape, Blank, TrimSpace;
  }

  /** A stage that neither creates, swaps nor logs. */
  lemma ReadShows(cfg: Config, origin: Call, call: Call, db: Db, input: Input)
    requires RowsOk(cfg, db.requests) && Stems(origin, call)
    requires !call.Creating? && !call.Logging? && !(call.Swapping? && call.at.Some?)
    ensures var (c, d) := Act(cfg, call, db, input);
            && Stems(origin, c) && !c.Logging? && StageWins(call, db) == []
            && forall q <- Showing(c) :: q in Showing(call) || StoredIn(db.requests, q)
  {
    hide Act, RowsOk, Asks, Showing;
    if Reviewing(call) {
      ReviewShows(cfg, origin, call, db, input);
    } else if call.Drafting? || call.ResultRead? || call.Done? || call.Swapping? {
      OtherShows(cfg, origin, call, db, input);
    } else if call.SubmitRead? || call.Reread? {
      FetchShows(cfg, origin, call, db, input);
    } else {
      SubmitShows(cfg, origin, call, db, input);
    }
  }

  lemma SwapShows(cfg: Config, origin: Call, call: Call, db: Db)
    requires cfg.maxAttempts >= 1 && RowsOk(cfg, db.requests) && CallOk(cfg, call, db.requests)
    requires call.Swapping? && call.at.Some? && Stems(origin, call)
    ensures var (c, d) := Swap(cfg, call, db);
            && Stems(origin, c) && Vouched(cfg, origin, c, StageWins(call, db))
            && forall q <- Showing(c) :: StoredIn(d.requests, q)
  {
    hide Apply, Owes, RowsOk, Grows, Shape, Descends, SwapOk;
    ApplyKeepsId(cfg, call.snap, call.change, call.at.value);
    if StageEvent(call, db) != [] {
      SwapWins(cfg, call, db);
    }
  }

  lemma CreateShows(cfg: Config, origin: Call, call: Call, db: Db, input: Input)
    requires call.Creating? && FreshId(db, call.row.id) && CallOk(cfg, call, db.requests) && Stems(origin, call)
    ensures var (c, d) := Act(cfg, call, db, input);
            && Stems(origin, c) && Vouched(cfg, origin, c, StageWins(call, db))
            && forall q <- Showing(c) :: StoredIn(d.requests, q)
  {
  }

  /** A stage of a call, with what the call had performed before it: it stays vouched for, and what it would answer with
      was so already or is stored now. */
  ghost predicate StaysVouched(cfg: Config, origin: Call, call: Call, db: Db, wins: seq<Win>, input: Input) {
    var (c, d) := Act(cfg, call, db, input);
    && Stems(origin, c) && Vouched(cfg, origin, c, wins + StageWins(call, db))
    && forall q <- Showing(c) :: q in Showing(call) || StoredIn(d.requests, q)
  }

  lemma SwapVouches(cfg: Config, origin: Call, call: Call, db: Db, input: Input)
    requires cfg.maxAttempts >= 1 && RowsOk(cfg, db.requests) && CallOk(cfg, call, db.requests)
    requires call.Swapping? && call.at.Some? && Stems(origin, call)
    ensures StaysVouched(cfg, origin, call, db, [], input)
  {
    SwapShows(cfg, origin, call, db);
    assert [] + StageWins(call, db) == StageWins(call, db);
    hide RowsOk, CallOk, Swap, Showing, Vouched, StageWins, Asks, StoredIn;
  }

  lemma CreateVouches(cfg: Config, origin: Call, call: Call, db: Db, input: Input)
    requires cfg.maxAttempts >= 1 && CallOk(cfg, call, db.requests) && call.Creating? && Stems(origin, call)
    ensures StaysVouched(cfg, origin, call, db, [], input)
  {
    hide CallOk, StoredIn, AsksFor, Wrote;
    assert [] + StageWins(call, db) == StageWins(call, db);
    if FreshId(db, call.row.id) {
      CreateShows(cfg, origin, call, db, input);
    }
  }

  lemma LogVouches(cfg: Config, origin: Call, call: Call, db: Db, input: Input, wins: seq<Win>)
    requires call.Logging? && Stems(origin, call) && Vouched(cfg, origin, call, wins)
    ensures StaysVouched(cfg, origin, call, db, wins, input)
  {
    hide Append, StoredIn, Wrote, AsksFor;
    assert wins + StageWins(call, db) == wins;
  }

  lemma ReadVouches(cfg: Config, origin: Call, call: Call, db: Db, input: Input, wins: seq<Win>)
    requires RowsOk(cfg, db.requests) && CallOk(cfg, call, db.requests)
    requires Stems(origin, call) && Vouched(cfg, origin, call, wins)
    requires !call.Creating? && !call.Logging? && !(call.Swapping? && call.at.Some?)
    ensures StaysVouched(cfg, origin, call, db, wins, input)
  {
    hide Act, RowsOk, CallOk, StoredIn, Wrote, AsksFor, Stems, Showing, StageWins;
    ReadShows(cfg, origin, call, db, input);
    QuietRows(cfg, origin, call, db, input);
    assert wins + StageWins(call, db) == wins;
    if call.Done? { DoneStage(cfg, call, db, input); }
  }

  lemma ActVouches(cfg: Config, origin: Call, call: Call, db: Db, input: Input, wins: seq<Win>)
    requires cfg.maxAttempts >= 1 && RowsOk(cfg, db.requests) && CallOk(cfg, call, db.requests)
    requires Stems(origin, call) && Vouched(cfg, origin, call, wins)
    ensures StaysVouched(cfg, origin, call, db, wins, input)
  {
    hide RowsOk, CallOk, Stems, StaysVouched, Wrote, AsksFor;
    if call.Swapping? && call.at.Some? {
      SwapVouches(cfg, origin, call, db, input);
    } else if call.Creating? {
      CreateVouches(cfg, origin, call, db, input);
    } else if call.Logging? {
      LogVouches(cfg, origin, call, db, input, wins);
    } else {
      ReadVouches(cfg, origin, call, db, input, wins);
    }
  }

  lemma QuietRows(cfg: Config, origin: Call, call: Call, db: Db, input: Input)
    requires RowsOk(cfg, db.requests) && CallOk(cfg, call, db.requests)
    requires Stems(origin, call) && !call.Creating? && !call.Logging? && !(call.Swapping? && call.at.Some?)
    ensures Act(cfg, call, db, input).1.requests == db.requests
  {
    hide CallOk, RowsOk;
    if !call.Swapping? {
      hide Act;
      ReadCore(cfg, call, db, input);
    }
  }

  // ---------- A whole call

  /** Thread `pid`, whose call began as `origin` at the end of `first`, has done what it is about to answer. */
  ghost predicate Sincere(cfg: Config, origin: Call, first: seq<Move>, later: seq<Move>, pid: nat) {
    var calls := Run(cfg, later).calls;
    && pid < |calls| && Stems(origin, calls[pid]) && Vouched(cfg, origin, calls[pid], Wins(cfg, first, later, pid))
    && forall q <- Showing(calls[pid]) :: Held(cfg, first, later, q)
  }

  lemma HeldLater(cfg: Config, first: seq<Move>, before: seq<Move>, move: Move, row: Request)
    requires |first| <= |before|
    requires Held(cfg, first, before, row) || StoredIn(Run(cfg, before + [move]).db.requests, row)
    ensures Held(cfg, first, before + [move], row)
  {
    hide Run;
    var later := before + [move];
    assert later[..|later|] == later;
    if Held(cfg, first, before, row) {
      var k :| |first| <= k <= |before| && StoredIn(Run(cfg, before[..k]).db.requests, row);
      assert later[..k] == before[..k];
    }
  }

  lemma WinsMore(cfg: Config, first: seq<Move>, before: seq<Move>, move: Move, pid: nat)
    requires |first| <= |before|
    ensures Wins(cfg, first, before + [move], pid)
            == Wins(cfg, first, before, pid)
               + if move.Stage? && move.pid == pid then MoveWins(Run(cfg, before), move) else []
  {
    assert (before + [move])[..|before|] == before;
  }

  lemma MoveSincere(cfg: Config, origin: Call, first: seq<Move>, before: seq<Move>, move: Move, pid: nat)
    requires cfg.maxAttempts >= 1 && |first| <= |before|
    requires Sincere(cfg, origin, first, before, pid) && !(move.Begin? && move.pid == pid)
    ensures Sincere(cfg, origin, first, before + [move], pid)
  {
    hide Act, Wins, Held, Vouched, StoredIn, Stems, Showing, Run, Core;
    var s, t := Run(cfg, before), Run(cfg, before + [move]);
    var call, wins := s.calls[pid], Wins(cfg, first, before, pid);
    RunOne(cfg, before, move);
    WinsMore(cfg, first, before, move, pid);
    if move.Stage? && move.pid == pid {
      CoreAt(cfg, before, pid);
      ActVouches(cfg, origin, call, s.db, Input(s.clock, move.pick, move.outcome), wins);
    } else {
      assert t.calls[pid] == call;
      assert wins + [] == wins;
    }
    forall q <- Showing(t.calls[pid]) ensures Held(cfg, first, before + [move], q) {
      HeldLater(cfg, first, before, move, q);
    }
  }

  lemma CoreAt(cfg: Config, moves: seq<Move>, pid: nat)
    requires cfg.maxAttempts >= 1 && pid < |Run(cfg, moves).calls|
    ensures var s := Run(cfg, moves); RowsOk(cfg, s.db.requests) && CallOk(cfg, s.calls[pid], s.db.requests)
  {
    hide Run, RowsOk, CallOk;
    RunCore(cfg, moves);
  }

  lemma {:induction false} CallSincere(cfg: Config, origin: Call, first: seq<Move>, later: seq<Move>, pid: nat)
    requires cfg.maxAttempts >= 1 && At(cfg, first, pid, origin) && Api(origin) && NoneBegun(first, later, pid)
    ensures Sincere(cfg, origin, first, later, pid)
    decreases |later|
  {
    hide Run;
    if |later| == |first| {
      assert later == first;
    } else {
      hide Sincere;
      var before, move := later[..|later| - 1], later[|later| - 1];
      assert before[..|first|] == later[..|first|] && before + [move] == later;
      CallSincere(cfg, origin, first, before, pid);
      MoveSincere(cfg, origin, first, before, move, pid);
    }
  }

  lemma {:induction false} WinsAreEvents(cfg: Config, first: seq<Move>, later: seq<Move>, pid: nat)
    ensures forall win <- Wins(cfg, first, later, pid) :: win.event in Events(cfg, later)
    decreases |later|
  {
    if |later| > |first| {
      hide Run;
      WinsAreEvents(cfg, first, later[..|later| - 1], pid);
    }
  }

  /** Answers are true. Whatever runs beside it, an API call that answers with a row answers with a row of the request
      it was made for, one that the table held at some instant during the call; if the call performed a transition at
      all it was a single one, the one it was asked for and among those of `Machine.Linearisable`, and the row is what
      that transition left. A call that answers with an error, or with the zero row, performed none. */
  lemma AnswersAreTrue(cfg: Config, origin: Call, first: seq<Move>, later: seq<Move>, pid: nat, reply: Reply)
    requires cfg.maxAttempts >= 1 && At(cfg, first, pid, origin) && Api(origin)
    requires NoneBegun(first, later, pid) && At(cfg, later, pid, Done(reply))
    ensures var wins := Wins(cfg, first, later, pid);
            && (forall win <- wins :: win.event in Events(cfg, later))
            && if !reply.Returned? then wins == []
               else
                 && reply.row.id == origin.id && Held(cfg, first, later, reply.row)
                 && |wins| <= 1 && forall win <- wins :: Wrote(cfg, win, reply.row) && AsksFor(origin, win.event)
  {
    hide Run, Wins, Held, Wrote, AsksFor;
    CallSincere(cfg, origin, first, later, pid);
    WinsAreEvents(cfg, first, later, pid);
    if reply.Returned? { assert reply.row in Showing(Done(reply)); }
  }

  /** A pending swap of an API call is settled by its next stage: either it performs its transition and the call is
      bound to answer with the row it wrote, or it performs none and the call has failed. */
  lemma SwapSettles(cfg: Config, moves: seq<Move>, pid: nat, call: Call, own: Move)
    requires cfg.maxAttempts >= 1 && own.Stage? && own.pid == pid && At(cfg, moves, pid, call)
    requires call.Swapping? && call.at.Some? && call.then_ == Answer
    ensures var row := Apply(cfg, call.snap, call.change, call.at.value);
            var after := Run(cfg, moves + [own]).calls;
            && pid < |after|
            && if EventOf(Run(cfg, moves), own) == [Changed(call.snap.id, call.actor, call.change, call.at.value, None)]
               then Showing(after[pid]) == [row]
               else EventOf(Run(cfg, moves), own) == [] && after[pid] == Done(Failed(Conflict))
  {
    hide Run, Act, Apply, Shape, Owes, SwapOk, RowsOk;
    var s := Run(cfg, moves);
    CoreAt(cfg, moves, pid);
    RunOne(cfg, moves, own);
    ApplyKeepsId(cfg, call.snap, call.change, call.at.value);
    SwappingStage(cfg, call, s.db, Input(s.clock, own.pick, own.outcome));
  }
}
