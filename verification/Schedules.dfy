/** Schedules: how one extends another, and what a thread's own moves and those of the others do to it. */
module Schedules {
  import opened Workflow
  import opened Calls
  import opened Machine

  /** `later` extends `earlier` by moves of other threads only. */
  ghost predicate OthersRan(earlier: seq<Move>, later: seq<Move>, pid: nat) {
    && |earlier| <= |later| && later[..|earlier|] == earlier
    && forall i :: |earlier| <= i < |later| ==> later[i].Tick? || later[i].pid != pid
  }

  /** `later` extends `earlier`, and thread `pid` begins no call in between. */
  ghost predicate NoneBegun(earlier: seq<Move>, later: seq<Move>, pid: nat) {
    && |earlier| <= |later| && later[..|earlier|] == earlier
    && forall i :: |earlier| <= i < |later| ==> !(later[i].Begin? && later[i].pid == pid)
  }

  /** `later` extends `earlier`, and in between thread `pid` begins exactly this call, first of all. */
  ghost predicate Ran(earlier: seq<Move>, later: seq<Move>, pid: nat, call: Call) {
    NoneBegun(earlier + [Begin(pid, call)], later, pid)
  }

  /** Thread `pid` is at this stage after these moves. */
  ghost predicate At(cfg: Config, moves: seq<Move>, pid: nat, call: Call) {
    pid < |Run(cfg, moves).calls| && Run(cfg, moves).calls[pid] == call
  }

  ghost predicate Free(cfg: Config, moves: seq<Move>, pid: nat) {
    var calls := Run(cfg, moves).calls;
    pid == |calls| || (pid < |calls| && calls[pid].Done?)
  }

  lemma RunOne(cfg: Config, moves: seq<Move>, move: Move)
    ensures Run(cfg, moves + [move]) == Step(cfg, Run(cfg, moves), move)
  {
    assert (moves + [move])[..|moves|] == moves;
  }

  /** One stage of a thread is one stage of its call. */
  lemma StageRuns(cfg: Config, moves: seq<Move>, pid: nat, call: Call, stage: Move)
    requires At(cfg, moves, pid, call) && stage.Stage? && stage.pid == pid
    ensures var s, t := Run(cfg, moves), Run(cfg, moves + [stage]);
            var (c, d) := Act(cfg, call, s.db, Input(s.clock, stage.pick, stage.outcome));
            At(cfg, moves + [stage], pid, c) && t.db == d && t.clock == s.clock
    ensures NoneBegun(moves, moves + [stage], pid)
  {
    hide Act, Run;
    RunOne(cfg, moves, stage);
  }

  lemma TickRuns(cfg: Config, moves: seq<Move>, pid: nat, call: Call, delta: int)
    requires At(cfg, moves, pid, call)
    ensures var s, t := Run(cfg, moves), Run(cfg, moves + [Tick(delta)]);
            At(cfg, moves + [Tick(delta)], pid, call) && t.db == s.db && t.clock == s.clock + delta
    ensures NoneBegun(moves, moves + [Tick(delta)], pid)
  {
    hide Act, Run;
    RunOne(cfg, moves, Tick(delta));
  }

  lemma BeginRuns(cfg: Config, moves: seq<Move>, pid: nat, call: Call)
    requires Free(cfg, moves, pid) && Initial(call)
    ensures At(cfg, moves + [Begin(pid, call)], pid, call)
    ensures Run(cfg, moves + [Begin(pid, call)]).db == Run(cfg, moves).db
    ensures Run(cfg, moves + [Begin(pid, call)]).clock == Run(cfg, moves).clock
    ensures Ran(moves, moves + [Begin(pid, call)], pid, call)
  {
    RunOne(cfg, moves, Begin(pid, call));
  }

  /** Other threads cannot move this one. */
  lemma {:induction false} OthersKeep(cfg: Config, earlier: seq<Move>, later: seq<Move>, pid: nat, call: Call)
    requires At(cfg, earlier, pid, call) && OthersRan(earlier, later, pid)
    ensures At(cfg, later, pid, call)
    decreases |later|
  {
    if |later| > |earlier| {
      hide Act;
      var before := later[..|later| - 1];
      assert before[..|earlier|] == later[..|earlier|];
      OthersKeep(cfg, earlier, before, pid, call);
      RunOne(cfg, before, later[|later| - 1]);
      assert before + [later[|later| - 1]] == later;
    } else {
      assert later == earlier;
    }
  }

  lemma NoneBegunTransitive(a: seq<Move>, b: seq<Move>, c: seq<Move>, pid: nat)
    requires NoneBegun(a, b, pid) && (NoneBegun(b, c, pid) || OthersRan(b, c, pid))
    ensures NoneBegun(a, c, pid)
  {
    assert c[..|a|] == c[..|b|][..|a|];
    forall i | |a| <= i < |c| ensures !(c[i].Begin? && c[i].pid == pid) {
      if i < |b| { assert c[i] == c[..|b|][i]; }
    }
  }
}
