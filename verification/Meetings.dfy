/** A call seen on its own: its stages over the stores it meets, each as the other calls have left it. What holds over
    any stores holds of the call in any run. */
module Meetings {
  import opened Workflow
  import opened Database
  import opened Calls
  import opened Machine
  import opened Schedules
  import opened Stages

  /** The store and the world that one stage meets. */
  datatype Met = Met(db: Db, input: Input)

  /** The stage a call has reached after meeting these. */
  ghost function Through(cfg: Config, call: Call, met: seq<Met>): Call {
    if met == [] then call
    else
      var last := met[|met| - 1];
      Act(cfg, Through(cfg, call, met[..|met| - 1]), last.db, last.input).0
  }

  /** The store as stage `i` leaves it. */
  ghost function Left(cfg: Config, call: Call, met: seq<Met>, i: nat): Db
    requires i < |met|
  {
    Act(cfg, Through(cfg, call, met[..i]), met[i].db, met[i].input).1
  }

  /** The stages from `i` on leave the stores as they found them. */
  ghost predicate Spares(cfg: Config, call: Call, met: seq<Met>, i: nat) {
    forall k :: i <= k < |met| ==> Left(cfg, call, met, k) == met[k].db
  }

  lemma AtFirst(cfg: Config, call: Call, met: seq<Met>)
    ensures Through(cfg, call, met[..0]) == call
  {
  }

  /** One stage further. */
  lemma Next(cfg: Config, call: Call, met: seq<Met>, i: nat)
    requires i < |met|
    ensures Act(cfg, Through(cfg, call, met[..i]), met[i].db, met[i].input)
            == (Through(cfg, call, met[..i + 1]), Left(cfg, call, met, i))
  {
    hide Act;
    assert met[..i + 1][..i] == met[..i];
  }

  /** A call that is done stays so. */
  lemma {:induction false} Over(cfg: Config, call: Call, met: seq<Met>, i: nat)
    requires i <= |met| && Through(cfg, call, met[..i]).Done?
    ensures Through(cfg, call, met) == Through(cfg, call, met[..i]) && Spares(cfg, call, met, i)
    decreases |met| - i
  {
    hide Act;
    if i < |met| {
      Next(cfg, call, met, i);
      DoneStage(cfg, Through(cfg, call, met[..i]), met[i].db, met[i].input);
      Over(cfg, call, met, i + 1);
    } else {
      assert met[..i] == met;
    }
  }

  /** What a call that is done might meet further makes no difference. */
  lemma Padded(cfg: Config, call: Call, met: seq<Met>, more: seq<Met>)
    requires Through(cfg, call, met).Done?
    ensures Through(cfg, call, met + more) == Through(cfg, call, met)
    ensures forall i :: 0 <= i < |met| ==> Left(cfg, call, met + more, i) == Left(cfg, call, met, i)
  {
    hide Act;
    assert (met + more)[..|met|] == met;
    Over(cfg, call, met + more, |met|);
    forall i | 0 <= i < |met| ensures Left(cfg, call, met + more, i) == Left(cfg, call, met, i) {
      assert (met + more)[..i] == met[..i];
    }
  }

  // ---------- In runs

  /** What thread `pid` met after the schedule `first`. */
  ghost function MetBy(cfg: Config, first: seq<Move>, later: seq<Move>, pid: nat): seq<Met>
    decreases |later|
  {
    if |later| <= |first| then []
    else
      var before, move := later[..|later| - 1], later[|later| - 1];
      var s := Run(cfg, before);
      MetBy(cfg, first, before, pid)
      + if move.Stage? && move.pid == pid then [Met(s.db, Input(s.clock, move.pick, move.outcome))] else []
  }

  /** In any run, a thread is where the stores it met have brought its call. */
  lemma {:induction false} RunThrough(cfg: Config, first: seq<Move>, later: seq<Move>, pid: nat, call: Call)
    requires At(cfg, first, pid, call) && NoneBegun(first, later, pid)
    ensures At(cfg, later, pid, Through(cfg, call, MetBy(cfg, first, later, pid)))
    decreases |later|
  {
    if |later| == |first| {
      assert later == first;
    } else {
      hide Act, Run;
      var before, move := later[..|later| - 1], later[|later| - 1];
      assert before[..|first|] == later[..|first|] && before + [move] == later;
      RunThrough(cfg, first, before, pid, call);
      var met := MetBy(cfg, first, before, pid);
      if move.Stage? && move.pid == pid {
        var s := Run(cfg, before);
        var last := Met(s.db, Input(s.clock, move.pick, move.outcome));
        StageRuns(cfg, before, pid, Through(cfg, call, met), move);
        assert (met + [last])[..|met|] == met;
      } else {
        assert OthersRan(before, later, pid) by { OneOther(before, move, pid); }
        OthersKeep(cfg, before, later, pid, Through(cfg, call, met));
        assert met + [] == met;
      }
    }
  }

  lemma OneOther(before: seq<Move>, move: Move, pid: nat)
    requires move.Tick? || move.pid != pid
    ensures OthersRan(before, before + [move], pid)
  {
  }

  /** Each store met is that of the run before a stage of the thread, and is left as the run has it after that stage. */
  lemma {:induction false} MetInRun(cfg: Config, first: seq<Move>, later: seq<Move>, pid: nat, call: Call, j: nat)
    returns (k: nat)
    requires At(cfg, first, pid, call) && NoneBegun(first, later, pid) && j < |MetBy(cfg, first, later, pid)|
    ensures |first| <= k < |later| && later[k].Stage? && later[k].pid == pid
    ensures var met := MetBy(cfg, first, later, pid);
            Run(cfg, later[..k]).db == met[j].db && Run(cfg, later[..k + 1]).db == Left(cfg, call, met, j)
    decreases |later|
  {
    hide Act, Run;
    assert |later| > |first|;
    var before, move := later[..|later| - 1], later[|later| - 1];
    assert before[..|first|] == later[..|first|] && before + [move] == later;
    assert NoneBegun(first, before, pid);
    var met, all := MetBy(cfg, first, before, pid), MetBy(cfg, first, later, pid);
    if j < |met| {
      k := MetInRun(cfg, first, before, pid, call, j);
      assert before[..k] == later[..k] && before[..k + 1] == later[..k + 1] && met[..j] == all[..j];
    } else {
      k := |later| - 1;
      RunThrough(cfg, first, before, pid, call);
      StageRuns(cfg, before, pid, Through(cfg, call, met), move);
      assert all[..j] == met && later[..k + 1] == later;
    }
  }
}
