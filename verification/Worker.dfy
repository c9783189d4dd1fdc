/** The background worker (internal/jobs/worker.go): one thread that makes a reminder pass and then an execution pass,
    over and over. */
module WorkerCode {
  import opened Domain
  import opened Workflow
  import opened Calls
  import opened Machine
  import opened Schedules
  import opened Executions
  import opened ServiceCode

  /** The schedules at the start of a pass, between its two calls and at its end. */
  datatype Pass = Pass(start: seq<Move>, between: seq<Move>, end: seq<Move>)

  /** A complete reminder call and then a complete execution call of thread `pid`. */
  ghost predicate IsPass(cfg: Config, pid: nat, batchSize: int, p: Pass) {
    && Ran(p.start, p.between, pid, RemindStart(batchSize)) && At(cfg, p.between, pid, Done(Finished))
    && Ran(p.between, p.end, pid, ExecuteStart(batchSize)) && At(cfg, p.end, pid, Done(Finished))
  }

  /** The executor calls of a thread, whatever interferes: for each request their attempt numbers increase within the
      budget, so there are at most that many. */
  ghost predicate CallsLimited(cfg: Config, moves: seq<Move>, pid: nat) {
    Bounded(cfg, Run(cfg, moves)) && forall id :: |CallsBy(Run(cfg, moves).history, pid, id)| <= cfg.maxAttempts
  }

  lemma CallsAreLimited(cfg: Config, moves: seq<Move>, pid: nat)
    requires cfg.maxAttempts >= 1
    ensures CallsLimited(cfg, moves, pid)
  {
    hide Run;
    ExecutorCallsBounded(cfg, moves);
    forall id ensures |CallsBy(Run(cfg, moves).history, pid, id)| <= cfg.maxAttempts {
      ExecutorCallCount(cfg, moves, pid, id);
    }
  }

  class Worker {
    const service: Service
    const batchSize: int

    constructor (service: Service, batchSize: int)
      ensures this.service == service && this.batchSize == if batchSize <= 0 then 25 else batchSize
    {
      this.service := service;
      this.batchSize := if batchSize <= 0 then 25 else batchSize;
    }

    /** `run`: `between` is the schedule when the reminder pass has ended and the execution pass begins. */
    method RunOnce(ghost pid: nat) returns (ghost between: seq<Move>)
      requires service.Valid() && Free(service.cfg, service.moves, pid)
      modifies service`moves, service`clock, service.store
      ensures service.Valid()
      ensures IsPass(service.cfg, pid, batchSize, Pass(old(service.moves), between, service.moves))
    {
      hide Run;
      service.ProcessDueReminders(pid, batchSize);
      between := service.moves;
      service.ProcessDueExecutions(pid, batchSize);
    }

    /** `Start`, for as many ticks as come before the context is done: one pass at once and one at each tick, complete
        and in turn, with nothing of its own before, between or after them, whatever other threads do meanwhile. */
    method Start(ghost pid: nat, ticks: nat) returns (ghost passes: seq<Pass>)
      requires service.Valid() && Free(service.cfg, service.moves, pid)
      modifies service`moves, service`clock, service.store
      ensures service.Valid() && |passes| == ticks + 1
      ensures passes[0].start == old(service.moves) && passes[ticks].end == service.moves
      ensures forall i :: 0 <= i <= ticks ==> IsPass(service.cfg, pid, batchSize, passes[i])
      ensures forall i :: 0 <= i < ticks ==> OthersRan(passes[i].end, passes[i + 1].start, pid)
      ensures service.cfg.maxAttempts >= 1 ==> CallsLimited(service.cfg, service.moves, pid)
    {
      hide Run, At, Ran, Free, OthersRan, CallsLimited;
      ghost var start := service.moves;
      ghost var between := RunOnce(pid);
      passes := [Pass(start, between, service.moves)];
      for tick := 0 to ticks
        invariant service.Valid() && |passes| == tick + 1
        invariant passes[0].start == old(service.moves) && passes[tick].end == service.moves
        invariant forall i :: 0 <= i <= tick ==> IsPass(service.cfg, pid, batchSize, passes[i])
        invariant forall i :: 0 <= i < tick ==> OthersRan(passes[i].end, passes[i + 1].start, pid)
      {
        Wait(pid);
        start := service.moves;
        between := RunOnce(pid);
        passes := passes + [Pass(start, between, service.moves)];
      }
      if service.cfg.maxAttempts >= 1 { CallsAreLimited(service.cfg, service.moves, pid); }
    }

    /** The tick is awaited while other threads run. */
    method Wait(ghost pid: nat)
      requires service.Valid() && At(service.cfg, service.moves, pid, Done(Finished))
      modifies service`moves, service`clock, service.store
      ensures service.Valid() && Free(service.cfg, service.moves, pid)
      ensures OthersRan(old(service.moves), service.moves, pid)
    {
      hide Run;
      service.Pause(pid, service.moves, Done(Finished));
    }
  }
}
