# Review workflow: a verified model

This project models the approval workflow of the review-workflow service in Dafny and proves what holds of it when
many HTTP calls and workers run at once. Every mutating call of the service is a chain of separate store operations with
no transaction around them: read a row, perhaps claim an idempotency key, swap the row on its version, then append log
rows. All safety rests on the version swap.

`dafny verify dfyconfig.toml` checks the whole project.

## How it is built

| file | what it holds |
|---|---|
| Domain.dfy | entities, `TrimSpace`, `ValidateActor`, the "fail" test of the simulated executor |
| Workflow.dfy | the workflow as atomic guarded transitions of one row (`Apply`, `Permitted`, `Perform`), the shape of a row (`Shape`), how a row may evolve (`Descends`) |
| Database.dfy | the five tables and the store operations as functions; the common contract of the two due-work queries (`Picks`) |
| Calls.dfy | every service call as a program of stages, each ending in one store operation, clock reading or executor call (`Act`); a call left alone (`After`) |
| Machine.dfy | any number of threads interleaved stage by stage (`Step`, `Run` over a schedule of moves), the core invariant, linearisation |
| Schedules.dfy, Stages.dfy | how schedules extend one another; what each stage does, one by one |
| Meetings.dfy | a call over the stores it meets at its stages, and why every call of every run is one |
| Promises.dfy, ReviewPromises.dfy, WorkerPromises.dfy | what each operation answers and writes, in every case, in plain terms of rows, keys and log entries |
| DueWork.dfy | due rows are reminded and executed |
| Authority.dfy | who may have made a transition |
| Refound.dfy | a submission that answers with a row it did not submit |
| JobRuns.dfy | what job runs say |
| Strings.dfy | what trimming, blank and "fail" mean |
| Trail.dfy | conservation of audit entries, review rows and job runs |
| Executions.dfy | the bound on executor calls under races |
| Clocks.dfy | timestamp order, reminder spacing |
| WorkerRuns.dfy | retry budget, fate and backoff when results come from workers only |
| Keys.dfy | idempotency records, lost submissions, replays |
| KeyTable.dfy | the compound string key against the (scope, key) pair |
| Decisions.dfy | one submission, one independent decision |
| AuditReplay.dfy | reading a row's state off its audit log in serial runs |
| Replies.dfy | what an API call answers against what it did: linearisation seen from the client |
| Passes.dfy | the worker as a scheduler, each pass reminding and then executing: drain, fate, no starvation |
| PassCalls.dfy | the worker's two calls, left alone, are such a pass |
| Quiet.dfy | calls that nothing interrupts |
| Anomalies.dfy | what the code does not promise, with exact conditions |
| Scenarios.dfy | a run for each of them |
| MemoryStore.dfy, Service.dfy, Worker.dfy | the Go classes as Dafny classes, proved to perform the calls of Calls.dfy |

A *run* is `Run(cfg, moves)` for any sequence of moves: a thread begins a call, a thread takes one stage, or the clock
moves. A theorem about `Run(cfg, moves)` for all `moves` is therefore about every interleaving of every number of calls,
split at every store operation. The methods of `ServiceCode.Service` yield to other threads between any two store
operations and are proved to extend the schedule by exactly the stages of their call, so whatever holds of runs holds of
them. The service's own clock is the clock of the schedule; when the service is built with a steady one, every method
keeps the schedule `Monotone`, so the properties of time hold of its store too (`Timely`, `Patient`).

The stages of `Act` follow the code, so they are checked against statements that do not: the lemmas of Promises,
ReviewPromises and WorkerPromises give the answer and every write of each operation by their fields, over any stores the
call may meet. `Meetings.RunThrough` and `ServiceCode.Service.Answered` carry them to runs and to the methods.

## Assumptions

- Ids issued by `NewID` are fresh, contain no `|` and are issued once, so no other thread stores a row under an id between
  its issue and its use (the memory store would overwrite the row).
- Store operations do not fail for infrastructure reasons, and a call that has begun a swap goes on to append its log rows.
- `executionMaxAttempts` is at least 1; where stated (`Configured`), `reminderAfter` and `executionRetryBase` are not negative.
- The clock is arbitrary unless a theorem asks for `Monotone` moves. Each stage may read a different time. An audit
  entry and an idempotency record are stamped in the stage that stores them.
- SHA-256 is an uninterpreted function (`digest`); no injectivity is claimed.
- A due-work query may answer with any selection that both stores' contracts allow; only `NoStarvation` asks for the
  order of Postgres.

## Where code and documents disagree

- docs/failure-scenarios.md:9 says a replayed review returns the current request. The code answers conflict once the
  status has moved on, for instance after execution (`Keys.ReviewReplayAnswers` gives the exact condition,
  `Scenarios.ReplayConflicts` a run).
- README.md:27 says every transition is appended to the audit log. That holds counting the entries which calls in flight still owe
  (`Trail.TrailConserved`).
- README.md:38 speaks of bounded attempts. Results reported through the API are not bounded (`Scenarios.ReportsUnbounded`;
  `WorkerRuns.ReportsExceedBudget` says by how much); results from workers are (`WorkerRuns.RowsFated`).

## Model

| member | source | states |
|---|---|---|
| Workflow.ApplyKeepsShape | internal/application/service.go:140-146 | every permitted transition keeps version accounting, nullable times, retry schedule and reminder spacing, and yields a strictly later version of the same request |
| Workflow.PerformKeepsRows | internal/application/service.go:203-217 | the same for a whole table and any atomic transition |
| Machine.SwapWins | internal/repository/memory/store.go:72-84 | a swap that wins found exactly the row its call had read, so its guard holds of the stored row |
| Machine.ActCore | internal/application/service.go:114-158 | each stage of each call is one permitted atomic transition of the stored rows or none, and keeps what every call relies on |
| Machine.StepCore | internal/application/service.go:168-236 | the core invariant over all threads is kept by every step |
| Machine.Linearisable | internal/repository/postgres/store.go:123-155 | in any interleaving the table equals the winning swaps performed one after the other as atomic transitions, each permitted when it happened |
| Machine.RowShape | internal/application/service.go:320-340 | row shape and version accounting in every reachable state |
| Machine.RowsDescend | internal/repository/memory/store.go:79-82 | between any two points of a run a row only evolves: origin frozen, status along the workflow, decision frozen, attempts growing with the version |
| Machine.OneContentPerVersion | internal/repository/memory/store.go:79-82 | no ABA: equal versions mean equal rows, at any two points of a run |
| Machine.FinalRowsFrozen | internal/application/service.go:185-187 | rejected and executed rows never change again |
| Machine.StepFollowsEdge | internal/application/service.go:263-271 | one step moves a status along one workflow edge; a reminder with a stale snapshot never reopens a decided request |
| Trail.TrailConserved | internal/application/service.go:148-156 | for every request and kind of log row, stored plus owed is exactly what the row says was done; one job run per executor call |
| Trail.AuditLengthIsVersion | internal/application/service.go:74-79 | audit length plus owed entries is the version, plus one past draft |
| Trail.SwapBalances | internal/application/service.go:342-353 | a swap, won or lost, earns exactly the log rows it then owes |
| Executions.ExecutorCallsBounded | internal/application/service.go:286-313 | one thread's executor calls for one request have strictly increasing attempt numbers in 1..max, whatever interferes |
| Executions.ExecutorCallCount | internal/repository/memory/store.go:157-164 | so at most max executor calls per thread and request |
| Executions.RunsPerAttempt | internal/application/service.go:293-310 | in any run the job runs of a request with a given attempt number, stored or owed, are as many as the threads that made that attempt; none outside 1..max |
| Executions.OneRunPerAttempt | internal/jobs/worker.go:37-49 | so when a single worker thread executes, the job runs of a request carry distinct attempt numbers |
| Executions.SwapRecords | internal/application/service.go:315-344 | won or lost, an execution swap leaves the row with more attempts than its snapshot had |
| Clocks.TimesInOrder | internal/application/service.go:61-71 | created, submitted, reminded, reviewed and executed times are in order, and none is after the last update |
| Clocks.UpdatesForward | internal/application/service.go:258-268 | UpdatedAt never decreases between two points of a run |
| Clocks.ReminderNotEarly | internal/repository/memory/store.go:136-144 | no row listed for a reminder was written after the time the pass had read before listing |
| Clocks.RemindersSpaced | internal/application/service.go:257-271 | the n-th reminder comes at least n periods after submission, with any number of workers and any clock |
| WorkerRuns.RowsFated | internal/application/executor.go:28-34 | without reported results attempts stay within the budget; with the simulated executor the target decides executed or failed |
| WorkerRuns.ReportsExceedBudget | internal/application/service.go:238-246 | in any run a request is beyond its budget by exactly the number of reports that won on it when the budget was spent |
| WorkerRuns.Backoff | internal/application/service.go:334-339 | triangular backoff: UpdatedAt is at least ApprovedAt plus base times n(n-1)/2 |
| WorkerRuns.TriangleClosed | internal/application/service.go:337 | the sum of the first n-1 backoffs is n(n-1)/2 |
| Keys.RecordsNeverChange | internal/repository/memory/store.go:120-129 | stored idempotency records are never changed or dropped |
| Keys.ClaimKept | internal/application/service.go:368-389 | every stored record was filed by a claim whose claimant is still before its swap, or whose row has moved on since the claimant read it |
| Keys.SubmitNeverLost | internal/application/service.go:119-150 | a stored submission record means the request is past draft or its claimant is still before its swap |
| Keys.DecisionLostToReminders | internal/application/service.go:195-221 | a stored decision record means the request is decided, or has had more reminders than when its claimant read it, or the claimant is still before its swap |
| Keys.DecisionBeaten | internal/application/service.go:203-221 | a decision's swap leaves the request pending exactly when the stored row is pending with more reminders than the snapshot |
| Keys.HolderSettles | internal/application/service.go:140-150 | the claimant's swap, won or lost, leaves a submission's row past draft, a decision's row decided or reminded since it was read |
| Keys.WinnersOnRecord | internal/application/service.go:196-221 | every submission or decision that won has its key and payload on record for good |
| Keys.SubmitReplayAnswers | internal/application/service.go:120-135 | replaying a submission that won returns the stored row and changes nothing, in any later state |
| Keys.SubmitReplayHarmless | internal/application/service.go:368-377 | under any interleaving no stage of a replayed submission changes the store |
| Keys.ReviewReplayAnswers | internal/application/service.go:173-187 | replaying a decision that won changes nothing; it returns the row exactly while its status is that decision, and is a conflict afterwards |
| Keys.ReviewReplayHarmless | internal/application/service.go:173-202 | under any interleaving no stage of a replayed decision changes the store |
| KeyTable.CompoundsCollide | internal/repository/memory/store.go:123 | two scopes can share a compound key exactly when one, closed by a bar, begins the other |
| KeyTable.TablesAgree | db/migrations/000001_init.sql:42-49 | on a set of scopes the memory table answers every sequence of operations as the pair-keyed table does exactly when no two scopes of the set collide |
| KeyTable.ServiceTablesAgree | internal/application/service.go:119-120 | so on the scopes the service builds the two tables always agree, whatever the keys |
| KeyTable.CollisionDisagrees | internal/repository/memory/store.go:113 | any two colliding scopes have operations that the two tables answer differently |
| KeyTable.LookupsExact | internal/domain/models.go:114-121 | in every reachable state a lookup for an existing request finds a record exactly when one was stored for that scope and key |
| Meetings.RunThrough | internal/application/interfaces.go:10-23 | in any run a thread is where the stores it met at its own stages have brought its call |
| Meetings.MetInRun | internal/application/interfaces.go:10-23 | each store met is that of the run before a stage of the thread, and is left as the run has it after |
| Promises.DraftRefused | internal/application/service.go:53-59 | no actor id, an unknown role or a blank field is invalid input, and nothing is written |
| Promises.DraftKept | internal/application/service.go:61-80 | any other draft is stored with its trimmed fields under its id, answered and logged |
| Promises.SubmitRefused | internal/application/service.go:114-118 | no such request, not its requester nor an admin, no key: which error, and nothing is written |
| Promises.SubmitReplayed | internal/application/service.go:120-123 | a key on record: the row as it then is for the same actor, key used for another; nothing is written |
| Promises.SubmitOutclaimed | internal/application/service.go:124-134 | a claim that comes second: the answers of the fallback lookup; nothing is written |
| Promises.SubmitNotDraft | internal/application/service.go:136-138 | a new key for a request that is no longer a draft is a conflict, with the key recorded |
| Promises.SubmitDraft | internal/application/service.go:140-157 | a draft with a new key: the row, record and two audit entries written, or the conflict when the version has moved |
| Promises.ReportRefused | internal/application/service.go:238-246 | neither reviewer nor admin, no such request, not awaiting execution: which error, and nothing is written |
| Promises.ReportKept | internal/application/service.go:320-354 | any other report: the row and audit entry written for success and failure, or the conflict |
| ReviewPromises.ReviewRefused | internal/application/service.go:169-193 | no such request, neither pending nor decided this way, not an admin or the assigned reviewer, the requester, no key: which error, and nothing is written |
| ReviewPromises.ReviewAgrees | internal/application/service.go:173-184 | a request already decided this way: the row, or the zero row with a nil error, and what is recorded |
| ReviewPromises.ReviewKnown | internal/application/service.go:195-201 | a pending request with the key on record, or claimed meanwhile: which answer, and nothing is written |
| ReviewPromises.ReviewDecides | internal/application/service.go:203-235 | a pending request with a new key: the row, record, review row and audit entry written, or the conflict when the version has moved |
| WorkerPromises.ReminderAnswers | internal/repository/postgres/store.go:274-288 | exactly which rows a reminder pass may list |
| WorkerPromises.ExecutionAnswers | internal/repository/postgres/store.go:302-308 | exactly which rows an execution pass may list |
| WorkerPromises.RowReminds | internal/application/service.go:262-281 | a listed row that has not changed: the row, audit entry and job run written |
| WorkerPromises.RowNotReminded | internal/application/service.go:269-271 | a listed row that has changed is passed over |
| WorkerPromises.RowExecutes | internal/application/service.go:292-311 | a listed row that has not changed: the row, audit entry and job run written for the executor's outcome |
| WorkerPromises.RowExecutedInVain | internal/application/service.go:300-310 | a listed row that has changed: only the job run is written, with the executor's outcome |
| WorkerPromises.OutcomeMeans | internal/application/executor.go:28-34 | the simulated executor fails exactly the targets with "fail" in them, in any case, and with which message |
| DueWork.DueIsReminded | internal/repository/memory/store.go:131-151 | every pending row submitted and last reminded long enough ago is reminded by an undisturbed pass with room for it |
| DueWork.NotDueIsSpared | internal/repository/postgres/store.go:274-277 | no other row is touched by a reminder pass |
| DueWork.DueIsExecuted | internal/repository/memory/store.go:153-170 | every row that awaits execution and is due is executed by an undisturbed pass with room for it |
| Authority.WinsEntitled | internal/application/service.go:188-193 | in any run every winning submission, decision, reminder and report was made by somebody entitled to it, by role and row |
| Refound.RowWithoutWin | internal/application/service.go:120-135 | in any run a submission that returns a row it did not submit found its key on record, filed by another call of the same actor, request and key |
| JobRuns.RunsTell | internal/application/service.go:273-310 | in any run reminder runs have succeeded, and with the simulated executor an execution run succeeded exactly when the target has no "fail" in it |
| JobRuns.RunHonest | internal/application/service.go:293-310 | the same of the job runs still owed by calls in flight |
| Strings.TrimSpaceDrops | internal/application/service.go:57-65 | trimming drops space at both ends and nothing else |
| Strings.FailMeans | internal/application/executor.go:28-34 | "fail" occurs in the lower-cased target |
| Decisions.EventsShown | internal/application/service.go:136-146 | in any sequence of atomic transitions, the number of each kind is what the row shows |
| Decisions.WinsShown | internal/application/service.go:185-221 | in any run a request is submitted at most once and decided at most once |
| Decisions.DecisionsStand | internal/application/service.go:413-418 | every decision that won is the one its row carries, by an admin or a reviewer with the id the row is assigned to, not the requester |
| Decisions.ReviewsIndependent | internal/application/service.go:222-231 | every review row was written for such a decision |
| Decisions.OneReview | internal/repository/memory/store.go:103-108 | at most one review row per request; exactly one, stored or owed, once decided |
| AuditReplay.AuditReplays | internal/application/service.go:345-353 | after any serial calls, folding a request's audit log through the workflow gives its status, version, reminders and attempts |
| Replies.AnswersAreTrue | internal/application/service.go:114-247 | under any interleaving a call that returns a row returns one the table held during the call; it performed at most one transition, the one asked for, and then returns what that wrote; a failed call performed none |
| Replies.SwapSettles | internal/repository/postgres/store.go:142-154 | the stage that swaps performs its transition and binds the answer to the row written, or performs none and fails with a conflict |
| PassCalls.CallsArePass | internal/application/service.go:257-313 | the worker's reminder call and execution call, from their clock readings on and with any inputs, are a scheduler pass when nothing runs between their stages |
| PassCalls.PassIsCalls | internal/jobs/worker.go:51-67 | and every scheduler pass is made by the two calls |
| Passes.RemindersSpareQueue | internal/application/service.go:263-271 | a reminder pass leaves every queued row, the attempts left and the order of the queue alone |
| Passes.Drains | internal/application/service.go:292-311 | each worker pass, reminders included, spends at least its batch size of the attempts left, bounding all executor calls |
| Passes.DuePassesBounded | internal/jobs/worker.go:51-67 | over any sequence of worker passes, idle ones included, the attempts left plus the passes that found a row due never exceed the attempts at the start |
| Passes.EveryRowSettles | internal/jobs/worker.go:37-49 | so once that many passes have found a row due, each row is executed or failed with exactly max attempts and no next time; the simulated executor's target decides |
| Passes.WaitedOut | internal/application/service.go:334-339 | a pass finds a row due whenever the longest backoff has passed since the queued rows were updated |
| Passes.OldestFirstPicks | internal/repository/postgres/store.go:295-308 | the ordered, limited query of Postgres is one of the answers the model allows |
| Passes.NoStarvation | internal/repository/postgres/store.go:302-308 | oldest-first with batch size k: a due request with r queued rows ordered at or before it is executed within r/k + 1 passes |
| Passes.RequeuedBehind | internal/application/service.go:337-338 | a re-queued row lands strictly after a row that was already due |
| Quiet.AloneIsRun | internal/application/interfaces.go:10-23 | a call left alone is a run in which only its thread moves |
| Quiet.DraftSucceeds | internal/application/service.go:53-81 | an undisturbed draft is stored under its fresh id |
| Quiet.SubmitSucceeds | internal/application/service.go:114-158 | an undisturbed submission with a new key succeeds and stores its key |
| Quiet.ReviewSucceeds | internal/application/service.go:185-235 | an undisturbed decision by an independent reviewer succeeds |
| Quiet.ReportIgnoresBudget | internal/application/service.go:238-247 | a reported result is always recorded; attempts stay within the budget exactly when it was not spent |
| Anomalies.OnlyRemindersBurn | internal/application/service.go:195-221 | in any run, a decision key on record for a request that is still pending with nothing in flight was claimed by a decision that had read the request before its latest reminder |
| Anomalies.ZeroRowAnswers | internal/application/service.go:173-184 | under any interleaving, on a row decided the same way: the zero row with a nil error exactly for a blank key, another payload on record at the lookup, or a record filed between lookup and claim; otherwise the row; no row or log changes |
| Scenarios.ApprovalKeyCanBeBurned | internal/application/service.go:263-271 | and that happens: for every configuration a schedule in which a reminder wins the swap after the approval has stored its key |
| Scenarios.ReportsUnbounded | internal/application/service.go:238-246 | for every configuration and every n a run whose request has exactly n attempts |
| Scenarios.ReplayConflicts | internal/application/service.go:185-187 | a run in which an approval that won, sent again after execution, is answered with a conflict |
| Scenarios.BlankKeyGetsZeroRow | internal/application/service.go:173-178 | a run in which an approval without a key, of a request already approved, is answered with the zero row |
| Scenarios.LostClaimGetsZeroRow | internal/application/service.go:174-177 | a run in which two equal approvals with one new key find no record, and the one whose claim comes second is answered with the zero row |
| MemoryStore.Store.constructor | internal/repository/memory/store.go:22-30 | an empty store |
| MemoryStore.Store.CreateRequest | internal/repository/memory/store.go:32-37 | stores the row under its id |
| MemoryStore.Store.GetRequest | internal/repository/memory/store.go:39-47 | the row stored under the id, or not found |
| MemoryStore.Store.UpdateRequest | internal/repository/memory/store.go:72-84 | replaces the row exactly when its version is the expected one |
| MemoryStore.Store.AppendAudit | internal/repository/memory/store.go:86-91 | appends to the request's audit log, nothing else |
| MemoryStore.Store.CreateReview | internal/repository/memory/store.go:103-108 | appends to the request's reviews, nothing else |
| MemoryStore.Store.GetIdempotency | internal/repository/memory/store.go:110-118 | the record filed under the compound key |
| MemoryStore.Store.CreateIdempotency | internal/repository/memory/store.go:120-129 | files a record unless the compound key is taken |
| MemoryStore.Store.ListRequestsNeedingReminder | internal/repository/memory/store.go:131-151 | distinct stored rows that are pending, submitted by the cutoff and not reminded since, all of them unless the limit is reached |
| MemoryStore.Store.ListRequestsReadyForExecution | internal/repository/memory/store.go:153-170 | distinct stored rows that await execution and whose next time has come, all of them unless the limit is reached |
| MemoryStore.Store.AppendJobRun | internal/repository/memory/store.go:172-177 | appends to the request's job runs, nothing else |
| ServiceCode.Service.constructor | internal/application/service.go:25-35 | an empty schedule over an empty store; the default reviewer is trimmed |
| ServiceCode.Service.Sound | internal/repository/memory/store.go:72-84 | what every method keeps: the stored rows have their shape and are what the winning swaps yield |
| ServiceCode.Service.Timely | internal/application/service.go:61-71 | with a steady clock the times of every stored row are in order, and no row's UpdatedAt is earlier than at any point passed |
| ServiceCode.Service.Patient | internal/application/service.go:334-339 | with no reported results every stored row is within its budget and, with a steady clock, backed off |
| ServiceCode.Service.Answered | internal/application/service.go:53-355 | what a method answered is what its stages over the stores it met come to |
| ServiceCode.Service.CreateDraft | internal/application/service.go:53-81 | is a run of the drafting call, with other threads between its store operations |
| ServiceCode.Service.RequireOwnedOrAdmin | internal/application/service.go:357-366 | the row for its requester or an admin, else forbidden or not found |
| ServiceCode.Service.EnsureIdempotency | internal/application/service.go:368-389 | looks the key up and claims it as two separate store operations, leaving the call at the stage its answer calls for |
| ServiceCode.Service.SubmitRequest | internal/application/service.go:114-158 | is a run of the submission call under any interference, and returns its reply; the refusals by their fields |
| ServiceCode.Service.ReviewRequest | internal/application/service.go:168-236 | is a run of the review call under any interference, and returns its reply; the refusals by their fields |
| ServiceCode.Service.ApproveRequest | internal/application/service.go:160-162 | the review call with approval |
| ServiceCode.Service.RejectRequest | internal/application/service.go:164-166 | the review call with rejection |
| ServiceCode.Service.RecordExecutionResult | internal/application/service.go:238-247 | is a run of the reporting call under any interference; the refusals by their fields |
| ServiceCode.Service.ApplyExecutionResult | internal/application/service.go:315-355 | records a result, or fails, leaving a worker its job run to append either way |
| ServiceCode.Service.ProcessDueReminders | internal/application/service.go:257-284 | is a run of the reminder pass under any interference |
| ServiceCode.Service.ProcessDueExecutions | internal/application/service.go:286-313 | is a run of the execution pass under any interference |
| WorkerCode.Worker.constructor | internal/jobs/worker.go:24-35 | a batch size of zero or less becomes 25 |
| WorkerCode.Worker.RunOnce | internal/jobs/worker.go:51-68 | is a run of the reminder call and then of the execution call on the same thread |
| WorkerCode.Worker.Start | internal/jobs/worker.go:37-49 | for any number of ticks: one pass at once and one at each tick, each a complete reminder call and then a complete execution call, with moves of other threads only in between; at most max executor calls by this worker for each request |

## Left out

- `StatusSubmitted`: no transition of the service sets it.
- HTTP handlers, JSON, error-to-status mapping, the UI, tracing, migrations, configuration parsing and bootstrap.
- `GetRequest`, `ListRequests`, `ListAudit` and `canView` of the service: reads that change nothing.
- Random ids of audit entries, reviews and job runs; the ignored external reference of a reported result.
- Database failures, crashes between store operations and context cancellation: a call that dies after its swap loses the log rows it owes.
- The Postgres store as a class: its update, its insert with conflict clause and its queries appear as the operations of Database.dfy and as `OldestFirst`. It reports a missing row on update as a conflict, where memory says not found; rows are never deleted.
- Go's fixed-width integers and duration overflow: times, versions and counters are unbounded integers.
- The lock of the memory store: each of its methods is one atomic operation.
- Passes.NoStarvation: is about passes with no other writer between them, since an API call may lose a worker its swap.
- WorkerCode.Worker.Start: runs for any given number of ticks; the endless loop and the ticker itself are not modelled.
