# Verified model of dispatcher-go

dispatcher-go is a loopback daemon that accepts verb requests over HTTP, keeps them as durable tasks, runs them
as child processes with retries, guards each verb with a circuit breaker, and writes an audit trail through an
outbox. This project models its task engine and proves what holds of every run: any number of handlers, workers
and audit drainers, any interleaving of their store calls, and crashes at any point, boot included.

`dafny verify dfyconfig.toml` checks everything.

## How it is laid out

| file | what it holds |
|---|---|
| `Tasks.dfy`, `Requests.dfy` | task rows and the updates made to them; the digest that identifies a request |
| `Engine.dfy` | the daemon as a state machine: one step per store transaction or locked section |
| `EngineInv.dfy`, `EngineUpdates.dfy`, `EngineFoot.dfy`, `EngineSteps.dfy`, `EngineRuns.dfy` | the invariant, what one update does to one row, what a step can reach, every step, every run |
| `EngineTheorems.dfy`, `EngineDrain.dfy`, `EngineExamples.dfy` | what follows for whole runs; bounded work; runs that show where the code does less than expected |
| `EngineThreads.dfy`, `EngineRecords.dfy`, `EngineStories.dfy`, `EngineBirths.dfy` | what rows and attempt records say of the runs they stand for; that the record kept of each task is true; creation times and the order of claims |
| `EngineCircuits.dfy`, `EngineCatalog.dfy` | the breakers over a run; limits, thresholds and periods as the catalog gives them |
| `Memory.dfy`, `Resume.dfy`, `Worker.dfy`, `Server.dfy` | the in-process store, the resume, the worker loop and the handler as classes and methods that update state in place, each of the last three tied back to the state machine |
| `Outbox.dfy`, `OutboxClock.dfy` | the durable outbox and its drain; when drained lines are in order of time |
| `Breaker.dfy`, `Backoff.dfy`, `Ring.dfy`, `Template.dfy` | circuit breaker, retry delay, event ring, command templates |
| `TextOrder.dfy`, `TimeText.dfy`, `StoreClock.dfy` | byte order of texts, printed timestamps, and what comparing them does to claims |

The state machine is a function from a state and a step to a state, so a run is a sequence of steps. A thread is
an `Actor`: what it does next and what it remembers. Per-task stories (runs started, crashes, notices) are kept
for the record; steps only ask whether a task has one. Names of other entities follow the Go code.

## Assumptions

- A new task's id has never been used before, and no binding names it.
- The clock does not go back. One locked section of a breaker reads it once.
- A store call commits or the process dies; `SaveIdempotency` fails only on a key that is already bound.
- No task is ever deleted (no code deletes one).
- The catalog is fixed while a process lives; a restart may bring another. The daemon's own settings stay.
- Handlers and workers share one breaker registry, made with the daemon's settings (cmd/dispatcher/main.go:110-129).
- SHA-256 has no collisions: the digest is represented by the text it is taken over.
- A child process is an input: when it ended and whether it succeeded, failed or timed out. So are random words.
- The store's test of `next_run_at` against the clock is a parameter that may run ahead by up to `early`.
  `StoreClock.TextStoreIsWellTimed` shows that comparing printed times needs just under one second; the in-process
  store needs zero.

## Where the code differs from its documentation

The model follows the code in each case.

- A request that loses the race for its idempotency key is answered with the winner's task without comparing the
  two requests (`EngineExamples.LostRaceReplaysAnotherRequest`). The replayed task is that of an equal request exactly
  when the key's binding has the request's verb and digest, the test the first look-up makes and this path does not
  (`EngineTheorems.RaceReplayExactly`). The 409 conflict that ADR-0003 describes is reported on the first look-up only
  (`EngineTheorems.AnswersFromFind`).
- A verb with `retries: 0` is not retried on the inline path but gets the daemon's limit on the worker path
  (`EngineExamples.NoRetriesPerPath`; `EngineExamples.NoRetriesIsRetried` is a run in which such a task is retried).
- Timestamps are described as text "for deterministic ordering". Trailing zeros of the fraction are dropped, so text
  order is time order exactly when the earlier fraction is not a proper prefix of the later one within one second
  (`TimeText.TextOrderExactly`). A retry can therefore be claimed early, by less than a second
  (`TimeText.EarlyClaimExample`), and the outbox drains the later of two such rows first
  (`OutboxClock.NewestFirstExample`); drained lines are in order of time exactly when no two of them are such a pair
  (`OutboxClock.DrainedInTimeOrderExactly`). The two stores may therefore claim different tasks
  (`StoreClock.StoresClaimApart`); `StoreClock.ClaimAlikeExactly` says exactly when they do not.
- Placeholder filling rescans the text it has inserted. For a token that is one placeholder, as all shipped template
  tokens are, the result is the argument's value exactly when that value holds no placeholder
  (`Template.SoleTokenExactly`); otherwise it is expanded again or the loop never ends
  (`Template.SelfReferenceNeverStops`).
- The shown form of a token that contains the stdin text is the marker `[REDACTED]`, which itself contains stdin
  texts such as `RED` (`Template.MarkerShowsRed`). A shown form contains the stdin text exactly when the token was
  hidden and the marker contains that text (`Template.ShownAligned`).
- A crash between a run's record and its commit leaves that attempt on record as the first of two runs: the second
  record is refused and the refusal ignored. Row and record agree unless such a crash hit the task
  (`EngineRecords.RecordsAreRuns`).
- Jitter is added after saturation without a check; the window `[d, d + maxJitter)` holds exactly when its end fits
  in 64 bits (`Backoff.JitterWindow`). `Backoff.JitterOverflows` is a call that falls out of it; the daemon's own
  constants never do (`Backoff.DaemonWindowFits`).
- Falling through to "re-bind" when a bound task is gone does not re-bind: the new task is canceled for the missing
  winner and then queued all the same (`Server.Server.Admit`). No reachable state has such a binding
  (`EngineTheorems.BindingsStay`).

## Model

| member | source | states |
|---|---|---|
| EngineRuns.StepKeeps | internal/api/server.go:235-503 | every step of handlers, workers, drainers, crash and boot keeps the invariant that ties task rows, attempts, audit rows, bindings, threads and queue depth together |
| EngineRuns.ReachableOk | internal/queue/task.go:78-106 | the invariant holds in every state any run can reach from a first boot |
| EngineTheorems.ExclusiveExecution | internal/queue/sqlite.go:396-435 | outside boot, every executing task has exactly one thread working on it |
| EngineTheorems.OnlyOwnerChanges | internal/worker/worker.go:108-217 | no step but one of the owning thread, a crash or the resume changes an executing task's row, attempts or runs |
| EngineTheorems.ClaimIsAtomic | internal/queue/sqlite.go:401-434 | the SELECT followed by the conditional UPDATE either leaves the task table alone and looks again, up to five times in all, or takes one task that is ready at that moment and that nobody works on, changing its state and update time alone |
| EngineTheorems.EveryThreadCanMove | internal/worker/worker.go:67-218 | every thread of a reachable state can take its next step at once: the row it works on is there and the times it has read are past |
| EngineTheorems.RetryBudget | internal/worker/worker.go:108-217 | in every reachable state the attempt number is within the stored limit, or the daemon's when none above 0 is stored, recorded attempts are exactly 0..attempt-1 or 0..attempt, and child runs number at most limit + 1 plus the crashes that hit the task while executing |
| EngineTheorems.ExhaustionIsExact | internal/worker/worker.go:184-199 | a task given up after a failed run has every attempt number on record, up to its stored limit, or for a stored 0 up to the daemon's or to attempt 0 |
| EngineRecords.FailureFollowsStoredLimit | internal/worker/worker.go:146-212 | a failed run schedules the next attempt while the attempt number is below the stored limit (the daemon's for a stored 0 on the worker path), and otherwise gives the task up with its notice due |
| EngineRecords.RowsSayWhatHappened | internal/queue/task.go:15-50 | in every reachable state a row says, state by state, what became of the task: outcome of its last run, error, retry time in the window of the scheduled delay and jitter, a second's wait behind an open circuit, and exhaustion only at the limit of the path of the last run |
| EngineRecords.RecordsAreRuns | internal/queue/sqlite.go:437-448 | every attempt on record is a run that ended, with its own times and outcome; without a crash of the executing task row and record agree |
| EngineStories.StoriesAreTrue | internal/worker/worker.go:104-199 | over every run, runs, crashes and notices on a task's record are as many as the steps that started a child for it, hit it while executing, and notified |
| EngineStories.AuditOfStep | internal/worker/worker.go:90-217 | a thread's step writes no audit row, or exactly one with the state or label and the attempt number due for what happened |
| EngineStories.AttemptsStay | internal/queue/sqlite.go:437-448 | an attempt on record stays there with its times and outcome through every step, so of two runs of one number the first is on record |
| EngineStories.CompletesExactly | internal/worker/worker.go:160-217 | a step completes an execution exactly when its audit row says executed, exhausted or will-retry |
| EngineTheorems.AuditAgrees | internal/queue/sqlite.go:305-328 | a task is terminal exactly when its latest audit row names a terminal state, and it is in that state |
| EngineTheorems.DrainedLogTellsAll | internal/queue/sqlite.go:460-501 | once all rows are drained, a task is in a terminal state exactly when the audit file has its line for that state |
| EngineTheorems.WrittenIsLogged | internal/queue/sqlite.go:480-500 | a row is marked written only with its line in the file, under crashes and concurrent drainers, and the file holds lines of rows only |
| EngineTheorems.NothingIsLost | internal/queue/sqlite.go:379-387 | no step, a crash included, takes back an audit row, a line or a written mark |
| EngineTheorems.OneTaskPerKey | internal/api/server.go:296-326 | of the tasks made under one key only the one the key is bound to is ever past admission or run |
| EngineTheorems.OneTaskPerKeyEver | internal/api/server.go:296-326 | over a whole run, two tasks of one key that are ever past admission, at whatever times, are one task |
| EngineTheorems.LosersAreCanceled | internal/api/server.go:300-319 | once its own handler has let it go, whatever else is at work, a task that lost the race for its key is canceled and was never run |
| EngineTheorems.BindingsStay | internal/queue/sqlite.go:350-357 | a bound key stays bound to the same task through every step, and that task exists |
| EngineTheorems.BoundKeyAnswersAtOnce | internal/api/server.go:237-254 | a request that finds its key bound is answered at once and makes no task: with the bound task if verb, arguments and stdin are that task's, and with a conflict otherwise |
| EngineTheorems.AnswersFromFind | internal/api/server.go:237-254 | every replay and every conflict names the task the key is bound to; a replay from the first look-up is of a request with equal verb, arguments and stdin, and a conflict is reported only against a different one |
| EngineTheorems.RaceReplayExactly | internal/api/server.go:300-319 | the loser of a key race is answered with the bound task, and its request is the winner's exactly when the binding has its verb and digest |
| EngineTheorems.RetrySpacing | internal/worker/worker.go:202-212 | a run of a later attempt starts no sooner than min(base * 2^n, MaxDelay) after any run of attempt n ended, up to how early the store's due test is, whatever crashes, resumes and circuit_open requeues come between |
| EngineTheorems.DepthBounded | internal/queue/sqlite.go:252-302 | the number of active tasks never exceeds the queue's limit |
| EngineTheorems.RoomMeansMade | internal/queue/sqlite.go:252-302 | a handler that comes to create makes its accepted task and first audit row exactly when fewer tasks than the limit are in one of the five active states |
| EngineBirths.BornWhenMade | internal/queue/memory.go:189-199 | over every run a task's creation time is the clock of the step that made it and never changes |
| EngineBirths.StepBirths | internal/queue/sqlite.go:305-328 | no step changes a task's creation time, verb or stored limit, and a row that changes bears the time of the change |
| EngineBirths.FirstComeFirstServed | internal/queue/memory.go:118-121 | of two tasks made at different times the earlier comes first whenever both are due |
| EngineTheorems.OneNotice | internal/worker/worker.go:184-199 | at most one exhaustion notice is sent for a task, and only once its exhaustion is committed |
| EngineTheorems.TerminalIsFinal | internal/queue/sqlite.go:305-328 | from the state in which a task is terminal to the end of the run its row does not change in any field |
| EngineFoot.ActFoot | internal/queue/task.go:78-106 | a thread's step writes at most the row of the task it works on, creates or claims, and tables of audit rows, lines and bindings only grow |
| EngineInv.TaskStep | internal/queue/sqlite.go:305-328 | a step that works on one task nobody else works on and leaves task and thread in order keeps the whole invariant |
| EngineDrain.WorkIsBounded | internal/retry/backoff.go:64-66 | over any run, crashes included, executions completed plus executions still owed do not exceed those owed at the start plus those let in by new posts |
| EngineDrain.RequeueOwesTheSame | internal/worker/worker.go:90-102 | a circuit_open requeue leaves the executions owed, the attempt number and the attempts on record unchanged, and waits one second |
| EngineDrain.OwedExactly | internal/retry/backoff.go:64-66 | an active task owes limit + 1 - attempt executions, a terminal one none |
| EngineDrain.QuietQueueMoves | internal/queue/sqlite.go:396-435 | with every scheduled retry due, a claim finds nothing exactly when every active task has a thread at work on it |
| EngineExamples.LostRaceReplaysAnotherRequest | internal/api/server.go:300-319 | a reachable run in which the loser of a key race is answered with the task of a different request |
| EngineCircuits.BreakersFollowHistory | internal/circuit/breaker.go:84-151 | over every run, each verb's breaker is what the calls of all handlers and workers since the last boot make of a fresh one |
| EngineCircuits.GateFollowsHistory | internal/worker/worker.go:88-102 | a worker goes on to run its task exactly when the verb's calls since the last boot leave it closed, or its open period is over and no probe lease runs; otherwise the task is put back |
| EngineCircuits.NoLaunchWhileOpen | internal/worker/worker.go:88-102 | no worker launches a task within the open period of the latest trip of its verb's breaker unless a success came after it |
| EngineCatalog.BreakersAreConfigured | internal/circuit/breaker.go:178-191 | in every reachable state each breaker has the verb's own threshold, else the daemon's, else 5, the daemon's open period, else 60 s, and a lease of two periods |
| EngineCatalog.ThresholdIsExact | internal/worker/worker.go:88-102 | over every run fewer failures than the threshold since the last success let a worker through, and from the threshold on it is refused until the open period after the latest failure is over |
| EngineCatalog.PostRefusedExactly | internal/api/server.go:264-273 | over every run a POST is refused for an open circuit exactly when the threshold is reached and the open period after the latest failure is not over; a probe in flight refuses none |
| EngineCatalog.CreatedWithItsLimit | internal/api/server.go:260-263 | a task is stored with its verb and the verb's own retry limit, even 0, or the daemon's when the catalog gives none |
| EngineExamples.NoRetriesPerPath | internal/worker/worker.go:146-149 | with a stored limit of 0 the first failed run exhausts the task exactly on the inline path or when the daemon's own limit is 0 |
| EngineExamples.NoRetriesIsRetried | internal/worker/worker.go:146-149 | a reachable run in which a worker puts the failed task of a verb with `retries: 0` down for another attempt |
| Requests.HashIdentifies | internal/api/server.go:354-365 | for one verb, two requests have one digest exactly when arguments and stdin are equal |
| Requests.HashAloneDoesNotIdentifyTheVerb | internal/api/server.go:242-242 | without the separate comparison of verbs the digest would not tell two verbs apart |
| Memory.Memory.ClaimDue | internal/queue/memory.go:108-129 | whatever order the map yields, the task claimed is pending or put off to a time that has come, none that is ready was made earlier, ties go to the least id, nothing is claimed only if none is ready, and no other task changes |
| Memory.FirstDueIsUnique | internal/queue/memory.go:118-121 | only one task can come first, so the order of iteration cannot matter |
| Memory.Memory.CreateAndAuditLimited | internal/queue/memory.go:171-214 | a task is made exactly when the depth is below the limit, accepted, at attempt 0, bearing the time, verb and limit it was made with, with its audit row, and the depth stays within the limit |
| Memory.Memory.UpdateAndAudit | internal/queue/memory.go:217-239 | one row is replaced and one audit row appended, or nothing happens for an unknown id |
| Memory.Memory.Depth | internal/queue/memory.go:95-106 | the count is the number of tasks in an active state |
| Memory.Memory.List | internal/queue/memory.go:64-81 | exactly the tasks in the state, or all of them without a filter, each once, oldest first |
| Memory.Memory.SaveIdempotency | internal/queue/memory.go:250-264 | the first binding of a key stays; a second is refused |
| Resume.Resume | internal/queue/resume.go:23-74 | executing tasks become pending, accepted and legacy ones canceled with one audit row each, all others stay, and the four counts are what they say |
| Resume.ResumeIsSafe | internal/queue/resume.go:18-22 | afterwards nothing is executing or half-admitted, nothing is newly executed, and attempt, ids, retry time and outcome of every task stand |
| Resume.ResumeByState | internal/queue/resume.go:27-74 | what was executing is pending and says so, what was never admitted is canceled and says why, every other task is untouched |
| Resume.DueAtResume | internal/queue/resume.go:39-45 | a scheduled retry counts as due when it has no time or its time has come |
| Resume.StatsCoverTheQueue | internal/queue/resume.go:38-45 | pending and scheduled tasks together are the whole queue depth after a resume |
| Resume.ResumeIsIdempotent | internal/queue/resume.go:23-74 | a second resume changes no task and finds nothing to requeue or cancel |
| ResumeRefinement.BootIsResume | internal/queue/resume.go:23-74 | however often a boot crashes and begins again, when it is done the task table is what one uninterrupted resume makes of it, up to update times |
| Worker.Worker.Execute | internal/worker/worker.go:67-218 | the task runs exactly when its verb is known and its breaker grants it; state, attempt number, outcome, error and retry time of the row are given in figures with the stored limit, or the daemon's for a stored 0; audit rows, one notice exactly for a known verb's exhaustion, and that verb's breaker change, and nothing else |
| Worker.Worker.RunAndCommit | internal/worker/worker.go:104-217 | the part after the gate: row, audit rows, notice and the verdict on the verb's breaker |
| Worker.Worker.RunOnce | internal/worker/worker.go:237-254 | the first due task is claimed and executed, with its audit rows, notice and breaker; nothing at all happens if none is due |
| Worker.Worker.Run | internal/worker/worker.go:33-65 | every execution a breaker lets through uses up a unit of the queue's potential, as many as the potential empty the queue, and without breakers a tick is idle only when nothing is due |
| Worker.Worker.NextReady | internal/queue/memory.go:108-117 | the first time from now on at which some task is due, and none exactly when no task is active |
| Worker.Worker.DrainAll | internal/worker/worker.go:237-254 | without breakers, a loop that moves the clock to the next due time and calls RunOnce ends with depth 0 within as many executions as the potential, however the runs end |
| WorkerRefinement.ExecuteIsSteps | internal/worker/worker.go:67-218 | what the method does to rows, audit, notices and breakers is what a thread of the state machine does from the claim on when nobody interferes |
| WorkerRefinement.RunOnceIsSteps | internal/worker/worker.go:237-254 | with an exact clock, polling, selecting, claiming, reading back and executing lead to exactly what RunOnce leaves, and to nothing when nothing is due |
| Server.Server.PostVerb | internal/api/server.go:204-340 | one POST is admitted exactly when its verb is known, no required argument is missing, the first look-up has no answer, the verb's breaker is not open and the queue has room; then the new row, its audit rows, key, notice and the breaker's verdict are all that changes, and otherwise at most the breaker it looked at; a replay reports the bound task and its present state, and the new row is given in figures |
| Server.MissingExactly | internal/api/server.go:224-233 | a POST is refused for a missing argument exactly when a required one is not given or is the stdin argument |
| Server.Server.Admit | internal/api/server.go:274-332 | from the limited create to the hand-over: row, audit rows, binding, notice and breaker, including the canceled task that goes on when the bound task is gone |
| Server.Server.BindOrYield | internal/api/server.go:296-323 | the key is bound, or the orphan is canceled with its audit row and the winner is replayed |
| Server.Server.RunPipeline | internal/api/server.go:367-395 | row, audit rows, notices and breaker of handing a task to the workers or running it inline once |
| Server.Server.ExecuteOnce | internal/api/server.go:397-503 | one inline run: row, audit rows, notice, and the verdict on the verb's breaker without asking it first |
| Server.Server.Commit | internal/api/server.go:436-503 | the inline verdict: executed, exhausted at a literal limit of 0, or first retry with its delay |
| ServerRefinement.PostIsSteps | internal/api/server.go:204-340 | the method's answer and everything it leaves in rows, audit, bindings, breakers and notices is what a handler thread of the state machine does from POST to reply when nobody interferes |
| Outbox.Outbox.SelectBatch | internal/queue/sqlite.go:464-479 | the unwritten rows that come first in text order of `ts`, at most the limit |
| Outbox.Outbox.DrainOutbox | internal/queue/sqlite.go:460-501 | a prefix of the batch is marked, its sound rows are in the file in order, corrupt rows are marked without a line, and only a failing append cuts the batch short |
| Outbox.BacklogShrinks | internal/queue/sqlite.go:460-501 | a backlog of k rows is gone after exactly ceil(k / limit) successful drains |
| Outbox.DrainsInOrder | internal/queue/sqlite.go:464-464 | across successive drains rows come out in text order of `ts` and none twice |
| OutboxClock.DrainedInTimeOrderExactly | internal/queue/sqlite.go:460-501 | for rows stamped with printed instants, the lines of successive drains are in order of time exactly when no two of their rows share a second in which the earlier trimmed fraction is a proper prefix of the later |
| OutboxClock.LinesAreLogged | internal/queue/sqlite.go:480-500 | the k-th line sent to the file is the event of the k-th drained row that is not corrupt |
| OutboxClock.NewestFirstExample | internal/queue/sqlite.go:464-464 | rows of 03:04:05Z and 0.300000001 s later are drained newest first |
| Outbox.DrainedKeepsTimes | internal/queue/sqlite.go:494-497 | draining changes no row but its written mark, and marks exactly the rows of the batches |
| Breaker.Breaker.Allow | internal/circuit/breaker.go:86-112 | the grant and the new fields are those whose meaning over histories `BreakerHistory` proves |
| Breaker.Breaker.Failure | internal/circuit/breaker.go:125-143 | the new fields after a failure |
| Breaker.Breaker.Success | internal/circuit/breaker.go:115-122 | the new fields after a success |
| Breaker.Breaker.Snapshot | internal/circuit/breaker.go:77-82 | a snapshot may move an elapsed open breaker to half-open and reports it |
| Breaker.Registry.For | internal/circuit/breaker.go:178-191 | one breaker per verb, made closed on first use with the verb's own threshold, else the registry's, and the registry's open period, and never replaced; the other verbs' breakers stand |
| BreakerHistory.HistoryDecides | internal/circuit/breaker.go:84-151 | for every history of calls, closed exactly when fewer failures than the threshold came since the last success, and a grant is given exactly when closed or when the open period is over and no probe lease runs |
| BreakerHistory.RunEncodes | internal/circuit/breaker.go:84-151 | how mode, counter, opening time and lease fields encode the history |
| BreakerHistory.NoGrantWhileOpen | internal/circuit/breaker.go:145-151 | no grant within the open period of the latest trip unless a success came after it |
| BreakerHistory.ProbesLeaseApart | internal/circuit/breaker.go:95-108 | two probes granted with no verdict between them are at least a lease apart |
| BreakerHistory.NeverWedges | internal/circuit/breaker.go:62-68 | once the open period has passed since every failure and a lease since every granted probe, the next Allow is granted, however many Allows were refused meanwhile |
| BreakerHistory.SnapshotInvisible | internal/api/server.go:267-272 | removing every Snapshot call from a history changes no answer of Allow, past or to come |
| Backoff.DelayAfterFailureCapped | internal/retry/backoff.go:25-60 | the 64-bit loop yields min(max(base,0) * 2^max(n,0), cap) over the integers, plus jitter, wrapped once at the end |
| Backoff.ScheduleDoubles | internal/retry/backoff.go:25-54 | the schedule step by step: the base, then twice the last delay, never below zero nor beyond the cap, 300 s when none is given |
| Backoff.JitterWindow | internal/retry/backoff.go:56-58 | the jittered delay is in [d, d + maxJitter) for every random word exactly when the window's end fits in 64 bits |
| Backoff.JitterOverflows | internal/retry/backoff.go:56-58 | a call whose jittered delay is negative: the cap is 2^63 - 1, reached at once, and the jitter 1 |
| Backoff.DaemonWindowFits | internal/retry/backoff.go:56-58 | with the daemon's own cap and jitter the delay is in its window for every base, attempt and random word |
| Backoff.ScheduledMonotone | internal/retry/backoff.go:18-19 | later attempts and larger bases never wait less |
| Ring.Ring.Push | internal/streams/ring.go:32-46 | the circular array shows the last min(cap, pushes) events of the log with one more event |
| Ring.Ring.Since | internal/streams/ring.go:48-60 | the part of the log that is recent and unseen, in order |
| Ring.Ring.Len | internal/streams/ring.go:62-66 | min(cap, pushes), which is how many events a reader from the start gets |
| Ring.UnreadIsRecentAndNew | internal/streams/ring.go:48-60 | exactly the events above the given number among the last cap pushes, with consecutive numbers |
| Ring.PollingIsExact | internal/streams/ring.go:48-60 | a reader that polls from its last number sees nothing twice or out of order, and loses exactly what piled up beyond the capacity |
| Template.Subst | internal/api/server.go:863-889 | whenever the loop ends: what it leaves and the names it met |
| Template.LoopIsOnePass | internal/api/server.go:863-889 | with no brace in values and in the text before placeholders, the loop ends and is simultaneous substitution |
| Template.SoleTokenExactly | internal/api/server.go:863-889 | for a one-placeholder token the loop ends with the argument's value exactly when that value holds no placeholder |
| Template.SoleFill | internal/api/server.go:870-887 | a placeholder alone is filled with nothing when its argument is absent, and with the argument when that holds no placeholder |
| Template.AbsentLikeEmpty | internal/api/server.go:882-885 | for every token an absent argument and an empty one give the same text |
| Template.SoleExactly | internal/api/server.go:787-797 | which tokens count as exactly one placeholder |
| Template.LastDeclarationCounts | internal/api/server.go:819-836 | of several declarations of one name the last one says whether it is required and which flag it has |
| Template.SelfReferenceNeverStops | internal/api/server.go:870-887 | a value that names its own placeholder keeps the loop turning for ever |
| Template.ExpandArgv | internal/api/server.go:798-861 | the first missing required argument is reported, or the kept tokens and their shown forms are returned |
| Template.FirstLackingIsFirst | internal/api/server.go:799-806 | the argument reported missing is the first required one that is not given, in the order of declaration |
| Template.MarkDropped | internal/api/server.go:819-836 | exactly the empty optional sole placeholders and the declared flags directly before them are dropped |
| Template.DropsExactly | internal/api/server.go:819-836 | when no value holds a placeholder, exactly those tokens go that are placeholders of an optional argument absent or empty, or are word for word the flag of such a one next to them |
| Template.BareCommand | internal/api/server.go:798-861 | the verb location.once without arguments is sent as the bare command |
| Template.PlainPieces | internal/api/server.go:798-818 | with plain values and templates every token of the argv is the simultaneous substitution of its template |
| Template.KeptInOrder | internal/api/server.go:838-859 | the kept tokens are exactly those not dropped, in template order |
| Template.KeptAreOutputs | internal/api/server.go:838-859 | each argv entry is the filled text of the token it stands for |
| Template.ShownAligned | internal/api/server.go:842-858 | argv and redacted are aligned, each shown form is the token or the marker, and it contains the stdin text exactly when the token was hidden and the marker's own letters contain that text |
| Template.HiddenExactly | internal/api/server.go:842-858 | a token is shown as the marker exactly when it is a template that names the stdin argument or its text contains the stdin text |
| Template.MarkerShowsRed | internal/api/server.go:842-858 | a token that contains the stdin text `RED` is shown as the marker, which contains it too |
| TimeText.TextOrderExactly | internal/queue/sqlite.go:623-623 | text order of two printed instants is time order exactly when they do not share a second in which the earlier trimmed fraction is a proper prefix of the later |
| TimeText.FieldReads | internal/queue/sqlite.go:623-623 | each civil field can be read back from the printed text, in its place and with its separator |
| TimeText.FractionReads | internal/queue/sqlite.go:623-623 | after the seconds come "Z", or a point, the nanoseconds without zeros at their end, and "Z" |
| TimeText.DueTestExactly | internal/queue/sqlite.go:403-416 | the textual due test errs exactly on those pairs, so a retry is early by less than a second or late within the second |
| TimeText.EarlyClaimExample | internal/queue/sqlite.go:403-416 | a retry due 0.300000001 s later passes the due test |
| TimeText.OldestFirst | internal/queue/sqlite.go:406-406 | among instants printed with one width, first in text order is first in time |
| StoreClock.TextStoreIsWellTimed | internal/queue/sqlite.go:403-416 | a store that compares printed times is early by less than a second |
| StoreClock.DueAlikeExactly | internal/queue/sqlite.go:403-406 | both stores agree on whether a task is due exactly when its retry time and now are not a pair the text test gets wrong |
| StoreClock.ClaimAlikeExactly | internal/queue/sqlite.go:403-417 | for distinct creation times, the durable store can claim the first due task exactly when that task is not misjudged, no later one seen as due sorts before it, and no earlier one is wrongly seen as due and sorts first |
| StoreClock.ClaimAlikeWhenDueAlike | internal/queue/sqlite.go:403-417 | when no scheduled retry is misjudged, that is exactly when no due task has a creation time misordered with it |
| StoreClock.StoresClaimAlike | internal/queue/sqlite.go:403-417 | with distinct creation times printed with one width and no scheduled retry misjudged, both stores see the same tasks as due and claim the same one |
| StoreClock.StoresClaimApart | internal/queue/sqlite.go:403-417 | a retry 0.300000001 s ahead: the durable store claims it while nothing is due for the in-process store |

## Left out

- HTTP routing, JSON decoding and encoding, tokens, signals and process start-up: input and output.
- Child processes, process groups, output capture and scrubbing, and result parsing: a run is an outcome with times.
- SQL text, column scanning and pragmas: each statement or transaction is one step; crashes fall between steps.
- Stdout, stderr, exit codes, results, argv and stdin columns of a task row: no branch of the engine reads them.
- The verb allowlist, YAML loading and catalog validation: single checks over fixed tables.
- Verb search, task projection and stream start and stop: presentation, and calls on parts modelled here.
- The in-memory audit tail and fsync: the audit file is a sequence of lines.
- Engine drainers: they may read any unwritten rows in any order; `Outbox.dfy` has the order and the limit.
- Store errors other than a duplicate key: the code ignores them, and a failed commit would leave a task executing until the next restart.
- Overflow of sequence numbers at 2^64, of `2 * OpenFor`, and the saturation of time differences.
- EngineTheorems.RetrySpacing: allows a start early by `early`, because the durable store's comparison of printed times does; for the in-process store `early` is 0.
- Template.LoopIsOnePass: for tokens with several placeholders it is a sufficient condition only; accidental equality after a second expansion defies an exact one. For one-placeholder tokens `Template.SoleTokenExactly` is exact.
- Worker.Worker.Execute: attempt numbers and limits are taken to fit 64 bits, as Go's int has them.
- Server.Server.PostVerb: the filling of the argv is taken to end and is modelled in `Template.dfy`; when a value names
  its own placeholder the handler never answers (`Template.SelfReferenceNeverStops`).
- Two rows with one creation time: the durable store may return either, and `StoreClock.SqlPick` allows both.
- Printing of argument values (`fmt.Sprint`): values are the text they print as.
