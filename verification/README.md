# Runcor: engine, limiter, budgets, routing, schedules and stores

Runcor is a runtime for AI flows. This project models its stateful cores and proves what they keep on every
run. The promises that the code keeps only under a condition are listed below, each with a proof that the
condition is exact or with a run from the start that breaks the promise without it. Assumptions about inputs,
such as estimates that are not negative or a clock that does not go back, are stated with their theorems.

`dafny verify dfyconfig.toml` checks everything.

## How it is built

Each core is written twice. A set of functions says, on values, what one step does: for the engine one segment
of a method between two awaits, for the others one call, one timer or one half of a call that waits. Runs are
sequences of such steps in any order, so the theorems are about every interleaving. Beside it stands the core
in its own form: a class whose methods change fields, maps and timers step by step, each proved to have
exactly the effect of the function. `Perform` closes the circle: whatever happens next to the object, it takes
the step of the specification.

| files | what they model |
|---|---|
| `execution.dfy` | an execution, its transition table and log, and the language of its runs |
| `engine_steps.dfy`, `engine.dfy` | the engine as a transition system, and as objects |
| `engine_cells.dfy`, `engine_slots.dfy`, `engine_logs.dfy`, `engine_runs.dfy`, `engine_theorems.dfy` | what every interleaving keeps: slots, logs, one driver, one ending |
| `engine_losses.dfy` | exactly which events lose a slot, and exactly when the limit is passed |
| `engine_timers.dfy` | exactly when timers match states; kept flows on every run |
| `engine_progress.dfy` | what each event makes of an execution, from any reachable state: to the next handler call or to an end |
| `engine_witnesses.dfy` | runs from the start that break a promise outside its condition |
| `engine_coarse_cells.dfy`, `engine_coarse.dfy`, `engine_fifo.dfy` | runs to completion: timers, work conservation, first in first out |
| `engine_idempotency.dfy` | one execution per idempotency key |
| `rate_limits.dfy`, `rate_limiter.dfy` | the sliding-window limiter with its queues |
| `rate_windows.dfy`, `rate_bound.dfy`, `rate_breach.dfy` | the window bound over the whole history, and exactly when it holds |
| `rate_draining.dfy`, `rate_answers.dfy` | how far a queue drains; what is answered, and what timers, releases and clear do |
| `rate_lobby.dfy`, `rate_multiple.dfy`, `rate_shared.dfy` | settlement and order of queued requests; checks of several limits at once, with a key each and with shared keys |
| `budgets.dfy`, `budget_checks.dfy`, `budget_windows.dfy` | budget accumulators, checks and windows |
| `cost_tracking.dfy`, `cost_theorems.dfy`, `cost_caps.dfy`, `cost_calculator.dfy`, `cost_objects.dfy` | check, reserve, call, settle, with many calls in flight; the ledger; costs and estimates |
| `breaker.dfy`, `strategies.dfy`, `router.dfy`, `router_runs.dfy`, `router_object.dfy` | circuit breakers, provider orders and routed fallback, for one call and for many at once |
| `scheduling.dfy`, `schedule_runs.dfy`, `schedule_breaks.dfy`, `scheduler_object.dfy` | cron schedules and their ticks |
| `memory_store.dfy`, `memory_lifetimes.dfy` | the flat memory store against scoped memory; how long an entry is read |
| `state_rows.dfy`, `state_stores.dfy`, `state_lifetimes.dfy`, `state_store_objects.dfy` | the two state stores against one abstract map; how long an execution is kept |

## Promises that hold only under a condition

- Slots: a cancel of a running or retrying execution never gives its slot back (`src/engine.ts:746-751`), and
  a resume takes one for an execution that was cancelled in its await (`src/engine.ts:817-830`). The count is
  right if and only if neither happened (`EngineLosses.ExactSlots`).
- The limit: a resume takes a slot without looking at it (`src/engine.ts:830`). A run stays within the limit if
  and only if each resume finds a slot free (`EngineLosses.LimitExactly`, `EngineWitnesses.ResumePassesLimit`).
- Timers match states throughout a run if and only if no stale continuation runs in it, one whose execution has
  moved on during an await (`EngineTimers.TimersMatchExactly`, `EngineWitnesses.CancelDuringWait`). Waiting
  executions keep their flow on every run (`EngineTimers.ResumeFindsFlow`); terminal ones keep nothing if and
  only if no resume takes up a cancelled one (`EngineTimers.NothingKeptExactly`,
  `EngineWitnesses.CancelDuringResume`).
- The queue: acting on a free slot leaves no one queueing beside it if and only if the remembered execution
  still queues with its flow registered, or no one queues (`EngineFifo.BlockedHead`). Of two slots freed at once
  one stays empty and goes to a later trigger (`EngineWitnesses.QueueOvertaken`).
- Idempotency: two triggers of one key between lookup and store both store
  (`EngineIdempotency.SafeExactlyWithoutRace`, `EngineWitnesses.KeyStoredTwice`).
- Rate limits: keys do not carry the name of their configuration and queues do not carry the key
  (`RateBreach.BoundExactly`). A check of several limits is always all or nothing if and only if their keys
  differ, or there is one key and no room for all of them (`RateShared.AllOrNoneExactly`).
- Budgets: an enabled scope is reserved if and only if no scope before it has run out of room, so a soft one
  that is exceeded hides the later ones (`CostCaps.ReservedExactly`, `CostCaps.SoftScopeHidesLater`).
- Answers: a complete call that was paid and recorded loses its answer if and only if someone listens and the first
  scope that its cost puts over the limit is hard (`CostCaps.AnswerLostExactly`, `CostCaps.PaidAndLost`).
- Schedules: an event leaves the order of all ticks that can follow intact if and only if it does not make a
  schedule of the flow during its tick while the scheduler is up (`ScheduleBreaks.OrderExactly`). In one such run
  a match is skipped and the next one handled early and twice (`ScheduleBreaks.HandledTwice`).
- Memory: ids with a colon share keys (`MemoryStores.FaithfulExactly`).
- State stores: the index and the table agree throughout a run if and only if no two executions share a key and
  none changes its own (`StateStores.AgreeRunExactly`).

Where comments and code disagree the model follows the code. The header of the limiter gives flow scope without
a flow name the identifier `*`; the code uses the name of the running flow (`src/policy/rate-limiter.ts:56`).
The tracker says that a failed record leaves the reservation; by then it has been reconciled to the actual cost
(`src/cost/tracker.ts:163-188`). The budget window `none` is meant to end at the greatest safe integer; that is
no valid date, so the window never ends, which comes to the same (`src/cost/budget.ts:232-234`).

## Model

| member | source | states |
|---|---|---|
| Executions.Execution.constructor | src/execution.ts:49-76 | a new execution is queued, with no retries, no start or end time and an empty log |
| Executions.Execution.TransitionTo | src/execution.ts:79-98 | a move in the table is logged with its time, sets the state, the first start time and the end time of a terminal state; a move outside it is refused and changes nothing |
| Executions.KeepsLanguage | src/execution.ts:28-35 | every table move of a log in the run language, under the two conditions the engine keeps, leaves it there: no retry after a wait, one retry counted per retrying |
| Executions.KeepsChain | src/execution.ts:79-98 | a table move keeps the log a chain from queued to the current state, with the start at its first entry into running and the end at its terminal one |
| Executions.QueuedOnlyFirst | src/execution.ts:28-35 | in such a log queued is left once, by the first entry |
| Executions.WaitedPath | src/execution.ts:79-98 | the log has an entry into waiting exactly when the path of states contains waiting |
| EngineTheorems.SlotAccounting | src/engine.ts:1429-1438 | on every run of any interleaving, when no continuation is about to take or give back a slot, activeExecutions is the number of running and retrying executions plus the slots lost to cancels |
| EngineCoarse.QuietSlots | src/engine.ts:1688-1689 | the same whenever no continuation is pending at all |
| EngineLosses.LeaksStep | src/engine.ts:746-830 | every event adds one to the slots lost if it cancels an execution that holds a slot or is the continuation of a resume that takes one for a terminal execution, and nothing otherwise; none comes back |
| EngineLosses.SlotsAndLosses | src/engine.ts:1429-1438 | on every run, when no continuation is about to take or give back a slot, activeExecutions is the number of running and retrying executions plus one for each event of the run that lost a slot |
| EngineLosses.ExactSlots | src/engine.ts:746-830 | then activeExecutions is exactly the number of running and retrying executions if and only if no event of the run lost a slot |
| EngineLosses.HarmlessLosesNone | src/engine.ts:746-751 | runs that cancel no running or retrying execution lose none |
| EngineWitnesses.CancelDuringResume | src/engine.ts:817-850 | a run whose cancel lands in the await of a resume: it holds no slot and drops the kept flow, and the resume takes a slot for the failed execution |
| EngineTheorems.ConcurrencyBound | src/engine.ts:830 | slots taken through dispatch by executions that have not waited never exceed the limit, and the total is at most the limit plus the slots taken by resume and not given back |
| EngineTheorems.LimitWithoutResume | src/engine.ts:1432-1436 | with no resume activeExecutions stays between zero and the limit |
| EngineLosses.PassesLimitExactly | src/engine.ts:830 | from within the limit an event passes it if and only if it is the continuation of a resume that finds its flow and time left while all slots are taken |
| EngineLosses.LimitExactly | src/engine.ts:830 | a run stays within the limit throughout if and only if every resume that takes a slot finds one free |
| EngineWitnesses.ResumePassesLimit | src/engine.ts:830 | a run with a limit of one and two active executions |
| EngineTheorems.RunLanguageHolds | src/engine.ts:952-963 | on every run each log is a chain from queued to the current state whose start and end times are the recorded ones, in queued (running retrying)^k running (waiting running)^m and at most one terminal state, or cut short by failed; k is the retry count and within the maxRetries of the flow its first run captured; no retry follows a wait |
| EngineTheorems.OneStartOneEnd | src/engine.ts:1430-1437 | under stale queue snapshots and late trigger continuations an execution still leaves queued at most once, and its log names at most one terminal state, last |
| EngineTheorems.OneDriver | src/engine.ts:1514 | at most one task carries an execution forward, so at most one handler of it is in flight; one does while it runs or retries, none while it is queued or waiting, and what is left of a complete one is the storing of its result |
| EngineTheorems.OneEnding | src/engine.ts:1663-1685 | a live execution has sent no execution:complete event, a failed one exactly one, a complete one exactly one once its result is stored |
| EngineTheorems.TerminalForever | src/engine.ts:1664 | no event changes a terminal execution or takes an execution:complete event back |
| EngineProgress.RetriedExactly | src/engine.ts:1559-1572 | after any run, a retryable error of a handler or of its output check before any resume: the execution is retrying, with one more retry, its slot kept and its retry on the way, if and only if the flow its first run captured allows another; otherwise it has failed, with one event, no timeout left and its slot free |
| EngineProgress.FailsExactly | src/engine.ts:1638-1649 | a fatal error fails it and frees the slot, and so does any error after a resume |
| EngineProgress.RetryCallsHandler | src/engine.ts:1574-1613 | a retry is timed, and when the timer fires the execution runs and the same handler is called again, its timeout as it was and the counter too |
| EngineProgress.TriggerCallsHandler | src/engine.ts:1429-1477 | a triggered execution that finds a slot free takes it and its handler is called, with a timeout exactly when that of the trigger, or else of the flow, is positive; with no slot free it stays queued |
| EngineProgress.SnapshotCallsHandler | src/engine.ts:1795-1800 | a remembered execution that still queues starts exactly when its flow is registered and a slot is free, with the flow and the timeout registered now, whatever timeout the trigger asked for |
| EngineProgress.ReturnCompletes | src/engine.ts:1512-1539 | a handler that returns completes its execution: the output is checked, except in a retry, the result is stored, one event is sent and then the slot is free |
| EngineProgress.WaitFreesSlot | src/engine.ts:1835-1914 | a handler that waits frees its slot once that is stored; what the timeout has left, counted from the trigger, is kept for the resume, and a wait timeout is set exactly when it is positive |
| EngineProgress.ResumeCallsHandler | src/engine.ts:809-914 | a resume of a waiting execution calls the kept handler again on a slot of its own with the time that was left as its timeout, or fails it, taking no slot, if none is left |
| EngineProgress.ResumeFindsNothing | src/engine.ts:833-845 | with neither a kept nor a registered flow it fails what still lives, takes no slot and does not look at the queue |
| EngineProgress.LateRetryTimer | src/engine.ts:1580-1582 | a retry timer that fires after its execution has ended only forgets itself |
| EngineProgress.TimeoutEnds | src/engine.ts:1462-1475 | an execution timeout that fires on a live execution fails it, with one event, and frees its slot |
| EngineProgress.WaitTimeoutEnds | src/engine.ts:1891-1906 | a wait timeout that fires fails a waiting execution, which holds no slot, and no other |
| EngineProgress.CancelEnds | src/engine.ts:730-752 | a cancel fails a live execution, with one event and no timeout left, leaves a terminal one alone, and leaves the counter |
| EngineProgress.TriggerPasses | src/engine.ts:663-684 | a trigger goes on if and only if its key has a character that is no white space, no stored execution has the key, and the flow is registered |
| EngineProgress.TriggerStores | src/engine.ts:697-723 | past its policy check it stores a queued execution of its flow, key and options under its id; refused there it stores nothing |
| EngineProgress.RegistryHas | src/engine.ts:473-614 | on every run the flow of a name is the first one registered since the name was last unregistered |
| EngineWitnesses.RetriesUntilLimit | src/engine.ts:1550-1649 | for every limit: a run whose handler throws a retryable error each time and that fails after exactly that many retries, its slot free |
| EngineSlots.RunLiveBalanced | src/engine.ts:1441-1547 | every continuation, timer and handler result changes the slots its execution holds by exactly what it changes activeExecutions |
| EngineSlots.CancelBalanced | src/engine.ts:730-752 | a cancel changes neither: a slot held turns into a slot lost |
| EngineSlots.ResumeBalanced | src/engine.ts:755-830 | a resume up to its await changes neither; the slot is counted when it continues |
| EngineLogs.RunTaskStep | src/engine.ts:1441-1547 | every segment leaves the record alone or makes one move of the transition table with the retry count that goes with it |
| EngineLogs.RunTaskBounded | src/engine.ts:1559-1572 | no segment takes the retry count past the flow captured by the first run |
| EngineCells.RunTaskOk | src/engine.ts:1441-1547 | every segment keeps: timers known to the maps are the live ones, one driver that fits the state, events sent as the state says |
| EngineRuns.AfterInv | src/engine.ts:648-965 | the invariant of all of the above holds after every run |
| EngineTimers.MatchStep | src/engine.ts:1441-1477 | an event keeps every timer matching its execution if and only if it is no stale continuation: one that sets an execution, retry or wait timer after its execution has moved on, or takes up a terminal execution with time left |
| EngineTimers.TimersMatchExactly | src/engine.ts:1580-1637 | timers match states throughout a run, under any interleaving, if and only if no stale continuation runs in it |
| EngineTimers.TimersMatchStates | src/engine.ts:1918-1940 | then a retry timer belongs to a retrying execution, a wait timer to a waiting one, an execution timer to a running or retrying one, every live timer is in its map, and a terminal execution has none |
| EngineTimers.DisciplinedNeverStale | src/engine.ts:1918-1940 | when calls, timers and handler results come only while no continuation is pending, none is stale and no resume takes up a terminal execution |
| EngineTimers.DisciplinedResume | src/engine.ts:817-830 | and then an execution that a resume goes on with still runs |
| EngineTimers.ResumeFindsFlow | src/engine.ts:833-850 | on every run, under any interleaving, a waiting execution keeps its flow, and a resume of one that still runs finds it after the flow is unregistered |
| EngineTimers.NothingKeptExactly | src/engine.ts:746-850 | terminal executions keep no flow and no remaining time throughout a run if and only if no resume in it takes up an execution that was cancelled during its await |
| EngineWitnesses.CancelDuringWait | src/engine.ts:1918-1940 | a run whose cancel comes while a wait is stored: a wait timer is live on a failed execution |
| EngineFifo.WorkConserving | src/engine.ts:1784-1801 | on runs of that discipline, while flows with queued executions stay registered, an execution queues only while activeExecutions is at the limit |
| EngineFifo.StartsInTriggerOrder | src/engine.ts:723-724 | then executions first start in the order they were triggered, and none starts while an earlier one is queued |
| EngineFifo.BlockedHead | src/engine.ts:1784-1801 | acting on the one free slot leaves no one queued beside it if and only if the remembered execution still queues with its flow registered, or no one is queued |
| EngineFifo.TwoFreedOneFilled | src/engine.ts:1784-1801 | whenever two slots are freed before the first dispatchQueued acts, both pick the same head and one slot stays empty beside a queued execution |
| EngineWitnesses.QueueOvertaken | src/engine.ts:1784-1801 | a run to such a state, and on: a later trigger takes the slot and starts before the queued execution |
| EngineIdempotency.SafeExactlyWithoutRace | src/engine.ts:670-676 | one execution per idempotency key is kept by an event if and only if it is not a trigger that passes its lookup while another with the key has not stored yet |
| EngineIdempotency.RaceStoresTwice | src/engine.ts:671-723 | whenever two triggers of one key have passed their lookups and their checks, both store |
| EngineWitnesses.KeyStoredTwice | src/engine.ts:671-723 | a run that does |
| EngineIdempotency.OneExecutionPerKey | src/engine.ts:670-676 | on runs without such a race every stored key is held by one execution, the one the index finds |
| EngineObject.Entry.constructor | src/engine.ts:712-713 | a stored execution starts without timers, handler or tasks |
| EngineObject.Entry.ClearTimers | src/engine.ts:1918-1940 | clears the three timers, the kept handler and the remaining time, and nothing else |
| EngineObject.Entry.TransitionAndEmit | src/engine.ts:1804-1818 | moves the execution if the table allows it and says so |
| EngineObject.Entry.FailExecution | src/engine.ts:1663-1685 | fails a live execution with one event and leaves a terminal one alone |
| EngineObject.Entry.Start | src/engine.ts:1429-1449 | takes a slot and starts a queued execution if there is room, and does nothing otherwise |
| EngineObject.Entry.Cancel | src/engine.ts:730-752 | fails a live execution with its timers cleared; a slot it holds is not given back |
| EngineObject.Entry.Resume | src/engine.ts:794-821 | stops the wait timer and moves a waiting execution to running; any other is left alone |
| EngineObject.Entry.AfterRunStored | src/engine.ts:1449-1512 | sets the execution timeout, if any, and calls the handler |
| EngineObject.Entry.HandlerSettled | src/engine.ts:1512-1545 | waits, goes to the output check, completes, retries or fails as the handler settled; nothing if the execution left running |
| EngineObject.Entry.GuardSettled | src/engine.ts:1527-1545 | stores the result after the output check; completing an execution that left running only clears its timers |
| EngineObject.Entry.HandleError | src/engine.ts:1550-1649 | retries a retryable error within maxRetries, otherwise fails and frees the slot |
| EngineObject.Entry.OnError | src/engine.ts:950-963 | an error after a resume always fails |
| EngineObject.Entry.AfterCompleteStored | src/engine.ts:1537-1539 | sends the event and frees the slot |
| EngineObject.Entry.AfterRetryStored | src/engine.ts:1572-1637 | registers the retry timer |
| EngineObject.Entry.RetryTimerFires | src/engine.ts:1580-1586 | runs again if still retrying |
| EngineObject.Entry.EnterWaiting | src/engine.ts:1835-1872 | parks the remaining time since the trigger, keeps the handler and moves to waiting |
| EngineObject.Entry.AfterWaitStored | src/engine.ts:1887-1914 | sets the wait timer, if any, and frees the slot |
| EngineObject.Entry.AfterResumeStored | src/engine.ts:829-914 | takes a slot, then fails for want of a flow or of time, or runs the handler with the time left |
| EngineObject.Entry.TimeoutFires | src/engine.ts:1463-1475 | fails a live execution and frees the slot |
| EngineObject.Entry.WaitTimeoutFires | src/engine.ts:1891-1907 | fails a waiting execution; no slot is freed |
| EngineObject.Entry.RunLive | src/engine.ts:1441-1547 | takes any pending task of an execution and does what that continuation does |
| EngineObject.Engine.constructor | src/engine.ts:648-727 | an engine starts empty |
| EngineObject.Engine.OldestQueued | src/engine.ts:1787-1795 | the queued execution with the least queued time, the first stored among equals, or none |
| EngineObject.Engine.DispatchQueued | src/engine.ts:1784-1787 | remembers that execution if there is a free slot |
| EngineObject.Engine.SnapshotArrives | src/engine.ts:1795-1800 | starts the remembered execution if it is still queued, its flow registered and a slot free |
| EngineObject.Engine.Trigger | src/engine.ts:648-701 | goes past the lookup with a non-blank new key and a registered flow |
| EngineObject.Engine.StoreExecution | src/engine.ts:703-723 | creates and stores the execution under its id and key |
| EngineObject.Engine.CancelCall | src/engine.ts:730-752 | changes the one execution as its cancel does |
| EngineObject.Engine.ResumeCall | src/engine.ts:755-821 | changes the one execution as its resume does |
| EngineObject.Engine.Run | src/engine.ts:1441-1547 | changes the one execution as its task does, the counter by its slots, and looks at the queue if it ended |
| EngineObject.Engine.RegisterFlow | src/engine.ts:473-576 | adds a flow under a new name only |
| EngineObject.Engine.UnregisterFlow | src/engine.ts:579-614 | removes a flow |
| EngineObject.Engine.Perform | src/engine.ts:648-965 | whatever happens next, the objects take exactly the step of the transition system the theorems are about |
| RateWindows.SpacedIsWithin | src/policy/rate-limiter.ts:69-86 | no window of the given length holds more than the limit of a sorted history if and only if admissions that many apart are a window apart |
| RateWindows.LiveIsSuffix | src/policy/rate-limiter.ts:77-78 | eviction of a sorted log keeps its end and drops only what left the window |
| RateBound.BoundHolds | src/policy/rate-limiter.ts:69-164 | if every configuration that can share a key with c0 has at least its window, at most its limit and a queue that cannot cross keys, then on every run no window of c0 has more than its limit admissions over the whole history, direct and drained, on any of its keys |
| RateBreach.BoundExactly | src/policy/rate-limiter.ts:44-63 | and only then: the bound holds on every run if and only if that condition does |
| RateBreach.GreaterLimitBreaks | src/policy/rate-limiter.ts:44-63 | a greater limit on a shared key breaks it |
| RateBreach.ShorterWindowBreaks | src/policy/rate-limiter.ts:75-78 | a shorter window on a shared key breaks it, because its eviction forgets what c0 must still count |
| RateBreach.QueueBreaks | src/policy/rate-limiter.ts:298-320 | queueing per user or flow with a limit of two or more breaks it, because a stranger drains the queue under his own key |
| RateLobby.SettledExactlyOnce | src/policy/rate-limiter.ts:253-291 | on every run a queued request either waits, with its timer live, or has been settled exactly once, with its timer gone |
| RateLobby.ReleasedInOrder | src/policy/rate-limiter.ts:310-320 | requests leave a queue by drain or release in the order they came, and none waiting came earlier |
| RateLobby.DepthBound | src/policy/rate-limiter.ts:245-250 | no request stands further back than the depth it was accepted under |
| RateDraining.DrainsWhileRoom | src/policy/rate-limiter.ts:298-327 | an allowed check releases its queue from the head while the window of its key has room, each request recorded under its own key; afterwards no one waits there or the window is full |
| RateDraining.DrainHistory | src/policy/rate-limiter.ts:268-281 | so under every key the history grows by the admission of the check and one for each request released under that key, and the queue by nothing |
| RateAnswers.AnswersExactly | src/policy/rate-limiter.ts:140-164 | a check is allowed if and only if there is room; otherwise a reject configuration refuses, a queueing one refuses if and only if its depth, a hundred by default, is reached, and else the caller waits last in line with a live timer; a refusal admits no one |
| RateAnswers.SyncExactly | src/policy/rate-limiter.ts:104-129 | the check without a queue records now if and only if there is room, and otherwise only evicts |
| RateAnswers.SharedKeyExactly | src/policy/rate-limiter.ts:44-63 | two checks share a key if and only if they are of one scope and count the same user, the same flow or everyone; without a user it is the user anonymous |
| RateAnswers.TimeoutRejects | src/policy/rate-limiter.ts:254-266 | after any run, a live timeout takes its own request out of the queues and settles it, and nothing else changes; a cleared one does nothing |
| RateAnswers.ReleaseFreesAll | src/policy/rate-limiter.ts:334-347 | a release lets everyone of the name go in order, each recorded under its own key whatever room there is, and touches no other queue |
| RateAnswers.ClearEmpties | src/policy/rate-limiter.ts:353-368 | clear forgets every log and settles everyone who waits, once, and no one else |
| RateAnswers.AnswersMostRestrictive | src/policy/rate-limiter.ts:184-195 | when all of several checks fit, the answer is of the first one with the greatest share of its limit in use, this call counted in |
| RateMultiple.RollbackIsExact | src/policy/rate-limiter.ts:200-214 | whatever keys the configurations share, a pass that is taken back leaves exactly the evictions: no admission is lost and none remains |
| RateMultiple.PassEvictsThenPushes | src/policy/rate-limiter.ts:178-181 | a pass is the evictions of all configurations and then the admissions of those allowed |
| RateMultiple.AllOrNothing | src/policy/rate-limiter.ts:170-225 | after any run, for reject configurations with a key each: either every key gets the one timestamp and the call is allowed, or every log is its old value without what expired and the call is refused |
| RateMultiple.OthersUntouched | src/policy/rate-limiter.ts:170-225 | keys of none of the configurations are not touched |
| RateShared.AllowedExactly | src/policy/rate-limiter.ts:217-222 | a check of several reject configurations is allowed if and only if each fits beside those before it, counting its key's log without what any of them evicts, or the first that does not fit has room without them |
| RateShared.FittingCall | src/policy/rate-limiter.ts:175-195 | when all fit, each key gets a timestamp for every configuration that has it |
| RateShared.UnfitCall | src/policy/rate-limiter.ts:198-222 | otherwise the call is allowed just if the first that does not fit has room once the pass is taken back; its key gets one timestamp and no other key any |
| RateShared.FittingExactly | src/policy/rate-limiter.ts:175-195 | when all fit the call is all or nothing if and only if the keys differ |
| RateShared.UnfitExactly | src/policy/rate-limiter.ts:198-222 | otherwise if and only if the first that does not fit stays refused or there is one key |
| RateShared.AllOrNoneExactly | src/policy/rate-limiter.ts:170-225 | for positive limits and windows: every call after any run, with no request waiting under the names of these reject configurations, is all or nothing if and only if the keys differ, or there is one key and one configuration has no room for those before it |
| RateShared.SharedKeyRecordsTwice | src/policy/rate-limiter.ts:175-195 | two configurations of one key with room for both: one call leaves two timestamps |
| RateShared.SharedKeyAdmits | src/policy/rate-limiter.ts:217-222 | two configurations of one key with room for one: the pass is denied, the call is allowed, and one timestamp stands for both |
| RateLimiterObject.RateLimiter.EvictAndCount | src/policy/rate-limiter.ts:69-86 | drops expired timestamps, and the entry if none is left, and returns how many are left |
| RateLimiterObject.RateLimiter.RecordTimestamp | src/policy/rate-limiter.ts:91-98 | appends now to the log of the key |
| RateLimiterObject.RateLimiter.CheckSync | src/policy/rate-limiter.ts:104-129 | admits and records exactly when the live count is below the limit |
| RateLimiterObject.RateLimiter.CheckOne | src/policy/rate-limiter.ts:140-164 | then drains the queue, refuses or enqueues |
| RateLimiterObject.RateLimiter.CheckEach | src/policy/rate-limiter.ts:175-181 | checks every configuration in order, each on what the ones before left |
| RateLimiterObject.RateLimiter.PopTimestamp | src/policy/rate-limiter.ts:200-214 | takes the last timestamp back |
| RateLimiterObject.RateLimiter.UndoRecorded | src/policy/rate-limiter.ts:200-214 | takes back one timestamp for each configuration that recorded |
| RateLimiterObject.RateLimiter.CheckMultiple | src/policy/rate-limiter.ts:170-225 | returns the first result of greatest count to limit when all pass, otherwise undoes the pass and checks the first denied configuration alone |
| RateLimiterObject.RateLimiter.EnqueueRequest | src/policy/rate-limiter.ts:231-291 | refuses at the depth, otherwise appends the request with its timer |
| RateLimiterObject.RateLimiter.TimerFires | src/policy/rate-limiter.ts:254-266 | removes the request from its queue and rejects it |
| RateLimiterObject.RateLimiter.ResolveEntry | src/policy/rate-limiter.ts:268-281 | clears the timer, records a timestamp without a check and then evicts |
| RateLimiterObject.RateLimiter.DrainQueue | src/policy/rate-limiter.ts:298-327 | releases from the head while the count of the caller is below the limit, then deletes an empty queue |
| RateLimiterObject.RateLimiter.ReleaseQueued | src/policy/rate-limiter.ts:334-347 | releases everyone in order and deletes the queue |
| RateLimiterObject.RateLimiter.Clear | src/policy/rate-limiter.ts:353-368 | empties the logs and rejects everyone who waits, once |
| RateLimiterObject.RateLimiter.GetCurrentCount | src/policy/rate-limiter.ts:374-382 | the live count, with the eviction it does |
| RateLimiterObject.FindTightest | src/policy/rate-limiter.ts:184-195 | the one-pass search finds a result whose ratio of count to limit no other exceeds and none before reaches |
| RateLimiterObject.TightestIsMostRestrictive | src/policy/rate-limiter.ts:184-195 | what the pass over the results keeps is the first of greatest ratio |
| RateLimiterObject.OneMostRestrictive | src/policy/rate-limiter.ts:184-195 | only one position is of that kind, so the loop and the specification answer alike |
| RateLimiterObject.RateLimiter.Perform | src/policy/rate-limiter.ts:29-382 | whatever happens next, the object takes the step of the specification the theorems are about |
| Budgets.KeysApart | src/cost/budget.ts:70-97 | accumulator keys of different accounts differ, and none is the per-request key |
| BudgetChecks.CheckEffect | src/cost/budget.ts:99-165 | a check makes an account ready and lists it, or leaves it alone; if it passes, every charged and enabled account is listed and fits its limit; a hard one that does not fit throws |
| BudgetChecks.ScopesListed | src/cost/budget.ts:99-165 | each scope is listed once and is enabled; all enabled ones are listed while nothing is exceeded |
| BudgetChecks.HardNeverSoft | src/cost/budget.ts:129-144 | with every enabled scope hard no check ends early |
| BudgetChecks.PassesExactly | src/cost/budget.ts:79-145 | a check passes if and only if the amount is within the limit of one call and there is room for it in the account of the user, if there is one, of the flow and of everyone, in so far as these are in force; the budget of the flow itself goes before that for all flows |
| BudgetChecks.CheckTells | src/cost/budget.ts:135-160 | a warning tells the scope, the limit and the spend with the amount, an exceeded scope its limit and the spend without it, with which the amount is beyond the limit |
| BudgetChecks.ReserveAt | src/cost/budget.ts:168-183 | reserving adds the amount to each listed key once and to no other |
| BudgetChecks.ReconcileAt | src/cost/budget.ts:186-194 | reconciling moves each listed key from the estimate to the actual cost and no other |
| CostTheorems.LedgerGap | src/cost/tracker.ts:92-166 | without windows, over every interleaving: an accumulator is all ever recorded for the account, the estimates in flight, the estimates of complete calls whose router threw, and the drift of calls settled without being both reserved and recorded |
| CostTheorems.AccumulatorAgreesWithLedger | src/cost/tracker.ts:92-183 | with hard scopes, no failed record and nothing evicted the drift is zero: accumulator equals getTotal plus estimates in flight plus stranded estimates |
| CostTheorems.LedgerIsRecent | src/cost/ledger.ts:21-26 | the ledger is the last entries of everything recorded, as many as its capacity; a capacity below one keeps one |
| CostTheorems.SettlementRecorded | src/cost/tracker.ts:168-187 | an answer leaves the call over and, if its record does not fail, one newest entry with its cost and the execution, flow, user and time of the call; nothing else touches the ledger |
| CostTheorems.TotalOfExecution | src/cost/ledger.ts:49-56 | the total asked for one execution is the total of its own entries |
| CostTheorems.SplitsByTime | src/cost/ledger.ts:49-56 | any moment splits a total into what was spent before it and what from then on |
| CostTheorems.FailureReleases | src/cost/tracker.ts:349-359 | after any run, a call that fails leaves no entry: a stream gives back what it reserved in each of its accounts, a complete call leaves it there |
| CostCaps.HardCap | src/cost/budget.ts:131-137 | an admitted call leaves each hard scope it reserved in at or below its limit, whatever the other scopes are |
| CostCaps.EveryScopeReserved | src/cost/budget.ts:105-165 | with every enabled scope hard an admitted call reserves in every enabled scope it charges |
| BudgetChecks.ListedExactly | src/cost/budget.ts:105-165 | an enabled scope is listed by a check if and only if no scope before it, as its account stands, has run out of room |
| CostCaps.ReservedExactly | src/cost/budget.ts:139-144 | so an admitted call reserves in an enabled scope it charges exactly then |
| CostCaps.RefusedChangesNothing | src/cost/budget.ts:131-137 | a refused call changes no spend except by the reset of a window that ended |
| CostCaps.SpendBound | src/cost/budget.ts:168-194 | at all times and under any windows spend is at most the limit plus what settled calls cost beyond their estimates |
| CostCaps.SoftScopeHidesLater | src/cost/budget.ts:139-144 | when the first scope without room is soft the call is admitted, and an account of any later scope is never charged for it although the ledger has the cost |
| CostCaps.AnswerLostExactly | src/cost/tracker.ts:168-218 | the answer of a call that was paid and recorded is lost if and only if the call is complete, someone listens, and of the scopes that are over their limits once its cost is in them the first is hard: the check after it throws like any other |
| CostCaps.PaidAndLost | src/cost/tracker.ts:209-218 | a run that does: a limit of ten, an estimate of five and a cost of twenty |
| BudgetWindows.WindowsTile | src/cost/budget.ts:238-263 | a time lies in its own window, and another time lies in it exactly when it has the same window number |
| BudgetWindows.ResetTiles | src/cost/budget.ts:216-225 | with a clock that does not go back the accumulator ends up in the window of now, and spend is dropped exactly when the window number changed |
| BudgetWindows.WindowsFollowClock | src/cost/budget.ts:128-129 | after every run a check that lists an account leaves it in the window of that moment, with its spend if that is still the same window and none otherwise |
| BudgetWindows.WarnedOncePerWindow | src/cost/budget.ts:147-161 | on every run two warnings of one account are of different windows |
| BudgetWindows.WarnsExactly | src/cost/budget.ts:147-161 | a check warns about an account, once, if and only if its scope is reached, has room for the amount, comes to the threshold with it and has not been warned about in its window |
| BudgetWindows.OtherWindows | src/cost/budget.ts:216-263 | without a window, or with one of no length, nothing is ever dropped; with one of negative length every check drops what was spent before |
| BudgetWindows.SettlementChecks | src/cost/tracker.ts:204-233 | a recorded answer of a complete call, when someone listens, is followed by a check at no cost that marks each account it reaches exactly when its spend, the cost in it, has come to the threshold; otherwise the accounts are just reconciled |
| CostCalculator.CostNotNegative | src/cost/calculator.ts:10-19 | a cost is never negative |
| CostCalculator.OneMoreToken | src/cost/calculator.ts:10-19 | one more prompt token adds the input rate and one more completion token the output rate; counts below zero and rates below zero add nothing |
| CostCalculator.NothingCostsNothing | src/cost/calculator.ts:15-18 | no tokens cost nothing, and neither does a provider without rates |
| CostCalculator.EstimateIsReached | src/cost/calculator.ts:27-37 | a prompt with a token for every four characters that uses all its tokens costs exactly its estimate |
| CostCalculator.EstimateCovers | src/cost/calculator.ts:27-37 | a call that keeps to its token limit with a token for every four characters costs at most its estimate and adds nothing to the overrun |
| CostCalculator.NegativeRateUnderestimates | src/cost/calculator.ts:27-37 | rates are not clamped in the estimate: a negative one reserves less than nothing |
| CostObjects.BudgetEnforcer.GetOrCreateAccumulator | src/cost/budget.ts:201-214 | adds a fresh accumulator for a new key only |
| CostObjects.BudgetEnforcer.MaybeResetWindow | src/cost/budget.ts:216-225 | replaces an accumulator whose window ended by a fresh one |
| CostObjects.BudgetEnforcer.CheckOne | src/cost/budget.ts:99-161 | one scope: skipped, passed, warned once or exceeded |
| CostObjects.BudgetEnforcer.CheckBudgets | src/cost/budget.ts:60-165 | all scopes in order up to the first that is exceeded |
| CostObjects.BudgetEnforcer.ReserveCost | src/cost/budget.ts:168-183 | adds the amount, creating what is missing |
| CostObjects.BudgetEnforcer.ReconcileCost | src/cost/budget.ts:186-194 | credits or debits the difference where there is an accumulator |
| CostObjects.InMemoryCostLedger.Record | src/cost/ledger.ts:21-26 | drops the oldest at capacity and appends |
| CostObjects.InMemoryCostLedger.GetTotal | src/cost/ledger.ts:34-42 | the sum of the costs of matching entries |
| CostObjects.InMemoryCostLedger.Query | src/cost/ledger.ts:29-31 | the matching entries in order |
| CostObjects.TotalOfMatching | src/cost/ledger.ts:29-42 | the total of a filter is the total of what the filter selects |
| CostObjects.CostTracker.Begin | src/cost/tracker.ts:92-150 | check, then reserve in the listed scopes; a hard scope refuses the call |
| CostObjects.CostTracker.Settle | src/cost/tracker.ts:153-233 | reconcile, record unless that fails, and after a complete call check once more at no cost; tells whether the caller gets the answer |
| CostObjects.CostTracker.Fail | src/cost/tracker.ts:349-359 | a stream releases its reservation, a complete call keeps it |
| CostObjects.CostTracker.Perform | src/cost/tracker.ts:77-366 | whatever happens next, the objects take the step of the specification the theorems are about |
| Breakers.TimerWhileUnhealthy | src/model/circuit-breaker.ts:80-86 | before shutdown a breaker has a live cooldown timer if and only if it is unhealthy |
| Breakers.HealthyCount | src/model/circuit-breaker.ts:36-58 | while healthy the count is the trailing run of failures and below the threshold |
| Breakers.OpensAtThreshold | src/model/circuit-breaker.ts:44-58 | a failure opens a healthy breaker exactly when it completes a run of threshold length |
| Breakers.ProbeDecides | src/model/circuit-breaker.ts:36-49 | from half open a failure makes it unhealthy with a new cooldown, the count as it was, and a success healthy with count zero |
| Breakers.HalfOpenExactly | src/model/circuit-breaker.ts:80-93 | on every history it is half open if and only if a live cooldown ended and no outcome has been recorded since |
| Breakers.OpenUntilCooldown | src/model/circuit-breaker.ts:44-93 | while unhealthy no outcome changes that, and only the end of a live cooldown makes it half open |
| Breakers.AvailableUnlessUnhealthy | src/model/circuit-breaker.ts:32-34 | it is offered to callers unless it is unhealthy |
| Breakers.ShutdownIsFinal | src/model/circuit-breaker.ts:61-66 | a breaker shut down while unhealthy never becomes available again |
| Breakers.CircuitBreaker.IsAvailable | src/model/circuit-breaker.ts:32-34 | healthy or half open |
| Breakers.CircuitBreaker.Succeeded | src/model/circuit-breaker.ts:36-42 | clears the count and heals a half open breaker, not an unhealthy one |
| Breakers.CircuitBreaker.Failed | src/model/circuit-breaker.ts:44-58 | reopens a half open breaker without counting, otherwise counts and opens at the threshold |
| Breakers.CircuitBreaker.CooldownFires | src/model/circuit-breaker.ts:80-86 | a live timer makes the breaker half open |
| Breakers.CircuitBreaker.Stop | src/model/circuit-breaker.ts:61-66 | stops the timer and leaves the state |
| Strategies.SortIsStable | src/model/strategies.ts:6-10 | priority and lowest cost return a permutation in rank order, with equal ranks in their old order and unpriced providers last |
| Strategies.StableSortIsUnique | src/model/strategies.ts:31-47 | no other result is sorted and stable, whatever sort the library uses |
| Strategies.LowestPriorityFirst | src/model/strategies.ts:6-10 | by priority the numbers never fall along the order |
| Strategies.CheapestFirst | src/model/strategies.ts:31-47 | by cost the sum of both rates never falls along the order, and no provider without rates stands before one with them |
| Strategies.RoundRobin.Next | src/model/strategies.ts:13-28 | rotates the providers to the counter and advances it |
| Strategies.RoundRobinIsFair | src/model/strategies.ts:13-28 | among as many calls in a row as there are providers exactly one starts with a given one |
| Routing.CompleteWithRetry | src/model/router.ts:276-295 | one to three calls, and success exactly when the last one answered |
| Routing.RetryTries | src/model/router.ts:276-295 | all calls but the last failed transiently, and a transient last one is the third |
| Routing.TriesInOrder | src/model/router.ts:207-254 | the tried providers are distinct and a prefix, no longer than the fallback limit, of the strategy's order of exactly the available ones: the sorted and stable one, or the rotation from the counter, which then moves on by one; all but the last failed, an answer ends the loop, and the result is that of the last |
| Routing.CompleteRoutes | src/model/router.ts:180-205 | an override is tried first if registered, is refused if not, and a failed one is followed by the routing of what is then available |
| Routing.OneRecordPerAttempt | src/model/router.ts:233-250 | every failed attempt is one recordFailure and an answer one recordSuccess at its own breaker, and there are no others |
| Routing.CallBound | src/model/router.ts:180-255 | at most three calls of each of the min(n, maxFallbackAttempts+1) providers and three more for an override |
| Routing.GivesUpAtLimit | src/model/router.ts:226-254 | the loop makes at most one attempt more than the fallbacks allowed, and gives up only when it has made so many or has tried every available provider |
| RouterRuns.EveryCallInOrder | src/model/router.ts:165-255 | however many calls run at once: each tries its override first and then the providers that were available when it took its order, each at most once, in the strategy's order and within the limit; all but the last failed, and the result is that of the last |
| RouterRuns.RecordsAreAllAttempts | src/model/router.ts:180-255 | then each breaker's records are the outcomes of all attempts of its provider in the order in which they ended, and nothing else; its count and its timer say what these records say |
| RouterRuns.EveryCallBounded | src/model/router.ts:276-295 | and no call has ever made more than three calls of each provider within its limit, and three more of an override |
| RouterRuns.OneBreakerTouched | src/model/circuit-breaker.ts:61-93 | a cooldown that ends or a shutdown changes its own breaker, and no other, no call and no record |
| RouterRuns.AloneIsComplete | src/model/router.ts:165-295 | a call that nothing disturbs has, reply by reply, the result and the effect of the one-step form that the router object is proved against |
| RouterObject.ModelRouter.constructor | src/model/router.ts:83-101 | a healthy breaker of its own for every provider |
| RouterObject.ModelRouter.TryInOrder | src/model/router.ts:230-254 | the fallback loop |
| RouterObject.ModelRouter.RouteRest | src/model/router.ts:207-254 | routing among the available providers |
| RouterObject.ModelRouter.Complete | src/model/router.ts:165-263 | the whole call, with every breaker and the last resolved provider as specified |
| Scheduling.DelaysFit | src/scheduler/cron-scheduler.ts:173-187 | every armed delay lies in [0, 2147483647] |
| Scheduling.ArmedOnTime | src/scheduler/cron-scheduler.ts:173-187 | an armed schedule comes due at its next time, or at once if that is past; one further away than a timer can hold is looked at in twelve hours, before its time has come |
| Scheduling.RecheckKeepsNext | src/scheduler/cron-scheduler.ts:190-203 | a recheck leaves the next time unchanged if and only if it comes before that time |
| ScheduleRuns.HandledOnceInOrder | src/scheduler/cron-scheduler.ts:206-271 | on every run in which no schedule of the flow is made during its tick while the scheduler is up, the times handled rise, so each is handled once and with its own idempotency key; at most one tick is pending, and none is early |
| ScheduleRuns.EveryMatchIsVisited | src/scheduler/cron-scheduler.ts:274-288 | while no recheck was late the ticks since a schedule was made are the matches of its expression, every one up to the last: fired, failed or skipped |
| ScheduleBreaks.OrderExactly | src/scheduler/cron-scheduler.ts:77-124 | after any such run, an event leaves the times handled rising whatever such events follow, if and only if it is no schedule of the flow with a next match made during its tick while the scheduler is up |
| ScheduleBreaks.MadeInTickBreaks | src/scheduler/cron-scheduler.ts:173-271 | a schedule made then always has a continuation in which its own tick, after a recheck if it is far away, ends before the old one and the times fall back |
| ScheduleBreaks.EndMovesExactly | src/scheduler/cron-scheduler.ts:273-288 | the end of a tick moves its schedule to the match after the one handled, and counts it as visited, if and only if the schedule still stands at that match |
| ScheduleBreaks.ReRegistrationSkips | src/scheduler/cron-scheduler.ts:273-288 | a schedule made again during its tick is moved past its first match when the tick ends, with two timers live |
| ScheduleBreaks.HandledTwice | src/scheduler/cron-scheduler.ts:206-288 | a run in which the two fire: the first match is skipped and the second is handled early and twice |
| SchedulerObject.CronScheduler.AddSchedule | src/scheduler/cron-scheduler.ts:77-133 | nothing if the expression never matches again, otherwise replaces the schedule and arms it |
| SchedulerObject.CronScheduler.RemoveSchedule | src/scheduler/cron-scheduler.ts:136-145 | clears the timer the entry knows of |
| SchedulerObject.CronScheduler.ArmTimer | src/scheduler/cron-scheduler.ts:173-187 | a tick when the delay fits, a recheck in twelve hours otherwise |
| SchedulerObject.CronScheduler.RecheckAndRearm | src/scheduler/cron-scheduler.ts:190-203 | computes the next time from now |
| SchedulerObject.CronScheduler.OnTick | src/scheduler/cron-scheduler.ts:206-228 | starts a tick for the next time of the entry |
| SchedulerObject.CronScheduler.FinishTick | src/scheduler/cron-scheduler.ts:229-271 | records what became of it and arms again |
| SchedulerObject.CronScheduler.CalculateNextAndRearm | src/scheduler/cron-scheduler.ts:274-288 | computes the next time from the one of the entry that is registered now |
| SchedulerObject.CronScheduler.ShutDownAll | src/scheduler/cron-scheduler.ts:163-170 | clears the known timers and the schedules |
| SchedulerObject.CronScheduler.Perform | src/scheduler/cron-scheduler.ts:53-288 | whatever happens next, the object takes the step of the specification the theorems are about |
| MemoryStores.CollideExactly | src/execution-context.ts:172-195 | two scopes have a composite key in common if and only if they are of one kind and one id is the other or goes on from it with a colon |
| MemoryStores.ColonFreeApart | src/memory/store.ts:13-15 | ids without a colon never collide |
| MemoryStores.FaithfulExactly | src/memory/store.ts:10-80 | on every run every scope reads exactly its own writes, if and only if no two scopes collide |
| MemoryStores.AfterRefines | src/memory/store.ts:10-80 | under every sequence of get, set, delete, list and deleteNamespace the flat store is the map from scope and key to entry |
| MemoryStores.ListedExactlyWhenRead | src/memory/store.ts:41-64 | a key is listed exactly when reading it gives an entry |
| MemoryStores.ScopesDoNotInterfere | src/memory/store.ts:66-79 | no operation on one scope changes what another reads |
| MemoryLifetimes.ReadsWhatLives | src/memory/store.ts:17-64 | on every run of scopes that do not collide, a read gives the entry written last, if no deletion followed and it has no end or one to come, and nothing otherwise; a listing has the key exactly then |
| MemoryLifetimes.LivesItsLifetime | src/memory/scoped.ts:66-71 | what is set with a positive lifetime is read until it is over and never from then on, whatever else is done in other scopes and read in its own |
| MemoryStores.InMemoryStore.Read | src/memory/store.ts:17-29 | the entry unless it has expired, in which case it is deleted |
| MemoryStores.InMemoryStore.Write | src/memory/store.ts:31-34 | stores under the composite key |
| MemoryStores.InMemoryStore.Remove | src/memory/store.ts:36-39 | deletes the composite key |
| MemoryStores.InMemoryStore.ListKeys | src/memory/store.ts:41-64 | the live keys of the namespace, deleting its expired entries and no others |
| MemoryStores.InMemoryStore.RemoveNamespace | src/memory/store.ts:66-79 | deletes exactly the entries of the namespace |
| MemoryStores.SetScoped | src/memory/scoped.ts:38-91 | refuses an empty key, stores nothing for a negative lifetime, and never expires for none or zero |
| StateRows.RoundTrip | src/sqlite-state-store.ts:202-284 | reading a row back gives the execution it was written from, transitions and wait context included |
| StateStores.StoresAgree | src/state-store.ts:37-90 | after every run in which no two stored executions share an idempotency key, lookup by key is a scan, and the table gives the same executions by id, by key and listed |
| StateStores.AgreeExactly | src/state-store.ts:49-52 | storing keeps the two stores in agreement if and only if no other stored execution has the key and the execution keeps its own |
| StateStores.AgreeRunExactly | src/state-store.ts:37-90 | they agree after every part of a run if and only if every store of the run is of that kind |
| StateStores.EvictInStep | src/state-store.ts:76-90 | eviction keeps the index in step and drops exactly what expired |
| StateLifetimes.ReadsWhatIsRetained | src/state-store.ts:37-90 | on every run in which no two stored executions share a key, each store gives exactly what was stored last under an id, if no deletion followed and it has not ended longer ago than the retention period |
| StateLifetimes.ListsExactly | src/state-store.ts:54-66 | a listing of either store has exactly those of them that are in the state and of the flow asked for; an empty flow name asks for any |
| StateStores.TableEvictRefines | src/sqlite-state-store.ts:293-297 | the eviction statement drops the same executions |
| StateStores.LookupIsScan | src/state-store.ts:42-47 | the index finds what a scan finds |
| StateStores.SharedKeyIsForgotten | src/state-store.ts:68-74 | two executions of one key and the later one deleted: the index has forgotten the earlier |
| StateStoreObjects.InMemoryStateStore.EvictExpired | src/state-store.ts:76-90 | the loop deletes every expired execution and its key |
| StateStoreObjects.InMemoryStateStore.Get | src/state-store.ts:37-40 | the stored execution after the eviction |
| StateStoreObjects.InMemoryStateStore.GetByIdempotencyKey | src/state-store.ts:42-47 | the execution the index leads to after the eviction |
| StateStoreObjects.InMemoryStateStore.Put | src/state-store.ts:49-52 | stores and indexes |
| StateStoreObjects.InMemoryStateStore.Remove | src/state-store.ts:68-74 | deletes an execution and its key |
| StateStoreObjects.InMemoryStateStore.List | src/state-store.ts:54-66 | the executions that pass the filter |
| StateStoreObjects.SQLiteStateStore.EvictExpired | src/sqlite-state-store.ts:293-297 | deletes the terminal rows that completed before the cutoff |
| StateStoreObjects.SQLiteStateStore.Get | src/sqlite-state-store.ts:300-305 | the row read back after the eviction |
| StateStoreObjects.SQLiteStateStore.GetByIdempotencyKey | src/sqlite-state-store.ts:308-313 | a row with the key read back, or none if there is none |
| StateStoreObjects.SQLiteStateStore.Put | src/sqlite-state-store.ts:316-322 | replaces the rows with the same id or key |
| StateStoreObjects.SQLiteStateStore.Remove | src/sqlite-state-store.ts:344-347 | deletes the row |
| StateStoreObjects.SQLiteStateStore.List | src/sqlite-state-store.ts:325-341 | the rows that pass the filter |
| StateStoreObjects.RowFilter | src/sqlite-state-store.ts:325-341 | filtering rows by their columns selects the executions the filter selects |

## Left out

- Telemetry, events other than `execution:complete`, results, error texts and user data: they steer nothing here.
- Shutdown and draining of the engine, replay, `deleteExecution`, retention eviction inside the engine, and failures of the state store during a run.
- The input check before the first handler call is one wait with the call itself, and the first lookup of `resume` with its policy check happens before the modelled step, which is its second lookup.
- The lookup of a trigger and its read of the flow registry are one step; the policy check after it is a wait.
- The engine keeps one row per execution id: the record and the entries of its maps under that id. An id drawn by a trigger is assumed new, as random ids are.
- Run to completion (`EngineCoarse`, `EngineFifo`) takes the wait for an output check as a continuation that runs on its own, as it does when no check is configured; the fine-grained theorems do not.
- Backoff delays, jitter and the due times of engine timers: a live timer may fire at any time.
- The whitespace that makes an idempotency key blank is space, tab, newline and return.
- One reading of the clock for each call of the limiter and each check of a budget.
- The bound on admissions leaves out runs that remove a rate limit or clear the limiter, which let everyone go or forget the logs.
- Which warnings of a budget check are emitted: a refusal drops them and a stream emits none. The model keeps when they are raised.
- Hourly and monthly budget windows, which depend on the calendar of the runtime.
- Floating point: costs and budgets are exact reals, and the limiter compares ratios of count to limit by their cross products.
- A router that throws before a stream has begun, and the parts of `ModelRouter.stream`; custom strategy functions; telemetry spans and request normalisation of `complete`. The router object takes a call of `complete` as one step; calls that overlap are steps of `RouterRuns`, which streams, that record at the same breakers, are not.
- The rules of cron expressions and time zones: the next match is an input, assumed to be the least one after the given time. The two waits of a tick are one, and the fields that only report the last tick are left out.
- The text form of JSON: reading is assumed to undo writing. The order in which listings return, migration, closing and orphan recovery of the SQLite store. Accumulators, schedules and stored executions are values in a map, where the source keeps references to records it changes in place.
- HTTP server, dashboard, command line, provider and tool adapters, agent loop, rule evaluation, access control, guardrails, flags, scoring and discernment.
