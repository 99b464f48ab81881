/** The engine as a transition system. Each function below is one segment of an engine method:
    the code that runs between two awaits. The rest of the method waits as a `Task`. */
module EngineSteps {
  import opened Wrappers
  import opened Executions

  type Id = string
  type Handle = nat

  datatype Flow = Flow(name: string, timeout: int, maxRetries: int, waitTimeout: int)

  datatype Options = Options(timeout: Option<int>, waitTimeout: Option<int>)

  /** Which method awaits the handler: `runExecution`, the retry timer or `runResumedHandler`. */
  datatype Kind = Initial | Retry | Resumed

  /** Something the event loop may run later for one execution. */
  datatype Task =
    | TriggerStored(flow: Flow)
    | RunStored(flow: Flow, timeout: Option<int>)
    | HandlerPending(flow: Flow, kind: Kind)
    | OutputGuard(flow: Flow, kind: Kind)
    | CompleteStored(kind: Kind)
    | RetryStored(flow: Flow)
    | RetryTimer(flow: Flow)
    | RetryRunStored(flow: Flow)
    | WaitStored(flow: Flow, kind: Kind)
    | ResumeStored
    | TimeoutTimer
    | WaitTimer

  /** How an awaited handler or policy check settles. */
  datatype Outcome = Returned | WaitSignal | ThrewRetryable | ThrewFatal

  /** All the engine knows of one execution. The first seven fields are the stored record and the
      entries of the engine's maps under its id; `live` and `next` are its part of the event loop.
      The rest is history: `started` is the flow its first run captured, `runner` the last task that
      carries it forward, `completions` counts its `execution:complete` events, the leaks are slots
      never given back. */
  datatype Cell = Cell(
    record: Record,
    options: Options,
    retryTimer: Option<Handle>,
    timeoutTimer: Option<Handle>,
    waitTimer: Option<Handle>,
    remaining: Option<int>,
    handler: Option<Flow>,
    live: map<Handle, Task>,
    next: Handle,
    started: Option<Flow>,
    runner: Option<Handle>,
    completions: nat,
    leakedDispatch: nat,
    leakedResume: nat)

  /** A segment's outcome: the execution afterwards, the change of `activeExecutions`,
      and whether the segment ends by calling `dispatchQueued`. */
  datatype Effect = Effect(cell: Cell, slots: int, redispatch: bool)

  // ---- Small updates ----

  function NewCell(record: Record, options: Options): Cell {
    Cell(record, options, None, None, None, None, None, map[], 0, None, None, 0, 0, 0)
  }

  function Add(c: Cell, task: Task): Cell {
    c.(live := c.live[c.next := task], next := c.next + 1)
  }

  /** Adds a task, which carries the execution forward from now on. */
  function Drive(c: Cell, task: Task): Cell {
    Add(c, task).(runner := Some(c.next))
  }

  /** `transitionAndEmit`; callers have checked the table. */
  function Move(c: Cell, to: ExecutionState, now: int): Cell {
    c.(record := Transitioned(c.record, to, now))
  }

  function Handles(timer: Option<Handle>): set<Handle> {
    if timer.Some? then {timer.value} else {}
  }

  function ClearTimers(c: Cell): Cell {
    c.(live := c.live - (Handles(c.retryTimer) + Handles(c.timeoutTimer) + Handles(c.waitTimer)),
       retryTimer := None, timeoutTimer := None, waitTimer := None,
       handler := None, remaining := None)
  }

  /** `failExecution` */
  function Fail(c: Cell, now: int): Cell {
    if Terminal(c.record.state) then c
    else Move(c, Failed, now).(completions := c.completions + 1)
  }

  /** `onExecutionTerminal` */
  function Ended(c: Cell): Effect {
    Effect(c.(handler := None, remaining := None), -1, true)
  }

  /** `dispatch` with the first segment of `runExecution`; `room` says a slot is free. */
  function Start(c: Cell, flow: Flow, timeout: Option<int>, room: bool, now: int): Effect {
    if c.record.state != Queued || !room then Effect(c, 0, false)
    else Effect(Drive(Move(c.(started := Some(flow)), Running, now), RunStored(flow, timeout)), 1, false)
  }

  // ---- Cancel and resume ----

  /** Running or retrying on a slot it has counted. A resumed execution counts its slot one step later. */
  predicate HoldsSlot(c: Cell) {
    || c.record.state == Retrying
    || (c.record.state == Running
        && !(c.runner.Some? && c.runner.value in c.live && c.live[c.runner.value].ResumeStored?))
  }

  function CountLeak(c: Cell, waited: bool): Cell {
    if waited then c.(leakedResume := c.leakedResume + 1) else c.(leakedDispatch := c.leakedDispatch + 1)
  }

  function Cancel(c: Cell, now: int): Cell {
    if Terminal(c.record.state) then c
    else
      var cancelled := Fail(ClearTimers(c), now);
      if HoldsSlot(c) then CountLeak(cancelled, HasWaited(c.record)) else cancelled
  }

  /** `resume` from its second read of the store up to its await. */
  function Resume(c: Cell, now: int): Cell {
    if c.record.state != Waiting then c
    else
      Drive(Move(c.(live := c.live - Handles(c.waitTimer), waitTimer := None), Running, now), ResumeStored)
  }

  // ---- The continuations ----

  function AddTimeout(c: Cell, on: bool): Cell {
    if on then Add(c, TimeoutTimer).(timeoutTimer := Some(c.next)) else c
  }

  function RunRunStored(c: Cell, flow: Flow, override: Option<int>): Cell {
    Drive(AddTimeout(c, override.GetOr(flow.timeout) > 0), HandlerPending(flow, Initial))
  }

  /** The common tail of the three handler paths once the result is accepted. When the execution
      has left `running` meanwhile the transition throws and the catch block returns. */
  function Completing(c: Cell, kind: Kind, now: int): Cell {
    if c.record.state != Running then ClearTimers(c)
    else Drive(Move(ClearTimers(c), Complete, now), CompleteStored(kind))
  }

  function FailAndFree(c: Cell, now: int): Effect {
    Ended(Fail(ClearTimers(c), now).(runner := None))
  }

  function ScheduleRetry(c: Cell, flow: Flow, now: int): Cell {
    var moved := Transitioned(c.record, Retrying, now);
    Drive(c.(record := moved.(retryCount := c.record.retryCount + 1)), RetryStored(flow))
  }

  /** `handleExecutionError` */
  function HandleError(c: Cell, flow: Flow, retryable: bool, now: int): Effect {
    if retryable && c.record.retryCount < flow.maxRetries
    then Effect(ScheduleRetry(c, flow, now), 0, false)
    else FailAndFree(c, now)
  }

  /** The catch blocks: after a resume an error always fails the execution. */
  function OnError(c: Cell, flow: Flow, kind: Kind, retryable: bool, now: int): Effect {
    if kind == Resumed then FailAndFree(c, now) else HandleError(c, flow, retryable, now)
  }

  /** `enterWaitingState` up to its first await. The time a run has left counts from its trigger. */
  function EnterWaiting(c: Cell, flow: Flow, kind: Kind, now: int): Cell {
    var total := c.options.timeout.GetOr(flow.timeout);
    var parked := c.(
      live := c.live - Handles(c.timeoutTimer),
      timeoutTimer := None,
      remaining := if c.timeoutTimer.Some? && total > 0 then Some(total - (now - c.record.queuedAt))
                   else c.remaining,
      handler := Some(flow),
      runner := None);
    Add(Move(parked, Waiting, now), WaitStored(flow, kind))
  }

  function RunHandler(c: Cell, flow: Flow, kind: Kind, outcome: Outcome, now: int): Effect {
    if c.record.state != Running then Effect(c, 0, false)
    else match outcome
      case WaitSignal => Effect(EnterWaiting(c, flow, kind, now), 0, false)
      case Returned =>
        Effect(if kind == Retry then Completing(c, kind, now) else Drive(c, OutputGuard(flow, kind)), 0, false)
      case ThrewRetryable => OnError(c, flow, kind, true, now)
      case ThrewFatal => OnError(c, flow, kind, false, now)
  }

  function RunOutputGuard(c: Cell, flow: Flow, kind: Kind, outcome: Outcome, now: int): Effect {
    if outcome == Returned || outcome == WaitSignal then Effect(Completing(c, kind, now), 0, false)
    else if c.record.state != Running then Effect(c, 0, false)
    else OnError(c, flow, kind, outcome == ThrewRetryable, now)
  }

  function RunCompleteStored(c: Cell): Effect {
    Ended(c.(completions := c.completions + 1, runner := None))
  }

  function RunRetryStored(c: Cell, flow: Flow): Cell {
    Drive(c, RetryTimer(flow)).(retryTimer := Some(c.next))
  }

  function RunRetryTimer(c: Cell, flow: Flow, now: int): Cell {
    if c.record.state != Retrying then c.(retryTimer := None)
    else Drive(Move(c.(retryTimer := None), Running, now), RetryRunStored(flow))
  }

  /** `enterWaitingState` after its first await. */
  function RunWaitStored(c: Cell, flow: Flow): Effect {
    var timed :=
      if c.options.waitTimeout.GetOr(flow.waitTimeout) > 0
      then Add(c, WaitTimer).(waitTimer := Some(c.next))
      else c;
    Effect(timed, -1, true)
  }

  /** The end of `resume`: the execution timeout gets the time that was left, then the handler runs again. */
  function Reenter(c: Cell, flow: Flow): Cell {
    var timed := AddTimeout(c.(handler := Some(flow)), c.remaining.Some?);
    Drive(timed.(remaining := None), HandlerPending(flow, Resumed))
  }

  /** `resume` after its await; `registered` is the registry's flow of that name. */
  function RunResumeStored(c: Cell, registered: Option<Flow>, now: int): Effect {
    if c.handler.None? && registered.None? then
      Effect(Fail(c, now).(runner := None), 0, false)
    else if c.remaining.Some? && c.remaining.value <= 0 then
      Effect(Ended(Fail(c, now).(runner := None)).cell, 0, true)
    else
      var resumed := Reenter(c, if c.handler.Some? then c.handler.value else registered.value);
      Effect(if Terminal(c.record.state) then CountLeak(resumed, true) else resumed, 1, false)
  }

  function RunTimeoutTimer(c: Cell, now: int): Effect {
    if Terminal(c.record.state) then Effect(c, 0, false)
    else Ended(Fail(ClearTimers(c), now))
  }

  function RunWaitTimer(c: Cell, now: int): Cell {
    if c.record.state != Waiting then c else Fail(ClearTimers(c), now)
  }

  function RunTask(c: Cell, task: Task, outcome: Outcome, room: bool, registered: Option<Flow>, now: int): Effect {
    match task
    case TriggerStored(flow) => Start(c, flow, c.options.timeout, room, now)
    case RunStored(flow, timeout) => Effect(RunRunStored(c, flow, timeout), 0, false)
    case HandlerPending(flow, kind) => RunHandler(c, flow, kind, outcome, now)
    case OutputGuard(flow, kind) => RunOutputGuard(c, flow, kind, outcome, now)
    case CompleteStored(kind) => RunCompleteStored(c)
    case RetryStored(flow) => Effect(RunRetryStored(c, flow), 0, false)
    case RetryTimer(flow) => Effect(RunRetryTimer(c, flow, now), 0, false)
    case RetryRunStored(flow) => Effect(Drive(c, HandlerPending(flow, Retry)), 0, false)
    case WaitStored(flow, kind) => RunWaitStored(c, flow)
    case ResumeStored => RunResumeStored(c, registered, now)
    case TimeoutTimer => RunTimeoutTimer(c, now)
    case WaitTimer => Effect(RunWaitTimer(c, now), 0, false)
  }

  /** Takes the pending task `h` off the event loop and runs it. */
  function RunLive(c: Cell, h: Handle, outcome: Outcome, room: bool, registered: Option<Flow>, now: int): Effect
    requires h in c.live
  {
    RunTask(c.(live := c.live - {h}), c.live[h], outcome, room, registered, now)
  }

  // ---- The engine ----

  /** Continuations that belong to no stored execution yet, or only look one up. */
  datatype LoopTask =
    | TriggerChecked(flow: Flow, key: string, options: Options)
    | DispatchSnapshot(id: Id)

  datatype State = State(
    concurrency: int,
    active: int,
    flows: map<string, Flow>,
    cells: map<Id, Cell>,
    order: seq<Id>,
    index: map<string, Id>,
    clock: int,
    loop: map<Handle, LoopTask>,
    loopNext: Handle)

  function Init(concurrency: int): State {
    State(concurrency, 0, map[], map[], [], map[], 0, map[], 0)
  }

  function Enqueue(s: State, task: LoopTask): State {
    s.(loop := s.loop[s.loopNext := task], loopNext := s.loopNext + 1)
  }

  function QueuedIds(cells: map<Id, Cell>, ids: seq<Id>): (queued: seq<Id>)
    ensures forall id :: id in queued <==> id in ids && id in cells && cells[id].record.state == Queued
  {
    if ids == [] then []
    else if ids[0] in cells && cells[ids[0]].record.state == Queued then [ids[0]] + QueuedIds(cells, ids[1..])
    else QueuedIds(cells, ids[1..])
  }

  /** The head of a stable sort by queued time. */
  function Oldest(cells: map<Id, Cell>, ids: seq<Id>): (id: Id)
    requires ids != [] && forall id :: id in ids ==> id in cells
    ensures id in ids
    ensures forall other :: other in ids ==> cells[id].record.queuedAt <= cells[other].record.queuedAt
  {
    if |ids| == 1 then ids[0]
    else
      var rest := Oldest(cells, ids[1..]);
      if cells[rest].record.queuedAt < cells[ids[0]].record.queuedAt then rest else ids[0]
  }

  /** `dispatchQueued` up to its await: it remembers the oldest queued execution it saw. */
  function DispatchQueued(s: State): State {
    var queued := QueuedIds(s.cells, s.order);
    if s.active >= s.concurrency || queued == [] then s
    else Enqueue(s, DispatchSnapshot(Oldest(s.cells, queued)))
  }

  function Update(s: State, id: Id, e: Effect): State {
    var updated := s.(cells := s.cells[id := e.cell], active := s.active + e.slots);
    if e.redispatch then DispatchQueued(updated) else updated
  }

  predicate Blank(key: string) {
    forall c :: c in key ==> c in " \t\n\r"
  }

  /** `trigger` up to the policy check. */
  function Trigger(s: State, flowName: string, key: string, options: Options): State {
    if Blank(key) || key in s.index || flowName !in s.flows then s
    else Enqueue(s, TriggerChecked(s.flows[flowName], key, options))
  }

  /** `trigger` after the policy check: it creates and stores the execution. */
  function Store(s: State, id: Id, flow: Flow, key: string, options: Options): State {
    var cell := Add(NewCell(NewRecord(flow.name, key, s.clock), options), TriggerStored(flow));
    s.(cells := s.cells[id := cell], order := s.order + [id], index := s.index[key := id])
  }

  function Registered(s: State, name: string): Option<Flow> {
    if name in s.flows then Some(s.flows[name]) else None
  }

  /** `dispatchQueued` after its await: the flow is looked up now, and no timeout override is passed. */
  function RunSnapshot(s: State, id: Id): State {
    if id !in s.cells || s.cells[id].record.flowName !in s.flows then s
    else Update(s, id, Start(s.cells[id], s.flows[s.cells[id].record.flowName], None,
                             s.active < s.concurrency, s.clock))
  }

  /** `newId` is the random id a trigger draws; it never repeats. */
  datatype Event =
    | Register(flow: Flow)
    | Unregister(name: string)
    | TriggerCall(flowName: string, key: string, options: Options)
    | CancelCall(id: Id)
    | ResumeCall(id: Id)
    | RunLoop(loopHandle: Handle, passed: bool, newId: Id)
    | Run(id: Id, handle: Handle, outcome: Outcome)

  /** An event and the time that passed before it. */
  datatype Step = Step(elapsed: nat, event: Event)

  function RunLoopTask(s: State, task: LoopTask, passed: bool, newId: Id): State {
    match task
    case TriggerChecked(flow, key, options) =>
      if passed && newId !in s.cells then Store(s, newId, flow, key, options) else s
    case DispatchSnapshot(id) => RunSnapshot(s, id)
  }

  function Apply(s: State, e: Event): State {
    match e
    case Register(flow) => if flow.name in s.flows then s else s.(flows := s.flows[flow.name := flow])
    case Unregister(name) => s.(flows := s.flows - {name})
    case TriggerCall(flowName, key, options) => Trigger(s, flowName, key, options)
    case CancelCall(id) =>
      if id !in s.cells then s else Update(s, id, Effect(Cancel(s.cells[id], s.clock), 0, false))
    case ResumeCall(id) =>
      if id !in s.cells then s else Update(s, id, Effect(Resume(s.cells[id], s.clock), 0, false))
    case RunLoop(h, passed, newId) =>
      if h !in s.loop then s else RunLoopTask(s.(loop := s.loop - {h}), s.loop[h], passed, newId)
    case Run(id, h, outcome) =>
      if id !in s.cells || h !in s.cells[id].live then s
      else Update(s, id, RunLive(s.cells[id], h, outcome, s.active < s.concurrency,
                                 Registered(s, s.cells[id].record.flowName), s.clock))
  }

  function Advance(s: State, step: Step): State {
    Apply(s.(clock := s.clock + step.elapsed), step.event)
  }

  /** The state after a run: any interleaving of calls, timers and continuations. */
  function After(concurrency: int, steps: seq<Step>): State {
    if steps == [] then Init(concurrency)
    else Advance(After(concurrency, steps[..|steps| - 1]), steps[|steps| - 1])
  }
}
