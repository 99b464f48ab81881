/** The engine as the source has it: objects whose methods update the counter, the timers and the
    shared execution step by step. Each method is proved to have the effect of the transition-system
    function it corresponds to, so every theorem about runs is about this code. */
module EngineObject {
  import opened Wrappers
  import opened Executions
  import Steps = EngineSteps
  import opened EngineSteps

  /** The engine's maps, row by row: everything it keeps under one execution id. */
  class Entry {
    const execution: Execution
    const options: Options
    var retryTimer: Option<Handle>
    var timeoutTimer: Option<Handle>
    var waitTimer: Option<Handle>
    var remaining: Option<int>
    var handler: Option<Flow>
    var live: map<Handle, Task>
    var next: Handle
    ghost var started: Option<Flow>
    ghost var runner: Option<Handle>
    ghost var completions: nat
    ghost var leakedDispatch: nat
    ghost var leakedResume: nat

    ghost function View(): Cell
      reads this, execution
    {
      Cell(execution.View(), options, retryTimer, timeoutTimer, waitTimer, remaining, handler, live, next,
           started, runner, completions, leakedDispatch, leakedResume)
    }

    constructor (execution: Execution, options: Options)
      ensures this.execution == execution
      ensures View() == NewCell(execution.View(), options)
    {
      this.execution, this.options := execution, options;
      retryTimer, timeoutTimer, waitTimer, remaining, handler := None, None, None, None, None;
      live, next, started, runner := map[], 0, None, None;
      completions, leakedDispatch, leakedResume := 0, 0, 0;
    }

    // ---- Timers and continuations ----

    method Later(task: Task) returns (handle: Handle)
      modifies this
      ensures View() == Add(old(View()), task) && handle == old(next)
    {
      handle := next;
      live := live[next := task];
      next := next + 1;
    }

    method LaterDriving(task: Task) returns (handle: Handle)
      modifies this
      ensures View() == Drive(old(View()), task) && handle == old(next)
    {
      handle := Later(task);
      runner := Some(handle);
    }

    method Take(h: Handle) returns (task: Task)
      requires h in live
      modifies this
      ensures task == old(View()).live[h] && View() == old(View()).(live := old(View()).live - {h})
      ensures execution.View() == old(execution.View())
    {
      task := live[h];
      live := live - {h};
    }

    method ClearTimeout(handle: Handle)
      modifies this`live
      ensures live == old(live) - {handle}
    {
      live := live - {handle};
    }

    method ClearTimers()
      modifies this
      ensures View() == Steps.ClearTimers(old(View()))
    {
      if retryTimer.Some? {
        ClearTimeout(retryTimer.value);
        retryTimer := None;
      }
      if timeoutTimer.Some? {
        ClearTimeout(timeoutTimer.value);
        timeoutTimer := None;
      }
      if waitTimer.Some? {
        ClearTimeout(waitTimer.value);
        waitTimer := None;
      }
      assert live == old(live) - (Handles(old(retryTimer)) + Handles(old(timeoutTimer)) + Handles(old(waitTimer)));
      handler := None;
      remaining := None;
    }

    method TransitionAndEmit(to: ExecutionState, now: int) returns (ok: bool)
      modifies this, execution
      ensures ok <==> Allowed(old(View()).record.state, to)
      ensures View() == if ok then Move(old(View()), to, now) else old(View())
    {
      ok := execution.TransitionTo(to, now);
    }

    method FailExecution(now: int)
      modifies this, execution
      ensures View() == Fail(old(View()), now)
    {
      if execution.state == Complete || execution.state == Failed {
        return;
      }
      var ok := TransitionAndEmit(Failed, now);
      completions := completions + 1;
    }

    // ---- Calls ----

    method Start(flow: Flow, timeout: Option<int>, room: bool, now: int) returns (slots: int)
      modifies this, execution
      ensures Effect(View(), slots, false) == Steps.Start(old(View()), flow, timeout, room, now)
    {
      if execution.state != Queued || !room {
        return 0;
      }
      started := Some(flow);
      var ok := TransitionAndEmit(Running, now);
      var handle := LaterDriving(RunStored(flow, timeout));
      return 1;
    }

    method Cancel(now: int)
      modifies this, execution
      ensures View() == Steps.Cancel(old(View()), now)
    {
      if execution.state == Complete || execution.state == Failed {
        return;
      }
      ghost var holds, waited := HoldsSlot(View()), HasWaited(View().record);
      ClearTimers();
      FailExecution(now);
      if holds {
        if waited {
          leakedResume := leakedResume + 1;
        } else {
          leakedDispatch := leakedDispatch + 1;
        }
      }
    }

    method Resume(now: int)
      modifies this, execution
      ensures View() == Steps.Resume(old(View()), now)
    {
      if execution.state != Waiting {
        return;
      }
      if waitTimer.Some? {
        ClearTimeout(waitTimer.value);
        waitTimer := None;
      }
      var ok := TransitionAndEmit(Running, now);
      var handle := LaterDriving(ResumeStored);
    }

    // ---- Continuations ----

    method SetTimeoutTimer(on: bool)
      modifies this
      ensures View() == AddTimeout(old(View()), on)
    {
      if on {
        var handle := Later(TimeoutTimer);
        timeoutTimer := Some(handle);
      }
    }

    method AfterRunStored(flow: Flow, override: Option<int>)
      modifies this
      ensures View() == RunRunStored(old(View()), flow, override)
    {
      SetTimeoutTimer(override.GetOr(flow.timeout) > 0);
      var handle := LaterDriving(HandlerPending(flow, Initial));
    }

    method Completing(kind: Kind, now: int)
      modifies this, execution
      ensures View() == Steps.Completing(old(View()), kind, now)
    {
      ClearTimers();
      var ok := TransitionAndEmit(Complete, now);
      if ok {
        var handle := LaterDriving(CompleteStored(kind));
      }
    }

    /** `onExecutionTerminal` for this execution; the caller adjusts the counter and dispatches. */
    method Ended() returns (slots: int, redispatch: bool)
      modifies this
      ensures Effect(View(), slots, redispatch) == Steps.Ended(old(View()))
    {
      handler := None;
      remaining := None;
      return -1, true;
    }

    method FailAndFree(now: int) returns (slots: int, redispatch: bool)
      modifies this, execution
      ensures Effect(View(), slots, redispatch) == Steps.FailAndFree(old(View()), now)
    {
      ClearTimers();
      FailExecution(now);
      runner := None;
      slots, redispatch := Ended();
    }

    method HandleError(flow: Flow, retryable: bool, now: int) returns (slots: int, redispatch: bool)
      requires execution.state == Running
      modifies this, execution
      ensures Effect(View(), slots, redispatch) == Steps.HandleError(old(View()), flow, retryable, now)
    {
      if retryable && execution.retryCount < flow.maxRetries {
        var ok := TransitionAndEmit(Retrying, now);
        execution.retryCount := execution.retryCount + 1;
        var handle := LaterDriving(RetryStored(flow));
        return 0, false;
      }
      slots, redispatch := FailAndFree(now);
    }

    method OnError(flow: Flow, kind: Kind, retryable: bool, now: int) returns (slots: int, redispatch: bool)
      requires execution.state == Running
      modifies this, execution
      ensures Effect(View(), slots, redispatch) == Steps.OnError(old(View()), flow, kind, retryable, now)
    {
      if kind == Resumed {
        slots, redispatch := FailAndFree(now);
      } else {
        slots, redispatch := HandleError(flow, retryable, now);
      }
    }

    method ParkTimeout(flow: Flow, now: int)
      modifies this
      ensures View() == old(View()).(
                live := old(live) - Handles(old(timeoutTimer)), timeoutTimer := None,
                remaining := if old(timeoutTimer).Some? && options.timeout.GetOr(flow.timeout) > 0
                             then Some(options.timeout.GetOr(flow.timeout) - (now - execution.queuedAt))
                             else old(remaining))
    {
      if timeoutTimer.Some? {
        ClearTimeout(timeoutTimer.value);
        timeoutTimer := None;
        var total := options.timeout.GetOr(flow.timeout);
        if total > 0 {
          remaining := Some(total - (now - execution.queuedAt));
        }
      }
    }

    method EnterWaiting(flow: Flow, kind: Kind, now: int)
      requires execution.state == Running
      modifies this, execution
      ensures View() == Steps.EnterWaiting(old(View()), flow, kind, now)
    {
      ParkTimeout(flow, now);
      handler := Some(flow);
      runner := None;
      var ok := TransitionAndEmit(Waiting, now);
      var handle := Later(WaitStored(flow, kind));
    }

    method HandlerSettled(flow: Flow, kind: Kind, outcome: Outcome, now: int) returns (slots: int, redispatch: bool)
      modifies this, execution
      ensures Effect(View(), slots, redispatch) == RunHandler(old(View()), flow, kind, outcome, now)
    {
      slots, redispatch := 0, false;
      if execution.state != Running {
        return;
      }
      if outcome == WaitSignal {
        EnterWaiting(flow, kind, now);
      } else if outcome == Returned {
        if kind == Retry {
          Completing(kind, now);
        } else {
          var handle := LaterDriving(OutputGuard(flow, kind));
        }
      } else {
        slots, redispatch := OnError(flow, kind, outcome == ThrewRetryable, now);
      }
    }

    method GuardSettled(flow: Flow, kind: Kind, outcome: Outcome, now: int) returns (slots: int, redispatch: bool)
      modifies this, execution
      ensures Effect(View(), slots, redispatch) == RunOutputGuard(old(View()), flow, kind, outcome, now)
    {
      slots, redispatch := 0, false;
      if outcome == Returned || outcome == WaitSignal {
        Completing(kind, now);
      } else if execution.state == Running {
        slots, redispatch := OnError(flow, kind, outcome == ThrewRetryable, now);
      }
    }

    method AfterCompleteStored() returns (slots: int, redispatch: bool)
      modifies this
      ensures Effect(View(), slots, redispatch) == RunCompleteStored(old(View()))
    {
      completions := completions + 1;
      runner := None;
      slots, redispatch := Ended();
    }

    method AfterRetryStored(flow: Flow)
      modifies this
      ensures View() == RunRetryStored(old(View()), flow)
    {
      var handle := LaterDriving(RetryTimer(flow));
      retryTimer := Some(handle);
    }

    method RetryTimerFires(flow: Flow, now: int)
      modifies this, execution
      ensures View() == RunRetryTimer(old(View()), flow, now)
    {
      retryTimer := None;
      if execution.state != Retrying {
        return;
      }
      var ok := TransitionAndEmit(Running, now);
      var handle := LaterDriving(RetryRunStored(flow));
    }

    method AfterWaitStored(flow: Flow) returns (slots: int, redispatch: bool)
      modifies this
      ensures Effect(View(), slots, redispatch) == RunWaitStored(old(View()), flow)
    {
      if options.waitTimeout.GetOr(flow.waitTimeout) > 0 {
        var handle := Later(WaitTimer);
        waitTimer := Some(handle);
      }
      return -1, true;
    }

    method Reenter(flow: Flow)
      modifies this
      ensures View() == Steps.Reenter(old(View()), flow)
    {
      handler := Some(flow);
      SetTimeoutTimer(remaining.Some?);
      remaining := None;
      var handle := LaterDriving(HandlerPending(flow, Resumed));
    }

    method AfterResumeStored(registered: Option<Flow>, now: int) returns (slots: int, redispatch: bool)
      modifies this, execution
      ensures Effect(View(), slots, redispatch) == RunResumeStored(old(View()), registered, now)
    {
      var taken := 1;
      if handler.None? {
        if registered.None? {
          FailExecution(now);
          runner := None;
          return taken - 1, false;
        }
        handler := registered;
      }
      if remaining.Some? && remaining.value <= 0 {
        FailExecution(now);
        runner := None;
        var freed;
        freed, redispatch := Ended();
        return taken + freed, redispatch;
      }
      ghost var ended := Terminal(execution.state);
      Reenter(handler.value);
      if ended {
        leakedResume := leakedResume + 1;
      }
      return taken, false;
    }

    method TimeoutFires(now: int) returns (slots: int, redispatch: bool)
      modifies this, execution
      ensures Effect(View(), slots, redispatch) == RunTimeoutTimer(old(View()), now)
    {
      if execution.state == Complete || execution.state == Failed {
        return 0, false;
      }
      ClearTimers();
      FailExecution(now);
      slots, redispatch := Ended();
    }

    method WaitTimeoutFires(now: int)
      modifies this, execution
      ensures View() == RunWaitTimer(old(View()), now)
    {
      if execution.state != Waiting {
        return;
      }
      ClearTimers();
      FailExecution(now);
    }

    /** Takes a pending timer or continuation off the event loop and runs it. */
    method RunLive(h: Handle, outcome: Outcome, room: bool, registered: Option<Flow>, now: int)
      returns (slots: int, redispatch: bool)
      requires h in live
      modifies this, execution
      ensures Effect(View(), slots, redispatch) == Steps.RunLive(old(View()), h, outcome, room, registered, now)
    {
      hide Steps.Start, RunRunStored, RunHandler, RunOutputGuard, RunCompleteStored, RunRetryStored, RunRetryTimer;
      hide RunWaitStored, RunResumeStored, RunTimeoutTimer, RunWaitTimer, Drive;
      var task := Take(h);
      slots, redispatch := 0, false;
      hide View;
      match task
      case TriggerStored(flow) => slots := Start(flow, options.timeout, room, now);
      case RunStored(flow, timeout) => AfterRunStored(flow, timeout);
      case HandlerPending(flow, kind) => slots, redispatch := HandlerSettled(flow, kind, outcome, now);
      case OutputGuard(flow, kind) => slots, redispatch := GuardSettled(flow, kind, outcome, now);
      case CompleteStored(kind) => slots, redispatch := AfterCompleteStored();
      case RetryStored(flow) => AfterRetryStored(flow);
      case RetryTimer(flow) => RetryTimerFires(flow, now);
      case RetryRunStored(flow) => var handle := LaterDriving(HandlerPending(flow, Retry));
      case WaitStored(flow, kind) => slots, redispatch := AfterWaitStored(flow);
      case ResumeStored => slots, redispatch := AfterResumeStored(registered, now);
      case TimeoutTimer => slots, redispatch := TimeoutFires(now);
      case WaitTimer => WaitTimeoutFires(now);
    }
  }

  class Engine {
    const concurrency: int
    var activeExecutions: int
    var flowRegistry: map<string, Flow>
    var entries: map<Id, Entry>
    var order: seq<Id>
    var idempotencyIndex: map<string, Id>
    var clock: int
    var loop: map<Handle, LoopTask>
    var loopNext: Handle

    ghost function Objects(): set<object>
      reads `entries
    {
      entries.Values + set e | e in entries.Values :: e.execution
    }

    /** Every execution has its own objects. */
    ghost predicate Valid()
      reads `entries, `order
    {
      && (forall id :: id in order ==> id in entries)
      && (forall a, b :: a in entries && b in entries && a != b ==>
            entries[a] != entries[b] && entries[a].execution != entries[b].execution)
    }

    ghost function Cells(): map<Id, Cell>
      reads `entries, Objects()
    {
      map id | id in entries :: entries[id].View()
    }

    ghost function View(): State
      reads this, Objects()
    {
      State(concurrency, activeExecutions, flowRegistry, Cells(), order, idempotencyIndex, clock, loop, loopNext)
    }

    constructor (concurrency: int)
      ensures Valid() && View() == Init(concurrency)
    {
      this.concurrency := concurrency;
      activeExecutions, flowRegistry, entries, order, idempotencyIndex := 0, map[], map[], [], map[];
      clock, loop, loopNext := 0, map[], 0;
    }

    /** The queued execution with the least queued time, the first stored among equals. */
    method OldestQueued() returns (head: Option<Id>)
      requires Valid()
      ensures head == Head(Cells(), order)
    {
      hide Head;
      head := None;
      var i := 0;
      ghost var cells := Cells();
      HeadEmpty(cells);
      while i < |order|
        invariant 0 <= i <= |order|
        invariant head == Head(cells, order[..i])
      {
        var id := order[i];
        assert order[..i + 1] == order[..i] + [id];
        HeadAppend(cells, order[..i], id);
        if entries[id].execution.state == Queued {
          if head.None? || entries[id].execution.queuedAt < entries[head.value].execution.queuedAt {
            head := Some(id);
          }
        }
        i := i + 1;
      }
      assert order[..i] == order;
      assert head == Head(cells, order);
      assert cells == Cells();
    }

    method Enqueue(task: LoopTask)
      modifies this`loop, this`loopNext
      ensures View() == Steps.Enqueue(old(View()), task)
    {
      loop := loop[loopNext := task];
      loopNext := loopNext + 1;
    }

    method DispatchQueued()
      requires Valid()
      modifies this`loop, this`loopNext
      ensures Valid() && View() == Steps.DispatchQueued(old(View()))
    {
      hide Head, Steps.Enqueue, Steps.DispatchQueued;
      ghost var before := View();
      DispatchQueuedHead(before);
      if activeExecutions >= concurrency {
        return;
      }
      var head := OldestQueued();
      assert Cells() == before.cells;
      if head.Some? {
        Enqueue(DispatchSnapshot(head.value));
      }
    }

    method AddSlots(slots: int)
      modifies `activeExecutions
      ensures View() == old(View()).(active := old(View()).active + slots)
    {
      activeExecutions := activeExecutions + slots;
    }

    /** The tail of every segment of one execution: its effect on the counter and the queue. */
    method Settle(id: Id, ghost before: State, ghost cell: Cell, slots: int, redispatch: bool)
      requires Valid() && id in entries
      requires View() == before.(cells := before.cells[id := cell])
      modifies this
      ensures entries == old(entries) && Valid()
      ensures View() == Steps.Update(before, id, Effect(cell, slots, redispatch))
    {
      hide Steps.DispatchQueued, View, Cells;
      AddSlots(slots);
      if redispatch {
        DispatchQueued();
      }
    }

    function RegisteredFlow(name: string): Option<Flow>
      reads this
    {
      if name in flowRegistry then Some(flowRegistry[name]) else None
    }

    /** Only the row of `id` changed. */
    twostate lemma OneRow(id: Id)
      requires old(Valid()) && id in entries && entries == old(entries)
      requires forall other :: other in entries && other != id ==>
                 unchanged(entries[other]) && unchanged(entries[other].execution)
      ensures Cells() == old(Cells())[id := entries[id].View()]
    {
    }

    method Run(id: Id, h: Handle, outcome: Outcome)
      requires Valid()
      modifies this, Objects()
      ensures Valid() && View() == Apply(old(View()), Event.Run(id, h, outcome))
    {
      if id !in entries || h !in entries[id].live {
        return;
      }
      hide Steps.RunLive, Steps.Update;
      ghost var before := View();
      var entry := entries[id];
      var slots, redispatch := entry.RunLive(h, outcome, activeExecutions < concurrency,
                                             RegisteredFlow(entry.execution.flowName), clock);
      OneRow(id);
      Settle(id, before, entry.View(), slots, redispatch);
    }

    method CancelCall(id: Id)
      requires Valid()
      modifies this, Objects()
      ensures Valid() && View() == Apply(old(View()), Event.CancelCall(id))
    {
      if id !in entries {
        return;
      }
      hide Steps.Cancel, Steps.Update;
      ghost var before := View();
      entries[id].Cancel(clock);
      OneRow(id);
      Settle(id, before, entries[id].View(), 0, false);
    }

    method ResumeCall(id: Id)
      requires Valid()
      modifies this, Objects()
      ensures Valid() && View() == Apply(old(View()), Event.ResumeCall(id))
    {
      if id !in entries {
        return;
      }
      hide Steps.Resume, Steps.Update;
      ghost var before := View();
      entries[id].Resume(clock);
      OneRow(id);
      Settle(id, before, entries[id].View(), 0, false);
    }

    method RegisterFlow(flow: Flow)
      requires Valid()
      modifies `flowRegistry
      ensures Valid() && View() == Apply(old(View()), Register(flow))
    {
      if flow.name !in flowRegistry {
        flowRegistry := flowRegistry[flow.name := flow];
      }
    }

    method UnregisterFlow(name: string)
      requires Valid()
      modifies `flowRegistry
      ensures Valid() && View() == Apply(old(View()), Unregister(name))
    {
      flowRegistry := flowRegistry - {name};
    }

    method Trigger(flowName: string, key: string, options: Options)
      requires Valid()
      modifies `loop, `loopNext
      ensures Valid() && View() == Apply(old(View()), TriggerCall(flowName, key, options))
    {
      hide Blank;
      if Blank(key) || key in idempotencyIndex || flowName !in flowRegistry {
        return;
      }
      Enqueue(TriggerChecked(flowRegistry[flowName], key, options));
    }

    method CreateEntry(id: Id, flow: Flow, key: string, options: Options) returns (entry: Entry)
      ensures fresh(entry) && fresh(entry.execution)
      ensures entry.View() == Add(NewCell(NewRecord(flow.name, key, clock), options), TriggerStored(flow))
    {
      var execution := new Execution(id, flow.name, key, clock);
      entry := new Entry(execution, options);
      var handle := entry.Later(TriggerStored(flow));
    }

    /** `trigger` from the creation of the execution to the store. */
    method StoreExecution(id: Id, flow: Flow, key: string, options: Options)
      requires Valid() && id !in entries
      modifies this
      ensures Valid() && View() == Steps.Store(old(View()), id, flow, key, options)
    {
      hide NewCell, NewRecord, Add, Entry.View;
      ghost var before := Cells();
      var entry := CreateEntry(id, flow, key, options);
      entries := entries[id := entry];
      order := order + [id];
      idempotencyIndex := idempotencyIndex[key := id];
      assert Cells() == before[id := entry.View()];
    }

    /** `dispatchQueued` once its list has arrived. */
    method SnapshotArrives(id: Id)
      requires Valid()
      modifies this, Objects()
      ensures Valid() && View() == Steps.RunSnapshot(old(View()), id)
    {
      if id !in entries || entries[id].execution.flowName !in flowRegistry {
        return;
      }
      ghost var before := View();
      var flow := flowRegistry[entries[id].execution.flowName];
      assert entries[id].execution.flowName == before.cells[id].record.flowName;
      hide Steps.Start, Steps.Update, Entry.View;
      var slots := entries[id].Start(flow, None, activeExecutions < concurrency, clock);
      OneRow(id);
      Settle(id, before, entries[id].View(), slots, false);
    }

    method RunLoop(h: Handle, passed: bool, newId: Id)
      requires Valid()
      modifies this, Objects()
      ensures Valid() && View() == Apply(old(View()), Event.RunLoop(h, passed, newId))
    {
      hide Steps.Store, Steps.RunSnapshot;
      if h !in loop {
        return;
      }
      var task := loop[h];
      loop := loop - {h};
      match task
      case TriggerChecked(flow, key, options) =>
        if passed && newId !in entries {
          StoreExecution(newId, flow, key, options);
        }
      case DispatchSnapshot(id) => SnapshotArrives(id);
    }

    method Elapse(elapsed: nat)
      requires Valid()
      modifies `clock
      ensures Valid() && View() == old(View()).(clock := old(View()).clock + elapsed)
    {
      clock := clock + elapsed;
    }

    /** Whatever happens next to the engine: the object takes the step of the transition system. */
    method Perform(step: Step)
      requires Valid()
      modifies this, Objects()
      ensures Valid() && View() == Advance(old(View()), step)
    {
      hide Apply, View;
      Elapse(step.elapsed);
      match step.event
      case Register(flow) => RegisterFlow(flow);
      case Unregister(name) => UnregisterFlow(name);
      case TriggerCall(flowName, key, options) => Trigger(flowName, key, options);
      case CancelCall(id) => CancelCall(id);
      case ResumeCall(id) => ResumeCall(id);
      case RunLoop(h, passed, newId) => RunLoop(h, passed, newId);
      case Run(id, h, outcome) => Run(id, h, outcome);
    }
  }

  /** The execution a queue snapshot would name. */
  function Head(cells: map<Id, Cell>, ids: seq<Id>): (head: Option<Id>)
    ensures head.Some? ==> head.value in ids && head.value in cells
  {
    var queued := QueuedIds(cells, ids);
    if queued == [] then None else Some(Oldest(cells, queued))
  }

  lemma DispatchQueuedHead(s: State)
    ensures Steps.DispatchQueued(s)
         == if s.active >= s.concurrency || Head(s.cells, s.order).None? then s
            else Steps.Enqueue(s, DispatchSnapshot(Head(s.cells, s.order).value))
  {
  }

  lemma HeadEmpty(cells: map<Id, Cell>)
    ensures Head(cells, []) == None
  {
  }

  /** One step of the search. */
  lemma HeadAppend(cells: map<Id, Cell>, ids: seq<Id>, id: Id)
    requires id in cells
    ensures Head(cells, ids + [id])
         == if cells[id].record.state != Queued then Head(cells, ids)
            else if Head(cells, ids).None?
                    || cells[id].record.queuedAt < cells[Head(cells, ids).value].record.queuedAt then Some(id)
            else Head(cells, ids)
  {
    QueuedAppend(cells, ids, id);
    var queued := QueuedIds(cells, ids);
    if cells[id].record.state == Queued {
      if queued != [] {
        OldestAppend(cells, queued, id);
      } else {
        assert QueuedIds(cells, ids + [id]) == [id];
      }
    } else {
      assert QueuedIds(cells, ids + [id]) == queued;
    }
  }

  lemma {:induction false} QueuedAppend(cells: map<Id, Cell>, ids: seq<Id>, id: Id)
    ensures QueuedIds(cells, ids + [id])
         == QueuedIds(cells, ids) + if id in cells && cells[id].record.state == Queued then [id] else []
  {
    if ids != [] {
      assert (ids + [id])[1..] == ids[1..] + [id];
      QueuedAppend(cells, ids[1..], id);
    }
  }

  lemma {:induction false} OldestAppend(cells: map<Id, Cell>, ids: seq<Id>, id: Id)
    requires ids != [] && id in cells && forall i :: i in ids ==> i in cells
    ensures Oldest(cells, ids + [id])
         == if cells[id].record.queuedAt < cells[Oldest(cells, ids)].record.queuedAt then id else Oldest(cells, ids)
  {
    if |ids| > 1 {
      assert (ids + [id])[1..] == ids[1..] + [id];
      OldestAppend(cells, ids[1..], id);
    }
  }
}
