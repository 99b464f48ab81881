/** What every segment keeps for the execution it works on. */
module EngineCells {
  import opened Wrappers
  import opened Executions
  import opened EngineSteps

  /** Tasks that carry an execution forward; the others only look at it. */
  predicate Drives(t: Task) {
    t.RunStored? || t.HandlerPending? || t.OutputGuard? || t.CompleteStored? || t.RetryStored?
    || t.RetryTimer? || t.RetryRunStored? || t.ResumeStored?
  }

  /** The state an execution with this driving task was left in. */
  function Target(t: Task): ExecutionState {
    if t.CompleteStored? then Complete
    else if t.RetryStored? || t.RetryTimer? then Retrying
    else Running
  }

  /** Meanwhile it may have failed, unless it was complete. */
  predicate Fits(t: Task, state: ExecutionState) {
    state == Target(t) || (state == Failed && Target(t) != Complete)
  }

  /** A task from the part of a run that follows a resume. */
  predicate AfterResume(t: Task) {
    t.ResumeStored? || ((t.HandlerPending? || t.OutputGuard? || t.CompleteStored?) && t.kind == Resumed)
  }

  /** The registered timers are handles the event loop knows as timers of their kind. */
  ghost predicate TimersKnown(c: Cell) {
    && (forall h :: h in c.live ==> h < c.next)
    && (c.runner.Some? ==> c.runner.value < c.next)
    && (c.retryTimer.Some? ==>
          c.retryTimer.value < c.next
          && (c.retryTimer.value in c.live ==> c.live[c.retryTimer.value].RetryTimer?))
    && (c.timeoutTimer.Some? ==>
          c.timeoutTimer.value < c.next
          && (c.timeoutTimer.value in c.live ==> c.live[c.timeoutTimer.value].TimeoutTimer?))
    && (c.waitTimer.Some? ==>
          c.waitTimer.value < c.next
          && (c.waitTimer.value in c.live ==> c.live[c.waitTimer.value].WaitTimer?))
  }

  ghost predicate HasDriver(c: Cell) {
    c.runner.Some? && c.runner.value in c.live && Drives(c.live[c.runner.value])
  }

  /** A driving task is the runner, so there is at most one; and it fits the state. */
  ghost predicate DriverFits(c: Cell) {
    forall h :: h in c.live && Drives(c.live[h]) ==>
      && c.runner == Some(h)
      && Fits(c.live[h], c.record.state)
      && (c.record.state == Running || c.record.state == Complete ==> (AfterResume(c.live[h]) <==> HasWaited(c.record)))
  }

  /** Running, retrying and completing executions have their driver. */
  ghost predicate Driven(c: Cell) {
    c.record.state == Running || c.record.state == Retrying || (c.record.state == Complete && c.runner.Some?)
    ==> HasDriver(c)
  }

  /** `execution:complete` is sent with a failure, or after a completed result is stored. */
  function Sent(c: Cell): nat {
    if c.record.state == Failed then 1
    else if c.record.state == Complete && c.runner.None? then 1
    else 0
  }

  /** A live execution timeout is the registered one, and its execution has started and is not waiting. */
  ghost predicate TimeoutFits(c: Cell) {
    forall h :: h in c.live && c.live[h].TimeoutTimer? ==>
      && c.timeoutTimer == Some(h)
      && c.record.state != Queued && c.record.state != Waiting
      && !(HasDriver(c) && (c.live[c.runner.value].RunStored? || c.live[c.runner.value].ResumeStored?))
  }

  ghost predicate CellOk(c: Cell) {
    && TimersKnown(c) && DriverFits(c) && Driven(c) && TimeoutFits(c) && c.completions == Sent(c)
  }

  ghost predicate Logged(c: Cell) {
    RunLanguage(c.record) && Chained(c.record)
  }

  /** The execution while its own task `h` runs: off the event loop, so without a driver if `h` was it. */
  ghost predicate InFlight(c: Cell, task: Task) {
    && TimersKnown(c) && DriverFits(c) && TimeoutFits(c) && c.completions == Sent(c)
    && (if Drives(task) then
          && c.runner.Some?
          && (forall h :: h in c.live ==> !Drives(c.live[h]))
          && Fits(task, c.record.state)
          && (c.record.state == Running || c.record.state == Complete
              ==> (AfterResume(task) <==> HasWaited(c.record)))
          && (task.RunStored? || task.ResumeStored? ==> forall h :: h in c.live ==> !c.live[h].TimeoutTimer?)
        else Driven(c))
  }

  lemma Begin(c: Cell, h: Handle)
    requires CellOk(c) && h in c.live
    ensures InFlight(c.(live := c.live - {h}), c.live[h])
  {
  }

  lemma StartOk(c: Cell, flow: Flow, timeout: Option<int>, room: bool, now: int)
    requires CellOk(c) && Chained(c.record)
    ensures CellOk(Start(c, flow, timeout, room, now).cell)
  {
    MoveWaited(c.record, Running, now);
    StateWaited(c.record);
  }

  lemma KillOk(c: Cell, now: int)
    requires TimersKnown(c) && DriverFits(c) && TimeoutFits(c) && c.completions == Sent(c)
    requires !Terminal(c.record.state)
    ensures CellOk(Fail(ClearTimers(c), now))
  {
  }

  lemma CancelOk(c: Cell, now: int)
    requires CellOk(c)
    ensures CellOk(Cancel(c, now))
  {
    if !Terminal(c.record.state) { KillOk(c, now); }
  }

  lemma ResumeOk(c: Cell, now: int)
    requires CellOk(c) && Chained(c.record)
    ensures CellOk(Resume(c, now))
  {
    MoveWaited(c.record, Running, now);
    StateWaited(c.record);
  }

  lemma DriveOk(c: Cell, t: Task)
    requires TimersKnown(c) && (forall h :: h in c.live ==> !Drives(c.live[h]))
    requires forall h :: h in c.live && c.live[h].TimeoutTimer? ==> c.timeoutTimer == Some(h)
    requires t.HandlerPending? || t.OutputGuard?
    requires Fits(t, c.record.state)
    requires c.record.state == Running ==> (AfterResume(t) <==> HasWaited(c.record))
    requires c.completions == Sent(c)
    ensures CellOk(Drive(c, t))
  {
  }

  lemma AddTimeoutOk(c: Cell, on: bool)
    requires TimersKnown(c) && (forall h :: h in c.live ==> !Drives(c.live[h]) && !c.live[h].TimeoutTimer?)
    ensures var c' := AddTimeout(c, on);
            && TimersKnown(c')
            && c'.(live := c.live, next := c.next, timeoutTimer := c.timeoutTimer) == c
            && (forall h :: h in c'.live ==> !Drives(c'.live[h]))
            && (forall h :: h in c'.live && c'.live[h].TimeoutTimer? ==> c'.timeoutTimer == Some(h))
  {
  }

  lemma RunStoredOk(c: Cell, flow: Flow, timeout: Option<int>)
    requires InFlight(c, RunStored(flow, timeout))
    ensures CellOk(RunRunStored(c, flow, timeout))
  {
    var on := timeout.GetOr(flow.timeout) > 0;
    AddTimeoutOk(c, on);
    DriveOk(AddTimeout(c, on), HandlerPending(flow, Initial));
  }

  lemma CompletingOk(c: Cell, task: Task, kind: Kind, now: int)
    requires InFlight(c, task) && Drives(task) && Target(task) == Running
    requires AfterResume(task) <==> kind == Resumed
    ensures CellOk(Completing(c, kind, now))
  {
    MoveWaited(c.record, Complete, now);
  }

  lemma FailAndFreeOk(c: Cell, task: Task, now: int)
    requires InFlight(c, task) && Drives(task) && !Terminal(c.record.state)
    ensures CellOk(FailAndFree(c, now).cell)
  {
  }

  lemma OnErrorOk(c: Cell, task: Task, flow: Flow, kind: Kind, retryable: bool, now: int)
    requires InFlight(c, task) && Drives(task) && c.record.state == Running
    ensures CellOk(OnError(c, flow, kind, retryable, now).cell)
  {
    FailAndFreeOk(c, task, now);
  }

  lemma EnterWaitingOk(c: Cell, task: Task, flow: Flow, kind: Kind, now: int)
    requires InFlight(c, task) && Drives(task) && c.record.state == Running
    ensures CellOk(EnterWaiting(c, flow, kind, now))
  {
  }

  /** A driver of a failed execution may stop: its result is dropped. */
  lemma DroppedOk(c: Cell, task: Task)
    requires InFlight(c, task) && Drives(task) && c.record.state == Failed
    ensures CellOk(c)
  {
  }

  lemma HandlerOk(c: Cell, flow: Flow, kind: Kind, outcome: Outcome, now: int)
    requires InFlight(c, HandlerPending(flow, kind))
    ensures CellOk(RunHandler(c, flow, kind, outcome, now).cell)
  {
    hide CellOk, EnterWaiting, Completing, OnError;
    var task := HandlerPending(flow, kind);
    if c.record.state == Running {
      if outcome == WaitSignal {
        EnterWaitingOk(c, task, flow, kind, now);
      } else if outcome == Returned {
        CompletingOk(c, task, kind, now);
        DriveOk(c, OutputGuard(flow, kind));
      } else {
        OnErrorOk(c, task, flow, kind, outcome == ThrewRetryable, now);
      }
    } else {
      DroppedOk(c, task);
    }
  }

  lemma OutputGuardOk(c: Cell, flow: Flow, kind: Kind, outcome: Outcome, now: int)
    requires InFlight(c, OutputGuard(flow, kind))
    ensures CellOk(RunOutputGuard(c, flow, kind, outcome, now).cell)
  {
    var task := OutputGuard(flow, kind);
    if outcome == Returned || outcome == WaitSignal {
      CompletingOk(c, task, kind, now);
    } else if c.record.state == Running {
      OnErrorOk(c, task, flow, kind, outcome == ThrewRetryable, now);
    }
  }

  lemma CompleteStoredOk(c: Cell, kind: Kind)
    requires InFlight(c, CompleteStored(kind))
    ensures CellOk(RunCompleteStored(c).cell)
  {
  }

  lemma RetryStoredOk(c: Cell, flow: Flow)
    requires InFlight(c, RetryStored(flow))
    ensures CellOk(RunRetryStored(c, flow))
  {
  }

  lemma RetryTimerOk(c: Cell, flow: Flow, now: int)
    requires InFlight(c, RetryTimer(flow)) && RunLanguage(c.record)
    ensures CellOk(RunRetryTimer(c, flow, now))
  {
    if c.record.state == Retrying {
      MoveWaited(c.record, Running, now);
      RetryingNeverWaited(c.record);
    }
  }

  lemma RetryRunStoredOk(c: Cell, flow: Flow)
    requires InFlight(c, RetryRunStored(flow))
    ensures CellOk(Drive(c, HandlerPending(flow, Retry)))
  {
  }

  lemma WaitStoredOk(c: Cell, flow: Flow, kind: Kind)
    requires InFlight(c, WaitStored(flow, kind))
    ensures CellOk(RunWaitStored(c, flow).cell)
  {
  }

  lemma ResumeFailsOk(c: Cell, now: int)
    requires InFlight(c, ResumeStored)
    ensures CellOk(Fail(c, now).(runner := None))
    ensures CellOk(Ended(Fail(c, now).(runner := None)).cell)
  {
  }

  lemma LeakOk(c: Cell)
    requires CellOk(c)
    ensures CellOk(CountLeak(c, true))
  {
  }

  lemma ReenterOk(c: Cell, flow: Flow)
    requires InFlight(c, ResumeStored)
    ensures CellOk(Reenter(c, flow))
  {
    var timed := AddTimeout(c.(handler := Some(flow)), c.remaining.Some?);
    AddTimeoutOk(c.(handler := Some(flow)), c.remaining.Some?);
    DriveOk(timed.(remaining := None), HandlerPending(flow, Resumed));
  }

  lemma ResumeStoredOk(c: Cell, registered: Option<Flow>, now: int)
    requires InFlight(c, ResumeStored)
    ensures CellOk(RunResumeStored(c, registered, now).cell)
  {
    ResumeFailsOk(c, now);
    if c.handler.Some? {
      ReenterOk(c, c.handler.value);
      LeakOk(Reenter(c, c.handler.value));
    } else if registered.Some? {
      ReenterOk(c, registered.value);
      LeakOk(Reenter(c, registered.value));
    }
  }

  lemma TimeoutTimerOk(c: Cell, now: int)
    requires InFlight(c, TimeoutTimer)
    ensures CellOk(RunTimeoutTimer(c, now).cell)
  {
    if !Terminal(c.record.state) { KillOk(c, now); }
  }

  lemma WaitTimerOk(c: Cell, now: int)
    requires InFlight(c, WaitTimer)
    ensures CellOk(RunWaitTimer(c, now))
  {
    if c.record.state == Waiting { KillOk(c, now); }
  }

  lemma PassiveOk(c: Cell, task: Task)
    requires InFlight(c, task) && !Drives(task)
    ensures CellOk(c)
  {
  }

  lemma RunTaskOk(c: Cell, task: Task, outcome: Outcome, room: bool, registered: Option<Flow>, now: int)
    requires InFlight(c, task) && Logged(c)
    ensures CellOk(RunTask(c, task, outcome, room, registered, now).cell)
  {
    hide CellOk, InFlight, Start, RunRunStored, RunHandler, RunOutputGuard, RunCompleteStored, RunRetryStored;
    hide RunRetryTimer, Drive, RunWaitStored, RunResumeStored, RunTimeoutTimer, RunWaitTimer, Chained, RunLanguage;
    match task
    case TriggerStored(flow) => PassiveOk(c, task); StartOk(c, flow, c.options.timeout, room, now);
    case RunStored(flow, timeout) => RunStoredOk(c, flow, timeout);
    case HandlerPending(flow, kind) => HandlerOk(c, flow, kind, outcome, now);
    case OutputGuard(flow, kind) => OutputGuardOk(c, flow, kind, outcome, now);
    case CompleteStored(kind) => CompleteStoredOk(c, kind);
    case RetryStored(flow) => RetryStoredOk(c, flow);
    case RetryTimer(flow) => RetryTimerOk(c, flow, now);
    case RetryRunStored(flow) => RetryRunStoredOk(c, flow);
    case WaitStored(flow, kind) => WaitStoredOk(c, flow, kind);
    case ResumeStored => ResumeStoredOk(c, registered, now);
    case TimeoutTimer => TimeoutTimerOk(c, now);
    case WaitTimer => WaitTimerOk(c, now);
  }
}
