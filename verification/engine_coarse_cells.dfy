/** Run-to-completion, for one execution: when calls, timers and handler results only come while no
    continuation is pending, the engine's timer maps say exactly what is going on. */
module EngineCoarseCells {
  import opened Wrappers
  import opened Executions
  import opened EngineSteps
  import opened EngineCells
  import opened EngineLogs

  /** Continuations that run on their own; handlers and timers wait for the outside. */
  predicate Micro(t: Task) {
    !t.HandlerPending? && !t.RetryTimer? && !t.TimeoutTimer? && !t.WaitTimer?
  }

  ghost predicate NoMicro(c: Cell) {
    forall h :: h in c.live ==> !Micro(c.live[h])
  }

  ghost predicate AtMostOne(c: Cell) {
    forall h1, h2 :: h1 in c.live && h2 in c.live && Micro(c.live[h1]) && Micro(c.live[h2]) ==> h1 == h2
  }

  /** The state a continuation finds: nothing came in between. */
  predicate Expects(t: Task, state: ExecutionState) {
    if t.TriggerStored? then state == Queued
    else if t.WaitStored? then state == Waiting
    else state == Target(t)
  }

  /** A registered retry timer is live and belongs to a retrying execution, and so on for each map. */
  ghost predicate TimersMatch(c: Cell) {
    && (c.retryTimer.Some? ==> c.record.state == Retrying && c.retryTimer.value in c.live)
    && (c.timeoutTimer.Some? ==> Running == c.record.state || c.record.state == Retrying)
    && (c.timeoutTimer.Some? ==> c.timeoutTimer.value in c.live)
    && (c.waitTimer.Some? ==> c.record.state == Waiting && c.waitTimer.value in c.live)
    && (forall h :: h in c.live && c.live[h].RetryTimer? ==> c.retryTimer == Some(h))
    && (forall h :: h in c.live && c.live[h].TimeoutTimer? ==> c.timeoutTimer == Some(h))
    && (forall h :: h in c.live && c.live[h].WaitTimer? ==> c.waitTimer == Some(h))
  }

  ghost predicate Resuming(c: Cell) {
    exists h :: h in c.live && c.live[h].ResumeStored?
  }

  /** A waiting execution has its handler and perhaps some remaining time, and only such a one has. */
  ghost predicate ParkedMatch(c: Cell) {
    && (c.record.state == Waiting || Resuming(c) ==> c.handler.Some?)
    && (c.remaining.Some? ==> c.record.state == Waiting || Resuming(c))
    && (c.handler.Some? ==> c.record.state == Waiting || c.record.state == Running)
    && (forall h :: h in c.live && MayRetry(c.live[h]) ==> c.handler.None?)
  }

  ghost predicate Coarse(c: Cell) {
    && TimersMatch(c) && ParkedMatch(c)
    && (forall h :: h in c.live && Micro(c.live[h]) ==> Expects(c.live[h], c.record.state))
    && (forall h :: h in c.live && c.live[h].WaitStored? ==> c.waitTimer.None?)
  }

  /** The execution while its only continuation, or an outside event, runs. */
  ghost predicate Alone(c: Cell, task: Task) {
    && NoMicro(c)
    && (Micro(task) ==> Expects(task, c.record.state))
    && (c.record.state == Waiting || task.ResumeStored? ==> c.handler.Some?)
    && (c.remaining.Some? ==> c.record.state == Waiting || task.ResumeStored?)
    && (c.handler.Some? ==> c.record.state == Waiting || c.record.state == Running)
    && (c.retryTimer.Some? ==> c.record.state == Retrying && (task.RetryTimer? || c.retryTimer.value in c.live))
    && (c.timeoutTimer.Some? ==> Running == c.record.state || c.record.state == Retrying)
    && (c.timeoutTimer.Some? ==> task.TimeoutTimer? || c.timeoutTimer.value in c.live)
    && (c.waitTimer.Some? ==> c.record.state == Waiting && (task.WaitTimer? || c.waitTimer.value in c.live))
    && (forall h :: h in c.live && c.live[h].RetryTimer? ==> c.retryTimer == Some(h) && !task.RetryTimer?)
    && (forall h :: h in c.live && c.live[h].TimeoutTimer? ==> c.timeoutTimer == Some(h) && !task.TimeoutTimer?)
    && (forall h :: h in c.live && c.live[h].WaitTimer? ==> c.waitTimer == Some(h) && !task.WaitTimer?)
    && (forall h :: h in c.live ==> h < c.next)
    && (Drives(task) ==> forall h :: h in c.live ==> !Drives(c.live[h]))
    && (Drives(task) ==> Fits(task, c.record.state))
    && (c.handler.Some? ==> !MayRetry(task) && forall h :: h in c.live ==> !MayRetry(c.live[h]))
    && (task.RetryTimer? ==> c.record.state == Retrying)
    && (task.TimeoutTimer? ==> c.record.state == Running || c.record.state == Retrying)
    && (task.WaitTimer? ==> c.record.state == Waiting)
    && (task.RunStored? || task.ResumeStored? ==> c.timeoutTimer.None?)
    && (task.WaitStored? ==> c.waitTimer.None?)
  }

  lemma BeginAlone(c: Cell, h: Handle)
    requires CellOk(c) && Coarse(c) && h in c.live
    requires if Micro(c.live[h]) then AtMostOne(c) else NoMicro(c)
    ensures Alone(c.(live := c.live - {h}), c.live[h])
  {
    hide HasWaited, Sent;
  }

  /** What a segment leaves: one continuation at most, and none if it goes on to `dispatchQueued`.
      A slot is given back only on the way to `dispatchQueued`. */
  ghost predicate Leaves(e: Effect) {
    && Coarse(e.cell) && AtMostOne(e.cell)
    && (e.redispatch ==> NoMicro(e.cell) && e.cell.record.state != Queued)
    && -1 <= e.slots && (e.slots < 0 ==> e.redispatch)
  }

  lemma StartLeaves(c: Cell, flow: Flow, timeout: Option<int>, room: bool, now: int)
    requires Coarse(c) && NoMicro(c) && CellOk(c)
    ensures Leaves(Start(c, flow, timeout, room, now))
  {
    hide HasWaited, Sent, Driven, TimeoutFits;
  }

  lemma KilledLeaves(c: Cell, now: int)
    requires Coarse(c) && NoMicro(c) && TimersKnown(c) && !Terminal(c.record.state)
    ensures Coarse(Fail(ClearTimers(c), now)) && AtMostOne(Fail(ClearTimers(c), now))
  {
    KilledTimers(c, now);
    hide TimersMatch, TimersKnown;
    assert NoMicro(Fail(ClearTimers(c), now));
  }

  lemma KilledTimers(c: Cell, now: int)
    requires TimersMatch(c)
    ensures TimersMatch(Fail(ClearTimers(c), now))
  {
  }

  lemma LeakCoarse(c: Cell, waited: bool)
    requires Coarse(c) && AtMostOne(c)
    ensures Coarse(CountLeak(c, waited)) && AtMostOne(CountLeak(c, waited))
  {
    if Resuming(CountLeak(c, waited)) { assert Resuming(c); }
  }

  lemma CancelLeaves(c: Cell, now: int)
    requires Coarse(c) && NoMicro(c) && CellOk(c)
    ensures Leaves(Effect(Cancel(c, now), 0, false))
  {
    assert AtMostOne(c);
    if !Terminal(c.record.state) {
      KilledLeaves(c, now);
      LeakCoarse(Fail(ClearTimers(c), now), HasWaited(c.record));
    }
    hide CellOk, Coarse, AtMostOne, NoMicro, Fail, ClearTimers, CountLeak, HoldsSlot, HasWaited;
  }

  lemma ResumeLeaves(c: Cell, now: int)
    requires Coarse(c) && NoMicro(c) && CellOk(c)
    ensures Leaves(Effect(Resume(c, now), 0, false))
  {
    hide HasWaited, Sent, Driven;
    var c' := Resume(c, now);
    if c.record.state == Waiting {
      assert c'.live[c.next].ResumeStored?;
      assert Resuming(c');
    }
  }

  lemma CompletingLeaves(c: Cell, task: Task, kind: Kind, now: int)
    requires Alone(c, task) && (task.HandlerPending? || task.OutputGuard?)
    ensures Leaves(Effect(Completing(c, kind, now), 0, false))
  {
  }

  lemma FailLeaves(c: Cell, task: Task, now: int)
    requires Alone(c, task) && (task.HandlerPending? || task.OutputGuard?) && c.record.state == Running
    ensures Leaves(FailAndFree(c, now))
  {
  }

  lemma RetryLeaves(c: Cell, task: Task, flow: Flow, now: int)
    requires Alone(c, task) && (task.HandlerPending? || task.OutputGuard?) && c.record.state == Running
    requires task.kind != Resumed
    ensures Leaves(Effect(ScheduleRetry(c, flow, now), 0, false))
  {
  }

  lemma OnErrorLeaves(c: Cell, task: Task, flow: Flow, kind: Kind, retryable: bool, now: int)
    requires Alone(c, task) && (task.HandlerPending? || task.OutputGuard?) && c.record.state == Running
    requires task.kind == kind
    ensures Leaves(OnError(c, flow, kind, retryable, now))
  {
    hide Alone, Leaves, FailAndFree, ScheduleRetry;
    FailLeaves(c, task, now);
    if kind != Resumed { RetryLeaves(c, task, flow, now); }
  }

  lemma EnterWaitingLeaves(c: Cell, task: Task, flow: Flow, kind: Kind, now: int)
    requires Alone(c, task) && task.HandlerPending? && c.record.state == Running
    ensures Leaves(Effect(EnterWaiting(c, flow, kind, now), 0, false))
  {
  }

  lemma HandlerLeaves(c: Cell, flow: Flow, kind: Kind, outcome: Outcome, now: int)
    requires Alone(c, HandlerPending(flow, kind))
    ensures Leaves(RunHandler(c, flow, kind, outcome, now))
  {
    hide Completing, OnError, EnterWaiting, Drive, Leaves, Coarse;
    var task := HandlerPending(flow, kind);
    if c.record.state == Running {
      CompletingLeaves(c, task, kind, now);
      OnErrorLeaves(c, task, flow, kind, outcome == ThrewRetryable, now);
      EnterWaitingLeaves(c, task, flow, kind, now);
      GuardLeaves(c, flow, kind);
    } else {
      DroppedLeaves(c, task);
    }
  }

  lemma GuardLeaves(c: Cell, flow: Flow, kind: Kind)
    requires Alone(c, HandlerPending(flow, kind)) && c.record.state == Running
    ensures Leaves(Effect(Drive(c, OutputGuard(flow, kind)), 0, false))
  {
  }

  lemma DroppedLeaves(c: Cell, task: Task)
    requires Alone(c, task) && task.HandlerPending? && c.record.state != Running
    ensures Leaves(Effect(c, 0, false))
  {
  }

  lemma OutputGuardLeaves(c: Cell, flow: Flow, kind: Kind, outcome: Outcome, now: int)
    requires Alone(c, OutputGuard(flow, kind))
    ensures Leaves(RunOutputGuard(c, flow, kind, outcome, now))
  {
    var task := OutputGuard(flow, kind);
    assert c.record.state == Running;
    hide Completing, OnError, Drive, Leaves, Coarse, Alone;
    CompletingLeaves(c, task, kind, now);
    OnErrorLeaves(c, task, flow, kind, outcome == ThrewRetryable, now);
  }

  lemma RunStoredLeaves(c: Cell, flow: Flow, timeout: Option<int>)
    requires Alone(c, RunStored(flow, timeout))
    ensures Leaves(Effect(RunRunStored(c, flow, timeout), 0, false))
  {
  }

  lemma ResumeStoredLeaves(c: Cell, registered: Option<Flow>, now: int)
    requires Alone(c, ResumeStored)
    ensures Leaves(RunResumeStored(c, registered, now))
  {
    hide CountLeak;
  }

  lemma RetryStoredLeaves(c: Cell, flow: Flow)
    requires Alone(c, RetryStored(flow))
    ensures Leaves(Effect(RunRetryStored(c, flow), 0, false))
  {
  }

  lemma RetryTimerLeaves(c: Cell, flow: Flow, now: int)
    requires Alone(c, RetryTimer(flow))
    ensures Leaves(Effect(RunRetryTimer(c, flow, now), 0, false))
  {
  }

  lemma RetryRunStoredLeaves(c: Cell, flow: Flow)
    requires Alone(c, RetryRunStored(flow))
    ensures Leaves(Effect(Drive(c, HandlerPending(flow, Retry)), 0, false))
  {
  }

  lemma WaitStoredLeaves(c: Cell, flow: Flow, kind: Kind)
    requires Alone(c, WaitStored(flow, kind))
    ensures Leaves(RunWaitStored(c, flow))
  {
  }

  lemma TimersLeave(c: Cell, now: int)
    ensures Alone(c, TimeoutTimer) ==> Leaves(RunTimeoutTimer(c, now))
    ensures Alone(c, WaitTimer) ==> Leaves(Effect(RunWaitTimer(c, now), 0, false))
  {
  }

  lemma CompleteStoredLeaves(c: Cell, kind: Kind)
    requires Alone(c, CompleteStored(kind))
    ensures Leaves(RunCompleteStored(c))
  {
  }

  lemma TriggerLeaves(c: Cell, flow: Flow, room: bool, now: int)
    requires Alone(c, TriggerStored(flow)) && CellOk(c)
    ensures Leaves(Start(c, flow, c.options.timeout, room, now))
  {
    hide HasWaited, Sent, Driven;
  }

  lemma RunTaskLeaves(c: Cell, task: Task, outcome: Outcome, room: bool, registered: Option<Flow>, now: int)
    requires Alone(c, task) && InFlight(c, task)
    ensures Leaves(RunTask(c, task, outcome, room, registered, now))
  {
    hide CellOk, Alone, Leaves, InFlight, Drive;
    hide Start, RunRunStored, RunHandler, RunOutputGuard, RunCompleteStored, RunRetryStored, RunRetryTimer;
    hide RunWaitStored, RunResumeStored, RunTimeoutTimer, RunWaitTimer;
    match task
    case TriggerStored(flow) => PassiveOk(c, task); TriggerLeaves(c, flow, room, now);
    case RunStored(flow, timeout) => RunStoredLeaves(c, flow, timeout);
    case HandlerPending(flow, kind) => HandlerLeaves(c, flow, kind, outcome, now);
    case OutputGuard(flow, kind) => OutputGuardLeaves(c, flow, kind, outcome, now);
    case CompleteStored(kind) => CompleteStoredLeaves(c, kind);
    case RetryStored(flow) => RetryStoredLeaves(c, flow);
    case RetryTimer(flow) => RetryTimerLeaves(c, flow, now);
    case RetryRunStored(flow) => RetryRunStoredLeaves(c, flow);
    case WaitStored(flow, kind) => WaitStoredLeaves(c, flow, kind);
    case ResumeStored => ResumeStoredLeaves(c, registered, now);
    case TimeoutTimer => TimersLeave(c, now);
    case WaitTimer => TimersLeave(c, now);
  }

  /** Every segment, run to completion. */
  lemma RunLiveLeaves(c: Cell, h: Handle, outcome: Outcome, room: bool, registered: Option<Flow>, now: int)
    requires CellOk(c) && Coarse(c) && h in c.live
    requires if Micro(c.live[h]) then AtMostOne(c) else NoMicro(c)
    ensures Leaves(RunLive(c, h, outcome, room, registered, now))
  {
    hide CellOk, Coarse, AtMostOne, NoMicro, Alone, Leaves, InFlight, RunTask;
    BeginAlone(c, h);
    Begin(c, h);
    RunTaskLeaves(c.(live := c.live - {h}), c.live[h], outcome, room, registered, now);
  }
}
