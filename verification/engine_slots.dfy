/** Slot accounting of one execution: what it holds changes exactly by what its segments
    add to or take from `activeExecutions`. */
module EngineSlots {
  import opened Wrappers
  import opened Executions
  import opened EngineSteps
  import opened EngineCells

  /** A continuation that will give a slot back. `resumed`: the slot was taken by `resume`. */
  predicate Owes(t: Task, resumed: bool) {
    (t.WaitStored? || t.CompleteStored?) && (t.kind == Resumed <==> resumed)
  }

  function Owed(live: map<Handle, Task>, resumed: bool): set<Handle> {
    set h | h in live && Owes(live[h], resumed)
  }

  function Leaked(c: Cell, resumed: bool): nat {
    if resumed then c.leakedResume else c.leakedDispatch
  }

  function One(b: bool): nat {
    if b then 1 else 0
  }

  /** The slots counted for an execution: it runs or retries on one, continuations owe some,
      and some were never given back. */
  function Held(c: Cell, resumed: bool): nat {
    One(HoldsSlot(c) && HasWaited(c.record) == resumed) + |Owed(c.live, resumed)| + Leaked(c, resumed)
  }

  /** The same while its task is off the event loop. */
  function HeldWith(c: Cell, task: Task, resumed: bool): nat {
    One(HasWaited(c.record) == resumed
        && (if Drives(task) then
              c.record.state == Retrying || (c.record.state == Running && !task.ResumeStored?)
            else HoldsSlot(c)))
    + |Owed(c.live, resumed)| + One(Owes(task, resumed)) + Leaked(c, resumed)
  }

  // ---- The event loop and the debts ----

  lemma OwedAdd(live: map<Handle, Task>, h: Handle, t: Task, resumed: bool)
    requires h !in live
    ensures |Owed(live[h := t], resumed)| == |Owed(live, resumed)| + One(Owes(t, resumed))
  {
    var now := Owed(live[h := t], resumed);
    assert now == if Owes(t, resumed) then Owed(live, resumed) + {h} else Owed(live, resumed);
  }

  lemma OwedRemove(live: map<Handle, Task>, hs: set<Handle>, resumed: bool)
    requires forall h :: h in hs && h in live ==> !Owes(live[h], resumed)
    ensures Owed(live - hs, resumed) == Owed(live, resumed)
  {
  }

  lemma ClearOwed(c: Cell, resumed: bool)
    requires TimersKnown(c)
    ensures Owed(ClearTimers(c).live, resumed) == Owed(c.live, resumed)
  {
    OwedRemove(c.live, Handles(c.retryTimer) + Handles(c.timeoutTimer) + Handles(c.waitTimer), resumed);
  }

  lemma BeginHeld(c: Cell, h: Handle, resumed: bool)
    requires CellOk(c) && h in c.live
    ensures Held(c, resumed) == HeldWith(c.(live := c.live - {h}), c.live[h], resumed)
  {
    var rest := c.live - {h};
    assert c.live == rest[h := c.live[h]];
    OwedAdd(rest, h, c.live[h], resumed);
  }

  // ---- Each segment balances ----

  /** Whether the slot a task takes or gives back is one that `resume` took. */
  predicate Origin(c: Cell, task: Task) {
    if task.ResumeStored? then true
    else if task.TriggerStored? then false
    else if task.WaitStored? || task.CompleteStored? then task.kind == Resumed
    else HasWaited(c.record)
  }

  /** The effect on `activeExecutions` is the change of what the execution holds of that origin. */
  ghost predicate Balanced(c: Cell, task: Task, e: Effect, resumed: bool) {
    Held(e.cell, resumed) == HeldWith(c, task, resumed) + (if resumed == Origin(c, task) then e.slots else 0)
  }

  lemma DriveHeld(c: Cell, t: Task, resumed: bool)
    requires TimersKnown(c) && Drives(t)
    ensures Held(Drive(c, t), resumed)
         == One(HasWaited(c.record) == resumed
                && (c.record.state == Retrying || (c.record.state == Running && !t.ResumeStored?)))
            + |Owed(c.live, resumed)| + One(Owes(t, resumed)) + Leaked(c, resumed)
  {
    OwedAdd(c.live, c.next, t, resumed);
  }

  lemma MoveHeld(c: Cell, t: Task, to: ExecutionState, now: int, resumed: bool)
    requires TimersKnown(c) && Drives(t)
    ensures Held(Drive(Move(c, to, now), t), resumed)
         == One((HasWaited(c.record) || to == Waiting) == resumed
                && (to == Retrying || (to == Running && !t.ResumeStored?)))
            + |Owed(c.live, resumed)| + One(Owes(t, resumed)) + Leaked(c, resumed)
  {
    MoveWaited(c.record, to, now);
    DriveHeld(Move(c, to, now), t, resumed);
  }

  /** A dead execution holds only debts and leaks. */
  lemma KillHeld(c: Cell, now: int, resumed: bool)
    requires TimersKnown(c)
    ensures Held(Fail(ClearTimers(c), now), resumed) == |Owed(c.live, resumed)| + Leaked(c, resumed)
    ensures Held(FailAndFree(c, now).cell, resumed) == |Owed(c.live, resumed)| + Leaked(c, resumed)
  {
    ClearOwed(c, resumed);
  }

  lemma AddTimeoutHeld(c: Cell, on: bool, t: Task, resumed: bool)
    requires TimersKnown(c) && t.HandlerPending?
    ensures Held(Drive(AddTimeout(c, on), t), resumed)
         == One(HasWaited(c.record) == resumed && (c.record.state == Retrying || c.record.state == Running))
            + |Owed(c.live, resumed)| + Leaked(c, resumed)
  {
    OwedAdd(c.live, c.next, TimeoutTimer, resumed);
    DriveHeld(AddTimeout(c, on), t, resumed);
  }

  lemma StartBalanced(c: Cell, flow: Flow, timeout: Option<int>, room: bool, now: int, resumed: bool)
    requires CellOk(c) && Chained(c.record)
    ensures Held(Start(c, flow, timeout, room, now).cell, resumed)
         == Held(c, resumed) + (if resumed then 0 else Start(c, flow, timeout, room, now).slots)
  {
    MoveHeld(c.(started := Some(flow)), RunStored(flow, timeout), Running, now, resumed);
    StateWaited(c.record);
  }

  lemma CompletingBalanced(c: Cell, task: Task, kind: Kind, now: int, resumed: bool)
    requires InFlight(c, task) && (task.HandlerPending? || task.OutputGuard?) && task.kind == kind
    ensures Balanced(c, task, Effect(Completing(c, kind, now), 0, false), resumed)
  {
    ClearOwed(c, resumed);
    MoveHeld(ClearTimers(c), CompleteStored(kind), Complete, now, resumed);
  }

  lemma ScheduleRetryHeld(c: Cell, flow: Flow, now: int, resumed: bool)
    requires TimersKnown(c)
    ensures Held(ScheduleRetry(c, flow, now), resumed)
         == One(HasWaited(c.record) == resumed) + |Owed(c.live, resumed)| + Leaked(c, resumed)
  {
    var moved := Transitioned(c.record, Retrying, now).(retryCount := c.record.retryCount + 1);
    MoveWaited(c.record, Retrying, now);
    assert HasWaited(moved) <==> HasWaited(c.record);
    DriveHeld(c.(record := moved), RetryStored(flow), resumed);
  }

  lemma OnErrorBalanced(c: Cell, task: Task, flow: Flow, kind: Kind, retryable: bool, now: int, resumed: bool)
    requires InFlight(c, task) && (task.HandlerPending? || task.OutputGuard?) && task.kind == kind
    requires c.record.state == Running
    ensures Balanced(c, task, OnError(c, flow, kind, retryable, now), resumed)
  {
    KillHeld(c, now, resumed);
    ScheduleRetryHeld(c, flow, now, resumed);
  }

  lemma EnterWaitingBalanced(c: Cell, flow: Flow, kind: Kind, now: int, resumed: bool)
    requires InFlight(c, HandlerPending(flow, kind)) && c.record.state == Running
    ensures Balanced(c, HandlerPending(flow, kind), Effect(EnterWaiting(c, flow, kind, now), 0, false), resumed)
  {
    OwedRemove(c.live, Handles(c.timeoutTimer), resumed);
    OwedAdd(c.live - Handles(c.timeoutTimer), c.next, WaitStored(flow, kind), resumed);
  }

  lemma HandlerBalanced(c: Cell, flow: Flow, kind: Kind, outcome: Outcome, now: int, resumed: bool)
    requires InFlight(c, HandlerPending(flow, kind))
    ensures Balanced(c, HandlerPending(flow, kind), RunHandler(c, flow, kind, outcome, now), resumed)
  {
    var task := HandlerPending(flow, kind);
    if c.record.state == Running {
      if outcome == WaitSignal {
        EnterWaitingBalanced(c, flow, kind, now, resumed);
      } else if outcome == Returned {
        CompletingBalanced(c, task, kind, now, resumed);
        DriveHeld(c, OutputGuard(flow, kind), resumed);
      } else {
        OnErrorBalanced(c, task, flow, kind, outcome == ThrewRetryable, now, resumed);
      }
    }
  }

  lemma OutputGuardBalanced(c: Cell, flow: Flow, kind: Kind, outcome: Outcome, now: int, resumed: bool)
    requires InFlight(c, OutputGuard(flow, kind))
    ensures Balanced(c, OutputGuard(flow, kind), RunOutputGuard(c, flow, kind, outcome, now), resumed)
  {
    var task := OutputGuard(flow, kind);
    if outcome == Returned || outcome == WaitSignal {
      CompletingBalanced(c, task, kind, now, resumed);
    } else if c.record.state == Running {
      OnErrorBalanced(c, task, flow, kind, outcome == ThrewRetryable, now, resumed);
    }
  }

  lemma RetryStoredBalanced(c: Cell, flow: Flow, resumed: bool)
    requires InFlight(c, RetryStored(flow))
    ensures Balanced(c, RetryStored(flow), Effect(RunRetryStored(c, flow), 0, false), resumed)
  {
    DriveHeld(c, RetryTimer(flow), resumed);
  }

  lemma RetryTimerBalanced(c: Cell, flow: Flow, now: int, resumed: bool)
    requires InFlight(c, RetryTimer(flow))
    ensures Balanced(c, RetryTimer(flow), Effect(RunRetryTimer(c, flow, now), 0, false), resumed)
  {
    MoveHeld(c.(retryTimer := None), RetryRunStored(flow), Running, now, resumed);
  }

  lemma WaitStoredBalanced(c: Cell, flow: Flow, kind: Kind, resumed: bool)
    requires InFlight(c, WaitStored(flow, kind))
    ensures Balanced(c, WaitStored(flow, kind), RunWaitStored(c, flow), resumed)
  {
    OwedAdd(c.live, c.next, WaitTimer, resumed);
  }

  lemma LeakHeld(c: Cell, resumed: bool)
    ensures Held(CountLeak(c, true), resumed) == Held(c, resumed) + One(resumed)
  {
  }

  lemma ResumeFailsHeld(c: Cell, now: int, resumed: bool)
    requires InFlight(c, ResumeStored)
    ensures Held(Fail(c, now).(runner := None), resumed) == HeldWith(c, ResumeStored, resumed)
    ensures Held(Ended(Fail(c, now).(runner := None)).cell, resumed) == HeldWith(c, ResumeStored, resumed)
  {
  }

  lemma ReenterHeld(c: Cell, flow: Flow, resumed: bool)
    requires InFlight(c, ResumeStored)
    ensures Held(Reenter(c, flow), resumed)
         == HeldWith(c, ResumeStored, resumed) + One(resumed && !Terminal(c.record.state))
  {
    OwedAdd(c.live, c.next, TimeoutTimer, resumed);
    DriveHeld(AddTimeout(c.(handler := Some(flow)), c.remaining.Some?).(remaining := None),
              HandlerPending(flow, Resumed), resumed);
  }

  lemma ResumeStoredBalanced(c: Cell, registered: Option<Flow>, now: int, resumed: bool)
    requires InFlight(c, ResumeStored)
    ensures Balanced(c, ResumeStored, RunResumeStored(c, registered, now), resumed)
  {
    hide InFlight, Held, HeldWith, Reenter, Fail, Ended, CountLeak;
    ResumeFailsHeld(c, now, resumed);
    if c.handler.Some? {
      ReenterHeld(c, c.handler.value, resumed);
      LeakHeld(Reenter(c, c.handler.value), resumed);
    } else if registered.Some? {
      ReenterHeld(c, registered.value, resumed);
      LeakHeld(Reenter(c, registered.value), resumed);
    }
  }

  lemma TimeoutTimerBalanced(c: Cell, now: int, resumed: bool)
    requires InFlight(c, TimeoutTimer) && (Terminal(c.record.state) || HoldsSlot(c))
    ensures Balanced(c, TimeoutTimer, RunTimeoutTimer(c, now), resumed)
  {
    KillHeld(c, now, resumed);
  }

  lemma WaitTimerBalanced(c: Cell, now: int, resumed: bool)
    requires InFlight(c, WaitTimer)
    ensures Balanced(c, WaitTimer, Effect(RunWaitTimer(c, now), 0, false), resumed)
  {
    KillHeld(c, now, resumed);
  }

  lemma TriggerStoredBalanced(c: Cell, flow: Flow, room: bool, now: int, resumed: bool)
    requires InFlight(c, TriggerStored(flow)) && Chained(c.record)
    ensures Balanced(c, TriggerStored(flow), Start(c, flow, c.options.timeout, room, now), resumed)
  {
    StartBalanced(c, flow, c.options.timeout, room, now, resumed);
  }

  lemma RunStoredBalanced(c: Cell, flow: Flow, timeout: Option<int>, resumed: bool)
    requires InFlight(c, RunStored(flow, timeout))
    ensures Balanced(c, RunStored(flow, timeout), Effect(RunRunStored(c, flow, timeout), 0, false), resumed)
  {
    AddTimeoutHeld(c, timeout.GetOr(flow.timeout) > 0, HandlerPending(flow, Initial), resumed);
  }

  lemma CompleteStoredBalanced(c: Cell, kind: Kind, resumed: bool)
    requires InFlight(c, CompleteStored(kind))
    ensures Balanced(c, CompleteStored(kind), RunCompleteStored(c), resumed)
  {
  }

  lemma RetryRunStoredBalanced(c: Cell, flow: Flow, resumed: bool)
    requires InFlight(c, RetryRunStored(flow))
    ensures Balanced(c, RetryRunStored(flow), Effect(Drive(c, HandlerPending(flow, Retry)), 0, false), resumed)
  {
    DriveHeld(c, HandlerPending(flow, Retry), resumed);
  }

  lemma RunTaskBalanced(
    c: Cell, task: Task, outcome: Outcome, room: bool, registered: Option<Flow>, now: int, resumed: bool)
    requires InFlight(c, task) && Chained(c.record)
    requires task.TimeoutTimer? ==> Terminal(c.record.state) || HoldsSlot(c)
    ensures Balanced(c, task, RunTask(c, task, outcome, room, registered, now), resumed)
  {
    hide InFlight, Balanced, Chained, HoldsSlot, Drive;
    match task
    case TriggerStored(flow) => TriggerStoredBalanced(c, flow, room, now, resumed);
    case RunStored(flow, timeout) => RunStoredBalanced(c, flow, timeout, resumed);
    case HandlerPending(flow, kind) => HandlerBalanced(c, flow, kind, outcome, now, resumed);
    case OutputGuard(flow, kind) => OutputGuardBalanced(c, flow, kind, outcome, now, resumed);
    case CompleteStored(kind) => CompleteStoredBalanced(c, kind, resumed);
    case RetryStored(flow) => RetryStoredBalanced(c, flow, resumed);
    case RetryTimer(flow) => RetryTimerBalanced(c, flow, now, resumed);
    case RetryRunStored(flow) => RetryRunStoredBalanced(c, flow, resumed);
    case WaitStored(flow, kind) => WaitStoredBalanced(c, flow, kind, resumed);
    case ResumeStored => ResumeStoredBalanced(c, registered, now, resumed);
    case TimeoutTimer => TimeoutTimerBalanced(c, now, resumed);
    case WaitTimer => WaitTimerBalanced(c, now, resumed);
  }

  /** One task: what the execution holds of each origin changes by the effect on `activeExecutions`. */
  lemma RunLiveBalanced(
    c: Cell, h: Handle, outcome: Outcome, room: bool, registered: Option<Flow>, now: int, resumed: bool)
    requires CellOk(c) && Chained(c.record) && h in c.live
    ensures var e := RunLive(c, h, outcome, room, registered, now);
            && Held(e.cell, resumed) == Held(c, resumed) + (if resumed == Origin(c, c.live[h]) then e.slots else 0)
            && -1 <= e.slots <= 1
            && (e.slots > 0 ==> room || Origin(c, c.live[h]))
  {
    Begin(c, h);
    BeginHeld(c, h, resumed);
    RunTaskBalanced(c.(live := c.live - {h}), c.live[h], outcome, room, registered, now, resumed);
  }

  /** Cancelling a slot holder turns its slot into a leak. */
  lemma CancelBalanced(c: Cell, now: int, resumed: bool)
    requires CellOk(c)
    ensures Held(Cancel(c, now), resumed) == Held(c, resumed)
  {
    KillHeld(c, now, resumed);
  }

  lemma ResumeBalanced(c: Cell, now: int, resumed: bool)
    requires CellOk(c)
    ensures Held(Resume(c, now), resumed) == Held(c, resumed)
  {
    OwedRemove(c.live, Handles(c.waitTimer), resumed);
    MoveHeld(c.(live := c.live - Handles(c.waitTimer), waitTimer := None), ResumeStored, Running, now, resumed);
  }
}
