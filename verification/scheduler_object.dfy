/** The cron scheduler as an object: its map of schedules and their timers, changed on every tick. */
module SchedulerObject {
  import opened Wrappers
  import Rules = Scheduling
  import opened Scheduling

  class CronScheduler {
    var schedules: map<string, Entry>
    var timers: map<nat, Timer>
    var nextTimer: nat
    var ticking: map<nat, Tick>
    var nextTick: nat
    var now: int
    var shuttingDown: bool
    ghost var history: seq<Handled>

    ghost function View(): State
      reads this
    {
      State(schedules, timers, nextTimer, ticking, nextTick, now, shuttingDown, history)
    }

    constructor (now: int)
      ensures View() == Init(now)
    {
      schedules, timers, nextTimer, ticking, nextTick, this.now, shuttingDown := map[], map[], 0, map[], 0, now, false;
      history := [];
    }

    method SetTimeout(timer: Timer) returns (handle: nat)
      modifies `timers, `nextTimer
      ensures handle == old(nextTimer) && nextTimer == old(nextTimer) + 1 && timers == old(timers)[handle := timer]
    {
      handle := nextTimer;
      timers := timers[handle := timer];
      nextTimer := nextTimer + 1;
    }

    method ArmTimer(flow: string)
      requires flow in schedules
      modifies `schedules, `timers, `nextTimer
      ensures View() == Arm(old(View()), flow)
    {
      var delayMs := schedules[flow].next - now;
      var handle;
      if delayMs > MAX_TIMEOUT_MS {
        handle := SetTimeout(Timer(flow, false, REARM_INTERVAL_MS, now));
      } else {
        handle := SetTimeout(Timer(flow, true, if delayMs > 0 then delayMs else 0, now));
      }
      schedules := schedules[flow := schedules[flow].(timer := handle)];
    }

    /** False when the expression matches no later time; then nothing changes. */
    method AddSchedule(flow: string, cron: Cron, next: (Cron, int) -> Option<int>) returns (ok: bool)
      modifies this
      ensures View() == Add(old(View()), flow, cron, next)
      ensures ok <==> next(cron, old(now)).Some?
    {
      hide Arm;
      var nextRun := next(cron, now);
      if nextRun.None? {
        return false;
      }
      if flow in schedules {
        RemoveSchedule(flow);
      }
      schedules := schedules[flow := Entry(cron, nextRun.value, 0, now, [], false)];
      ArmTimer(flow);
      return true;
    }

    method RemoveSchedule(flow: string)
      modifies `timers, `schedules
      ensures View() == Remove(old(View()), flow)
    {
      if flow !in schedules {
        return;
      }
      timers := timers - {schedules[flow].timer};
      schedules := schedules - {flow};
    }

    method RecheckAndRearm(flow: string, next: (Cron, int) -> Option<int>)
      modifies `schedules, `timers, `nextTimer
      ensures View() == Recheck(old(View()), flow, next)
    {
      hide Arm;
      if shuttingDown || flow !in schedules {
        return;
      }
      var entry := schedules[flow];
      var nextRun := next(entry.cron, now);
      if nextRun.Some? {
        var late := entry.late || nextRun.value != entry.next;
        schedules := schedules[flow := entry.(next := nextRun.value, late := late)];
        ArmTimer(flow);
      } else {
        schedules := schedules[flow := entry.(late := true)];
      }
    }

    /** `onTick` up to its first await. */
    method OnTick(flow: string)
      modifies `ticking, `nextTick
      ensures View() == StartTick(old(View()), flow)
    {
      if shuttingDown || flow !in schedules {
        return;
      }
      ticking := ticking[nextTick := Tick(flow, schedules[flow].next)];
      nextTick := nextTick + 1;
    }

    method CalculateNextAndRearm(flow: string, next: (Cron, int) -> Option<int>)
      modifies `schedules, `timers, `nextTimer
      ensures View() == Rearm(old(View()), flow, next)
    {
      hide Arm;
      if shuttingDown || flow !in schedules {
        return;
      }
      var entry := schedules[flow];
      var nextRun := next(entry.cron, entry.next);
      if nextRun.Some? {
        schedules := schedules[flow := entry.(next := nextRun.value)];
        ArmTimer(flow);
      }
    }

    /** The rest of `onTick`, whether it fired, failed or was skipped. */
    method FinishTick(id: nat, outcome: Outcome, next: (Cron, int) -> Option<int>)
      requires id in ticking
      modifies this
      ensures View() == EndTick(old(View()), id, outcome, next)
    {
      hide Rearm, Visit;
      var tick := ticking[id];
      ticking := ticking - {id};
      history := history + [Handled(tick.flow, tick.time, outcome)];
      schedules := Visit(schedules, tick);
      CalculateNextAndRearm(tick.flow, next);
    }

    method TimerFires(timer: nat, next: (Cron, int) -> Option<int>)
      modifies this
      ensures View() == Fire(old(View()), timer, next)
    {
      hide Recheck, StartTick;
      if timer !in timers || now < timers[timer].armedAt + timers[timer].delay {
        return;
      }
      var t := timers[timer];
      timers := timers - {timer};
      if t.tick {
        OnTick(t.flow);
      } else {
        RecheckAndRearm(t.flow, next);
      }
    }

    method ClearTimeouts()
      modifies `timers
      ensures timers == old(timers) - TimersOfEntries(schedules)
    {
      hide TimersAmong, TimersOfEntries;
      var flows := schedules.Keys;
      ghost var before, done: set<string> := timers, {};
      NoTimers(schedules);
      while flows != {}
        invariant done == schedules.Keys - flows && flows <= schedules.Keys
        invariant timers == before - TimersAmong(schedules, done)
        decreases |flows|
      {
        var flow :| flow in flows;
        OneMoreTimer(schedules, done, flow, before);
        timers := timers - {schedules[flow].timer};
        flows := flows - {flow};
        done := done + {flow};
      }
      assert done == schedules.Keys;
      AllTimers(schedules);
    }

    method ShutDownAll()
      modifies this
      ensures View() == Shutdown(old(View()))
    {
      shuttingDown := true;
      ClearTimeouts();
      schedules := map[];
    }

    /** Whatever happens next to the scheduler: the object takes the step of the specification. */
    method Perform(step: Step, next: (Cron, int) -> Option<int>)
      modifies this
      ensures View() == Advance(old(View()), step, next)
    {
      hide Add, Remove, Fire, EndTick, Shutdown;
      now := now + step.elapsed;
      match step.event
      case AddSchedule(flow, cron) => var ok := AddSchedule(flow, cron, next);
      case RemoveSchedule(flow) => RemoveSchedule(flow);
      case TimerFires(timer) => TimerFires(timer, next);
      case TickEnds(id, outcome) => if id in ticking { FinishTick(id, outcome, next); }
      case ShutDown => ShutDownAll();
    }
  }

  function TimersAmong(schedules: map<string, Entry>, flows: set<string>): set<nat> {
    set flow | flow in flows && flow in schedules :: schedules[flow].timer
  }

  lemma NoTimers(schedules: map<string, Entry>)
    ensures TimersAmong(schedules, {}) == {}
  {
  }

  lemma AllTimers(schedules: map<string, Entry>)
    ensures TimersAmong(schedules, schedules.Keys) == TimersOfEntries(schedules)
  {
  }

  lemma OneMoreTimer(schedules: map<string, Entry>, done: set<string>, flow: string, timers: map<nat, Timer>)
    requires flow in schedules
    ensures timers - TimersAmong(schedules, done + {flow})
         == (timers - TimersAmong(schedules, done)) - {schedules[flow].timer}
  {
    assert TimersAmong(schedules, done + {flow}) == TimersAmong(schedules, done) + {schedules[flow].timer};
  }
}
