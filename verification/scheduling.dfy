/** The cron scheduler on values. Which times an expression matches is an input, and so is the function
    that finds the next of them; a timer may fire at any time from when it is due. */
module Scheduling {
  import opened Wrappers

  const MAX_TIMEOUT_MS := 2147483647
  const REARM_INTERVAL_MS := 12 * 60 * 60 * 1000

  /** An expression with its time zone. */
  type Cron = string

  /** `u` is the least match of the expression strictly after `t`. */
  ghost predicate IsNext(occurs: (Cron, int) -> bool, cron: Cron, t: int, u: int) {
    t < u && occurs(cron, u) && forall v :: t < v < u ==> !occurs(cron, v)
  }

  /** What is assumed of the cron library. */
  ghost predicate Finds(occurs: (Cron, int) -> bool, next: (Cron, int) -> Option<int>) {
    forall cron, t ::
      match next(cron, t)
      case Some(u) => IsNext(occurs, cron, t, u)
      case None => forall v :: v > t ==> !occurs(cron, v)
  }

  /** `registeredAt`, `visited` and `late` are history: when the schedule was made, the times whose ticks
      have ended, and whether a recheck came after the time it was armed for. */
  datatype Entry = Entry(
    cron: Cron,
    next: int,
    timer: nat,
    registeredAt: int,
    visited: seq<int>,
    late: bool)

  /** A live timer: a tick, or the recheck of a schedule that is too far away for one. */
  datatype Timer = Timer(flow: string, tick: bool, delay: int, armedAt: int)

  datatype Outcome = Fired | FailedToFire | SkippedForOverlap

  /** A tick between its start and its end, with the time it stands for. */
  datatype Tick = Tick(flow: string, time: int)

  datatype Handled = Handled(flow: string, time: int, outcome: Outcome)

  datatype State = State(
    schedules: map<string, Entry>,
    timers: map<nat, Timer>,
    nextTimer: nat,
    ticking: map<nat, Tick>,
    nextTick: nat,
    now: int,
    down: bool,
    history: seq<Handled>)

  function Init(now: int): State {
    State(map[], map[], 0, map[], 0, now, false, [])
  }

  function Max0(x: int): int {
    if x > 0 then x else 0
  }

  /** `armTimer` */
  function Arm(s: State, flow: string): State
    requires flow in s.schedules
  {
    var delay := s.schedules[flow].next - s.now;
    var timer := if delay > MAX_TIMEOUT_MS then Timer(flow, false, REARM_INTERVAL_MS, s.now)
                 else Timer(flow, true, Max0(delay), s.now);
    s.(schedules := s.schedules[flow := s.schedules[flow].(timer := s.nextTimer)],
       timers := s.timers[s.nextTimer := timer],
       nextTimer := s.nextTimer + 1)
  }

  /** Clears the timer the entry knows of. */
  function Remove(s: State, flow: string): State {
    if flow !in s.schedules then s
    else s.(timers := s.timers - {s.schedules[flow].timer}, schedules := s.schedules - {flow})
  }

  function Add(s: State, flow: string, cron: Cron, next: (Cron, int) -> Option<int>): State {
    match next(cron, s.now)
    case None => s
    case Some(first) =>
      var removed := Remove(s, flow);
      Arm(removed.(schedules := removed.schedules[flow := Entry(cron, first, 0, s.now, [], false)]), flow)
  }

  /** `recheckAndRearm`: the next time is computed from now. */
  function Recheck(s: State, flow: string, next: (Cron, int) -> Option<int>): State {
    if s.down || flow !in s.schedules then s
    else
      var entry := s.schedules[flow];
      match next(entry.cron, s.now)
      case None => s.(schedules := s.schedules[flow := entry.(late := true)])
      case Some(time) =>
        Arm(s.(schedules := s.schedules[flow := entry.(next := time, late := entry.late || time != entry.next)]), flow)
  }

  /** `onTick` up to its first await. */
  function StartTick(s: State, flow: string): State {
    if s.down || flow !in s.schedules then s
    else s.(ticking := s.ticking[s.nextTick := Tick(flow, s.schedules[flow].next)], nextTick := s.nextTick + 1)
  }

  /** `calculateNextAndRearm`: the next time is computed from the entry that is registered now. */
  function Rearm(s: State, flow: string, next: (Cron, int) -> Option<int>): State {
    if s.down || flow !in s.schedules then s
    else
      var entry := s.schedules[flow];
      match next(entry.cron, entry.next)
      case None => s
      case Some(time) => Arm(s.(schedules := s.schedules[flow := entry.(next := time)]), flow)
  }

  function Visit(schedules: map<string, Entry>, tick: Tick): map<string, Entry> {
    if tick.flow in schedules && schedules[tick.flow].next == tick.time
    then schedules[tick.flow := schedules[tick.flow].(visited := schedules[tick.flow].visited + [tick.time])]
    else schedules
  }

  /** The rest of `onTick`: whatever became of it, the schedule is armed again. */
  function EndTick(s: State, id: nat, outcome: Outcome, next: (Cron, int) -> Option<int>): State
    requires id in s.ticking
  {
    var tick := s.ticking[id];
    Rearm(s.(ticking := s.ticking - {id},
             schedules := Visit(s.schedules, tick),
             history := s.history + [Handled(tick.flow, tick.time, outcome)]), tick.flow, next)
  }

  function Due(s: State, timer: nat): bool {
    timer in s.timers && s.now >= s.timers[timer].armedAt + s.timers[timer].delay
  }

  function Fire(s: State, timer: nat, next: (Cron, int) -> Option<int>): State {
    if !Due(s, timer) then s
    else
      var fired := s.(timers := s.timers - {timer});
      if s.timers[timer].tick then StartTick(fired, s.timers[timer].flow)
      else Recheck(fired, s.timers[timer].flow, next)
  }

  function TimersOfEntries(schedules: map<string, Entry>): set<nat> {
    set flow | flow in schedules :: schedules[flow].timer
  }

  function Shutdown(s: State): State {
    s.(down := true, timers := s.timers - TimersOfEntries(s.schedules), schedules := map[])
  }

  datatype Event =
    | AddSchedule(flow: string, cron: Cron)
    | RemoveSchedule(flow: string)
    | TimerFires(timer: nat)
    | TickEnds(id: nat, outcome: Outcome)
    | ShutDown

  datatype Step = Step(elapsed: nat, event: Event)

  function Apply(s: State, e: Event, next: (Cron, int) -> Option<int>): State {
    match e
    case AddSchedule(flow, cron) => Add(s, flow, cron, next)
    case RemoveSchedule(flow) => Remove(s, flow)
    case TimerFires(timer) => Fire(s, timer, next)
    case TickEnds(id, outcome) => if id in s.ticking then EndTick(s, id, outcome, next) else s
    case ShutDown => Shutdown(s)
  }

  function Advance(s: State, step: Step, next: (Cron, int) -> Option<int>): State {
    Apply(s.(now := s.now + step.elapsed), step.event, next)
  }

  function After(start: int, steps: seq<Step>, next: (Cron, int) -> Option<int>): State {
    if steps == [] then Init(start) else Advance(After(start, steps[..|steps| - 1], next), steps[|steps| - 1], next)
  }

  // ---- Consequences of what is assumed ----

  /** From anywhere before the next match on, it is still the next match. */
  lemma NextStays(occurs: (Cron, int) -> bool, next: (Cron, int) -> Option<int>, cron: Cron, t: int, v: int)
    requires Finds(occurs, next) && next(cron, t).Some? && t <= v
    ensures v < next(cron, t).value ==> next(cron, v) == next(cron, t)
    ensures next(cron, v).Some? ==> next(cron, v).value > v
  {
    var u := next(cron, t).value;
    assert IsNext(occurs, cron, t, u);
    if next(cron, v).Some? {
      var x := next(cron, v).value;
      assert IsNext(occurs, cron, v, x);
      if v < u {
        assert x < u ==> !occurs(cron, x);
        assert u < x ==> !occurs(cron, u);
      }
    } else {
      assert forall x :: x > v ==> !occurs(cron, x);
    }
  }

  ghost predicate Fitting(timers: map<nat, Timer>) {
    forall h :: h in timers ==> 0 <= timers[h].delay <= MAX_TIMEOUT_MS
  }

  lemma ArmFits(s: State, flow: string)
    requires flow in s.schedules && Fitting(s.timers)
    ensures Fitting(Arm(s, flow).timers)
  {
  }

  lemma ApplyFits(s: State, e: Event, next: (Cron, int) -> Option<int>)
    requires Fitting(s.timers)
    ensures Fitting(Apply(s, e, next).timers)
  {
    hide Arm;
    match e
    case AddSchedule(flow, cron) =>
      if next(cron, s.now).Some? {
        var removed := Remove(s, flow);
        var e := Entry(cron, next(cron, s.now).value, 0, s.now, [], false);
        ArmFits(removed.(schedules := removed.schedules[flow := e]), flow);
      }
    case RemoveSchedule(flow) =>
    case TimerFires(timer) =>
      if Due(s, timer) { RecheckFits(s.(timers := s.timers - {timer}), s.timers[timer].flow, next); }
    case TickEnds(id, outcome) => if id in s.ticking { RearmFits(s, id, outcome, next); }
    case ShutDown =>
  }

  lemma RecheckFits(s: State, flow: string, next: (Cron, int) -> Option<int>)
    requires Fitting(s.timers)
    ensures Fitting(Recheck(s, flow, next).timers)
  {
    if !s.down && flow in s.schedules {
      var entry := s.schedules[flow];
      if next(entry.cron, s.now).Some? {
        var time := next(entry.cron, s.now).value;
        var late := entry.late || time != entry.next;
        ArmFits(s.(schedules := s.schedules[flow := entry.(next := time, late := late)]), flow);
      }
    }
    hide Arm;
  }

  lemma RearmFits(s: State, id: nat, outcome: Outcome, next: (Cron, int) -> Option<int>)
    requires id in s.ticking && Fitting(s.timers)
    ensures Fitting(EndTick(s, id, outcome, next).timers)
  {
    hide Arm, Visit;
    var tick := s.ticking[id];
    var ended := s.(ticking := s.ticking - {id}, schedules := Visit(s.schedules, tick),
                    history := s.history + [Handled(tick.flow, tick.time, outcome)]);
    if !ended.down && tick.flow in ended.schedules {
      var entry := ended.schedules[tick.flow];
      if next(entry.cron, entry.next).Some? {
        var moved := entry.(next := next(entry.cron, entry.next).value);
        ArmFits(ended.(schedules := ended.schedules[tick.flow := moved]), tick.flow);
      }
    }
  }

  lemma AdvanceFits(s: State, step: Step, next: (Cron, int) -> Option<int>)
    requires Fitting(s.timers)
    ensures Fitting(Advance(s, step, next).timers)
  {
    hide Apply, Fitting;
    ApplyFits(s.(now := s.now + step.elapsed), step.event, next);
  }

  /** Every armed delay is one the timer can hold. */
  lemma {:induction false} DelaysFit(start: int, steps: seq<Step>, next: (Cron, int) -> Option<int>)
    ensures Fitting(After(start, steps, next).timers)
  {
    if steps != [] {
      hide Advance, Fitting;
      DelaysFit(start, steps[..|steps| - 1], next);
      AdvanceFits(After(start, steps[..|steps| - 1], next), steps[|steps| - 1], next);
    } else {
      assert Fitting(Init(start).timers);
    }
  }

  /** A recheck leaves the next time alone exactly when it comes before that time. */
  lemma RecheckKeepsNext(
    occurs: (Cron, int) -> bool, next: (Cron, int) -> Option<int>, s: State, flow: string, since: int)
    requires Finds(occurs, next) && !s.down && flow in s.schedules && since <= s.now
    requires next(s.schedules[flow].cron, since) == Some(s.schedules[flow].next)
    requires next(s.schedules[flow].cron, s.now).Some?
    ensures flow in Recheck(s, flow, next).schedules
    ensures Recheck(s, flow, next).schedules[flow].next == s.schedules[flow].next <==> s.now < s.schedules[flow].next
  {
    NextStays(occurs, next, s.schedules[flow].cron, since, s.now);
    hide Finds;
  }

  /** An armed schedule comes due at its next time, or at once if that is past; one that is too far away for a
      timer is looked at again in twelve hours, before its time has come. */
  lemma ArmedOnTime(s: State, flow: string)
    requires flow in s.schedules
    ensures var t, next := Arm(s, flow), s.schedules[flow].next;
            var handle := t.schedules[flow].timer;
            && handle in t.timers && t.timers[handle].flow == flow && t.schedules[flow].next == next
            && var timer := t.timers[handle];
               var due := timer.armedAt + timer.delay;
               && (timer.tick <==> next - s.now <= 2147483647)
               && (timer.tick ==> due == if next >= s.now then next else s.now)
               && (!timer.tick ==> due == s.now + 43200000 < next)
  {
  }
}
