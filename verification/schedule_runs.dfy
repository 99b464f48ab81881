/** On every run in which no schedule is made while a tick of its flow is pending and the scheduler is up, the
    ticks of a flow go through the matches of its expression one after the other, each handled once and none
    early. Any such schedule can break that order. */
module ScheduleRuns {
  import opened Wrappers
  import opened Scheduling

  /** All that the state has of one flow. */
  datatype View = View(entry: Option<Entry>, timers: map<nat, Timer>, ticks: map<nat, Tick>, times: seq<int>)

  /** The times handled for a flow, in order. */
  function TimesOf(history: seq<Handled>, flow: string): seq<int> {
    if history == [] then []
    else
      var n := |history| - 1;
      TimesOf(history[..n], flow) + if history[n].flow == flow then [history[n].time] else []
  }

  function ViewOf(s: State, flow: string): View {
    View(if flow in s.schedules then Some(s.schedules[flow]) else None,
         map h | h in s.timers && s.timers[h].flow == flow :: s.timers[h],
         map k | k in s.ticking && s.ticking[k].flow == flow :: s.ticking[k],
         TimesOf(s.history, flow))
  }

  // ---- The invariant, on views ----

  /** Waiting for its one timer. */
  ghost predicate Armed(v: View) {
    && v.entry.Some?
    && v.timers.Keys == {v.entry.value.timer}
    && v.ticks == map[]
    && var t := v.timers[v.entry.value.timer];
       (t.tick ==> t.armedAt + t.delay >= v.entry.value.next)
  }

  /** In the middle of its one tick, which stands for the entry's next time. */
  ghost predicate InTick(v: View) {
    && v.entry.Some?
    && v.timers == map[]
    && (exists k :: v.ticks.Keys == {k} && v.ticks[k].time == v.entry.value.next)
  }

  /** Nothing will happen to it any more. */
  ghost predicate AtRest(v: View) {
    v.timers == map[] && v.ticks == map[]
  }

  /** A schedule was removed while its tick was pending. */
  ghost predicate Orphaned(v: View) {
    && v.entry.None?
    && v.timers == map[]
    && exists k :: v.ticks.Keys == {k}
  }

  predicate Rising(times: seq<int>) {
    forall i, j :: 0 <= i < j < |times| ==> times[i] < times[j]
  }

  predicate Above(time: int, times: seq<int>) {
    forall i :: 0 <= i < |times| ==> times[i] < time
  }

  /** The times handled rise and are past; those still to come are later. */
  ghost predicate Ordered(v: View, now: int) {
    && Rising(v.times)
    && (forall i :: 0 <= i < |v.times| ==> v.times[i] <= now)
    && (forall k :: k in v.ticks ==> v.ticks[k].time <= now && Above(v.ticks[k].time, v.times))
    && (Armed(v) ==> Above(v.entry.value.next, v.times))
  }

  /** From one match to the next, starting after `since`. */
  predicate Chain(next: (Cron, int) -> Option<int>, cron: Cron, since: int, times: seq<int>) {
    forall i :: 0 <= i < |times| ==> next(cron, Before(since, times, i)) == Some(times[i])
  }

  function Before(since: int, times: seq<int>, i: nat): int
    requires i <= |times|
  {
    if i == 0 then since else times[i - 1]
  }

  function LastOf(since: int, times: seq<int>): int {
    if times == [] then since else times[|times| - 1]
  }

  /** The ticks of this registration are the end of the flow's ticks; and unless a recheck was late they
      are consecutive matches, with the entry's next time the one after. */
  ghost predicate Consecutive(v: View, next: (Cron, int) -> Option<int>) {
    v.entry.Some? ==>
      var e := v.entry.value;
      && |e.visited| <= |v.times|
      && e.visited == v.times[|v.times| - |e.visited|..]
      && (!e.late ==>
            && Chain(next, e.cron, e.registeredAt, e.visited)
            && (Armed(v) || InTick(v) ==> next(e.cron, LastOf(e.registeredAt, e.visited)) == Some(e.next))
            && (AtRest(v) ==> e.visited != [] && next(e.cron, LastOf(e.registeredAt, e.visited)) == None))
  }

  ghost predicate Good(v: View, now: int, next: (Cron, int) -> Option<int>) {
    && (Armed(v) || InTick(v) || AtRest(v) || Orphaned(v))
    && Ordered(v, now)
    && Consecutive(v, next)
  }

  /** The handle an entry keeps is not another flow's. */
  predicate OwnHandle(s: State, flow: string) {
    flow in s.schedules ==>
      && s.schedules[flow].timer < s.nextTimer
      && (s.schedules[flow].timer in s.timers ==> s.timers[s.schedules[flow].timer].flow == flow)
  }

  ghost predicate HandlesUsed(s: State) {
    && (forall h :: h in s.timers ==> h < s.nextTimer)
    && (forall k :: k in s.ticking ==> k < s.nextTick)
    && (s.down ==> s.schedules == map[])
  }

  ghost predicate OwnHandles(s: State) {
    forall flow :: flow in s.schedules ==> OwnHandle(s, flow)
  }

  // ---- What an operation does to a view ----

  lemma TimesAppend(history: seq<Handled>, h: Handled, flow: string)
    ensures TimesOf(history + [h], flow) == TimesOf(history, flow) + if h.flow == flow then [h.time] else []
  {
    assert (history + [h])[..|history|] == history;
  }

  /** The view of a flow that has just been armed. */
  function ArmedView(v: View, e: Entry, handle: nat, flow: string, now: int): View {
    var delay := e.next - now;
    var timer := if delay > MAX_TIMEOUT_MS then Timer(flow, false, REARM_INTERVAL_MS, now)
                 else Timer(flow, true, Max0(delay), now);
    v.(entry := Some(e.(timer := handle)), timers := v.timers[handle := timer])
  }

  lemma ArmView(s: State, flow: string, g: string)
    requires flow in s.schedules && HandlesUsed(s)
    ensures ViewOf(Arm(s, flow), g)
         == if g == flow then ArmedView(ViewOf(s, g), s.schedules[g], s.nextTimer, flow, s.now) else ViewOf(s, g)
  {
    hide TimesOf;
    var v, v' := ViewOf(s, g), ViewOf(Arm(s, flow), g);
    assert v'.timers == if g == flow then ArmedView(v, s.schedules[g], s.nextTimer, flow, s.now).timers else v.timers;
    assert v'.ticks == v.ticks;
  }

  lemma ArmHandles(s: State, flow: string)
    requires flow in s.schedules && HandlesUsed(s)
    requires forall g :: g in s.schedules && g != flow ==> OwnHandle(s, g)
    ensures HandlesUsed(Arm(s, flow)) && OwnHandles(Arm(s, flow)) && Arm(s, flow).now == s.now
  {
    var s' := Arm(s, flow);
    forall g | g in s'.schedules ensures OwnHandle(s', g) {
      if g != flow { assert OwnHandle(s, g); }
    }
  }

  lemma RemoveView(s: State, flow: string, g: string)
    requires HandlesUsed(s) && OwnHandle(s, flow)
    ensures ViewOf(Remove(s, flow), g)
         == if g == flow && flow in s.schedules
            then ViewOf(s, g).(entry := None, timers := ViewOf(s, g).timers - {s.schedules[flow].timer})
            else ViewOf(s, g)
    ensures HandlesUsed(Remove(s, flow)) && Remove(s, flow).now == s.now
  {
    hide TimesOf;
    if flow in s.schedules {
      var v, v' := ViewOf(s, g), ViewOf(Remove(s, flow), g);
      assert v'.timers == if g == flow then v.timers - {s.schedules[flow].timer} else v.timers;
      assert v'.ticks == v.ticks;
    }
  }

  lemma RemoveHandles(s: State, flow: string)
    requires OwnHandles(s)
    ensures OwnHandles(Remove(s, flow))
  {
    var s' := Remove(s, flow);
    forall g | g in s'.schedules ensures OwnHandle(s', g) { assert OwnHandle(s, g); }
  }

  /** A view that has no more timers than the entry's own, and no entry any more. */
  lemma RemovedGood(v: View, now: int, next: (Cron, int) -> Option<int>)
    requires Good(v, now, next) && v.entry.Some?
    ensures var removed := v.(entry := None, timers := v.timers - {v.entry.value.timer});
            Good(removed, now, next) && removed.timers == map[]
  {
    var removed := v.(entry := None, timers := v.timers - {v.entry.value.timer});
    assert removed.timers == map[];
    if InTick(v) {
      var k :| v.ticks.Keys == {k} && v.ticks[k].time == v.entry.value.next;
      assert Orphaned(removed);
    } else {
      assert AtRest(removed);
    }
    assert !Armed(removed);
  }

  lemma RemoveGood(s: State, flow: string, g: string, next: (Cron, int) -> Option<int>)
    requires HandlesUsed(s) && OwnHandles(s) && Good(ViewOf(s, g), s.now, next)
    ensures HandlesUsed(Remove(s, flow)) && OwnHandles(Remove(s, flow))
    ensures Good(ViewOf(Remove(s, flow), g), s.now, next)
    ensures g == flow ==> ViewOf(Remove(s, flow), g).timers == map[] || flow !in s.schedules
  {
    hide Good, Remove, ViewOf, HandlesUsed, OwnHandle;
    if flow in s.schedules { assert OwnHandle(s, flow); } else { NoOwnHandle(s, flow); }
    RemoveView(s, flow, g);
    RemoveHandles(s, flow);
    ViewEntry(s, g);
    if flow in s.schedules && g == flow { RemovedGood(ViewOf(s, g), s.now, next); }
  }

  lemma NoOwnHandle(s: State, flow: string)
    requires flow !in s.schedules
    ensures OwnHandle(s, flow)
  {
  }

  lemma ViewEntry(s: State, g: string)
    ensures ViewOf(s, g).entry == if g in s.schedules then Some(s.schedules[g]) else None
  {
  }

  /** Without an entry there are no timers. */
  lemma NoEntryNoTimers(v: View, now: int, next: (Cron, int) -> Option<int>)
    requires Good(v, now, next) && v.entry.None?
    ensures v.timers == map[] && !Armed(v)
  {
  }

  /** A newly armed entry whose next time is after everything handled. */
  lemma ArmGood(v: View, e: Entry, handle: nat, flow: string, now: int, next: (Cron, int) -> Option<int>)
    requires v.timers == map[] && v.ticks == map[]
    requires Rising(v.times) && (forall i :: 0 <= i < |v.times| ==> v.times[i] <= now)
    requires Above(e.next, v.times)
    requires |e.visited| <= |v.times| && e.visited == v.times[|v.times| - |e.visited|..]
    requires !e.late ==> Chain(next, e.cron, e.registeredAt, e.visited)
                         && next(e.cron, LastOf(e.registeredAt, e.visited)) == Some(e.next)
    ensures Good(ArmedView(v, e, handle, flow, now), now, next)
  {
    var after := ArmedView(v, e, handle, flow, now);
    assert after.timers.Keys == {handle};
    assert Armed(after) && !AtRest(after);
  }

  // ---- Every event ----

  ghost predicate Kept(s: State, g: string, next: (Cron, int) -> Option<int>) {
    HandlesUsed(s) && OwnHandles(s) && Good(ViewOf(s, g), s.now, next)
  }

  /** The state in which a new schedule is armed. */
  function Enter(s: State, flow: string, e: Entry): State {
    s.(schedules := s.schedules[flow := e])
  }

  lemma EnterView(s: State, flow: string, e: Entry, g: string)
    ensures ViewOf(Enter(s, flow, e), g) == if g == flow then ViewOf(s, g).(entry := Some(e)) else ViewOf(s, g)
  {
    hide TimesOf;
  }

  lemma EnterHandles(s: State, flow: string, e: Entry)
    requires HandlesUsed(s) && OwnHandles(s) && !s.down
    ensures HandlesUsed(Enter(s, flow, e))
    ensures forall g :: g in s.schedules && g != flow ==> OwnHandle(Enter(s, flow, e), g)
  {
    forall g | g in s.schedules && g != flow ensures OwnHandle(Enter(s, flow, e), g) { assert OwnHandle(s, g); }
  }

  /** Entering and arming, for the flow itself or beside another one. */
  lemma EnterAndArm(s: State, flow: string, e: Entry, g: string, next: (Cron, int) -> Option<int>)
    requires HandlesUsed(s) && OwnHandles(s) && !s.down
    requires g != flow ==> Good(ViewOf(s, g), s.now, next)
    requires g == flow ==> Good(ArmedView(ViewOf(s, g), e, s.nextTimer, flow, s.now), s.now, next)
    ensures Kept(Arm(Enter(s, flow, e), flow), g, next)
  {
    hide Good, ViewOf, HandlesUsed, OwnHandle, Arm, ArmedView;
    var entered := Enter(s, flow, e);
    EnterView(s, flow, e, g);
    EnterHandles(s, flow, e);
    ArmView(entered, flow, g);
    ArmHandles(entered, flow);
    if g == flow { ArmedAgain(ViewOf(s, g), Some(e), e, s.nextTimer, flow, s.now); }
  }

  lemma ArmedAgain(v: View, entry: Option<Entry>, e: Entry, handle: nat, flow: string, now: int)
    ensures ArmedView(v.(entry := entry), e, handle, flow, now) == ArmedView(v, e, handle, flow, now)
  {
  }

  lemma OrderedTimes(v: View, now: int, next: (Cron, int) -> Option<int>)
    requires Good(v, now, next)
    ensures Rising(v.times) && forall i :: 0 <= i < |v.times| ==> v.times[i] <= now
  {
  }

  lemma FindsLater(occurs: (Cron, int) -> bool, next: (Cron, int) -> Option<int>, cron: Cron, t: int)
    requires Finds(occurs, next) && next(cron, t).Some?
    ensures next(cron, t).value > t
  {
    assert IsNext(occurs, cron, t, next(cron, t).value);
  }

  lemma AddGood(
    occurs: (Cron, int) -> bool, next: (Cron, int) -> Option<int>, s: State, flow: string, cron: Cron, g: string)
    requires Finds(occurs, next) && Kept(s, g, next) && !s.down
    requires g == flow ==> ViewOf(s, g).ticks == map[]
    ensures Kept(Add(s, flow, cron, next), g, next)
  {
    hide Finds, Good, HandlesUsed, OwnHandles, ViewOf, Remove, Arm;
    if next(cron, s.now).Some? {
      FindsLater(occurs, next, cron, s.now);
      RemoveGood(s, flow, g, next);
      var removed := Remove(s, flow);
      RemovedRest(s, flow);
      var e := Entry(cron, next(cron, s.now).value, 0, s.now, [], false);
      if g == flow {
        ViewEntry(removed, g);
        NoEntryNoTimers(ViewOf(removed, g), s.now, next);
        RemovedTicks(s, flow);
        OrderedTimes(ViewOf(removed, g), s.now, next);
        ArmGood(ViewOf(removed, g), e, removed.nextTimer, flow, s.now, next);
      }
      EnterAndArm(removed, flow, e, g, next);
    }
  }

  lemma RemovedRest(s: State, flow: string)
    ensures var r := Remove(s, flow); r.now == s.now && r.down == s.down && flow !in r.schedules
  {
  }

  lemma RemovedTicks(s: State, flow: string)
    ensures ViewOf(Remove(s, flow), flow).ticks == ViewOf(s, flow).ticks
  {
  }

  // ---- A timer fires ----

  lemma FiredView(s: State, timer: nat, g: string)
    requires timer in s.timers
    ensures var fired := s.(timers := s.timers - {timer});
            ViewOf(fired, g) == ViewOf(s, g).(timers := ViewOf(s, g).timers - {timer})
    ensures s.timers[timer].flow == g ==> timer in ViewOf(s, g).timers && ViewOf(s, g).timers[timer] == s.timers[timer]
    ensures s.timers[timer].flow != g ==> ViewOf(s.(timers := s.timers - {timer}), g) == ViewOf(s, g)
  {
    hide TimesOf;
  }

  lemma FiredHandles(s: State, timer: nat)
    requires HandlesUsed(s) && OwnHandles(s)
    ensures HandlesUsed(s.(timers := s.timers - {timer})) && OwnHandles(s.(timers := s.timers - {timer}))
  {
    var fired := s.(timers := s.timers - {timer});
    forall g | g in fired.schedules ensures OwnHandle(fired, g) { assert OwnHandle(s, g); }
  }

  /** A flow with a live timer is armed with that timer. */
  lemma TimerMeansArmed(v: View, timer: nat, now: int, next: (Cron, int) -> Option<int>)
    requires Good(v, now, next) && timer in v.timers
    ensures Armed(v) && v.entry.value.timer == timer && v.timers - {timer} == map[] && v.ticks == map[]
  {
    assert Armed(v);
  }

  lemma StartView(s: State, flow: string, g: string)
    requires HandlesUsed(s) && flow in s.schedules && !s.down
    ensures ViewOf(StartTick(s, flow), g)
         == if g == flow
            then ViewOf(s, g).(ticks := ViewOf(s, g).ticks[s.nextTick := Tick(flow, s.schedules[flow].next)])
            else ViewOf(s, g)
    ensures HandlesUsed(StartTick(s, flow))
  {
    hide TimesOf;
    var v, v' := ViewOf(s, g), ViewOf(StartTick(s, flow), g);
    assert v'.ticks == if g == flow then v.ticks[s.nextTick := Tick(flow, s.schedules[flow].next)] else v.ticks;
    assert v'.timers == v.timers;
  }

  lemma StartHandles(s: State, flow: string)
    requires OwnHandles(s)
    ensures OwnHandles(StartTick(s, flow)) && StartTick(s, flow).now == s.now
  {
    var s' := StartTick(s, flow);
    forall g | g in s'.schedules ensures OwnHandle(s', g) { assert OwnHandle(s, g); }
  }

  /** The timer of an armed flow fires when its time has come: the flow is in a tick of that time. */
  lemma TickGood(v: View, tick: nat, flow: string, now: int, next: (Cron, int) -> Option<int>)
    requires Good(v, now, next) && Armed(v)
    requires var t := v.timers[v.entry.value.timer]; t.tick && now >= t.armedAt + t.delay
    ensures Good(v.(timers := map[], ticks := map[tick := Tick(flow, v.entry.value.next)]), now, next)
  {
    hide Chain, LastOf, Rising, Above;
    var after := v.(timers := map[], ticks := map[tick := Tick(flow, v.entry.value.next)]);
    assert after.ticks.Keys == {tick};
    assert InTick(after) && !Armed(after) && !AtRest(after);
  }

  lemma FireTickGood(s: State, timer: nat, g: string, next: (Cron, int) -> Option<int>)
    requires Kept(s, g, next) && Due(s, timer) && s.timers[timer].tick
    ensures Kept(Fire(s, timer, next), g, next)
  {
    hide Good, HandlesUsed, OwnHandles, ViewOf, StartTick, Armed;
    var flow, fired := s.timers[timer].flow, s.(timers := s.timers - {timer});
    FiredView(s, timer, g);
    FiredHandles(s, timer);
    if !s.down && flow in s.schedules {
      StartView(fired, flow, g);
      StartHandles(fired, flow);
      if g == flow {
        TimerMeansArmed(ViewOf(s, g), timer, s.now, next);
        ViewEntry(s, g);
        TickGood(ViewOf(s, g), fired.nextTick, flow, s.now, next);
      }
    } else {
      NotStarted(fired, flow);
      DownMeansNone(s);
      if g == flow {
        TimerMeansArmed(ViewOf(s, g), timer, s.now, next);
        ArmedHasEntry(s, g);
      }
    }
  }

  lemma NotStarted(s: State, flow: string)
    requires s.down || flow !in s.schedules
    ensures StartTick(s, flow) == s
  {
  }

  lemma DownMeansNone(s: State)
    requires HandlesUsed(s)
    ensures s.down ==> s.schedules == map[]
  {
  }

  lemma ArmedHasEntry(s: State, g: string)
    requires Armed(ViewOf(s, g))
    ensures g in s.schedules
  {
  }

  // ---- A recheck ----

  function Rechecked(e: Entry, time: int): Entry {
    e.(next := time, late := e.late || time != e.next)
  }

  lemma RearmedGood(
    v: View, time: int, handle: nat, flow: string, now: int, next: (Cron, int) -> Option<int>)
    requires Good(v, now, next) && Armed(v) && time > now
    requires next(v.entry.value.cron, now) == Some(time)
    ensures Good(ArmedView(v.(timers := map[]), Rechecked(v.entry.value, time), handle, flow, now), now, next)
  {
    var e := v.entry.value;
    assert v.ticks == map[] && !AtRest(v);
    ArmGood(v.(timers := map[]), Rechecked(e, time), handle, flow, now, next);
  }

  lemma GivenUpGood(v: View, now: int, next: (Cron, int) -> Option<int>)
    requires Good(v, now, next) && Armed(v)
    ensures Good(v.(timers := map[], entry := Some(v.entry.value.(late := true))), now, next)
  {
    var after := v.(timers := map[], entry := Some(v.entry.value.(late := true)));
    assert AtRest(after) && !Armed(after);
  }

  lemma FireRecheckGood(
    occurs: (Cron, int) -> bool, next: (Cron, int) -> Option<int>, s: State, timer: nat, g: string)
    requires Finds(occurs, next) && Kept(s, g, next) && Due(s, timer) && !s.timers[timer].tick
    ensures Kept(Fire(s, timer, next), g, next)
  {
    hide Finds, Good, HandlesUsed, OwnHandles, ViewOf, Armed, Arm, ArmedView, Enter;
    var flow, fired := s.timers[timer].flow, s.(timers := s.timers - {timer});
    FiredView(s, timer, g);
    FiredHandles(s, timer);
    ViewEntry(s, g);
    DownMeansNone(s);
    if g == flow {
      TimerMeansArmed(ViewOf(s, g), timer, s.now, next);
      ArmedHasEntry(s, g);
    }
    if !s.down && flow in s.schedules {
      var e := s.schedules[flow];
      if next(e.cron, s.now).Some? {
        var time := next(e.cron, s.now).value;
        FindsLater(occurs, next, e.cron, s.now);
        if g == flow { RearmedGood(ViewOf(s, g), time, fired.nextTimer, flow, s.now, next); }
        EnterAndArm(fired, flow, Rechecked(e, time), g, next);
        EnterIs(fired, flow, Rechecked(e, time));
      } else {
        EnterView(fired, flow, e.(late := true), g);
        LateHandles(fired, flow);
        EnterIs(fired, flow, e.(late := true));
        if g == flow { GivenUpGood(ViewOf(s, g), s.now, next); }
      }
    }
  }

  lemma EnterIs(s: State, flow: string, e: Entry)
    ensures Enter(s, flow, e) == s.(schedules := s.schedules[flow := e])
  {
  }

  lemma LateHandles(s: State, flow: string)
    requires flow in s.schedules && HandlesUsed(s) && OwnHandles(s) && !s.down
    ensures HandlesUsed(Enter(s, flow, s.schedules[flow].(late := true)))
    ensures OwnHandles(Enter(s, flow, s.schedules[flow].(late := true)))
  {
    var s' := Enter(s, flow, s.schedules[flow].(late := true));
    forall g | g in s'.schedules ensures OwnHandle(s', g) { assert OwnHandle(s, g); }
  }

  // ---- A tick ends ----

  /** The state before the schedule is armed again. */
  function Ended(s: State, id: nat, outcome: Outcome): State
    requires id in s.ticking
  {
    var tick := s.ticking[id];
    s.(ticking := s.ticking - {id},
       schedules := Visit(s.schedules, tick),
       history := s.history + [Handled(tick.flow, tick.time, outcome)])
  }

  function Visited(entry: Option<Entry>, time: int): Option<Entry> {
    if entry.Some? && entry.value.next == time then Some(entry.value.(visited := entry.value.visited + [time]))
    else entry
  }

  lemma EndedView(s: State, id: nat, outcome: Outcome, g: string)
    requires id in s.ticking
    ensures var v, tick := ViewOf(s, g), s.ticking[id];
            ViewOf(Ended(s, id, outcome), g)
            == if g == tick.flow
               then v.(ticks := v.ticks - {id}, times := v.times + [tick.time], entry := Visited(v.entry, tick.time))
               else v
    ensures s.ticking[id].flow == g ==> id in ViewOf(s, g).ticks && ViewOf(s, g).ticks[id] == s.ticking[id]
  {
    var v, v', tick := ViewOf(s, g), ViewOf(Ended(s, id, outcome), g), s.ticking[id];
    TimesAppend(s.history, Handled(tick.flow, tick.time, outcome), g);
    hide TimesOf;
    assert v'.ticks == if g == tick.flow then v.ticks - {id} else v.ticks;
    assert v'.timers == v.timers;
    assert g != tick.flow ==> v.times + [] == v.times;
  }

  lemma EndedHandles(s: State, id: nat, outcome: Outcome)
    requires id in s.ticking && HandlesUsed(s) && OwnHandles(s)
    ensures HandlesUsed(Ended(s, id, outcome)) && OwnHandles(Ended(s, id, outcome))
  {
    var s' := Ended(s, id, outcome);
    forall g | g in s'.schedules ensures OwnHandle(s', g) { assert OwnHandle(s, g); }
  }

  /** A flow with a pending tick is in that tick, or has lost its schedule meanwhile. */
  lemma TickMeansBusy(v: View, id: nat, now: int, next: (Cron, int) -> Option<int>)
    requires Good(v, now, next) && id in v.ticks
    ensures v.ticks - {id} == map[] && v.timers == map[] && v.ticks[id].time <= now && Above(v.ticks[id].time, v.times)
    ensures InTick(v) || Orphaned(v)
    ensures v.entry.Some? ==> InTick(v) && v.ticks[id].time == v.entry.value.next
    ensures v.entry.None? ==> Orphaned(v)
  {
    if InTick(v) {
      var k :| v.ticks.Keys == {k} && v.ticks[k].time == v.entry.value.next;
      assert id == k;
    } else if Orphaned(v) {
      var k :| v.ticks.Keys == {k};
      assert id == k;
    }
  }

  /** The view once a tick of `time` has ended. */
  function EndView(v: View, time: int): View {
    v.(ticks := map[], times := v.times + [time], entry := Visited(v.entry, time))
  }

  lemma RisingAppend(times: seq<int>, time: int, now: int)
    requires Rising(times) && Above(time, times) && time <= now && forall i :: 0 <= i < |times| ==> times[i] <= now
    ensures Rising(times + [time]) && forall i :: 0 <= i < |times| + 1 ==> (times + [time])[i] <= now
  {
  }

  lemma VisitedSuffix(visited: seq<int>, times: seq<int>, time: int)
    requires |visited| <= |times| && visited == times[|times| - |visited|..]
    ensures visited + [time] == (times + [time])[|times| - |visited|..]
  {
  }

  lemma ChainAppend(next: (Cron, int) -> Option<int>, cron: Cron, since: int, times: seq<int>, time: int)
    requires Chain(next, cron, since, times) && next(cron, LastOf(since, times)) == Some(time)
    ensures Chain(next, cron, since, times + [time])
    ensures LastOf(since, times + [time]) == time
  {
    var more := times + [time];
    forall i | 0 <= i < |more| ensures next(cron, Before(since, more, i)) == Some(more[i]) {
      if i < |times| { assert Before(since, more, i) == Before(since, times, i); }
    }
  }

  /** The chain of an entry in its tick, when the tick has ended. */
  lemma EndedChain(v: View, next: (Cron, int) -> Option<int>)
    requires Consecutive(v, next) && InTick(v)
    ensures var e := v.entry.value;
            !e.late ==> Chain(next, e.cron, e.registeredAt, e.visited + [e.next])
                        && LastOf(e.registeredAt, e.visited + [e.next]) == e.next
  {
    var e := v.entry.value;
    if !e.late { ChainAppend(next, e.cron, e.registeredAt, e.visited, e.next); }
    hide InTick, Chain, LastOf;
  }

  /** There is no next match: the schedule is at rest. */
  lemma LastTickGood(v: View, time: int, now: int, next: (Cron, int) -> Option<int>)
    requires Good(v, now, next) && InTick(v) && time == v.entry.value.next <= now && Above(time, v.times)
    requires next(v.entry.value.cron, time) == None
    ensures Good(EndView(v, time), now, next)
  {
    hide Chain, LastOf, Rising, Above;
    var after := EndView(v, time);
    RisingAppend(v.times, time, now);
    VisitedSuffix(v.entry.value.visited, v.times, time);
    EndedChain(v, next);
    assert AtRest(after) && !Armed(after) && !InTick(after);
  }

  lemma OrphanEndsGood(v: View, time: int, now: int, next: (Cron, int) -> Option<int>)
    requires Good(v, now, next) && Orphaned(v) && time <= now && Above(time, v.times)
    ensures Good(EndView(v, time), now, next)
  {
    RisingAppend(v.times, time, now);
    assert AtRest(EndView(v, time)) && !Armed(EndView(v, time));
  }

  /** There is a next match: the schedule is armed for it. */
  lemma NextTickGood(
    v: View, time: int, then_: int, handle: nat, flow: string, now: int, next: (Cron, int) -> Option<int>)
    requires Good(v, now, next) && InTick(v) && time == v.entry.value.next <= now && Above(time, v.times)
    requires next(v.entry.value.cron, time) == Some(then_) && then_ > time
    ensures Good(ArmedView(EndView(v, time), Visited(v.entry, time).value.(next := then_), handle, flow, now),
                 now, next)
  {
    hide Chain, LastOf, Rising, InTick, Armed;
    InTickNoTimers(v);
    RisingAppend(v.times, time, now);
    VisitedSuffix(v.entry.value.visited, v.times, time);
    EndedChain(v, next);
    AboveAppend(then_, time, v.times);
    ArmGood(EndView(v, time), Visited(v.entry, time).value.(next := then_), handle, flow, now, next);
  }

  lemma InTickNoTimers(v: View)
    requires InTick(v)
    ensures v.entry.Some? && v.timers == map[]
  {
  }

  lemma AboveAppend(later: int, time: int, times: seq<int>)
    requires Above(time, times) && later > time
    ensures Above(later, times + [time])
  {
  }

  lemma EndOwnGood(
    occurs: (Cron, int) -> bool, next: (Cron, int) -> Option<int>, s: State, id: nat, outcome: Outcome, g: string)
    requires Finds(occurs, next) && Kept(s, g, next) && id in s.ticking && s.ticking[id].flow == g
    ensures Kept(EndTick(s, id, outcome, next), g, next)
  {
    hide Finds, Good, HandlesUsed, OwnHandles, ViewOf, Arm, ArmedView, Enter, Ended, InTick, Orphaned;
    var v, time := ViewOf(s, g), s.ticking[id].time;
    EndedView(s, id, outcome, g);
    EndedHandles(s, id, outcome);
    TickMeansBusy(v, id, s.now, next);
    var ended := Ended(s, id, outcome);
    EndedRest(s, id, outcome);
    ViewEntry(s, g);
    ViewEntry(ended, g);
    DownMeansNone(s);
    EndTickIs(s, id, outcome, next);
    if g in s.schedules {
      var e := s.schedules[g];
      if next(e.cron, e.next).Some? {
        FindsLater(occurs, next, e.cron, e.next);
        var after := Visited(Some(e), time).value.(next := next(e.cron, e.next).value);
        NextTickGood(v, time, next(e.cron, e.next).value, ended.nextTimer, g, s.now, next);
        EnterAndArm(ended, g, after, g, next);
        EnterIs(ended, g, after);
      } else {
        LastTickGood(v, time, s.now, next);
      }
    } else {
      OrphanEndsGood(v, time, s.now, next);
    }
  }

  lemma EndedRest(s: State, id: nat, outcome: Outcome)
    requires id in s.ticking
    ensures var e := Ended(s, id, outcome);
            e.now == s.now && e.down == s.down && e.schedules.Keys == s.schedules.Keys && e.nextTimer == s.nextTimer
            && forall g :: g in s.schedules && g != s.ticking[id].flow ==> e.schedules[g] == s.schedules[g]
  {
  }

  lemma EndTickIs(s: State, id: nat, outcome: Outcome, next: (Cron, int) -> Option<int>)
    requires id in s.ticking
    ensures EndTick(s, id, outcome, next) == Rearm(Ended(s, id, outcome), s.ticking[id].flow, next)
  {
    hide Rearm;
  }

  lemma EndOtherGood(s: State, id: nat, outcome: Outcome, g: string, next: (Cron, int) -> Option<int>)
    requires Kept(s, g, next) && id in s.ticking && s.ticking[id].flow != g
    ensures Kept(EndTick(s, id, outcome, next), g, next)
  {
    hide Good, HandlesUsed, OwnHandles, ViewOf, Arm, ArmedView, Enter, Ended;
    EndedView(s, id, outcome, g);
    EndedHandles(s, id, outcome);
    EndTickIs(s, id, outcome, next);
    EndedRest(s, id, outcome);
    var ended, flow := Ended(s, id, outcome), s.ticking[id].flow;
    if !ended.down && flow in ended.schedules {
      var e := ended.schedules[flow];
      if next(e.cron, e.next).Some? {
        EnterAndArm(ended, flow, e.(next := next(e.cron, e.next).value), g, next);
        EnterIs(ended, flow, e.(next := next(e.cron, e.next).value));
      }
    }
  }

  // ---- Shutdown ----

  lemma ShutdownView(s: State, g: string)
    requires ViewOf(s, g).timers == map[] || Armed(ViewOf(s, g))
    ensures ViewOf(Shutdown(s), g) == View(None, map[], ViewOf(s, g).ticks, ViewOf(s, g).times)
  {
    hide TimesOf;
    var v, v' := ViewOf(s, g), ViewOf(Shutdown(s), g);
    assert g in s.schedules ==> s.schedules[g].timer in TimersOfEntries(s.schedules);
    assert forall h :: h in v'.timers ==> h in v.timers;
    assert v'.timers.Keys == {};
    assert v'.ticks == v.ticks;
  }

  lemma ShutGood(v: View, now: int, next: (Cron, int) -> Option<int>)
    requires Good(v, now, next)
    ensures v.timers == map[] || Armed(v)
    ensures Good(View(None, map[], v.ticks, v.times), now, next)
  {
    var after := View(None, map[], v.ticks, v.times);
    if InTick(v) {
      var k :| v.ticks.Keys == {k} && v.ticks[k].time == v.entry.value.next;
      assert Orphaned(after);
    }
    assert Armed(v) ==> AtRest(after);
    assert !Armed(after);
  }

  lemma ShutdownGood(s: State, g: string, next: (Cron, int) -> Option<int>)
    requires Kept(s, g, next)
    ensures Kept(Shutdown(s), g, next)
  {
    hide Good, ViewOf, Armed;
    ShutGood(ViewOf(s, g), s.now, next);
    ShutdownView(s, g);
  }

  // ---- Runs ----

  lemma ClockGood(s: State, elapsed: nat, g: string, next: (Cron, int) -> Option<int>)
    requires Kept(s, g, next)
    ensures Kept(s.(now := s.now + elapsed), g, next)
  {
    var later := s.(now := s.now + elapsed);
    assert ViewOf(later, g) == ViewOf(s, g);
    forall h | h in later.schedules ensures OwnHandle(later, h) { assert OwnHandle(s, h); }
    hide ViewOf, Consecutive, Armed, InTick, AtRest, Orphaned;
  }

  /** No schedule of the flow is made while a tick of it is pending. After shutdown it may be, and an
      expression that never matches again makes none. */
  predicate Calm(s: State, e: Event, g: string, next: (Cron, int) -> Option<int>) {
    e.AddSchedule? && e.flow == g && next(e.cron, s.now).Some? && !s.down ==>
      forall k :: k in s.ticking ==> s.ticking[k].flow != g
  }

  lemma ApplyGood(
    occurs: (Cron, int) -> bool, next: (Cron, int) -> Option<int>, s: State, e: Event, g: string)
    requires Finds(occurs, next) && Kept(s, g, next) && !s.down && Calm(s, e, g, next)
    ensures Kept(Apply(s, e, next), g, next)
  {
    hide Finds, Add, Remove, Fire, EndTick, Shutdown, Good, HandlesUsed, OwnHandles;
    match e
    case AddSchedule(flow, cron) =>
      if next(cron, s.now).Some? {
        assert flow == g ==> ViewOf(s, g).ticks == map[];
        AddGood(occurs, next, s, flow, cron, g);
      } else {
        AddsNothing(s, flow, cron, next);
      }
    case RemoveSchedule(flow) =>
      RemoveGood(s, flow, g, next);
      RemovedRest(s, flow);
    case TimerFires(timer) =>
      if !Due(s, timer) {
        NotDue(s, timer, next);
      } else if s.timers[timer].tick {
        FireTickGood(s, timer, g, next);
      } else {
        FireRecheckGood(occurs, next, s, timer, g);
      }
    case TickEnds(id, outcome) =>
      if id in s.ticking {
        if s.ticking[id].flow == g {
          EndOwnGood(occurs, next, s, id, outcome, g);
        } else {
          EndOtherGood(s, id, outcome, g, next);
        }
      }
    case ShutDown => ShutdownGood(s, g, next);
  }

  lemma AddsNothing(s: State, flow: string, cron: Cron, next: (Cron, int) -> Option<int>)
    requires next(cron, s.now).None?
    ensures Add(s, flow, cron, next) == s
  {
  }

  lemma NotDue(s: State, timer: nat, next: (Cron, int) -> Option<int>)
    requires !Due(s, timer)
    ensures Fire(s, timer, next) == s
  {
  }

  // ---- After shutdown ----

  /** The times handled rise and are past; at most one tick is pending, past and after them. */
  ghost predicate TimesInOrder(s: State, g: string) {
    var times := TimesOf(s.history, g);
    && Rising(times)
    && (forall i :: 0 <= i < |times| ==> times[i] <= s.now)
    && (forall k :: k in s.ticking && s.ticking[k].flow == g ==>
          s.ticking[k].time <= s.now && Above(s.ticking[k].time, times))
    && (forall k, l :: k in s.ticking && l in s.ticking && s.ticking[k].flow == s.ticking[l].flow == g ==> k == l)
  }

  /** A schedule made then is never visited, not even by a tick that was pending. */
  predicate Idle(s: State, g: string) {
    g in s.schedules ==>
      && s.schedules[g].visited == []
      && forall k :: k in s.ticking && s.ticking[k].flow == g ==> s.ticking[k].time < s.schedules[g].next
  }

  /** What holds on every calm run. */
  ghost predicate Orderly(s: State, g: string, next: (Cron, int) -> Option<int>) {
    if s.down then TimesInOrder(s, g) && Idle(s, g) else Kept(s, g, next)
  }

  lemma KeptInOrder(s: State, g: string, next: (Cron, int) -> Option<int>)
    requires Kept(s, g, next)
    ensures TimesInOrder(s, g)
  {
    hide TimesOf, Consecutive, OwnHandles;
    var v := ViewOf(s, g);
    forall k | k in s.ticking && s.ticking[k].flow == g
      ensures s.ticking[k].time <= s.now && Above(s.ticking[k].time, v.times) && v.ticks - {k} == map[]
    {
      assert k in v.ticks && v.ticks[k] == s.ticking[k];
      TickMeansBusy(v, k, s.now, next);
    }
    forall k, l | k in s.ticking && l in s.ticking && s.ticking[k].flow == s.ticking[l].flow == g ensures k == l {
      assert l in v.ticks && (l != k ==> l in v.ticks - {k});
    }
  }

  lemma OrderlyInOrder(s: State, g: string, next: (Cron, int) -> Option<int>)
    requires Orderly(s, g, next)
    ensures TimesInOrder(s, g)
  {
    hide Kept, TimesInOrder;
    if !s.down { KeptInOrder(s, g, next); }
  }

  /** What an event of a scheduler that is down can do. */
  lemma DownApply(s: State, e: Event, next: (Cron, int) -> Option<int>)
    requires s.down
    ensures var s' := Apply(s, e, next);
            && s'.down && s'.now == s.now
            && (if e.TickEnds? && e.id in s.ticking then
                  && s'.ticking == s.ticking - {e.id} && s'.schedules == Visit(s.schedules, s.ticking[e.id])
                  && s'.history == s.history + [Handled(s.ticking[e.id].flow, s.ticking[e.id].time, e.outcome)]
                else s'.ticking == s.ticking && s'.history == s.history)
            && (if e.AddSchedule? && next(e.cron, s.now).Some? then
                  && s'.schedules.Keys == s.schedules.Keys + {e.flow}
                  && (forall f :: f in s.schedules && f != e.flow ==> s'.schedules[f] == s.schedules[f])
                  && s'.schedules[e.flow].visited == [] && s'.schedules[e.flow].next == next(e.cron, s.now).value
                else
                  || (e.TickEnds? && e.id in s.ticking)
                  || forall f :: f in s'.schedules ==> f in s.schedules && s'.schedules[f] == s.schedules[f])
  {
  }

  lemma DownOrderly(
    occurs: (Cron, int) -> bool, next: (Cron, int) -> Option<int>, s: State, e: Event, g: string)
    requires Finds(occurs, next) && s.down && TimesInOrder(s, g) && Idle(s, g)
    ensures var s' := Apply(s, e, next); s'.down && TimesInOrder(s', g) && Idle(s', g)
  {
    hide Finds, Apply, TimesOf;
    DownApply(s, e, next);
    if e.TickEnds? && e.id in s.ticking {
      TimesAppend(s.history, Handled(s.ticking[e.id].flow, s.ticking[e.id].time, e.outcome), g);
      if s.ticking[e.id].flow == g {
        RisingAppend(TimesOf(s.history, g), s.ticking[e.id].time, s.now);
      } else {
        assert TimesOf(s.history, g) + [] == TimesOf(s.history, g);
      }
    } else if e.AddSchedule? && next(e.cron, s.now).Some? {
      FindsLater(occurs, next, e.cron, s.now);
    }
  }

  lemma ApplyOrderly(
    occurs: (Cron, int) -> bool, next: (Cron, int) -> Option<int>, s: State, e: Event, g: string)
    requires Finds(occurs, next) && Orderly(s, g, next) && Calm(s, e, g, next)
    ensures Orderly(Apply(s, e, next), g, next)
  {
    hide Finds, Apply, TimesInOrder, Good, OwnHandles, Calm;
    if s.down {
      DownOrderly(occurs, next, s, e, g);
    } else {
      ApplyGood(occurs, next, s, e, g);
      KeptInOrder(Apply(s, e, next), g, next);
    }
  }

  lemma ClockOrderly(s: State, elapsed: nat, g: string, next: (Cron, int) -> Option<int>)
    requires Orderly(s, g, next)
    ensures Orderly(s.(now := s.now + elapsed), g, next)
  {
    hide Kept, TimesOf;
    if !s.down { ClockGood(s, elapsed, g, next); }
  }

  predicate CalmStep(s: State, step: Step, g: string, next: (Cron, int) -> Option<int>) {
    Calm(s.(now := s.now + step.elapsed), step.event, g, next)
  }

  lemma AdvanceOrderly(
    occurs: (Cron, int) -> bool, next: (Cron, int) -> Option<int>, s: State, step: Step, g: string)
    requires Finds(occurs, next) && Orderly(s, g, next) && CalmStep(s, step, g, next)
    ensures Orderly(Advance(s, step, next), g, next)
  {
    hide Finds, Orderly, Apply, Calm;
    ClockOrderly(s, step.elapsed, g, next);
    ApplyOrderly(occurs, next, s.(now := s.now + step.elapsed), step.event, g);
  }

  /** The state after further steps. */
  function Onward(s: State, steps: seq<Step>, next: (Cron, int) -> Option<int>): State {
    if steps == [] then s else Advance(Onward(s, steps[..|steps| - 1], next), steps[|steps| - 1], next)
  }

  ghost predicate CalmOnward(s: State, steps: seq<Step>, next: (Cron, int) -> Option<int>, g: string) {
    steps != [] ==>
      var n := |steps| - 1;
      && CalmOnward(s, steps[..n], next, g)
      && CalmStep(Onward(s, steps[..n], next), steps[n], g, next)
  }

  lemma {:induction false} OnwardOrderly(
    occurs: (Cron, int) -> bool, next: (Cron, int) -> Option<int>, s: State, steps: seq<Step>, g: string)
    requires Finds(occurs, next) && Orderly(s, g, next) && CalmOnward(s, steps, next, g)
    ensures Orderly(Onward(s, steps, next), g, next)
  {
    if steps != [] {
      hide Finds, Orderly, Advance, CalmStep;
      OnwardOrderly(occurs, next, s, steps[..|steps| - 1], g);
      AdvanceOrderly(occurs, next, Onward(s, steps[..|steps| - 1], next), steps[|steps| - 1], g);
    }
  }

  lemma {:induction false} OnwardIsAfter(start: int, steps: seq<Step>, next: (Cron, int) -> Option<int>)
    ensures Onward(Init(start), steps, next) == After(start, steps, next)
  {
    if steps != [] {
      hide Advance;
      OnwardIsAfter(start, steps[..|steps| - 1], next);
    }
  }

  ghost predicate CalmRun(start: int, steps: seq<Step>, next: (Cron, int) -> Option<int>, g: string) {
    CalmOnward(Init(start), steps, next, g)
  }

  lemma AfterOrderly(
    occurs: (Cron, int) -> bool, next: (Cron, int) -> Option<int>, start: int, steps: seq<Step>, g: string)
    requires Finds(occurs, next) && CalmRun(start, steps, next, g)
    ensures Orderly(After(start, steps, next), g, next)
  {
    assert AtRest(ViewOf(Init(start), g)) && ViewOf(Init(start), g).times == [];
    hide Finds, CalmOnward, Onward, After, Armed, InTick;
    OnwardOrderly(occurs, next, Init(start), steps, g);
    OnwardIsAfter(start, steps, next);
  }

  // ---- The theorems ----

  /** The times handled for a flow rise: each is handled once, and so are the idempotency keys made of
      them. At most one tick is pending; it is not early, and later than all handled. */
  lemma HandledOnceInOrder(
    occurs: (Cron, int) -> bool, next: (Cron, int) -> Option<int>, start: int, steps: seq<Step>, g: string)
    requires Finds(occurs, next) && CalmRun(start, steps, next, g)
    ensures TimesInOrder(After(start, steps, next), g)
  {
    hide Finds, CalmRun, After, Orderly, TimesInOrder;
    AfterOrderly(occurs, next, start, steps, g);
    OrderlyInOrder(After(start, steps, next), g, next);
  }

  /** A chain misses no match between its start and its end. */
  lemma {:induction false} ChainCovers(
    occurs: (Cron, int) -> bool, next: (Cron, int) -> Option<int>, cron: Cron, since: int, times: seq<int>, v: int)
    requires Finds(occurs, next) && Chain(next, cron, since, times)
    ensures v in times ==> occurs(cron, v) && since < v <= LastOf(since, times)
    ensures occurs(cron, v) && since < v <= LastOf(since, times) ==> v in times
    ensures since <= LastOf(since, times)
  {
    hide Finds, Chain;
    if times != [] {
      var n := |times| - 1;
      ChainFront(next, cron, since, times);
      ChainCovers(occurs, next, cron, since, times[..n], v);
      FoundNext(occurs, next, cron, LastOf(since, times[..n]));
      assert times == times[..n] + [times[n]];
    }
  }

  lemma ChainFront(next: (Cron, int) -> Option<int>, cron: Cron, since: int, times: seq<int>)
    requires times != [] && Chain(next, cron, since, times)
    ensures var n := |times| - 1;
            Chain(next, cron, since, times[..n]) && next(cron, LastOf(since, times[..n])) == Some(times[n])
  {
    var n := |times| - 1;
    forall i | 0 <= i < n ensures next(cron, Before(since, times[..n], i)) == Some(times[..n][i]) {
      assert Before(since, times[..n], i) == Before(since, times, i);
    }
    assert next(cron, Before(since, times, n)) == Some(times[n]);
  }

  lemma FoundNext(occurs: (Cron, int) -> bool, next: (Cron, int) -> Option<int>, cron: Cron, t: int)
    requires Finds(occurs, next) && next(cron, t).Some?
    ensures IsNext(occurs, cron, t, next(cron, t).value)
  {
  }

  lemma KeptChain(s: State, g: string, next: (Cron, int) -> Option<int>)
    requires Kept(s, g, next) && g in s.schedules && !s.schedules[g].late
    ensures var e, times := s.schedules[g], TimesOf(s.history, g);
            (|e.visited| <= |times| && e.visited == times[|times| - |e.visited|..]
             && Chain(next, e.cron, e.registeredAt, e.visited))
  {
    hide Armed, InTick, AtRest, Orphaned, Ordered, TimesOf, Chain, HandlesUsed, OwnHandles, LastOf;
    assert Consecutive(ViewOf(s, g), next);
    assert ViewOf(s, g).entry == Some(s.schedules[g]) && ViewOf(s, g).times == TimesOf(s.history, g);
  }

  lemma OrderlyChain(s: State, g: string, next: (Cron, int) -> Option<int>)
    requires Orderly(s, g, next) && g in s.schedules && !s.schedules[g].late
    ensures var e, times := s.schedules[g], TimesOf(s.history, g);
            (|e.visited| <= |times| && e.visited == times[|times| - |e.visited|..]
             && Chain(next, e.cron, e.registeredAt, e.visited))
  {
    hide Kept, TimesInOrder, TimesOf;
    if !s.down { KeptChain(s, g, next); }
  }

  /** While no recheck was late, the ticks of a registered schedule are the matches of its expression since
      it was made, every one of them up to the last: fired, failed or skipped. */
  lemma EveryMatchIsVisited(
    occurs: (Cron, int) -> bool, next: (Cron, int) -> Option<int>, start: int, steps: seq<Step>, g: string, v: int)
    requires Finds(occurs, next) && CalmRun(start, steps, next, g)
    requires g in After(start, steps, next).schedules && !After(start, steps, next).schedules[g].late
    ensures var e := After(start, steps, next).schedules[g];
            var times := TimesOf(After(start, steps, next).history, g);
            (|e.visited| <= |times| && e.visited == times[|times| - |e.visited|..]
             && (v in e.visited <==> occurs(e.cron, v) && e.registeredAt < v <= LastOf(e.registeredAt, e.visited)))
  {
    hide After, CalmRun, TimesOf, Finds, Orderly, LastOf, Chain;
    AfterOrderly(occurs, next, start, steps, g);
    var e := After(start, steps, next).schedules[g];
    OrderlyChain(After(start, steps, next), g, next);
    ChainCovers(occurs, next, e.cron, e.registeredAt, e.visited, v);
  }
}
