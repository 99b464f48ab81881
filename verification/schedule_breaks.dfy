/** What becomes of a schedule that is made again during its own tick. */
module ScheduleBreaks {
  import opened Wrappers
  import opened Scheduling
  import opened ScheduleRuns

  // ---- A schedule made during a tick can always break the order ----

  /** The times of the flow's ticks rise, whatever comes next, as long as no other such schedule is made. */
  ghost predicate StaysInOrder(s: State, g: string, next: (Cron, int) -> Option<int>) {
    forall steps: seq<Step> :: CalmOnward(s, steps, next, g) ==> Rising(TimesOf(Onward(s, steps, next).history, g))
  }

  /** A tick of the flow is pending, and a timer will start another one for a later match. */
  ghost predicate Racing(s: State, g: string, k: nat, h: nat) {
    && !s.down && g in s.schedules
    && k in s.ticking && s.ticking[k].flow == g && s.ticking[k].time < s.schedules[g].next && k < s.nextTick
    && h in s.timers && s.timers[h].flow == g && s.timers[h].tick && s.now <= s.schedules[g].next
    && s.timers[h].armedAt + s.timers[h].delay <= s.schedules[g].next
  }

  function OneMore(s: State, elapsed: nat, e: Event, next: (Cron, int) -> Option<int>): State {
    Advance(s, Step(elapsed, e), next)
  }

  /** The state at the end of a calm continuation. */
  ghost predicate Leads(s: State, s': State, g: string, next: (Cron, int) -> Option<int>) {
    exists steps: seq<Step> :: CalmOnward(s, steps, next, g) && Onward(s, steps, next) == s'
  }

  lemma LeadsNowhere(s: State, g: string, next: (Cron, int) -> Option<int>)
    ensures Leads(s, s, g, next)
  {
    var none: seq<Step> := [];
    assert CalmOnward(s, none, next, g) && Onward(s, none, next) == s;
  }

  lemma LeadsOn(s: State, t: State, g: string, next: (Cron, int) -> Option<int>, elapsed: nat, e: Event)
    requires Leads(s, t, g, next) && !e.AddSchedule?
    ensures Leads(s, OneMore(t, elapsed, e, next), g, next)
  {
    hide Advance;
    var steps: seq<Step> :| CalmOnward(s, steps, next, g) && Onward(s, steps, next) == t;
    var longer := steps + [Step(elapsed, e)];
    assert longer[..|longer| - 1] == steps;
    assert CalmOnward(s, longer, next, g) && Onward(s, longer, next) == OneMore(t, elapsed, e, next);
  }

  lemma LeadsToDisorder(s: State, t: State, g: string, next: (Cron, int) -> Option<int>)
    requires Leads(s, t, g, next) && !Rising(TimesOf(t.history, g))
    ensures !StaysInOrder(s, g, next)
  {
    hide CalmOnward, Onward, TimesOf, Rising;
    var steps: seq<Step> :| CalmOnward(s, steps, next, g) && Onward(s, steps, next) == t;
  }

  /** The timer fires. */
  lemma RaceStarts(s: State, g: string, k: nat, h: nat, next: (Cron, int) -> Option<int>)
    requires Racing(s, g, k, h)
    ensures var first := s.schedules[g].next;
            var t := OneMore(s, first - s.now, TimerFires(h), next);
            && t.ticking == s.ticking[s.nextTick := Tick(g, first)] && t.history == s.history
  {
  }

  lemma TickGone(s: State, id: nat, next: (Cron, int) -> Option<int>)
    requires id in s.ticking
    ensures var t := OneMore(s, 0, TickEnds(id, Fired), next);
            && t.ticking == s.ticking - {id}
            && t.history == s.history + [Handled(s.ticking[id].flow, s.ticking[id].time, Fired)]
  {
  }

  /** The later tick ends first. */
  lemma RaceBreaks(s: State, t: State, g: string, k: nat, h: nat, next: (Cron, int) -> Option<int>)
    requires Leads(s, t, g, next) && Racing(t, g, k, h)
    ensures !StaysInOrder(s, g, next)
  {
    hide Leads, OneMore, StaysInOrder;
    var first, id := t.schedules[g].next, t.nextTick;
    RaceStarts(t, g, k, h, next);
    LeadsOn(s, t, g, next, first - t.now, TimerFires(h));
    var both := OneMore(t, first - t.now, TimerFires(h), next);
    TickGone(both, id, next);
    LeadsOn(s, both, g, next, 0, TickEnds(id, Fired));
    var one := OneMore(both, 0, TickEnds(id, Fired), next);
    TickGone(one, k, next);
    LeadsOn(s, one, g, next, 0, TickEnds(k, Fired));
    var none := OneMore(one, 0, TickEnds(k, Fired), next);
    TimesAppend(both.history, Handled(g, first, Fired), g);
    TimesAppend(one.history, Handled(g, t.ticking[k].time, Fired), g);
    FallsBack(TimesOf(t.history, g), first, t.ticking[k].time);
    LeadsToDisorder(s, none, g, next);
  }

  lemma FallsBack(times: seq<int>, a: int, b: int)
    requires b < a
    ensures !Rising(times + [a] + [b])
  {
    var more := times + [a] + [b];
    assert more[|times|] == a && more[|times| + 1] == b;
  }

  /** The schedule is made again while a tick of it is pending. */
  lemma MadeInTick(s: State, g: string, cron: Cron, next: (Cron, int) -> Option<int>)
    requires HandlesUsed(s) && !s.down && next(cron, s.now).Some? && next(cron, s.now).value > s.now
    ensures var s', first := Add(s, g, cron, next), next(cron, s.now).value;
            && !s'.down && s'.now == s.now && s'.ticking == s.ticking && s'.nextTick == s.nextTick
            && g in s'.schedules && s'.schedules[g].next == first && s'.schedules[g].cron == cron
            && s'.nextTimer == s.nextTimer + 1 && s.nextTimer in s'.timers
            && s'.timers[s.nextTimer]
               == if first - s.now > MAX_TIMEOUT_MS then Timer(g, false, REARM_INTERVAL_MS, s.now)
                  else Timer(g, true, first - s.now, s.now)
  {
  }

  /** A recheck one time unit before the match arms its tick. */
  lemma RecheckArms(s: State, g: string, h: nat, next: (Cron, int) -> Option<int>)
    requires !s.down && g in s.schedules && h in s.timers && s.timers[h].flow == g && !s.timers[h].tick
    requires s.timers[h].armedAt + s.timers[h].delay <= s.schedules[g].next - 1 && s.now <= s.schedules[g].next - 1
    requires next(s.schedules[g].cron, s.schedules[g].next - 1) == Some(s.schedules[g].next)
    ensures var t := OneMore(s, s.schedules[g].next - 1 - s.now, TimerFires(h), next);
            && !t.down && t.ticking == s.ticking && t.nextTick == s.nextTick
            && g in t.schedules && t.schedules[g].next == s.schedules[g].next && t.now == s.schedules[g].next - 1
            && s.nextTimer in t.timers && t.timers[s.nextTimer] == Timer(g, true, 1, t.now)
  {
  }

  lemma MadeInTickBreaks(
    occurs: (Cron, int) -> bool, next: (Cron, int) -> Option<int>, s: State, g: string, cron: Cron, k: nat)
    requires Finds(occurs, next) && HandlesUsed(s) && !s.down && next(cron, s.now).Some?
    requires k in s.ticking && s.ticking[k].flow == g && s.ticking[k].time <= s.now
    ensures !StaysInOrder(Add(s, g, cron, next), g, next)
  {
    hide Finds, Add, Leads, OneMore, StaysInOrder;
    FindsLater(occurs, next, cron, s.now);
    MadeInTick(s, g, cron, next);
    var s', first := Add(s, g, cron, next), next(cron, s.now).value;
    LeadsNowhere(s', g, next);
    if first - s.now > MAX_TIMEOUT_MS {
      NextStays(occurs, next, cron, s.now, first - 1);
      RecheckArms(s', g, s.nextTimer, next);
      LeadsOn(s', s', g, next, first - 1 - s'.now, TimerFires(s.nextTimer));
      RaceBreaks(s', OneMore(s', first - 1 - s'.now, TimerFires(s.nextTimer), next), g, k, s'.nextTimer, next);
    } else {
      RaceBreaks(s', s', g, k, s.nextTimer, next);
    }
  }

  /** From a state of a calm run, an event leaves the order of all that can follow intact if and only if it
      is calm: not a schedule of the flow made during its tick, while the scheduler is up. */
  lemma OrderExactly(
    occurs: (Cron, int) -> bool, next: (Cron, int) -> Option<int>, start: int, steps: seq<Step>, step: Step, g: string)
    requires Finds(occurs, next) && CalmRun(start, steps, next, g)
    ensures var s := After(start, steps, next);
            StaysInOrder(Advance(s, step, next), g, next) <==> CalmStep(s, step, g, next)
  {
    hide Finds, After, CalmRun, StaysInOrder, Orderly, Advance, CalmStep;
    var s := After(start, steps, next);
    AfterOrderly(occurs, next, start, steps, g);
    if CalmStep(s, step, g, next) {
      AdvanceOrderly(occurs, next, s, step, g);
      OrderlyStays(occurs, next, Advance(s, step, next), g);
    } else {
      DisturbedBreaks(occurs, next, s, step, g);
    }
  }

  lemma OrderlyStays(occurs: (Cron, int) -> bool, next: (Cron, int) -> Option<int>, s: State, g: string)
    requires Finds(occurs, next) && Orderly(s, g, next)
    ensures StaysInOrder(s, g, next)
  {
    hide Finds, Orderly, CalmOnward, Onward, TimesOf;
    forall steps: seq<Step> | CalmOnward(s, steps, next, g) ensures Rising(TimesOf(Onward(s, steps, next).history, g)) {
      OnwardOrderly(occurs, next, s, steps, g);
      OrderlyInOrder(Onward(s, steps, next), g, next);
    }
  }

  lemma DisturbedBreaks(
    occurs: (Cron, int) -> bool, next: (Cron, int) -> Option<int>, s: State, step: Step, g: string)
    requires Finds(occurs, next) && Orderly(s, g, next) && !CalmStep(s, step, g, next)
    ensures !StaysInOrder(Advance(s, step, next), g, next)
  {
    hide Finds, StaysInOrder, Add, Good, OwnHandles, TimesOf;
    var later := s.(now := s.now + step.elapsed);
    var k :| k in s.ticking && s.ticking[k].flow == g;
    KeptInOrder(s, g, next);
    MadeInTickBreaks(occurs, next, later, g, step.event.cron, k);
  }

  // ---- What becomes of it ----

  /** The end of a tick moves the schedule to the match after the one just handled, and counts it as visited,
      if and only if the schedule still stands at that match. It goes on from where it stands. */
  lemma EndMovesExactly(
    occurs: (Cron, int) -> bool, next: (Cron, int) -> Option<int>, s: State, id: nat, outcome: Outcome)
    requires Finds(occurs, next) && id in s.ticking && !s.down && s.ticking[id].flow in s.schedules
    requires var e, time := s.schedules[s.ticking[id].flow], s.ticking[id].time;
             occurs(e.cron, e.next) && (time <= e.next || occurs(e.cron, time)) && next(e.cron, e.next).Some?
    ensures var flow, time := s.ticking[id].flow, s.ticking[id].time;
            var e, again := s.schedules[flow], EndTick(s, id, outcome, next);
            && flow in again.schedules
            && (Some(again.schedules[flow].next) == next(e.cron, time) <==> e.next == time)
            && (again.schedules[flow].visited == e.visited + [time] <==> e.next == time)
  {
    var e, time := s.schedules[s.ticking[id].flow], s.ticking[id].time;
    if e.next != time && next(e.cron, time).Some? {
      assert IsNext(occurs, e.cron, time, next(e.cron, time).value);
      assert IsNext(occurs, e.cron, e.next, next(e.cron, e.next).value);
    }
    hide Finds;
    assert e.visited != e.visited + [time];
  }

  /** A schedule made again during its tick: the end of the old tick moves the new schedule past its first
      match and leaves two timers live. */
  lemma ReRegistrationSkips(
    next: (Cron, int) -> Option<int>, s: State, flow: string, cron: Cron, id: nat, outcome: Outcome,
    first: int, second: int)
    requires HandlesUsed(s) && !s.down && id in s.ticking && s.ticking[id].flow == flow
    requires next(cron, s.now) == Some(first) && next(cron, first) == Some(second)
    requires s.ticking[id].time <= s.now < first < second
    ensures var again := EndTick(Add(s, flow, cron, next), id, outcome, next);
            (flow in again.schedules
             && again.schedules[flow].next == second
             && again.schedules[flow].visited == []
             && s.nextTimer in again.timers && again.timers[s.nextTimer].flow == flow
             && s.nextTimer + 1 in again.timers && again.timers[s.nextTimer + 1].flow == flow)
  {
  }

  // ---- A run that ends in a duplicate ----

  /** An expression that matches at every time. */
  predicate Always(cron: Cron, time: int) {
    true
  }

  function EveryTime(cron: Cron, time: int): Option<int> {
    Some(time + 1)
  }

  lemma EveryTimeIsNext()
    ensures Finds(Always, EveryTime)
  {
  }

  ghost predicate Reached(s: State) {
    exists steps: seq<Step> :: After(0, steps, EveryTime) == s
  }

  lemma ReachedNext(s: State, elapsed: nat, e: Event, s': State)
    requires Reached(s) && Advance(s, Step(elapsed, e), EveryTime) == s'
    ensures Reached(s')
  {
    hide Advance;
    var steps: seq<Step> :| After(0, steps, EveryTime) == s;
    var longer := steps + [Step(elapsed, e)];
    assert longer[..|longer| - 1] == steps;
    assert After(0, longer, EveryTime) == s';
  }

  /** The first tick of a schedule has started, one time unit after the schedule was made. */
  function Started(): State {
    State(map["f" := Entry("", 1, 0, 0, [], false)], map[], 1, map[0 := Tick("f", 1)], 1, 1, false, [])
  }

  /** It was made again, and then the tick has ended. */
  function Again(): State {
    State(map["f" := Entry("", 3, 2, 1, [], false)], map[1 := Timer("f", true, 1, 1), 2 := Timer("f", true, 2, 1)], 3,
          map[], 1, 1, false, [Handled("f", 1, Fired)])
  }

  /** Its first timer has fired: the tick stands for the second match, before its time. */
  function Early(): State {
    State(Again().schedules, map[2 := Timer("f", true, 2, 1)], 3, map[1 := Tick("f", 3)], 2, 2, false, Again().history)
  }

  /** Its second timer has fired too, for the same match. */
  function Twice(): State {
    State(Again().schedules, map[], 3, map[1 := Tick("f", 3), 2 := Tick("f", 3)], 3, 3, false, Again().history)
  }

  /** The first of these ticks has ended. */
  function EndedOnce(): State {
    State(map["f" := Entry("", 4, 3, 1, [3], false)], map[3 := Timer("f", true, 1, 3)], 4, map[2 := Tick("f", 3)], 3, 3,
          false, [Handled("f", 1, Fired), Handled("f", 3, Fired)])
  }

  /** And the other. */
  function EndedTwice(): State {
    State(map["f" := Entry("", 5, 4, 1, [3], false)],
          map[3 := Timer("f", true, 1, 3), 4 := Timer("f", true, 2, 3)], 5, map[], 3, 3,
          false, [Handled("f", 1, Fired), Handled("f", 3, Fired), Handled("f", 3, Fired)])
  }

  /** The schedule has been made. */
  function Made(): State {
    State(map["f" := Entry("", 1, 0, 0, [], false)], map[0 := Timer("f", true, 1, 0)], 1, map[], 0, 0, false, [])
  }

  lemma ReachMade()
    ensures Reached(Made())
  {
    var s := Init(0);
    assert After(0, [], EveryTime) == s;
    assert Remove(s, "f") == s;
    hide Reached, After;
    ReachedNext(s, 0, AddSchedule("f", ""), Made());
  }

  lemma ReachStarted()
    ensures Reached(Started())
  {
    ReachMade();
    hide Reached;
    assert Made().timers - {0} == map[];
    ReachedNext(Made(), 1, TimerFires(0), Started());
  }

  lemma ReachAgain()
    ensures Reached(Again())
  {
    ReachStarted();
    hide Reached;
    var s3 := Started().(schedules := map["f" := Entry("", 2, 1, 1, [], false)],
                         timers := map[1 := Timer("f", true, 1, 1)], nextTimer := 2);
    assert Started().timers - {0} == map[];
    ReachedNext(Started(), 0, AddSchedule("f", ""), s3);
    assert s3.ticking - {0} == map[];
    ReachedNext(s3, 0, TickEnds(0, Fired), Again());
  }

  lemma ReachTwice()
    ensures Reached(Early()) && Reached(Twice())
  {
    ReachAgain();
    hide Reached;
    assert Again().timers - {1} == Early().timers;
    ReachedNext(Again(), 1, TimerFires(1), Early());
    assert Early().timers - {2} == map[];
    ReachedNext(Early(), 1, TimerFires(2), Twice());
  }

  lemma ReachEndedOnce()
    ensures Reached(EndedOnce())
  {
    ReachTwice();
    hide Reached;
    var s := Twice();
    assert s.ticking - {1} == EndedOnce().ticking;
    assert [] + [3] == [3];
    assert Visit(s.schedules, s.ticking[1]) == map["f" := Entry("", 3, 2, 1, [3], false)];
    ReachedNext(s, 0, TickEnds(1, Fired), EndedOnce());
  }

  lemma ReachEnd()
    ensures Reached(EndedTwice())
  {
    ReachEndedOnce();
    hide Reached;
    var s := EndedOnce();
    assert s.ticking - {2} == map[];
    assert Visit(s.schedules, s.ticking[2]) == s.schedules;
    ReachedNext(s, 0, TickEnds(2, Fired), EndedTwice());
  }

  lemma EndTimes()
    ensures TimesOf(EndedTwice().history, "f") == [1, 3, 3]
  {
    var h := EndedTwice().history;
    assert h[..2][..1][..0] == [] && h[..2][..1] == [h[0]] && h[..2] == [h[0], h[1]];
    assert TimesOf(h[..2][..1], "f") == [1];
    assert TimesOf(h[..2], "f") == [1, 3];
  }

  /** A run of an expression that matches at every time. Its schedule is made again during the tick for time
      1: a tick for time 3 starts at time 2, time 3 is handled twice, and time 2 never is. */
  lemma HandledTwice()
    ensures Finds(Always, EveryTime)
    ensures exists steps: seq<Step> ::
              var s := After(0, steps, EveryTime);
              1 in s.ticking && s.ticking[1] == Tick("f", 3) && s.now == 2
    ensures exists steps: seq<Step> ::
              var s := After(0, steps, EveryTime);
              && TimesOf(s.history, "f") == [1, 3, 3] && !Rising(TimesOf(s.history, "f")) && s.ticking == map[]
              && s.schedules == map["f" := Entry("", 5, 4, 1, [3], false)]
  {
    EveryTimeIsNext();
    ReachTwice();
    ReachEnd();
    EndTimes();
    assert !Rising([1, 3, 3]) by { assert [1, 3, 3][1] == [1, 3, 3][2]; }
    hide TimesOf, After, Finds;
    var steps: seq<Step> :| After(0, steps, EveryTime) == Early();
    assert After(0, steps, EveryTime).now == 2;
  }
}
