/** Runs from the start that break a promise outside its condition. */
module EngineWitnesses {
  import opened Wrappers
  import opened Executions
  import opened EngineSteps
  import opened EngineRuns
  import opened EngineTheorems
  import opened EngineLosses
  import opened EngineFifo
  import opened EngineIdempotency
  import opened EngineCells
  import EngineProgress

  ghost predicate Reachable(concurrency: int, s: State) {
    exists steps: seq<Step> :: After(concurrency, steps) == s
  }

  lemma ReachInit(concurrency: int)
    ensures Reachable(concurrency, Init(concurrency))
  {
    assert After(concurrency, []) == Init(concurrency);
  }

  lemma ReachNext(concurrency: int, s: State, e: Event)
    requires Reachable(concurrency, s)
    ensures Reachable(concurrency, Apply(s, e))
  {
    hide Apply;
    var steps: seq<Step> :| After(concurrency, steps) == s;
    var longer := steps + [Step(0, e)];
    assert longer[..|longer| - 1] == steps;
    assert s.(clock := s.clock + 0) == s;
    assert After(concurrency, longer) == Apply(s, e);
  }

  // ---- One execution, step by step ----

  /** An execution with one task pending and no timer. */
  ghost predicate Has(c: Cell, f: Flow, state: ExecutionState, h: Handle, task: Task) {
    && c.record.state == state && c.record.flowName == f.name && c.record.retryCount == 0
    && c.live == map[h := task] && c.next == h + 1
    && c.options == Options(None, None)
    && c.retryTimer.None? && c.timeoutTimer.None? && c.waitTimer.None? && c.remaining.None?
    && c.record.queuedAt == 0 && c.leakedDispatch == 0 && c.leakedResume == 0
  }

  lemma Lone(h: Handle, task: Task)
    ensures map[h := task] - {h} == map[]
  {
  }

  lemma FirstRun(c: Cell, f: Flow, now: int)
    requires Has(c, f, Queued, 0, TriggerStored(f)) && f.timeout <= 0
    ensures var e := RunLive(c, 0, Returned, true, Some(f), now);
            Has(e.cell, f, Running, 1, RunStored(f, None)) && e.slots == 1 && !e.redispatch
    ensures var e := RunLive(c, 0, Returned, false, Some(f), now);
            e == Effect(c.(live := map[]), 0, false)
  {
    Lone(0, TriggerStored(f));
  }

  lemma FirstCall(c: Cell, f: Flow, now: int)
    requires Has(c, f, Running, 1, RunStored(f, None)) && f.timeout <= 0
    ensures forall room :: var e := RunLive(c, 1, Returned, room, Some(f), now);
              Has(e.cell, f, Running, 2, HandlerPending(f, Initial)) && e.slots == 0 && !e.redispatch
  {
    Lone(1, RunStored(f, None));
  }

  lemma Handled(c: Cell, f: Flow, now: int)
    requires Has(c, f, Running, 2, HandlerPending(f, Initial))
    ensures forall room :: var e := RunLive(c, 2, WaitSignal, room, Some(f), now);
              Has(e.cell, f, Waiting, 3, WaitStored(f, Initial)) && e.slots == 0 && !e.redispatch
    ensures forall room :: var e := RunLive(c, 2, Returned, room, Some(f), now);
              Has(e.cell, f, Running, 3, OutputGuard(f, Initial)) && e.slots == 0 && !e.redispatch
  {
    Lone(2, HandlerPending(f, Initial));
  }

  lemma Guarded(c: Cell, f: Flow, now: int)
    requires Has(c, f, Running, 3, OutputGuard(f, Initial))
    ensures forall room :: var e := RunLive(c, 3, Returned, room, Some(f), now);
              Has(e.cell, f, Complete, 4, CompleteStored(Initial)) && e.slots == 0 && !e.redispatch
  {
    Lone(3, OutputGuard(f, Initial));
  }

  /** The wait is stored: the slot is free, and a wait timeout of the flow has its timer set. */
  lemma Parked(c: Cell, f: Flow, now: int)
    requires Has(c, f, Waiting, 3, WaitStored(f, Initial)) && f.waitTimeout <= 0
    ensures forall room :: var e := RunLive(c, 3, Returned, room, Some(f), now);
              && e.slots == -1 && e.redispatch && e.cell == c.(live := map[])
              && Has(Resume(e.cell, now), f, Running, 4, ResumeStored) && Resume(e.cell, now).handler == c.handler
  {
    Lone(3, WaitStored(f, Initial));
  }

  lemma ResumedTakes(c: Cell, f: Flow, now: int)
    requires Has(c, f, Running, 4, ResumeStored)
    ensures Reenters(c, Some(f))
    ensures forall room :: var e := RunLive(c, 4, Returned, room, Some(f), now); e.slots == 1 && !e.redispatch
  {
    Lone(4, ResumeStored);
  }

  // ---- The engine, step by step ----

  /** A reachable engine with one flow and nothing pending outside the executions. */
  ghost predicate Base(concurrency: int, s: State, f: Flow) {
    && Reachable(concurrency, s) && s.concurrency == concurrency
    && s.flows == map[f.name := f] && s.loop == map[] && s.clock == 0
  }

  lemma Registered0(concurrency: int, f: Flow) returns (s: State)
    ensures Base(concurrency, s, f)
    ensures s.cells == map[] && s.order == [] && s.index == map[] && s.active == 0
  {
    ReachInit(concurrency);
    ReachNext(concurrency, Init(concurrency), Register(f));
    s := Apply(Init(concurrency), Register(f));
  }

  /** A trigger passes its checks and stores its execution. */
  lemma Triggered(concurrency: int, s: State, f: Flow, id: Id, key: string) returns (s': State)
    requires Base(concurrency, s, f) && id !in s.cells && key !in s.index && !Blank(key)
    ensures Base(concurrency, s', f) && s'.active == s.active
    ensures id in s'.cells && Has(s'.cells[id], f, Queued, 0, TriggerStored(f))
    ensures s'.cells == s.cells[id := s'.cells[id]]
    ensures s'.order == s.order + [id] && s'.index == s.index[key := id]
  {
    hide Reachable, Blank;
    var call := TriggerCall(f.name, key, Options(None, None));
    ReachNext(concurrency, s, call);
    var checked := Apply(s, call);
    assert checked.loop == map[s.loopNext := TriggerChecked(f, key, Options(None, None))];
    ReachNext(concurrency, checked, RunLoop(s.loopNext, true, id));
    s' := Apply(checked, RunLoop(s.loopNext, true, id));
    assert s'.loop == map[];
  }

  /** Runs a task after which nobody is remembered for a free slot. */
  lemma Ran(concurrency: int, s: State, f: Flow, id: Id, h: Handle, outcome: Outcome) returns (s': State)
    requires Base(concurrency, s, f) && id in s.cells && h in s.cells[id].live && s.cells[id].record.flowName == f.name
    requires var e := RunLive(s.cells[id], h, outcome, s.active < s.concurrency, Some(f), s.clock);
             e.redispatch ==> QueuedIds(s.cells[id := e.cell], s.order) == []
    ensures Base(concurrency, s', f)
    ensures var e := RunLive(s.cells[id], h, outcome, s.active < s.concurrency, Some(f), s.clock);
            s' == s.(cells := s.cells[id := e.cell], active := s.active + e.slots)
  {
    hide Reachable, RunLive, QueuedIds, Oldest;
    ReachNext(concurrency, s, Run(id, h, outcome));
    s' := Apply(s, Run(id, h, outcome));
  }

  /** A triggered execution starts and calls its handler. */
  lemma Launched(concurrency: int, s: State, f: Flow, id: Id, key: string) returns (s': State)
    requires Base(concurrency, s, f) && id !in s.cells && key !in s.index && !Blank(key)
    requires f.timeout <= 0 && s.active < concurrency
    ensures Base(concurrency, s', f) && s'.active == s.active + 1
    ensures id in s'.cells && Has(s'.cells[id], f, Running, 2, HandlerPending(f, Initial))
    ensures s'.cells == s.cells[id := s'.cells[id]]
    ensures s'.order == s.order + [id] && s'.index == s.index[key := id]
  {
    hide Reachable, Blank, RunLive, Has;
    var s1 := Triggered(concurrency, s, f, id, key);
    hide RunLive;
    FlowNamed(s1.cells[id], f, Queued, 0, TriggerStored(f));
    FirstRun(s1.cells[id], f, 0);
    var s2 := Ran(concurrency, s1, f, id, 0, Returned);
    FlowNamed(s2.cells[id], f, Running, 1, RunStored(f, None));
    FirstCall(s2.cells[id], f, 0);
    s' := Ran(concurrency, s2, f, id, 1, Returned);
  }

  lemma FlowNamed(c: Cell, f: Flow, state: ExecutionState, h: Handle, task: Task)
    requires Has(c, f, state, h, task)
    ensures c.record.flowName == f.name && h in c.live && c.live == map[h := task]
    ensures c.record.state == state && c.next == h + 1
  {
  }

  lemma {:induction false} NobodyQueued(cells: map<Id, Cell>, ids: seq<Id>)
    requires forall id :: id in ids && id in cells ==> cells[id].record.state != Queued
    ensures QueuedIds(cells, ids) == []
  {
    if ids != [] { NobodyQueued(cells, ids[1..]); }
  }

  /** It waits, and its slot is free again. */
  lemma Waits(concurrency: int, s: State, f: Flow, id: Id) returns (s': State)
    requires Base(concurrency, s, f) && f.waitTimeout <= 0
    requires id in s.cells && Has(s.cells[id], f, Running, 2, HandlerPending(f, Initial))
    requires forall other :: other in s.cells ==> s.cells[other].record.state != Queued
    ensures Base(concurrency, s', f) && s'.active == s.active - 1
    ensures s'.order == s.order && s'.index == s.index && id in s'.cells
    ensures s'.cells == s.cells[id := s'.cells[id]] && s'.cells[id].record.state == Waiting
    ensures s'.cells[id].record.flowName == f.name && s'.cells[id].next == 4
    ensures Has(Resume(s'.cells[id], 0), f, Running, 4, ResumeStored)
  {
    hide Reachable, RunLive, Has, Resume, QueuedIds;
    FlowNamed(s.cells[id], f, Running, 2, HandlerPending(f, Initial));
    Handled(s.cells[id], f, 0);
    var s1 := Ran(concurrency, s, f, id, 2, WaitSignal);
    var c := s1.cells[id];
    FlowNamed(c, f, Waiting, 3, WaitStored(f, Initial));
    Parked(c, f, 0);
    NobodyQueued(s1.cells[id := c.(live := map[])], s1.order);
    s' := Ran(concurrency, s1, f, id, 3, Returned);
  }

  /** Someone resumes it. */
  lemma Resumes(concurrency: int, s: State, f: Flow, id: Id) returns (s': State)
    requires Base(concurrency, s, f) && id in s.cells && Has(Resume(s.cells[id], 0), f, Running, 4, ResumeStored)
    ensures Base(concurrency, s', f) && s' == s.(cells := s.cells[id := Resume(s.cells[id], 0)])
  {
    hide Reachable, Has, Resume;
    ReachNext(concurrency, s, ResumeCall(id));
    s' := Apply(s, ResumeCall(id));
  }

  // ---- Promises broken ----

  lemma Keys()
    ensures !Blank("a") && !Blank("b") && !Blank("c") && !Blank("d") && !Blank("e")
  {
    assert 'a' in "a" && 'b' in "b" && 'c' in "c" && 'd' in "d" && 'e' in "e";
  }

  /** With a limit of one: an execution waits, another takes the slot, the first is resumed beside it. */
  lemma ResumePassesLimit()
    ensures exists steps: seq<Step> :: After(1, steps).active == 2
  {
    hide Reachable, Has, RunLive, Resume, Blank;
    Keys();
    var f := Flow("f", 0, 0, 0);
    var s := Registered0(1, f);
    s := Launched(1, s, f, "a", "a");
    FlowNamed(s.cells["a"], f, Running, 2, HandlerPending(f, Initial));
    s := Waits(1, s, f, "a");
    s := Launched(1, s, f, "b", "b");
    s := Resumes(1, s, f, "a");
    FlowNamed(s.cells["a"], f, Running, 4, ResumeStored);
    ResumedTakes(s.cells["a"], f, 0);
    s := Ran(1, s, f, "a", 4, Returned);
    Witness(1, s);
  }

  lemma Witness(concurrency: int, s: State)
    requires Reachable(concurrency, s)
    ensures exists steps: seq<Step> :: After(concurrency, steps) == s
    ensures s.concurrency == concurrency
  {
    hide Inv, After;
    var steps: seq<Step> :| After(concurrency, steps) == s;
    AfterInv(concurrency, steps);
  }

  lemma CancelledResume(c: Cell, f: Flow)
    requires Has(c, f, Running, 4, ResumeStored) && c.runner == Some(4)
    ensures var d := Cancel(c, 0);
            && !HoldsSlot(c) && d.record.state == Failed && d.record.flowName == f.name
            && d.live == map[4 := ResumeStored] && d.handler.None? && Reenters(d, Some(f))
            && forall room :: var e := RunLive(d, 4, Returned, room, Some(f), 0);
                 && e.slots == 1 && !e.redispatch && e.cell.record.state == Failed && e.cell.handler.Some?
                 && e.cell.live == map[5 := HandlerPending(f, Resumed)]
  {
    hide HasWaited;
    Lone(4, ResumeStored);
  }

  lemma ResumeRunner(c: Cell)
    requires c.record.state == Waiting && c.next == 4
    ensures Resume(c, 0).runner == Some(4)
  {
  }

  lemma CancelledAwait() returns (s: State)
    ensures Base(1, s, Flow("f", 0, 0, 0)) && s.active == 0 && s.order == ["a"] && "a" in s.cells
    ensures var c := s.cells["a"];
            && c.record.state == Failed && c.record.flowName == "f" && c.handler.None?
            && c.live == map[4 := ResumeStored] && Reenters(c, Some(Flow("f", 0, 0, 0)))
            && forall room :: var e := RunLive(c, 4, Returned, room, Some(Flow("f", 0, 0, 0)), 0);
                 && e.slots == 1 && !e.redispatch && e.cell.record.state == Failed && e.cell.handler.Some?
                 && e.cell.live == map[5 := HandlerPending(Flow("f", 0, 0, 0), Resumed)]
  {
    hide Reachable, Has, RunLive, Resume, Blank, HoldsSlot, Cancel, Reenters;
    Keys();
    var f := Flow("f", 0, 0, 0);
    s := Registered0(1, f);
    s := Launched(1, s, f, "a", "a");
    FlowNamed(s.cells["a"], f, Running, 2, HandlerPending(f, Initial));
    s := Waits(1, s, f, "a");
    ResumeRunner(s.cells["a"]);
    s := Resumes(1, s, f, "a");
    CancelledResume(s.cells["a"], f);
    ReachNext(1, s, CancelCall("a"));
    s := Apply(s, CancelCall("a"));
  }

  /** A cancel in the await of a resume holds no slot, finds its resume without the kept flow, and loses the
      slot the resume takes for the failed execution. */
  lemma CancelDuringResume()
    ensures exists steps: seq<Step> ::
              var s := After(1, steps);
              && "a" in s.cells && s.cells["a"].record.state == Failed && s.cells["a"].handler.None?
              && s.cells["a"].live == map[4 := ResumeStored]
              && s.active == 0 && LosesSlot(s, Run("a", 4, Returned))
    ensures exists steps: seq<Step> ::
              var s := After(1, steps);
              && s.order == ["a"] && "a" in s.cells && s.cells["a"].record.state == Failed && Settled(s.cells["a"])
              && s.active == 1 && s.cells["a"].handler.Some?
  {
    hide Reachable, RunLive, Reenters, After;
    var s := CancelledAwait();
    Witness(1, s);
    s := Ran(1, s, Flow("f", 0, 0, 0), "a", 4, Returned);
    Witness(1, s);
  }

  lemma CancelledParking(c: Cell, f: Flow)
    requires Has(c, f, Waiting, 3, WaitStored(f, Initial)) && f.waitTimeout > 0
    ensures var d := Cancel(c, 0);
            && d.record.state == Failed && d.record.flowName == f.name && d.live == map[3 := WaitStored(f, Initial)]
            && forall room :: var e := RunLive(d, 3, Returned, room, Some(f), 0);
                 e.cell.record.state == Failed && e.cell.live == map[4 := WaitTimer]
  {
    Lone(3, WaitStored(f, Initial));
  }

  /** A cancel while a wait is stored leaves a live wait timer on a failed execution. */
  lemma CancelDuringWait()
    ensures exists steps: seq<Step> ::
              var s := After(1, steps);
              "a" in s.cells && s.cells["a"].record.state == Failed && s.cells["a"].live == map[4 := WaitTimer]
  {
    hide Reachable, Has, RunLive, Blank, Cancel;
    Keys();
    var f := Flow("f", 0, 0, 1);
    var s := Registered0(1, f);
    s := Launched(1, s, f, "a", "a");
    FlowNamed(s.cells["a"], f, Running, 2, HandlerPending(f, Initial));
    Handled(s.cells["a"], f, 0);
    s := Ran(1, s, f, "a", 2, WaitSignal);
    CancelledParking(s.cells["a"], f);
    ReachNext(1, s, CancelCall("a"));
    s := Apply(s, CancelCall("a"));
    NobodyQueued(s.cells["a" := RunLive(s.cells["a"], 3, Returned, s.active < 1, Some(f), 0).cell], s.order);
    s := Ran(1, s, f, "a", 3, Returned);
    Witness(1, s);
  }

  /** An execution whose trigger finds no free slot queues. */
  lemma Queues(concurrency: int, s: State, f: Flow, id: Id, key: string) returns (s': State)
    requires Base(concurrency, s, f) && id !in s.cells && key !in s.index && !Blank(key)
    requires f.timeout <= 0 && s.active >= concurrency
    ensures Base(concurrency, s', f) && s'.active == s.active
    ensures id in s'.cells && s'.cells == s.cells[id := s'.cells[id]]
    ensures s'.cells[id].record.state == Queued && s'.cells[id].record.flowName == f.name
    ensures s'.order == s.order + [id] && s'.index == s.index[key := id]
  {
    hide Reachable, Blank, RunLive, Has;
    var s1 := Triggered(concurrency, s, f, id, key);
    FlowNamed(s1.cells[id], f, Queued, 0, TriggerStored(f));
    FirstRun(s1.cells[id], f, 0);
    s' := Ran(concurrency, s1, f, id, 0, Returned);
  }

  /** Its handler has returned; the result is being stored. */
  lemma Finishes(concurrency: int, s: State, f: Flow, id: Id) returns (s': State)
    requires Base(concurrency, s, f) && id in s.cells
    requires Has(s.cells[id], f, Running, 2, HandlerPending(f, Initial))
    ensures Base(concurrency, s', f) && id in s'.cells
    ensures s' == s.(cells := s.cells[id := s'.cells[id]])
    ensures s'.cells[id].live == map[4 := CompleteStored(Initial)] && s'.cells[id].record.state == Complete
  {
    hide Reachable, RunLive, Has;
    FlowNamed(s.cells[id], f, Running, 2, HandlerPending(f, Initial));
    Handled(s.cells[id], f, 0);
    var s1 := Ran(concurrency, s, f, id, 2, Returned);
    FlowNamed(s1.cells[id], f, Running, 3, OutputGuard(f, Initial));
    Guarded(s1.cells[id], f, 0);
    s' := Ran(concurrency, s1, f, id, 3, Returned);
    FlowNamed(s'.cells[id], f, Complete, 4, CompleteStored(Initial));
  }

  /** Two executions about to free their slots, and two that queue. */
  lemma TwoFinishing() returns (s: State)
    ensures Base(2, s, Flow("f", 0, 0, 0)) && s.active == 2 && s.order == ["a", "b", "c", "d"]
    ensures s.cells.Keys == {"a", "b", "c", "d"}
    ensures s.cells["a"].live == s.cells["b"].live == map[4 := CompleteStored(Initial)]
    ensures Queueing(s.cells["c"]) && Queueing(s.cells["d"])
    ensures !Queueing(s.cells["a"]) && !Queueing(s.cells["b"])
    ensures s.cells["c"].record.flowName == "f" && s.cells["d"].record.flowName == "f"
    ensures s.index.Keys == {"a", "b", "c", "d"}
  {
    hide Reachable, Has, Blank;
    Keys();
    var f := Flow("f", 0, 0, 0);
    s := Registered0(2, f);
    s := Launched(2, s, f, "a", "a");
    s := Launched(2, s, f, "b", "b");
    s := Queues(2, s, f, "c", "c");
    s := Queues(2, s, f, "d", "d");
    s := Finishes(2, s, f, "a");
    s := Finishes(2, s, f, "b");
  }

  lemma FourReady(s: State)
    requires s.flows == map["f" := Flow("f", 0, 0, 0)] && s.loop == map[]
    requires s.order == ["a", "b", "c", "d"] && s.cells.Keys == {"a", "b", "c", "d"}
    requires Queueing(s.cells["c"]) && Queueing(s.cells["d"]) && !Queueing(s.cells["a"]) && !Queueing(s.cells["b"])
    requires s.cells["c"].record.flowName == "f" && s.cells["d"].record.flowName == "f"
    ensures Ordered(s) && FlowsReady(s) && |QueuedIds(s.cells, s.order)| >= 2
  {
    hide QueuedIds;
    TwoQueued(s.cells, s.order);
    FourOrdered(s);
    forall id | id in s.cells && Queueing(s.cells[id]) ensures s.cells[id].record.flowName in s.flows {
      assert id == "c" || id == "d";
    }
    hide Queueing, Ordered;
  }

  lemma FourOrdered(s: State)
    requires s.order == ["a", "b", "c", "d"] && s.cells.Keys == {"a", "b", "c", "d"}
    ensures Ordered(s)
  {
  }

  lemma TwoQueued(cells: map<Id, Cell>, order: seq<Id>)
    requires "c" in order && "d" in order && "c" in cells && "d" in cells
    requires Queueing(cells["c"]) && Queueing(cells["d"])
    ensures |QueuedIds(cells, order)| >= 2
  {
    hide QueuedIds;
    var queued := QueuedIds(cells, order);
    assert "c" in queued && "d" in queued;
    TwoIn(queued, "c", "d");
  }

  lemma TwoIn(ids: seq<Id>, x: Id, y: Id)
    requires x in ids && y in ids && x != y
    ensures |ids| >= 2
  {
    var i, j :| 0 <= i < |ids| && 0 <= j < |ids| && ids[i] == x && ids[j] == y;
  }

  lemma ReachFour(concurrency: int, s: State, e1: Event, e2: Event, e3: Event, e4: Event)
    requires Reachable(concurrency, s)
    ensures Reachable(concurrency, Apply(Apply(Apply(Apply(s, e1), e2), e3), e4))
  {
    hide Reachable, Apply;
    ReachNext(concurrency, s, e1);
    ReachNext(concurrency, Apply(s, e1), e2);
    ReachNext(concurrency, Apply(Apply(s, e1), e2), e3);
    ReachNext(concurrency, Apply(Apply(Apply(s, e1), e2), e3), e4);
  }

  /** One of their slots is left free beside a queued execution whose flow is registered. */
  lemma SlotLeftFree() returns (s: State)
    ensures Base(2, s, Flow("f", 0, 0, 0)) && s.active == 1 && s.order == ["a", "b", "c", "d"]
    ensures s.cells.Keys == s.index.Keys == {"a", "b", "c", "d"}
    ensures exists id :: id in s.cells && Queueing(s.cells[id])
  {
    hide Reachable, Apply, QueuedIds, Ordered, FlowsReady, Queueing;
    var full := TwoFinishing();
    FourReady(full);
    TwoFreedOneFilled(full, "a", "b", 4, 4);
    var n := full.loopNext;
    ReachFour(2, full, Run("a", 4, Returned), Run("b", 4, Returned), RunLoop(n, true, ""), RunLoop(n + 1, true, ""));
    s := Apply(Apply(Apply(Apply(full, Run("a", 4, Returned)), Run("b", 4, Returned)), RunLoop(n, true, "")),
               RunLoop(n + 1, true, ""));
  }

  /** Two runs: one leaves a slot free beside a queued execution, and in the next a later trigger takes that
      slot and starts first. */
  lemma QueueOvertaken()
    ensures exists steps: seq<Step> ::
              var s := After(2, steps);
              s.loop == map[] && s.active == 1 && exists id :: id in s.cells && Queueing(s.cells[id])
    ensures exists steps: seq<Step> ::
              var s := After(2, steps);
              && s.order == ["a", "b", "c", "d", "e"] && "e" in s.cells && s.cells["e"].record.state == Running
              && exists id :: id in s.cells && Queueing(s.cells[id])
  {
    hide Reachable, Has, Blank, After;
    var f := Flow("f", 0, 0, 0);
    var s := SlotLeftFree();
    Witness(2, s);
    var id :| id in s.cells && Queueing(s.cells[id]);
    Keys();
    s := Launched(2, s, f, "e", "e");
    FlowNamed(s.cells["e"], f, Running, 2, HandlerPending(f, Initial));
    assert id in s.cells && Queueing(s.cells[id]);
    Witness(2, s);
  }

  /** A run that stores two executions of one idempotency key. */
  lemma KeyStoredTwice()
    ensures exists steps: seq<Step> ::
              var s := After(1, steps);
              && "a" in s.cells && "b" in s.cells && !KeysUnique(s)
              && s.cells["a"].record.idempotencyKey == s.cells["b"].record.idempotencyKey
  {
    hide Reachable, Blank, KeysUnique;
    Keys();
    var f := Flow("f", 0, 0, 0);
    var call := TriggerCall("f", "a", Options(None, None));
    var s := Registered0(1, f);
    ReachNext(1, s, call);
    var once := Apply(s, call);
    ReachNext(1, once, call);
    var twice := Apply(once, call);
    var h := s.loopNext;
    RaceStoresTwice(twice, h, h + 1, "a", "b");
    hide Apply;
    ReachNext(1, twice, RunLoop(h, true, "a"));
    var first := Apply(twice, RunLoop(h, true, "a"));
    ReachNext(1, first, RunLoop(h + 1, true, "b"));
    Witness(1, Apply(first, RunLoop(h + 1, true, "b")));
  }

  // ---- Retries ----

  /** The handler of an execution is pending for the `k+1`-th time. */
  ghost predicate Trying(s: State, id: Id, h: Handle, f: Flow, k: nat) {
    && id in s.cells && s.cells[id].record.state == Running && s.cells[id].record.retryCount == k
    && s.cells[id].started == Some(f)
    && exists kind :: kind != Resumed && EngineProgress.At(s.cells[id], h, HandlerPending(f, kind))
  }

  lemma ReachableInv(concurrency: int, s: State)
    requires Reachable(concurrency, s)
    ensures Inv(s)
  {
    hide Inv, After;
    var steps: seq<Step> :| After(concurrency, steps) == s;
    AfterInv(concurrency, steps);
  }

  lemma HasTries(c: Cell, f: Flow)
    requires CellOk(c) && Has(c, f, Running, 2, HandlerPending(f, Initial))
    ensures EngineProgress.At(c, 2, HandlerPending(f, Initial)) && c.record.retryCount == 0
  {
    assert 2 in c.live;
  }

  lemma {:induction false} ThrowsOn(concurrency: int, s: State, id: Id, h: Handle, f: Flow, k: nat) returns (s': State)
    requires Reachable(concurrency, s) && Trying(s, id, h, f, k) && k <= f.maxRetries
    ensures Reachable(concurrency, s') && id in s'.cells && s'.cells[id].record.state == Failed
    ensures s'.cells[id].record.retryCount == f.maxRetries && s'.cells[id].completions == 1
    ensures s'.active == s.active - 1
    decreases f.maxRetries - k
  {
    hide Reachable, Inv, EngineProgress.Next, EngineProgress.At, EngineProgress.Handling;
    ReachableInv(concurrency, s);
    var kind :| kind != Resumed && EngineProgress.At(s.cells[id], h, HandlerPending(f, kind));
    EngineProgress.AtLive(s.cells[id], h, HandlerPending(f, kind));
    EngineProgress.AtNext(s.cells[id], h, HandlerPending(f, kind));
    s' := Thrown(concurrency, s, id, h, f, kind);
    if k < f.maxRetries {
      var again := RunsAgain(concurrency, s', id, h + 1, f);
      assert Trying(again, id, h + 4, f, k + 1);
      s' := ThrowsOn(concurrency, again, id, h + 4, f, k + 1);
    }
  }

  lemma Thrown(concurrency: int, s: State, id: Id, h: Handle, f: Flow, kind: Kind) returns (s': State)
    requires Reachable(concurrency, s) && id in s.cells && s.cells[id].record.state == Running && kind != Resumed
    requires EngineProgress.At(s.cells[id], h, HandlerPending(f, kind)) && s.cells[id].started == Some(f)
    ensures Reachable(concurrency, s') && id in s'.cells
    ensures s'.cells[id].started == Some(f)
    ensures if s.cells[id].record.retryCount < f.maxRetries then
              && s'.cells[id].record.state == Retrying && s'.active == s.active
              && s'.cells[id].record.retryCount == s.cells[id].record.retryCount + 1
              && EngineProgress.At(s'.cells[id], h + 1, RetryStored(f))
            else
              && s'.cells[id].record.state == Failed && s'.active == s.active - 1
              && s'.cells[id].record.retryCount == s.cells[id].record.retryCount && s'.cells[id].completions == 1
  {
    hide Inv, EngineProgress.Next;
    var steps: seq<Step> :| After(concurrency, steps) == s;
    ReachNext(concurrency, s, Run(id, h, ThrewRetryable));
    EngineProgress.NextApply(s, id, h, ThrewRetryable);
    EngineProgress.RetriedExactly(concurrency, steps, id, h);
    s' := EngineProgress.Next(s, id, h, ThrewRetryable);
    StartedStays(s, id, h, ThrewRetryable);
  }

  lemma StartedStays(s: State, id: Id, h: Handle, outcome: Outcome)
    requires id in s.cells && h in s.cells[id].live && !s.cells[id].live[h].TriggerStored?
    ensures id in EngineProgress.Next(s, id, h, outcome).cells
    ensures EngineProgress.Next(s, id, h, outcome).cells[id].started == s.cells[id].started
  {
    EngineProgress.NextIs(s, id, h, outcome);
    StartedKept(s.cells[id], h, outcome, s.active < s.concurrency, Registered(s, s.cells[id].record.flowName), s.clock);
    hide EngineProgress.Next, Registered, RunLive;
  }

  /** Only a first run captures a flow. */
  lemma StartedKept(c: Cell, h: Handle, outcome: Outcome, room: bool, registered: Option<Flow>, now: int)
    requires h in c.live && !c.live[h].TriggerStored?
    ensures RunLive(c, h, outcome, room, registered, now).cell.started == c.started
  {
    hide HasWaited, Handles, Transitioned, Terminal;
  }

  lemma RunsAgain(concurrency: int, s: State, id: Id, h: Handle, f: Flow) returns (s': State)
    requires Reachable(concurrency, s) && id in s.cells && s.cells[id].record.state == Retrying
    requires EngineProgress.At(s.cells[id], h, RetryStored(f)) && s.cells[id].started == Some(f)
    ensures Reachable(concurrency, s') && id in s'.cells && s'.cells[id].record.state == Running
    ensures s'.cells[id].record.retryCount == s.cells[id].record.retryCount && s'.active == s.active
    ensures EngineProgress.At(s'.cells[id], h + 3, HandlerPending(f, Retry)) && s'.cells[id].started == Some(f)
  {
    hide Reachable, EngineProgress.Next, EngineProgress.SameTimeout;
    EngineProgress.RetryCallsHandler(s, id, h, f);
    EngineProgress.RetrySteps(s, id, h, f);
    var s1 := EngineProgress.Next(s, id, h, Returned);
    ReachRun(concurrency, s, id, h);
    StartedStays(s, id, h, Returned);
    var s2 := EngineProgress.Next(s1, id, h + 1, Returned);
    ReachRun(concurrency, s1, id, h + 1);
    StartedStays(s1, id, h + 1, Returned);
    s' := EngineProgress.Next(s2, id, h + 2, Returned);
    ReachRun(concurrency, s2, id, h + 2);
    StartedStays(s2, id, h + 2, Returned);
  }

  lemma ReachRun(concurrency: int, s: State, id: Id, h: Handle)
    requires Reachable(concurrency, s)
    ensures Reachable(concurrency, EngineProgress.Next(s, id, h, Returned))
  {
    hide Reachable, EngineProgress.Next;
    ReachNext(concurrency, s, Run(id, h, Returned));
    EngineProgress.NextApply(s, id, h, Returned);
  }

  /** Whatever the limit: a run whose handler throws a retryable error each time, and fails after exactly as many
      retries as the flow allows. */
  lemma RetriesUntilLimit(limit: nat)
    ensures exists steps: seq<Step> ::
              var s := After(1, steps);
              && "a" in s.cells && s.cells["a"].record.state == Failed && s.cells["a"].record.retryCount == limit
              && s.cells["a"].completions == 1 && s.active == 0
  {
    hide Reachable, Has, Blank, Inv;
    Keys();
    var f := Flow("f", 0, limit, 0);
    var s := Registered0(1, f);
    s := Launched(1, s, f, "a", "a");
    ReachableInv(1, s);
    Tries(s, f);
    s := ThrowsOn(1, s, "a", 2, f, 0);
    Witness(1, s);
  }

  lemma Tries(s: State, f: Flow)
    requires Inv(s) && "a" in s.cells && Has(s.cells["a"], f, Running, 2, HandlerPending(f, Initial))
    ensures Trying(s, "a", 2, f, 0)
  {
    CellSound(s, "a");
    HasTries(s.cells["a"], f);
    FlowNamed(s.cells["a"], f, Running, 2, HandlerPending(f, Initial));
    EngineProgress.StartedFlow(s, "a", 2);
    hide Inv, Has, CellOk;
  }
}
