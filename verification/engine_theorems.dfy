/** The engine's promises, for every run and every interleaving. */
module EngineTheorems {
  import opened Wrappers
  import opened Executions
  import opened EngineSteps
  import opened EngineCells
  import opened EngineSlots
  import opened EngineLogs
  import opened EngineRuns

  // ---- Slot accounting ----

  /** No continuation is about to take or give back a slot. */
  ghost predicate Settled(c: Cell) {
    forall h :: h in c.live ==> !c.live[h].WaitStored? && !c.live[h].CompleteStored? && !c.live[h].ResumeStored?
  }

  predicate Busy(c: Cell) {
    c.record.state == Running || c.record.state == Retrying
  }

  function BusyCount(cells: map<Id, Cell>, ids: seq<Id>): nat
    requires Stored(cells, ids)
  {
    if ids == [] then 0 else One(Busy(cells[ids[0]])) + BusyCount(cells, ids[1..])
  }

  function LeakCount(cells: map<Id, Cell>, ids: seq<Id>): nat
    requires Stored(cells, ids)
  {
    if ids == [] then 0
    else cells[ids[0]].leakedDispatch + cells[ids[0]].leakedResume + LeakCount(cells, ids[1..])
  }

  lemma SettledHeld(c: Cell)
    requires Sound(c) && Settled(c)
    ensures Held(c, false) + Held(c, true) == One(Busy(c)) + c.leakedDispatch + c.leakedResume
  {
    hide RunLanguage, Chained, RetriesBounded, HasWaited;
    assert Owed(c.live, false) == {} && Owed(c.live, true) == {};
  }

  lemma {:induction false} SettledSum(cells: map<Id, Cell>, ids: seq<Id>)
    requires Stored(cells, ids)
    requires forall id :: id in ids ==> Sound(cells[id]) && Settled(cells[id])
    ensures HeldSum(cells, ids, false) + HeldSum(cells, ids, true) == BusyCount(cells, ids) + LeakCount(cells, ids)
  {
    if ids != [] {
      hide Sound, Settled, Held;
      SettledHeld(cells[ids[0]]);
      SettledSum(cells, ids[1..]);
    }
  }

  /** `activeExecutions` counts the executions that run or retry plus the slots lost to cancels. */
  lemma SlotAccounting(concurrency: int, steps: seq<Step>)
    ensures var s := After(concurrency, steps);
            && Stored(s.cells, s.order)
            && ((forall id :: id in s.cells ==> Settled(s.cells[id]))
                ==> s.active == BusyCount(s.cells, s.order) + LeakCount(s.cells, s.order))
  {
    hide Sound, Settled;
    var s := After(concurrency, steps);
    AfterInv(concurrency, steps);
    if forall id :: id in s.cells ==> Settled(s.cells[id]) {
      SettledSum(s.cells, s.order);
    }
  }

  // ---- The concurrency bound ----

  /** Slots taken through `dispatch` never exceed the limit; slots taken by `resume` come on top. */
  lemma ConcurrencyBound(concurrency: int, steps: seq<Step>)
    ensures var s := After(concurrency, steps);
            && Stored(s.cells, s.order)
            && HeldSum(s.cells, s.order, false) <= Positive(concurrency)
            && 0 <= s.active <= Positive(concurrency) + HeldSum(s.cells, s.order, true)
  {
    hide Sound;
    AfterInv(concurrency, steps);
  }

  predicate NoResume(steps: seq<Step>) {
    forall i :: 0 <= i < |steps| ==> !steps[i].event.ResumeCall?
  }

  predicate ResumeTask(t: Task) {
    t.ResumeStored?
    || ((t.HandlerPending? || t.OutputGuard? || t.CompleteStored? || t.WaitStored?) && t.kind == Resumed)
  }

  ghost predicate NeverResumed(c: Cell) {
    && (forall h :: h in c.live ==> !ResumeTask(c.live[h]))
    && (c.record.state != Waiting && c.record.state != Failed ==> !HasWaited(c.record))
    && c.leakedResume == 0
  }

  lemma NeverResumedHeld(c: Cell)
    requires NeverResumed(c)
    ensures Held(c, true) == 0
  {
    assert Owed(c.live, true) == {};
  }

  lemma NeverResumedHandler(c: Cell, flow: Flow, kind: Kind, outcome: Outcome, now: int)
    requires NeverResumed(c) && kind != Resumed
    ensures NeverResumed(RunHandler(c, flow, kind, outcome, now).cell)
    ensures NeverResumed(RunOutputGuard(c, flow, kind, outcome, now).cell)
  {
    hide HasWaited;
    MoveWaited(c.record, Complete, now);
    MoveWaited(c.record, Retrying, now);
    WaitedCount(Transitioned(c.record, Retrying, now), c.record.retryCount + 1);
  }

  lemma WaitedCount(r: Record, k: nat)
    ensures HasWaited(r.(retryCount := k)) == HasWaited(r)
  {
  }

  lemma NeverResumedTask(c: Cell, task: Task, outcome: Outcome, room: bool, registered: Option<Flow>, now: int)
    requires NeverResumed(c) && !ResumeTask(task)
    ensures NeverResumed(RunTask(c, task, outcome, room, registered, now).cell)
  {
    hide HasWaited, RunHandler, RunOutputGuard;
    MoveWaited(c.record, Running, now);
    if task.HandlerPending? || task.OutputGuard? {
      NeverResumedHandler(c, task.flow, task.kind, outcome, now);
    }
  }

  lemma NeverResumedRest(c: Cell, flow: Flow, room: bool, now: int)
    requires NeverResumed(c)
    ensures NeverResumed(Cancel(c, now))
    ensures NeverResumed(Start(c, flow, None, room, now).cell)
  {
    hide HasWaited;
    MoveWaited(c.record, Running, now);
  }

  ghost predicate NoneResumed(s: State) {
    forall id :: id in s.cells ==> NeverResumed(s.cells[id])
  }

  lemma NoneResumedLoop(s: State, h: Handle, passed: bool, newId: Id)
    requires NoneResumed(s) && h in s.loop
    ensures NoneResumed(RunLoopTask(s.(loop := s.loop - {h}), s.loop[h], passed, newId))
  {
    match s.loop[h]
    case TriggerChecked(flow, key, options) =>
      NewNeverResumed(flow, key, options, s.clock);
      hide NeverResumed, NewCell, Add, NewRecord;
    case DispatchSnapshot(id) =>
      hide NeverResumed, Start, QueuedIds, Oldest;
      if id in s.cells && s.cells[id].record.flowName in s.flows {
        NeverResumedRest(s.cells[id], s.flows[s.cells[id].record.flowName], s.active < s.concurrency, s.clock);
      }
  }

  lemma NewNeverResumed(flow: Flow, key: string, options: Options, now: int)
    ensures NeverResumed(Add(NewCell(NewRecord(flow.name, key, now), options), TriggerStored(flow)))
  {
  }

  lemma NoneResumedRun(s: State, id: Id, h: Handle, outcome: Outcome)
    requires NoneResumed(s) && id in s.cells && h in s.cells[id].live
    ensures NoneResumed(Apply(s, Run(id, h, outcome)))
  {
    var c, task := s.cells[id].(live := s.cells[id].live - {h}), s.cells[id].live[h];
    NeverResumedBegin(s.cells[id], h);
    hide NeverResumed, RunTask, QueuedIds, Oldest, Registered, ResumeTask;
    NeverResumedTask(c, task, outcome, s.active < s.concurrency, Registered(s, s.cells[id].record.flowName), s.clock);
  }

  lemma NeverResumedBegin(c: Cell, h: Handle)
    requires NeverResumed(c) && h in c.live
    ensures NeverResumed(c.(live := c.live - {h})) && !ResumeTask(c.live[h])
  {
    hide HasWaited;
  }

  lemma NoneResumedApply(s: State, e: Event)
    requires NoneResumed(s) && !e.ResumeCall?
    ensures NoneResumed(Apply(s, e))
  {
    hide NeverResumed, Cancel, RunLoopTask, RunLive, Blank;
    match e
    case Register(flow) =>
    case Unregister(name) =>
    case TriggerCall(flowName, key, options) =>
    case CancelCall(id) => if id in s.cells { NeverResumedRest(s.cells[id], Flow("", 0, 0, 0), false, s.clock); }
    case ResumeCall(id) =>
    case RunLoop(h, passed, newId) => if h in s.loop { NoneResumedLoop(s, h, passed, newId); }
    case Run(id, h, outcome) => if id in s.cells && h in s.cells[id].live { NoneResumedRun(s, id, h, outcome); }
  }

  lemma NoneResumedAdvance(s: State, step: Step)
    requires NoneResumed(s) && !step.event.ResumeCall?
    ensures NoneResumed(Advance(s, step))
  {
    hide NeverResumed, Apply;
    NoneResumedApply(s.(clock := s.clock + step.elapsed), step.event);
  }

  lemma {:induction false} NoneResumedAfter(concurrency: int, steps: seq<Step>)
    requires NoResume(steps)
    ensures NoneResumed(After(concurrency, steps))
  {
    if steps != [] {
      hide NoneResumed, Advance;
      NoneResumedAfter(concurrency, steps[..|steps| - 1]);
      NoneResumedAdvance(After(concurrency, steps[..|steps| - 1]), steps[|steps| - 1]);
    }
  }

  lemma {:induction false} NoneResumedSum(cells: map<Id, Cell>, ids: seq<Id>)
    requires Stored(cells, ids) && forall id :: id in ids ==> NeverResumed(cells[id])
    ensures HeldSum(cells, ids, true) == 0
  {
    if ids != [] {
      NeverResumedHeld(cells[ids[0]]);
      NoneResumedSum(cells, ids[1..]);
    }
  }

  /** With no resume the limit is never exceeded. */
  lemma LimitWithoutResume(concurrency: int, steps: seq<Step>)
    requires NoResume(steps)
    ensures 0 <= After(concurrency, steps).active <= Positive(concurrency)
  {
    hide Sound, NeverResumed;
    var s := After(concurrency, steps);
    AfterInv(concurrency, steps);
    NoneResumedAfter(concurrency, steps);
    NoneResumedSum(s.cells, s.order);
  }

  // ---- The run language, one start, one driver, one ending ----

  /** Every log is a chain of table moves in the run language: its retry count is the number of
      retries, within the limit of the flow its first run captured, and all of them before any wait. */
  lemma RunLanguageHolds(concurrency: int, steps: seq<Step>, id: Id)
    requires id in After(concurrency, steps).cells
    ensures var c := After(concurrency, steps).cells[id];
            && RunLanguage(c.record) && Chained(c.record)
            && (c.record.retryCount > 0 ==> c.started.Some? && c.record.retryCount <= c.started.value.maxRetries)
  {
    hide RunLanguage, Chained, HeldSum;
    AfterInv(concurrency, steps);
    CellSound(After(concurrency, steps), id);
  }

  lemma EndsOnce(r: Record, i: nat)
    requires RunLanguage(r) && Chained(r) && i < |r.transitions|
    ensures r.transitions[i].from == Queued <==> i == 0
    ensures Terminal(r.transitions[i].to) ==> i == |r.transitions| - 1 && r.state == r.transitions[i].to
  {
    QueuedOnlyFirst(r, i);
    hide RunLanguage;
    if i < |r.transitions| - 1 {
      assert Allowed(r.transitions[i + 1].from, r.transitions[i + 1].to);
    }
  }

  /** An execution leaves `Queued` at most once, and its log names at most one terminal state, the last. */
  lemma OneStartOneEnd(concurrency: int, steps: seq<Step>, id: Id, i: nat)
    requires id in After(concurrency, steps).cells
    requires i < |After(concurrency, steps).cells[id].record.transitions|
    ensures var r := After(concurrency, steps).cells[id].record;
            && (r.transitions[i].from == Queued <==> i == 0)
            && (Terminal(r.transitions[i].to) ==> i == |r.transitions| - 1 && r.state == r.transitions[i].to)
  {
    hide After, RunLanguage, Chained;
    RunLanguageHolds(concurrency, steps, id);
    EndsOnce(After(concurrency, steps).cells[id].record, i);
  }

  /** At most one task carries an execution forward, so at most one handler of it is in flight. One does while
      the execution runs or retries, none while it is queued or waiting; a complete one is at most still
      stored, and what is left of a failed one changes no record (`TerminalForever`). */
  lemma OneDriver(concurrency: int, steps: seq<Step>, id: Id, h1: Handle, h2: Handle)
    requires id in After(concurrency, steps).cells
    ensures var c := After(concurrency, steps).cells[id];
            && (h1 in c.live && h2 in c.live && Drives(c.live[h1]) && Drives(c.live[h2]) ==> h1 == h2)
            && (Busy(c) ==> HasDriver(c))
            && (c.record.state == Queued || c.record.state == Waiting ==> !HasDriver(c))
            && (c.record.state == Complete && HasDriver(c) ==> c.live[c.runner.value].CompleteStored?)
  {
    AfterInv(concurrency, steps);
    CellSound(After(concurrency, steps), id);
    hide After, RunLanguage, Chained, RetriesBounded, TimersKnown, HasWaited;
  }

  /** One ending, one event: a live execution has sent none, a failed one has sent exactly one,
      a complete one sends exactly one, when its result is stored. */
  lemma OneEnding(concurrency: int, steps: seq<Step>, id: Id)
    requires id in After(concurrency, steps).cells
    ensures var c := After(concurrency, steps).cells[id];
            && c.completions <= 1
            && (c.completions == 1 ==> Terminal(c.record.state))
            && (c.record.state == Failed ==> c.completions == 1)
            && (Terminal(c.record.state) ==>
                  (c.completions == 0 <==> HasDriver(c) && c.live[c.runner.value].CompleteStored?))
  {
    AfterInv(concurrency, steps);
    CellSound(After(concurrency, steps), id);
    hide After, RunLanguage, Chained, RetriesBounded, TimersKnown, HasWaited;
  }

  /** A terminal execution never changes again, and no event is taken back. */
  ghost predicate Grows(c: Cell, c': Cell) {
    && (Terminal(c.record.state) ==> c'.record == c.record)
    && c.completions <= c'.completions
  }

  lemma GrowsCalls(c: Cell, now: int)
    ensures Grows(c, c) && Grows(c, Cancel(c, now)) && Grows(c, Resume(c, now))
  {
  }

  lemma GrowsStart(c: Cell, flow: Flow, timeout: Option<int>, room: bool, now: int)
    ensures Grows(c, Start(c, flow, timeout, room, now).cell)
  {
  }

  lemma HandlerCompletions(c: Cell, flow: Flow, kind: Kind, outcome: Outcome, now: int)
    ensures c.completions <= RunHandler(c, flow, kind, outcome, now).cell.completions
    ensures c.completions <= RunOutputGuard(c, flow, kind, outcome, now).cell.completions
  {
  }

  lemma SegmentCompletions(c: Cell, h: Handle, outcome: Outcome, room: bool, registered: Option<Flow>, now: int)
    requires h in c.live
    ensures c.completions <= RunLive(c, h, outcome, room, registered, now).cell.completions
  {
    hide RunHandler, RunOutputGuard, HasWaited;
    if c.live[h].HandlerPending? || c.live[h].OutputGuard? {
      HandlerCompletions(c.(live := c.live - {h}), c.live[h].flow, c.live[h].kind, outcome, now);
    }
  }

  lemma GrowsSegment(c: Cell, h: Handle, outcome: Outcome, room: bool, registered: Option<Flow>, now: int)
    requires Sound(c) && h in c.live
    ensures Grows(c, RunLive(c, h, outcome, room, registered, now).cell)
  {
    hide CellOk, RunLanguage, Chained, RetriesBounded, InFlight, HasWaited, RunTask;
    Begin(c, h);
    RunTaskStep(c.(live := c.live - {h}), c.live[h], outcome, room, registered, now);
    SegmentCompletions(c, h, outcome, room, registered, now);
  }

  lemma GrowsNone(c: Cell)
    ensures Grows(c, c)
  {
  }

  lemma GrowsLoop(s: State, h: Handle, passed: bool, newId: Id, id: Id)
    requires Inv(s) && id in s.cells && h in s.loop
    ensures var s' := Apply(s, RunLoop(h, passed, newId)); id in s'.cells && Grows(s.cells[id], s'.cells[id])
  {
    hide Inv, Grows, Start, QueuedIds, Oldest, NewCell, Add, NewRecord;
    var c := s.cells[id];
    GrowsNone(c);
    if c.record.flowName in s.flows {
      GrowsStart(c, s.flows[c.record.flowName], None, s.active < s.concurrency, s.clock);
    }
  }

  lemma TerminalForever(s: State, e: Event, id: Id)
    requires Inv(s) && id in s.cells
    ensures id in Apply(s, e).cells && Grows(s.cells[id], Apply(s, e).cells[id])
  {
    hide Inv, Grows, RunLive, RunLoopTask, Cancel, Resume, QueuedIds, Oldest, Registered, Blank;
    var c := s.cells[id];
    GrowsCalls(c, s.clock);
    if e.RunLoop? && e.loopHandle in s.loop {
      GrowsLoop(s, e.loopHandle, e.passed, e.newId, id);
    } else if e.Run? && e.id == id && e.handle in c.live {
      CellSound(s, id);
      GrowsSegment(c, e.handle, e.outcome, s.active < s.concurrency, Registered(s, c.record.flowName), s.clock);
    }
  }
}
