/** Exactly when slots are lost, and exactly when the limit is passed. */
module EngineLosses {
  import opened Wrappers
  import opened Executions
  import opened EngineSteps
  import opened EngineCells
  import opened EngineSlots
  import opened EngineRuns
  import opened EngineTheorems

  // ---- The events that lose a slot ----

  /** `resume` goes on after its await: the flow is found and the run has time left. */
  predicate Reenters(c: Cell, registered: Option<Flow>) {
    (c.handler.Some? || registered.Some?) && (c.remaining.None? || c.remaining.value > 0)
  }

  /** The continuation of a resume takes a slot. */
  predicate ResumeTakes(s: State, e: Event) {
    && e.Run? && e.id in s.cells && e.handle in s.cells[e.id].live
    && s.cells[e.id].live[e.handle].ResumeStored?
    && Reenters(s.cells[e.id], Registered(s, s.cells[e.id].record.flowName))
  }

  /** A cancel of an execution that holds a slot, or a resume that takes one for an execution cancelled
      during its await. */
  predicate LosesSlot(s: State, e: Event) {
    || (e.CancelCall? && e.id in s.cells && HoldsSlot(s.cells[e.id]))
    || (ResumeTakes(s, e) && Terminal(s.cells[e.id].record.state))
  }

  function Leaks(c: Cell): nat {
    c.leakedDispatch + c.leakedResume
  }

  lemma CallLeaks(c: Cell, now: int)
    ensures Leaks(Cancel(c, now)) == Leaks(c) + One(HoldsSlot(c))
    ensures Leaks(Resume(c, now)) == Leaks(c)
  {
    hide HasWaited;
  }

  lemma StartLeaks(c: Cell, flow: Flow, timeout: Option<int>, room: bool, now: int)
    ensures Leaks(Start(c, flow, timeout, room, now).cell) == Leaks(c)
  {
  }

  lemma HandlerLeaks(c: Cell, flow: Flow, kind: Kind, outcome: Outcome, now: int)
    ensures Leaks(RunHandler(c, flow, kind, outcome, now).cell) == Leaks(c)
    ensures Leaks(RunOutputGuard(c, flow, kind, outcome, now).cell) == Leaks(c)
  {
  }

  lemma TimerLeaks(c: Cell, flow: Flow, now: int)
    ensures Leaks(RunTimeoutTimer(c, now).cell) == Leaks(RunWaitTimer(c, now)) == Leaks(c)
    ensures Leaks(RunRetryTimer(c, flow, now)) == Leaks(c)
  {
  }

  lemma StoredLeaks(c: Cell, flow: Flow, timeout: Option<int>)
    ensures Leaks(RunRunStored(c, flow, timeout)) == Leaks(RunRetryStored(c, flow)) == Leaks(c)
    ensures Leaks(RunWaitStored(c, flow).cell) == Leaks(RunCompleteStored(c).cell) == Leaks(c)
    ensures Leaks(Drive(c, HandlerPending(flow, Retry))) == Leaks(c)
  {
  }

  lemma ResumedLeaks(c: Cell, registered: Option<Flow>, now: int)
    ensures Leaks(RunResumeStored(c, registered, now).cell)
         == Leaks(c) + One(Reenters(c, registered) && Terminal(c.record.state))
  {
  }

  lemma SameLeaks(c: Cell, h: Handle, registered: Option<Flow>)
    ensures var rest := c.(live := c.live - {h});
            Leaks(rest) == Leaks(c) && Reenters(rest, registered) == Reenters(c, registered)
  {
  }

  lemma SegmentLeaks(c: Cell, h: Handle, outcome: Outcome, room: bool, registered: Option<Flow>, now: int)
    requires h in c.live
    ensures Leaks(RunLive(c, h, outcome, room, registered, now).cell)
         == Leaks(c) + One(c.live[h].ResumeStored? && Reenters(c, registered) && Terminal(c.record.state))
  {
    hide HasWaited, RunHandler, RunOutputGuard, RunResumeStored, Start, RunRunStored, RunRetryStored, RunWaitStored;
    hide RunRetryTimer, RunTimeoutTimer, RunWaitTimer, RunCompleteStored, Drive, Leaks, Reenters, Terminal;
    var rest, task := c.(live := c.live - {h}), c.live[h];
    SameLeaks(c, h, registered);
    ResumedLeaks(rest, registered, now);
    match task {
      case HandlerPending(flow, kind) => HandlerLeaks(rest, flow, kind, outcome, now);
      case OutputGuard(flow, kind) => HandlerLeaks(rest, flow, kind, outcome, now);
      case TriggerStored(flow) => StartLeaks(rest, flow, rest.options.timeout, room, now);
      case RunStored(flow, timeout) => StoredLeaks(rest, flow, timeout);
      case RetryStored(flow) => StoredLeaks(rest, flow, None);
      case RetryRunStored(flow) => StoredLeaks(rest, flow, None);
      case WaitStored(flow, kind) => StoredLeaks(rest, flow, None);
      case RetryTimer(flow) => TimerLeaks(rest, flow, now);
      case _ =>
        TimerLeaks(rest, Flow("", 0, 0, 0), now);
        StoredLeaks(rest, Flow("", 0, 0, 0), None);
    }
  }

  lemma {:induction false} LeaksUntouched(cells: map<Id, Cell>, ids: seq<Id>, id: Id, cell: Cell)
    requires Stored(cells, ids) && id !in ids
    ensures LeakCount(cells[id := cell], ids) == LeakCount(cells, ids)
  {
    if ids != [] { LeaksUntouched(cells, ids[1..], id, cell); }
  }

  lemma {:induction false} LeaksUpdate(cells: map<Id, Cell>, ids: seq<Id>, id: Id, cell: Cell)
    requires Stored(cells, ids) && Distinct(ids) && id in ids
    ensures LeakCount(cells[id := cell], ids) == LeakCount(cells, ids) - Leaks(cells[id]) + Leaks(cell)
  {
    if ids[0] == id {
      LeaksUntouched(cells, ids[1..], id, cell);
    } else {
      LeaksUpdate(cells, ids[1..], id, cell);
    }
  }

  lemma {:induction false} LeaksAppend(cells: map<Id, Cell>, ids: seq<Id>, id: Id)
    requires Stored(cells, ids + [id])
    ensures Stored(cells, ids) && LeakCount(cells, ids + [id]) == LeakCount(cells, ids) + Leaks(cells[id])
  {
    assert forall i :: i in ids ==> i in ids + [id];
    if ids != [] {
      assert (ids + [id])[1..] == ids[1..] + [id];
      LeaksAppend(cells, ids[1..], id);
    } else {
      assert id in ids + [id];
    }
  }

  lemma UpdateLeaks(s: State, id: Id, e: Effect)
    requires Inv(s) && id in s.cells
    ensures Stored(Update(s, id, e).cells, Update(s, id, e).order) && Stored(s.cells, s.order)
    ensures LeakCount(Update(s, id, e).cells, Update(s, id, e).order)
         == LeakCount(s.cells, s.order) - Leaks(s.cells[id]) + Leaks(e.cell)
  {
    hide Sound, HeldSum, Leaks, QueuedIds, Oldest;
    LeaksUpdate(s.cells, s.order, id, e.cell);
  }

  lemma StoreLeaks(s: State, id: Id, flow: Flow, key: string, options: Options)
    requires Inv(s) && id !in s.cells
    ensures var s' := Store(s, id, flow, key, options);
            && Stored(s'.cells, s'.order) && Stored(s.cells, s.order)
            && LeakCount(s'.cells, s'.order) == LeakCount(s.cells, s.order)
  {
    hide Sound, HeldSum, NewRecord;
    var cell := Add(NewCell(NewRecord(flow.name, key, s.clock), options), TriggerStored(flow));
    assert Leaks(cell) == 0;
    hide NewCell, Add, Leaks;
    assert forall i :: i in s.order + [id] ==> i in s.cells[id := cell];
    LeaksUntouched(s.cells, s.order, id, cell);
    LeaksAppend(s.cells[id := cell], s.order, id);
  }

  /** Each event adds to the slots lost exactly when it loses one; none is ever given back. */
  lemma LeaksStep(s: State, e: Event)
    requires Inv(s)
    ensures Stored(Apply(s, e).cells, Apply(s, e).order) && Stored(s.cells, s.order)
    ensures LeakCount(Apply(s, e).cells, Apply(s, e).order) == LeakCount(s.cells, s.order) + One(LosesSlot(s, e))
  {
    hide Inv, Leaks, HoldsSlot, Reenters, Cancel, Resume, RunLive, Start, Update, Store, Registered, QueuedIds, Oldest;
    ApplyInv(s, e);
    InvStored(s);
    match e
    case Register(flow) =>
    case Unregister(name) =>
    case TriggerCall(flowName, key, options) =>
    case CancelCall(id) =>
      if id in s.cells {
        CallLeaks(s.cells[id], s.clock);
        UpdateLeaks(s, id, Effect(Cancel(s.cells[id], s.clock), 0, false));
      }
    case ResumeCall(id) =>
      if id in s.cells {
        CallLeaks(s.cells[id], s.clock);
        UpdateLeaks(s, id, Effect(Resume(s.cells[id], s.clock), 0, false));
      }
    case RunLoop(h, passed, newId) => if h in s.loop { LoopLeaks(s, h, passed, newId); }
    case Run(id, h, outcome) =>
      if id in s.cells && h in s.cells[id].live {
        var c, room, registered := s.cells[id], s.active < s.concurrency, Registered(s, s.cells[id].record.flowName);
        SegmentLeaks(c, h, outcome, room, registered, s.clock);
        UpdateLeaks(s, id, RunLive(c, h, outcome, room, registered, s.clock));
      }
  }

  lemma InvStored(s: State)
    requires Inv(s)
    ensures Stored(s.cells, s.order)
  {
  }

  lemma LoopLeaks(s: State, h: Handle, passed: bool, newId: Id)
    requires Inv(s) && h in s.loop
    ensures var s' := RunLoopTask(s.(loop := s.loop - {h}), s.loop[h], passed, newId);
            && Stored(s'.cells, s'.order) && Stored(s.cells, s.order)
            && LeakCount(s'.cells, s'.order) == LeakCount(s.cells, s.order)
  {
    hide Sound, HeldSum, Leaks, Start, Update, Store;
    var popped := s.(loop := s.loop - {h});
    match s.loop[h]
    case TriggerChecked(flow, key, options) =>
      if newId !in s.cells { StoreLeaks(popped, newId, flow, key, options); }
    case DispatchSnapshot(id) =>
      if id in s.cells && s.cells[id].record.flowName in s.flows {
        var flow, room := s.flows[s.cells[id].record.flowName], s.active < s.concurrency;
        StartLeaks(s.cells[id], flow, None, room, s.clock);
        UpdateLeaks(popped, id, Start(s.cells[id], flow, None, room, s.clock));
      }
  }

  // ---- Slot accounting over runs ----

  /** How many events of a run lose a slot. */
  function Losses(concurrency: int, steps: seq<Step>): nat {
    if steps == [] then 0
    else
      var front := steps[..|steps| - 1];
      Losses(concurrency, front) + One(LosesSlot(After(concurrency, front), steps[|steps| - 1].event))
  }

  lemma AdvanceLeaks(s: State, step: Step)
    requires Inv(s)
    ensures var s' := Advance(s, step);
            && Stored(s'.cells, s'.order) && Stored(s.cells, s.order)
            && LeakCount(s'.cells, s'.order) == LeakCount(s.cells, s.order) + One(LosesSlot(s, step.event))
  {
    hide Inv, Apply, LosesSlot, LeakCount;
    LaterInv(s, step.elapsed);
    LaterLoses(s, step);
    LeaksStep(s.(clock := s.clock + step.elapsed), step.event);
  }

  lemma {:induction false} LeaksAreLosses(concurrency: int, steps: seq<Step>)
    ensures var s := After(concurrency, steps);
            Stored(s.cells, s.order) && LeakCount(s.cells, s.order) == Losses(concurrency, steps)
  {
    if steps != [] {
      hide Inv, Advance, LosesSlot, LeakCount, Stored;
      LeaksAreLosses(concurrency, steps[..|steps| - 1]);
      AfterInv(concurrency, steps[..|steps| - 1]);
      AdvanceLeaks(After(concurrency, steps[..|steps| - 1]), steps[|steps| - 1]);
    }
  }

  lemma LaterLoses(s: State, step: Step)
    ensures LosesSlot(s.(clock := s.clock + step.elapsed), step.event) == LosesSlot(s, step.event)
  {
    hide HoldsSlot, Reenters;
  }

  /** When no continuation is about to take or give back a slot, `activeExecutions` is the number of running
      and retrying executions and one for every event of the run that lost a slot: none comes back. */
  lemma SlotsAndLosses(concurrency: int, steps: seq<Step>)
    ensures var s := After(concurrency, steps);
            && Stored(s.cells, s.order)
            && ((forall id :: id in s.cells ==> Settled(s.cells[id]))
                ==> s.active == BusyCount(s.cells, s.order) + Losses(concurrency, steps))
  {
    hide Settled, After;
    SlotAccounting(concurrency, steps);
    LeaksAreLosses(concurrency, steps);
  }

  ghost predicate LosesNone(concurrency: int, steps: seq<Step>) {
    forall i :: 0 <= i < |steps| ==> !LosesSlot(After(concurrency, steps[..i]), steps[i].event)
  }

  lemma NoLossPrefix(concurrency: int, steps: seq<Step>, n: nat)
    requires n + 1 == |steps|
    ensures LosesNone(concurrency, steps)
        <==> LosesNone(concurrency, steps[..n]) && !LosesSlot(After(concurrency, steps[..n]), steps[n].event)
  {
    hide LosesSlot, After;
    var front := steps[..n];
    assert forall i :: 0 <= i < n ==> front[..i] == steps[..i];
    if LosesNone(concurrency, steps) {
      forall i | 0 <= i < n ensures !LosesSlot(After(concurrency, front[..i]), front[i].event) {
        assert !LosesSlot(After(concurrency, steps[..i]), steps[i].event);
      }
    }
  }

  lemma {:induction false} NoLossCounted(concurrency: int, steps: seq<Step>)
    ensures LosesNone(concurrency, steps) <==> Losses(concurrency, steps) == 0
  {
    if steps != [] {
      hide LosesSlot, After, LosesNone;
      NoLossCounted(concurrency, steps[..|steps| - 1]);
      NoLossPrefix(concurrency, steps, |steps| - 1);
    } else {
      assert LosesNone(concurrency, steps);
    }
  }

  /** `activeExecutions` is exactly the number of running and retrying executions if and only if no event of
      the run has lost a slot. */
  lemma ExactSlots(concurrency: int, steps: seq<Step>)
    ensures var s := After(concurrency, steps);
            && Stored(s.cells, s.order)
            && ((forall id :: id in s.cells ==> Settled(s.cells[id]))
                ==> (s.active == BusyCount(s.cells, s.order) <==> LosesNone(concurrency, steps)))
  {
    hide Settled, After, LosesNone;
    SlotsAndLosses(concurrency, steps);
    NoLossCounted(concurrency, steps);
  }

  // ---- Runs that cancel no running or retrying execution lose no slot ----

  predicate Harmless(s: State, e: Event) {
    e.CancelCall? && e.id in s.cells ==> !Busy(s.cells[e.id])
  }

  ghost predicate HarmlessRun(concurrency: int, steps: seq<Step>) {
    steps == []
    || (HarmlessRun(concurrency, steps[..|steps| - 1])
        && Harmless(After(concurrency, steps[..|steps| - 1]), steps[|steps| - 1].event))
  }

  ghost predicate Unharmed(c: Cell) {
    && c.leakedDispatch == 0 && c.leakedResume == 0
    && forall h :: h in c.live && c.live[h].ResumeStored? ==> c.record.state == Running
  }

  lemma UnharmedDriver(c: Cell, task: Task, outcome: Outcome, room: bool, registered: Option<Flow>, now: int)
    requires Drives(task) && (task.ResumeStored? ==> c.record.state == Running)
    requires c.leakedDispatch == 0 && c.leakedResume == 0
    requires forall h :: h in c.live ==> !c.live[h].ResumeStored?
    ensures Unharmed(RunTask(c, task, outcome, room, registered, now).cell)
  {
    hide RunHandler, RunOutputGuard, HasWaited;
    if task.HandlerPending? || task.OutputGuard? {
      UnharmedHandler(c, task.flow, task.kind, outcome, now);
    }
  }

  lemma UnharmedPassive(c: Cell, task: Task, outcome: Outcome, room: bool, registered: Option<Flow>, now: int)
    requires !Drives(task) && Unharmed(c)
    requires task.TimeoutTimer? && c.record.state == Running ==> forall h :: h in c.live ==> !c.live[h].ResumeStored?
    ensures Unharmed(RunTask(c, task, outcome, room, registered, now).cell)
  {
  }

  lemma UnharmedRun(c: Cell, h: Handle, outcome: Outcome, room: bool, registered: Option<Flow>, now: int)
    requires CellOk(c) && Unharmed(c) && h in c.live
    ensures Unharmed(RunLive(c, h, outcome, room, registered, now).cell)
  {
    hide HasWaited, TimersKnown, Sent, RunTask;
    var rest := c.(live := c.live - {h});
    if Drives(c.live[h]) {
      UnharmedDriver(rest, c.live[h], outcome, room, registered, now);
    } else {
      UnharmedPassive(rest, c.live[h], outcome, room, registered, now);
    }
  }

  lemma UnharmedCalls(c: Cell, now: int)
    requires CellOk(c) && Unharmed(c)
    ensures !Busy(c) ==> Unharmed(Cancel(c, now))
    ensures Unharmed(Resume(c, now))
  {
    hide HasWaited, TimersKnown, Sent;
  }

  lemma UnharmedStart(c: Cell, flow: Flow, timeout: Option<int>, room: bool, now: int)
    requires Unharmed(c)
    ensures Unharmed(Start(c, flow, timeout, room, now).cell)
  {
  }

  lemma UnharmedHandler(c: Cell, flow: Flow, kind: Kind, outcome: Outcome, now: int)
    requires c.leakedDispatch == 0 && c.leakedResume == 0
    requires forall h :: h in c.live ==> !c.live[h].ResumeStored?
    ensures Unharmed(RunHandler(c, flow, kind, outcome, now).cell)
    ensures Unharmed(RunOutputGuard(c, flow, kind, outcome, now).cell)
  {
  }

  ghost predicate AllUnharmed(s: State) {
    forall id :: id in s.cells ==> Unharmed(s.cells[id])
  }

  lemma UnharmedLoop(s: State, h: Handle, passed: bool, newId: Id)
    requires AllUnharmed(s) && h in s.loop
    ensures AllUnharmed(RunLoopTask(s.(loop := s.loop - {h}), s.loop[h], passed, newId))
  {
    hide Unharmed, Start, NewCell, Add, NewRecord;
    match s.loop[h]
    case TriggerChecked(flow, key, options) =>
      UnharmedNew(NewRecord(flow.name, key, s.clock), options, TriggerStored(flow));
    case DispatchSnapshot(id) =>
      if id in s.cells && s.cells[id].record.flowName in s.flows {
        UnharmedStart(s.cells[id], s.flows[s.cells[id].record.flowName], None, s.active < s.concurrency, s.clock);
      }
  }

  lemma UnharmedApply(s: State, e: Event)
    requires Inv(s) && AllUnharmed(s) && Harmless(s, e)
    ensures AllUnharmed(Apply(s, e))
  {
    hide Inv, Cancel, Resume, RunLive, RunLoopTask, Unharmed, QueuedIds, Oldest, Registered, Blank;
    match e
    case Register(flow) =>
    case Unregister(name) =>
    case TriggerCall(flowName, key, options) =>
    case CancelCall(id) => if id in s.cells { SoundCell(s, id); UnharmedCalls(s.cells[id], s.clock); }
    case ResumeCall(id) => if id in s.cells { SoundCell(s, id); UnharmedCalls(s.cells[id], s.clock); }
    case RunLoop(h, passed, newId) => if h in s.loop { UnharmedLoop(s, h, passed, newId); }
    case Run(id, h, outcome) =>
      if id in s.cells && h in s.cells[id].live {
        SoundCell(s, id);
        UnharmedRun(s.cells[id], h, outcome, s.active < s.concurrency,
                    Registered(s, s.cells[id].record.flowName), s.clock);
      }
  }

  lemma SoundCell(s: State, id: Id)
    requires Inv(s) && id in s.cells
    ensures CellOk(s.cells[id])
  {
  }

  lemma UnharmedNew(r: Record, options: Options, task: Task)
    requires task.TriggerStored?
    ensures Unharmed(Add(NewCell(r, options), task))
  {
  }

  lemma UnharmedAdvance(s: State, step: Step)
    requires Inv(s) && AllUnharmed(s) && Harmless(s, step.event)
    ensures AllUnharmed(Advance(s, step))
  {
    hide Unharmed, Apply, Sound, HeldSum;
    UnharmedApply(s.(clock := s.clock + step.elapsed), step.event);
  }

  lemma {:induction false} UnharmedAfter(concurrency: int, steps: seq<Step>)
    requires HarmlessRun(concurrency, steps)
    ensures AllUnharmed(After(concurrency, steps))
  {
    if steps != [] {
      hide Inv, AllUnharmed, Advance, Harmless;
      var front := steps[..|steps| - 1];
      UnharmedAfter(concurrency, front);
      AfterInv(concurrency, front);
      UnharmedAdvance(After(concurrency, front), steps[|steps| - 1]);
    }
  }

  lemma {:induction false} UnharmedLeaks(cells: map<Id, Cell>, ids: seq<Id>)
    requires Stored(cells, ids) && forall id :: id in ids ==> Unharmed(cells[id])
    ensures LeakCount(cells, ids) == 0
  {
    if ids != [] { UnharmedLeaks(cells, ids[1..]); }
  }

  /** Such runs lose no slot. */
  lemma HarmlessLosesNone(concurrency: int, steps: seq<Step>)
    requires HarmlessRun(concurrency, steps)
    ensures LosesNone(concurrency, steps)
  {
    hide Sound, Unharmed, LosesNone;
    var s := After(concurrency, steps);
    AfterInv(concurrency, steps);
    UnharmedAfter(concurrency, steps);
    UnharmedLeaks(s.cells, s.order);
    LeaksAreLosses(concurrency, steps);
    NoLossCounted(concurrency, steps);
  }

  // ---- The limit ----

  lemma SegmentSlots(c: Cell, h: Handle, outcome: Outcome, room: bool, registered: Option<Flow>, now: int)
    requires h in c.live
    ensures var e := RunLive(c, h, outcome, room, registered, now);
            && e.slots <= 1
            && (c.live[h].ResumeStored? && Reenters(c, registered) ==> e.slots == 1)
            && (e.slots == 1 && !room ==> c.live[h].ResumeStored? && Reenters(c, registered))
  {
    hide HasWaited;
  }

  /** From within the limit, an event passes it if and only if it is a resume that takes a slot while all
      are taken. */
  lemma PassesLimitExactly(s: State, e: Event)
    requires s.active <= s.concurrency
    ensures Apply(s, e).active > s.concurrency <==> ResumeTakes(s, e) && s.active == s.concurrency
  {
    hide Reenters, Cancel, Resume, RunLive, Registered, QueuedIds, Oldest, Blank, HasWaited;
    if e.Run? && e.id in s.cells && e.handle in s.cells[e.id].live {
      SegmentSlots(s.cells[e.id], e.handle, e.outcome, s.active < s.concurrency,
                   Registered(s, s.cells[e.id].record.flowName), s.clock);
    }
  }

  ghost predicate WithinLimit(concurrency: int, steps: seq<Step>) {
    forall i :: 0 <= i <= |steps| ==> After(concurrency, steps[..i]).active <= concurrency
  }

  ghost predicate ResumesWithRoom(concurrency: int, steps: seq<Step>) {
    forall i :: 0 <= i < |steps| ==>
      var s := After(concurrency, steps[..i]);
      ResumeTakes(s, steps[i].event) ==> s.active < concurrency
  }

  lemma NextState(concurrency: int, steps: seq<Step>, i: nat)
    requires i < |steps|
    ensures After(concurrency, steps[..i + 1]) == Advance(After(concurrency, steps[..i]), steps[i])
    ensures After(concurrency, steps[..i]).concurrency == concurrency
  {
    assert steps[..i + 1][..i] == steps[..i];
    hide Advance, Inv;
    AfterInv(concurrency, steps[..i]);
  }

  lemma AdvancePasses(s: State, step: Step)
    requires s.active <= s.concurrency
    ensures Advance(s, step).active > s.concurrency <==> ResumeTakes(s, step.event) && s.active == s.concurrency
  {
    hide Apply, Reenters;
    PassesLimitExactly(s.(clock := s.clock + step.elapsed), step.event);
  }

  lemma {:induction false} WithinWhile(concurrency: int, steps: seq<Step>, n: nat)
    requires 0 <= concurrency && n <= |steps| && ResumesWithRoom(concurrency, steps)
    ensures After(concurrency, steps[..n]).active <= concurrency
    decreases n
  {
    if n > 0 {
      hide Advance, ResumeTakes;
      WithinWhile(concurrency, steps, n - 1);
      NextState(concurrency, steps, n - 1);
      AdvancePasses(After(concurrency, steps[..n - 1]), steps[n - 1]);
    }
  }

  /** A run stays within the limit if and only if every resume that takes a slot finds one free. */
  lemma LimitExactly(concurrency: int, steps: seq<Step>)
    requires 0 <= concurrency
    ensures WithinLimit(concurrency, steps) <==> ResumesWithRoom(concurrency, steps)
  {
    hide Advance, ResumeTakes;
    if ResumesWithRoom(concurrency, steps) {
      forall i | 0 <= i <= |steps| ensures After(concurrency, steps[..i]).active <= concurrency {
        WithinWhile(concurrency, steps, i);
      }
    }
    if WithinLimit(concurrency, steps) {
      forall i | 0 <= i < |steps| && ResumeTakes(After(concurrency, steps[..i]), steps[i].event)
        ensures After(concurrency, steps[..i]).active < concurrency
      {
        NextState(concurrency, steps, i);
        AdvancePasses(After(concurrency, steps[..i]), steps[i]);
      }
    }
  }
}
