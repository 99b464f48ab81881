/** Theorems about every run of the engine, under every interleaving of calls, timers,
    handler results and continuations. */
module EngineRuns {
  import opened Wrappers
  import opened Executions
  import opened EngineSteps
  import opened EngineCells
  import opened EngineSlots
  import opened EngineLogs

  // ---- Sums over the store ----

  predicate Distinct(ids: seq<Id>) {
    forall i, j :: 0 <= i < j < |ids| ==> ids[i] != ids[j]
  }

  ghost predicate Stored(cells: map<Id, Cell>, ids: seq<Id>) {
    forall id :: id in ids ==> id in cells
  }

  function HeldSum(cells: map<Id, Cell>, ids: seq<Id>, resumed: bool): nat
    requires Stored(cells, ids)
  {
    if ids == [] then 0 else Held(cells[ids[0]], resumed) + HeldSum(cells, ids[1..], resumed)
  }

  lemma {:induction false} SumUntouched(cells: map<Id, Cell>, ids: seq<Id>, id: Id, cell: Cell, resumed: bool)
    requires Stored(cells, ids) && id !in ids
    ensures HeldSum(cells[id := cell], ids, resumed) == HeldSum(cells, ids, resumed)
  {
    if ids != [] { SumUntouched(cells, ids[1..], id, cell, resumed); }
  }

  lemma {:induction false} SumUpdate(cells: map<Id, Cell>, ids: seq<Id>, id: Id, cell: Cell, resumed: bool)
    requires Stored(cells, ids) && Distinct(ids) && id in ids
    ensures HeldSum(cells[id := cell], ids, resumed)
         == HeldSum(cells, ids, resumed) - Held(cells[id], resumed) + Held(cell, resumed)
  {
    if ids[0] == id {
      SumUntouched(cells, ids[1..], id, cell, resumed);
    } else {
      SumUpdate(cells, ids[1..], id, cell, resumed);
    }
  }

  lemma {:induction false} SumAppend(cells: map<Id, Cell>, ids: seq<Id>, id: Id, resumed: bool)
    requires Stored(cells, ids + [id])
    ensures Stored(cells, ids)
    ensures HeldSum(cells, ids + [id], resumed) == HeldSum(cells, ids, resumed) + Held(cells[id], resumed)
  {
    assert forall i :: i in ids ==> i in ids + [id];
    if ids != [] {
      assert (ids + [id])[1..] == ids[1..] + [id];
      SumAppend(cells, ids[1..], id, resumed);
    } else {
      assert id in ids + [id];
    }
  }

  // ---- The invariant of the whole engine ----

  ghost predicate Sound(c: Cell) {
    CellOk(c) && Logged(c) && RetriesBounded(c)
  }

  function Positive(n: int): nat {
    if n < 0 then 0 else n
  }

  ghost predicate Inv(s: State) {
    && Distinct(s.order)
    && (forall id :: id in s.order <==> id in s.cells)
    && (forall id :: id in s.cells ==> Sound(s.cells[id]))
    && s.active == HeldSum(s.cells, s.order, false) + HeldSum(s.cells, s.order, true)
    && HeldSum(s.cells, s.order, false) <= Positive(s.concurrency)
  }

  /** What a segment must bring along for the invariant; `resumed` is the origin of its slot. */
  ghost predicate Fair(s: State, id: Id, e: Effect, resumed: bool) {
    && id in s.cells
    && Sound(e.cell)
    && e.slots <= 1
    && Held(e.cell, resumed) == Held(s.cells[id], resumed) + e.slots
    && Held(e.cell, !resumed) == Held(s.cells[id], !resumed)
    && (e.slots > 0 ==> resumed || s.active < s.concurrency)
  }

  lemma SoundSegment(c: Cell, h: Handle, outcome: Outcome, room: bool, registered: Option<Flow>, now: int)
    requires Sound(c) && h in c.live
    ensures Sound(RunLive(c, h, outcome, room, registered, now).cell)
  {
    hide CellOk, InFlight, RunLanguage, RecordStep, RunTask, Chained;
    var rest := c.(live := c.live - {h});
    Begin(c, h);
    RunTaskOk(rest, c.live[h], outcome, room, registered, now);
    RunTaskStep(rest, c.live[h], outcome, room, registered, now);
    StepLogged(c.record, RunLive(c, h, outcome, room, registered, now).cell.record, now);
    if !Drives(c.live[h]) { PassiveOk(rest, c.live[h]); }
    RunTaskBounded(rest, c.live[h], outcome, room, registered, now);
  }

  lemma SoundCancel(c: Cell, now: int)
    requires Sound(c)
    ensures Sound(Cancel(c, now))
  {
    hide CellOk, RunLanguage, Chained, RecordStep, RetriesBounded, Cancel;
    CancelOk(c, now);
    CallsBounded(c, now);
    CallsStep(c, now);
    StepLogged(c.record, Cancel(c, now).record, now);
  }

  lemma SoundResume(c: Cell, now: int)
    requires Sound(c)
    ensures Sound(Resume(c, now))
  {
    hide CellOk, RunLanguage, Chained, RecordStep, RetriesBounded, Resume;
    ResumeOk(c, now);
    CallsBounded(c, now);
    CallsStep(c, now);
    StepLogged(c.record, Resume(c, now).record, now);
  }

  lemma UpdateInv(s: State, id: Id, e: Effect, resumed: bool)
    requires Inv(s) && Fair(s, id, e, resumed)
    ensures Inv(Update(s, id, e))
  {
    hide Held, Sound, QueuedIds, Oldest;
    SumUpdate(s.cells, s.order, id, e.cell, false);
    SumUpdate(s.cells, s.order, id, e.cell, true);
    var updated := s.(cells := s.cells[id := e.cell], active := s.active + e.slots);
    assert updated.cells.Keys == s.cells.Keys;
    assert Inv(updated);
  }

  lemma StoreInv(s: State, id: Id, flow: Flow, key: string, options: Options)
    requires Inv(s) && id !in s.cells
    ensures Inv(Store(s, id, flow, key, options))
  {
    hide Held, Sound, NewCell, Add, NewRecord;
    var record := NewRecord(flow.name, key, s.clock);
    var cell := Add(NewCell(record, options), TriggerStored(flow));
    assert record.state == Queued && record.retryCount == 0 && record.transitions == [] && Stamped(record) by {
      NewRecordQueued(flow.name, key, s.clock);
    }
    NewCellSound(record, options, TriggerStored(flow));
    StoreSum(s.cells, s.order, id, cell, false);
    StoreSum(s.cells, s.order, id, cell, true);
    assert forall i :: i in s.order + [id] <==> i in s.cells[id := cell];
  }

  lemma NewRecordQueued(flowName: string, key: string, now: int)
    ensures var r := NewRecord(flowName, key, now);
            r.state == Queued && r.retryCount == 0 && r.transitions == [] && Stamped(r)
  {
  }

  lemma StoreSum(cells: map<Id, Cell>, order: seq<Id>, id: Id, cell: Cell, resumed: bool)
    requires Stored(cells, order) && id !in order
    ensures Stored(cells[id := cell], order + [id])
    ensures HeldSum(cells[id := cell], order + [id], resumed) == HeldSum(cells, order, resumed) + Held(cell, resumed)
  {
    hide Held;
    SumUntouched(cells, order, id, cell, resumed);
    SumAppend(cells[id := cell], order, id, resumed);
  }

  lemma NewCellSound(r: Record, options: Options, task: Task)
    requires r.state == Queued && r.retryCount == 0 && r.transitions == [] && Stamped(r)
    requires task.TriggerStored?
    ensures Sound(Add(NewCell(r, options), task))
    ensures forall b: bool :: Held(Add(NewCell(r, options), task), b) == 0
  {
    assert RunPath(Path(r.transitions), 0, 0, Queued);
    assert forall b: bool :: Owed(Add(NewCell(r, options), task).live, b) == {};
  }

  lemma CellSound(s: State, id: Id)
    requires Inv(s) && id in s.cells
    ensures Sound(s.cells[id])
  {
  }

  lemma SegmentStep(c: Cell, h: Handle, outcome: Outcome, room: bool, registered: Option<Flow>, now: int)
    requires Sound(c) && h in c.live
    ensures RecordStep(c.record, RunLive(c, h, outcome, room, registered, now).cell.record, now)
  {
    Begin(c, h);
    hide InFlight, CellOk, RunLanguage, Chained, RetriesBounded, RunTask, RecordStep;
    RunTaskStep(c.(live := c.live - {h}), c.live[h], outcome, room, registered, now);
  }

  lemma SegmentFair(c: Cell, h: Handle, outcome: Outcome, room: bool, registered: Option<Flow>, now: int)
    requires Sound(c) && h in c.live
    ensures var e, o := RunLive(c, h, outcome, room, registered, now), Origin(c, c.live[h]);
            && Sound(e.cell) && e.slots <= 1
            && Held(e.cell, o) == Held(c, o) + e.slots && Held(e.cell, !o) == Held(c, !o)
            && (e.slots > 0 ==> o || room)
  {
    SoundSegment(c, h, outcome, room, registered, now);
    hide CellOk, RunLanguage, Chained, RetriesBounded, Held, RunLive, Origin;
    RunLiveBalanced(c, h, outcome, room, registered, now, false);
    RunLiveBalanced(c, h, outcome, room, registered, now, true);
  }

  lemma RunInv(s: State, id: Id, h: Handle, outcome: Outcome)
    requires Inv(s) && id in s.cells && h in s.cells[id].live
    ensures Inv(Apply(s, Run(id, h, outcome)))
  {
    hide Inv, Sound, Held, RunLive, Origin, Update, Registered;
    var c, room, registered := s.cells[id], s.active < s.concurrency, Registered(s, s.cells[id].record.flowName);
    CellSound(s, id);
    SegmentFair(c, h, outcome, room, registered, s.clock);
    UpdateInv(s, id, RunLive(c, h, outcome, room, registered, s.clock), Origin(c, c.live[h]));
  }

  lemma SnapshotInv(s: State, id: Id)
    requires Inv(s)
    ensures Inv(RunSnapshot(s, id))
  {
    if id in s.cells && s.cells[id].record.flowName in s.flows {
      var c, room, flow := s.cells[id], s.active < s.concurrency, s.flows[s.cells[id].record.flowName];
      var e := Start(c, flow, None, room, s.clock);
      StartBalanced(c, flow, None, room, s.clock, false);
      StartBalanced(c, flow, None, room, s.clock, true);
      StartOk(c, flow, None, room, s.clock);
      StartBounded(c, flow, None, room, s.clock);
      StartStep(c, flow, None, room, s.clock);
      hide CellOk, RunLanguage, Chained, RecordStep, RetriesBounded, Held, Start, Update, Inv;
      StepLogged(c.record, e.cell.record, s.clock);
      UpdateInv(s, id, e, false);
    }
  }

  lemma CallsHeld(c: Cell, now: int, resumed: bool)
    requires Sound(c)
    ensures Held(Cancel(c, now), resumed) == Held(c, resumed) && Held(Resume(c, now), resumed) == Held(c, resumed)
  {
    hide RunLanguage, Chained, RetriesBounded, CellOk, Held, Cancel, Resume;
    CancelBalanced(c, now, resumed);
    ResumeBalanced(c, now, resumed);
  }

  lemma CallInv(s: State, id: Id, e: Effect)
    requires Inv(s) && id in s.cells
    requires e == Effect(Cancel(s.cells[id], s.clock), 0, false) || e == Effect(Resume(s.cells[id], s.clock), 0, false)
    ensures Inv(Update(s, id, e))
  {
    hide Inv, Sound, Held, Cancel, Resume, Update;
    var c := s.cells[id];
    CellSound(s, id);
    SoundCancel(c, s.clock);
    SoundResume(c, s.clock);
    CallsHeld(c, s.clock, false);
    CallsHeld(c, s.clock, true);
    UpdateInv(s, id, e, false);
  }

  lemma ApplyInv(s: State, e: Event)
    requires Inv(s)
    ensures Inv(Apply(s, e))
  {
    hide Sound, Held, Cancel, Resume, Update, RunLive, RunSnapshot, Store;
    match e
    case Register(flow) =>
    case Unregister(name) =>
    case TriggerCall(flowName, key, options) =>
    case CancelCall(id) => if id in s.cells { CallInv(s, id, Effect(Cancel(s.cells[id], s.clock), 0, false)); }
    case ResumeCall(id) => if id in s.cells { CallInv(s, id, Effect(Resume(s.cells[id], s.clock), 0, false)); }
    case RunLoop(h, passed, newId) =>
      if h in s.loop {
        var popped := s.(loop := s.loop - {h});
        match s.loop[h]
        case TriggerChecked(flow, key, options) =>
          if newId !in s.cells { StoreInv(popped, newId, flow, key, options); }
        case DispatchSnapshot(id) => SnapshotInv(popped, id);
      }
    case Run(id, h, outcome) => if id in s.cells && h in s.cells[id].live { RunInv(s, id, h, outcome); }
  }

  lemma LaterInv(s: State, elapsed: nat)
    requires Inv(s)
    ensures Inv(s.(clock := s.clock + elapsed))
  {
    hide Sound, HeldSum;
  }

  lemma AdvanceInv(s: State, step: Step)
    requires Inv(s)
    ensures Inv(Advance(s, step)) && Advance(s, step).concurrency == s.concurrency
  {
    hide Apply, Sound, HeldSum;
    var later := s.(clock := s.clock + step.elapsed);
    ApplyInv(later, step.event);
    ApplyConcurrency(later, step.event);
  }

  lemma ApplyConcurrency(s: State, e: Event)
    ensures Apply(s, e).concurrency == s.concurrency
  {
    hide RunLive, Start, Cancel, Resume, QueuedIds, Oldest, Blank;
  }

  lemma {:induction false} AfterInv(concurrency: int, steps: seq<Step>)
    ensures Inv(After(concurrency, steps))
    ensures After(concurrency, steps).concurrency == concurrency
  {
    if steps != [] {
      hide Inv, Advance;
      AfterInv(concurrency, steps[..|steps| - 1]);
      AdvanceInv(After(concurrency, steps[..|steps| - 1]), steps[|steps| - 1]);
    }
  }
}
