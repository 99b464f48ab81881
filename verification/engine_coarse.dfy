/** Disciplined runs: a call, a timer or a handler result comes only while no continuation is pending,
    as when every continuation is a microtask of the in-memory store. */
module EngineCoarse {
  import opened Wrappers
  import opened Executions
  import opened EngineSteps
  import opened EngineCells
  import opened EngineRuns
  import opened EngineTheorems
  import opened EngineCoarseCells

  ghost predicate OthersQuiet(s: State, id: Id) {
    s.loop == map[] && forall other :: other in s.cells && other != id ==> NoMicro(s.cells[other])
  }

  ghost predicate Quiet(s: State) {
    s.loop == map[] && forall id :: id in s.cells ==> NoMicro(s.cells[id])
  }

  /** At most one continuation is pending in the whole engine. */
  ghost predicate Solo(s: State) {
    && (forall h1, h2 :: h1 in s.loop && h2 in s.loop ==> h1 == h2)
    && (forall id :: id in s.cells ==> AtMostOne(s.cells[id]))
    && (forall id :: id in s.cells && !NoMicro(s.cells[id]) ==> OthersQuiet(s, id))
  }

  predicate Continues(s: State, e: Event) {
    e.RunLoop? || (e.Run? && e.id in s.cells && e.handle in s.cells[e.id].live && Micro(s.cells[e.id].live[e.handle]))
  }

  ghost predicate Disciplined(s: State, e: Event) {
    Continues(s, e) || Quiet(s)
  }

  ghost predicate DisciplinedRun(concurrency: int, steps: seq<Step>) {
    steps == []
    || (DisciplinedRun(concurrency, steps[..|steps| - 1])
        && Disciplined(After(concurrency, steps[..|steps| - 1]), steps[|steps| - 1].event))
  }

  ghost predicate CoarseInv(s: State) {
    && Solo(s)
    && (forall id :: id in s.cells ==> Coarse(s.cells[id]))
    && (forall h :: h in s.loop ==> h < s.loopNext)
  }

  // ---- Steps ----

  lemma DispatchSolo(s: State)
    requires Quiet(s) && CoarseInv(s)
    ensures CoarseInv(DispatchQueued(s))
  {
    hide Coarse, QueuedIds, Oldest;
  }

  lemma UpdateCoarse(s: State, id: Id, e: Effect)
    requires CoarseInv(s) && id in s.cells && OthersQuiet(s, id) && Leaves(e)
    ensures CoarseInv(Update(s, id, e))
  {
    hide Coarse, QueuedIds, Oldest, NoMicro, AtMostOne, DispatchQueued;
    var updated := s.(cells := s.cells[id := e.cell], active := s.active + e.slots);
    assert CoarseInv(updated);
    if e.redispatch {
      DispatchSolo(updated);
    }
  }

  lemma CellOf(s: State, id: Id)
    requires Inv(s) && id in s.cells
    ensures CellOk(s.cells[id]) && Logged(s.cells[id])
  {
  }

  lemma RunCoarse(s: State, id: Id, h: Handle, outcome: Outcome)
    requires Inv(s) && CoarseInv(s) && id in s.cells && h in s.cells[id].live
    requires Disciplined(s, Run(id, h, outcome))
    ensures OthersQuiet(s, id)
    ensures var e := RunLive(s.cells[id], h, outcome, s.active < s.concurrency,
                             Registered(s, s.cells[id].record.flowName), s.clock);
            Leaves(e)
    ensures CoarseInv(Apply(s, Run(id, h, outcome)))
  {
    hide Inv, Coarse, RunLive, Leaves, AtMostOne, Registered, Update;
    var c := s.cells[id];
    CellOf(s, id);
    assert OthersQuiet(s, id);
    RunLiveLeaves(c, h, outcome, s.active < s.concurrency, Registered(s, c.record.flowName), s.clock);
    UpdateCoarse(s, id, RunLive(c, h, outcome, s.active < s.concurrency, Registered(s, c.record.flowName), s.clock));
  }

  lemma SnapshotCoarse(s: State, id: Id)
    requires Inv(s) && CoarseInv(s) && Quiet(s)
    ensures CoarseInv(RunSnapshot(s, id))
  {
    hide Inv, Coarse, Start, Leaves, AtMostOne, NoMicro, Update;
    if id in s.cells && s.cells[id].record.flowName in s.flows {
      CellOf(s, id);
      StartLeaves(s.cells[id], s.flows[s.cells[id].record.flowName], None, s.active < s.concurrency, s.clock);
      UpdateCoarse(s, id, Start(s.cells[id], s.flows[s.cells[id].record.flowName], None,
                                s.active < s.concurrency, s.clock));
    }
  }

  lemma CallCoarse(s: State, id: Id)
    requires Inv(s) && CoarseInv(s) && Quiet(s) && id in s.cells
    ensures CoarseInv(Update(s, id, Effect(Cancel(s.cells[id], s.clock), 0, false)))
    ensures CoarseInv(Update(s, id, Effect(Resume(s.cells[id], s.clock), 0, false)))
  {
    hide Inv, Coarse, Cancel, Resume, Leaves, AtMostOne, NoMicro, Update;
    CellOf(s, id);
    CancelLeaves(s.cells[id], s.clock);
    ResumeLeaves(s.cells[id], s.clock);
    UpdateCoarse(s, id, Effect(Cancel(s.cells[id], s.clock), 0, false));
    UpdateCoarse(s, id, Effect(Resume(s.cells[id], s.clock), 0, false));
  }

  lemma NewCellCoarse(r: Record, options: Options, flow: Flow)
    requires r.state == Queued
    ensures Coarse(Add(NewCell(r, options), TriggerStored(flow)))
    ensures AtMostOne(Add(NewCell(r, options), TriggerStored(flow)))
  {
  }

  lemma StoreCoarse(s: State, id: Id, flow: Flow, key: string, options: Options)
    requires CoarseInv(s) && Quiet(s) && id !in s.cells
    ensures CoarseInv(Store(s, id, flow, key, options))
  {
    NewRecordQueued(flow.name, key, s.clock);
    hide Coarse, NewCell, Add, NewRecord, AtMostOne, NoMicro;
    NewCellCoarse(NewRecord(flow.name, key, s.clock), options, flow);
  }

  lemma ApplyCoarse(s: State, e: Event)
    requires Inv(s) && CoarseInv(s) && Disciplined(s, e)
    ensures CoarseInv(Apply(s, e))
  {
    hide Inv, Coarse, Cancel, Resume, Update, RunLive, RunSnapshot, Store, AtMostOne, NoMicro;
    match e
    case Register(flow) =>
    case Unregister(name) =>
    case TriggerCall(flowName, key, options) =>
    case CancelCall(id) => if id in s.cells { CallCoarse(s, id); }
    case ResumeCall(id) => if id in s.cells { CallCoarse(s, id); }
    case RunLoop(h, passed, newId) =>
      if h in s.loop {
        var popped := s.(loop := s.loop - {h});
        PopQuiet(s, h);
        match s.loop[h]
        case TriggerChecked(flow, key, options) =>
          if newId !in s.cells { StoreCoarse(popped, newId, flow, key, options); }
        case DispatchSnapshot(id) => SnapshotCoarse(popped, id);
      }
    case Run(id, h, outcome) => if id in s.cells && h in s.cells[id].live { RunCoarse(s, id, h, outcome); }
  }

  lemma PopQuiet(s: State, h: Handle)
    requires Inv(s) && CoarseInv(s) && h in s.loop
    ensures var popped := s.(loop := s.loop - {h}); Quiet(popped) && CoarseInv(popped) && Inv(popped)
  {
    hide Coarse, AtMostOne, NoMicro, Sound, HeldSum;
  }

  lemma LaterCoarse(s: State, step: Step)
    requires CoarseInv(s) && Disciplined(s, step.event)
    ensures var later := s.(clock := s.clock + step.elapsed); CoarseInv(later) && Disciplined(later, step.event)
  {
    hide Coarse, AtMostOne, NoMicro;
  }

  lemma AdvanceCoarse(s: State, step: Step)
    requires Inv(s) && CoarseInv(s) && Disciplined(s, step.event)
    ensures CoarseInv(Advance(s, step))
  {
    hide Inv, CoarseInv, Disciplined, Apply;
    LaterInv(s, step.elapsed);
    LaterCoarse(s, step);
    ApplyCoarse(s.(clock := s.clock + step.elapsed), step.event);
  }

  lemma {:induction false} AfterCoarse(concurrency: int, steps: seq<Step>)
    requires DisciplinedRun(concurrency, steps)
    ensures Inv(After(concurrency, steps)) && CoarseInv(After(concurrency, steps))
  {
    AfterInv(concurrency, steps);
    if steps != [] {
      hide Inv, CoarseInv, Advance, Disciplined;
      AfterCoarse(concurrency, steps[..|steps| - 1]);
      AdvanceCoarse(After(concurrency, steps[..|steps| - 1]), steps[|steps| - 1]);
    }
  }

  /** Whenever no continuation is pending, the slots in use are those of the running and retrying executions
      and those lost to cancels. */
  lemma QuietSlots(concurrency: int, steps: seq<Step>)
    requires Quiet(After(concurrency, steps))
    ensures var s := After(concurrency, steps);
            Stored(s.cells, s.order) && s.active == BusyCount(s.cells, s.order) + LeakCount(s.cells, s.order)
  {
    var s := After(concurrency, steps);
    forall id | id in s.cells ensures Settled(s.cells[id]) {
      assert NoMicro(s.cells[id]);
    }
    hide After, Settled, NoMicro;
    SlotAccounting(concurrency, steps);
  }
}
