/** One execution per idempotency key, and exactly when the engine keeps that promise. */
module EngineIdempotency {
  import opened Wrappers
  import opened Executions
  import opened EngineSteps
  import opened EngineRuns
  import opened EngineLogs

  /** Every stored key is held by one execution, the one the index finds. */
  ghost predicate KeysUnique(s: State) {
    && (forall id :: id in s.cells ==>
          s.cells[id].record.idempotencyKey in s.index && s.index[s.cells[id].record.idempotencyKey] == id)
    && (forall key :: key in s.index ==>
          s.index[key] in s.cells && s.cells[s.index[key]].record.idempotencyKey == key)
  }

  /** And triggers that have passed their lookup but not stored yet are about distinct, unstored keys. */
  ghost predicate KeysSafe(s: State) {
    && KeysUnique(s)
    && (forall h :: h in s.loop ==> h < s.loopNext)
    && (forall h :: h in s.loop && s.loop[h].TriggerChecked? ==> s.loop[h].key !in s.index)
    && (forall h1, h2 :: h1 in s.loop && h2 in s.loop && s.loop[h1].TriggerChecked? && s.loop[h2].TriggerChecked? ==>
          s.loop[h1].key == s.loop[h2].key ==> h1 == h2)
  }

  ghost predicate Pending(s: State, key: string) {
    exists h :: h in s.loop && s.loop[h].TriggerChecked? && s.loop[h].key == key
  }

  /** The trigger call goes past its lookup while another one with the same key has not stored yet. */
  ghost predicate Races(s: State, e: Event) {
    && e.TriggerCall?
    && !Blank(e.key) && e.key !in s.index && e.flowName in s.flows
    && Pending(s, e.key)
  }

  lemma UpdateKeys(s: State, id: Id, e: Effect)
    requires KeysSafe(s) && id in s.cells
    requires e.cell.record.idempotencyKey == s.cells[id].record.idempotencyKey
    ensures KeysSafe(Update(s, id, e))
  {
    hide QueuedIds, Oldest;
  }

  lemma KeyFixed(r: Record, r': Record, now: int)
    requires RecordStep(r, r', now)
    ensures r'.idempotencyKey == r.idempotencyKey
  {
    hide HasWaited;
  }

  lemma RunKeys(s: State, id: Id, h: Handle, outcome: Outcome)
    requires Inv(s) && KeysSafe(s) && id in s.cells && h in s.cells[id].live
    ensures KeysSafe(Apply(s, Run(id, h, outcome)))
  {
    hide Inv, KeysSafe, RunLive, RecordStep, Update, Registered;
    CellSound(s, id);
    var room, registered := s.active < s.concurrency, Registered(s, s.cells[id].record.flowName);
    SegmentStep(s.cells[id], h, outcome, room, registered, s.clock);
    KeyFixed(s.cells[id].record, RunLive(s.cells[id], h, outcome, room, registered, s.clock).cell.record, s.clock);
    UpdateKeys(s, id, RunLive(s.cells[id], h, outcome, room, registered, s.clock));
  }

  lemma CallKeys(s: State, id: Id)
    requires KeysSafe(s) && id in s.cells
    ensures KeysSafe(Update(s, id, Effect(Cancel(s.cells[id], s.clock), 0, false)))
    ensures KeysSafe(Update(s, id, Effect(Resume(s.cells[id], s.clock), 0, false)))
  {
    hide KeysSafe, RecordStep, Cancel, Resume, Update;
    CallsStep(s.cells[id], s.clock);
    KeyFixed(s.cells[id].record, Cancel(s.cells[id], s.clock).record, s.clock);
    KeyFixed(s.cells[id].record, Resume(s.cells[id], s.clock).record, s.clock);
    UpdateKeys(s, id, Effect(Cancel(s.cells[id], s.clock), 0, false));
    UpdateKeys(s, id, Effect(Resume(s.cells[id], s.clock), 0, false));
  }

  lemma StoreKeys(s: State, h: Handle, passed: bool, newId: Id)
    requires KeysSafe(s) && h in s.loop && s.loop[h].TriggerChecked?
    ensures KeysSafe(Apply(s, RunLoop(h, passed, newId)))
  {
    hide Blank;
  }

  lemma SnapshotKeys(s: State, id: Id)
    requires KeysSafe(s)
    ensures KeysSafe(RunSnapshot(s, id))
  {
    if id in s.cells && s.cells[id].record.flowName in s.flows {
      var flow, room := s.flows[s.cells[id].record.flowName], s.active < s.concurrency;
      StartStep(s.cells[id], flow, None, room, s.clock);
      KeyFixed(s.cells[id].record, Start(s.cells[id], flow, None, room, s.clock).cell.record, s.clock);
      UpdateKeys(s, id, Start(s.cells[id], flow, None, room, s.clock));
    }
    hide KeysSafe, Update, Start, RecordStep;
  }

  lemma LoopKeys(s: State, h: Handle, passed: bool, newId: Id)
    requires KeysSafe(s) && h in s.loop
    ensures KeysSafe(Apply(s, RunLoop(h, passed, newId)))
  {
    if s.loop[h].TriggerChecked? {
      StoreKeys(s, h, passed, newId);
    } else {
      assert KeysSafe(s.(loop := s.loop - {h}));
      SnapshotKeys(s.(loop := s.loop - {h}), s.loop[h].id);
    }
    hide KeysUnique, RunSnapshot, Store;
  }

  /** From a safe state the next one is safe exactly when the event is not such a race. */
  lemma SafeExactlyWithoutRace(s: State, e: Event)
    requires Inv(s) && KeysSafe(s)
    ensures KeysSafe(Apply(s, e)) <==> !Races(s, e)
  {
    hide Inv, KeysSafe, Pending, Cancel, Resume, RunLive, RunLoopTask, Update, Trigger;
    if e.TriggerCall? {
      CallRace(s, e.flowName, e.key, e.options);
    } else if e.CancelCall? || e.ResumeCall? {
      if e.id in s.cells { CallKeys(s, e.id); }
    } else if e.RunLoop? {
      if e.loopHandle in s.loop { LoopKeys(s, e.loopHandle, e.passed, e.newId); }
    } else if e.Run? {
      if e.id in s.cells && e.handle in s.cells[e.id].live { RunKeys(s, e.id, e.handle, e.outcome); }
    } else {
      FlowsKeys(s, e);
    }
  }

  lemma FlowsKeys(s: State, e: Event)
    requires KeysSafe(s) && (e.Register? || e.Unregister?)
    ensures KeysSafe(Apply(s, e))
  {
  }

  lemma CallRace(s: State, flowName: string, key: string, options: Options)
    requires KeysSafe(s)
    ensures KeysSafe(Trigger(s, flowName, key, options)) <==> !Races(s, TriggerCall(flowName, key, options))
  {
    hide Blank;
    if Races(s, TriggerCall(flowName, key, options)) {
      var h :| h in s.loop && s.loop[h].TriggerChecked? && s.loop[h].key == key;
      var s' := Trigger(s, flowName, key, options);
      assert s'.loop[h].key == s'.loop[s.loopNext].key && h != s.loopNext;
    }
  }

  /** And such a race does store the key twice when both policy checks pass. */
  lemma RaceStoresTwice(s: State, h1: Handle, h2: Handle, id1: Id, id2: Id)
    requires h1 in s.loop && h2 in s.loop && h1 != h2 && s.loop[h1].TriggerChecked? && s.loop[h2].TriggerChecked?
    requires s.loop[h1].key == s.loop[h2].key
    requires id1 !in s.cells && id2 !in s.cells && id1 != id2
    ensures var s' := Apply(Apply(s, RunLoop(h1, true, id1)), RunLoop(h2, true, id2));
            && id1 in s'.cells && id2 in s'.cells
            && s'.cells[id1].record.idempotencyKey == s'.cells[id2].record.idempotencyKey
            && s'.index[s.loop[h1].key] == id2
            && !KeysUnique(s')
  {
    var s1 := Apply(s, RunLoop(h1, true, id1));
    assert s1.cells[id1].record.idempotencyKey == s.loop[h1].key;
    var s2 := Apply(s1, RunLoop(h2, true, id2));
    assert s2.cells[id1] == s1.cells[id1];
  }

  // ---- Runs ----

  /** No trigger call passes its lookup between another's lookup and store of the same key. */
  ghost predicate AtomicTriggers(concurrency: int, steps: seq<Step>) {
    steps == []
    || (AtomicTriggers(concurrency, steps[..|steps| - 1])
        && !Races(After(concurrency, steps[..|steps| - 1]), steps[|steps| - 1].event))
  }

  lemma LaterKeys(s: State, step: Step)
    requires KeysSafe(s) && !Races(s, step.event)
    ensures var later := s.(clock := s.clock + step.elapsed); KeysSafe(later) && !Races(later, step.event)
  {
  }

  lemma AdvanceKeys(s: State, step: Step)
    requires Inv(s) && KeysSafe(s) && !Races(s, step.event)
    ensures KeysSafe(Advance(s, step))
  {
    hide Inv, KeysSafe, Races, Apply;
    LaterInv(s, step.elapsed);
    LaterKeys(s, step);
    SafeExactlyWithoutRace(s.(clock := s.clock + step.elapsed), step.event);
  }

  /** With triggers atomic in that sense, every run keeps one execution per key, and the lookup finds it. */
  lemma {:induction false} OneExecutionPerKey(concurrency: int, steps: seq<Step>)
    requires AtomicTriggers(concurrency, steps)
    ensures KeysSafe(After(concurrency, steps))
  {
    if steps != [] {
      hide Inv, KeysSafe, Races, Advance;
      OneExecutionPerKey(concurrency, steps[..|steps| - 1]);
      AfterInv(concurrency, steps[..|steps| - 1]);
      AdvanceKeys(After(concurrency, steps[..|steps| - 1]), steps[|steps| - 1]);
    }
  }
}
