/** Work conservation and first-in first-out, for disciplined runs in which a flow with queued
    executions stays registered. */
module EngineFifo {
  import opened Wrappers
  import opened Executions
  import opened EngineSteps
  import opened EngineCells
  import opened EngineLogs
  import opened EngineRuns
  import opened EngineCoarseCells
  import opened EngineCoarse

  predicate Queueing(c: Cell) {
    c.record.state == Queued
  }

  ghost predicate JustStored(c: Cell) {
    exists h :: h in c.live && c.live[h].TriggerStored?
  }

  ghost predicate SnapshotPending(s: State) {
    exists h :: h in s.loop && s.loop[h].DispatchSnapshot?
  }

  /** Whoever queues does so because the limit is reached, or because its own dispatch, or that of the
      oldest queued execution into the one free slot, is the pending continuation. */
  ghost predicate Served(s: State) {
    forall id :: id in s.cells && Queueing(s.cells[id]) ==>
      s.active >= s.concurrency || JustStored(s.cells[id]) || (SnapshotPending(s) && s.active >= s.concurrency - 1)
  }

  /** Flows are registered under their own name, and those that queued or arriving executions need are. */
  ghost predicate FlowsReady(s: State) {
    && (forall name :: name in s.flows ==> s.flows[name].name == name)
    && (forall id :: id in s.cells && Queueing(s.cells[id]) ==> s.cells[id].record.flowName in s.flows)
    && (forall h :: h in s.loop && s.loop[h].TriggerChecked? ==> s.loop[h].flow.name in s.flows)
  }

  predicate KeepsFlows(s: State, e: Event) {
    e.Unregister? ==> forall id :: id in s.cells && Queueing(s.cells[id]) ==> s.cells[id].record.flowName != e.name
  }

  /** Trigger order is the order of the queued times. */
  ghost predicate Stamped(s: State) {
    && (forall id :: id in s.order ==> id in s.cells && s.cells[id].record.queuedAt <= s.clock)
    && (forall i, j :: 0 <= i < j < |s.order| ==>
          s.cells[s.order[i]].record.queuedAt <= s.cells[s.order[j]].record.queuedAt)
  }

  /** Nobody before `id` in trigger order is still queued. */
  ghost predicate FirstInLine(s: State, id: Id) {
    forall i, j :: 0 <= i < j < |s.order| && s.order[j] == id && s.order[i] in s.cells ==>
      !Queueing(s.cells[s.order[i]])
  }

  ghost predicate HeadFits(s: State) {
    forall h :: h in s.loop && s.loop[h].DispatchSnapshot? ==>
      var id := s.loop[h].id;
      id in s.cells && Queueing(s.cells[id]) && FirstInLine(s, id)
  }

  /** A queued execution has not started; any other than a queued or failed one has. */
  ghost predicate StartedFits(c: Cell) {
    && (c.record.state == Queued ==> c.record.startedAt.None?)
    && (c.record.state != Queued && c.record.state != Failed ==> c.record.startedAt.Some?)
  }

  /** Executions start in trigger order. */
  ghost predicate InOrder(s: State) {
    && (forall id :: id in s.cells ==>
          StartedFits(s.cells[id])
          && (s.cells[id].record.startedAt.Some? ==> s.cells[id].record.startedAt.value <= s.clock))
    && (forall i, j :: 0 <= i < j < |s.order| && s.order[i] in s.cells && s.order[j] in s.cells ==>
          var a, b := s.cells[s.order[i]].record, s.cells[s.order[j]].record;
          && (a.state == Queued ==> b.startedAt.None?)
          && (a.startedAt.Some? && b.startedAt.Some? ==> a.startedAt.value <= b.startedAt.value))
  }

  ghost predicate FifoInv(s: State) {
    Served(s) && FlowsReady(s) && Stamped(s) && HeadFits(s) && InOrder(s)
  }

  ghost predicate Ordered(s: State) {
    Distinct(s.order) && forall id :: id in s.order <==> id in s.cells
  }

  // ---- The oldest queued execution is the first in trigger order ----

  lemma {:induction false} OldestIsHead(cells: map<Id, Cell>, ids: seq<Id>)
    requires ids != [] && forall id :: id in ids ==> id in cells
    requires forall i :: 0 < i < |ids| ==> cells[ids[0]].record.queuedAt <= cells[ids[i]].record.queuedAt
    ensures Oldest(cells, ids) == ids[0]
  {
    if |ids| > 1 {
      var rest := Oldest(cells, ids[1..]);
      assert rest in ids[1..];
      var k :| 0 <= k < |ids[1..]| && ids[1..][k] == rest;
      assert ids[k + 1] == rest;
    }
  }

  /** The head of the queued ids: where it stands in `ids`, and that none before it is queued. */
  lemma {:induction false} QueuedHead(cells: map<Id, Cell>, ids: seq<Id>) returns (k: nat)
    requires QueuedIds(cells, ids) != []
    ensures k < |ids| && ids[k] == QueuedIds(cells, ids)[0] && ids[k] in cells && Queueing(cells[ids[k]])
    ensures forall i :: 0 <= i < k && ids[i] in cells ==> !Queueing(cells[ids[i]])
    ensures forall q :: q in QueuedIds(cells, ids) ==> exists i :: k <= i < |ids| && ids[i] == q
  {
    if ids[0] in cells && cells[ids[0]].record.state == Queued {
      k := 0;
      forall q | q in QueuedIds(cells, ids) ensures exists i :: k <= i < |ids| && ids[i] == q {
        var i :| 0 <= i < |ids| && ids[i] == q;
      }
    } else {
      var j := QueuedHead(cells, ids[1..]);
      k := j + 1;
      forall q | q in QueuedIds(cells, ids) ensures exists i :: k <= i < |ids| && ids[i] == q {
        var i :| j <= i < |ids[1..]| && ids[1..][i] == q;
        assert ids[i + 1] == q;
      }
    }
  }

  lemma OldestFirst(s: State)
    requires Stamped(s) && Distinct(s.order) && QueuedIds(s.cells, s.order) != []
    ensures var id := Oldest(s.cells, QueuedIds(s.cells, s.order));
            id in s.cells && Queueing(s.cells[id]) && FirstInLine(s, id)
  {
    var queued := QueuedIds(s.cells, s.order);
    var k := QueuedHead(s.cells, s.order);
    forall i | 0 < i < |queued|
      ensures s.cells[queued[0]].record.queuedAt <= s.cells[queued[i]].record.queuedAt
    {
      assert queued[i] in queued;
      var j :| k <= j < |s.order| && s.order[j] == queued[i];
      assert k == j || k < j;
    }
    OldestIsHead(s.cells, queued);
  }

  // ---- One segment ----

  /** What a table move means for the queue. */
  lemma MoveFacts(r: Record, r': Record, now: int)
    requires RecordStep(r, r', now)
    ensures r'.flowName == r.flowName && r'.queuedAt == r.queuedAt
    ensures r'.state == Queued ==> r' == r
    ensures r'.startedAt != r.startedAt ==> r'.state == Running && r.startedAt.None? && r'.startedAt == Some(now)
  {
    hide HasWaited;
  }

  lemma QueuedRunsTrigger(c: Cell, h: Handle)
    requires CellOk(c) && Coarse(c) && h in c.live && Queueing(c)
    ensures c.live[h].TriggerStored?
  {
    hide HasWaited, Sent, Driven;
  }

  /** What the segment of one execution must bring along for the queue. */
  ghost predicate Joins(s: State, id: Id, e: Effect) {
    && id in s.cells && OthersQuiet(s, id) && Leaves(e)
    && RecordStep(s.cells[id].record, e.cell.record, s.clock)
    && (Queueing(e.cell) ==> s.active >= s.concurrency)
    && (Queueing(s.cells[id]) && e.cell.record.startedAt.Some? ==> FirstInLine(s, id))
    && (forall other :: other in s.cells && other != id && Queueing(s.cells[other]) ==>
          s.active + (if e.slots > 0 then e.slots else 0) >= s.concurrency)
  }

  lemma DispatchFifo(s: State)
    requires Ordered(s) && s.loop == map[] && FlowsReady(s) && Stamped(s) && InOrder(s)
    requires forall id :: id in s.cells && Queueing(s.cells[id]) ==> s.active >= s.concurrency - 1
    ensures FifoInv(DispatchQueued(s))
  {
    hide QueuedIds, Oldest, StartedFits;
    var queued := QueuedIds(s.cells, s.order);
    QueuedMembers(s);
    if s.active < s.concurrency && queued != [] {
      OldestFirst(s);
      var s' := DispatchQueued(s);
      assert s'.loop[s.loopNext].DispatchSnapshot?;
      assert SnapshotPending(s');
    }
  }

  lemma QueuedMembers(s: State)
    requires Ordered(s)
    ensures forall id :: id in s.cells && Queueing(s.cells[id]) ==> id in QueuedIds(s.cells, s.order)
  {
  }

  lemma UpdateOrder(s: State, id: Id, cell: Cell, active: int)
    requires Ordered(s) && InOrder(s) && id in s.cells
    requires RecordStep(s.cells[id].record, cell.record, s.clock)
    requires Queueing(s.cells[id]) && cell.record.startedAt.Some? ==> FirstInLine(s, id)
    ensures InOrder(s.(cells := s.cells[id := cell], active := active))
  {
    MoveFacts(s.cells[id].record, cell.record, s.clock);
    StartedStep(s.cells[id], cell, s.clock);
    hide RecordStep, StartedFits, HasWaited;
  }

  lemma StartedStep(c: Cell, c': Cell, now: int)
    requires StartedFits(c) && RecordStep(c.record, c'.record, now)
    ensures StartedFits(c')
    ensures c'.record.startedAt != c.record.startedAt ==> Queueing(c)
  {
    hide HasWaited;
  }

  lemma UpdateRest(s: State, id: Id, cell: Cell, slots: int)
    requires Ordered(s) && FlowsReady(s) && Stamped(s) && id in s.cells && s.loop == map[]
    requires RecordStep(s.cells[id].record, cell.record, s.clock)
    ensures var s' := s.(cells := s.cells[id := cell], active := s.active + slots); FlowsReady(s') && Stamped(s')
  {
    MoveFacts(s.cells[id].record, cell.record, s.clock);
    hide RecordStep;
  }

  lemma UpdateServed(s: State, id: Id, e: Effect)
    requires Joins(s, id, e)
    ensures var s' := s.(cells := s.cells[id := e.cell], active := s.active + e.slots);
            && s'.loop == map[]
            && (forall i :: i in s'.cells && Queueing(s'.cells[i]) ==> s'.active >= s'.concurrency - 1)
            && (!e.redispatch ==> Served(s'))
  {
    hide RecordStep, Coarse, AtMostOne, NoMicro, FirstInLine;
  }

  lemma UpdateOrdered(s: State, id: Id, cell: Cell, active: int)
    requires Ordered(s) && id in s.cells
    ensures Ordered(s.(cells := s.cells[id := cell], active := active))
  {
  }

  lemma UpdateFifo(s: State, id: Id, e: Effect)
    requires Ordered(s) && FlowsReady(s) && Stamped(s) && InOrder(s) && Joins(s, id, e)
    ensures FifoInv(Update(s, id, e))
  {
    hide RecordStep, Leaves, OthersQuiet, Stamped, FlowsReady, InOrder, FirstInLine, Ordered, Served, Queueing;
    var updated := s.(cells := s.cells[id := e.cell], active := s.active + e.slots);
    UpdateServed(s, id, e);
    UpdateOrdered(s, id, e.cell, s.active + e.slots);
    UpdateOrder(s, id, e.cell, s.active + e.slots);
    JoinsIdle(s, id, e);
    UpdateRest(s, id, e.cell, e.slots);
    if e.redispatch {
      DispatchFifo(updated);
    } else {
      assert HeadFits(updated);
    }
  }

  lemma JoinsIdle(s: State, id: Id, e: Effect)
    requires Joins(s, id, e)
    ensures s.loop == map[]
  {
  }

  // ---- Each event ----

  lemma OthersServed(s: State, id: Id)
    requires Served(s) && OthersQuiet(s, id)
    ensures forall other :: other in s.cells && other != id && Queueing(s.cells[other]) ==> s.active >= s.concurrency
  {
  }

  lemma AloneInLine(s: State, id: Id)
    requires Ordered(s) && forall other :: other in s.cells && other != id ==> !Queueing(s.cells[other])
    ensures FirstInLine(s, id)
  {
  }

  /** A queued execution that runs its trigger continuation starts exactly when there is room. */
  lemma QueuedSegment(c: Cell, h: Handle, outcome: Outcome, room: bool, registered: Option<Flow>, now: int)
    requires CellOk(c) && Coarse(c) && h in c.live && Queueing(c)
    ensures var e := RunLive(c, h, outcome, room, registered, now);
            if room then e.cell.record.state == Running else e.cell.record == c.record
  {
    QueuedRunsTrigger(c, h);
    hide CellOk, Coarse;
  }

  lemma RunQueue(c: Cell, h: Handle, outcome: Outcome, room: bool, registered: Option<Flow>, now: int)
    requires Sound(c) && Coarse(c) && StartedFits(c) && h in c.live
    ensures var e := RunLive(c, h, outcome, room, registered, now);
            && RecordStep(c.record, e.cell.record, now)
            && (Queueing(e.cell) ==> Queueing(c) && !room)
            && (Queueing(c) && e.cell.record.startedAt.Some? ==> room)
  {
    SegmentStep(c, h, outcome, room, registered, now);
    hide RunLive, RecordStep, Coarse, CellOk, Logged, RetriesBounded;
    MoveFacts(c.record, RunLive(c, h, outcome, room, registered, now).cell.record, now);
    if Queueing(c) {
      QueuedSegment(c, h, outcome, room, registered, now);
    }
  }

  lemma RunJoins(s: State, id: Id, h: Handle, outcome: Outcome)
    requires Inv(s) && CoarseInv(s) && Served(s) && InOrder(s) && id in s.cells && h in s.cells[id].live
    requires Disciplined(s, Run(id, h, outcome))
    ensures Joins(s, id, RunLive(s.cells[id], h, outcome, s.active < s.concurrency,
                                 Registered(s, s.cells[id].record.flowName), s.clock))
  {
    hide RunLive, Leaves, OthersQuiet, RecordStep, HeldSum, Solo, Disciplined, FirstInLine, Served, Registered;
    hide Sound, Coarse, StartedFits;
    var c, room := s.cells[id], s.active < s.concurrency;
    CellSound(s, id);
    RunCoarse(s, id, h, outcome);
    OthersServed(s, id);
    RunQueue(c, h, outcome, room, Registered(s, c.record.flowName), s.clock);
    if room { AloneInLine(s, id); }
  }

  lemma RunFifo(s: State, id: Id, h: Handle, outcome: Outcome)
    requires Inv(s) && CoarseInv(s) && FifoInv(s) && id in s.cells && h in s.cells[id].live
    requires Disciplined(s, Run(id, h, outcome))
    ensures FifoInv(Apply(s, Run(id, h, outcome)))
  {
    hide RunLive, Update, FlowsReady, Stamped, HeadFits, Served, InOrder, Sound, HeldSum;
    hide CoarseInv, Disciplined, Joins, Registered;
    RunJoins(s, id, h, outcome);
    UpdateFifo(s, id, RunLive(s.cells[id], h, outcome, s.active < s.concurrency,
                              Registered(s, s.cells[id].record.flowName), s.clock));
  }

  lemma QuietServed(s: State)
    requires Quiet(s) && Served(s)
    ensures forall id :: id in s.cells && Queueing(s.cells[id]) ==> s.active >= s.concurrency
  {
  }

  lemma CallJoins(s: State, id: Id, e: Effect)
    requires Inv(s) && CoarseInv(s) && Served(s) && InOrder(s) && Quiet(s) && id in s.cells
    requires e == Effect(Cancel(s.cells[id], s.clock), 0, false) || e == Effect(Resume(s.cells[id], s.clock), 0, false)
    ensures Joins(s, id, e)
  {
    hide Cancel, Resume, Leaves, OthersQuiet, RecordStep, HeldSum, Solo, AtMostOne, FirstInLine, Served, Quiet, Sound;
    hide CellOk, Coarse, StartedFits;
    CellOf(s, id);
    QuietServed(s);
    QuietNoMicro(s, id);
    var c := s.cells[id];
    CancelLeaves(c, s.clock);
    ResumeLeaves(c, s.clock);
    CallsStep(c, s.clock);
    CallsQueue(c, s.clock);
  }

  lemma CallsQueue(c: Cell, now: int)
    ensures !Queueing(Cancel(c, now))
    ensures Queueing(Resume(c, now)) ==> Queueing(c)
    ensures Queueing(c) ==> Cancel(c, now).record.startedAt == c.record.startedAt
    ensures Queueing(c) ==> Resume(c, now).record.startedAt == c.record.startedAt
    ensures StartedFits(c) && Queueing(c) ==> c.record.startedAt.None?
  {
  }

  lemma QuietNoMicro(s: State, id: Id)
    requires Quiet(s) && id in s.cells
    ensures NoMicro(s.cells[id]) && OthersQuiet(s, id)
  {
  }

  lemma StartQueue(c: Cell, flow: Flow, room: bool, now: int)
    requires Queueing(c)
    ensures var e := Start(c, flow, None, room, now);
            e.slots == (if room then 1 else 0) && (Queueing(e.cell) ==> !room)
  {
  }

  lemma SnapshotJoins(s: State, id: Id, flow: Flow)
    requires Inv(s) && CoarseInv(s) && Quiet(s)
    requires id in s.cells && Queueing(s.cells[id]) && FirstInLine(s, id)
    requires forall other :: other in s.cells && Queueing(s.cells[other]) ==> s.active >= s.concurrency - 1
    ensures Joins(s, id, Start(s.cells[id], flow, None, s.active < s.concurrency, s.clock))
  {
    hide Start, Leaves, OthersQuiet, RecordStep, HeldSum, Solo, AtMostOne, FirstInLine, Quiet, Sound, CellOk, Coarse;
    var c, room := s.cells[id], s.active < s.concurrency;
    CellOf(s, id);
    QuietNoMicro(s, id);
    StartQueue(c, flow, room, s.clock);
    StartLeaves(c, flow, None, room, s.clock);
    StartStep(c, flow, None, room, s.clock);
  }

  lemma SnapshotFifo(s: State, id: Id)
    requires Inv(s) && CoarseInv(s) && Quiet(s) && FlowsReady(s) && Stamped(s) && InOrder(s)
    requires id in s.cells && Queueing(s.cells[id]) && FirstInLine(s, id)
    requires forall other :: other in s.cells && Queueing(s.cells[other]) ==> s.active >= s.concurrency - 1
    ensures FifoInv(RunSnapshot(s, id))
  {
    hide Start, Joins, HeldSum, Sound, CoarseInv, Quiet, FirstInLine, Stamped, InOrder, Update;
    SnapshotJoins(s, id, s.flows[s.cells[id].record.flowName]);
    UpdateFifo(s, id, Start(s.cells[id], s.flows[s.cells[id].record.flowName], None,
                            s.active < s.concurrency, s.clock));
  }

  lemma NewCellWaits(r: Record, options: Options, flow: Flow)
    ensures JustStored(Add(NewCell(r, options), TriggerStored(flow)))
  {
    assert Add(NewCell(r, options), TriggerStored(flow)).live[0].TriggerStored?;
  }

  lemma StoreServed(s: State, id: Id, flow: Flow, key: string, options: Options)
    requires Ordered(s) && Quiet(s) && FlowsReady(s) && id !in s.cells && flow.name in s.flows
    requires forall other :: other in s.cells && Queueing(s.cells[other]) ==> s.active >= s.concurrency
    ensures var s' := Store(s, id, flow, key, options); Served(s') && FlowsReady(s') && HeadFits(s')
  {
    NewCellWaits(NewRecord(flow.name, key, s.clock), options, flow);
    hide NoMicro, JustStored, SnapshotPending;
  }

  lemma StoreInOrder(s: State, id: Id, flow: Flow, key: string, options: Options)
    requires Ordered(s) && Stamped(s) && InOrder(s) && id !in s.cells
    ensures var s' := Store(s, id, flow, key, options); Stamped(s') && InOrder(s')
  {
  }

  lemma StoreFifo(s: State, id: Id, flow: Flow, key: string, options: Options)
    requires Ordered(s) && Quiet(s) && FlowsReady(s) && Stamped(s) && InOrder(s) && id !in s.cells
    requires flow.name in s.flows
    requires forall other :: other in s.cells && Queueing(s.cells[other]) ==> s.active >= s.concurrency
    ensures FifoInv(Store(s, id, flow, key, options))
  {
    hide Ordered, Quiet, FlowsReady, Stamped, InOrder, Store, Served, HeadFits;
    StoreServed(s, id, flow, key, options);
    StoreInOrder(s, id, flow, key, options);
  }

  lemma ApplyFifo(s: State, e: Event)
    requires Inv(s) && CoarseInv(s) && FifoInv(s) && Disciplined(s, e) && KeepsFlows(s, e)
    ensures FifoInv(Apply(s, e))
  {
    hide Inv, CoarseInv, Stamped, InOrder, Cancel, Resume, RunLive, RunSnapshot, Store, Update;
    match e
    case Register(flow) => CalmFifo(s, e);
    case Unregister(name) => CalmFifo(s, e);
    case TriggerCall(flowName, key, options) => CalmFifo(s, e);
    case CancelCall(id) =>
      hide Disciplined;
      if id in s.cells { CallFifo(s, id, Effect(Cancel(s.cells[id], s.clock), 0, false)); }
    case ResumeCall(id) =>
      hide Disciplined;
      if id in s.cells { CallFifo(s, id, Effect(Resume(s.cells[id], s.clock), 0, false)); }
    case RunLoop(h, passed, newId) => hide FifoInv, Disciplined; if h in s.loop { LoopFifo(s, h, passed, newId); }
    case Run(id, h, outcome) =>
      hide FifoInv, Disciplined;
      if id in s.cells && h in s.cells[id].live { RunFifo(s, id, h, outcome); }
  }

  lemma CallFifo(s: State, id: Id, e: Effect)
    requires Inv(s) && CoarseInv(s) && FifoInv(s) && id in s.cells && Quiet(s)
    requires e == Effect(Cancel(s.cells[id], s.clock), 0, false) || e == Effect(Resume(s.cells[id], s.clock), 0, false)
    ensures FifoInv(Update(s, id, e))
  {
    hide CoarseInv, Joins, Update, Cancel, Resume, Stamped, InOrder, FlowsReady, Served, HeadFits;
    hide Sound, HeldSum, Quiet;
    CallJoins(s, id, e);
    UpdateFifo(s, id, e);
  }

  lemma CalmFifo(s: State, e: Event)
    requires FifoInv(s) && Quiet(s) && KeepsFlows(s, e)
    requires e.Register? || e.Unregister? || e.TriggerCall?
    ensures FifoInv(Apply(s, e))
  {
    hide Blank;
  }

  lemma ArrivalFifo(s: State, h: Handle, passed: bool, newId: Id)
    requires Inv(s) && CoarseInv(s) && FifoInv(s) && h in s.loop && s.loop[h].TriggerChecked?
    ensures FifoInv(RunLoopTask(s.(loop := s.loop - {h}), s.loop[h], passed, newId))
  {
    var popped := s.(loop := s.loop - {h});
    PopQuiet(s, h);
    PopFifo(s, h);
    hide Store, CoarseInv, HeadFits, Served, FlowsReady, Stamped, InOrder, Sound, HeldSum, Quiet;
    if newId !in s.cells { StoreFifo(popped, newId, s.loop[h].flow, s.loop[h].key, s.loop[h].options); }
  }

  lemma HeadFifo(s: State, h: Handle)
    requires Inv(s) && CoarseInv(s) && FifoInv(s) && h in s.loop && s.loop[h].DispatchSnapshot?
    ensures FifoInv(RunSnapshot(s.(loop := s.loop - {h}), s.loop[h].id))
  {
    var popped := s.(loop := s.loop - {h});
    PopQuiet(s, h);
    PopFifo(s, h);
    hide RunSnapshot, CoarseInv, FifoInv, HeadFits, Served, FlowsReady, Stamped, InOrder, Inv, Quiet, FirstInLine;
    SnapshotFifo(popped, s.loop[h].id);
  }

  lemma LoopFifo(s: State, h: Handle, passed: bool, newId: Id)
    requires Inv(s) && CoarseInv(s) && FifoInv(s) && h in s.loop
    ensures FifoInv(Apply(s, RunLoop(h, passed, newId)))
  {
    hide RunSnapshot, Store, Inv, CoarseInv, FifoInv;
    if s.loop[h].TriggerChecked? { ArrivalFifo(s, h, passed, newId); } else { HeadFifo(s, h); }
  }

  /** What is left for the queue when the one loop continuation starts to run. */
  lemma PopFifo(s: State, h: Handle)
    requires CoarseInv(s) && FifoInv(s) && h in s.loop
    ensures var popped := s.(loop := s.loop - {h});
            && FlowsReady(popped) && Stamped(popped) && InOrder(popped)
            && (s.loop[h].DispatchSnapshot? ==>
                  && s.loop[h].id in s.cells && Queueing(s.cells[s.loop[h].id]) && FirstInLine(popped, s.loop[h].id)
                  && forall id :: id in s.cells && Queueing(s.cells[id]) ==> s.active >= s.concurrency - 1)
            && (s.loop[h].TriggerChecked? ==>
                  && s.loop[h].flow.name in s.flows
                  && HeadFits(popped) && Served(popped)
                  && forall id :: id in s.cells && Queueing(s.cells[id]) ==> s.active >= s.concurrency)
  {
    hide Coarse, StartedFits;
  }

  // ---- Runs ----

  ghost predicate CalmRun(concurrency: int, steps: seq<Step>) {
    steps == []
    || (CalmRun(concurrency, steps[..|steps| - 1])
        && Disciplined(After(concurrency, steps[..|steps| - 1]), steps[|steps| - 1].event)
        && KeepsFlows(After(concurrency, steps[..|steps| - 1]), steps[|steps| - 1].event))
  }

  lemma LaterFifo(s: State, step: Step)
    requires FifoInv(s) && KeepsFlows(s, step.event)
    ensures var later := s.(clock := s.clock + step.elapsed); FifoInv(later) && KeepsFlows(later, step.event)
  {
    hide JustStored, StartedFits;
  }

  lemma AdvanceFifo(s: State, step: Step)
    requires Inv(s) && CoarseInv(s) && FifoInv(s) && Disciplined(s, step.event) && KeepsFlows(s, step.event)
    ensures FifoInv(Advance(s, step))
  {
    hide Inv, CoarseInv, FifoInv, Disciplined, KeepsFlows, Apply;
    LaterInv(s, step.elapsed);
    LaterCoarse(s, step);
    LaterFifo(s, step);
    ApplyFifo(s.(clock := s.clock + step.elapsed), step.event);
  }

  lemma {:induction false} CalmDisciplined(concurrency: int, steps: seq<Step>)
    requires CalmRun(concurrency, steps)
    ensures DisciplinedRun(concurrency, steps)
  {
    if steps != [] {
      hide Disciplined, KeepsFlows, After;
      CalmDisciplined(concurrency, steps[..|steps| - 1]);
    }
  }

  lemma {:induction false} AfterFifo(concurrency: int, steps: seq<Step>)
    requires CalmRun(concurrency, steps)
    ensures Inv(After(concurrency, steps)) && CoarseInv(After(concurrency, steps)) && FifoInv(After(concurrency, steps))
  {
    CalmDisciplined(concurrency, steps);
    hide DisciplinedRun, Disciplined, KeepsFlows;
    AfterCoarse(concurrency, steps);
    if steps != [] {
      hide Inv, CoarseInv, FifoInv, Advance;
      AfterFifo(concurrency, steps[..|steps| - 1]);
      AdvanceFifo(After(concurrency, steps[..|steps| - 1]), steps[|steps| - 1]);
    }
  }

  /** Work conservation: with no continuation pending, an execution queues only while the limit is reached. */
  lemma WorkConserving(concurrency: int, steps: seq<Step>, id: Id)
    requires CalmRun(concurrency, steps) && Quiet(After(concurrency, steps))
    requires id in After(concurrency, steps).cells && Queueing(After(concurrency, steps).cells[id])
    ensures After(concurrency, steps).active >= concurrency
  {
    AfterFifo(concurrency, steps);
    AfterInv(concurrency, steps);
    hide Inv, CoarseInv, After;
    QuietServed(After(concurrency, steps));
  }

  /** First in, first out: whoever was triggered later starts no earlier, and never while an
      earlier one is still queued. */
  lemma StartsInTriggerOrder(concurrency: int, steps: seq<Step>, i: nat, j: nat)
    requires CalmRun(concurrency, steps) && i < j < |After(concurrency, steps).order|
    ensures var s := After(concurrency, steps);
            && s.order[i] in s.cells && s.order[j] in s.cells
            && var a, b := s.cells[s.order[i]].record, s.cells[s.order[j]].record;
               && (b.startedAt.Some? ==> a.state != Queued)
               && (a.startedAt.Some? && b.startedAt.Some? ==> a.startedAt.value <= b.startedAt.value)
  {
    AfterFifo(concurrency, steps);
    hide CoarseInv, After, Served, FlowsReady, HeadFits;
    var s := After(concurrency, steps);
    assert s.order[i] in s.order && s.order[j] in s.order;
  }

  /** Where it ends: when `dispatchQueued` acts on the one free slot, it leaves no one queueing beside a free
      slot if and only if the execution it remembered still queues with its flow registered, or no one does. */
  lemma BlockedHead(s: State, id: Id)
    requires id in s.cells && s.active == s.concurrency - 1
    ensures var s' := RunSnapshot(s, id);
            (forall other :: other in s'.cells && Queueing(s'.cells[other]) ==> s'.active >= s'.concurrency)
            <==> (Queueing(s.cells[id]) && s.cells[id].record.flowName in s.flows)
                 || forall other :: other in s.cells ==> !Queueing(s.cells[other])
  {
    var s' := RunSnapshot(s, id);
    if s.cells[id].record.flowName !in s.flows || !Queueing(s.cells[id]) {
      SnapshotIdle(s, id);
    }
  }

  lemma SnapshotIdle(s: State, id: Id)
    requires id in s.cells && (s.cells[id].record.flowName !in s.flows || !Queueing(s.cells[id]))
    ensures RunSnapshot(s, id) == s
  {
    assert s.cells[id := s.cells[id]] == s.cells;
  }

  lemma CompleteEffect(c: Cell, h: Handle, room: bool, registered: Option<Flow>, now: int)
    requires h in c.live && c.live[h].CompleteStored?
    ensures var e := RunLive(c, h, Returned, room, registered, now);
            e.cell.record == c.record && e.slots == -1 && e.redispatch
  {
  }

  /** The engine around the executions is as it was. */
  ghost predicate SameAround(s: State, s': State) {
    && s'.concurrency == s.concurrency && s'.flows == s.flows && s'.order == s.order && s'.index == s.index
    && s'.clock == s.clock && s'.cells.Keys == s.cells.Keys
  }

  /** A slot is free, the oldest queued execution is remembered, and no record has changed. */
  ghost predicate Freed(s: State, s': State, id: Id) {
    && s'.active == s.active - 1 && SameAround(s, s')
    && (forall i :: i in s.cells ==>
          s'.cells[i].record == s.cells[i].record && (i != id ==> s'.cells[i] == s.cells[i]))
    && QueuedIds(s'.cells, s'.order) == QueuedIds(s.cells, s.order) != []
    && s'.loop == s.loop[s.loopNext := DispatchSnapshot(Oldest(s.cells, QueuedIds(s.cells, s.order)))]
    && s'.loopNext == s.loopNext + 1
  }

  lemma FreedSlot(s: State, id: Id, e: Effect)
    requires id in s.cells && e.cell.record == s.cells[id].record && e.slots == -1 && e.redispatch
    requires s.active <= s.concurrency && QueuedIds(s.cells, s.order) != []
    ensures Freed(s, Update(s, id, e), id)
  {
    hide QueuedIds, Oldest;
    var cells := s.cells[id := e.cell];
    SameQueue(s.cells, cells, s.order);
    OldestSame(s.cells, cells, QueuedIds(s.cells, s.order));
  }

  /** Storing a completed result frees a slot and leaves the queue as it is. */
  lemma FreedOne(s: State, id: Id, h: Handle)
    requires id in s.cells && h in s.cells[id].live && s.cells[id].live[h].CompleteStored?
    requires s.active <= s.concurrency && QueuedIds(s.cells, s.order) != []
    ensures Freed(s, Apply(s, Run(id, h, Returned)), id)
  {
    hide RunLive, QueuedIds, Oldest, Registered, Freed, Update;
    var room, registered := s.active < s.concurrency, Registered(s, s.cells[id].record.flowName);
    CompleteEffect(s.cells[id], h, room, registered, s.clock);
    FreedSlot(s, id, RunLive(s.cells[id], h, Returned, room, registered, s.clock));
  }

  /** Two slots freed one after the other: the same head is remembered twice. */
  lemma FreedTwo(s: State, a: Id, b: Id, ha: Handle, hb: Handle)
    requires s.loop == map[] && s.active == s.concurrency
    requires a in s.cells && ha in s.cells[a].live && s.cells[a].live[ha].CompleteStored?
    requires b in s.cells && hb in s.cells[b].live && s.cells[b].live[hb].CompleteStored?
    requires a != b && QueuedIds(s.cells, s.order) != []
    ensures var s1 := Apply(Apply(s, Run(a, ha, Returned)), Run(b, hb, Returned));
            var head := Oldest(s.cells, QueuedIds(s.cells, s.order));
            && SameAround(s, s1) && s1.active == s.active - 2
            && s1.loop == map[s.loopNext := DispatchSnapshot(head), s.loopNext + 1 := DispatchSnapshot(head)]
            && (forall i :: i in s.cells ==> s1.cells[i].record == s.cells[i].record)
  {
    hide Apply, QueuedIds, Oldest;
    FreedOne(s, a, ha);
    var s0 := Apply(s, Run(a, ha, Returned));
    OldestSame(s.cells, s0.cells, QueuedIds(s.cells, s.order));
    FreedOne(s0, b, hb);
  }

  /** Acting on a remembered execution fills a slot only if it is still queued. */
  lemma ActOn(s: State, h: Handle)
    requires h in s.loop && s.loop[h].DispatchSnapshot? && s.loop[h].id in s.cells
    requires s.cells[s.loop[h].id].record.flowName in s.flows && s.active < s.concurrency
    ensures var id, s' := s.loop[h].id, Apply(s, RunLoop(h, true, ""));
            && s'.loop == s.loop - {h} && SameAround(s, s')
            && (forall i :: i in s.cells && i != id ==> s'.cells[i] == s.cells[i])
            && s'.cells[id].record.flowName == s.cells[id].record.flowName
            && !Queueing(s'.cells[id])
            && s'.active == s.active + if Queueing(s.cells[id]) then 1 else 0
  {
  }

  /** The second of two remembered heads finds its execution started and leaves its slot empty. */
  lemma OneFilled(s: State, n: Handle, head: Id, other: Id)
    requires s.loop == map[n := DispatchSnapshot(head), n + 1 := DispatchSnapshot(head)]
    requires s.active == s.concurrency - 2
    requires head in s.cells && other in s.cells && head != other
    requires Queueing(s.cells[head]) && Queueing(s.cells[other]) && s.cells[head].record.flowName in s.flows
    ensures var s' := Apply(Apply(s, RunLoop(n, true, "")), RunLoop(n + 1, true, ""));
            && s'.loop == map[] && s'.active == s'.concurrency - 1 && SameAround(s, s')
            && other in s'.cells && Queueing(s'.cells[other])
  {
    hide Apply;
    ActOn(s, n);
    var t := Apply(s, RunLoop(n, true, ""));
    assert t.loop == map[n + 1 := DispatchSnapshot(head)];
    ActOn(t, n + 1);
  }

  /** Why runs must be disciplined: when a second slot is freed before the first `dispatchQueued` has
      acted, both remember the same oldest execution and one slot stays empty beside a queued execution. */
  lemma TwoFreedOneFilled(s: State, a: Id, b: Id, ha: Handle, hb: Handle)
    requires Ordered(s) && s.loop == map[] && s.active == s.concurrency
    requires a in s.cells && ha in s.cells[a].live && s.cells[a].live[ha].CompleteStored?
    requires b in s.cells && hb in s.cells[b].live && s.cells[b].live[hb].CompleteStored?
    requires a != b && |QueuedIds(s.cells, s.order)| >= 2
    requires FlowsReady(s)
    ensures var s1 := Apply(Apply(s, Run(a, ha, Returned)), Run(b, hb, Returned));
            var s2 := Apply(Apply(s1, RunLoop(s.loopNext, true, "")), RunLoop(s.loopNext + 1, true, ""));
            && s2.loop == map[] && s2.active == s2.concurrency - 1 && SameAround(s, s2)
            && exists id :: id in s2.cells && Queueing(s2.cells[id])
  {
    var queued := QueuedIds(s.cells, s.order);
    hide Apply, Ordered, QueuedIds, Oldest, FlowsReady;
    var head := Oldest(s.cells, queued);
    OrderedDistinct(s);
    DistinctQueue(s.cells, s.order);
    var other := if queued[0] == head then queued[1] else queued[0];
    assert other in queued && head in queued;
    QueuedFlow(s, head);
    FreedTwo(s, a, b, ha, hb);
    OneFilled(Apply(Apply(s, Run(a, ha, Returned)), Run(b, hb, Returned)), s.loopNext, head, other);
  }

  lemma QueuedFlow(s: State, id: Id)
    requires FlowsReady(s) && id in s.cells && Queueing(s.cells[id])
    ensures s.cells[id].record.flowName in s.flows
  {
  }

  lemma OrderedDistinct(s: State)
    requires Ordered(s)
    ensures Distinct(s.order)
  {
  }

  lemma {:induction false} SameQueue(cells: map<Id, Cell>, cells': map<Id, Cell>, ids: seq<Id>)
    requires cells.Keys == cells'.Keys
    requires forall id :: id in cells ==> (Queueing(cells[id]) <==> Queueing(cells'[id]))
    ensures QueuedIds(cells', ids) == QueuedIds(cells, ids)
  {
    if ids != [] { SameQueue(cells, cells', ids[1..]); }
  }

  lemma {:induction false} DistinctQueue(cells: map<Id, Cell>, ids: seq<Id>)
    requires Distinct(ids)
    ensures Distinct(QueuedIds(cells, ids))
  {
    if ids != [] {
      DistinctQueue(cells, ids[1..]);
      assert ids[0] !in ids[1..];
    }
  }

  lemma {:induction false} OldestSame(cells: map<Id, Cell>, cells': map<Id, Cell>, ids: seq<Id>)
    requires ids != [] && forall id :: id in ids ==> id in cells && id in cells'
    requires forall id :: id in ids ==> cells[id].record.queuedAt == cells'[id].record.queuedAt
    ensures Oldest(cells', ids) == Oldest(cells, ids)
  {
    if |ids| > 1 { OldestSame(cells, cells', ids[1..]); }
  }
}
