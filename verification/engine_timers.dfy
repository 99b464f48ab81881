/** On every run: exactly when timers match states, which executions keep their handler, and exactly when a
    terminal one keeps something. */
module EngineTimers {
  import opened Wrappers
  import opened Executions
  import opened EngineSteps
  import opened EngineCells
  import opened EngineLogs
  import opened EngineRuns
  import opened EngineCoarseCells
  import opened EngineCoarse
  import opened EngineLosses

  // ---- Stale continuations ----

  /** The continuation sets a timer that no longer fits its execution. */
  predicate Stale(c: Cell, task: Task, registered: Option<Flow>) {
    match task
    case RunStored(flow, timeout) => c.record.state != Running && timeout.GetOr(flow.timeout) > 0
    case RetryStored(flow) => c.record.state != Retrying
    case WaitStored(flow, kind) =>
      c.options.waitTimeout.GetOr(flow.waitTimeout) > 0 && (c.record.state != Waiting || c.waitTimer.Some?)
    case ResumeStored => Terminal(c.record.state) && Reenters(c, registered) && c.remaining.Some?
    case _ => false
  }

  /** What holds for the match while a handler result or output check is off the event loop. */
  ghost predicate Loose(c: Cell) {
    && TimersKnown(c) && TimersMatch(c) && (c.record.state == Running || c.record.state == Failed)
  }

  lemma LooseHandler(c: Cell, h: Handle)
    requires CellOk(c) && TimersMatch(c) && h in c.live && (c.live[h].HandlerPending? || c.live[h].OutputGuard?)
    ensures Loose(c.(live := c.live - {h}))
  {
    hide HasWaited, Sent;
  }

  lemma MatchCompleting(c: Cell, kind: Kind, now: int)
    requires Loose(c)
    ensures TimersMatch(Completing(c, kind, now))
  {
  }

  lemma MatchFailing(c: Cell, now: int)
    requires Loose(c)
    ensures TimersMatch(FailAndFree(c, now).cell)
  {
  }

  lemma MatchRetrying(c: Cell, flow: Flow, now: int)
    requires Loose(c) && c.record.state == Running
    ensures TimersMatch(ScheduleRetry(c, flow, now))
  {
  }

  lemma MatchWaiting(c: Cell, flow: Flow, kind: Kind, now: int)
    requires Loose(c) && c.record.state == Running
    ensures TimersMatch(EnterWaiting(c, flow, kind, now))
  {
  }

  lemma MatchDriving(c: Cell, flow: Flow, kind: Kind)
    requires Loose(c)
    ensures TimersMatch(Drive(c, OutputGuard(flow, kind)))
  {
  }

  lemma LooseMatch(c: Cell)
    requires Loose(c)
    ensures TimersMatch(c)
  {
  }

  lemma MatchError(c: Cell, flow: Flow, kind: Kind, retryable: bool, now: int)
    requires Loose(c) && c.record.state == Running
    ensures TimersMatch(OnError(c, flow, kind, retryable, now).cell)
  {
    hide Loose, TimersMatch, FailAndFree, ScheduleRetry;
    MatchFailing(c, now);
    MatchRetrying(c, flow, now);
  }

  lemma MatchResult(c: Cell, flow: Flow, kind: Kind, outcome: Outcome, now: int)
    requires Loose(c)
    ensures TimersMatch(RunHandler(c, flow, kind, outcome, now).cell)
  {
    LooseMatch(c);
    hide Loose, TimersMatch, Completing, OnError, EnterWaiting, Drive;
    MatchCompleting(c, kind, now);
    MatchDriving(c, flow, kind);
    if c.record.state == Running {
      MatchError(c, flow, kind, outcome == ThrewRetryable, now);
      MatchWaiting(c, flow, kind, now);
    }
  }

  lemma MatchGuard(c: Cell, flow: Flow, kind: Kind, outcome: Outcome, now: int)
    requires Loose(c)
    ensures TimersMatch(RunOutputGuard(c, flow, kind, outcome, now).cell)
  {
    LooseMatch(c);
    hide Loose, TimersMatch, Completing, OnError;
    MatchCompleting(c, kind, now);
    if c.record.state == Running { MatchError(c, flow, kind, outcome == ThrewRetryable, now); }
  }

  /** The four continuations that may be stale. */
  lemma MatchStored(c: Cell, h: Handle, outcome: Outcome, room: bool, registered: Option<Flow>, now: int)
    requires CellOk(c) && TimersMatch(c) && h in c.live
    requires c.live[h].RunStored? || c.live[h].RetryStored? || c.live[h].WaitStored?
    ensures TimersMatch(RunLive(c, h, outcome, room, registered, now).cell) <==> !Stale(c, c.live[h], registered)
  {
    hide HasWaited, Sent;
  }

  lemma MatchResumed(c: Cell, h: Handle, registered: Option<Flow>, now: int)
    requires CellOk(c) && TimersMatch(c) && h in c.live && c.live[h].ResumeStored?
    ensures TimersMatch(RunResumeStored(c.(live := c.live - {h}), registered, now).cell)
        <==> !Stale(c, ResumeStored, registered)
  {
    hide HasWaited, Sent;
  }

  lemma MatchTimer(c: Cell, h: Handle, outcome: Outcome, room: bool, registered: Option<Flow>, now: int)
    requires CellOk(c) && TimersMatch(c) && h in c.live
    requires c.live[h].RetryTimer? || c.live[h].TimeoutTimer? || c.live[h].WaitTimer?
    ensures TimersMatch(RunLive(c, h, outcome, room, registered, now).cell)
  {
    hide HasWaited, Sent;
  }

  lemma MatchOther(c: Cell, h: Handle, outcome: Outcome, room: bool, registered: Option<Flow>, now: int)
    requires CellOk(c) && TimersMatch(c) && h in c.live
    requires c.live[h].TriggerStored? || c.live[h].CompleteStored? || c.live[h].RetryRunStored?
    ensures TimersMatch(RunLive(c, h, outcome, room, registered, now).cell)
  {
    hide HasWaited, Sent;
  }

  /** A continuation, timer or handler result keeps the match if and only if it is not stale. */
  lemma MatchSegment(c: Cell, h: Handle, outcome: Outcome, room: bool, registered: Option<Flow>, now: int)
    requires CellOk(c) && TimersMatch(c) && h in c.live
    ensures TimersMatch(RunLive(c, h, outcome, room, registered, now).cell) <==> !Stale(c, c.live[h], registered)
  {
    var task := c.live[h];
    if task.HandlerPending? || task.OutputGuard? {
      LooseHandler(c, h);
      MatchResult(c.(live := c.live - {h}), task.flow, task.kind, outcome, now);
      MatchGuard(c.(live := c.live - {h}), task.flow, task.kind, outcome, now);
    } else if task.ResumeStored? {
      MatchResumed(c, h, registered, now);
    } else if task.RunStored? || task.RetryStored? || task.WaitStored? {
      MatchStored(c, h, outcome, room, registered, now);
    } else if task.RetryTimer? || task.TimeoutTimer? || task.WaitTimer? {
      MatchTimer(c, h, outcome, room, registered, now);
    } else {
      MatchOther(c, h, outcome, room, registered, now);
    }
    hide CellOk, TimersMatch, Loose, RunHandler, RunOutputGuard, RunResumeStored, Start, RunRunStored;
    hide RunRetryStored, RunWaitStored, RunRetryTimer, RunTimeoutTimer, RunWaitTimer, RunCompleteStored, Drive;
  }

  lemma MatchCalls(c: Cell, now: int)
    requires CellOk(c) && TimersMatch(c)
    ensures TimersMatch(Cancel(c, now)) && TimersMatch(Resume(c, now))
  {
    hide HasWaited, Sent;
  }

  lemma MatchStart(c: Cell, flow: Flow, timeout: Option<int>, room: bool, now: int)
    requires CellOk(c) && TimersMatch(c)
    ensures TimersMatch(Start(c, flow, timeout, room, now).cell)
  {
    hide HasWaited, Sent;
  }

  // ---- Handlers ----

  /** A waiting execution keeps its flow, and so does one on its way back from waiting. */
  ghost predicate HandlerKept(c: Cell) {
    && (c.record.state == Waiting ==> c.handler.Some?)
    && (forall h :: h in c.live && c.live[h].ResumeStored? && c.record.state == Running ==> c.handler.Some?)
  }

  predicate KeepsNothing(c: Cell) {
    Terminal(c.record.state) ==> c.handler.None? && c.remaining.None?
  }

  /** A resume takes up an execution that was cancelled during its await. */
  predicate TakesUpTerminal(c: Cell, task: Task, registered: Option<Flow>) {
    task.ResumeStored? && Terminal(c.record.state) && Reenters(c, registered)
  }

  lemma HandlerHandler(c: Cell, flow: Flow, kind: Kind, outcome: Outcome, now: int, h: Handle)
    requires CellOk(c) && HandlerKept(c) && h in c.live && Drives(c.live[h]) && !c.live[h].ResumeStored?
    ensures HandlerKept(RunHandler(c.(live := c.live - {h}), flow, kind, outcome, now).cell)
    ensures HandlerKept(RunOutputGuard(c.(live := c.live - {h}), flow, kind, outcome, now).cell)
    ensures KeepsNothing(c) ==> KeepsNothing(RunHandler(c.(live := c.live - {h}), flow, kind, outcome, now).cell)
    ensures KeepsNothing(c) ==> KeepsNothing(RunOutputGuard(c.(live := c.live - {h}), flow, kind, outcome, now).cell)
  {
    hide HasWaited, Sent, TimersKnown;
  }

  lemma HandlerResumed(c: Cell, h: Handle, registered: Option<Flow>, now: int)
    requires CellOk(c) && HandlerKept(c) && h in c.live && c.live[h].ResumeStored?
    ensures HandlerKept(RunResumeStored(c.(live := c.live - {h}), registered, now).cell)
    ensures KeepsNothing(c) ==>
              (KeepsNothing(RunResumeStored(c.(live := c.live - {h}), registered, now).cell)
               <==> !TakesUpTerminal(c, ResumeStored, registered))
  {
    hide HasWaited, Sent, TimersKnown;
  }

  /** The tasks that carry no execution forward. */
  lemma HandlerPassive(c: Cell, h: Handle, outcome: Outcome, room: bool, registered: Option<Flow>, now: int)
    requires CellOk(c) && HandlerKept(c) && h in c.live && !Drives(c.live[h])
    ensures HandlerKept(RunLive(c, h, outcome, room, registered, now).cell)
    ensures KeepsNothing(c) ==> KeepsNothing(RunLive(c, h, outcome, room, registered, now).cell)
  {
    hide HasWaited, Sent, TimersKnown;
  }

  lemma HandlerStored(c: Cell, h: Handle, outcome: Outcome, room: bool, registered: Option<Flow>, now: int)
    requires CellOk(c) && HandlerKept(c) && h in c.live && Drives(c.live[h])
    requires !c.live[h].ResumeStored? && !c.live[h].HandlerPending? && !c.live[h].OutputGuard?
    ensures HandlerKept(RunLive(c, h, outcome, room, registered, now).cell)
    ensures KeepsNothing(c) ==> KeepsNothing(RunLive(c, h, outcome, room, registered, now).cell)
  {
    hide HasWaited, Sent, TimersKnown;
  }

  lemma HandlerSegment(c: Cell, h: Handle, outcome: Outcome, room: bool, registered: Option<Flow>, now: int)
    requires CellOk(c) && HandlerKept(c) && h in c.live
    ensures HandlerKept(RunLive(c, h, outcome, room, registered, now).cell)
    ensures KeepsNothing(c) ==>
              (KeepsNothing(RunLive(c, h, outcome, room, registered, now).cell)
               <==> !TakesUpTerminal(c, c.live[h], registered))
  {
    var task := c.live[h];
    if task.HandlerPending? || task.OutputGuard? {
      HandlerHandler(c, task.flow, task.kind, outcome, now, h);
    } else if task.ResumeStored? {
      HandlerResumed(c, h, registered, now);
    } else if Drives(task) {
      HandlerStored(c, h, outcome, room, registered, now);
    } else {
      HandlerPassive(c, h, outcome, room, registered, now);
    }
    hide CellOk, HandlerKept, KeepsNothing, RunHandler, RunOutputGuard, RunResumeStored, Start, RunRunStored;
    hide RunRetryStored, RunWaitStored, RunRetryTimer, RunTimeoutTimer, RunWaitTimer, RunCompleteStored, Drive;
  }

  lemma HandlerCalls(c: Cell, now: int)
    requires CellOk(c) && HandlerKept(c)
    ensures HandlerKept(Cancel(c, now)) && HandlerKept(Resume(c, now))
    ensures KeepsNothing(c) ==> KeepsNothing(Cancel(c, now)) && KeepsNothing(Resume(c, now))
  {
    hide HasWaited, Sent;
  }

  lemma HandlerStart(c: Cell, flow: Flow, timeout: Option<int>, room: bool, now: int)
    requires CellOk(c) && HandlerKept(c)
    ensures HandlerKept(Start(c, flow, timeout, room, now).cell)
    ensures KeepsNothing(c) ==> KeepsNothing(Start(c, flow, timeout, room, now).cell)
  {
    hide HasWaited, Sent;
  }

  // ---- What an event changes ----

  ghost predicate Newborn(c: Cell) {
    exists r: Record, options: Options, flow: Flow ::
      r.state == Queued && c == Add(NewCell(r, options), TriggerStored(flow))
  }

  /** The executions after an event: one of them may have changed, by a call, a start or a task, or be new. */
  ghost predicate Became(s: State, e: Event, id: Id, c': Cell) {
    || (id !in s.cells && Newborn(c'))
    || (id in s.cells && c' == s.cells[id])
    || (id in s.cells && (c' == Cancel(s.cells[id], s.clock) || c' == Resume(s.cells[id], s.clock)))
    || (id in s.cells && s.cells[id].record.flowName in s.flows
        && c' == Start(s.cells[id], s.flows[s.cells[id].record.flowName], None, s.active < s.concurrency, s.clock).cell)
    || (Runs(s, e) && id == e.id && c' == RunCell(s, e))
  }

  predicate Runs(s: State, e: Event) {
    e.Run? && e.id in s.cells && e.handle in s.cells[e.id].live
  }

  function RunCell(s: State, e: Event): Cell
    requires Runs(s, e)
  {
    RunLive(s.cells[e.id], e.handle, e.outcome, s.active < s.concurrency,
            Registered(s, s.cells[e.id].record.flowName), s.clock).cell
  }

  lemma StoreBecame(s: State, h: Handle, passed: bool, newId: Id, id: Id)
    requires h in s.loop && s.loop[h].TriggerChecked?
    requires id in RunLoopTask(s.(loop := s.loop - {h}), s.loop[h], passed, newId).cells
    ensures Became(s, RunLoop(h, passed, newId), id,
                   RunLoopTask(s.(loop := s.loop - {h}), s.loop[h], passed, newId).cells[id])
  {
    var flow, key, options := s.loop[h].flow, s.loop[h].key, s.loop[h].options;
    NewRecordQueued(flow.name, key, s.clock);
    hide NewRecord, Add, NewCell;
    if id !in s.cells {
      assert Newborn(Add(NewCell(NewRecord(flow.name, key, s.clock), options), TriggerStored(flow)));
    }
  }

  lemma ApplyBecame(s: State, e: Event, id: Id)
    requires id in Apply(s, e).cells
    ensures Became(s, e, id, Apply(s, e).cells[id])
  {
    hide Cancel, Resume, RunLive, Start, QueuedIds, Oldest, Registered, Blank, NewRecord, NewCell, Add, Newborn;
    if e.RunLoop? && e.loopHandle in s.loop && s.loop[e.loopHandle].TriggerChecked? {
      StoreBecame(s, e.loopHandle, e.passed, e.newId, id);
    }
  }

  lemma ApplyRuns(s: State, e: Event)
    requires Runs(s, e)
    ensures e.id in Apply(s, e).cells && Apply(s, e).cells[e.id] == RunCell(s, e)
  {
    hide RunLive, QueuedIds, Oldest, Registered;
  }

  lemma NewbornFits(c: Cell)
    requires Newborn(c)
    ensures TimersMatch(c) && HandlerKept(c) && KeepsNothing(c)
  {
  }

  // ---- Timers, event by event and over runs ----

  ghost predicate AllMatch(s: State) {
    forall id :: id in s.cells ==> TimersMatch(s.cells[id])
  }

  predicate StaleEvent(s: State, e: Event) {
    Runs(s, e) && Stale(s.cells[e.id], s.cells[e.id].live[e.handle], Registered(s, s.cells[e.id].record.flowName))
  }

  lemma MatchRun(s: State, e: Event)
    requires Inv(s) && AllMatch(s) && Runs(s, e)
    ensures TimersMatch(RunCell(s, e)) <==> !StaleEvent(s, e)
  {
    var c := s.cells[e.id];
    CellSound(s, e.id);
    hide TimersMatch, CellOk, RunLive, Stale, Registered, RunLanguage, Chained, RetriesBounded;
    MatchSegment(c, e.handle, e.outcome, s.active < s.concurrency, Registered(s, c.record.flowName), s.clock);
  }

  lemma MatchBecame(s: State, e: Event, id: Id, c': Cell)
    requires Inv(s) && AllMatch(s) && Became(s, e, id, c') && !StaleEvent(s, e)
    ensures TimersMatch(c')
  {
    hide TimersMatch, RunCell, Start, Cancel, Resume, Newborn, StaleEvent, Sound;
    if id !in s.cells {
      NewbornFits(c');
    } else {
      MatchIdle(s, id);
      if Runs(s, e) { MatchRun(s, e); }
    }
  }

  lemma MatchIdle(s: State, id: Id)
    requires Inv(s) && AllMatch(s) && id in s.cells
    ensures var c := s.cells[id];
            && TimersMatch(c) && TimersMatch(Cancel(c, s.clock)) && TimersMatch(Resume(c, s.clock))
            && (c.record.flowName in s.flows ==>
                  TimersMatch(Start(c, s.flows[c.record.flowName], None, s.active < s.concurrency, s.clock).cell))
  {
    var c := s.cells[id];
    CellSound(s, id);
    hide TimersMatch, CellOk, Start, Cancel, Resume, RunLanguage, Chained, RetriesBounded;
    MatchCalls(c, s.clock);
    if c.record.flowName in s.flows {
      MatchStart(c, s.flows[c.record.flowName], None, s.active < s.concurrency, s.clock);
    }
  }

  /** An event keeps every timer matching its execution if and only if it is no stale continuation. */
  lemma MatchStep(s: State, e: Event)
    requires Inv(s) && AllMatch(s)
    ensures AllMatch(Apply(s, e)) <==> !StaleEvent(s, e)
  {
    hide Inv, Apply, Became, RunCell, TimersMatch, Stale;
    if StaleEvent(s, e) {
      MatchRun(s, e);
      ApplyRuns(s, e);
    } else {
      forall id | id in Apply(s, e).cells ensures TimersMatch(Apply(s, e).cells[id]) {
        ApplyBecame(s, e, id);
        MatchBecame(s, e, id, Apply(s, e).cells[id]);
      }
    }
  }

  lemma MatchAdvance(s: State, step: Step)
    requires Inv(s) && AllMatch(s)
    ensures AllMatch(Advance(s, step)) <==> !StaleEvent(s, step.event)
  {
    hide Inv, Apply, TimersMatch, Stale;
    LaterInv(s, step.elapsed);
    MatchStep(s.(clock := s.clock + step.elapsed), step.event);
  }

  ghost predicate MatchThroughout(concurrency: int, steps: seq<Step>) {
    forall i :: 0 <= i <= |steps| ==> AllMatch(After(concurrency, steps[..i]))
  }

  ghost predicate NeverStale(concurrency: int, steps: seq<Step>) {
    forall i :: 0 <= i < |steps| ==> !StaleEvent(After(concurrency, steps[..i]), steps[i].event)
  }

  lemma {:induction false} MatchWhile(concurrency: int, steps: seq<Step>, n: nat)
    requires n <= |steps| && NeverStale(concurrency, steps)
    ensures AllMatch(After(concurrency, steps[..n]))
    decreases n
  {
    hide Inv, AllMatch, Advance, StaleEvent;
    if n > 0 {
      MatchWhile(concurrency, steps, n - 1);
      NextState(concurrency, steps, n - 1);
      AfterInv(concurrency, steps[..n - 1]);
      MatchAdvance(After(concurrency, steps[..n - 1]), steps[n - 1]);
    } else {
      EmptyRun(concurrency);
    }
  }

  lemma EmptyRun(concurrency: int)
    ensures AllMatch(After(concurrency, [])) && AllKeepNothing(After(concurrency, []))
    ensures AllKept(After(concurrency, []))
  {
  }

  /** Timers match states throughout a run if and only if no stale continuation runs in it. */
  lemma TimersMatchExactly(concurrency: int, steps: seq<Step>)
    ensures MatchThroughout(concurrency, steps) <==> NeverStale(concurrency, steps)
  {
    hide Inv, AllMatch, Advance, StaleEvent;
    if NeverStale(concurrency, steps) {
      forall i | 0 <= i <= |steps| ensures AllMatch(After(concurrency, steps[..i])) {
        MatchWhile(concurrency, steps, i);
      }
    }
    if MatchThroughout(concurrency, steps) {
      forall i | 0 <= i < |steps| ensures !StaleEvent(After(concurrency, steps[..i]), steps[i].event) {
        NextState(concurrency, steps, i);
        AfterInv(concurrency, steps[..i]);
        MatchAdvance(After(concurrency, steps[..i]), steps[i]);
      }
    }
  }

  // ---- Handlers over runs ----

  ghost predicate AllKept(s: State) {
    forall id :: id in s.cells ==> HandlerKept(s.cells[id])
  }

  ghost predicate AllKeepNothing(s: State) {
    forall id :: id in s.cells ==> KeepsNothing(s.cells[id])
  }

  predicate TakesUpEvent(s: State, e: Event) {
    ResumeTakes(s, e) && Terminal(s.cells[e.id].record.state)
  }

  lemma HandlerIdle(s: State, id: Id)
    requires Inv(s) && AllKept(s) && id in s.cells
    ensures var c := s.cells[id];
            && HandlerKept(c) && HandlerKept(Cancel(c, s.clock)) && HandlerKept(Resume(c, s.clock))
            && (KeepsNothing(c) ==> KeepsNothing(Cancel(c, s.clock)) && KeepsNothing(Resume(c, s.clock)))
            && (c.record.flowName in s.flows ==>
                  var e := Start(c, s.flows[c.record.flowName], None, s.active < s.concurrency, s.clock);
                  HandlerKept(e.cell) && (KeepsNothing(c) ==> KeepsNothing(e.cell)))
  {
    var c := s.cells[id];
    CellSound(s, id);
    hide HandlerKept, KeepsNothing, CellOk, Start, Cancel, Resume, RunLanguage, Chained, RetriesBounded;
    HandlerCalls(c, s.clock);
    if c.record.flowName in s.flows {
      HandlerStart(c, s.flows[c.record.flowName], None, s.active < s.concurrency, s.clock);
    }
  }

  lemma HandlerRun(s: State, e: Event)
    requires Inv(s) && AllKept(s) && Runs(s, e)
    ensures HandlerKept(RunCell(s, e))
    ensures KeepsNothing(s.cells[e.id]) ==> (KeepsNothing(RunCell(s, e)) <==> !TakesUpEvent(s, e))
  {
    var c := s.cells[e.id];
    CellSound(s, e.id);
    hide HandlerKept, KeepsNothing, CellOk, RunLive, Reenters, Registered, RunLanguage, Chained, RetriesBounded;
    HandlerSegment(c, e.handle, e.outcome, s.active < s.concurrency, Registered(s, c.record.flowName), s.clock);
  }

  lemma HandlerBecame(s: State, e: Event, id: Id, c': Cell)
    requires Inv(s) && AllKept(s) && Became(s, e, id, c')
    ensures HandlerKept(c')
    ensures AllKeepNothing(s) && !TakesUpEvent(s, e) ==> KeepsNothing(c')
  {
    hide HandlerKept, KeepsNothing, RunCell, Start, Cancel, Resume, Newborn, TakesUpEvent, Sound;
    if id !in s.cells {
      NewbornFits(c');
    } else {
      HandlerIdle(s, id);
      if Runs(s, e) { HandlerRun(s, e); }
    }
  }

  /** Handlers are always kept; terminal executions keep nothing if and only if the event is no resume that
      takes up a terminal one. */
  lemma HandlerStep(s: State, e: Event)
    requires Inv(s) && AllKept(s)
    ensures AllKept(Apply(s, e))
    ensures AllKeepNothing(s) ==> (AllKeepNothing(Apply(s, e)) <==> !TakesUpEvent(s, e))
  {
    hide Inv, Apply, Became, RunCell, HandlerKept, KeepsNothing, Reenters;
    forall id | id in Apply(s, e).cells
      ensures HandlerKept(Apply(s, e).cells[id])
      ensures AllKeepNothing(s) && !TakesUpEvent(s, e) ==> KeepsNothing(Apply(s, e).cells[id])
    {
      ApplyBecame(s, e, id);
      HandlerBecame(s, e, id, Apply(s, e).cells[id]);
    }
    if TakesUpEvent(s, e) {
      HandlerRun(s, e);
      ApplyRuns(s, e);
    }
  }

  lemma HandlerAdvance(s: State, step: Step)
    requires Inv(s) && AllKept(s)
    ensures AllKept(Advance(s, step))
    ensures AllKeepNothing(s) ==> (AllKeepNothing(Advance(s, step)) <==> !TakesUpEvent(s, step.event))
  {
    hide Inv, Apply, HandlerKept, KeepsNothing, Reenters;
    LaterInv(s, step.elapsed);
    HandlerStep(s.(clock := s.clock + step.elapsed), step.event);
  }

  lemma {:induction false} AfterKept(concurrency: int, steps: seq<Step>)
    ensures AllKept(After(concurrency, steps))
  {
    if steps != [] {
      hide Inv, AllKept, Advance;
      AfterKept(concurrency, steps[..|steps| - 1]);
      AfterInv(concurrency, steps[..|steps| - 1]);
      HandlerAdvance(After(concurrency, steps[..|steps| - 1]), steps[|steps| - 1]);
    }
  }

  /** On every run a waiting execution keeps the flow it ran with, and a resume of one that still runs finds
      it, even after the flow is unregistered: it never fails with "flow not found". */
  lemma ResumeFindsFlow(concurrency: int, steps: seq<Step>, id: Id, h: Handle)
    requires id in After(concurrency, steps).cells
    ensures var c := After(concurrency, steps).cells[id];
            && (c.record.state == Waiting ==> c.handler.Some?)
            && (h in c.live && c.live[h].ResumeStored? && c.record.state == Running ==> c.handler.Some?)
  {
    AfterKept(concurrency, steps);
    hide After;
    assert HandlerKept(After(concurrency, steps).cells[id]);
  }

  ghost predicate NothingThroughout(concurrency: int, steps: seq<Step>) {
    forall i :: 0 <= i <= |steps| ==> AllKeepNothing(After(concurrency, steps[..i]))
  }

  ghost predicate NeverTakesUp(concurrency: int, steps: seq<Step>) {
    forall i :: 0 <= i < |steps| ==> !TakesUpEvent(After(concurrency, steps[..i]), steps[i].event)
  }

  lemma {:induction false} NothingWhile(concurrency: int, steps: seq<Step>, n: nat)
    requires n <= |steps| && NeverTakesUp(concurrency, steps)
    ensures AllKeepNothing(After(concurrency, steps[..n]))
    decreases n
  {
    hide Inv, AllKept, AllKeepNothing, Advance, TakesUpEvent;
    if n > 0 {
      NothingWhile(concurrency, steps, n - 1);
      NextState(concurrency, steps, n - 1);
      AfterInv(concurrency, steps[..n - 1]);
      AfterKept(concurrency, steps[..n - 1]);
      HandlerAdvance(After(concurrency, steps[..n - 1]), steps[n - 1]);
    } else {
      EmptyRun(concurrency);
    }
  }

  /** Terminal executions keep no flow and no remaining time throughout a run if and only if no resume in it
      takes up an execution that was cancelled meanwhile. */
  lemma NothingKeptExactly(concurrency: int, steps: seq<Step>)
    ensures NothingThroughout(concurrency, steps) <==> NeverTakesUp(concurrency, steps)
  {
    hide Inv, AllKept, AllKeepNothing, Advance, TakesUpEvent;
    if NeverTakesUp(concurrency, steps) {
      forall i | 0 <= i <= |steps| ensures AllKeepNothing(After(concurrency, steps[..i])) {
        NothingWhile(concurrency, steps, i);
      }
    }
    if NothingThroughout(concurrency, steps) {
      forall i | 0 <= i < |steps| ensures !TakesUpEvent(After(concurrency, steps[..i]), steps[i].event) {
        NextState(concurrency, steps, i);
        AfterInv(concurrency, steps[..i]);
        AfterKept(concurrency, steps[..i]);
        HandlerAdvance(After(concurrency, steps[..i]), steps[i]);
      }
    }
  }

  // ---- What that means, and a discipline that is enough ----

  /** Every registered timer is live and its execution is in the state it is for, every live timer is
      registered, and a terminal execution has neither. */
  lemma TimersMatchStates(concurrency: int, steps: seq<Step>, id: Id)
    requires NeverStale(concurrency, steps) && id in After(concurrency, steps).cells
    ensures var c := After(concurrency, steps).cells[id];
            && (c.retryTimer.Some? ==> c.record.state == Retrying && c.retryTimer.value in c.live)
            && (c.waitTimer.Some? ==> c.record.state == Waiting && c.waitTimer.value in c.live)
            && (c.timeoutTimer.Some? ==>
                  (c.record.state == Running || c.record.state == Retrying) && c.timeoutTimer.value in c.live)
            && (forall h :: h in c.live && c.live[h].RetryTimer? ==> c.retryTimer == Some(h))
            && (forall h :: h in c.live && c.live[h].TimeoutTimer? ==> c.timeoutTimer == Some(h))
            && (forall h :: h in c.live && c.live[h].WaitTimer? ==> c.waitTimer == Some(h))
            && (Terminal(c.record.state) ==>
                  forall h :: h in c.live ==>
                    !c.live[h].RetryTimer? && !c.live[h].TimeoutTimer? && !c.live[h].WaitTimer?)
  {
    MatchWhile(concurrency, steps, |steps|);
    assert steps[..|steps|] == steps;
    hide After;
    assert TimersMatch(After(concurrency, steps).cells[id]);
  }

  lemma {:induction false} DisciplinedPrefix(concurrency: int, steps: seq<Step>, n: nat)
    requires DisciplinedRun(concurrency, steps) && n <= |steps|
    ensures DisciplinedRun(concurrency, steps[..n])
  {
    hide Disciplined, After;
    if n < |steps| {
      DisciplinedPrefix(concurrency, steps[..|steps| - 1], n);
      assert steps[..|steps| - 1][..n] == steps[..n];
    } else {
      assert steps[..n] == steps;
    }
  }

  lemma CoarseFits(s: State)
    requires CoarseInv(s)
    ensures AllMatch(s) && AllKeepNothing(s)
  {
    hide TimersMatch, Solo;
    forall id | id in s.cells ensures TimersMatch(s.cells[id]) && KeepsNothing(s.cells[id]) {
      assert Coarse(s.cells[id]);
      CoarseTerminal(s.cells[id]);
    }
  }

  lemma CoarseTerminal(c: Cell)
    requires Coarse(c)
    ensures KeepsNothing(c)
  {
    hide TimersMatch;
  }

  /** Under this discipline an execution that a resume takes up still runs. */
  lemma DisciplinedResume(concurrency: int, steps: seq<Step>, id: Id, h: Handle)
    requires DisciplinedRun(concurrency, steps) && id in After(concurrency, steps).cells
    requires h in After(concurrency, steps).cells[id].live
    requires After(concurrency, steps).cells[id].live[h].ResumeStored?
    ensures After(concurrency, steps).cells[id].record.state == Running
  {
    hide After, TimersMatch, ParkedMatch, Inv, Solo;
    AfterCoarse(concurrency, steps);
    assert Coarse(After(concurrency, steps).cells[id]);
  }

  /** When calls, timers and handler results come only while no continuation is pending, none is stale and no
      resume takes up a terminal execution. */
  lemma DisciplinedNeverStale(concurrency: int, steps: seq<Step>)
    requires DisciplinedRun(concurrency, steps)
    ensures NeverStale(concurrency, steps) && NeverTakesUp(concurrency, steps)
  {
    hide DisciplinedRun, Inv, CoarseInv, AllMatch, AllKeepNothing, After, NeverStale, NeverTakesUp;
    forall i | 0 <= i <= |steps|
      ensures AllMatch(After(concurrency, steps[..i])) && AllKeepNothing(After(concurrency, steps[..i]))
    {
      DisciplinedPrefix(concurrency, steps, i);
      AfterCoarse(concurrency, steps[..i]);
      CoarseFits(After(concurrency, steps[..i]));
    }
    TimersMatchExactly(concurrency, steps);
    NothingKeptExactly(concurrency, steps);
  }
}
