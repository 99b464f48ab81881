/** What becomes of an execution: from any reachable state, how a handler result, a retry, a wait and a resume
    go on to the next handler call or to an end. */
module EngineProgress {
  import opened Wrappers
  import opened Executions
  import opened EngineSteps
  import opened EngineCells
  import opened EngineLogs
  import opened EngineRuns

  /** The state after the pending task `h` of an execution has run. */
  function Next(s: State, id: Id, h: Handle, outcome: Outcome): State {
    Apply(s, Run(id, h, outcome))
  }

  lemma NextIs(s: State, id: Id, h: Handle, outcome: Outcome)
    requires id in s.cells && h in s.cells[id].live
    ensures var s' := Next(s, id, h, outcome);
            var e := RunLive(s.cells[id], h, outcome, s.active < s.concurrency,
                             Registered(s, s.cells[id].record.flowName), s.clock);
            && id in s'.cells && s'.cells[id] == e.cell && s'.active == s.active + e.slots
            && s'.clock == s.clock && s'.concurrency == s.concurrency && s'.flows == s.flows
  {
    hide RunLive, QueuedIds, Oldest, Registered;
  }

  /** The one task that carries the execution forward is `task`, at `h`. */
  ghost predicate At(c: Cell, h: Handle, task: Task) {
    && h in c.live && c.live[h] == task && h + 1 == c.next && c.runner == Some(h)
    && (forall k :: k in c.live ==> k < c.next)
  }

  /** Its handler, or the check of its output, is pending. */
  predicate Handling(c: Cell, h: Handle) {
    && h in c.live && c.record.state == Running
    && (c.live[h].HandlerPending? || c.live[h].OutputGuard?)
  }

  // ---- Errors ----

  ghost predicate Moved(r: Record, to: ExecutionState, now: int, r': Record) {
    && r'.state == to && r'.transitions == r.transitions + [Transition(r.state, to, now)]
    && r'.completedAt == (if to == Complete || to == Failed then Some(now) else r.completedAt)
    && r'.startedAt == (if to == Running && r.startedAt.None? then Some(now) else r.startedAt)
    && r'.queuedAt == r.queuedAt && r'.flowName == r.flowName && r'.idempotencyKey == r.idempotencyKey
  }

  /** The execution has failed, its event is sent, and no timer is left that could touch it. */
  ghost predicate FailedFor(c: Cell, now: int, c': Cell) {
    && Moved(c.record, Failed, now, c'.record) && c'.record.retryCount == c.record.retryCount
    && c'.completions == 1
    && (forall h :: h in c'.live ==> !Drives(c'.live[h]) && !c'.live[h].TimeoutTimer?)
  }

  lemma ThrowRetries(c: Cell, h: Handle, room: bool, registered: Option<Flow>, now: int)
    requires CellOk(c) && Handling(c, h) && c.live[h].kind != Resumed
    ensures var e := RunLive(c, h, ThrewRetryable, room, registered, now);
            if c.record.retryCount < c.live[h].flow.maxRetries then
              && Moved(c.record, Retrying, now, e.cell.record)
              && e.cell.record.retryCount == c.record.retryCount + 1 && e.slots == 0
              && e.cell.next == c.next + 1 && At(e.cell, c.next, RetryStored(c.live[h].flow))
            else FailedFor(c, now, e.cell) && e.slots == -1
  {
    hide HasWaited;
  }

  lemma ThrowFails(c: Cell, h: Handle, outcome: Outcome, room: bool, registered: Option<Flow>, now: int)
    requires CellOk(c) && Handling(c, h)
    requires outcome == ThrewFatal || (outcome == ThrewRetryable && c.live[h].kind == Resumed)
    ensures var e := RunLive(c, h, outcome, room, registered, now); FailedFor(c, now, e.cell) && e.slots == -1
  {
    hide HasWaited;
  }

  lemma StartedFlow(s: State, id: Id, h: Handle)
    requires Inv(s) && id in s.cells && Handling(s.cells[id], h) && s.cells[id].live[h].kind != Resumed
    ensures s.cells[id].started == Some(s.cells[id].live[h].flow)
  {
    hide CellOk, RunLanguage, Chained, HeldSum;
    CellSound(s, id);
  }

  /** After any run: a retryable error of a handler, or of the check of its output, before any resume. It is
      retried, with its slot kept, if and only if the flow captured by the first run allows another retry.
      Otherwise the execution fails and its slot is free. */
  lemma RetriedExactly(concurrency: int, steps: seq<Step>, id: Id, h: Handle)
    requires id in After(concurrency, steps).cells && Handling(After(concurrency, steps).cells[id], h)
    requires After(concurrency, steps).cells[id].live[h].kind != Resumed
    ensures var s := After(concurrency, steps);
            var s', c := Next(s, id, h, ThrewRetryable), s.cells[id];
            && id in s'.cells && c.started.Some?
            && (s'.cells[id].record.state == Retrying <==> c.record.retryCount < c.started.value.maxRetries)
            && (if c.record.retryCount < c.started.value.maxRetries then
                  && Moved(c.record, Retrying, s.clock, s'.cells[id].record)
                  && s'.cells[id].record.retryCount == c.record.retryCount + 1 && s'.active == s.active
                  && At(s'.cells[id], c.next, RetryStored(c.started.value))
                else FailedFor(c, s.clock, s'.cells[id]) && s'.active == s.active - 1)
  {
    var s := After(concurrency, steps);
    AfterInv(concurrency, steps);
    hide After, Inv, CellOk, RunLive, Next, Registered, RunLanguage, Chained, RetriesBounded;
    CellSound(s, id);
    StartedFlow(s, id, h);
    NextIs(s, id, h, ThrewRetryable);
    ThrowRetries(s.cells[id], h, s.active < s.concurrency, Registered(s, s.cells[id].record.flowName), s.clock);
  }

  /** A fatal error fails the execution, and so does any error after a resume; the slot is free. */
  lemma FailsExactly(concurrency: int, steps: seq<Step>, id: Id, h: Handle, outcome: Outcome)
    requires id in After(concurrency, steps).cells && Handling(After(concurrency, steps).cells[id], h)
    requires outcome == ThrewFatal
             || (outcome == ThrewRetryable && After(concurrency, steps).cells[id].live[h].kind == Resumed)
    ensures var s := After(concurrency, steps);
            var s' := Next(s, id, h, outcome);
            id in s'.cells && FailedFor(s.cells[id], s.clock, s'.cells[id]) && s'.active == s.active - 1
  {
    var s := After(concurrency, steps);
    AfterInv(concurrency, steps);
    hide After, Inv, CellOk, RunLive, Next, Registered, RunLanguage, Chained, RetriesBounded;
    CellSound(s, id);
    NextIs(s, id, h, outcome);
    ThrowFails(s.cells[id], h, outcome, s.active < s.concurrency, Registered(s, s.cells[id].record.flowName), s.clock);
  }

  // ---- From one task to the next, for one execution ----

  function Timeouts(c: Cell): set<Handle> {
    set h | h in c.live && c.live[h].TimeoutTimer?
  }

  /** The execution timeout is as it was. */
  predicate SameTimeout(c: Cell, c': Cell) {
    c'.timeoutTimer == c.timeoutTimer && Timeouts(c') == Timeouts(c)
  }

  lemma RetryIsTimed(c: Cell, h: Handle, flow: Flow, room: bool, registered: Option<Flow>, now: int)
    requires At(c, h, RetryStored(flow))
    ensures var e := RunLive(c, h, Returned, room, registered, now);
            && At(e.cell, h + 1, RetryTimer(flow)) && e.cell.retryTimer == Some(h + 1)
            && e.cell.record == c.record && e.slots == 0 && SameTimeout(c, e.cell)
  {
  }

  lemma RetryRunsAgain(c: Cell, h: Handle, flow: Flow, room: bool, registered: Option<Flow>, now: int)
    requires At(c, h, RetryTimer(flow)) && c.record.state == Retrying
    ensures var e := RunLive(c, h, Returned, room, registered, now);
            && At(e.cell, h + 1, RetryRunStored(flow)) && e.cell.retryTimer == None
            && Moved(c.record, Running, now, e.cell.record) && e.cell.record.retryCount == c.record.retryCount
            && e.slots == 0 && SameTimeout(c, e.cell)
  {
  }

  lemma RetryCalls(c: Cell, h: Handle, flow: Flow, room: bool, registered: Option<Flow>, now: int)
    requires At(c, h, RetryRunStored(flow))
    ensures var e := RunLive(c, h, Returned, room, registered, now);
            && At(e.cell, h + 1, HandlerPending(flow, Retry))
            && e.cell.record == c.record && e.slots == 0 && SameTimeout(c, e.cell)
  {
  }

  /** The handler of a retrying execution is called once more when its timer has fired. */
  lemma RetryCallsHandler(s: State, id: Id, h: Handle, flow: Flow)
    requires id in s.cells && At(s.cells[id], h, RetryStored(flow)) && s.cells[id].record.state == Retrying
    ensures var s' := Next(Next(Next(s, id, h, Returned), id, h + 1, Returned), id, h + 2, Returned);
            && id in s'.cells && At(s'.cells[id], h + 3, HandlerPending(flow, Retry))
            && Moved(s.cells[id].record, Running, s.clock, s'.cells[id].record)
            && s'.cells[id].record.retryCount == s.cells[id].record.retryCount
            && s'.active == s.active && SameTimeout(s.cells[id], s'.cells[id])
  {
    hide RunLive, Next, Registered, Moved, SameTimeout;
    var s1 := OneTask(s, id, h, Returned);
    RetryIsTimed(s.cells[id], h, flow, s.active < s.concurrency, Registered(s, s.cells[id].record.flowName), s.clock);
    var s2 := OneTask(s1, id, h + 1, Returned);
    RetryRunsAgain(s1.cells[id], h + 1, flow, s1.active < s1.concurrency,
                   Registered(s1, s1.cells[id].record.flowName), s1.clock);
    var s3 := OneTask(s2, id, h + 2, Returned);
    RetryCalls(s2.cells[id], h + 2, flow, s2.active < s2.concurrency,
               Registered(s2, s2.cells[id].record.flowName), s2.clock);
    SameTimeoutChain(s.cells[id], s1.cells[id], s2.cells[id], s3.cells[id]);
  }

  lemma RetrySteps(s: State, id: Id, h: Handle, flow: Flow)
    requires id in s.cells && At(s.cells[id], h, RetryStored(flow)) && s.cells[id].record.state == Retrying
    ensures var s1 := Next(s, id, h, Returned);
            id in s1.cells && At(s1.cells[id], h + 1, RetryTimer(flow))
            && var s2 := Next(s1, id, h + 1, Returned);
               id in s2.cells && At(s2.cells[id], h + 2, RetryRunStored(flow))
  {
    hide RunLive, Next, Registered, Moved, SameTimeout;
    var s1 := OneTask(s, id, h, Returned);
    RetryIsTimed(s.cells[id], h, flow, s.active < s.concurrency, Registered(s, s.cells[id].record.flowName), s.clock);
    var s2 := OneTask(s1, id, h + 1, Returned);
    RetryRunsAgain(s1.cells[id], h + 1, flow, s1.active < s1.concurrency,
                   Registered(s1, s1.cells[id].record.flowName), s1.clock);
  }

  lemma OneTask(s: State, id: Id, h: Handle, outcome: Outcome) returns (s': State)
    requires id in s.cells && h in s.cells[id].live
    ensures s' == Next(s, id, h, outcome)
    ensures var e := RunLive(s.cells[id], h, outcome, s.active < s.concurrency,
                             Registered(s, s.cells[id].record.flowName), s.clock);
            && id in s'.cells && s'.cells[id] == e.cell && s'.active == s.active + e.slots
            && s'.clock == s.clock && s'.concurrency == s.concurrency && s'.flows == s.flows
  {
    hide RunLive, Next, Registered;
    NextIs(s, id, h, outcome);
    s' := Next(s, id, h, outcome);
  }

  lemma SameTimeoutChain(a: Cell, b: Cell, c: Cell, d: Cell)
    requires SameTimeout(a, b) && SameTimeout(b, c) && SameTimeout(c, d)
    ensures SameTimeout(a, d)
  {
  }

  // ---- The first call ----

  /** The execution timeout is set, or not. */
  ghost predicate Timed(c: Cell, on: bool) {
    if on then c.timeoutTimer.Some? && c.timeoutTimer.value in c.live && c.live[c.timeoutTimer.value].TimeoutTimer?
    else forall h :: h in c.live ==> !c.live[h].TimeoutTimer?
  }

  lemma QueuedStarts(c: Cell, flow: Flow, timeout: Option<int>, room: bool, now: int)
    requires CellOk(c) && c.record.state == Queued
    ensures var e := Start(c, flow, timeout, room, now);
            if room then
              && Moved(c.record, Running, now, e.cell.record)
              && (c.record.startedAt.None? ==> e.cell.record.startedAt == Some(now))
              && e.cell.started == Some(flow) && e.slots == 1 && At(e.cell, c.next, RunStored(flow, timeout))
              && Timed(e.cell, false) && e.cell.record.retryCount == c.record.retryCount
            else e.cell == c && e.slots == 0
  {
    hide HasWaited;
  }

  lemma StartCalls(c: Cell, h: Handle, flow: Flow, timeout: Option<int>, room: bool, registered: Option<Flow>, now: int)
    requires At(c, h, RunStored(flow, timeout)) && Timed(c, false)
    ensures var e := RunLive(c, h, Returned, room, registered, now);
            && e.cell.record == c.record && e.slots == 0
            && e.cell.next > 0 && At(e.cell, e.cell.next - 1, HandlerPending(flow, Initial))
            && Timed(e.cell, timeout.GetOr(flow.timeout) > 0)
  {
  }

  /** A triggered execution that finds a free slot takes it, and its handler is called, with the timeout of the
      trigger, or else of the flow, set if it is positive. With no slot free it stays queued. */
  lemma TriggerCallsHandler(s: State, id: Id, h: Handle, flow: Flow)
    requires Inv(s) && id in s.cells && h in s.cells[id].live && s.cells[id].live[h] == TriggerStored(flow)
    requires s.cells[id].record.state == Queued
    ensures var c, s1 := s.cells[id], Next(s, id, h, Returned);
            && id in s1.cells
            && (if s.active < s.concurrency then
                  var s2 := Next(s1, id, c.next, Returned);
                  && Moved(c.record, Running, s.clock, s1.cells[id].record)
                  && s1.active == s.active + 1 && s2.active == s1.active
                  && id in s2.cells && s2.cells[id].record == s1.cells[id].record && s2.cells[id].next > 0
                  && At(s2.cells[id], s2.cells[id].next - 1, HandlerPending(flow, Initial))
                  && Timed(s2.cells[id], c.options.timeout.GetOr(flow.timeout) > 0)
                else s1.cells[id].record == c.record && s1.active == s.active)
  {
    hide RunLive, Next, Registered, Moved, Timed, Inv, At, Start, RunLanguage, Chained, RetriesBounded, CellOk;
    CellSound(s, id);
    var c := s.cells[id];
    var s1 := OneTask(s, id, h, Returned);
    TaskOff(c, h);
    RunTrigger(c, h, flow, s.active < s.concurrency, Registered(s, c.record.flowName), s.clock);
    QueuedStarts(c.(live := c.live - {h}), flow, c.options.timeout, s.active < s.concurrency, s.clock);
    if s.active < s.concurrency {
      AtLive(s1.cells[id], c.next, RunStored(flow, c.options.timeout));
      var s2 := OneTask(s1, id, c.next, Returned);
      StartCalls(s1.cells[id], c.next, flow, c.options.timeout, s1.active < s1.concurrency,
                 Registered(s1, s1.cells[id].record.flowName), s1.clock);
    }
  }

  lemma AtLive(c: Cell, h: Handle, task: Task)
    requires At(c, h, task)
    ensures h in c.live && c.live[h] == task
  {
  }

  lemma TaskOff(c: Cell, h: Handle)
    requires CellOk(c) && h in c.live && !Drives(c.live[h])
    ensures CellOk(c.(live := c.live - {h}))
  {
    Begin(c, h);
    PassiveOk(c.(live := c.live - {h}), c.live[h]);
    hide CellOk, InFlight;
  }

  lemma RunTrigger(c: Cell, h: Handle, flow: Flow, room: bool, registered: Option<Flow>, now: int)
    requires h in c.live && c.live[h] == TriggerStored(flow)
    ensures RunLive(c, h, Returned, room, registered, now)
         == Start(c.(live := c.live - {h}), flow, c.options.timeout, room, now)
  {
  }

  // ---- A result ----

  lemma ReturnGuards(c: Cell, h: Handle, flow: Flow, kind: Kind, room: bool, registered: Option<Flow>, now: int)
    requires At(c, h, HandlerPending(flow, kind)) && c.record.state == Running && kind != Retry
    ensures var e := RunLive(c, h, Returned, room, registered, now);
            At(e.cell, h + 1, OutputGuard(flow, kind)) && e.cell.record == c.record && e.slots == 0
            && e.cell.completions == c.completions
  {
  }

  lemma ResultStored(c: Cell, h: Handle, room: bool, registered: Option<Flow>, now: int)
    requires CellOk(c) && Handling(c, h) && h + 1 == c.next
    requires c.live[h].HandlerPending? ==> c.live[h].kind == Retry
    ensures var e := RunLive(c, h, Returned, room, registered, now);
            && Moved(c.record, Complete, now, e.cell.record) && e.cell.record.completedAt == Some(now)
            && e.slots == 0 && e.cell.completions == 0
            && At(e.cell, h + 1, CompleteStored(c.live[h].kind)) && Timed(e.cell, false)
  {
    hide HasWaited;
  }

  lemma CompletionSent(c: Cell, h: Handle, kind: Kind, room: bool, registered: Option<Flow>, now: int)
    requires At(c, h, CompleteStored(kind))
    ensures var e := RunLive(c, h, Returned, room, registered, now);
            && e.cell.record == c.record && e.cell.completions == c.completions + 1 && e.slots == -1
            && e.cell.handler.None? && e.cell.remaining.None?
  {
  }

  /** A handler that returns completes its execution: its output is checked, unless this was a retry, the
      result is stored, one event is sent and the slot is free. */
  lemma ReturnCompletes(s: State, id: Id, h: Handle, flow: Flow, kind: Kind)
    returns (checked: State, stored: State, s': State)
    requires id in s.cells && Sound(s.cells[id]) && At(s.cells[id], h, HandlerPending(flow, kind))
    requires s.cells[id].record.state == Running
    ensures id in s'.cells && Moved(s.cells[id].record, Complete, s.clock, s'.cells[id].record)
    ensures s'.cells[id].completions == 1 && s'.active == s.active - 1
    ensures s'.cells[id].handler.None? && s'.cells[id].remaining.None?
    ensures id in stored.cells && stored.cells[id].completions == 0 && stored.active == s.active
    ensures checked == if kind == Retry then s else Next(s, id, h, Returned)
    ensures var g := if kind == Retry then h else h + 1;
            stored == Next(checked, id, g, Returned) && s' == Next(stored, id, g + 1, Returned)
  {
    hide RunLive, Next, Registered, Moved, At, Sound, CellOk, Timed;
    checked := s;
    var g := h;
    if kind != Retry {
      AtLive(s.cells[id], h, HandlerPending(flow, kind));
      checked := OneTask(s, id, h, Returned);
      ReturnGuards(s.cells[id], h, flow, kind, s.active < s.concurrency, Registered(s, s.cells[id].record.flowName),
                   s.clock);
      SoundSegment(s.cells[id], h, Returned, s.active < s.concurrency, Registered(s, s.cells[id].record.flowName),
                   s.clock);
      g := h + 1;
    }
    var task := if kind == Retry then HandlerPending(flow, kind) else OutputGuard(flow, kind);
    AtLive(checked.cells[id], g, task);
    AtNext(checked.cells[id], g, task);
    SoundCell(checked.cells[id]);
    stored := OneTask(checked, id, g, Returned);
    ResultStored(checked.cells[id], g, checked.active < checked.concurrency,
                 Registered(checked, checked.cells[id].record.flowName), checked.clock);
    AtLive(stored.cells[id], g + 1, CompleteStored(kind));
    s' := OneTask(stored, id, g + 1, Returned);
    CompletionSent(stored.cells[id], g + 1, kind, stored.active < stored.concurrency,
                   Registered(stored, stored.cells[id].record.flowName), stored.clock);
  }

  lemma SoundCell(c: Cell)
    requires Sound(c)
    ensures CellOk(c)
  {
  }

  lemma NextApply(s: State, id: Id, h: Handle, outcome: Outcome)
    ensures Next(s, id, h, outcome) == Apply(s, Run(id, h, outcome))
  {
    hide Apply;
  }

  lemma AtNext(c: Cell, h: Handle, task: Task)
    requires At(c, h, task)
    ensures h + 1 == c.next
  {
  }

  // ---- Waiting and coming back ----

  /** What is left of the execution timeout: the whole of it counts from the trigger. */
  function Left(c: Cell, flow: Flow, now: int): Option<int> {
    if c.timeoutTimer.Some? && c.options.timeout.GetOr(flow.timeout) > 0
    then Some(c.record.queuedAt + c.options.timeout.GetOr(flow.timeout) - now)
    else c.remaining
  }

  lemma WaitParks(c: Cell, h: Handle, flow: Flow, kind: Kind, room: bool, registered: Option<Flow>, now: int)
    requires CellOk(c) && At(c, h, HandlerPending(flow, kind)) && c.record.state == Running
    ensures var e := RunLive(c, h, WaitSignal, room, registered, now);
            && Moved(c.record, Waiting, now, e.cell.record) && e.slots == 0
            && e.cell.remaining == Left(c, flow, now) && e.cell.handler == Some(flow)
            && e.cell.options == c.options && e.cell.next == h + 2 && Timed(e.cell, false)
            && h + 1 in e.cell.live && e.cell.live[h + 1] == WaitStored(flow, kind)
            && forall k :: k in e.cell.live ==> k < e.cell.next && !Drives(e.cell.live[k])
  {
    hide HasWaited, Sent;
  }

  /** The wait timeout is set, or not. */
  predicate WaitTimed(c: Cell, on: bool) {
    if on then c.waitTimer.Some? && c.waitTimer.value in c.live && c.live[c.waitTimer.value].WaitTimer?
    else true
  }

  lemma WaitFrees(c: Cell, h: Handle, flow: Flow, kind: Kind, room: bool, registered: Option<Flow>, now: int)
    requires h in c.live && c.live[h] == WaitStored(flow, kind) && h + 1 == c.next && Timed(c, false)
    requires forall k :: k in c.live ==> k < c.next && !Drives(c.live[k])
    ensures var e := RunLive(c, h, Returned, room, registered, now);
            var on := c.options.waitTimeout.GetOr(flow.waitTimeout) > 0;
            && e.cell.record == c.record && e.slots == -1 && e.cell.remaining == c.remaining
            && e.cell.handler == c.handler && WaitTimed(e.cell, on) && Timed(e.cell, false)
            && (!on ==> e.cell.waitTimer == c.waitTimer)
            && forall k :: k in e.cell.live ==> k < e.cell.next && !Drives(e.cell.live[k])
  {
  }

  lemma ResumeGoesOn(c: Cell, now: int)
    requires c.record.state == Waiting && Timed(c, false) && TimersKnown(c)
    requires forall k :: k in c.live ==> k < c.next && !Drives(c.live[k])
    ensures var c' := Resume(c, now);
            && Moved(c.record, Running, now, c'.record) && At(c', c.next, ResumeStored)
            && c'.remaining == c.remaining && c'.handler == c.handler && Timed(c', false)
            && (c.waitTimer.Some? ==> c.waitTimer.value !in c'.live) && c'.waitTimer.None?
  {
  }

  lemma ResumeCalls(c: Cell, h: Handle, room: bool, registered: Option<Flow>, now: int)
    requires At(c, h, ResumeStored) && c.record.state == Running && c.handler.Some? && Timed(c, false)
    ensures var e := RunLive(c, h, Returned, room, registered, now);
            if c.remaining.None? || c.remaining.value > 0 then
              && e.cell.record == c.record && e.slots == 1 && e.cell.remaining.None?
              && e.cell.next > 0 && At(e.cell, e.cell.next - 1, HandlerPending(c.handler.value, Resumed))
              && Timed(e.cell, c.remaining.Some?)
            else
              && Moved(c.record, Failed, now, e.cell.record) && e.slots == 0
              && e.cell.completions == c.completions + 1
  {
  }

  /** What waits, or is about to be stored as waiting: no one carries it forward and its timeout is off. */
  ghost predicate Parked(c: Cell) {
    c.record.state == Waiting && Timed(c, false) && forall k :: k in c.live ==> k < c.next && !Drives(c.live[k])
  }

  /** A handler that waits frees its slot once that is stored. The time left is kept for the resume, and the
      wait timeout of the trigger, or else of the flow, is set if it is positive. */
  lemma WaitFreesSlot(s: State, id: Id, h: Handle, flow: Flow, kind: Kind)
    requires Inv(s) && id in s.cells && At(s.cells[id], h, HandlerPending(flow, kind))
    requires s.cells[id].record.state == Running
    ensures var c, s1 := s.cells[id], Next(s, id, h, WaitSignal);
            var s2 := Next(s1, id, h + 1, Returned);
            && id in s1.cells && id in s2.cells && Moved(c.record, Waiting, s.clock, s1.cells[id].record)
            && s2.cells[id].record == s1.cells[id].record && s1.active == s.active && s2.active == s.active - 1
            && s2.cells[id].remaining == Left(c, flow, s.clock) && s2.cells[id].handler == Some(flow)
            && Parked(s2.cells[id])
            && WaitTimed(s2.cells[id], c.options.waitTimeout.GetOr(flow.waitTimeout) > 0)
  {
    hide RunLive, Next, Registered, Moved, Inv, At, RunLanguage, Chained, RetriesBounded, Timed, Left, CellOk;
    hide WaitTimed;
    var c := s.cells[id];
    CellSound(s, id);
    AtLive(c, h, HandlerPending(flow, kind));
    var s1 := OneTask(s, id, h, WaitSignal);
    WaitParks(c, h, flow, kind, s.active < s.concurrency, Registered(s, c.record.flowName), s.clock);
    AtNext(c, h, HandlerPending(flow, kind));
    MovedTo(c.record, Waiting, s.clock, s1.cells[id].record);
    var s2 := OneTask(s1, id, h + 1, Returned);
    WaitFrees(s1.cells[id], h + 1, flow, kind, s1.active < s1.concurrency,
              Registered(s1, s1.cells[id].record.flowName), s1.clock);
  }

  lemma MovedTo(r: Record, to: ExecutionState, now: int, r': Record)
    requires Moved(r, to, now, r')
    ensures r'.state == to
  {
  }

  lemma ResumeIs(s: State, id: Id)
    requires id in s.cells
    ensures var s' := Apply(s, ResumeCall(id));
            && s'.cells == s.cells[id := Resume(s.cells[id], s.clock)] && s'.active == s.active
            && s'.clock == s.clock && s'.concurrency == s.concurrency && s'.flows == s.flows
  {
    hide Resume;
  }

  lemma Reawakened(s: State, id: Id)
    requires Inv(s) && id in s.cells && Parked(s.cells[id])
    ensures var c, s1 := s.cells[id], Apply(s, ResumeCall(id));
            && id in s1.cells && Moved(c.record, Running, s.clock, s1.cells[id].record)
            && At(s1.cells[id], c.next, ResumeStored) && Timed(s1.cells[id], false)
            && s1.cells[id].remaining == c.remaining && s1.cells[id].handler == c.handler
            && s1.active == s.active && s1.clock == s.clock
  {
    hide Inv, Moved, At, Timed, Resume, Apply, RunLanguage, Chained, RetriesBounded;
    CellSound(s, id);
    ResumeIs(s, id);
    ResumeGoesOn(s.cells[id], s.clock);
  }

  /** A resume of a waiting execution calls its handler again, on a slot of its own, with the time that was left
      as its timeout if it has one; if no time is left it fails and takes no slot. */
  lemma ResumeCallsHandler(s: State, id: Id)
    requires Inv(s) && id in s.cells && Parked(s.cells[id]) && s.cells[id].handler.Some?
    ensures var c, s1 := s.cells[id], Apply(s, ResumeCall(id));
            var s2 := Next(s1, id, c.next, Returned);
            && id in s1.cells && id in s2.cells && Moved(c.record, Running, s.clock, s1.cells[id].record)
            && s1.active == s.active
            && (if c.remaining.None? || c.remaining.value > 0 then
                  && s2.cells[id].record == s1.cells[id].record && s2.active == s.active + 1
                  && s2.cells[id].next > 0
                  && At(s2.cells[id], s2.cells[id].next - 1, HandlerPending(c.handler.value, Resumed))
                  && Timed(s2.cells[id], c.remaining.Some?)
                else Moved(s1.cells[id].record, Failed, s.clock, s2.cells[id].record) && s2.active == s.active
                     && s2.cells[id].completions == s1.cells[id].completions + 1)
  {
    hide RunLive, Next, Registered, Moved, Inv, At, Timed, Resume, Apply, Parked;
    var c, s1 := s.cells[id], Apply(s, ResumeCall(id));
    Reawakened(s, id);
    AtLive(s1.cells[id], c.next, ResumeStored);
    MovedTo(c.record, Running, s.clock, s1.cells[id].record);
    var s2 := OneTask(s1, id, c.next, Returned);
    ResumeCalls(s1.cells[id], c.next, s1.active < s1.concurrency, Registered(s1, s1.cells[id].record.flowName),
                s1.clock);
  }

  /** A resume that finds neither a kept flow nor a registered one fails its execution, if it still lives. It takes
      no slot and does not look at the queue. */
  lemma ResumeFindsNothing(s: State, id: Id, h: Handle)
    requires id in s.cells && At(s.cells[id], h, ResumeStored)
    requires s.cells[id].handler.None? && s.cells[id].record.flowName !in s.flows
    ensures var c, s' := s.cells[id], Next(s, id, h, Returned);
            && id in s'.cells && s'.active == s.active && s'.loop == s.loop && s'.order == s.order
            && (if Terminal(c.record.state) then s'.cells[id].record == c.record
                else Moved(c.record, Failed, s.clock, s'.cells[id].record)
                     && s'.cells[id].completions == c.completions + 1)
            && forall k :: k in s'.cells[id].live ==> k in c.live && k != h
  {
    hide QueuedIds, Oldest, HasWaited;
  }

  /** A retry timer that fires after its execution has ended does nothing. */
  lemma LateRetryTimer(s: State, id: Id, h: Handle, flow: Flow)
    requires id in s.cells && At(s.cells[id], h, RetryTimer(flow)) && s.cells[id].record.state != Retrying
    ensures var c, s' := s.cells[id], Next(s, id, h, Returned);
            s' == s.(cells := s.cells[id := c.(live := c.live - {h}, retryTimer := None)])
  {
    hide QueuedIds, Oldest, HasWaited;
  }

  // ---- Timeouts ----

  lemma TimeoutFails(c: Cell, h: Handle, room: bool, registered: Option<Flow>, now: int)
    requires CellOk(c) && h in c.live && c.live[h].TimeoutTimer? && !Terminal(c.record.state)
    ensures var e := RunLive(c, h, Returned, room, registered, now);
            && Moved(c.record, Failed, now, e.cell.record) && e.cell.completions == 1 && e.slots == -1
            && forall k :: k in e.cell.live ==> !e.cell.live[k].TimeoutTimer?
  {
    hide HasWaited;
  }

  /** An execution timeout that fires while its execution lives fails it and frees its slot. */
  lemma TimeoutEnds(s: State, id: Id, h: Handle)
    requires Inv(s) && id in s.cells && h in s.cells[id].live && s.cells[id].live[h].TimeoutTimer?
    requires !Terminal(s.cells[id].record.state)
    ensures var s' := Next(s, id, h, Returned);
            && id in s'.cells && Moved(s.cells[id].record, Failed, s.clock, s'.cells[id].record)
            && s'.cells[id].completions == 1 && s'.active == s.active - 1
  {
    hide RunLive, Next, Registered, Moved, Inv, RunLanguage, Chained, RetriesBounded, CellOk;
    CellSound(s, id);
    var s' := OneTask(s, id, h, Returned);
    TimeoutFails(s.cells[id], h, s.active < s.concurrency, Registered(s, s.cells[id].record.flowName), s.clock);
  }

  lemma WaitTimeoutFails(c: Cell, h: Handle, room: bool, registered: Option<Flow>, now: int)
    requires CellOk(c) && h in c.live && c.live[h].WaitTimer?
    ensures var e := RunLive(c, h, Returned, room, registered, now);
            e.slots == 0 && (if c.record.state == Waiting then
                               Moved(c.record, Failed, now, e.cell.record) && e.cell.completions == 1
                             else e.cell == c.(live := c.live - {h}))
  {
    hide HasWaited;
  }

  /** A wait timeout that fires fails an execution that waits, which holds no slot, and no other. */
  lemma WaitTimeoutEnds(s: State, id: Id, h: Handle)
    requires Inv(s) && id in s.cells && h in s.cells[id].live && s.cells[id].live[h].WaitTimer?
    ensures var s' := Next(s, id, h, Returned);
            && id in s'.cells && s'.active == s.active
            && (if s.cells[id].record.state == Waiting then
                  Moved(s.cells[id].record, Failed, s.clock, s'.cells[id].record) && s'.cells[id].completions == 1
                else s'.cells[id].record == s.cells[id].record)
  {
    hide RunLive, Next, Registered, Moved, Inv, RunLanguage, Chained, RetriesBounded, CellOk;
    CellSound(s, id);
    var s' := OneTask(s, id, h, Returned);
    WaitTimeoutFails(s.cells[id], h, s.active < s.concurrency, Registered(s, s.cells[id].record.flowName), s.clock);
  }

  // ---- Calls ----

  lemma CancelFails(c: Cell, now: int)
    requires CellOk(c)
    ensures var c' := Cancel(c, now);
            if Terminal(c.record.state) then c' == c
            else
              && Moved(c.record, Failed, now, c'.record) && c'.completions == 1
              && c'.retryTimer.None? && c'.timeoutTimer.None? && c'.waitTimer.None?
              && c'.handler.None? && c'.remaining.None?
              && (forall h :: h in c'.live ==> !c'.live[h].TimeoutTimer?)
              && (c.waitTimer.Some? ==> c.waitTimer.value !in c'.live)
              && (c.retryTimer.Some? ==> c.retryTimer.value !in c'.live)
  {
    hide HasWaited;
  }

  /** A cancel fails an execution that lives, sends its event and clears its timers; it leaves a terminal one
      alone, and the count of slots. */
  lemma CancelEnds(s: State, id: Id)
    requires Inv(s) && id in s.cells
    ensures var c, s' := s.cells[id], Apply(s, CancelCall(id));
            && id in s'.cells && s'.active == s.active
            && (if Terminal(c.record.state) then s'.cells[id] == c
                else Moved(c.record, Failed, s.clock, s'.cells[id].record) && s'.cells[id].completions == 1
                     && forall h :: h in s'.cells[id].live ==> !s'.cells[id].live[h].TimeoutTimer?)
  {
    hide Inv, Cancel, Moved, RunLanguage, Chained, RetriesBounded, CellOk, Apply;
    CellSound(s, id);
    CancelIs(s, id);
    CancelFails(s.cells[id], s.clock);
  }

  lemma CancelIs(s: State, id: Id)
    requires id in s.cells
    ensures var s' := Apply(s, CancelCall(id));
            s'.cells == s.cells[id := Cancel(s.cells[id], s.clock)] && s'.active == s.active
  {
    hide Cancel;
  }

  /** A trigger goes on to its policy check if and only if its key has a character that is not white space, no
      stored execution has that key, and its flow is registered. */
  lemma TriggerPasses(s: State, flowName: string, key: string, options: Options)
    ensures var s' := Apply(s, TriggerCall(flowName, key, options));
            if (exists i :: 0 <= i < |key| && key[i] != ' ' && key[i] != '\t' && key[i] != '\n' && key[i] != '\r')
               && key !in s.index && flowName in s.flows
            then s' == s.(loop := s.loop[s.loopNext := TriggerChecked(s.flows[flowName], key, options)],
                          loopNext := s.loopNext + 1)
            else s' == s
  {
    if i :| 0 <= i < |key| && key[i] != ' ' && key[i] != '\t' && key[i] != '\n' && key[i] != '\r' {
      assert key[i] in key;
    } else {
      forall c | c in key ensures c in " \t\n\r" {
        var i :| 0 <= i < |key| && key[i] == c;
        assert " \t\n\r"[0] == ' ' && " \t\n\r"[1] == '\t' && " \t\n\r"[2] == '\n' && " \t\n\r"[3] == '\r';
      }
    }
  }

  /** A trigger whose policy check passes stores one queued execution under its key and its new id, to be
      dispatched; one that fails stores nothing. */
  lemma TriggerStores(s: State, h: Handle, passed: bool, id: Id)
    requires h in s.loop && s.loop[h].TriggerChecked? && id !in s.cells
    ensures var s', t := Apply(s, RunLoop(h, passed, id)), s.loop[h];
            if passed then
              && s'.cells.Keys == s.cells.Keys + {id} && s'.order == s.order + [id] && s'.index == s.index[t.key := id]
              && (forall other :: other in s.cells ==> s'.cells[other] == s.cells[other])
              && var c := s'.cells[id];
                 && c.record.state == Queued && c.record.queuedAt == s.clock && c.record.retryCount == 0
                 && c.record.flowName == t.flow.name && c.record.idempotencyKey == t.key && c.options == t.options
                 && c.live == map[0 := TriggerStored(t.flow)] && c.completions == 0
            else s' == s.(loop := s.loop - {h})
  {
  }

  // ---- The registry and the queue ----

  /** The flow of a name: the first registered since the name was last unregistered. */
  function Known(steps: seq<Step>, name: string): Option<Flow> {
    if steps == [] then None
    else
      var before := Known(steps[..|steps| - 1], name);
      match steps[|steps| - 1].event
      case Register(flow) => if flow.name == name && before.None? then Some(flow) else before
      case Unregister(gone) => if gone == name then None else before
      case _ => before
  }

  lemma FlowsStay(s: State, e: Event)
    requires !e.Register? && !e.Unregister?
    ensures Apply(s, e).flows == s.flows
  {
    hide RunLive, Cancel, Resume, QueuedIds, Oldest, Blank, Start;
  }

  /** On every run the registry has exactly those, and nothing else that happens changes it. */
  lemma {:induction false} RegistryHas(concurrency: int, steps: seq<Step>, name: string)
    ensures Registered(After(concurrency, steps), name) == Known(steps, name)
  {
    if steps != [] {
      var n := |steps| - 1;
      RegistryHas(concurrency, steps[..n], name);
      AdvanceFlows(After(concurrency, steps[..n]), steps[n], name);
      hide Advance, Registered;
    }
  }

  lemma AdvanceFlows(s: State, step: Step, name: string)
    ensures var known, known' := Registered(s, name), Registered(Advance(s, step), name);
            match step.event
            case Register(flow) => known' == if flow.name == name && known.None? then Some(flow) else known
            case Unregister(gone) => known' == if gone == name then None else known
            case _ => known' == known
  {
    hide Apply;
    FlowsChange(s.(clock := s.clock + step.elapsed), step.event, name);
  }

  lemma FlowsChange(s: State, e: Event, name: string)
    ensures var known, known' := Registered(s, name), Registered(Apply(s, e), name);
            match e
            case Register(flow) => known' == if flow.name == name && known.None? then Some(flow) else known
            case Unregister(gone) => known' == if gone == name then None else known
            case _ => known' == known
  {
    if !e.Register? && !e.Unregister? {
      FlowsStay(s, e);
      hide Apply;
    }
  }

  /** A queued execution that the queue remembered starts if its flow is registered and a slot is free. Its flow is
      the one registered now, and the timeout that of the flow, whatever the trigger asked for. */
  lemma SnapshotCallsHandler(s: State, h: Handle, id: Id)
    requires Inv(s) && h in s.loop && s.loop[h] == DispatchSnapshot(id)
    requires id in s.cells && s.cells[id].record.state == Queued
    ensures var c, s1 := s.cells[id], Apply(s, RunLoop(h, true, id));
            var flow := Registered(s, c.record.flowName);
            && id in s1.cells
            && (if flow.Some? && s.active < s.concurrency then
                  var s2 := Next(s1, id, c.next, Returned);
                  && Moved(c.record, Running, s.clock, s1.cells[id].record)
                  && s1.active == s.active + 1 && s2.active == s1.active
                  && id in s2.cells && s2.cells[id].record == s1.cells[id].record && s2.cells[id].next > 0
                  && At(s2.cells[id], s2.cells[id].next - 1, HandlerPending(flow.value, Initial))
                  && Timed(s2.cells[id], flow.value.timeout > 0)
                else s1.cells[id] == c && s1.active == s.active)
  {
    hide RunLive, Next, Moved, Timed, Inv, At, Start, RunLanguage, Chained, RetriesBounded, CellOk, Registered, Apply;
    CellSound(s, id);
    var c, s1 := s.cells[id], Apply(s, RunLoop(h, true, id));
    var flow := Registered(s, c.record.flowName);
    SnapshotStarts(s, h, id);
    if flow.Some? {
      QueuedStarts(c, flow.value, None, s.active < s.concurrency, s.clock);
      if s.active < s.concurrency {
        AtLive(s1.cells[id], c.next, RunStored(flow.value, None));
        var s2 := OneTask(s1, id, c.next, Returned);
        StartCalls(s1.cells[id], c.next, flow.value, None, s1.active < s1.concurrency,
                   Registered(s1, s1.cells[id].record.flowName), s1.clock);
      }
    }
  }

  lemma SnapshotStarts(s: State, h: Handle, id: Id)
    requires h in s.loop && s.loop[h] == DispatchSnapshot(id) && id in s.cells
    ensures var c, s1 := s.cells[id], Apply(s, RunLoop(h, true, id));
            var flow := Registered(s, c.record.flowName);
            if flow.Some? then
              var e := Start(c, flow.value, None, s.active < s.concurrency, s.clock);
              s1.cells == s.cells[id := e.cell] && s1.active == s.active + e.slots
            else s1.cells == s.cells && s1.active == s.active
  {
    hide QueuedIds, Oldest;
  }
}
