/** What one segment may do to the log: at most one move of the table, and a retry only before any wait. */
module EngineLogs {
  import opened Wrappers
  import opened Executions
  import opened EngineSteps
  import opened EngineCells

  ghost predicate RecordStep(r: Record, r': Record, now: int) {
    || r' == r
    || (Allowed(r.state, r'.state)
        && if r'.state == Retrying
           then !HasWaited(r) && r' == Transitioned(r, Retrying, now).(retryCount := r.retryCount + 1)
           else r' == Transitioned(r, r'.state, now))
  }

  lemma HandlerStep(c: Cell, flow: Flow, kind: Kind, outcome: Outcome, now: int)
    requires InFlight(c, HandlerPending(flow, kind))
    ensures RecordStep(c.record, RunHandler(c, flow, kind, outcome, now).cell.record, now)
  {
    hide TimersKnown, DriverFits, Driven, TimeoutFits, Sent;
  }

  lemma OutputGuardStep(c: Cell, flow: Flow, kind: Kind, outcome: Outcome, now: int)
    requires InFlight(c, OutputGuard(flow, kind))
    ensures RecordStep(c.record, RunOutputGuard(c, flow, kind, outcome, now).cell.record, now)
  {
    hide TimersKnown, DriverFits, Driven, TimeoutFits, Sent;
  }

  lemma RunTaskStep(c: Cell, task: Task, outcome: Outcome, room: bool, registered: Option<Flow>, now: int)
    requires InFlight(c, task)
    ensures RecordStep(c.record, RunTask(c, task, outcome, room, registered, now).cell.record, now)
  {
    hide InFlight, RunHandler, RunOutputGuard, HasWaited;
    if task.HandlerPending? {
      HandlerStep(c, task.flow, task.kind, outcome, now);
    } else if task.OutputGuard? {
      OutputGuardStep(c, task.flow, task.kind, outcome, now);
    }
  }

  lemma StartStep(c: Cell, flow: Flow, timeout: Option<int>, room: bool, now: int)
    ensures RecordStep(c.record, Start(c, flow, timeout, room, now).cell.record, now)
  {
  }

  lemma CallsStep(c: Cell, now: int)
    ensures RecordStep(c.record, Cancel(c, now).record, now)
    ensures RecordStep(c.record, Resume(c, now).record, now)
  {
    hide HasWaited;
  }

  lemma StepLogged(r: Record, r': Record, now: int)
    requires RunLanguage(r) && Chained(r) && RecordStep(r, r', now)
    ensures RunLanguage(r') && Chained(r')
  {
    if r' != r {
      hide RunLanguage, HasWaited;
      KeepsLanguage(r, r'.state, now);
      KeepsChain(r, r'.state, now);
    }
  }

  // ---- Retries are bounded by the flow the first run captured ----

  /** Tasks of the part of a run in which an error may still be retried. */
  predicate MayRetry(t: Task) {
    || t.RunStored? || t.RetryStored? || t.RetryTimer? || t.RetryRunStored?
    || ((t.HandlerPending? || t.OutputGuard?) && t.kind != Resumed)
  }

  ghost predicate RetriesBounded(c: Cell) {
    && (forall h :: h in c.live && MayRetry(c.live[h]) ==> c.started == Some(c.live[h].flow))
    && (c.record.retryCount > 0 ==> c.started.Some? && c.record.retryCount <= c.started.value.maxRetries)
    && (c.record.state == Queued ==> c.record.retryCount == 0)
  }

  lemma StartBounded(c: Cell, flow: Flow, timeout: Option<int>, room: bool, now: int)
    requires RetriesBounded(c) && CellOk(c)
    ensures RetriesBounded(Start(c, flow, timeout, room, now).cell)
  {
    hide HasWaited, TimeoutFits;
  }

  lemma CompletingBounded(c: Cell, kind: Kind, now: int)
    requires RetriesBounded(c)
    ensures RetriesBounded(Completing(c, kind, now))
  {
  }

  lemma OnErrorBounded(c: Cell, flow: Flow, kind: Kind, retryable: bool, now: int)
    requires RetriesBounded(c) && (kind != Resumed ==> c.started == Some(flow))
    ensures RetriesBounded(OnError(c, flow, kind, retryable, now).cell)
  {
  }

  lemma EnterWaitingBounded(c: Cell, flow: Flow, kind: Kind, now: int)
    requires RetriesBounded(c)
    ensures RetriesBounded(EnterWaiting(c, flow, kind, now))
  {
  }

  lemma GuardBounded(c: Cell, flow: Flow, kind: Kind)
    requires RetriesBounded(c) && (kind != Resumed ==> c.started == Some(flow))
    ensures RetriesBounded(Drive(c, OutputGuard(flow, kind)))
  {
  }

  lemma HandlerBounded(c: Cell, flow: Flow, kind: Kind, outcome: Outcome, now: int)
    requires RetriesBounded(c) && (kind != Resumed ==> c.started == Some(flow))
    ensures RetriesBounded(RunHandler(c, flow, kind, outcome, now).cell)
    ensures RetriesBounded(RunOutputGuard(c, flow, kind, outcome, now).cell)
  {
    hide Completing, OnError, EnterWaiting, Drive, RetriesBounded;
    CompletingBounded(c, kind, now);
    OnErrorBounded(c, flow, kind, outcome == ThrewRetryable, now);
    EnterWaitingBounded(c, flow, kind, now);
    GuardBounded(c, flow, kind);
  }

  lemma TimersBounded(c: Cell, now: int)
    requires RetriesBounded(c)
    ensures RetriesBounded(RunTimeoutTimer(c, now).cell) && RetriesBounded(RunWaitTimer(c, now))
    ensures RetriesBounded(RunCompleteStored(c).cell)
  {
  }

  lemma ResumeBounded(c: Cell, registered: Option<Flow>, now: int)
    requires RetriesBounded(c)
    ensures RetriesBounded(RunResumeStored(c, registered, now).cell)
  {
  }

  lemma RunTaskBounded(c: Cell, task: Task, outcome: Outcome, room: bool, registered: Option<Flow>, now: int)
    requires RetriesBounded(c) && (MayRetry(task) ==> c.started == Some(task.flow))
    requires task.TriggerStored? ==> CellOk(c)
    ensures RetriesBounded(RunTask(c, task, outcome, room, registered, now).cell)
  {
    hide RunHandler, RunOutputGuard, CellOk, Start, RunTimeoutTimer, RunWaitTimer, RunCompleteStored, RunResumeStored;
    TimersBounded(c, now);
    ResumeBounded(c, registered, now);
    if task.TriggerStored? {
      StartBounded(c, task.flow, c.options.timeout, room, now);
    } else if task.HandlerPending? || task.OutputGuard? {
      HandlerBounded(c, task.flow, task.kind, outcome, now);
    }
  }

  lemma CallsBounded(c: Cell, now: int)
    requires RetriesBounded(c)
    ensures RetriesBounded(Cancel(c, now)) && RetriesBounded(Resume(c, now))
  {
  }
}
