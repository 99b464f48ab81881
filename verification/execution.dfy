/** One invocation of a flow: its state, its transition table and its transition log. */
module Executions {
  import opened Wrappers

  datatype ExecutionState = Queued | Running | Waiting | Retrying | Complete | Failed

  datatype Transition = Transition(from: ExecutionState, to: ExecutionState, at: int)

  /** The value of an execution object at one moment. Result, error text and user data are not modelled. */
  datatype Record = Record(
    flowName: string,
    idempotencyKey: string,
    state: ExecutionState,
    retryCount: nat,
    queuedAt: int,
    startedAt: Option<int>,
    completedAt: Option<int>,
    transitions: seq<Transition>)

  predicate Terminal(state: ExecutionState) {
    state == Complete || state == Failed
  }

  /** The transition table. */
  predicate Allowed(from: ExecutionState, to: ExecutionState) {
    match from
    case Queued => to == Running || to == Failed
    case Running => to == Complete || to == Waiting || to == Retrying || to == Failed
    case Waiting => to == Running || to == Failed
    case Retrying => to == Running || to == Failed
    case Complete => false
    case Failed => false
  }

  function NewRecord(flowName: string, idempotencyKey: string, now: int): Record {
    Record(flowName, idempotencyKey, Queued, 0, now, None, None, [])
  }

  function Transitioned(r: Record, to: ExecutionState, now: int): Record {
    r.(state := to,
       startedAt := if to == Running && r.startedAt.None? then Some(now) else r.startedAt,
       completedAt := if Terminal(to) then Some(now) else r.completedAt,
       transitions := r.transitions + [Transition(r.state, to, now)])
  }

  /** The states an execution has been in, in order. */
  function Path(transitions: seq<Transition>): (path: seq<ExecutionState>)
    ensures |path| == |transitions| + 1
  {
    if transitions == [] then [Queued]
    else Path(transitions[..|transitions| - 1]) + [transitions[|transitions| - 1].to]
  }

  /** The start is the time of the first entry, if that is into `Running`, and the end that of an entry into a
      terminal state. */
  predicate Stamped(r: Record) {
    var log := r.transitions;
    && r.startedAt == (if log != [] && log[0].to == Running then Some(log[0].at) else None)
    && r.completedAt == (if log != [] && (log[|log| - 1].to == Complete || log[|log| - 1].to == Failed)
                         then Some(log[|log| - 1].at) else None)
  }

  /** Consecutive log entries meet, the first leaves `Queued`, each step is in the table, and the times of start and
      end are those of the log. */
  predicate Chained(r: Record) {
    && Stamped(r)
    && (forall i :: 0 <= i < |r.transitions| ==> Allowed(r.transitions[i].from, r.transitions[i].to))
    && (forall i :: 0 <= i < |r.transitions| - 1 ==> r.transitions[i].to == r.transitions[i + 1].from)
    && (if r.transitions == [] then r.state == Queued
        else r.transitions[0].from == Queued && r.transitions[|r.transitions| - 1].to == r.state)
  }

  /** `(running retrying)` repeated. */
  function Retries(k: nat): seq<ExecutionState> {
    if k == 0 then [] else Retries(k - 1) + [Running, Retrying]
  }

  /** `(waiting running)` repeated. */
  function Waits(m: nat): seq<ExecutionState> {
    if m == 0 then [] else Waits(m - 1) + [Waiting, Running]
  }

  /** queued (running retrying)^k running (waiting running)^m */
  function Spine(k: nat, m: nat): seq<ExecutionState> {
    [Queued] + Retries(k) + [Running] + Waits(m)
  }

  /** The live paths: a spine cut at any point, ending in `state`. */
  ghost predicate LivePath(path: seq<ExecutionState>, k: nat, m: nat, state: ExecutionState) {
    if state == Queued then k == 0 && m == 0 && path == [Queued]
    else if state == Retrying then k > 0 && m == 0 && path == [Queued] + Retries(k)
    else if state == Running then path == Spine(k, m)
    else state == Waiting && path == Spine(k, m) + [Waiting]
  }

  /** A live path, or a live path followed by exactly one terminal state:
      `Failed` may follow any of them, `Complete` only one that is running. */
  ghost predicate RunPath(path: seq<ExecutionState>, k: nat, m: nat, state: ExecutionState) {
    if state == Complete then path == Spine(k, m) + [Complete]
    else if state == Failed then
      && |path| > 1
      && path[|path| - 1] == Failed
      && LivePath(path[..|path| - 1], k, m, path[|path| - 2])
    else LivePath(path, k, m, state)
  }

  ghost predicate RunLanguage(r: Record) {
    exists m: nat :: RunPath(Path(r.transitions), r.retryCount, m, r.state)
  }

  predicate HasWaited(r: Record) {
    exists i :: 0 <= i < |r.transitions| && r.transitions[i].to == Waiting
  }

  lemma {:induction false} RetriesHaveNoWait(k: nat)
    ensures Waiting !in Retries(k)
  {
    if k > 0 { RetriesHaveNoWait(k - 1); }
  }

  lemma {:induction false} PathElements(transitions: seq<Transition>, i: nat)
    requires i < |transitions|
    ensures Path(transitions)[i + 1] == transitions[i].to
  {
    if i < |transitions| - 1 { PathElements(transitions[..|transitions| - 1], i); }
  }

  /** A log waited exactly when its path contains `Waiting`. */
  lemma WaitedPath(r: Record)
    ensures HasWaited(r) <==> Waiting in Path(r.transitions)
  {
    var p := Path(r.transitions);
    forall i | 0 <= i < |r.transitions| ensures p[i + 1] == r.transitions[i].to {
      PathElements(r.transitions, i);
    }
    PathFirst(r.transitions);
    if Waiting in p {
      var j :| 0 <= j < |p| && p[j] == Waiting;
      assert r.transitions[j - 1].to == Waiting;
    }
  }

  lemma {:induction false} PathFirst(transitions: seq<Transition>)
    ensures Path(transitions)[0] == Queued
  {
    if transitions != [] { PathFirst(transitions[..|transitions| - 1]); }
  }

  lemma PathAppend(r: Record, to: ExecutionState, now: int)
    ensures Path(Transitioned(r, to, now).transitions) == Path(r.transitions) + [to]
  {
    var t := r.transitions + [Transition(r.state, to, now)];
    assert t[..|t| - 1] == r.transitions;
  }

  lemma {:induction false} SpineWaits(k: nat, m: nat)
    ensures Waiting in Spine(k, m) <==> m > 0
  {
    RetriesHaveNoWait(k);
    if m > 0 {
      assert Spine(k, m)[|Spine(k, m)| - 2] == Waiting;
    } else {
      assert Spine(k, m) == [Queued] + Retries(k) + [Running];
    }
  }

  /** Which moves keep the run language, and with which retry count. A move to `Retrying`
      needs a log that has never waited: this is where "no retry follows a wait" comes from. */
  lemma KeepsLanguage(r: Record, to: ExecutionState, now: int)
    requires RunLanguage(r)
    requires Allowed(r.state, to)
    requires to == Retrying ==> !HasWaited(r)
    ensures var r' := Transitioned(r, to, now);
            RunLanguage(if to == Retrying then r'.(retryCount := r.retryCount + 1) else r')
  {
    var k, p := r.retryCount, Path(r.transitions);
    var m: nat :| RunPath(p, k, m, r.state);
    PathAppend(r, to, now);
    var p' := Path(Transitioned(r, to, now).transitions);
    assert p'[..|p'| - 1] == p && p'[|p'| - 1] == to;
    if to == Retrying {
      WaitedPath(r);
      KeepsRetrying(p, p', k, m, r.state);
    } else if to == Running {
      KeepsRunning(p, p', k, m, r.state);
    } else {
      LiveEnd(p, k, m, r.state);
      assert RunPath(p', k, m, to);
    }
    hide RunPath, HasWaited;
  }

  lemma KeepsRetrying(p: seq<ExecutionState>, p': seq<ExecutionState>, k: nat, m: nat, from: ExecutionState)
    requires RunPath(p, k, m, from) && Allowed(from, Retrying) && Waiting !in p && p' == p + [Retrying]
    ensures RunPath(p', k + 1, 0, Retrying)
  {
    SpineWaits(k, m);
    assert p' == [Queued] + Retries(k + 1);
  }

  lemma KeepsRunning(p: seq<ExecutionState>, p': seq<ExecutionState>, k: nat, m: nat, from: ExecutionState)
    requires RunPath(p, k, m, from) && Allowed(from, Running) && p' == p + [Running]
    ensures RunPath(p', k, if from == Waiting then m + 1 else 0, Running)
  {
    assert p' == Spine(k, if from == Waiting then m + 1 else 0);
  }

  lemma LiveEnd(path: seq<ExecutionState>, k: nat, m: nat, state: ExecutionState)
    requires LivePath(path, k, m, state)
    ensures path != [] && path[|path| - 1] == state
  {
  }

  lemma KeepsChain(r: Record, to: ExecutionState, now: int)
    requires Chained(r) && Allowed(r.state, to)
    ensures Chained(Transitioned(r, to, now))
  {
    if r.transitions != [] {
      assert Allowed(r.transitions[0].from, r.transitions[0].to);
      if |r.transitions| > 1 { assert Allowed(r.transitions[1].from, r.transitions[1].to); }
    }
    KeepsStamps(r, to, now);
  }

  lemma KeepsStamps(r: Record, to: ExecutionState, now: int)
    requires Stamped(r) && Allowed(r.state, to)
    requires if r.transitions == [] then r.state == Queued
             else r.transitions[0].to == Running && r.state == r.transitions[|r.transitions| - 1].to
    ensures Stamped(Transitioned(r, to, now))
  {
  }

  /** A retrying log has never waited, so no retry follows a wait. */
  lemma RetryingNeverWaited(r: Record)
    requires RunLanguage(r) && r.state == Retrying
    ensures !HasWaited(r)
  {
    WaitedPath(r);
    RetriesHaveNoWait(r.retryCount);
  }

  lemma MoveWaited(r: Record, to: ExecutionState, now: int)
    ensures HasWaited(Transitioned(r, to, now)) <==> HasWaited(r) || to == Waiting
  {
    var t := r.transitions + [Transition(r.state, to, now)];
    assert t[|r.transitions|].to == to;
    assert forall i :: 0 <= i < |r.transitions| ==> t[i] == r.transitions[i];
  }

  /** Where a chained log says whether the execution has waited. */
  lemma StateWaited(r: Record)
    requires Chained(r)
    ensures r.state == Waiting ==> HasWaited(r)
    ensures r.state == Queued ==> !HasWaited(r) && r.transitions == []
  {
    if r.transitions != [] {
      assert Allowed(r.transitions[|r.transitions| - 1].from, r.transitions[|r.transitions| - 1].to);
    }
  }

  /** In a run-language log `Queued` is left once, at the start: an execution starts at most once. */
  lemma QueuedOnlyFirst(r: Record, i: nat)
    requires RunLanguage(r) && Chained(r) && i < |r.transitions|
    ensures r.transitions[i].from == Queued <==> i == 0
  {
    if i > 0 {
      assert r.transitions[i - 1].to == r.transitions[i].from;
      assert Allowed(r.transitions[i - 1].from, r.transitions[i - 1].to);
    }
  }

  /** The execution object of the source, changed in place. */
  class Execution {
    const id: string
    const flowName: string
    const idempotencyKey: string
    var state: ExecutionState
    var retryCount: nat
    var queuedAt: int
    var startedAt: Option<int>
    var completedAt: Option<int>
    var transitions: seq<Transition>

    ghost function View(): Record
      reads this
    {
      Record(flowName, idempotencyKey, state, retryCount, queuedAt, startedAt, completedAt, transitions)
    }

    constructor (id: string, flowName: string, idempotencyKey: string, now: int)
      ensures this.id == id
      ensures View() == NewRecord(flowName, idempotencyKey, now)
    {
      this.id, this.flowName, this.idempotencyKey := id, flowName, idempotencyKey;
      state, retryCount := Queued, 0;
      queuedAt, startedAt, completedAt, transitions := now, None, None, [];
    }

    /** Refuses a move outside the table and then changes nothing. */
    method TransitionTo(newState: ExecutionState, now: int) returns (ok: bool)
      modifies this
      ensures ok <==> Allowed(old(state), newState)
      ensures View() == if ok then Transitioned(old(View()), newState, now) else old(View())
    {
      if !Allowed(state, newState) {
        return false;
      }
      transitions := transitions + [Transition(state, newState, now)];
      state := newState;
      if newState == Running && startedAt.None? {
        startedAt := Some(now);
      }
      if newState == Complete || newState == Failed {
        completedAt := Some(now);
      }
      return true;
    }
  }
}
