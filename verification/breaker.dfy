/** The circuit breaker of one provider: a counter that stands for the history of its calls. */
module Breakers {
  datatype Health = Healthy | Unhealthy | HalfOpen

  /** `records` and `down` are history: the outcomes recorded so far, true for a success, and whether
      `shutdown` was called. */
  datatype Breaker = Breaker(
    threshold: int,
    state: Health,
    failures: nat,
    cooling: bool,
    records: seq<bool>,
    down: bool)

  datatype Event = Success | Failure | CooldownOver | Shutdown

  function New(threshold: int): Breaker {
    Breaker(threshold, Healthy, 0, false, [], false)
  }

  function RecordSuccess(b: Breaker): Breaker {
    var counted := b.(failures := 0, records := b.records + [true]);
    if b.state == HalfOpen then counted.(state := Healthy, cooling := false) else counted
  }

  function RecordFailure(b: Breaker): Breaker {
    var noted := b.(records := b.records + [false]);
    if b.state == HalfOpen then noted.(state := Unhealthy, cooling := true)
    else
      var counted := noted.(failures := b.failures + 1);
      if b.state == Healthy && b.failures + 1 >= b.threshold then counted.(state := Unhealthy, cooling := true)
      else counted
  }

  function CooldownEnds(b: Breaker): Breaker {
    if b.cooling then b.(cooling := false, state := HalfOpen) else b
  }

  function Apply(b: Breaker, e: Event): Breaker {
    match e
    case Success => RecordSuccess(b)
    case Failure => RecordFailure(b)
    case CooldownOver => CooldownEnds(b)
    case Shutdown => b.(cooling := false, down := true)
  }

  function After(threshold: int, events: seq<Event>): Breaker {
    if events == [] then New(threshold)
    else Apply(After(threshold, events[..|events| - 1]), events[|events| - 1])
  }

  predicate Available(b: Breaker) {
    b.state == Healthy || b.state == HalfOpen
  }

  /** The failures recorded since the last success. */
  function Trailing(records: seq<bool>): nat {
    if records == [] || records[|records| - 1] then 0 else Trailing(records[..|records| - 1]) + 1
  }

  lemma TrailingAppend(records: seq<bool>, success: bool)
    ensures Trailing(records + [success]) == if success then 0 else Trailing(records) + 1
  {
    assert (records + [success])[..|records|] == records;
  }

  /** How many failures in a row open a healthy breaker. */
  function Patience(threshold: int): nat {
    if threshold > 1 then threshold else 1
  }

  predicate Summarises(b: Breaker) {
    && (!b.down ==> (b.cooling <==> b.state == Unhealthy))
    && (b.cooling ==> b.state == Unhealthy)
    && (b.state == Healthy ==> b.failures == Trailing(b.records) && b.failures < Patience(b.threshold))
    && (b.state == HalfOpen ==> b.failures <= Trailing(b.records))
    && (b.state == Unhealthy ==> b.failures <= Trailing(b.records))
  }

  lemma ApplySummarises(b: Breaker, e: Event)
    requires Summarises(b)
    ensures Summarises(Apply(b, e)) && Apply(b, e).threshold == b.threshold
  {
    hide Trailing;
    TrailingAppend(b.records, true);
    TrailingAppend(b.records, false);
  }

  lemma {:induction false} AfterSummarises(threshold: int, events: seq<Event>)
    ensures Summarises(After(threshold, events)) && After(threshold, events).threshold == threshold
  {
    if events != [] {
      AfterSummarises(threshold, events[..|events| - 1]);
      ApplySummarises(After(threshold, events[..|events| - 1]), events[|events| - 1]);
      hide Summarises, Apply;
    }
  }

  /** Before shutdown a breaker has a live cooldown timer exactly while it is unhealthy. */
  lemma {:induction false} TimerWhileUnhealthy(threshold: int, events: seq<Event>)
    requires Shutdown !in events
    ensures var b := After(threshold, events); b.cooling <==> b.state == Unhealthy
  {
    AfterSummarises(threshold, events);
    NotDown(threshold, events);
  }

  lemma {:induction false} NotDown(threshold: int, events: seq<Event>)
    ensures After(threshold, events).down <==> Shutdown in events
  {
    if events != [] {
      NotDown(threshold, events[..|events| - 1]);
      assert events == events[..|events| - 1] + [events[|events| - 1]];
    }
  }

  /** A healthy breaker's count is the trailing run of failures, and below the threshold. */
  lemma HealthyCount(threshold: int, events: seq<Event>)
    ensures var b := After(threshold, events);
            b.state == Healthy ==> b.failures == Trailing(b.records) && b.failures < Patience(threshold)
  {
    AfterSummarises(threshold, events);
  }

  /** One more failure opens a healthy breaker exactly when it completes a run of threshold length. */
  lemma OpensAtThreshold(threshold: int, events: seq<Event>)
    requires After(threshold, events).state == Healthy
    ensures var b, next := After(threshold, events), After(threshold, events + [Failure]);
            next.state == (if Trailing(b.records) + 1 >= Patience(threshold) then Unhealthy else Healthy)
  {
    AfterSummarises(threshold, events);
    assert (events + [Failure])[..|events|] == events;
  }

  /** The outcome of a probe decides: a failure opens a half open breaker again, with a new cooldown and the
      count as it was; a success heals it. */
  lemma ProbeDecides(threshold: int, events: seq<Event>)
    requires After(threshold, events).state == HalfOpen
    ensures var b, failed := After(threshold, events), After(threshold, events + [Failure]);
            failed.state == Unhealthy && failed.cooling && failed.failures == b.failures && !Available(failed)
    ensures var healed := After(threshold, events + [Success]);
            healed.state == Healthy && healed.failures == 0 && !healed.cooling && Available(healed)
  {
    assert (events + [Failure])[..|events|] == events && (events + [Success])[..|events|] == events;
  }

  /** It is offered to callers unless it is unhealthy. */
  lemma AvailableUnlessUnhealthy(b: Breaker)
    ensures Available(b) <==> b.state != Unhealthy
  {
  }

  predicate IsOutcome(e: Event) {
    e == Success || e == Failure
  }

  /** A live cooldown ended at `i`, and no outcome has been recorded since. */
  predicate Probing(threshold: int, events: seq<Event>, i: nat) {
    && i < |events| && events[i] == CooldownOver && After(threshold, events[..i]).cooling
    && forall j :: i < j < |events| ==> !IsOutcome(events[j])
  }

  /** A breaker is half open exactly from the end of a live cooldown to the next outcome. */
  lemma {:induction false} HalfOpenExactly(threshold: int, events: seq<Event>)
    ensures After(threshold, events).state == HalfOpen <==> exists i: nat :: Probing(threshold, events, i)
  {
    if events != [] {
      var n := |events| - 1;
      var front, b := events[..n], After(threshold, events[..n]);
      HalfOpenExactly(threshold, front);
      AfterSummarises(threshold, front);
      forall i: nat | i < n
        ensures Probing(threshold, events, i) <==> Probing(threshold, front, i) && !IsOutcome(events[n])
      {
        assert front[..i] == events[..i];
      }
      if b.state == HalfOpen && !IsOutcome(events[n]) {
        var i: nat :| Probing(threshold, front, i);
        assert Probing(threshold, events, i);
      }
      if events[n] == CooldownOver && b.cooling { assert Probing(threshold, events, n); }
      if i: nat :| Probing(threshold, events, i) {
        if i < n { assert Probing(threshold, front, i); }
      }
    }
  }

  /** An unhealthy breaker stays so, whatever outcomes come in, until a live cooldown ends. */
  lemma OpenUntilCooldown(threshold: int, events: seq<Event>, e: Event)
    requires After(threshold, events).state == Unhealthy
    ensures var b, next := After(threshold, events), After(threshold, events + [e]);
            && next.state == (if e == CooldownOver && b.cooling then HalfOpen else Unhealthy)
            && (next.cooling <==> b.cooling && e != CooldownOver && e != Shutdown)
            && next.failures == (if e == Success then 0 else if e == Failure then b.failures + 1 else b.failures)
  {
    assert (events + [e])[..|events|] == events;
  }

  /** Once shut down while unhealthy a breaker never becomes available again. */
  lemma {:induction false} ShutdownIsFinal(threshold: int, events: seq<Event>, later: seq<Event>)
    requires After(threshold, events).state == Unhealthy
    ensures After(threshold, events + [Shutdown] + later).state == Unhealthy
    ensures !After(threshold, events + [Shutdown] + later).cooling
  {
    var stopped := events + [Shutdown];
    if later == [] {
      assert stopped + later == stopped && stopped[..|events|] == events;
    } else {
      var n := |later| - 1;
      ShutdownIsFinal(threshold, events, later[..n]);
      assert (stopped + later)[..|stopped| + n] == stopped + later[..n];
    }
  }

  class CircuitBreaker {
    const failureThreshold: int
    var state: Health
    var failureCount: nat
    var cooldownTimer: bool
    ghost var records: seq<bool>
    ghost var down: bool

    ghost function View(): Breaker
      reads this
    {
      Breaker(failureThreshold, state, failureCount, cooldownTimer, records, down)
    }

    constructor (failureThreshold: int)
      ensures View() == New(failureThreshold)
    {
      this.failureThreshold := failureThreshold;
      state, failureCount, cooldownTimer, records, down := Healthy, 0, false, [], false;
    }

    function IsAvailable(): (available: bool)
      reads this
      ensures available == Available(View())
    {
      state == Healthy || state == HalfOpen
    }

    method Transition(to: Health)
      modifies this
      ensures View() == old(View()).(state := to,
                                     failures := if to == Healthy then 0 else old(failureCount),
                                     cooling := to != Healthy && old(cooldownTimer))
    {
      state := to;
      if to == Healthy {
        failureCount := 0;
        ClearCooldown();
      }
    }

    method ClearCooldown()
      modifies `cooldownTimer
      ensures !cooldownTimer
    {
      if cooldownTimer {
        cooldownTimer := false;
      }
    }

    method StartCooldown()
      modifies `cooldownTimer
      ensures cooldownTimer
    {
      ClearCooldown();
      cooldownTimer := true;
    }

    method Succeeded()
      modifies this
      ensures View() == RecordSuccess(old(View()))
    {
      records := records + [true];
      failureCount := 0;
      if state == HalfOpen {
        Transition(Healthy);
      }
    }

    method Failed()
      modifies this
      ensures View() == RecordFailure(old(View()))
    {
      records := records + [false];
      if state == HalfOpen {
        Transition(Unhealthy);
        StartCooldown();
        return;
      }
      failureCount := failureCount + 1;
      if state == Healthy && failureCount >= failureThreshold {
        Transition(Unhealthy);
        StartCooldown();
      }
    }

    /** The callback of the cooldown timer, which fires only while it is live. */
    method CooldownFires()
      modifies this
      ensures View() == CooldownEnds(old(View()))
    {
      if cooldownTimer {
        cooldownTimer := false;
        Transition(HalfOpen);
      }
    }

    method Stop()
      modifies this
      ensures View() == Apply(old(View()), Shutdown)
    {
      ClearCooldown();
      down := true;
    }
  }
}
