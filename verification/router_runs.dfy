/** Many calls of `ModelRouter.complete` at once: each waits for one provider at a time while the others change
    the breakers, the rotation and the last resolved provider. */
module RouterRuns {
  import opened Wrappers
  import opened Breakers
  import opened Strategies
  import opened Routing

  /** The whole attempt made of one provider: whether it answered, and after how many calls. */
  datatype Trial = Trial(name: string, ok: bool, calls: nat)

  /** A call under way. `entered` is the router from which it took its order, once it has; `tries` counts the
      transient failures of the attempt it waits for. */
  datatype Progress = Progress(
    wanted: Option<string>,
    request: Option<Choice>,
    entered: Option<Router>,
    ordered: seq<Registration>,
    direct: seq<Trial>,
    trials: seq<Trial>,
    tries: nat,
    result: Option<Result>)

  /** `log` is history: every attempt of every call, in the order in which they ended. */
  datatype State = State(router: Router, calls: map<nat, Progress>, next: nat, log: seq<(nat, Trial)>)

  // ---- One call ----

  function Limit(p: Progress): nat {
    if p.entered.Some? then MaxAttempts(p.entered.value, |p.ordered|) else 0
  }

  /** The call takes its order from the router as it is now. */
  function Enter(r: Router, p: Progress): (Router, Progress) {
    var available := AvailableOf(r.providers, r.breakers);
    if available == [] then (r, p.(entered := Some(r), result := Some(NoneHealthy)))
    else
      var q := p.(entered := Some(r), ordered := OrderOf(r, p.request, available));
      (Counted(r, p.request), if Limit(q) == 0 then q.(result := Some(AllFailed([]))) else q)
  }

  function Begin(r: Router, wanted: Option<string>, request: Option<Choice>): (Router, Progress) {
    var p := Progress(wanted, request, None, [], [], [], 0, None);
    if !Asked(wanted) then Enter(r, p)
    else if !Registered(r.providers, wanted.value) then (r, p.(result := Some(NotFound)))
    else (r, p)
  }

  predicate Waiting(p: Progress) {
    p.result.None? && (if p.entered.None? then p.wanted.Some? else |p.trials| < |p.ordered|)
  }

  /** The provider the call waits for. */
  function Current(p: Progress): string
    requires Waiting(p)
  {
    if p.entered.None? then p.wanted.value else p.ordered[|p.trials|].name
  }

  function NamesTried(trials: seq<Trial>): (names: seq<string>)
    ensures |names| == |trials| && forall i :: 0 <= i < |names| ==> names[i] == trials[i].name
  {
    seq(|trials|, i requires 0 <= i < |trials| => trials[i].name)
  }

  function Recorded(r: Router, t: Trial): Router {
    r.(breakers := Play(r.breakers, Attempt(t.name, t.ok, 0, 0)), last := if t.ok then Some(t.name) else r.last)
  }

  /** The provider's attempt is over. */
  function Settle(r: Router, p: Progress, t: Trial): (Router, Progress)
    requires Waiting(p)
  {
    var recorded := Recorded(r, t);
    if p.entered.None? then
      var q := p.(direct := [t], tries := 0);
      if t.ok then (recorded, q.(result := Some(Answered(t.name)))) else Enter(recorded, q)
    else
      var q := p.(trials := p.trials + [t], tries := 0);
      if t.ok then (recorded, q.(result := Some(Answered(t.name))))
      else if |q.trials| == Limit(p) then (recorded, q.(result := Some(AllFailed(NamesTried(q.trials)))))
      else (recorded, q)
  }

  /** The provider replies to one call of the retry loop. */
  function Retries(p: Progress, reply: Reply): bool {
    reply == Transient && p.tries + 1 < RETRY_MAX_ATTEMPTS
  }

  function TrialOf(p: Progress, reply: Reply): Trial
    requires Waiting(p)
  {
    Trial(Current(p), reply == Answer, p.tries + 1)
  }

  function Hear(r: Router, p: Progress, reply: Reply): (Router, Progress)
    requires Waiting(p)
  {
    if Retries(p, reply) then (r, p.(tries := p.tries + 1)) else Settle(r, p, TrialOf(p, reply))
  }

  // ---- Runs ----

  /** `Beside` is a cooldown that ends or the shutdown of one breaker. */
  datatype Event =
    | Asks(wanted: Option<string>, request: Option<Choice>)
    | Replies(id: nat, reply: Reply)
    | Cools(name: string)
    | Stops(name: string)

  function Touch(r: Router, name: string, e: Breakers.Event): Router {
    if name in r.breakers then r.(breakers := r.breakers[name := Breakers.Apply(r.breakers[name], e)]) else r
  }

  function Apply(s: State, e: Event): State {
    match e
    case Asks(wanted, request) =>
      var (r, p) := Begin(s.router, wanted, request);
      s.(router := r, calls := s.calls[s.next := p], next := s.next + 1)
    case Replies(id, reply) =>
      if id !in s.calls || !Waiting(s.calls[id]) then s
      else
        var (r, p) := Hear(s.router, s.calls[id], reply);
        s.(router := r, calls := s.calls[id := p],
           log := if Retries(s.calls[id], reply) then s.log else s.log + [(id, TrialOf(s.calls[id], reply))])
    case Cools(name) => s.(router := Touch(s.router, name, CooldownOver))
    case Stops(name) => s.(router := Touch(s.router, name, Shutdown))
  }

  function After(r: Router, events: seq<Event>): State {
    if events == [] then State(r, map[], 0, [])
    else Apply(After(r, events[..|events| - 1]), events[|events| - 1])
  }

  // ---- What each call keeps ----

  /** An attempt of one to three provider calls. */
  predicate TrialOk(t: Trial) {
    1 <= t.calls <= 3
  }

  /** The attempts follow the order the call took, within its limit; all but the last failed, and the result
      is that of the last. */
  ghost predicate InTurn(p: Progress) {
    && p.entered.Some?
    && |p.trials| <= Limit(p)
    && (forall i :: 0 <= i < |p.trials| ==> p.trials[i].name == p.ordered[i].name && TrialOk(p.trials[i]))
    && (forall i :: 0 <= i < |p.trials| - 1 ==> !p.trials[i].ok)
    && match p.result
       case None => |p.trials| < Limit(p) && (p.trials != [] ==> !p.trials[|p.trials| - 1].ok)
       case Some(Answered(name)) =>
         p.trials != [] && p.trials[|p.trials| - 1].ok && name == p.trials[|p.trials| - 1].name
       case Some(AllFailed(errors)) =>
         && |p.trials| == Limit(p) && p.ordered != [] && errors == NamesTried(p.trials)
         && (p.trials != [] ==> !p.trials[|p.trials| - 1].ok)
       case Some(NoneHealthy) => p.ordered == []
       case Some(NotFound) => false
  }

  /** The override comes first, if one is asked for: an answer ends the call, a failure sends it on. */
  ghost predicate Overridden(p: Progress) {
    && |p.direct| <= 1
    && (forall t :: t in p.direct ==> p.wanted == Some(t.name) && TrialOk(t))
    && (if p.entered.Some? then (if Asked(p.wanted) then p.direct != [] && !p.direct[0].ok else p.direct == [])
        else
          && p.trials == [] && p.ordered == [] && Asked(p.wanted)
          && match p.result
             case None => p.direct == []
             case Some(Answered(name)) => p.direct != [] && p.direct[0].ok && Some(name) == p.wanted
             case Some(NotFound) => p.direct == []
             case Some(_) => false)
  }

  /** The call as a whole, at any time. Its order is the strategy's order of exactly the providers that were
      available when the call took it. */
  ghost predicate CallOk(p: Progress) {
    && p.tries < RETRY_MAX_ATTEMPTS && (p.result.Some? ==> p.tries == 0)
    && Overridden(p)
    && (p.entered.Some? ==>
          InTurn(p) && Offered(p.entered.value, p.ordered) && InStrategyOrder(p.entered.value, p.request, p.ordered))
  }

  lemma EnterOk(r: Router, p: Progress)
    requires Wired(r) && p.entered.None? && p.trials == [] && p.ordered == [] && p.tries == 0 && p.result.None?
    requires |p.direct| <= 1 && forall t :: t in p.direct ==> p.wanted == Some(t.name) && TrialOk(t)
    requires if Asked(p.wanted) then p.direct != [] && !p.direct[0].ok else p.direct == []
    ensures CallOk(Enter(r, p).1)
    ensures Enter(r, p).0 == r.(counter := Enter(r, p).0.counter)
  {
    hide Offered, InStrategyOrder, OrderOf, AvailableOf;
    var available := AvailableOf(r.providers, r.breakers);
    if available == [] {
      NothingRouted(r, p.request, _ => Answer, 0);
    } else {
      OrderOffers(r, p.request, available);
      OrderIsStrategys(r, p.request, available);
    }
  }

  /** What settling does to the call and to the router. */
  ghost predicate Settled(r: Router, p: Progress, t: Trial, r': Router, p': Progress) {
    && CallOk(p') && p'.direct + p'.trials == p.direct + p.trials + [t]
    && r' == Recorded(r, t).(counter := r'.counter)
    && (p.entered.Some? ==> p'.entered == p.entered)
    && (p'.entered.Some? && p.entered.None? ==> p'.entered.value == Recorded(r, t))
  }

  lemma RecordedWired(r: Router, t: Trial)
    requires Wired(r)
    ensures Wired(Recorded(r, t))
  {
    PlayWired(r, Attempt(t.name, t.ok, 0, 0));
    hide Play, DistinctNames, Registered;
  }

  lemma OverrideSettles(r: Router, p: Progress, t: Trial)
    requires Wired(r) && CallOk(p) && Waiting(p) && t.name == Current(p) && TrialOk(t) && p.entered.None?
    ensures Settled(r, p, t, Settle(r, p, t).0, Settle(r, p, t).1)
  {
    hide Offered, InStrategyOrder, OrderOf, AvailableOf, Play, Wired;
    RecordedWired(r, t);
    assert [t] + [] == [t] && [] + [] + [t] == [t];
    if !t.ok {
      EnterOk(Recorded(r, t), p.(direct := [t], tries := 0));
      EnterLeaves(Recorded(r, t), p.(direct := [t], tries := 0));
    }
  }

  lemma EnterLeaves(r: Router, p: Progress)
    ensures var q := Enter(r, p).1; q.direct == p.direct && q.trials == p.trials && q.entered == Some(r)
  {
    hide OrderOf, AvailableOf;
  }

  /** One more attempt in turn. */
  lemma NextInTurn(p: Progress, q: Progress, t: Trial)
    requires InTurn(p) && Waiting(p) && t.name == Current(p) && TrialOk(t) && p.entered.Some?
    requires q == p.(trials := p.trials + [t], tries := 0, result := q.result)
    requires q.result == if t.ok then Some(Answered(t.name))
                         else if |q.trials| == Limit(p) then Some(AllFailed(NamesTried(q.trials))) else None
    ensures InTurn(q)
  {
    forall i | 0 <= i < |q.trials|
      ensures q.trials[i].name == q.ordered[i].name && TrialOk(q.trials[i]) && (i < |q.trials| - 1 ==> !q.trials[i].ok)
    {
      if i < |p.trials| { assert q.trials[i] == p.trials[i]; }
    }
    hide Current, TrialOk, MaxAttempts;
  }

  lemma TurnSettles(r: Router, p: Progress, t: Trial)
    requires CallOk(p) && Waiting(p) && t.name == Current(p) && TrialOk(t) && p.entered.Some?
    ensures Settled(r, p, t, Settle(r, p, t).0, Settle(r, p, t).1)
  {
    hide Offered, InStrategyOrder, InTurn, Recorded;
    var q := Settle(r, p, t).1;
    NextInTurn(p, q, t);
    assert p.direct + (p.trials + [t]) == p.direct + p.trials + [t];
    RecordedCounter(r, t);
  }

  lemma RecordedCounter(r: Router, t: Trial)
    ensures Recorded(r, t).(counter := Recorded(r, t).counter) == Recorded(r, t)
  {
  }

  lemma SettleOk(r: Router, p: Progress, t: Trial)
    requires Wired(r) && CallOk(p) && Waiting(p) && t.name == Current(p) && TrialOk(t)
    ensures Settled(r, p, t, Settle(r, p, t).0, Settle(r, p, t).1)
  {
    hide Settled, CallOk, Wired, Waiting, Settle;
    if p.entered.None? { OverrideSettles(r, p, t); } else { TurnSettles(r, p, t); }
  }

  lemma HearOk(r: Router, p: Progress, reply: Reply)
    requires Wired(r) && CallOk(p) && Waiting(p)
    ensures CallOk(Hear(r, p, reply).1)
    ensures Retries(p, reply) ==> Hear(r, p, reply) == (r, p.(tries := p.tries + 1))
    ensures !Retries(p, reply) ==>
              Hear(r, p, reply) == Settle(r, p, TrialOf(p, reply))
              && Hear(r, p, reply).1.direct + Hear(r, p, reply).1.trials == p.direct + p.trials + [TrialOf(p, reply)]
  {
    hide Wired, Settle, Offered, InStrategyOrder;
    if !Retries(p, reply) { SettleOk(r, p, TrialOf(p, reply)); }
  }

  lemma BeginOk(r: Router, wanted: Option<string>, request: Option<Choice>)
    requires Wired(r)
    ensures var (r', p) := Begin(r, wanted, request);
            CallOk(p) && p.direct + p.trials == [] && r' == r.(counter := r'.counter)
            && (p.entered.Some? ==> p.entered.value == r)
  {
    hide Wired, Offered, InStrategyOrder, OrderOf, AvailableOf, Registered;
    if !Asked(wanted) { EnterOk(r, Progress(wanted, request, None, [], [], [], 0, None)); }
  }

  // ---- The log ----

  function TrialsOf(log: seq<(nat, Trial)>, id: nat): seq<Trial> {
    if log == [] then []
    else
      var n := |log| - 1;
      TrialsOf(log[..n], id) + if log[n].0 == id then [log[n].1] else []
  }

  /** The outcomes of a provider's attempts, whichever call made them, in the order in which they ended. */
  function OutcomesAt(log: seq<(nat, Trial)>, name: string): seq<bool> {
    if log == [] then []
    else
      var n := |log| - 1;
      OutcomesAt(log[..n], name) + if log[n].1.name == name then [log[n].1.ok] else []
  }

  lemma LogAppend(log: seq<(nat, Trial)>, id: nat, t: Trial)
    ensures forall other :: TrialsOf(log + [(id, t)], other) == TrialsOf(log, other) + if other == id then [t] else []
    ensures forall name ::
              OutcomesAt(log + [(id, t)], name) == OutcomesAt(log, name) + if name == t.name then [t.ok] else []
  {
    assert (log + [(id, t)])[..|log|] == log;
  }

  /** The router keeps its shape: only breakers, rotation and last provider change. */
  ghost predicate SameShape(r: Router, first: Router) {
    r == first.(breakers := r.breakers, counter := r.counter, last := r.last) && r.breakers.Keys == first.breakers.Keys
  }

  /** Every attempt is one record at its provider's breaker, and there are no others. */
  ghost predicate RecordsAreLog(s: State, first: Router) {
    forall name :: name in s.router.breakers && name in first.breakers ==>
      && s.router.breakers[name].records == first.breakers[name].records + OutcomesAt(s.log, name)
      && Summarises(s.router.breakers[name])
  }

  /** The log has each call's attempts, in turn. */
  ghost predicate CallsAreLog(s: State, first: Router) {
    && (forall id :: id in s.calls ==>
          && id < s.next && CallOk(s.calls[id]) && s.calls[id].direct + s.calls[id].trials == TrialsOf(s.log, id)
          && (s.calls[id].entered.Some? ==> SameShape(s.calls[id].entered.value, first)))
    && (forall id :: id !in s.calls ==> TrialsOf(s.log, id) == [])
  }

  ghost predicate Kept(s: State, first: Router) {
    SameShape(s.router, first) && RecordsAreLog(s, first) && CallsAreLog(s, first)
  }

  /** A router whose breakers say what their records say. */
  ghost predicate Sound(r: Router) {
    Wired(r) && forall name :: name in r.breakers ==> Summarises(r.breakers[name])
  }

  lemma ShapeWired(r: Router, first: Router)
    requires SameShape(r, first) && Wired(first)
    ensures Wired(r)
  {
    forall name ensures name in r.breakers <==> Registered(r.providers, name) {
      assert name in first.breakers <==> Registered(first.providers, name);
    }
  }

  lemma RecordedKeeps(s: State, first: Router, id: nat, t: Trial, counter: nat)
    requires SameShape(s.router, first) && RecordsAreLog(s, first)
    ensures var r := Recorded(s.router, t).(counter := counter);
            SameShape(r, first) && RecordsAreLog(s.(router := r, log := s.log + [(id, t)]), first)
  {
    var r := Recorded(s.router, t).(counter := counter);
    LogAppend(s.log, id, t);
    hide OutcomesAt, Summarises, RecordSuccess, RecordFailure;
    forall name | name in r.breakers && name in first.breakers
      ensures r.breakers[name].records == first.breakers[name].records + OutcomesAt(s.log + [(id, t)], name)
      ensures Summarises(r.breakers[name])
    {
      OneRecord(s.router.breakers[name]);
    }
  }

  lemma OneRecord(b: Breaker)
    requires Summarises(b)
    ensures RecordSuccess(b).records == b.records + [true] && Summarises(RecordSuccess(b))
    ensures RecordFailure(b).records == b.records + [false] && Summarises(RecordFailure(b))
  {
    ApplySummarises(b, Success);
    ApplySummarises(b, Failure);
  }

  lemma TouchRecords(s: State, first: Router, name: string, e: Breakers.Event)
    requires SameShape(s.router, first) && RecordsAreLog(s, first) && (e == CooldownOver || e == Shutdown)
    ensures var s' := s.(router := Touch(s.router, name, e)); SameShape(s'.router, first) && RecordsAreLog(s', first)
  {
    hide OutcomesAt, Summarises;
    if name in s.router.breakers { ApplySummarises(s.router.breakers[name], e); }
  }

  lemma TouchKeeps(s: State, first: Router, name: string, e: Breakers.Event)
    requires Kept(s, first) && (e == CooldownOver || e == Shutdown)
    ensures Kept(s.(router := Touch(s.router, name, e)), first)
  {
    hide RecordsAreLog, CallOk, TrialsOf, SameShape, Touch;
    TouchRecords(s, first, name, e);
  }

  lemma AskKeeps(s: State, first: Router, wanted: Option<string>, request: Option<Choice>)
    requires Wired(first) && Kept(s, first)
    ensures Kept(Apply(s, Asks(wanted, request)), first)
  {
    hide CallOk, TrialsOf, RecordsAreLog, Wired, Begin, Registered;
    ShapeWired(s.router, first);
    BeginOk(s.router, wanted, request);
    var r := Begin(s.router, wanted, request).0;
    SameRecords(s, first, r);
    assert s.next !in s.calls;
  }

  lemma SameRecords(s: State, first: Router, r: Router)
    requires SameShape(s.router, first) && RecordsAreLog(s, first) && r == s.router.(counter := r.counter)
    ensures SameShape(r, first)
    ensures forall calls, next :: RecordsAreLog(State(r, calls, next, s.log), first)
  {
    hide OutcomesAt, Summarises;
  }

  lemma CallKeeps(s: State, first: Router, id: nat, p: Progress, log: seq<(nat, Trial)>, router: Router)
    requires CallsAreLog(s, first) && id in s.calls && CallOk(p) && p.direct + p.trials == TrialsOf(log, id)
    requires p.entered.Some? ==> SameShape(p.entered.value, first)
    requires forall other :: other != id ==> TrialsOf(log, other) == TrialsOf(s.log, other)
    ensures CallsAreLog(s.(router := router, calls := s.calls[id := p], log := log), first)
  {
    hide CallOk, TrialsOf;
  }

  lemma ReplyKeeps(s: State, first: Router, id: nat, reply: Reply)
    requires Wired(first) && Kept(s, first) && id in s.calls && Waiting(s.calls[id])
    ensures Kept(Apply(s, Replies(id, reply)), first)
  {
    hide CallOk, TrialsOf, OutcomesAt, Wired, Settle, Waiting, Play, Summarises;
    var p := s.calls[id];
    ShapeWired(s.router, first);
    HearOk(s.router, p, reply);
    var (r, p') := Hear(s.router, p, reply);
    if Retries(p, reply) {
      CallKeeps(s, first, id, p', s.log, r);
    } else {
      var t := TrialOf(p, reply);
      TriesLeft(p);
      SettleOk(s.router, p, t);
      RecordedKeeps(s, first, id, t, r.counter);
      RecordedKeeps(s, first, id, t, s.router.counter);
      LogAppend(s.log, id, t);
      CallKeeps(s, first, id, p', s.log + [(id, t)], r);
    }
  }

  lemma TriesLeft(p: Progress)
    requires CallOk(p)
    ensures p.tries < RETRY_MAX_ATTEMPTS
  {
  }

  lemma ApplyKeeps(s: State, first: Router, e: Event)
    requires Wired(first) && Kept(s, first)
    ensures Kept(Apply(s, e), first)
  {
    hide Kept, Wired, Hear, Begin, Touch;
    match e
    case Asks(wanted, request) => AskKeeps(s, first, wanted, request);
    case Replies(id, reply) => if id in s.calls && Waiting(s.calls[id]) { ReplyKeeps(s, first, id, reply); }
    case Cools(name) => TouchKeeps(s, first, name, CooldownOver);
    case Stops(name) => TouchKeeps(s, first, name, Shutdown);
  }

  lemma {:induction false} AfterKeeps(first: Router, events: seq<Event>)
    requires Sound(first)
    ensures Kept(After(first, events), first)
  {
    if events != [] {
      hide Kept, Apply;
      AfterKeeps(first, events[..|events| - 1]);
      ApplyKeeps(After(first, events[..|events| - 1]), first, events[|events| - 1]);
    } else {
      assert forall name :: name in first.breakers ==>
                              first.breakers[name].records + [] == first.breakers[name].records;
    }
  }

  // ---- The theorems ----

  /** Whatever the other calls do meanwhile: a call tries its override first, and then the providers that were
      available when it took its order, each at most once, in the strategy's order and within the limit. */
  lemma EveryCallInOrder(first: Router, events: seq<Event>, id: nat)
    requires Sound(first) && id in After(first, events).calls
    ensures var p := After(first, events).calls[id];
            && CallOk(p) && (p.entered.Some? ==> SameShape(p.entered.value, first))
            && forall i, j :: 0 <= i < j < |p.trials| ==> p.trials[i].name != p.trials[j].name
  {
    AfterKeeps(first, events);
    hide After, TrialsOf, RecordsAreLog;
    TrialsDistinct(After(first, events).calls[id]);
  }

  lemma TrialsDistinct(p: Progress)
    requires CallOk(p)
    ensures forall i, j :: 0 <= i < j < |p.trials| ==> p.trials[i].name != p.trials[j].name
  {
    hide InStrategyOrder;
    if p.entered.Some? { assert DistinctNames(p.ordered); }
  }

  /** Every attempt of every call is one record at its provider's breaker, in the order in which the attempts
      ended, and there are no others; so a healthy breaker counts the failures at the end of that log. */
  lemma RecordsAreAllAttempts(first: Router, events: seq<Event>, name: string, id: nat)
    requires Sound(first) && name in first.breakers
    ensures var s := After(first, events);
            && name in s.router.breakers
            && var b := s.router.breakers[name];
               && b.records == first.breakers[name].records + OutcomesAt(s.log, name)
               && (b.state == Healthy ==> b.failures == Trailing(b.records) && b.failures < Patience(b.threshold))
               && (!b.down ==> (b.cooling <==> b.state == Unhealthy))
    ensures var s := After(first, events);
            TrialsOf(s.log, id) == if id in s.calls then s.calls[id].direct + s.calls[id].trials else []
  {
    AfterKeeps(first, events);
    hide After, OutcomesAt, CallOk, TrialsOf;
    assert Summarises(After(first, events).router.breakers[name]);
  }

  function CallsMade(trials: seq<Trial>): nat {
    if trials == [] then 0 else CallsMade(trials[..|trials| - 1]) + trials[|trials| - 1].calls
  }

  lemma {:induction false} CallsMadeBound(trials: seq<Trial>)
    requires forall t :: t in trials ==> TrialOk(t)
    ensures CallsMade(trials) <= RETRY_MAX_ATTEMPTS * |trials|
  {
    if trials != [] {
      CallsMadeBound(trials[..|trials| - 1]);
      assert trials[|trials| - 1] in trials;
    }
  }

  /** At no time has a call made more than three calls of each provider within its limit, and three more of
      an override. */
  lemma EveryCallBounded(first: Router, events: seq<Event>, id: nat)
    requires Sound(first) && id in After(first, events).calls
    ensures var p := After(first, events).calls[id];
            CallsMade(p.direct) + CallsMade(p.trials) + p.tries
            <= 3 * (Limit(p) + if Asked(p.wanted) then 1 else 0)
  {
    EveryCallInOrder(first, events, id);
    hide After;
    ProgressBounded(After(first, events).calls[id]);
  }

  lemma ProgressBounded(p: Progress)
    requires CallOk(p)
    ensures CallsMade(p.direct) + CallsMade(p.trials) + p.tries
         <= RETRY_MAX_ATTEMPTS * (Limit(p) + if Asked(p.wanted) then 1 else 0)
  {
    hide Offered, InStrategyOrder, CallsMade, Limit;
    CallsMadeBound(p.direct);
    CallsMadeBound(p.trials);
  }

  // ---- A call that nobody disturbs ----

  /** It runs on until it has its result. */
  function Alone(r: Router, p: Progress, reply: nat -> Reply, call: nat): (Router, Progress)
    decreases if p.entered.None? then 1 else 0, if |p.ordered| < |p.trials| then 0 else |p.ordered| - |p.trials|,
              if p.tries < RETRY_MAX_ATTEMPTS then RETRY_MAX_ATTEMPTS - p.tries else 0
  {
    if !Waiting(p) then (r, p)
    else
      var (r', p') := Hear(r, p, reply(call));
      if p'.result.Some? then (r', p') else Alone(r', p', reply, call + 1)
  }

  /** The retry loop, reply by reply. */
  lemma {:induction false} AloneRetries(r: Router, p: Progress, reply: nat -> Reply, call: nat)
    requires Waiting(p) && p.tries < RETRY_MAX_ATTEMPTS
    ensures var (ok, past) := Retry(reply, call, p.tries + 1);
            past >= call + 1
            && var t := Trial(Current(p), ok, p.tries + (past - call));
               var (r', p') := Settle(r, p, t);
               Alone(r, p, reply, call) == Alone(r', p', reply, past)
    decreases RETRY_MAX_ATTEMPTS - p.tries
  {
    if Retries(p, reply(call)) {
      var q := p.(tries := p.tries + 1);
      AloneRetries(r, q, reply, call + 1);
      SettleForgets(r, p, q, Trial(Current(p), Retry(reply, call, p.tries + 1).0,
                                   p.tries + (Retry(reply, call, p.tries + 1).1 - call)));
    }
    hide Settle;
  }

  lemma SettleForgets(r: Router, p: Progress, q: Progress, t: Trial)
    requires Waiting(p) && q == p.(tries := q.tries)
    ensures Settle(r, p, t) == Settle(r, q, t)
  {
  }

  lemma {:induction false} PlayAllFirst(breakers: map<string, Breaker>, a: Attempt, attempts: seq<Attempt>)
    ensures PlayAll(breakers, [a] + attempts) == PlayAll(Play(breakers, a), attempts)
  {
    hide Play;
    if attempts == [] {
      assert [a] + attempts == [a] && [a][..0] == [];
    } else {
      var n := |attempts| - 1;
      assert ([a] + attempts)[..n + 1] == [a] + attempts[..n];
      PlayAllFirst(breakers, a, attempts[..n]);
    }
  }

  /** The state and the result after attempts in turn. */
  ghost predicate Finished(r: Router, before: seq<string>, attempts: seq<Attempt>, r': Router, p': Progress) {
    && attempts != []
    && var last := attempts[|attempts| - 1];
       && r' == r.(breakers := PlayAll(r.breakers, attempts), last := if last.ok then Some(last.name) else r.last)
       && p'.result == Some(if last.ok then Answered(last.name) else AllFailed(before + NamesOf(attempts)))
  }

  lemma FinishedFirst(
    r: Router, before: seq<string>, a: Attempt, attempts: seq<Attempt>, r': Router, p': Progress)
    requires !a.ok && Finished(r.(breakers := Play(r.breakers, a)), before + [a.name], attempts, r', p')
    ensures Finished(r, before, [a] + attempts, r', p')
  {
    hide Play, PlayAll;
    PlayAllFirst(r.breakers, a, attempts);
    assert before + [a.name] + NamesOf(attempts) == before + NamesOf([a] + attempts);
  }

  lemma FinishedLast(r: Router, p: Progress, a: Attempt, t: Trial)
    requires Waiting(p) && p.entered.Some? && t.name == a.name && t.ok == a.ok && (a.ok || |p.trials| + 1 == Limit(p))
    ensures Finished(r, NamesTried(p.trials), [a], Settle(r, p, t).0, Settle(r, p, t).1)
  {
    PlayOne(r.breakers, a);
    assert NamesTried(p.trials + [t]) == NamesTried(p.trials) + [t.name];
    assert NamesOf([a]) == [a.name];
  }

  /** The fallback loop, attempt by attempt. */
  lemma {:induction false} AloneFallsBack(r: Router, p: Progress, reply: nat -> Reply, call: nat)
    requires Waiting(p) && p.entered.Some? && p.tries == 0 && |p.trials| < Limit(p)
    ensures var (r', p') := Alone(r, p, reply, call);
            Finished(r, NamesTried(p.trials), Fallback(p.ordered[|p.trials|..Limit(p)], reply, call), r', p')
    decreases Limit(p) - |p.trials|
  {
    hide Finished, Play, PlayAll, Retry, Alone;
    var rest := p.ordered[|p.trials|..Limit(p)];
    var (ok, past) := Retry(reply, call, 1);
    AloneRetries(r, p, reply, call);
    var a, t := Attempt(rest[0].name, ok, call, past), Trial(Current(p), ok, past - call);
    var (r', p') := Settle(r, p, t);
    assert rest[1..] == p.ordered[|p.trials| + 1..Limit(p)];
    if ok || |p.trials| + 1 == Limit(p) {
      FinishedLast(r, p, a, t);
      AloneDone(r', p', reply, past);
      assert Fallback(rest, reply, call) == [a] by { assert !ok ==> rest[1..] == []; }
    } else {
      AloneFallsBack(r', p', reply, past);
      assert NamesTried(p.trials + [t]) == NamesTried(p.trials) + [t.name];
      assert r' == r.(breakers := Play(r.breakers, a)) by { SamePlay(r.breakers, a); }
      FinishedFirst(r, NamesTried(p.trials), a, Fallback(rest[1..], reply, past), Alone(r', p', reply, past).0,
                    Alone(r', p', reply, past).1);
    }
  }

  lemma SamePlay(breakers: map<string, Breaker>, a: Attempt)
    ensures Play(breakers, Attempt(a.name, a.ok, 0, 0)) == Play(breakers, a)
  {
  }

  /** The routing part. */
  lemma AloneRoutes(r: Router, p: Progress, reply: nat -> Reply, call: nat, direct: seq<Attempt>)
    requires p.entered.None? && p.trials == [] && p.ordered == [] && p.tries == 0 && p.result.None?
    ensures var (r', p') := Enter(r, p);
            var c := Route(r, p.request, reply, call, direct);
            Alone(r', p', reply, call).0 == c.router && Alone(r', p', reply, call).1.result == Some(c.result)
  {
    hide AvailableOf, OrderOf, PlayAll, Alone, Fallback;
    var available := AvailableOf(r.providers, r.breakers);
    var (r', p') := Enter(r, p);
    AloneDone(r', p', reply, call);
    if available != [] {
      var ordered := OrderOf(r, p.request, available);
      var tried := ordered[..MaxAttempts(r, |ordered|)];
      if tried == [] {
        assert Fallback(tried, reply, call) == [] by { NoFallback(reply, call); }
        assert PlayAll(r.breakers, []) == r.breakers by { PlayOne(r.breakers, Attempt("", true, 0, 0)); }
        assert NamesOf([]) == [];
      } else {
        AloneFallsBack(r', p', reply, call);
        assert p'.ordered[0..Limit(p')] == tried;
        var attempts := Fallback(tried, reply, call);
        assert NamesTried([]) + NamesOf(attempts) == NamesOf(attempts);
      }
    }
  }

  lemma NoFallback(reply: nat -> Reply, call: nat)
    ensures Fallback([], reply, call) == []
  {
  }

  lemma AloneDone(r: Router, p: Progress, reply: nat -> Reply, call: nat)
    ensures p.result.Some? ==> Alone(r, p, reply, call) == (r, p)
  {
  }

  /** With no other call and no cooldown in between, a call has exactly the result and the effect that
      `Complete` says. */
  lemma AloneIsComplete(r: Router, wanted: Option<string>, request: Option<Choice>, reply: nat -> Reply)
    ensures var (r0, p0) := Begin(r, wanted, request);
            var (r', p') := Alone(r0, p0, reply, 0);
            var c := Complete(r, wanted, request, reply);
            r' == c.router && p'.result == Some(c.result)
  {
    hide Enter, Route, Alone, Registered, Retry, Play;
    var p := Progress(wanted, request, None, [], [], [], 0, None);
    var (r0, p0) := Begin(r, wanted, request);
    AloneDone(r0, p0, reply, 0);
    if !Asked(wanted) {
      AloneRoutes(r, p, reply, 0, []);
    } else if Registered(r.providers, wanted.value) {
      AloneRetries(r, p, reply, 0);
      var (ok, past) := Retry(reply, 0, 1);
      var direct := Attempt(wanted.value, ok, 0, past);
      SamePlay(r.breakers, direct);
      var (r1, p1) := Settle(r, p, Trial(wanted.value, ok, past));
      AloneDone(r1, p1, reply, past);
      if !ok {
        AloneRoutes(r.(breakers := Play(r.breakers, direct)), p.(direct := [Trial(wanted.value, ok, past)]),
                    reply, past, [direct]);
      }
    }
  }

  /** A cooldown that ends makes its breaker half open, if it is live, and a shutdown stops it; neither touches
      another breaker, a call under way or what is recorded. */
  lemma OneBreakerTouched(s: State, name: string, other: string)
    requires name in s.router.breakers && other in s.router.breakers
    ensures var cooled, stopped := Apply(s, Cools(name)), Apply(s, Stops(name));
            var b := s.router.breakers[name];
            && name in cooled.router.breakers && name in stopped.router.breakers
            && other in cooled.router.breakers && other in stopped.router.breakers
            && (var b' := cooled.router.breakers[name];
                if b.cooling then b'.state == HalfOpen && !b'.cooling && b'.failures == b.failures else b' == b)
            && (var b' := stopped.router.breakers[name];
                b'.state == b.state && b'.failures == b.failures && !b'.cooling && b'.down)
            && (other != name ==>
                  cooled.router.breakers[other] == s.router.breakers[other] == stopped.router.breakers[other])
            && cooled.calls == s.calls == stopped.calls && cooled.log == s.log == stopped.log
  {
  }
}
