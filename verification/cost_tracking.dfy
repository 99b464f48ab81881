/** Cost tracking on values: every call checks and reserves, then waits for the router, then settles or
    fails, while other calls do the same. */
module CostTracking {
  import opened Wrappers
  import opened Budgets

  datatype Entry = Entry(cost: real, executionId: string, flowName: string, userId: Option<string>, timestamp: int)

  /** A call that waits for the router, with the scopes it reserved in. */
  datatype Call = Call(streamed: bool, estimate: real, scopes: seq<string>, context: Context)

  datatype Settlement = Settlement(call: Call, actual: real, recorded: bool)

  /** `listens` says that an event callback is set; the check after a call runs only then. */
  datatype Setup = Setup(budgets: Option<Config>, threshold: real, listens: bool, maxEntries: int)

  /** `recorded`, `stranded`, `settled` and `warned` are history: every ledger entry ever, the complete
      calls whose router threw, the calls settled, and the key and window start of each warning a check
      raised. A refusal drops the warnings of its check, and a stream emits none. */
  datatype State = State(
    accounts: Accounts,
    ledger: seq<Entry>,
    calls: map<nat, Call>,
    next: nat,
    now: int,
    recorded: seq<Entry>,
    stranded: seq<Call>,
    settled: seq<Settlement>,
    warned: seq<(string, int)>)

  function Init(now: int): State {
    State(map[], [], map[], 0, now, [], [], [], [])
  }

  /** `record`: the oldest entry makes room. */
  function Recorded(ledger: seq<Entry>, entry: Entry, maxEntries: int): seq<Entry> {
    (if |ledger| >= maxEntries && ledger != [] then ledger[1..] else ledger) + [entry]
  }

  function Warnings(o: Outcome, warnings: seq<Warning>): seq<(string, int)> {
    if warnings == [] then []
    else
      var w := warnings[|warnings| - 1];
      Warnings(o, warnings[..|warnings| - 1]) + [(w.key, if w.key in o.accounts then o.accounts[w.key].start else 0)]
  }

  function Checked(s: State, o: Outcome): State {
    s.(accounts := o.accounts, warned := s.warned + Warnings(o, o.warnings))
  }

  function CheckNow(setup: Setup, s: State, ctx: Context, amount: real): Outcome {
    CheckBudgets(s.accounts, setup.budgets, ctx, amount, setup.threshold, s.now)
  }

  /** The call up to the router: a hard scope refuses it, otherwise the estimate is reserved. */
  function StartCall(setup: Setup, s: State, streamed: bool, ctx: Context, estimate: real): State {
    var o := CheckNow(setup, s, ctx, estimate);
    if o.verdict.HardExceeded? then Checked(s, o)
    else
      Checked(s, o).(accounts := Reserve(o.accounts, estimate, o.scopes, s.now),
                     calls := s.calls[s.next := Call(streamed, estimate, o.scopes, ctx)],
                     next := s.next + 1)
  }

  function EntryOf(call: Call, actual: real, now: int): Entry {
    Entry(actual, call.context.executionId, call.context.flowName, call.context.userId, now)
  }

  function Reconciled(s: State, id: nat, actual: real, recorded: bool): State
    requires id in s.calls
  {
    var call := s.calls[id];
    s.(accounts := Reconcile(s.accounts, call.estimate, actual, call.scopes),
       calls := s.calls - {id},
       settled := s.settled + [Settlement(call, actual, recorded)])
  }

  function Noted(setup: Setup, s: State, entry: Entry): State {
    s.(ledger := Recorded(s.ledger, entry, setup.maxEntries), recorded := s.recorded + [entry])
  }

  /** The router answered: reconcile, record, and after a complete call check once more at no cost. */
  function SettleCall(setup: Setup, s: State, id: nat, actual: real, recordFails: bool): State
    requires id in s.calls
  {
    var call, reconciled := s.calls[id], Reconciled(s, id, actual, !recordFails);
    if recordFails then reconciled
    else
      var noted := Noted(setup, reconciled, EntryOf(call, actual, s.now));
      if call.streamed || !setup.listens then noted
      else Checked(noted, CheckNow(setup, noted, call.context, 0.0))
  }

  /** Whether the caller gets the answer: the check after a complete call throws like any other. */
  predicate Delivered(setup: Setup, s: State, id: nat, actual: real, recordFails: bool)
    requires id in s.calls
  {
    var call := s.calls[id];
    var noted := Noted(setup, Reconciled(s, id, actual, true), EntryOf(call, actual, s.now));
    recordFails || call.streamed || !setup.listens
    || !CheckNow(setup, noted, call.context, 0.0).verdict.HardExceeded?
  }

  /** The router failed: a stream releases its reservation, a complete call keeps it. */
  function FailCall(s: State, id: nat): State
    requires id in s.calls
  {
    var call := s.calls[id];
    if call.streamed then
      s.(accounts := Reconcile(s.accounts, call.estimate, 0.0, call.scopes), calls := s.calls - {id})
    else s.(calls := s.calls - {id}, stranded := s.stranded + [call])
  }

  datatype Event =
    | Started(streamed: bool, context: Context, estimate: real)
    | Answered(id: nat, actual: real, recordFails: bool)
    | Broke(id: nat)

  datatype Step = Step(elapsed: nat, event: Event)

  function Apply(setup: Setup, s: State, e: Event): State {
    match e
    case Started(streamed, ctx, estimate) => StartCall(setup, s, streamed, ctx, estimate)
    case Answered(id, actual, recordFails) =>
      if id !in s.calls then s else SettleCall(setup, s, id, actual, recordFails)
    case Broke(id) => if id !in s.calls then s else FailCall(s, id)
  }

  function Advance(setup: Setup, s: State, step: Step): State {
    Apply(setup, s.(now := s.now + step.elapsed), step.event)
  }

  function After(setup: Setup, start: int, steps: seq<Step>): State {
    if steps == [] then Init(start)
    else Advance(setup, After(setup, start, steps[..|steps| - 1]), steps[|steps| - 1])
  }

  // ---- Sums ----

  /** What a ledger is asked for; an absent field matches everything. */
  datatype Filter = Filter(
    userId: Option<string>,
    flowName: Option<string>,
    executionId: Option<string>,
    from: Option<int>,
    until: Option<int>)

  predicate Matches(e: Entry, f: Filter) {
    && (f.userId.Some? ==> e.userId == f.userId)
    && (f.flowName.Some? ==> e.flowName == f.flowName.value)
    && (f.executionId.Some? ==> e.executionId == f.executionId.value)
    && (f.from.Some? ==> e.timestamp >= f.from.value)
    && (f.until.Some? ==> e.timestamp <= f.until.value)
  }

  /** The filter for an account's own entries. */
  function AccountFilter(a: Account): Filter {
    match a
    case OfUser(id) => Filter(Some(id), None, None, None, None)
    case OfFlow(name) => Filter(None, Some(name), None, None, None)
    case Everyone => Filter(None, None, None, None, None)
  }

  function FilterTotal(entries: seq<Entry>, f: Filter): real {
    if entries == [] then 0.0
    else
      var n := |entries| - 1;
      FilterTotal(entries[..n], f) + if Matches(entries[n], f) then entries[n].cost else 0.0
  }

  predicate OnAccount(e: Entry, a: Account) {
    Matches(e, AccountFilter(a))
  }

  function Total(entries: seq<Entry>, a: Account): real {
    FilterTotal(entries, AccountFilter(a))
  }

  /** The estimates of the calls with ids below `n` that wait for the router. */
  function InFlight(calls: map<nat, Call>, n: nat, key: string): real {
    if n == 0 then 0.0
    else InFlight(calls, n - 1, key)
         + if n - 1 in calls && key in calls[n - 1].scopes then calls[n - 1].estimate else 0.0
  }

  /** The estimates kept by complete calls whose router threw. */
  function Stranded(calls: seq<Call>, key: string): real {
    if calls == [] then 0.0
    else
      var n := |calls| - 1;
      Stranded(calls[..n], key) + if key in calls[n].scopes then calls[n].estimate else 0.0
  }

  /** What settled calls put into the accumulator, less what they put into the ledger. */
  function Drift(settled: seq<Settlement>, a: Account): real {
    if settled == [] then 0.0
    else
      var n := |settled| - 1;
      var last := settled[n];
      Drift(settled[..n], a)
      + (if AccountKey(a) in last.call.scopes then last.actual else 0.0)
      - (if last.recorded && Charges(last.call.context, a) then last.actual else 0.0)
  }

  function Over(estimate: real, actual: real): real {
    if actual > estimate then actual - estimate else 0.0
  }

  /** By how much settled calls cost more than their estimates. */
  function Overrun(settled: seq<Settlement>, key: string): real {
    if settled == [] then 0.0
    else
      var n := |settled| - 1;
      Overrun(settled[..n], key)
      + if key in settled[n].call.scopes then Over(settled[n].call.estimate, settled[n].actual) else 0.0
  }

  lemma {:induction false} InFlightSame(calls: map<nat, Call>, calls': map<nat, Call>, n: nat, key: string)
    requires forall i: nat :: i < n ==> (i in calls <==> i in calls') && (i in calls ==> calls[i] == calls'[i])
    ensures InFlight(calls', n, key) == InFlight(calls, n, key)
  {
    if n > 0 { InFlightSame(calls, calls', n - 1, key); }
  }

  lemma {:induction false} InFlightWithout(calls: map<nat, Call>, n: nat, id: nat, key: string)
    requires id < n && id in calls
    ensures InFlight(calls - {id}, n, key)
         == InFlight(calls, n, key) - if key in calls[id].scopes then calls[id].estimate else 0.0
  {
    if id < n - 1 {
      InFlightWithout(calls, n - 1, id, key);
    } else {
      InFlightSame(calls, calls - {id}, n - 1, key);
    }
  }
}
