/** Over every interleaving of calls: the accumulators agree with the ledger, hard caps hold, and spend
    passes a limit only by what settled calls cost beyond their estimates. */
module CostTheorems {
  import opened Wrappers
  import opened Budgets
  import opened BudgetChecks
  import opened CostTracking

  /** A check of the tracker as `CheckAll`, with budgets configured. */
  lemma TrackerCheck(setup: Setup, s: State, ctx: Context, a: Account, amount: real)
    requires setup.budgets.Some?
    ensures Part(s.accounts, CheckNow(setup, s, ctx, amount), AccountCheck(setup.budgets.value, ctx, a),
                 Charges(ctx, a), true, AccountKey(a), amount, s.now)
    ensures Distinct(CheckNow(setup, s, ctx, amount).scopes)
  {
    CheckEffect(s.accounts, setup.budgets.value, ctx, a, amount, setup.threshold, s.now);
    PassedCoversAll(s.accounts, setup.budgets.value, ctx, amount, setup.threshold, s.now, 0);
  }

  // ---- The gap between an accumulator and the ledger ----

  /** Wherever the account's scope is enabled it has no window. */
  predicate Windowless(budgets: Config, ctx: Context, a: Account) {
    var c := AccountCheck(budgets, ctx, a);
    Charges(ctx, a) && Enabled(c) ==> c.config.value.window == Some(Unbounded)
  }

  predicate WindowlessEvent(budgets: Config, e: Event, a: Account) {
    e.Started? ==> Windowless(budgets, e.context, a)
  }

  ghost predicate CallOk(call: Call, a: Account, budgets: Config, accounts: Accounts) {
    && Distinct(call.scopes)
    && (AccountKey(a) in call.scopes ==> Charges(call.context, a) && AccountKey(a) in accounts)
    && Windowless(budgets, call.context, a)
  }

  ghost predicate CallsOk(s: State, a: Account, budgets: Config) {
    && (AccountKey(a) in s.accounts ==> s.accounts[AccountKey(a)].end.None?)
    && (forall id :: id in s.calls ==> id < s.next && CallOk(s.calls[id], a, budgets, s.accounts))
  }

  /** `extra` is what is reconciled and not yet recorded. */
  predicate Balance(s: State, a: Account, extra: real) {
    var key := AccountKey(a);
    Spend(s.accounts, key)
    == Total(s.recorded, a) + InFlight(s.calls, s.next, key) + Stranded(s.stranded, key) + Drift(s.settled, a) + extra
  }

  ghost predicate Tallied(s: State, a: Account, budgets: Config, extra: real) {
    CallsOk(s, a, budgets) && Balance(s, a, extra)
  }

  lemma CheckTallied(setup: Setup, s: State, ctx: Context, a: Account, amount: real)
    requires setup.budgets.Some? && Windowless(setup.budgets.value, ctx, a)
    requires AccountKey(a) in s.accounts ==> s.accounts[AccountKey(a)].end.None?
    ensures var o := CheckNow(setup, s, ctx, amount);
            var key := AccountKey(a);
            (Spend(o.accounts, key) == Spend(s.accounts, key)
             && (key in o.accounts ==> o.accounts[key].end.None?)
             && (key in s.accounts || key in o.scopes ==> key in o.accounts)
             && (key in o.scopes ==> Charges(ctx, a))
             && Distinct(o.scopes))
  {
    TrackerCheck(setup, s, ctx, a, amount);
    hide CheckNow, AccountKey, Distinct, Checks;
  }

  lemma CheckedTallied(setup: Setup, s: State, ctx: Context, a: Account, amount: real, extra: real)
    requires setup.budgets.Some? && Windowless(setup.budgets.value, ctx, a)
    requires Tallied(s, a, setup.budgets.value, extra)
    ensures Tallied(Checked(s, CheckNow(setup, s, ctx, amount)), a, setup.budgets.value, extra)
  {
    hide CheckNow, AccountKey, Distinct, Windowless, Warnings, Total, InFlight, Stranded, Drift, Spend;
    CheckTallied(setup, s, ctx, a, amount);
  }

  /** A new call with its reservation. */
  lemma ReservedTallied(s: State, call: Call, a: Account, budgets: Config)
    requires Tallied(s, a, budgets, 0.0) && CallOk(call, a, budgets, s.accounts)
    ensures var reserved := s.(accounts := Reserve(s.accounts, call.estimate, call.scopes, s.now),
                               calls := s.calls[s.next := call], next := s.next + 1);
            Tallied(reserved, a, budgets, 0.0)
  {
    hide AccountKey, Distinct, Windowless, Charges, Total, Stranded, Drift, Reserve;
    var key := AccountKey(a);
    ReserveAt(s.accounts, call.estimate, call.scopes, s.now, key);
    InFlightSame(s.calls, s.calls[s.next := call], s.next, key);
  }

  lemma StartTallied(setup: Setup, s: State, streamed: bool, ctx: Context, estimate: real, a: Account)
    requires setup.budgets.Some? && Windowless(setup.budgets.value, ctx, a) && Tallied(s, a, setup.budgets.value, 0.0)
    ensures Tallied(StartCall(setup, s, streamed, ctx, estimate), a, setup.budgets.value, 0.0)
  {
    hide CheckNow, AccountKey, Distinct, Windowless, Tallied, Warnings;
    var o := CheckNow(setup, s, ctx, estimate);
    CheckedTallied(setup, s, ctx, a, estimate, 0.0);
    if !o.verdict.HardExceeded? {
      TalliedCalls(s, a, setup.budgets.value, 0.0);
      CheckTallied(setup, s, ctx, a, estimate);
      ReservedTallied(Checked(s, o), Call(streamed, estimate, o.scopes, ctx), a, setup.budgets.value);
    }
  }

  lemma TalliedCalls(s: State, a: Account, budgets: Config, extra: real)
    requires Tallied(s, a, budgets, extra)
    ensures AccountKey(a) in s.accounts ==> s.accounts[AccountKey(a)].end.None?
    ensures forall id :: id in s.calls ==> CallOk(s.calls[id], a, budgets, s.accounts)
  {
  }

  lemma TotalAppend(entries: seq<Entry>, entry: Entry, a: Account)
    ensures Total(entries + [entry], a) == Total(entries, a) + if OnAccount(entry, a) then entry.cost else 0.0
  {
    assert (entries + [entry])[..|entries|] == entries;
  }

  lemma StrandedAppend(calls: seq<Call>, call: Call, key: string)
    ensures Stranded(calls + [call], key) == Stranded(calls, key) + if key in call.scopes then call.estimate else 0.0
  {
    assert (calls + [call])[..|calls|] == calls;
  }

  lemma DriftAppend(settled: seq<Settlement>, more: Settlement, a: Account)
    ensures Drift(settled + [more], a)
         == Drift(settled, a) + (if AccountKey(a) in more.call.scopes then more.actual else 0.0)
            - (if more.recorded && Charges(more.call.context, a) then more.actual else 0.0)
  {
    assert (settled + [more])[..|settled|] == settled;
  }

  lemma ReconciledTallied(s: State, id: nat, actual: real, recorded: bool, a: Account, budgets: Config)
    requires id in s.calls && Tallied(s, a, budgets, 0.0)
    ensures Tallied(Reconciled(s, id, actual, recorded), a, budgets,
                    if recorded && Charges(s.calls[id].context, a) then actual else 0.0)
    ensures Reconciled(s, id, actual, recorded).now == s.now
  {
    hide AccountKey, Distinct, Windowless, Charges, Total, Stranded, Drift, Reconcile, InFlight;
    var call, key := s.calls[id], AccountKey(a);
    ReconcileAt(s.accounts, call.estimate, actual, call.scopes, key);
    InFlightWithout(s.calls, s.next, id, key);
    DriftAppend(s.settled, Settlement(call, actual, recorded), a);
  }

  lemma NotedTallied(setup: Setup, s: State, call: Call, actual: real, a: Account, budgets: Config)
    requires Tallied(s, a, budgets, if Charges(call.context, a) then actual else 0.0)
    ensures Tallied(Noted(setup, s, EntryOf(call, actual, s.now)), a, budgets, 0.0)
  {
    hide AccountKey, Distinct, Windowless, Stranded, InFlight, Drift, Recorded, Total, EntryOf, OnAccount, Charges;
    EntryCharged(call, actual, s.now, a);
    TotalAppend(s.recorded, EntryOf(call, actual, s.now), a);
  }

  /** A call's entry is on an account's bill exactly when its context charges the account. */
  lemma EntryCharged(call: Call, actual: real, now: int, a: Account)
    ensures EntryOf(call, actual, now).cost == actual
    ensures OnAccount(EntryOf(call, actual, now), a) <==> Charges(call.context, a)
  {
  }

  lemma SettleTallied(setup: Setup, s: State, id: nat, actual: real, recordFails: bool, a: Account)
    requires setup.budgets.Some? && id in s.calls && Tallied(s, a, setup.budgets.value, 0.0)
    ensures Tallied(SettleCall(setup, s, id, actual, recordFails), a, setup.budgets.value, 0.0)
  {
    hide CheckNow, Tallied, Windowless, Warnings, Reconciled, Noted, EntryOf, Charges;
    TalliedCalls(s, a, setup.budgets.value, 0.0);
    var call, reconciled := s.calls[id], Reconciled(s, id, actual, !recordFails);
    ReconciledTallied(s, id, actual, !recordFails, a, setup.budgets.value);
    if !recordFails {
      NotedTallied(setup, reconciled, call, actual, a, setup.budgets.value);
      CheckedTallied(setup, Noted(setup, reconciled, EntryOf(call, actual, s.now)), call.context, a, 0.0, 0.0);
    }
  }

  lemma FailTallied(s: State, id: nat, a: Account, budgets: Config)
    requires id in s.calls && Tallied(s, a, budgets, 0.0)
    ensures Tallied(FailCall(s, id), a, budgets, 0.0)
  {
    hide AccountKey, Distinct, Reconcile, Total, Charges, Windowless, InFlight, Drift;
    var call, key := s.calls[id], AccountKey(a);
    ReconcileAt(s.accounts, call.estimate, 0.0, call.scopes, key);
    InFlightWithout(s.calls, s.next, id, key);
    StrandedAppend(s.stranded, call, key);
    hide Stranded;
  }

  lemma ApplyTallied(setup: Setup, s: State, e: Event, a: Account)
    requires setup.budgets.Some? && WindowlessEvent(setup.budgets.value, e, a)
    requires Tallied(s, a, setup.budgets.value, 0.0)
    ensures Tallied(Apply(setup, s, e), a, setup.budgets.value, 0.0)
  {
    hide Tallied, Windowless, StartCall, FailCall, SettleCall;
    match e
    case Started(streamed, ctx, estimate) => StartTallied(setup, s, streamed, ctx, estimate, a);
    case Answered(id, actual, recordFails) => if id in s.calls { SettleTallied(setup, s, id, actual, recordFails, a); }
    case Broke(id) => if id in s.calls { FailTallied(s, id, a, setup.budgets.value); }
  }

  lemma ClockTallied(s: State, elapsed: nat, a: Account, budgets: Config)
    requires Tallied(s, a, budgets, 0.0)
    ensures Tallied(s.(now := s.now + elapsed), a, budgets, 0.0)
  {
    hide CallOk, AccountKey;
  }

  lemma AdvanceTallied(setup: Setup, s: State, step: Step, a: Account)
    requires setup.budgets.Some? && WindowlessEvent(setup.budgets.value, step.event, a)
    requires Tallied(s, a, setup.budgets.value, 0.0)
    ensures Tallied(Advance(setup, s, step), a, setup.budgets.value, 0.0)
  {
    hide Tallied, Apply, WindowlessEvent;
    ClockTallied(s, step.elapsed, a, setup.budgets.value);
    ApplyTallied(setup, s.(now := s.now + step.elapsed), step.event, a);
  }

  lemma {:induction false} AfterTallied(setup: Setup, start: int, steps: seq<Step>, a: Account)
    requires setup.budgets.Some?
    requires forall i :: 0 <= i < |steps| ==> WindowlessEvent(setup.budgets.value, steps[i].event, a)
    ensures Tallied(After(setup, start, steps), a, setup.budgets.value, 0.0)
  {
    if steps != [] {
      hide Tallied, Advance, WindowlessEvent;
      AfterTallied(setup, start, steps[..|steps| - 1], a);
      AdvanceTallied(setup, After(setup, start, steps[..|steps| - 1]), steps[|steps| - 1], a);
    }
  }

  /** Without windows, on every run: the accumulator is all that was ever recorded for the account, the
      estimates in flight, the estimates of complete calls whose router threw, and the drift of calls
      settled without being both reserved and recorded. */
  lemma LedgerGap(setup: Setup, start: int, steps: seq<Step>, a: Account)
    requires setup.budgets.Some?
    requires forall i :: 0 <= i < |steps| ==> WindowlessEvent(setup.budgets.value, steps[i].event, a)
    ensures var s := After(setup, start, steps);
            Spend(s.accounts, AccountKey(a))
            == Total(s.recorded, a) + InFlight(s.calls, s.next, AccountKey(a)) + Stranded(s.stranded, AccountKey(a))
               + Drift(s.settled, a)
  {
    AfterTallied(setup, start, steps, a);
    hide After;
  }

  // ---- The ledger ----

  function Last(entries: seq<Entry>, n: nat): seq<Entry> {
    if |entries| <= n then entries else entries[|entries| - n..]
  }

  function Capacity(maxEntries: int): nat {
    if maxEntries > 1 then maxEntries else 1
  }

  lemma RecordedKeepsLast(recorded: seq<Entry>, entry: Entry, maxEntries: int)
    ensures Recorded(Last(recorded, Capacity(maxEntries)), entry, maxEntries)
         == Last(recorded + [entry], Capacity(maxEntries))
  {
  }

  lemma AdvanceLedger(setup: Setup, s: State, step: Step)
    requires s.ledger == Last(s.recorded, Capacity(setup.maxEntries))
    ensures Advance(setup, s, step).ledger == Last(Advance(setup, s, step).recorded, Capacity(setup.maxEntries))
  {
    hide CheckNow, Reserve, Reconcile, Warnings, Recorded, Last, Capacity;
    var e, now := step.event, s.now + step.elapsed;
    if e.Answered? && e.id in s.calls {
      RecordedKeepsLast(s.recorded, EntryOf(s.calls[e.id], e.actual, now), setup.maxEntries);
    }
  }

  /** The ledger is the end of everything ever recorded, as long as its capacity; a capacity below one is one. */
  lemma {:induction false} LedgerIsRecent(setup: Setup, start: int, steps: seq<Step>)
    ensures var s := After(setup, start, steps); s.ledger == Last(s.recorded, Capacity(setup.maxEntries))
  {
    if steps != [] {
      hide Advance, Last, Capacity;
      LedgerIsRecent(setup, start, steps[..|steps| - 1]);
      AdvanceLedger(setup, After(setup, start, steps[..|steps| - 1]), steps[|steps| - 1]);
    } else {
      assert Init(start).ledger == Last([], Capacity(setup.maxEntries));
    }
  }

  // ---- When every enabled scope is hard ----

  predicate AllHard(budgets: Config, e: Event) {
    e.Started? ==>
      forall c :: c in Checks(budgets, e.context) && Enabled(c) ==> c.config.value.enforcement.GetOr(Hard) == Hard
  }

  /** The account is budgeted without a window wherever it is charged, every enabled scope is hard, and
      no record fails. */
  predicate Plain(budgets: Config, e: Event, a: Account) {
    && AllHard(budgets, e)
    && WindowlessEvent(budgets, e, a)
    && (e.Started? && Charges(e.context, a) ==> Enabled(AccountCheck(budgets, e.context, a)))
    && (e.Answered? ==> !e.recordFails)
  }

  predicate ReservedWhereCharged(call: Call, a: Account) {
    AccountKey(a) in call.scopes <==> Charges(call.context, a)
  }

  ghost predicate Complete(s: State, a: Account) {
    && (forall id :: id in s.calls ==> ReservedWhereCharged(s.calls[id], a))
    && (forall i :: 0 <= i < |s.settled| ==> s.settled[i].recorded && ReservedWhereCharged(s.settled[i].call, a))
  }

  lemma StartComplete(setup: Setup, s: State, e: Event, a: Account)
    requires setup.budgets.Some? && e.Started? && Plain(setup.budgets.value, e, a) && Complete(s, a)
    ensures Complete(StartCall(setup, s, e.streamed, e.context, e.estimate), a)
  {
    HardNeverSoft(s.accounts, Checks(setup.budgets.value, e.context), e.estimate, setup.threshold, s.now);
    TrackerCheck(setup, s, e.context, a, e.estimate);
    hide CheckAll, AccountKey, Checks, Ready, Warnings, Reserve, Charges;
  }

  lemma AdvanceComplete(setup: Setup, s: State, step: Step, a: Account)
    requires setup.budgets.Some? && Plain(setup.budgets.value, step.event, a) && Complete(s, a)
    ensures Complete(Advance(setup, s, step), a)
  {
    hide StartCall, ReservedWhereCharged, AllHard, CheckNow, Reconcile, Recorded, Warnings;
    if step.event.Started? { StartComplete(setup, s.(now := s.now + step.elapsed), step.event, a); }
  }

  lemma {:induction false} AfterComplete(setup: Setup, start: int, steps: seq<Step>, a: Account)
    requires setup.budgets.Some? && forall i :: 0 <= i < |steps| ==> Plain(setup.budgets.value, steps[i].event, a)
    ensures Complete(After(setup, start, steps), a)
  {
    if steps != [] {
      hide Complete, Advance, Plain;
      AfterComplete(setup, start, steps[..|steps| - 1], a);
      AdvanceComplete(setup, After(setup, start, steps[..|steps| - 1]), steps[|steps| - 1], a);
    }
  }

  lemma {:induction false} NoDrift(settled: seq<Settlement>, a: Account)
    requires forall i :: 0 <= i < |settled| ==> settled[i].recorded && ReservedWhereCharged(settled[i].call, a)
    ensures Drift(settled, a) == 0.0
  {
    if settled != [] { NoDrift(settled[..|settled| - 1], a); }
  }

  /** With hard scopes and nothing evicted, the accumulator is the ledger's total, the estimates in
      flight and the estimates of complete calls whose router threw. */
  lemma AccumulatorAgreesWithLedger(setup: Setup, start: int, steps: seq<Step>, a: Account)
    requires setup.budgets.Some? && forall i :: 0 <= i < |steps| ==> Plain(setup.budgets.value, steps[i].event, a)
    requires |After(setup, start, steps).recorded| <= setup.maxEntries
    ensures var s := After(setup, start, steps);
            Spend(s.accounts, AccountKey(a))
            == Total(s.ledger, a) + InFlight(s.calls, s.next, AccountKey(a)) + Stranded(s.stranded, AccountKey(a))
  {
    hide After, AllHard, WindowlessEvent;
    LedgerGap(setup, start, steps, a);
    AfterComplete(setup, start, steps, a);
    NoDrift(After(setup, start, steps).settled, a);
    LedgerIsRecent(setup, start, steps);
  }

  // ---- What a settlement leaves ----

  /** An answer that is recorded leaves one entry, the newest: its cost, and the execution, flow, user and time of
      the call. One that is not leaves the ledger alone, and so does an answer to no call. */
  lemma SettlementRecorded(setup: Setup, s: State, step: Step)
    ensures var e, s' := step.event, Advance(setup, s, step);
            var settles := e.Answered? && e.id in s.calls;
            && (s'.ledger == s.ledger || (s'.ledger != [] && settles && !e.recordFails))
            && (settles ==> e.id !in s'.calls)
            && (settles && !e.recordFails ==>
                  var ctx, entry := s.calls[e.id].context, s'.ledger[|s'.ledger| - 1];
                  && entry.cost == e.actual && entry.executionId == ctx.executionId && entry.flowName == ctx.flowName
                  && entry.userId == ctx.userId && entry.timestamp == s.now + step.elapsed)
  {
    hide CheckNow, Reserve, Reconcile, Warnings;
  }

  function OfExecution(entries: seq<Entry>, id: string): seq<Entry> {
    if entries == [] then []
    else
      var n := |entries| - 1;
      OfExecution(entries[..n], id) + if entries[n].executionId == id then [entries[n]] else []
  }

  /** Asking for one execution is asking its own entries. */
  lemma {:induction false} TotalOfExecution(entries: seq<Entry>, f: Filter, id: string)
    requires f.executionId.None?
    ensures FilterTotal(entries, f.(executionId := Some(id))) == FilterTotal(OfExecution(entries, id), f)
  {
    if entries != [] {
      var n := |entries| - 1;
      TotalOfExecution(entries[..n], f, id);
      var own := OfExecution(entries[..n], id);
      assert (own + [entries[n]])[..|own|] == own && own + [] == own;
    }
  }

  /** A moment splits what is spent into what was spent before it and what is spent from then on. */
  lemma {:induction false} SplitsByTime(entries: seq<Entry>, f: Filter, t: int)
    requires f.from.None? || f.from.value <= t
    requires f.until.None? || t <= f.until.value + 1
    ensures FilterTotal(entries, f)
         == FilterTotal(entries, f.(until := Some(t - 1))) + FilterTotal(entries, f.(from := Some(t)))
  {
    if entries != [] { SplitsByTime(entries[..|entries| - 1], f, t); }
  }

  // ---- What a failed call leaves ----

  lemma {:induction false} CheckKeys(accounts: Accounts, checks: seq<Check>, amount: real, threshold: real, now: int)
    ensures accounts.Keys <= CheckAll(accounts, checks, amount, threshold, now).accounts.Keys
  {
    if checks != [] {
      CheckKeys(accounts, checks[..|checks| - 1], amount, threshold, now);
      hide Ready;
    }
  }

  lemma {:induction false} ReserveKeys(accounts: Accounts, amount: real, scopes: seq<string>, now: int, key: string)
    ensures key in Reserve(accounts, amount, scopes, now) <==> key in accounts || key in scopes
  {
    if scopes != [] {
      var n := |scopes| - 1;
      ReserveKeys(accounts, amount, scopes[..n], now, key);
      assert scopes == scopes[..n] + [scopes[n]];
    }
  }

  lemma {:induction false} ReconcileKeys(accounts: Accounts, estimated: real, actual: real, scopes: seq<string>)
    ensures Reconcile(accounts, estimated, actual, scopes).Keys == accounts.Keys
  {
    if scopes != [] { ReconcileKeys(accounts, estimated, actual, scopes[..|scopes| - 1]); }
  }

  predicate Standing(call: Call, accounts: Accounts) {
    Distinct(call.scopes) && forall key :: key in call.scopes ==> key in accounts
  }

  /** Every call under way has reserved in accounts that are there, once in each. */
  ghost predicate AllStanding(s: State) {
    forall id :: id in s.calls ==> Standing(s.calls[id], s.accounts)
  }

  lemma StandingGrows(call: Call, before: Accounts, after: Accounts)
    requires Standing(call, before) && before.Keys <= after.Keys
    ensures Standing(call, after)
  {
    hide Distinct;
  }

  lemma CheckNowKeys(setup: Setup, s: State, ctx: Context, amount: real)
    ensures s.accounts.Keys <= CheckNow(setup, s, ctx, amount).accounts.Keys
    ensures Distinct(CheckNow(setup, s, ctx, amount).scopes)
  {
    if setup.budgets.Some? {
      CheckKeys(s.accounts, Checks(setup.budgets.value, ctx), amount, setup.threshold, s.now);
      PassedCoversAll(s.accounts, setup.budgets.value, ctx, amount, setup.threshold, s.now, 0);
    }
    hide CheckAll, Checks;
  }

  lemma StartStands(setup: Setup, s: State, streamed: bool, ctx: Context, estimate: real)
    requires AllStanding(s)
    ensures AllStanding(StartCall(setup, s, streamed, ctx, estimate))
  {
    CheckNowKeys(setup, s, ctx, estimate);
    var o, s' := CheckNow(setup, s, ctx, estimate), StartCall(setup, s, streamed, ctx, estimate);
    hide CheckNow, Distinct, Warnings;
    forall key ensures key in Reserve(o.accounts, estimate, o.scopes, s.now) <==> key in o.accounts || key in o.scopes {
      ReserveKeys(o.accounts, estimate, o.scopes, s.now, key);
    }
    hide Reserve;
    forall id | id in s'.calls ensures Standing(s'.calls[id], s'.accounts) {
      if id in s.calls && s'.calls[id] == s.calls[id] { StandingGrows(s.calls[id], s.accounts, s'.accounts); }
    }
  }

  lemma SettleStands(setup: Setup, s: State, id: nat, actual: real, recordFails: bool)
    requires AllStanding(s) && id in s.calls
    ensures AllStanding(SettleCall(setup, s, id, actual, recordFails))
  {
    var call, s' := s.calls[id], SettleCall(setup, s, id, actual, recordFails);
    ReconcileKeys(s.accounts, call.estimate, actual, call.scopes);
    CheckNowKeys(setup, Noted(setup, Reconciled(s, id, actual, !recordFails), EntryOf(call, actual, s.now)),
                 call.context, 0.0);
    hide CheckNow, Distinct, Warnings, Reconcile, Recorded, EntryOf, Standing;
    forall other | other in s'.calls ensures Standing(s'.calls[other], s'.accounts) {
      StandingGrows(s.calls[other], s.accounts, s'.accounts);
    }
  }

  lemma FailStands(s: State, id: nat)
    requires AllStanding(s) && id in s.calls
    ensures AllStanding(FailCall(s, id))
  {
    ReconcileKeys(s.accounts, s.calls[id].estimate, 0.0, s.calls[id].scopes);
    hide Distinct, Reconcile;
  }

  lemma AdvanceStands(setup: Setup, s: State, step: Step)
    requires AllStanding(s)
    ensures AllStanding(Advance(setup, s, step))
  {
    var later := s.(now := s.now + step.elapsed);
    assert AllStanding(later);
    hide StartCall, SettleCall, FailCall, AllStanding;
    match step.event
    case Started(streamed, ctx, estimate) => StartStands(setup, later, streamed, ctx, estimate);
    case Answered(id, actual, recordFails) =>
      if id in s.calls { SettleStands(setup, later, id, actual, recordFails); }
    case Broke(id) => if id in s.calls { FailStands(later, id); }
  }

  lemma {:induction false} AfterStands(setup: Setup, start: int, steps: seq<Step>)
    ensures AllStanding(After(setup, start, steps))
  {
    if steps != [] {
      AfterStands(setup, start, steps[..|steps| - 1]);
      AdvanceStands(setup, After(setup, start, steps[..|steps| - 1]), steps[|steps| - 1]);
      hide Advance, AllStanding;
    }
  }

  /** After any run, a call that fails is over and leaves no entry. A stream gives back what it reserved in each
      of its accounts; a complete call leaves its estimate there for good. */
  lemma FailureReleases(setup: Setup, start: int, steps: seq<Step>, id: nat, key: string)
    requires id in After(setup, start, steps).calls
    ensures var s := After(setup, start, steps);
            var call, s' := s.calls[id], Apply(setup, s, Broke(id));
            && s'.calls == s.calls - {id} && s'.ledger == s.ledger && s'.warned == s.warned
            && Spend(s'.accounts, key)
               == Spend(s.accounts, key) - (if call.streamed && key in call.scopes then call.estimate else 0.0)
            && s'.stranded == s.stranded + (if call.streamed then [] else [call])
  {
    AfterStands(setup, start, steps);
    hide After;
    var call, accounts := After(setup, start, steps).calls[id], After(setup, start, steps).accounts;
    assert Standing(call, accounts);
    ReconcileAt(accounts, call.estimate, 0.0, call.scopes, key);
    hide Reconcile, Distinct;
  }
}
