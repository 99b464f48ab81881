/** The ledger, the budget enforcer and the cost tracker as objects that their methods change in place. */
module CostObjects {
  import opened Wrappers
  import opened Budgets
  import Checking = BudgetChecks
  import Tracking = CostTracking
  import opened CostTracking
  import opened CostTheorems

  class InMemoryCostLedger {
    const maxEntries: int
    var entries: seq<Entry>
    ghost var all: seq<Entry>

    ghost predicate Valid()
      reads this
    {
      entries == Last(all, Capacity(maxEntries))
    }

    constructor (maxEntries: int)
      ensures this.maxEntries == maxEntries && entries == [] && all == [] && Valid()
    {
      this.maxEntries := maxEntries;
      entries, all := [], [];
    }

    method Record(entry: Entry)
      requires Valid()
      modifies this
      ensures Valid() && all == old(all) + [entry]
      ensures entries == Recorded(old(entries), entry, maxEntries)
    {
      RecordedKeepsLast(all, entry, maxEntries);
      all := all + [entry];
      if |entries| >= maxEntries {
        if |entries| > 0 {
          entries := entries[1..];
        }
      }
      entries := entries + [entry];
    }

    method GetTotal(filter: Filter) returns (total: real)
      ensures total == FilterTotal(entries, filter)
    {
      total := 0.0;
      for i := 0 to |entries|
        invariant total == FilterTotal(entries[..i], filter)
      {
        assert entries[..i + 1][..i] == entries[..i];
        if Matches(entries[i], filter) {
          total := total + entries[i].cost;
        }
      }
      assert entries[..|entries|] == entries;
    }

    method Query(filter: Filter) returns (found: seq<Entry>)
      ensures found == Matching(entries, filter)
    {
      found := [];
      for i := 0 to |entries|
        invariant found == Matching(entries[..i], filter)
      {
        assert entries[..i + 1][..i] == entries[..i];
        if Matches(entries[i], filter) {
          found := found + [entries[i]];
        }
      }
      assert entries[..|entries|] == entries;
    }
  }

  /** The entries a filter selects, in order. */
  function Matching(entries: seq<Entry>, filter: Filter): (found: seq<Entry>)
    ensures forall e :: e in found <==> e in entries && Matches(e, filter)
  {
    if entries == [] then []
    else
      var n := |entries| - 1;
      Matching(entries[..n], filter) + if Matches(entries[n], filter) then [entries[n]] else []
  }

  /** The total of a filter is the total of what it selects. */
  lemma {:induction false} TotalOfMatching(entries: seq<Entry>, filter: Filter)
    ensures FilterTotal(Matching(entries, filter), AccountFilter(Everyone)) == FilterTotal(entries, filter)
  {
    if entries != [] {
      var n := |entries| - 1;
      TotalOfMatching(entries[..n], filter);
      if Matches(entries[n], filter) {
        TotalAppend(Matching(entries[..n], filter), entries[n], Everyone);
      } else {
        assert Matching(entries, filter) == Matching(entries[..n], filter);
      }
    }
  }

  class BudgetEnforcer {
    var accumulators: Accounts
    var now: int

    constructor (now: int)
      ensures accumulators == map[] && this.now == now
    {
      accumulators, this.now := map[], now;
    }

    method GetOrCreateAccumulator(key: string, window: Option<Window>)
      modifies `accumulators
      ensures accumulators == old(accumulators)[key := if key in old(accumulators) then old(accumulators)[key]
                                                       else Fresh(window, now)]
    {
      if key !in accumulators {
        var (start, end) := Bounds(window, now);
        accumulators := accumulators[key := Accumulator(0.0, start, end, false)];
      } else {
        assert accumulators[key := accumulators[key]] == accumulators;
      }
    }

    method MaybeResetWindow(key: string, window: Option<Window>)
      requires key in accumulators
      modifies `accumulators
      ensures accumulators == old(accumulators)[key := MaybeReset(old(accumulators)[key], window, now)]
    {
      var acc := accumulators[key];
      if acc.end.Some? && now >= acc.end.value {
        var (start, end) := Bounds(window, now);
        accumulators := accumulators[key := acc.(spend := 0.0, start := start, end := end, warned := false)];
      } else {
        assert accumulators[key := acc] == accumulators;
      }
    }

    /** One turn of the loop over the scopes; the turns after a scope was exceeded do nothing. */
    method CheckOne(o: Outcome, c: Check, amount: real, threshold: real) returns (after: Outcome)
      requires o.verdict.Passed? && o.accounts == accumulators
      modifies `accumulators
      ensures after == CheckScope(o, c, amount, threshold, now) && accumulators == after.accounts
    {
      if c.config.None? || c.skip {
        return o;
      }
      var scope := c.config.value;
      var enforcement := scope.enforcement.GetOr(Hard);
      if enforcement == Disabled {
        return o;
      }
      after := o.(scopes := o.scopes + [c.key]);
      if c.level == PerRequest {
        if amount > scope.limit {
          after := after.(verdict := Exceeds(c, 0.0));
        }
        return;
      }
      GetOrCreateAccumulator(c.key, scope.window);
      MaybeResetWindow(c.key, scope.window);
      var acc := accumulators[c.key];
      assert acc == Ready(o.accounts, c.key, scope.window, now);
      assert accumulators == o.accounts[c.key := acc];
      hide Ready;
      after := after.(accounts := accumulators);
      if acc.spend + amount > scope.limit {
        after := after.(verdict := Exceeds(c, acc.spend));
      } else if !acc.warned && acc.spend + amount >= scope.limit * threshold {
        accumulators := accumulators[c.key := acc.(warned := true)];
        after := after.(accounts := accumulators,
                        warnings := after.warnings + [Warning(c.level, c.key, acc.spend + amount, scope.limit)]);
      }
    }

    method CheckBudgets(budgets: Option<Config>, ctx: Context, amount: real, threshold: real) returns (o: Outcome)
      modifies `accumulators
      ensures o == Budgets.CheckBudgets(old(accumulators), budgets, ctx, amount, threshold, now)
      ensures accumulators == o.accounts
    {
      hide CheckScope;
      o := Outcome(accumulators, Passed, [], []);
      if budgets.None? {
        return;
      }
      var checks := Checks(budgets.value, ctx);
      ghost var accounts := accumulators;
      for i := 0 to |checks|
        invariant o == CheckAll(accounts, checks[..i], amount, threshold, now) && accumulators == o.accounts
      {
        assert checks[..i + 1][..i] == checks[..i];
        if o.verdict.Passed? {
          o := CheckOne(o, checks[i], amount, threshold);
        } else {
          Checking.ScopeAfterwards(o, checks[i], amount, threshold, now);
        }
      }
      assert checks[..|checks|] == checks;
    }

    method ReserveCost(amount: real, scopes: seq<string>)
      modifies `accumulators
      ensures accumulators == Reserve(old(accumulators), amount, scopes, now)
    {
      for i := 0 to |scopes|
        invariant accumulators == Reserve(old(accumulators), amount, scopes[..i], now)
      {
        assert scopes[..i + 1][..i] == scopes[..i];
        var key := scopes[i];
        if key in accumulators {
          accumulators := accumulators[key := accumulators[key].(spend := accumulators[key].spend + amount)];
        } else {
          accumulators := accumulators[key := Accumulator(amount, now, Some(now + DAY), false)];
        }
      }
      assert scopes[..|scopes|] == scopes;
    }

    method ReconcileCost(estimated: real, actual: real, scopes: seq<string>)
      modifies `accumulators
      ensures accumulators == Reconcile(old(accumulators), estimated, actual, scopes)
    {
      var difference := estimated - actual;
      for i := 0 to |scopes|
        invariant accumulators == Reconcile(old(accumulators), estimated, actual, scopes[..i])
      {
        assert scopes[..i + 1][..i] == scopes[..i];
        var key := scopes[i];
        if key in accumulators {
          accumulators := accumulators[key := accumulators[key].(spend := accumulators[key].spend - difference)];
        }
      }
      assert scopes[..|scopes|] == scopes;
    }
  }

  /** `wrapComplete` and `wrapStream`, cut where they wait for the router. */
  class CostTracker {
    const setup: Setup
    const enforcer: BudgetEnforcer
    const ledger: InMemoryCostLedger
    var calls: map<nat, Call>
    var next: nat
    ghost var stranded: seq<Call>
    ghost var settled: seq<Settlement>
    ghost var warned: seq<(string, int)>

    ghost predicate Valid()
      reads this, ledger
    {
      ledger.Valid() && ledger.maxEntries == setup.maxEntries
    }

    ghost function View(): State
      reads this, enforcer, ledger
    {
      State(enforcer.accumulators, ledger.entries, calls, next, enforcer.now, ledger.all, stranded, settled, warned)
    }

    constructor (setup: Setup, now: int)
      ensures Valid() && View() == Init(now) && this.setup == setup
      ensures fresh(enforcer) && fresh(ledger)
    {
      this.setup := setup;
      enforcer := new BudgetEnforcer(now);
      ledger := new InMemoryCostLedger(setup.maxEntries);
      calls, next, stranded, settled, warned := map[], 0, [], [], [];
    }

    method CheckNow(ctx: Context, amount: real) returns (o: Outcome)
      requires Valid()
      modifies this`warned, enforcer`accumulators
      ensures Valid() && o == Tracking.CheckNow(setup, old(View()), ctx, amount) && View() == Checked(old(View()), o)
    {
      hide CheckBudgets, Warnings;
      o := enforcer.CheckBudgets(setup.budgets, ctx, amount, setup.threshold);
      warned := warned + Warnings(o, o.warnings);
    }

    /** Up to the router: `None` when a hard scope refuses the call. */
    method Begin(streamed: bool, ctx: Context, estimate: real) returns (id: Option<nat>)
      requires Valid()
      modifies this, enforcer`accumulators
      ensures Valid() && View() == StartCall(setup, old(View()), streamed, ctx, estimate)
      ensures id.None? <==> View().next == old(View()).next
    {
      hide Tracking.CheckNow, Warnings, Reserve;
      var o := CheckNow(ctx, estimate);
      if o.verdict.HardExceeded? {
        return None;
      }
      ReserveNothing(o.accounts, estimate, enforcer.now);
      if |o.scopes| > 0 {
        enforcer.ReserveCost(estimate, o.scopes);
      }
      id := Some(next);
      calls := calls[next := Call(streamed, estimate, o.scopes, ctx)];
      next := next + 1;
    }

    /** Takes a call off the ones that wait. */
    method Reconcile(id: nat, actual: real, ghost recorded: bool) returns (call: Call)
      requires Valid() && id in calls
      modifies this, enforcer`accumulators
      ensures Valid() && call == old(View()).calls[id] && View() == Reconciled(old(View()), id, actual, recorded)
    {
      hide Budgets.Reconcile;
      call := calls[id];
      calls := calls - {id};
      settled := settled + [Settlement(call, actual, recorded)];
      ReserveNothing(enforcer.accumulators, call.estimate, enforcer.now);
      if |call.scopes| > 0 {
        enforcer.ReconcileCost(call.estimate, actual, call.scopes);
      }
    }

    /** The rest of the call once the router has answered. */
    method Settle(id: nat, actual: real, recordFails: bool) returns (delivered: bool)
      requires Valid() && id in calls
      modifies this, enforcer`accumulators, ledger
      ensures Valid() && View() == SettleCall(setup, old(View()), id, actual, recordFails)
      ensures delivered == Delivered(setup, old(View()), id, actual, recordFails)
    {
      hide Tracking.CheckNow, Checked, Reconciled, Recorded;
      ghost var before := View();
      var call := Reconcile(id, actual, !recordFails);
      ReconciledClock(before, id, actual, !recordFails);
      if recordFails {
        return true;
      }
      var entry := EntryOf(call, actual, enforcer.now);
      ledger.Record(entry);
      if !call.streamed && setup.listens {
        var o := CheckNow(call.context, 0.0);
        return !o.verdict.HardExceeded?;
      }
      return true;
    }

    method Fail(id: nat)
      requires Valid() && id in calls
      modifies this, enforcer`accumulators
      ensures Valid() && View() == FailCall(old(View()), id)
    {
      hide Budgets.Reconcile;
      var call := calls[id];
      calls := calls - {id};
      if call.streamed {
        ReserveNothing(enforcer.accumulators, call.estimate, enforcer.now);
        if |call.scopes| > 0 {
          enforcer.ReconcileCost(call.estimate, 0.0, call.scopes);
        }
      } else {
        stranded := stranded + [call];
      }
    }

    /** Whatever happens next to the tracker: the objects take the step of the specification. */
    method Perform(step: Step)
      requires Valid()
      modifies this, enforcer, ledger
      ensures Valid() && View() == Advance(setup, old(View()), step)
    {
      hide StartCall, SettleCall, FailCall;
      enforcer.now := enforcer.now + step.elapsed;
      match step.event
      case Started(streamed, ctx, estimate) => var id := Begin(streamed, ctx, estimate);
      case Answered(id, actual, recordFails) => if id in calls { var delivered := Settle(id, actual, recordFails); }
      case Broke(id) => if id in calls { Fail(id); }
    }
  }

  lemma ReserveNothing(accounts: Accounts, amount: real, now: int)
    ensures Reserve(accounts, amount, [], now) == accounts
    ensures forall actual: real :: Budgets.Reconcile(accounts, amount, actual, []) == accounts
  {
  }

  lemma ReconciledClock(s: State, id: nat, actual: real, recorded: bool)
    requires id in s.calls
    ensures Reconciled(s, id, actual, recorded).now == s.now
  {
  }
}
