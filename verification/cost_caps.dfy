/** Hard caps: what an admitted call leaves, what a refused one changes, and how far spend can pass a limit. */
module CostCaps {
  import opened Wrappers
  import opened Budgets
  import opened BudgetChecks
  import opened CostTracking
  import opened CostTheorems

  predicate HardScope(c: Check) {
    c.config.Some? && c.config.value.enforcement.GetOr(Hard) == Hard
  }

  /** A call that was admitted leaves each hard scope it reserved in at most at its limit. */
  lemma HardCap(setup: Setup, s: State, streamed: bool, ctx: Context, estimate: real, a: Account)
    requires setup.budgets.Some? && HardScope(AccountCheck(setup.budgets.value, ctx, a))
    ensures var s' := StartCall(setup, s, streamed, ctx, estimate);
            (s'.next > s.next && s.next in s'.calls && AccountKey(a) in s'.calls[s.next].scopes ==>
               Spend(s'.accounts, AccountKey(a)) <= AccountCheck(setup.budgets.value, ctx, a).config.value.limit)
  {
    TrackerCheck(setup, s, ctx, a, estimate);
    var o := CheckNow(setup, s, ctx, estimate);
    hide CheckNow, AccountKey, Checks, Ready, Warnings;
    ReserveAt(o.accounts, estimate, o.scopes, s.now, AccountKey(a));
    hide Reserve, Distinct;
  }

  /** With every enabled scope hard, an admitted call reserves in every enabled scope it charges. */
  lemma EveryScopeReserved(setup: Setup, s: State, streamed: bool, ctx: Context, estimate: real, a: Account)
    requires setup.budgets.Some? && AllHard(setup.budgets.value, Started(streamed, ctx, estimate))
    requires Charges(ctx, a) && Enabled(AccountCheck(setup.budgets.value, ctx, a))
    ensures var s' := StartCall(setup, s, streamed, ctx, estimate);
            s'.next > s.next ==> s.next in s'.calls && AccountKey(a) in s'.calls[s.next].scopes
  {
    HardNeverSoft(s.accounts, Checks(setup.budgets.value, ctx), estimate, setup.threshold, s.now);
    TrackerCheck(setup, s, ctx, a, estimate);
    hide CheckAll, AccountKey, Checks, Ready, Warnings, Reserve;
  }

  /** A refused call changes the spend of no account, except by the reset of a window that ended. */
  lemma RefusedChangesNothing(setup: Setup, s: State, streamed: bool, ctx: Context, estimate: real, a: Account)
    requires StartCall(setup, s, streamed, ctx, estimate).next == s.next
    ensures var s', key := StartCall(setup, s, streamed, ctx, estimate), AccountKey(a);
            (s'.calls == s.calls && s'.recorded == s.recorded
             && (Spend(s'.accounts, key) == Spend(s.accounts, key)
                 || (Spend(s'.accounts, key) == 0.0 && key in s.accounts
                     && s.accounts[key].end.Some? && s.now >= s.accounts[key].end.value)))
  {
    if setup.budgets.Some? { TrackerCheck(setup, s, ctx, a, estimate); }
    hide CheckNow, AccountKey, Checks, Warnings, Reserve;
  }

  // ---- The overrun bound ----

  /** Estimates are not negative, and where the account is charged its scope is hard with this limit, or off. */
  predicate Capped(budgets: Config, e: Event, a: Account, limit: real) {
    e.Started? ==>
      && e.estimate >= 0.0
      && (Charges(e.context, a) ==>
            var c := AccountCheck(budgets, e.context, a);
            Enabled(c) ==> HardScope(c) && c.config.value.limit == limit)
  }

  ghost predicate Within(s: State, a: Account, limit: real) {
    && (forall id :: id in s.calls ==> s.calls[id].estimate >= 0.0 && Distinct(s.calls[id].scopes))
    && Spend(s.accounts, AccountKey(a)) <= limit + Overrun(s.settled, AccountKey(a))
  }

  lemma {:induction false} OverrunPositive(settled: seq<Settlement>, key: string)
    ensures Overrun(settled, key) >= 0.0
  {
    if settled != [] { OverrunPositive(settled[..|settled| - 1], key); }
  }

  lemma CheckedWithin(setup: Setup, s: State, ctx: Context, amount: real, a: Account, limit: real)
    requires Within(s, a, limit) && limit >= 0.0
    ensures Within(Checked(s, CheckNow(setup, s, ctx, amount)), a, limit)
  {
    OverrunPositive(s.settled, AccountKey(a));
    if setup.budgets.Some? { TrackerCheck(setup, s, ctx, a, amount); }
    hide CheckAll, AccountKey, Checks, Warnings, Overrun, Distinct;
  }

  lemma StartWithin(setup: Setup, s: State, e: Event, a: Account, limit: real)
    requires setup.budgets.Some? && e.Started? && Capped(setup.budgets.value, e, a, limit)
    requires Within(s, a, limit) && limit >= 0.0
    ensures Within(StartCall(setup, s, e.streamed, e.context, e.estimate), a, limit)
  {
    OverrunPositive(s.settled, AccountKey(a));
    CheckedWithin(setup, s, e.context, e.estimate, a, limit);
    TrackerCheck(setup, s, e.context, a, e.estimate);
    var o := CheckNow(setup, s, e.context, e.estimate);
    ReserveAt(o.accounts, e.estimate, o.scopes, s.now, AccountKey(a));
    hide CheckNow, AccountKey, Checks, Warnings, Overrun, Distinct, Ready, Reserve;
  }

  lemma OverrunAppend(settled: seq<Settlement>, more: Settlement, key: string)
    ensures Overrun(settled + [more], key)
         == Overrun(settled, key) + if key in more.call.scopes then Over(more.call.estimate, more.actual) else 0.0
  {
    assert (settled + [more])[..|settled|] == settled;
  }

  lemma ReconciledWithin(s: State, id: nat, actual: real, recorded: bool, a: Account, limit: real)
    requires id in s.calls && Within(s, a, limit)
    ensures Within(Reconciled(s, id, actual, recorded), a, limit)
  {
    hide AccountKey, Overrun, Distinct, Reconcile;
    var call, key := s.calls[id], AccountKey(a);
    ReconcileAt(s.accounts, call.estimate, actual, call.scopes, key);
    OverrunAppend(s.settled, Settlement(call, actual, recorded), key);
  }

  lemma SettleWithin(setup: Setup, s: State, id: nat, actual: real, recordFails: bool, a: Account, limit: real)
    requires id in s.calls && Within(s, a, limit) && limit >= 0.0
    ensures Within(SettleCall(setup, s, id, actual, recordFails), a, limit)
  {
    hide AccountKey, Overrun, Distinct, Checked, CheckNow, Reconciled, Recorded, EntryOf;
    ReconciledWithin(s, id, actual, !recordFails, a, limit);
    var call, reconciled := s.calls[id], Reconciled(s, id, actual, !recordFails);
    var noted := Noted(setup, reconciled, EntryOf(call, actual, s.now));
    CheckedWithin(setup, noted, call.context, 0.0, a, limit);
  }

  lemma FailWithin(s: State, id: nat, a: Account, limit: real)
    requires id in s.calls && Within(s, a, limit)
    ensures Within(FailCall(s, id), a, limit)
  {
    hide AccountKey, Overrun, Distinct, Reconcile;
    var call := s.calls[id];
    ReconcileAt(s.accounts, call.estimate, 0.0, call.scopes, AccountKey(a));
  }

  lemma AdvanceWithin(setup: Setup, s: State, step: Step, a: Account, limit: real)
    requires setup.budgets.Some? && Capped(setup.budgets.value, step.event, a, limit)
    requires Within(s, a, limit) && limit >= 0.0
    ensures Within(Advance(setup, s, step), a, limit)
  {
    hide Within, StartCall, SettleCall, FailCall, Capped;
    var later := s.(now := s.now + step.elapsed);
    assert Within(later, a, limit) by { ClockWithin(s, step.elapsed, a, limit); }
    match step.event
    case Started(streamed, ctx, estimate) => StartWithin(setup, later, step.event, a, limit);
    case Answered(id, actual, recordFails) =>
      if id in s.calls { SettleWithin(setup, later, id, actual, recordFails, a, limit); }
    case Broke(id) => if id in s.calls { FailWithin(later, id, a, limit); }
  }

  lemma ClockWithin(s: State, elapsed: nat, a: Account, limit: real)
    requires Within(s, a, limit)
    ensures Within(s.(now := s.now + elapsed), a, limit)
  {
  }

  lemma {:induction false} AfterWithin(setup: Setup, start: int, steps: seq<Step>, a: Account, limit: real)
    requires setup.budgets.Some? && limit >= 0.0
    requires forall i :: 0 <= i < |steps| ==> Capped(setup.budgets.value, steps[i].event, a, limit)
    ensures Within(After(setup, start, steps), a, limit)
  {
    if steps != [] {
      hide Within, Advance, Capped;
      AfterWithin(setup, start, steps[..|steps| - 1], a, limit);
      AdvanceWithin(setup, After(setup, start, steps[..|steps| - 1]), steps[|steps| - 1], a, limit);
    }
  }

  /** At all times an account's spend is at most its limit and what settled calls have cost beyond
      their estimates, whatever the windows do. */
  lemma SpendBound(setup: Setup, start: int, steps: seq<Step>, a: Account, limit: real)
    requires setup.budgets.Some? && limit >= 0.0
    requires forall i :: 0 <= i < |steps| ==> Capped(setup.budgets.value, steps[i].event, a, limit)
    ensures var s := After(setup, start, steps);
            Spend(s.accounts, AccountKey(a)) <= limit + Overrun(s.settled, AccountKey(a))
  {
    AfterWithin(setup, start, steps, a, limit);
    hide After;
  }

  // ---- A soft scope hides the later ones ----

  /** The admitted call reserves in an enabled scope it charges if and only if no scope checked before has
      run out of room. */
  lemma ReservedExactly(setup: Setup, s: State, streamed: bool, ctx: Context, estimate: real, a: Account)
    requires setup.budgets.Some? && Charges(ctx, a) && Enabled(AccountCheck(setup.budgets.value, ctx, a))
    ensures var s', checks := StartCall(setup, s, streamed, ctx, estimate), Checks(setup.budgets.value, ctx);
            s'.next > s.next ==>
              && s.next in s'.calls
              && (AccountKey(a) in s'.calls[s.next].scopes
                  <==> forall i :: 0 <= i < Place(a) ==> !OverLimit(s.accounts, checks[i], estimate, s.now))
  {
    hide CheckAll, AccountKey, Checks, OverLimit, Warnings, Reserve;
    var budgets := setup.budgets.value;
    ListedExactly(s.accounts, budgets, ctx, estimate, setup.threshold, s.now, Place(a));
    CheckOfAccount(budgets, ctx, a, Place(a));
  }

  /** The first scope without room is not hard: then the call goes through, and an account whose scope comes
      later is never charged for it, although the ledger has the cost. */
  lemma SoftScopeHidesLater(setup: Setup, s: State, ctx: Context, estimate: real, actual: real, i: nat, a: Account)
    requires setup.budgets.Some? && i < Place(a) && Charges(ctx, a) && s.next !in s.calls
    requires var checks := Checks(setup.budgets.value, ctx);
             && OverLimit(s.accounts, checks[i], estimate, s.now)
             && checks[i].config.value.enforcement == Some(Soft)
             && forall k :: 0 <= k < i ==> !OverLimit(s.accounts, checks[k], estimate, s.now)
    ensures var started := StartCall(setup, s, true, ctx, estimate);
            s.next in started.calls
            && (var settled := SettleCall(setup, started, s.next, actual, false);
                Spend(settled.accounts, AccountKey(a)) == Spend(s.accounts, AccountKey(a))
                && Total(settled.recorded, a) == Total(s.recorded, a) + actual)
  {
    var budgets, key := setup.budgets.value, AccountKey(a);
    var o := CheckNow(setup, s, ctx, estimate);
    assert !o.verdict.HardExceeded? by {
      FirstOverDecides(s.accounts, budgets, ctx, estimate, setup.threshold, s.now, i, 4);
      assert Checks(budgets, ctx)[..4] == Checks(budgets, ctx);
    }
    HiddenKey(setup, s, ctx, estimate, i, a);
    hide AccountKey, Checks, CheckAll, Warnings, Ready, CheckNow;
    ReserveAt(o.accounts, estimate, o.scopes, s.now, key);
    var started := StartCall(setup, s, true, ctx, estimate);
    ReconcileAt(started.accounts, estimate, actual, o.scopes, key);
    TotalAppend(s.recorded, EntryOf(started.calls[s.next], actual, s.now), a);
    hide Reserve, Reconcile, Total;
  }

  lemma HiddenKey(setup: Setup, s: State, ctx: Context, estimate: real, i: nat, a: Account)
    requires setup.budgets.Some? && i < Place(a) && Charges(ctx, a)
    requires OverLimit(s.accounts, Checks(setup.budgets.value, ctx)[i], estimate, s.now)
    ensures var o := CheckNow(setup, s, ctx, estimate);
            AccountKey(a) !in o.scopes && SameAt(s.accounts, o.accounts, AccountKey(a)) && Distinct(o.scopes)
  {
    hide CheckAll, AccountKey, Checks, OverLimit, Distinct;
    var budgets := setup.budgets.value;
    TrackerCheck(setup, s, ctx, a, estimate);
    if Enabled(AccountCheck(budgets, ctx, a)) {
      ListedExactly(s.accounts, budgets, ctx, estimate, setup.threshold, s.now, Place(a));
      CheckOfAccount(budgets, ctx, a, Place(a));
    }
  }

  // ---- The check after a call can lose its answer ----

  /** The scope is the first without room, and it is hard. */
  predicate RefusesFirst(accounts: Accounts, budgets: Config, ctx: Context, amount: real, now: int, i: nat) {
    && i < 4 && OverLimit(accounts, Checks(budgets, ctx)[i], amount, now)
    && Checks(budgets, ctx)[i].config.value.enforcement.GetOr(Hard) == Hard
    && forall k :: 0 <= k < i ==> !OverLimit(accounts, Checks(budgets, ctx)[k], amount, now)
  }

  lemma RefusedExactly(
    accounts: Accounts, budgets: Config, ctx: Context, amount: real, threshold: real, now: int)
    ensures CheckAll(accounts, Checks(budgets, ctx), amount, threshold, now).verdict.HardExceeded?
            <==> exists i: nat :: RefusesFirst(accounts, budgets, ctx, amount, now, i)
  {
    hide Checks, CheckAll, OverLimit;
    var checks := Checks(budgets, ctx);
    assert checks[..4] == checks;
    PassedExactly(accounts, budgets, ctx, amount, threshold, now, 4);
    if i :| 0 <= i < 4 && OverLimit(accounts, checks[i], amount, now) {
      var first := FirstOver(accounts, checks, amount, now, i);
      FirstOverDecides(accounts, budgets, ctx, amount, threshold, now, first, 4);
      forall i: nat | RefusesFirst(accounts, budgets, ctx, amount, now, i) ensures i == first {}
      if CheckAll(accounts, checks, amount, threshold, now).verdict.HardExceeded? {
        assert RefusesFirst(accounts, budgets, ctx, amount, now, first);
      }
    }
  }

  lemma {:induction false} FirstOver(accounts: Accounts, checks: seq<Check>, amount: real, now: int, i: nat)
    returns (first: nat)
    requires i < |checks| && OverLimit(accounts, checks[i], amount, now)
    ensures first <= i && OverLimit(accounts, checks[first], amount, now)
    ensures forall k :: 0 <= k < first ==> !OverLimit(accounts, checks[k], amount, now)
    decreases i
  {
    hide OverLimit;
    first := i;
    if k: nat :| k < i && OverLimit(accounts, checks[k], amount, now) {
      first := FirstOver(accounts, checks, amount, now, k);
    }
  }

  /** The answer of a call is lost, paid and recorded, if and only if the call is complete, someone listens, and of
      the scopes that are over their limits once its cost is in them the first is hard. */
  lemma AnswerLostExactly(setup: Setup, s: State, id: nat, actual: real, recordFails: bool)
    requires id in s.calls && setup.budgets.Some?
    ensures var call := s.calls[id];
            !Delivered(setup, s, id, actual, recordFails)
            <==> && !recordFails && !call.streamed && setup.listens
                 && exists i: nat ::
                      RefusesFirst(Reconcile(s.accounts, call.estimate, actual, call.scopes), setup.budgets.value,
                                   call.context, 0.0, s.now, i)
  {
    var call := s.calls[id];
    RefusedExactly(Reconcile(s.accounts, call.estimate, actual, call.scopes), setup.budgets.value, call.context, 0.0,
                   setup.threshold, s.now);
    hide CheckAll, Checks, Reconcile, RefusesFirst, EntryOf, Recorded;
    assert Delivered(setup, s, id, actual, recordFails)
      <==> recordFails || call.streamed || !setup.listens
           || !CheckAll(Reconcile(s.accounts, call.estimate, actual, call.scopes),
                        Checks(setup.budgets.value, call.context), 0.0, setup.threshold, s.now).verdict.HardExceeded?;
  }

  /** A budget of ten for everyone. */
  function TenForAll(threshold: real): Setup {
    Setup(Some(Config(None, None, None, Some(Scope(10.0, None, Some(Unbounded))))), threshold, true, 100)
  }

  function Someone(): Context {
    Context("a", "f", None, None)
  }

  /** Checks without a configuration are passed over. */
  lemma {:induction false} Skipped(accounts: Accounts, checks: seq<Check>, amount: real, threshold: real, now: int)
    requires forall i :: 0 <= i < |checks| ==> checks[i].config.None?
    ensures CheckAll(accounts, checks, amount, threshold, now) == Outcome(accounts, Passed, [], [])
  {
    if checks != [] {
      assert !Enabled(checks[|checks| - 1]);
      Skipped(accounts, checks[..|checks| - 1], amount, threshold, now);
    }
  }

  /** Only the budget for everyone is checked. */
  lemma OnlyOverall(accounts: Accounts, threshold: real, amount: real, now: int)
    ensures var setup := TenForAll(threshold);
            var checks := Checks(setup.budgets.value, Someone());
            CheckAll(accounts, checks, amount, threshold, now)
            == CheckAccumulator(Outcome(accounts, Passed, [], ["global"]), checks[3], amount, threshold, now)
  {
    var checks := Checks(TenForAll(threshold).budgets.value, Someone());
    Skipped(accounts, checks[..3], amount, threshold, now);
    hide CheckAccumulator;
    assert checks[..|checks| - 1] == checks[..3];
  }

  /** A call estimated at five is let in. */
  lemma FiveGoesIn(threshold: real)
    ensures var s := StartCall(TenForAll(threshold), Init(0), false, Someone(), 5.0);
            && s.calls == map[0 := Call(false, 5.0, ["global"], Someone())] && s.now == 0 && s.ledger == []
            && "global" in s.accounts && s.accounts["global"].spend == 5.0 && s.accounts["global"].end == None
  {
    OnlyOverall(map[], threshold, 5.0, 0);
    var o := CheckNow(TenForAll(threshold), Init(0), Someone(), 5.0);
    var first := Fresh(Some(Unbounded), 0);
    assert o.scopes == ["global"] && !o.verdict.HardExceeded?;
    assert o.accounts.Keys == {"global"} && o.accounts["global"] in {first, first.(warned := true)};
    ReserveAt(o.accounts, 5.0, ["global"], 0, "global");
    hide CheckAll, Checks, Warnings, Reserve;
  }

  lemma TwentyIsOver(accounts: Accounts, threshold: real)
    requires "global" in accounts && accounts["global"].spend == 5.0 && accounts["global"].end == None
    ensures RefusesFirst(Reconcile(accounts, 5.0, 20.0, ["global"]), TenForAll(threshold).budgets.value, Someone(),
                         0.0, 0, 3)
  {
    ReconcileAt(accounts, 5.0, 20.0, ["global"], "global");
    var settled := Reconcile(accounts, 5.0, 20.0, ["global"]);
    assert settled["global"].spend == 20.0 && settled["global"].end == None;
  }

  /** It costs twenty: it is recorded, and its answer lost. */
  lemma PaidAndLost(threshold: real)
    ensures var setup := TenForAll(threshold);
            var s := After(setup, 0, [Step(0, Started(false, Someone(), 5.0))]);
            && 0 in s.calls
            && !Delivered(setup, s, 0, 20.0, false)
            && SettleCall(setup, s, 0, 20.0, false).ledger == [Entry(20.0, "a", "f", None, 0)]
  {
    var setup, step := TenForAll(threshold), Step(0, Started(false, Someone(), 5.0));
    FiveGoesIn(threshold);
    var s := StartCall(setup, Init(0), false, Someone(), 5.0);
    AfterOne(setup, step);
    hide StartCall, After, RefusesFirst, Reconcile, Delivered;
    assert s == After(setup, 0, [step]);
    var call := s.calls[0];
    assert call.estimate == 5.0 && call.scopes == ["global"] && call.context == Someone() && !call.streamed;
    AnswerLostExactly(setup, s, 0, 20.0, false);
    TwentyIsOver(s.accounts, threshold);
    var i: nat := 3;
    assert RefusesFirst(Reconcile(s.accounts, call.estimate, 20.0, call.scopes), setup.budgets.value, call.context, 0.0,
                        s.now, i);
    assert !Delivered(setup, s, 0, 20.0, false);
    assert Recorded([], Entry(20.0, "a", "f", None, 0), 100) == [Entry(20.0, "a", "f", None, 0)];
    var settled := SettleCall(setup, s, 0, 20.0, false);
    assert settled.ledger == Recorded([], Entry(20.0, "a", "f", None, 0), 100) by {
      hide CheckNow, Warnings, Recorded;
    }
    hide CheckNow, Warnings, SettleCall;
  }

  lemma AfterOne(setup: Setup, step: Step)
    requires step.elapsed == 0
    ensures After(setup, 0, [step]) == Apply(setup, Init(0), step.event)
  {
    hide Apply;
    assert [step][..0] == [] && Init(0).(now := 0) == Init(0);
  }
}
