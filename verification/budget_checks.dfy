/** What a budget check does to one account, and which scopes it reaches. */
module BudgetChecks {
  import opened Wrappers
  import opened Budgets

  predicate SameAt(before: Accounts, after: Accounts, key: string) {
    (key in after <==> key in before) && (key in before ==> after[key] == before[key])
  }

  /** The account was made ready, and perhaps marked as warned. */
  predicate ReadiedAt(before: Accounts, after: Accounts, key: string, window: Option<Window>, now: int) {
    && key in after
    && (after[key] == Ready(before, key, window, now) || after[key] == Ready(before, key, window, now).(warned := true))
  }

  lemma ScopeElsewhere(o: Outcome, c: Check, key: string, amount: real, threshold: real, now: int)
    requires Enabled(c) ==> c.key != key
    ensures SameAt(o.accounts, CheckScope(o, c, amount, threshold, now).accounts, key)
    ensures key in CheckScope(o, c, amount, threshold, now).scopes <==> key in o.scopes
  {
  }

  /** The turn of the account's own check, when it comes. */
  lemma ScopeOwn(o: Outcome, c: Check, amount: real, threshold: real, now: int)
    requires o.verdict.Passed? && Enabled(c) && c.level != PerRequest
    ensures var after := CheckScope(o, c, amount, threshold, now);
            var scope := c.config.value;
            var fits := Ready(o.accounts, c.key, scope.window, now).spend + amount <= scope.limit;
            (ReadiedAt(o.accounts, after.accounts, c.key, scope.window, now)
             && c.key in after.scopes
             && after.verdict.Passed? == fits
             && after.verdict.HardExceeded? == (!fits && scope.enforcement.GetOr(Hard) == Hard))
  {
  }

  lemma ScopeAfterwards(o: Outcome, c: Check, amount: real, threshold: real, now: int)
    requires !o.verdict.Passed?
    ensures CheckScope(o, c, amount, threshold, now) == o
  {
  }

  /** The account's part in the outcome of the first `n` checks. */
  predicate Part(
    accounts: Accounts, o: Outcome, c: Check, charged: bool, reached: bool, key: string, amount: real, now: int)
  {
    if charged && reached && Enabled(c) && key in o.scopes then
      var scope := c.config.value;
      var fits := Ready(accounts, key, scope.window, now).spend + amount <= scope.limit;
      && ReadiedAt(accounts, o.accounts, key, scope.window, now)
      && (o.verdict.Passed? ==> fits)
      && (!fits && scope.enforcement.GetOr(Hard) == Hard ==> o.verdict.HardExceeded?)
    else
      && SameAt(accounts, o.accounts, key)
      && key !in o.scopes
      && (o.verdict.Passed? ==> !(charged && reached && Enabled(c)))
  }

  lemma {:induction false} CheckPrefix(
    accounts: Accounts, budgets: Config, ctx: Context, a: Account, amount: real, threshold: real, now: int, n: nat)
    requires n <= 4
    ensures Part(accounts, CheckAll(accounts, Checks(budgets, ctx)[..n], amount, threshold, now),
                 AccountCheck(budgets, ctx, a), Charges(ctx, a), Place(a) < n, AccountKey(a), amount, now)
  {
    if n > 0 {
      hide Checks, AccountKey, Charges, CheckScope, Ready, Place;
      var checks := Checks(budgets, ctx);
      var c, key := checks[n - 1], AccountKey(a);
      CheckPrefix(accounts, budgets, ctx, a, amount, threshold, now, n - 1);
      assert checks[..n][..n - 1] == checks[..n - 1];
      var o := CheckAll(accounts, checks[..n - 1], amount, threshold, now);
      if Enabled(c) { CheckOfAccount(budgets, ctx, a, n - 1); }
      if !o.verdict.Passed? {
        ScopeAfterwards(o, c, amount, threshold, now);
        LaterChecks(accounts, o, AccountCheck(budgets, ctx, a), Charges(ctx, a), Place(a), n, key, amount, now);
      } else if Enabled(c) && c.key == key {
        OwnTurn(accounts, o, c, key, amount, threshold, now);
      } else {
        ScopeElsewhere(o, c, key, amount, threshold, now);
        OtherTurn(accounts, o, c, AccountCheck(budgets, ctx, a), Charges(ctx, a), Place(a), n, key,
                  amount, threshold, now);
      }
    }
  }

  lemma LaterChecks(
    accounts: Accounts, o: Outcome, c: Check, charged: bool, place: nat, n: nat, key: string, amount: real, now: int)
    requires n > 0 && !o.verdict.Passed? && Part(accounts, o, c, charged, place < n - 1, key, amount, now)
    requires place == n - 1 ==> key !in o.scopes
    ensures Part(accounts, o, c, charged, place < n, key, amount, now)
  {
  }

  lemma OwnTurn(accounts: Accounts, o: Outcome, c: Check, key: string, amount: real, threshold: real, now: int)
    requires o.verdict.Passed? && Enabled(c) && c.key == key && c.level != PerRequest
    requires Part(accounts, o, c, true, false, key, amount, now)
    ensures Part(accounts, CheckScope(o, c, amount, threshold, now), c, true, true, key, amount, now)
  {
    ScopeOwn(o, c, amount, threshold, now);
  }

  lemma OtherTurn(
    accounts: Accounts, o: Outcome, d: Check, c: Check, charged: bool, place: nat, n: nat, key: string,
    amount: real, threshold: real, now: int)
    requires n > 0 && o.verdict.Passed? && Part(accounts, o, c, charged, place < n - 1, key, amount, now)
    requires Enabled(d) ==> d.key != key
    requires place == n - 1 ==> d == c && (charged && Enabled(c) ==> c.key == key)
    ensures Part(accounts, CheckScope(o, d, amount, threshold, now), c, charged, place < n, key, amount, now)
  {
    ScopeElsewhere(o, d, key, amount, threshold, now);
    hide Ready, CheckAccumulator;
  }

  /** What a whole check does to one account. */
  lemma CheckEffect(
    accounts: Accounts, budgets: Config, ctx: Context, a: Account, amount: real, threshold: real, now: int)
    ensures Part(accounts, CheckAll(accounts, Checks(budgets, ctx), amount, threshold, now),
                 AccountCheck(budgets, ctx, a), Charges(ctx, a), true, AccountKey(a), amount, now)
  {
    CheckPrefix(accounts, budgets, ctx, a, amount, threshold, now, 4);
    assert Checks(budgets, ctx)[..4] == Checks(budgets, ctx);
  }

  // ---- Which scopes a check lists ----

  predicate Distinct(scopes: seq<string>) {
    forall i, j :: 0 <= i < j < |scopes| ==> scopes[i] != scopes[j]
  }

  lemma ScopesGrow(o: Outcome, c: Check, amount: real, threshold: real, now: int)
    ensures CheckScope(o, c, amount, threshold, now).scopes
         == o.scopes + if o.verdict.Passed? && Enabled(c) then [c.key] else []
  {
    hide Ready, Exceeds;
  }

  /** Each scope is listed once, and each listed one is enabled. While nothing is exceeded all enabled
      ones are listed. */
  lemma {:induction false} ScopesListed(
    accounts: Accounts, budgets: Config, ctx: Context, amount: real, threshold: real, now: int, n: nat)
    requires n <= 4
    ensures var o := CheckAll(accounts, Checks(budgets, ctx)[..n], amount, threshold, now);
            (Distinct(o.scopes)
             && (forall key :: key in o.scopes ==>
                   exists i :: 0 <= i < n && Enabled(Checks(budgets, ctx)[i]) && Checks(budgets, ctx)[i].key == key)
             && (o.verdict.Passed? ==>
                   forall i :: 0 <= i < n && Enabled(Checks(budgets, ctx)[i]) ==>
                     Checks(budgets, ctx)[i].key in o.scopes))
  {
    if n > 0 {
      hide Checks, CheckScope, Enabled;
      var checks := Checks(budgets, ctx);
      ScopesListed(accounts, budgets, ctx, amount, threshold, now, n - 1);
      assert checks[..n][..n - 1] == checks[..n - 1];
      var o := CheckAll(accounts, checks[..n - 1], amount, threshold, now);
      ScopesGrow(o, checks[n - 1], amount, threshold, now);
      PassedBefore(o, checks[n - 1], amount, threshold, now);
      forall key | key in o.scopes && Enabled(checks[n - 1]) ensures key != checks[n - 1].key {
        var i :| 0 <= i < n - 1 && Enabled(checks[i]) && checks[i].key == key;
        EnabledNotSkipped(checks[i]);
        EnabledNotSkipped(checks[n - 1]);
        ChecksApart(budgets, ctx, i, n - 1);
      }
      DistinctAppend(o.scopes, checks[n - 1].key);
      hide Distinct;
    }
  }

  lemma DistinctAppend(scopes: seq<string>, key: string)
    requires Distinct(scopes)
    ensures Distinct(scopes + []) && (key !in scopes ==> Distinct(scopes + [key]))
  {
    assert scopes + [] == scopes;
  }

  lemma EnabledNotSkipped(c: Check)
    requires Enabled(c)
    ensures !c.skip
  {
  }

  lemma PassedBefore(o: Outcome, c: Check, amount: real, threshold: real, now: int)
    ensures CheckScope(o, c, amount, threshold, now).verdict.Passed? ==> o.verdict.Passed?
  {
  }

  /** With every enabled scope hard, a check passes everything or throws. */
  lemma {:induction false} HardNeverSoft(
    accounts: Accounts, checks: seq<Check>, amount: real, threshold: real, now: int)
    requires forall c :: c in checks && Enabled(c) ==> c.config.value.enforcement.GetOr(Hard) == Hard
    ensures !CheckAll(accounts, checks, amount, threshold, now).verdict.SoftExceeded?
  {
    if checks != [] { HardNeverSoft(accounts, checks[..|checks| - 1], amount, threshold, now); }
  }

  /** The list is complete unless a scope was exceeded. */
  lemma PassedCoversAll(
    accounts: Accounts, budgets: Config, ctx: Context, amount: real, threshold: real, now: int, i: nat)
    requires i < 4
    ensures var o := CheckAll(accounts, Checks(budgets, ctx), amount, threshold, now);
            (Distinct(o.scopes)
             && (o.verdict.Passed? && Enabled(Checks(budgets, ctx)[i]) ==> Checks(budgets, ctx)[i].key in o.scopes))
  {
    ScopesListed(accounts, budgets, ctx, amount, threshold, now, 4);
    assert Checks(budgets, ctx)[..4] == Checks(budgets, ctx);
  }

  // ---- Exactly which scopes are reached ----

  /** The scope, as the check finds its account, has no room for the amount. */
  predicate OverLimit(accounts: Accounts, c: Check, amount: real, now: int) {
    && Enabled(c)
    && (if c.level == PerRequest then 0.0 else Ready(accounts, c.key, c.config.value.window, now).spend) + amount
       > c.config.value.limit
  }

  lemma ScopeVerdict(o: Outcome, c: Check, amount: real, threshold: real, now: int)
    requires o.verdict.Passed?
    ensures var after := CheckScope(o, c, amount, threshold, now).verdict;
            && after.Passed? == !OverLimit(o.accounts, c, amount, now)
            && (OverLimit(o.accounts, c, amount, now) ==>
                  after.HardExceeded? == (c.config.value.enforcement.GetOr(Hard) == Hard))
  {
  }

  lemma OverLimitSame(before: Accounts, after: Accounts, c: Check, amount: real, now: int)
    requires Enabled(c) ==> SameAt(before, after, c.key)
    ensures OverLimit(after, c, amount, now) == OverLimit(before, c, amount, now)
  {
  }

  /** While the first `n` checks pass none of them is over its limit, and the accounts of the others wait. */
  lemma {:induction false} PassedExactly(
    accounts: Accounts, budgets: Config, ctx: Context, amount: real, threshold: real, now: int, n: nat)
    requires n <= 4
    ensures var checks := Checks(budgets, ctx);
            var o := CheckAll(accounts, checks[..n], amount, threshold, now);
            && (o.verdict.Passed? <==> forall i :: 0 <= i < n ==> !OverLimit(accounts, checks[i], amount, now))
            && (forall i :: n <= i < 4 && Enabled(checks[i]) ==> SameAt(accounts, o.accounts, checks[i].key))
  {
    if n > 0 {
      hide Checks, CheckScope, Enabled, OverLimit, SameAt;
      var checks := Checks(budgets, ctx);
      PassedExactly(accounts, budgets, ctx, amount, threshold, now, n - 1);
      assert checks[..n][..n - 1] == checks[..n - 1];
      var o := CheckAll(accounts, checks[..n - 1], amount, threshold, now);
      PassedBefore(o, checks[n - 1], amount, threshold, now);
      OverLimitSame(accounts, o.accounts, checks[n - 1], amount, now);
      if o.verdict.Passed? { ScopeVerdict(o, checks[n - 1], amount, threshold, now); }
      forall i | n <= i < 4 && Enabled(checks[i])
        ensures SameAt(accounts, CheckScope(o, checks[n - 1], amount, threshold, now).accounts, checks[i].key)
      {
        ScopeLeaves(accounts, budgets, ctx, o, n - 1, i, amount, threshold, now);
      }
    } else {
      assert Checks(budgets, ctx)[..0] == [];
    }
  }

  lemma ScopeLeaves(
    accounts: Accounts, budgets: Config, ctx: Context, o: Outcome, i: nat, j: nat, amount: real, threshold: real,
    now: int)
    requires i < j < 4 && Enabled(Checks(budgets, ctx)[j]) && SameAt(accounts, o.accounts, Checks(budgets, ctx)[j].key)
    ensures SameAt(accounts, CheckScope(o, Checks(budgets, ctx)[i], amount, threshold, now).accounts,
                   Checks(budgets, ctx)[j].key)
  {
    hide Checks, CheckScope;
    if Enabled(Checks(budgets, ctx)[i]) { ChecksApart(budgets, ctx, i, j); }
    ScopeElsewhere(o, Checks(budgets, ctx)[i], Checks(budgets, ctx)[j].key, amount, threshold, now);
  }

  lemma {:induction false} ListedPrefix(
    accounts: Accounts, budgets: Config, ctx: Context, amount: real, threshold: real, now: int, j: nat, n: nat)
    requires j < n <= 4 && Enabled(Checks(budgets, ctx)[j])
    ensures var checks := Checks(budgets, ctx);
            checks[j].key in CheckAll(accounts, checks[..n], amount, threshold, now).scopes
            <==> CheckAll(accounts, checks[..j], amount, threshold, now).verdict.Passed?
  {
    hide Checks, CheckScope;
    var checks := Checks(budgets, ctx);
    assert checks[..n][..n - 1] == checks[..n - 1];
    var o := CheckAll(accounts, checks[..n - 1], amount, threshold, now);
    ScopesGrow(o, checks[n - 1], amount, threshold, now);
    if j < n - 1 {
      ListedPrefix(accounts, budgets, ctx, amount, threshold, now, j, n - 1);
      if Enabled(checks[n - 1]) { ChecksApart(budgets, ctx, j, n - 1); }
    } else {
      NotListedBefore(accounts, budgets, ctx, amount, threshold, now, j);
    }
  }

  lemma NotListedBefore(
    accounts: Accounts, budgets: Config, ctx: Context, amount: real, threshold: real, now: int, j: nat)
    requires j < 4 && Enabled(Checks(budgets, ctx)[j])
    ensures Checks(budgets, ctx)[j].key !in CheckAll(accounts, Checks(budgets, ctx)[..j], amount, threshold, now).scopes
  {
    hide Checks, CheckAll;
    ScopesListed(accounts, budgets, ctx, amount, threshold, now, j);
    forall i | 0 <= i < j && Enabled(Checks(budgets, ctx)[i])
      ensures Checks(budgets, ctx)[i].key != Checks(budgets, ctx)[j].key
    {
      ChecksApart(budgets, ctx, i, j);
    }
  }

  /** An enabled scope is listed if and only if no scope before it is over its limit. */
  lemma ListedExactly(
    accounts: Accounts, budgets: Config, ctx: Context, amount: real, threshold: real, now: int, j: nat)
    requires j < 4 && Enabled(Checks(budgets, ctx)[j])
    ensures var checks := Checks(budgets, ctx);
            checks[j].key in CheckAll(accounts, checks, amount, threshold, now).scopes
            <==> forall i :: 0 <= i < j ==> !OverLimit(accounts, checks[i], amount, now)
  {
    hide Checks, CheckAll, OverLimit;
    PassedExactly(accounts, budgets, ctx, amount, threshold, now, j);
    ListedPrefix(accounts, budgets, ctx, amount, threshold, now, j, 4);
    assert Checks(budgets, ctx)[..4] == Checks(budgets, ctx);
  }

  /** The first scope over its limit decides: a hard one refuses, any other ends the check. */
  lemma {:induction false} FirstOverDecides(
    accounts: Accounts, budgets: Config, ctx: Context, amount: real, threshold: real, now: int, i: nat, n: nat)
    requires i < n <= 4 && OverLimit(accounts, Checks(budgets, ctx)[i], amount, now)
    requires forall k :: 0 <= k < i ==> !OverLimit(accounts, Checks(budgets, ctx)[k], amount, now)
    ensures var verdict := CheckAll(accounts, Checks(budgets, ctx)[..n], amount, threshold, now).verdict;
            && !verdict.Passed?
            && verdict.HardExceeded? == (Checks(budgets, ctx)[i].config.value.enforcement.GetOr(Hard) == Hard)
  {
    hide Checks, CheckScope;
    var checks := Checks(budgets, ctx);
    assert checks[..n][..n - 1] == checks[..n - 1];
    var o := CheckAll(accounts, checks[..n - 1], amount, threshold, now);
    if i < n - 1 {
      FirstOverDecides(accounts, budgets, ctx, amount, threshold, now, i, n - 1);
      ScopeAfterwards(o, checks[n - 1], amount, threshold, now);
    } else {
      PassedExactly(accounts, budgets, ctx, amount, threshold, now, i);
      OverLimitSame(accounts, o.accounts, checks[i], amount, now);
      ScopeVerdict(o, checks[i], amount, threshold, now);
    }
  }

  /** A configured scope that is not switched off. */
  predicate InForce(scope: Option<Scope>) {
    scope.Some? && (scope.value.enforcement.None? || scope.value.enforcement.value != Disabled)
  }

  /** The scope, if in force, has room for the amount in the account of this key. */
  predicate Fits(accounts: Accounts, scope: Option<Scope>, key: string, amount: real, now: int) {
    InForce(scope) ==> Ready(accounts, key, scope.value.window, now).spend + amount <= scope.value.limit
  }

  /** A check passes if and only if the amount is within the limit of one call, and there is room for it in the
      account of the user, if there is one, of the flow and of everyone. A flow with a budget of its own is
      held to that one and not to the one for all flows. */
  lemma PassesExactly(accounts: Accounts, budgets: Config, ctx: Context, amount: real, threshold: real, now: int)
    ensures var user := if ctx.userId == Some("") then "" else "user:" + ctx.userId.GetOr("");
            CheckAll(accounts, Checks(budgets, ctx), amount, threshold, now).verdict.Passed?
            <==> && (InForce(budgets.perRequest) ==> amount <= budgets.perRequest.value.limit)
                 && (ctx.userId.Some? ==> Fits(accounts, budgets.perUser, user, amount, now))
                 && Fits(accounts, if ctx.flowBudget.Some? then ctx.flowBudget else budgets.perFlow,
                         "flow:" + ctx.flowName, amount, now)
                 && Fits(accounts, budgets.overall, "global", amount, now)
  {
    PassedExactly(accounts, budgets, ctx, amount, threshold, now, 4);
    var checks := Checks(budgets, ctx);
    assert checks[..4] == checks;
    hide CheckAll, Ready;
    assert (forall i :: 0 <= i < 4 ==> !OverLimit(accounts, checks[i], amount, now))
      <==> !OverLimit(accounts, checks[0], amount, now) && !OverLimit(accounts, checks[1], amount, now)
           && !OverLimit(accounts, checks[2], amount, now) && !OverLimit(accounts, checks[3], amount, now);
  }

  // ---- What a check tells ----

  /** What the account of a check had spent when its turn came. */
  function SpentBefore(accounts: Accounts, c: Check, now: int): real
    requires c.config.Some?
  {
    if c.level == PerRequest then 0.0 else Ready(accounts, c.key, c.config.value.window, now).spend
  }

  predicate IsOf(accounts: Accounts, c: Check, level: Level, key: string, spend: real, limit: real, now: int) {
    && Enabled(c) && level == c.level && key == c.key && limit == c.config.value.limit
    && spend == SpentBefore(accounts, c, now)
  }

  /** Every warning is of one of the checks and tells its spend with the amount; so does a verdict, without it. */
  ghost predicate Tells(accounts: Accounts, checks: seq<Check>, o: Outcome, amount: real, now: int) {
    && (forall i :: 0 <= i < |o.warnings| ==>
          var w := o.warnings[i];
          exists c :: c in checks && IsOf(accounts, c, w.level, w.key, w.spend - amount, w.limit, now))
    && (o.verdict.SoftExceeded? ==> ToldBy(accounts, checks, o.verdict.soft, amount, now))
    && (o.verdict.HardExceeded? ==> ToldBy(accounts, checks, o.verdict.hard, amount, now))
  }

  ghost predicate ToldBy(accounts: Accounts, checks: seq<Check>, e: Exceeded, amount: real, now: int) {
    e.spend + amount > e.limit && exists c :: c in checks && IsOf(accounts, c, e.level, e.key, e.spend, e.limit, now)
  }

  lemma ToldMore(accounts: Accounts, checks: seq<Check>, c: Check, e: Exceeded, amount: real, now: int)
    requires ToldBy(accounts, checks, e, amount, now)
    ensures ToldBy(accounts, checks + [c], e, amount, now)
  {
    hide IsOf;
    var d :| d in checks && IsOf(accounts, d, e.level, e.key, e.spend, e.limit, now);
    assert d in checks + [c];
  }

  lemma TellsMore(accounts: Accounts, checks: seq<Check>, c: Check, o: Outcome, amount: real, now: int)
    requires Tells(accounts, checks, o, amount, now)
    ensures Tells(accounts, checks + [c], o, amount, now)
  {
    hide IsOf;
    if o.verdict.SoftExceeded? { ToldMore(accounts, checks, c, o.verdict.soft, amount, now); }
    if o.verdict.HardExceeded? { ToldMore(accounts, checks, c, o.verdict.hard, amount, now); }
    forall i | 0 <= i < |o.warnings|
      ensures var w := o.warnings[i];
              exists d :: d in checks + [c] && IsOf(accounts, d, w.level, w.key, w.spend - amount, w.limit, now)
    {
      var w := o.warnings[i];
      var d :| d in checks && IsOf(accounts, d, w.level, w.key, w.spend - amount, w.limit, now);
      assert d in checks + [c];
    }
  }

  lemma ScopeTells(
    accounts: Accounts, checks: seq<Check>, o: Outcome, c: Check, amount: real, threshold: real, now: int)
    requires Tells(accounts, checks, o, amount, now) && o.verdict.Passed?
    requires Enabled(c) ==> SameAt(accounts, o.accounts, c.key)
    ensures Tells(accounts, checks + [c], CheckScope(o, c, amount, threshold, now), amount, now)
  {
    TellsMore(accounts, checks, c, o, amount, now);
    assert c in checks + [c];
    if Enabled(c) {
      assert IsOf(accounts, c, c.level, c.key, SpentBefore(accounts, c, now), c.config.value.limit, now);
      hide IsOf;
    }
  }

  /** A check tells of each account what it had spent at its turn, and of an exceeded one that the amount is
      beyond its limit. */
  lemma {:induction false} CheckTells(
    accounts: Accounts, budgets: Config, ctx: Context, amount: real, threshold: real, now: int, n: nat)
    requires n <= 4
    ensures Tells(accounts, Checks(budgets, ctx)[..n],
                  CheckAll(accounts, Checks(budgets, ctx)[..n], amount, threshold, now), amount, now)
  {
    if n > 0 {
      hide Checks, CheckScope, Enabled, SameAt, Tells;
      var checks := Checks(budgets, ctx);
      CheckTells(accounts, budgets, ctx, amount, threshold, now, n - 1);
      PassedExactly(accounts, budgets, ctx, amount, threshold, now, n - 1);
      assert checks[..n][..n - 1] == checks[..n - 1] && checks[..n] == checks[..n - 1] + [checks[n - 1]];
      var o := CheckAll(accounts, checks[..n - 1], amount, threshold, now);
      if o.verdict.Passed? {
        ScopeTells(accounts, checks[..n - 1], o, checks[n - 1], amount, threshold, now);
      } else {
        ScopeAfterwards(o, checks[n - 1], amount, threshold, now);
        TellsMore(accounts, checks[..n - 1], checks[n - 1], o, amount, now);
      }
    }
  }

  // ---- Reserving and reconciling, for one key ----

  lemma {:induction false} ReserveAt(accounts: Accounts, amount: real, scopes: seq<string>, now: int, key: string)
    requires Distinct(scopes)
    ensures Spend(Reserve(accounts, amount, scopes, now), key)
         == Spend(accounts, key) + if key in scopes then amount else 0.0
    ensures key in accounts ==>
              var after := Reserve(accounts, amount, scopes, now);
              key in after && after[key] == accounts[key].(spend := after[key].spend)
    ensures key !in scopes ==> SameAt(accounts, Reserve(accounts, amount, scopes, now), key)
    ensures key in scopes && key !in accounts ==>
              var after := Reserve(accounts, amount, scopes, now);
              key in after && after[key] == Accumulator(amount, now, Some(now + 86400000), false)
  {
    if scopes != [] {
      var n := |scopes| - 1;
      ReserveAt(accounts, amount, scopes[..n], now, key);
      assert scopes == scopes[..n] + [scopes[n]];
    }
  }

  lemma {:induction false} ReconcileAt(
    accounts: Accounts, estimated: real, actual: real, scopes: seq<string>, key: string)
    requires Distinct(scopes)
    ensures var after := Reconcile(accounts, estimated, actual, scopes);
            if key in accounts && key in scopes
            then key in after && after[key] == accounts[key].(spend := accounts[key].spend - (estimated - actual))
            else SameAt(accounts, after, key)
  {
    if scopes != [] {
      var n := |scopes| - 1;
      ReconcileAt(accounts, estimated, actual, scopes[..n], key);
      assert scopes == scopes[..n] + [scopes[n]];
    }
  }
}
