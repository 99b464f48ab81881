/** Windows of a fixed length: they tile time, a reset happens exactly when the clock has left the
    accumulator's window, and an account is warned at most once in each. */
module BudgetWindows {
  import opened Wrappers
  import opened Budgets
  import opened BudgetChecks
  import opened CostTracking
  import opened CostTheorems

  /** The windows counted from the epoch in steps of a fixed length. */
  predicate Regular(window: Option<Window>) {
    window.GetOr(Daily).Daily? || (window.value.Custom? && window.value.durationMs > 0)
  }

  function Length(window: Option<Window>): int
    requires Regular(window)
  {
    match window.GetOr(Daily)
    case Daily => DAY
    case Custom(d) => d
  }

  /** The number of the window a time falls in. */
  function Slot(window: Option<Window>, t: int): int
    requires Regular(window)
  {
    t / Length(window)
  }

  lemma FloorBounds(t: int, d: int)
    requires d > 0
    ensures t / d * d <= t < t / d * d + d
  {
  }

  lemma TimesOrder(x: int, y: int, d: int)
    requires d > 0
    ensures x <= y ==> x * d <= y * d
  {
  }

  lemma FloorUnique(t: int, d: int, k: int)
    requires d > 0 && k * d <= t < k * d + d
    ensures t / d == k
  {
    FloorBounds(t, d);
    TimesOrder(t / d + 1, k, d);
    TimesOrder(k + 1, t / d, d);
  }

  /** A time is in its own window, and two windows are the same or apart. */
  lemma WindowsTile(window: Option<Window>, t: int, u: int)
    requires Regular(window)
    ensures Bounds(window, t)
         == (Slot(window, t) * Length(window), Some(Slot(window, t) * Length(window) + Length(window)))
    ensures var (start, end) := Bounds(window, t);
            (start <= t < end.value && (start <= u < end.value <==> Slot(window, u) == Slot(window, t)))
  {
    var d := Length(window);
    FloorBounds(t, d);
    FloorBounds(u, d);
    if t / d * d <= u < t / d * d + d { FloorUnique(u, d, t / d); }
    assert (t / d + 1) * d == t / d * d + d;
  }

  /** The accumulator's window is one of the tiling and has begun. */
  predicate Tiled(acc: Accumulator, window: Option<Window>, now: int)
    requires Regular(window)
  {
    (acc.start, acc.end) == Bounds(window, acc.start) && acc.start <= now
  }

  /** Under a clock that does not run backwards the accumulator ends up in the current window, and its
      spend is dropped exactly when the window has changed. */
  lemma ResetTiles(acc: Accumulator, window: Option<Window>, now: int)
    requires Regular(window) && Tiled(acc, window, now)
    ensures var after := MaybeReset(acc, window, now);
            ((after.start, after.end) == Bounds(window, now)
             && after.start <= now < after.end.value
             && Tiled(after, window, now)
             && after == (if Slot(window, acc.start) == Slot(window, now) then acc else Fresh(window, now))
             && (Slot(window, acc.start) != Slot(window, now) ==>
                   acc.start < after.start && after.spend == 0.0 && !after.warned))
  {
    WindowsTile(window, acc.start, now);
    WindowsTile(window, now, acc.start);
    WindowsTile(window, Bounds(window, now).0, now);
    WindowsTile(window, now, Bounds(window, now).0);
    hide Bounds, Slot, Length;
  }

  lemma ReadyTiles(accounts: Accounts, key: string, window: Option<Window>, now: int)
    requires Regular(window) && (key in accounts ==> Tiled(accounts[key], window, now))
    ensures var ready := Ready(accounts, key, window, now);
            ((ready.start, ready.end) == Bounds(window, now)
             && ready.start <= now < ready.end.value
             && Tiled(ready, window, now)
             && (key in accounts ==>
                   ready == (if Slot(window, accounts[key].start) == Slot(window, now) then accounts[key]
                             else Fresh(window, now))
                   && (ready != accounts[key] ==> accounts[key].start < ready.start))
             && (key !in accounts ==> ready == Fresh(window, now) && ready.spend == 0.0 && !ready.warned))
  {
    if key in accounts {
      ResetTiles(accounts[key], window, now);
    } else {
      WindowsTile(window, now, Bounds(window, now).0);
      WindowsTile(window, Bounds(window, now).0, now);
      ResetTiles(Fresh(window, now), window, now);
    }
    hide Bounds, Slot, Length;
  }

  // ---- Warnings ----

  function KeyWarnings(warnings: seq<Warning>, key: string): nat {
    if warnings == [] then 0
    else
      var n := |warnings| - 1;
      KeyWarnings(warnings[..n], key) + if warnings[n].key == key then 1 else 0
  }

  /** The window starts of the warnings an account has had. */
  function Starts(warned: seq<(string, int)>, key: string): seq<int> {
    if warned == [] then []
    else
      var n := |warned| - 1;
      Starts(warned[..n], key) + if warned[n].0 == key then [warned[n].1] else []
  }

  lemma {:induction false} StartsConcat(first: seq<(string, int)>, more: seq<(string, int)>, key: string)
    ensures Starts(first + more, key) == Starts(first, key) + Starts(more, key)
  {
    if more == [] {
      assert first + more == first;
    } else {
      var n := |more| - 1;
      assert (first + more)[..|first| + n] == first + more[..n];
      StartsConcat(first, more[..n], key);
    }
  }

  lemma {:induction false} StartsOfWarnings(o: Outcome, warnings: seq<Warning>, key: string)
    requires key in o.accounts
    ensures var starts := Starts(Warnings(o, warnings), key);
            (|starts| == KeyWarnings(warnings, key)
             && forall i :: 0 <= i < |starts| ==> starts[i] == o.accounts[key].start)
  {
    if warnings != [] { StartsOfWarnings(o, warnings[..|warnings| - 1], key); }
  }

  lemma {:induction false} StartsOfNoWarnings(o: Outcome, warnings: seq<Warning>, key: string)
    requires KeyWarnings(warnings, key) == 0
    ensures Starts(Warnings(o, warnings), key) == []
  {
    if warnings != [] { StartsOfNoWarnings(o, warnings[..|warnings| - 1], key); }
  }

  lemma WarningsAppend(warnings: seq<Warning>, w: Warning, key: string)
    ensures KeyWarnings(warnings + [w], key) == KeyWarnings(warnings, key) + if w.key == key then 1 else 0
  {
    assert (warnings + [w])[..|warnings|] == warnings;
  }

  /** One turn of the loop warns about its own key, at most once, and only when the mark is set. */
  lemma ScopeWarns(o: Outcome, c: Check, key: string, amount: real, threshold: real, now: int)
    ensures var after := CheckScope(o, c, amount, threshold, now);
            KeyWarnings(after.warnings, key)
            == KeyWarnings(o.warnings, key)
               + if o.verdict.Passed? && Enabled(c) && c.level != PerRequest && c.key == key
                    && after.accounts[key].warned
                    && !Ready(o.accounts, key, c.config.value.window, now).warned then 1 else 0
  {
    if o.verdict.Passed? && Enabled(c) && c.level != PerRequest {
      var acc := Ready(o.accounts, c.key, c.config.value.window, now);
      WarningsAppend(o.warnings, Warning(c.level, c.key, acc.spend + amount, c.config.value.limit), key);
    }
    hide KeyWarnings, Ready, Exceeds;
  }

  function WindowOf(c: Check): Option<Window> {
    if c.config.Some? then c.config.value.window else None
  }

  predicate WarnedOnce(accounts: Accounts, o: Outcome, window: Option<Window>, key: string, now: int) {
    KeyWarnings(o.warnings, key)
    == if key in o.scopes && key in o.accounts && o.accounts[key].warned && !Ready(accounts, key, window, now).warned
       then 1 else 0
  }

  lemma {:induction false} PrefixWarns(
    accounts: Accounts, budgets: Config, ctx: Context, a: Account, amount: real, threshold: real, now: int, n: nat)
    requires n <= 4
    ensures WarnedOnce(accounts, CheckAll(accounts, Checks(budgets, ctx)[..n], amount, threshold, now),
                       WindowOf(AccountCheck(budgets, ctx, a)), AccountKey(a), now)
  {
    if n > 0 {
      hide Checks, AccountKey, Charges, CheckScope, Ready, Place, KeyWarnings, Enabled;
      var checks := Checks(budgets, ctx);
      var c, key := checks[n - 1], AccountKey(a);
      PrefixWarns(accounts, budgets, ctx, a, amount, threshold, now, n - 1);
      CheckPrefix(accounts, budgets, ctx, a, amount, threshold, now, n - 1);
      assert checks[..n][..n - 1] == checks[..n - 1];
      var o := CheckAll(accounts, checks[..n - 1], amount, threshold, now);
      ScopeWarns(o, c, key, amount, threshold, now);
      if !o.verdict.Passed? {
        ScopeAfterwards(o, c, amount, threshold, now);
      } else if Enabled(c) {
        EnabledNotSkipped(c);
        CheckOfAccount(budgets, ctx, a, n - 1);
        if c.key == key {
          EnabledConfigured(c);
          ReadySame(accounts, o.accounts, key, WindowOf(c), now);
          ScopeOwn(o, c, amount, threshold, now);
        } else {
          ScopeElsewhere(o, c, key, amount, threshold, now);
        }
      } else {
        ScopeElsewhere(o, c, key, amount, threshold, now);
      }
    }
  }

  /** The scope has room for the amount, comes to the threshold with it, and has not been warned in its window. */
  predicate Near(accounts: Accounts, c: Check, amount: real, threshold: real, now: int) {
    && Enabled(c)
    && (var acc, limit := Ready(accounts, c.key, c.config.value.window, now), c.config.value.limit;
        limit * threshold <= acc.spend + amount <= limit && !acc.warned)
  }

  predicate Marked(accounts: Accounts, o: Outcome, c: Check, key: string, amount: real, threshold: real, now: int) {
    key in o.scopes && key in o.accounts && Enabled(c) && c.key == key ==>
      (o.accounts[key].warned
       <==> Near(accounts, c, amount, threshold, now) || Ready(accounts, key, WindowOf(c), now).warned)
  }

  lemma OwnMarked(accounts: Accounts, o: Outcome, c: Check, amount: real, threshold: real, now: int)
    requires o.verdict.Passed? && Enabled(c) && c.level != PerRequest && SameAt(accounts, o.accounts, c.key)
    ensures Marked(accounts, CheckScope(o, c, amount, threshold, now), c, c.key, amount, threshold, now)
  {
    EnabledConfigured(c);
    ReadySame(accounts, o.accounts, c.key, WindowOf(c), now);
    hide Ready;
  }

  lemma MarkedSame(
    accounts: Accounts, o: Outcome, o': Outcome, c: Check, key: string, amount: real, threshold: real, now: int)
    requires Marked(accounts, o, c, key, amount, threshold, now)
    requires SameAt(o.accounts, o'.accounts, key) && (key in o.scopes <==> key in o'.scopes)
    ensures Marked(accounts, o', c, key, amount, threshold, now)
  {
    hide Ready, Near;
  }

  lemma {:induction false} PrefixMarks(
    accounts: Accounts, budgets: Config, ctx: Context, a: Account, amount: real, threshold: real, now: int, n: nat)
    requires n <= 4
    ensures Marked(accounts, CheckAll(accounts, Checks(budgets, ctx)[..n], amount, threshold, now),
                   AccountCheck(budgets, ctx, a), AccountKey(a), amount, threshold, now)
  {
    if n > 0 {
      hide Checks, AccountKey, Charges, CheckScope, Ready, Place, Enabled, Near, Marked;
      var checks := Checks(budgets, ctx);
      var c, key := checks[n - 1], AccountKey(a);
      PrefixMarks(accounts, budgets, ctx, a, amount, threshold, now, n - 1);
      CheckPrefix(accounts, budgets, ctx, a, amount, threshold, now, n - 1);
      assert checks[..n][..n - 1] == checks[..n - 1];
      var o := CheckAll(accounts, checks[..n - 1], amount, threshold, now);
      if !o.verdict.Passed? {
        ScopeAfterwards(o, c, amount, threshold, now);
      } else if Enabled(c) && c.key == key {
        EnabledNotSkipped(c);
        CheckOfAccount(budgets, ctx, a, n - 1);
        OwnMarked(accounts, o, c, amount, threshold, now);
      } else {
        ScopeElsewhere(o, c, key, amount, threshold, now);
        MarkedSame(accounts, o, CheckScope(o, c, amount, threshold, now), AccountCheck(budgets, ctx, a), key,
                   amount, threshold, now);
      }
    } else {
      hide Near, Ready;
    }
  }

  /** A check warns about an account, once, if and only if its scope is listed, has room for the amount, comes to
      the threshold with it, and has not been warned about in its window. */
  lemma WarnsExactly(
    accounts: Accounts, budgets: Config, ctx: Context, a: Account, amount: real, threshold: real, now: int)
    requires Charges(ctx, a) && Enabled(AccountCheck(budgets, ctx, a))
    ensures var o, key := CheckAll(accounts, Checks(budgets, ctx), amount, threshold, now), AccountKey(a);
            KeyWarnings(o.warnings, key)
            == if key in o.scopes && Near(accounts, AccountCheck(budgets, ctx, a), amount, threshold, now) then 1 else 0
  {
    var c := AccountCheck(budgets, ctx, a);
    EnabledNotSkipped(c);
    EnabledConfigured(c);
    CheckOfAccount(budgets, ctx, a, Place(a));
    PrefixWarns(accounts, budgets, ctx, a, amount, threshold, now, 4);
    PrefixMarks(accounts, budgets, ctx, a, amount, threshold, now, 4);
    CheckPrefix(accounts, budgets, ctx, a, amount, threshold, now, 4);
    assert Checks(budgets, ctx)[..4] == Checks(budgets, ctx);
    if Near(accounts, c, amount, threshold, now) { NearUnwarned(accounts, c, amount, threshold, now); }
    hide Checks, CheckAll, AccountKey, Charges, Ready, Place, KeyWarnings, Enabled, Near;
  }

  /** A check leaves a listed account marked if and only if it was marked in this window or is now. */
  lemma MarksExactly(
    accounts: Accounts, budgets: Config, ctx: Context, a: Account, amount: real, threshold: real, now: int)
    requires Charges(ctx, a) && Enabled(AccountCheck(budgets, ctx, a))
    ensures var o, c, key := CheckAll(accounts, Checks(budgets, ctx), amount, threshold, now),
                             AccountCheck(budgets, ctx, a), AccountKey(a);
            key in o.scopes ==>
              key in o.accounts
              && (o.accounts[key].warned
                  <==> Near(accounts, c, amount, threshold, now) || Ready(accounts, key, WindowOf(c), now).warned)
  {
    var c := AccountCheck(budgets, ctx, a);
    EnabledNotSkipped(c);
    CheckOfAccount(budgets, ctx, a, Place(a));
    PrefixMarks(accounts, budgets, ctx, a, amount, threshold, now, 4);
    CheckPrefix(accounts, budgets, ctx, a, amount, threshold, now, 4);
    assert Checks(budgets, ctx)[..4] == Checks(budgets, ctx);
    hide Checks, CheckAll, AccountKey, Charges, Ready, Place, Enabled, Near;
  }

  lemma NearUnwarned(accounts: Accounts, c: Check, amount: real, threshold: real, now: int)
    requires Near(accounts, c, amount, threshold, now)
    ensures !Ready(accounts, c.key, WindowOf(c), now).warned
  {
    hide Ready;
  }

  lemma EnabledConfigured(c: Check)
    requires Enabled(c)
    ensures c.config.Some?
  {
  }

  lemma ReadySame(before: Accounts, after: Accounts, key: string, window: Option<Window>, now: int)
    requires SameAt(before, after, key)
    ensures Ready(before, key, window, now) == Ready(after, key, window, now)
  {
  }

  // ---- Over runs ----

  /** Where the account is charged and its scope enabled, the window is this one. */
  predicate OneWindow(budgets: Config, ctx: Context, a: Account, window: Option<Window>) {
    var c := AccountCheck(budgets, ctx, a);
    Charges(ctx, a) && Enabled(c) ==> WindowOf(c) == window
  }

  predicate Rising(starts: seq<int>) {
    forall i, j :: 0 <= i < j < |starts| ==> starts[i] < starts[j]
  }

  /** The account's accumulator is in the tiling, and its warnings are of different windows. */
  predicate Kept(accounts: Accounts, starts: seq<int>, key: string, window: Option<Window>, now: int)
    requires Regular(window)
  {
    && (key in accounts ==> Tiled(accounts[key], window, now))
    && Rising(starts)
    && (starts != [] ==>
          && key in accounts
          && starts[|starts| - 1] <= accounts[key].start
          && (starts[|starts| - 1] == accounts[key].start ==> accounts[key].warned))
  }

  ghost predicate Orderly(s: State, a: Account, budgets: Config, window: Option<Window>)
    requires Regular(window)
  {
    && Kept(s.accounts, Starts(s.warned, AccountKey(a)), AccountKey(a), window, s.now)
    && (forall id :: id in s.calls ==>
          && Distinct(s.calls[id].scopes)
          && (AccountKey(a) in s.calls[id].scopes ==> AccountKey(a) in s.accounts)
          && OneWindow(budgets, s.calls[id].context, a, window))
  }

  lemma TrackerWarns(setup: Setup, s: State, ctx: Context, a: Account, amount: real)
    requires setup.budgets.Some?
    ensures WarnedOnce(s.accounts, CheckNow(setup, s, ctx, amount), WindowOf(AccountCheck(setup.budgets.value, ctx, a)),
                       AccountKey(a), s.now)
  {
    PrefixWarns(s.accounts, setup.budgets.value, ctx, a, amount, setup.threshold, s.now, 4);
    assert Checks(setup.budgets.value, ctx)[..4] == Checks(setup.budgets.value, ctx);
  }

  /** After any run a check that lists the account leaves its accumulator in the current window, with the
      spend it had if that is still the same window and none otherwise. */
  lemma CheckedWindow(setup: Setup, s: State, ctx: Context, a: Account, amount: real, window: Option<Window>)
    requires setup.budgets.Some? && Regular(window) && OneWindow(setup.budgets.value, ctx, a, window)
    requires Orderly(s, a, setup.budgets.value, window)
    ensures var o, key := CheckNow(setup, s, ctx, amount), AccountKey(a);
            (key in o.scopes ==>
               key in o.accounts
               && (o.accounts[key].start, o.accounts[key].end) == Bounds(window, s.now)
               && o.accounts[key].start <= s.now < o.accounts[key].end.value
               && Spend(o.accounts, key)
                  == (if key in s.accounts && Slot(window, s.accounts[key].start) == Slot(window, s.now)
                      then Spend(s.accounts, key) else 0.0))
            && (key !in o.scopes ==> SameAt(s.accounts, o.accounts, key))
  {
    TrackerCheck(setup, s, ctx, a, amount);
    ReadyTiles(s.accounts, AccountKey(a), window, s.now);
    hide CheckNow, AccountKey, Checks, Bounds, Slot, Charges, Starts;
  }

  lemma StartsAfter(o: Outcome, warned: seq<(string, int)>, key: string)
    requires KeyWarnings(o.warnings, key) <= 1 && (KeyWarnings(o.warnings, key) == 1 ==> key in o.accounts)
    ensures Starts(warned + Warnings(o, o.warnings), key)
         == Starts(warned, key) + if KeyWarnings(o.warnings, key) == 1 then [o.accounts[key].start] else []
  {
    StartsConcat(warned, Warnings(o, o.warnings), key);
    if KeyWarnings(o.warnings, key) == 0 {
      StartsOfNoWarnings(o, o.warnings, key);
    } else {
      StartsOfWarnings(o, o.warnings, key);
      var starts := Starts(Warnings(o, o.warnings), key);
      assert starts == [starts[0]];
    }
    hide Starts, Warnings, KeyWarnings;
  }

  /** The account is made ready, and perhaps warned. */
  lemma KeptReadied(before: Accounts, after: Accounts, starts: seq<int>, key: string, window: Option<Window>, now: int)
    requires Regular(window) && Kept(before, starts, key, window, now) && ReadiedAt(before, after, key, window, now)
    ensures var warn := after[key].warned && !Ready(before, key, window, now).warned;
            Kept(after, starts + (if warn then [after[key].start] else []), key, window, now)
  {
    ReadyTiles(before, key, window, now);
    hide Ready, Bounds, Slot;
  }

  /** A check's own effect on the account, as one step. */
  lemma CheckedKept(setup: Setup, s: State, ctx: Context, a: Account, amount: real, window: Option<Window>)
    requires setup.budgets.Some? && Regular(window) && OneWindow(setup.budgets.value, ctx, a, window)
    requires Kept(s.accounts, Starts(s.warned, AccountKey(a)), AccountKey(a), window, s.now)
    ensures var o, key := CheckNow(setup, s, ctx, amount), AccountKey(a);
            Kept(o.accounts, Starts(s.warned + Warnings(o, o.warnings), key), key, window, s.now)
            && (key in s.accounts || key in o.scopes ==> key in o.accounts)
            && Distinct(o.scopes)
  {
    hide CheckNow, AccountKey, Checks, Charges, Distinct, KeyWarnings, Kept, Starts, Ready, Warnings;
    TrackerCheck(setup, s, ctx, a, amount);
    TrackerWarns(setup, s, ctx, a, amount);
    var o, key := CheckNow(setup, s, ctx, amount), AccountKey(a);
    StartsAfter(o, s.warned, key);
    if key in o.scopes {
      KeptReadied(s.accounts, o.accounts, Starts(s.warned, key), key, window, s.now);
    } else {
      KeptSame(s.accounts, o.accounts, Starts(s.warned, key), key, window, s.now);
      assert Starts(s.warned, key) + [] == Starts(s.warned, key);
    }
  }

  lemma KeptSame(before: Accounts, after: Accounts, starts: seq<int>, key: string, window: Option<Window>, now: int)
    requires Regular(window) && Kept(before, starts, key, window, now)
    requires SameAt(before, after, key)
             || (key in before && key in after && after[key] == before[key].(spend := after[key].spend))
    ensures Kept(after, starts, key, window, now)
  {
    hide Bounds;
  }

  lemma CheckedOrderly(setup: Setup, s: State, ctx: Context, a: Account, amount: real, window: Option<Window>)
    requires setup.budgets.Some? && Regular(window) && OneWindow(setup.budgets.value, ctx, a, window)
    requires Orderly(s, a, setup.budgets.value, window)
    ensures Orderly(Checked(s, CheckNow(setup, s, ctx, amount)), a, setup.budgets.value, window)
    ensures AccountKey(a) in CheckNow(setup, s, ctx, amount).scopes ==>
              AccountKey(a) in CheckNow(setup, s, ctx, amount).accounts
    ensures Distinct(CheckNow(setup, s, ctx, amount).scopes)
  {
    CheckedKept(setup, s, ctx, a, amount, window);
    hide CheckNow, AccountKey, Distinct, Kept, Starts, Warnings, OneWindow;
  }

  lemma StartOrderly(
    setup: Setup, s: State, streamed: bool, ctx: Context, estimate: real, a: Account, window: Option<Window>)
    requires setup.budgets.Some? && Regular(window) && OneWindow(setup.budgets.value, ctx, a, window)
    requires Orderly(s, a, setup.budgets.value, window)
    ensures Orderly(StartCall(setup, s, streamed, ctx, estimate), a, setup.budgets.value, window)
  {
    hide CheckNow, AccountKey, Distinct, Kept, Starts, Warnings, OneWindow, Reserve;
    CheckedOrderly(setup, s, ctx, a, estimate, window);
    var o, key := CheckNow(setup, s, ctx, estimate), AccountKey(a);
    if !o.verdict.HardExceeded? {
      ReserveAt(o.accounts, estimate, o.scopes, s.now, key);
      var after := Reserve(o.accounts, estimate, o.scopes, s.now);
      KeptSame(o.accounts, after, Starts(s.warned + Warnings(o, o.warnings), key), key, window, s.now);
    }
  }

  lemma ReconcileOrderly(
    s: State, id: nat, actual: real, recorded: bool, a: Account, budgets: Config, window: Option<Window>)
    requires id in s.calls && Regular(window) && Orderly(s, a, budgets, window)
    ensures Orderly(Reconciled(s, id, actual, recorded), a, budgets, window)
  {
    hide AccountKey, Distinct, Kept, Starts, OneWindow, Reconcile;
    var call, key := s.calls[id], AccountKey(a);
    ReconcileAt(s.accounts, call.estimate, actual, call.scopes, key);
    var after := Reconcile(s.accounts, call.estimate, actual, call.scopes);
    KeptSame(s.accounts, after, Starts(s.warned, key), key, window, s.now);
  }

  lemma SettleOrderly(
    setup: Setup, s: State, id: nat, actual: real, recordFails: bool, a: Account, window: Option<Window>)
    requires setup.budgets.Some? && id in s.calls && Regular(window) && Orderly(s, a, setup.budgets.value, window)
    ensures Orderly(SettleCall(setup, s, id, actual, recordFails), a, setup.budgets.value, window)
  {
    hide CheckNow, AccountKey, Distinct, Kept, Starts, OneWindow, Recorded, EntryOf, Warnings, Reconcile;
    ReconcileOrderly(s, id, actual, !recordFails, a, setup.budgets.value, window);
    var reconciled := Reconciled(s, id, actual, !recordFails);
    var noted := Noted(setup, reconciled, EntryOf(s.calls[id], actual, s.now));
    CheckedOrderly(setup, noted, s.calls[id].context, a, 0.0, window);
  }

  lemma FailOrderly(s: State, id: nat, a: Account, budgets: Config, window: Option<Window>)
    requires id in s.calls && Regular(window) && Orderly(s, a, budgets, window)
    ensures Orderly(FailCall(s, id), a, budgets, window)
  {
    ReconcileOrderly(s, id, 0.0, false, a, budgets, window);
    hide AccountKey, Distinct, Kept, Starts, OneWindow, Reconcile;
  }

  lemma ClockOrderly(s: State, elapsed: nat, a: Account, budgets: Config, window: Option<Window>)
    requires Regular(window) && Orderly(s, a, budgets, window)
    ensures Orderly(s.(now := s.now + elapsed), a, budgets, window)
  {
    hide Bounds, AccountKey, Starts, OneWindow, Distinct;
  }

  lemma AdvanceOrderly(setup: Setup, s: State, step: Step, a: Account, window: Option<Window>)
    requires setup.budgets.Some? && Regular(window) && Orderly(s, a, setup.budgets.value, window)
    requires step.event.Started? ==> OneWindow(setup.budgets.value, step.event.context, a, window)
    ensures Orderly(Advance(setup, s, step), a, setup.budgets.value, window)
  {
    hide Orderly, OneWindow, StartCall, SettleCall, FailCall;
    ClockOrderly(s, step.elapsed, a, setup.budgets.value, window);
    var later := s.(now := s.now + step.elapsed);
    match step.event
    case Started(streamed, ctx, estimate) => StartOrderly(setup, later, streamed, ctx, estimate, a, window);
    case Answered(id, actual, recordFails) =>
      if id in s.calls { SettleOrderly(setup, later, id, actual, recordFails, a, window); }
    case Broke(id) => if id in s.calls { FailOrderly(later, id, a, setup.budgets.value, window); }
  }

  lemma {:induction false} AfterOrderly(setup: Setup, start: int, steps: seq<Step>, a: Account, window: Option<Window>)
    requires setup.budgets.Some? && Regular(window)
    requires forall i :: 0 <= i < |steps| && steps[i].event.Started? ==>
               OneWindow(setup.budgets.value, steps[i].event.context, a, window)
    ensures Orderly(After(setup, start, steps), a, setup.budgets.value, window)
  {
    if steps != [] {
      hide Orderly, OneWindow, Advance;
      AfterOrderly(setup, start, steps[..|steps| - 1], a, window);
      AdvanceOrderly(setup, After(setup, start, steps[..|steps| - 1]), steps[|steps| - 1], a, window);
    }
  }

  /** On every run two warnings of one account are of different windows. */
  lemma WarnedOncePerWindow(
    setup: Setup, start: int, steps: seq<Step>, a: Account, window: Option<Window>, i: nat, j: nat)
    requires setup.budgets.Some? && Regular(window)
    requires forall i :: 0 <= i < |steps| && steps[i].event.Started? ==>
               OneWindow(setup.budgets.value, steps[i].event.context, a, window)
    requires i < j < |Starts(After(setup, start, steps).warned, AccountKey(a))|
    ensures var starts := Starts(After(setup, start, steps).warned, AccountKey(a)); starts[i] < starts[j]
  {
    AfterOrderly(setup, start, steps, a, window);
    hide After, OneWindow;
  }

  /** On every run, wherever the account's accumulator was last made ready, its window is one of the tiling
      that has begun, and the next check that lists it uses the window of that moment. */
  lemma WindowsFollowClock(
    setup: Setup, start: int, steps: seq<Step>, ctx: Context, a: Account, amount: real, window: Option<Window>)
    requires setup.budgets.Some? && Regular(window) && OneWindow(setup.budgets.value, ctx, a, window)
    requires forall i :: 0 <= i < |steps| && steps[i].event.Started? ==>
               OneWindow(setup.budgets.value, steps[i].event.context, a, window)
    ensures var s, key := After(setup, start, steps), AccountKey(a);
            var o := CheckNow(setup, s, ctx, amount);
            (key in s.accounts ==> Tiled(s.accounts[key], window, s.now))
            && (key in o.scopes ==>
                  key in o.accounts
                  && (o.accounts[key].start, o.accounts[key].end) == Bounds(window, s.now)
                  && o.accounts[key].start <= s.now < o.accounts[key].end.value
                  && Spend(o.accounts, key)
                     == (if key in s.accounts && Slot(window, s.accounts[key].start) == Slot(window, s.now)
                         then Spend(s.accounts, key) else 0.0))
  {
    AfterOrderly(setup, start, steps, a, window);
    CheckedWindow(setup, After(setup, start, steps), ctx, a, amount, window);
    hide After, OneWindow, CheckNow, Bounds, Slot;
  }

  // ---- Other windows ----

  /** Without a window, or with one of no length, nothing is ever dropped; with one of negative length every check
      drops what was spent before it. */
  lemma OtherWindows(window: Option<Window>, acc: Accumulator, start: int, now: int)
    requires !Regular(window) && start <= now && (acc.start, acc.end) == Bounds(window, start)
    ensures var forgets := window.value.Custom? && window.value.durationMs < 0;
            MaybeReset(acc, window, now) == if forgets then Fresh(window, now) else acc
    ensures Bounds(window, now).1.Some? <==> window.value.Custom? && window.value.durationMs < 0
  {
    if window.value.Custom? && window.value.durationMs < 0 {
      var d := -window.value.durationMs;
      FloorBounds(-start, d);
      assert FloorDiv(start, -d) == (-start) / d;
      assert ((-start) / d + 1) * -d == -((-start) / d * d + d);
    }
  }

  // ---- The check after a call ----

  /** A recorded answer of a complete call, when someone listens, is followed by a check at no cost: it warns of each
      account it reaches whose spend, with the cost in it, has come to the threshold and is within the limit.
      Otherwise the accounts are just reconciled and no one is warned. */
  lemma SettlementChecks(setup: Setup, s: State, id: nat, actual: real, recordFails: bool, a: Account)
    requires id in s.calls && setup.budgets.Some?
    ensures var call, s' := s.calls[id], SettleCall(setup, s, id, actual, recordFails);
            var budgets, ctx, key := setup.budgets.value, call.context, AccountKey(a);
            var settled := Reconcile(s.accounts, call.estimate, actual, call.scopes);
            if call.streamed || recordFails || !setup.listens then s'.accounts == settled && s'.warned == s.warned
            else
              Charges(ctx, a) && Enabled(AccountCheck(budgets, ctx, a))
              && (forall i :: 0 <= i < Place(a) ==> !OverLimit(settled, Checks(budgets, ctx)[i], 0.0, s.now)) ==>
                var ready := Ready(settled, key, AccountCheck(budgets, ctx, a).config.value.window, s.now);
                && key in s'.accounts && s'.accounts[key].spend == ready.spend
                && (s'.accounts[key].warned
                    <==> ready.warned || Near(settled, AccountCheck(budgets, ctx, a), 0.0, setup.threshold, s.now))
  {
    var call := s.calls[id];
    var budgets, ctx := setup.budgets.value, call.context;
    var settled := Reconcile(s.accounts, call.estimate, actual, call.scopes);
    if !call.streamed && !recordFails && setup.listens && Charges(ctx, a) && Enabled(AccountCheck(budgets, ctx, a))
       && forall i :: 0 <= i < Place(a) ==> !OverLimit(settled, Checks(budgets, ctx)[i], 0.0, s.now)
    {
      EnabledNotSkipped(AccountCheck(budgets, ctx, a));
      EnabledConfigured(AccountCheck(budgets, ctx, a));
      CheckOfAccount(budgets, ctx, a, Place(a));
      ListedExactly(settled, budgets, ctx, 0.0, setup.threshold, s.now, Place(a));
      MarksExactly(settled, budgets, ctx, a, 0.0, setup.threshold, s.now);
      CheckEffect(settled, budgets, ctx, a, 0.0, setup.threshold, s.now);
    }
    hide Reconcile, Recorded, EntryOf, Warnings, CheckAll, Checks, Ready, OverLimit, Near, Enabled, Charges, AccountKey;
    hide Place;
  }
}
