/** Budget accumulators on values: windows, the check of every scope, reserving and reconciling.
    Costs are exact reals. */
module Budgets {
  import opened Wrappers

  datatype Window = Unbounded | Daily | Custom(durationMs: int)

  datatype Enforcement = Hard | Soft | Disabled

  datatype Scope = Scope(limit: real, enforcement: Option<Enforcement>, window: Option<Window>)

  datatype Config = Config(
    perRequest: Option<Scope>,
    perUser: Option<Scope>,
    perFlow: Option<Scope>,
    overall: Option<Scope>)

  datatype Context = Context(
    executionId: string,
    flowName: string,
    userId: Option<string>,
    flowBudget: Option<Scope>)

  datatype Level = PerRequest | PerUser | PerFlow | Overall

  datatype Check = Check(level: Level, config: Option<Scope>, key: string, skip: bool)

  /** `end` is absent for the unbounded window: the source builds an invalid date, which no time reaches. */
  datatype Accumulator = Accumulator(spend: real, start: int, end: Option<int>, warned: bool)

  datatype Exceeded = Exceeded(level: Level, key: string, spend: real, limit: real)

  datatype Warning = Warning(level: Level, key: string, spend: real, limit: real)

  datatype Verdict = Passed | SoftExceeded(soft: Exceeded) | HardExceeded(hard: Exceeded)

  type Accounts = map<string, Accumulator>

  datatype Outcome = Outcome(accounts: Accounts, verdict: Verdict, warnings: seq<Warning>, scopes: seq<string>)

  const DAY := 86400000

  // ---- Windows ----

  /** Division that rounds down whatever the signs. */
  function FloorDiv(a: int, b: int): int
    requires b != 0
  {
    if b > 0 then a / b else (-a) / (-b)
  }

  function Bounds(window: Option<Window>, now: int): (int, Option<int>) {
    match window.GetOr(Daily)
    case Unbounded => (0, None)
    case Daily => (FloorDiv(now, DAY) * DAY, Some(FloorDiv(now, DAY) * DAY + DAY))
    case Custom(d) =>
      if d == 0 then (0, None) else (FloorDiv(now, d) * d, Some((FloorDiv(now, d) + 1) * d))
  }

  function Fresh(window: Option<Window>, now: int): Accumulator {
    Accumulator(0.0, Bounds(window, now).0, Bounds(window, now).1, false)
  }

  function MaybeReset(acc: Accumulator, window: Option<Window>, now: int): Accumulator {
    if acc.end.Some? && now >= acc.end.value then Fresh(window, now) else acc
  }

  /** The accumulator a check works on. */
  function Ready(accounts: Accounts, key: string, window: Option<Window>, now: int): Accumulator {
    MaybeReset(if key in accounts then accounts[key] else Fresh(window, now), window, now)
  }

  // ---- Checking ----

  function Checks(budgets: Config, ctx: Context): (checks: seq<Check>)
    ensures |checks| == 4
  {
    [ Check(PerRequest, budgets.perRequest, "request", false),
      Check(PerUser, budgets.perUser,
            if ctx.userId.GetOr("") != "" then "user:" + ctx.userId.value else "", ctx.userId.None?),
      Check(PerFlow, if ctx.flowBudget.Some? then ctx.flowBudget else budgets.perFlow, "flow:" + ctx.flowName, false),
      Check(Overall, budgets.overall, "global", false) ]
  }

  predicate Enabled(c: Check) {
    c.config.Some? && !c.skip && c.config.value.enforcement != Some(Disabled)
  }

  function Exceeds(c: Check, spend: real): Verdict
    requires c.config.Some?
  {
    var exceeded := Exceeded(c.level, c.key, spend, c.config.value.limit);
    if c.config.value.enforcement.GetOr(Hard) == Hard then HardExceeded(exceeded) else SoftExceeded(exceeded)
  }

  function CheckAccumulator(o: Outcome, c: Check, amount: real, threshold: real, now: int): Outcome
    requires c.config.Some?
  {
    var limit := c.config.value.limit;
    var acc := Ready(o.accounts, c.key, c.config.value.window, now);
    var ready := o.(accounts := o.accounts[c.key := acc]);
    if acc.spend + amount > limit then ready.(verdict := Exceeds(c, acc.spend))
    else if !acc.warned && acc.spend + amount >= limit * threshold then
      ready.(accounts := ready.accounts[c.key := acc.(warned := true)],
             warnings := o.warnings + [Warning(c.level, c.key, acc.spend + amount, limit)])
    else ready
  }

  /** One turn of the loop over the scopes. */
  function CheckScope(o: Outcome, c: Check, amount: real, threshold: real, now: int): Outcome {
    if !o.verdict.Passed? || !Enabled(c) then o
    else
      var applicable := o.(scopes := o.scopes + [c.key]);
      if c.level == PerRequest then
        if amount > c.config.value.limit then applicable.(verdict := Exceeds(c, 0.0)) else applicable
      else CheckAccumulator(applicable, c, amount, threshold, now)
  }

  function CheckAll(accounts: Accounts, checks: seq<Check>, amount: real, threshold: real, now: int): Outcome {
    if checks == [] then Outcome(accounts, Passed, [], [])
    else
      var n := |checks| - 1;
      CheckScope(CheckAll(accounts, checks[..n], amount, threshold, now), checks[n], amount, threshold, now)
  }

  function CheckBudgets(
    accounts: Accounts, budgets: Option<Config>, ctx: Context, amount: real, threshold: real, now: int): Outcome
  {
    if budgets.None? then Outcome(accounts, Passed, [], [])
    else CheckAll(accounts, Checks(budgets.value, ctx), amount, threshold, now)
  }

  // ---- Reserving and reconciling ----

  function ReserveOne(accounts: Accounts, amount: real, key: string, now: int): Accounts {
    if key in accounts then accounts[key := accounts[key].(spend := accounts[key].spend + amount)]
    else accounts[key := Accumulator(amount, now, Some(now + DAY), false)]
  }

  function Reserve(accounts: Accounts, amount: real, scopes: seq<string>, now: int): Accounts {
    if scopes == [] then accounts
    else ReserveOne(Reserve(accounts, amount, scopes[..|scopes| - 1], now), amount, scopes[|scopes| - 1], now)
  }

  function ReconcileOne(accounts: Accounts, estimated: real, actual: real, key: string): Accounts {
    if key in accounts then accounts[key := accounts[key].(spend := accounts[key].spend - (estimated - actual))]
    else accounts
  }

  function Reconcile(accounts: Accounts, estimated: real, actual: real, scopes: seq<string>): Accounts {
    if scopes == [] then accounts
    else ReconcileOne(Reconcile(accounts, estimated, actual, scopes[..|scopes| - 1]), estimated, actual,
                      scopes[|scopes| - 1])
  }

  function Spend(accounts: Accounts, key: string): real {
    if key in accounts then accounts[key].spend else 0.0
  }

  // ---- Accounts by name ----

  /** Whose spending an accumulator adds up. */
  datatype Account = OfUser(id: string) | OfFlow(name: string) | Everyone

  function AccountKey(a: Account): string {
    match a
    case OfUser(id) => if id != "" then "user:" + id else ""
    case OfFlow(name) => "flow:" + name
    case Everyone => "global"
  }

  /** The place of the account's check among the four. */
  function Place(a: Account): nat {
    match a
    case OfUser(id) => 1
    case OfFlow(name) => 2
    case Everyone => 3
  }

  predicate Charges(ctx: Context, a: Account) {
    match a
    case OfUser(id) => ctx.userId == Some(id)
    case OfFlow(name) => ctx.flowName == name
    case Everyone => true
  }

  /** The check of the account's own scope. */
  function AccountCheck(budgets: Config, ctx: Context, a: Account): Check {
    Checks(budgets, ctx)[Place(a)]
  }

  lemma PrefixApart(prefix: string, x: string, y: string)
    requires prefix + x == prefix + y
    ensures x == y
  {
    assert (prefix + x)[|prefix|..] == x && (prefix + y)[|prefix|..] == y;
  }

  /** The first and fifth characters tell the kinds of keys apart. */
  lemma KeyShape(a: Account)
    ensures a.OfUser? && a.id != "" ==> |AccountKey(a)| > 5 && AccountKey(a)[0] == 'u' && AccountKey(a)[4] == ':'
    ensures a.OfFlow? ==> |AccountKey(a)| >= 5 && AccountKey(a)[0] == 'f' && AccountKey(a)[4] == ':'
    ensures a.Everyone? ==> AccountKey(a)[0] == 'g'
  {
  }

  lemma KeysApart(a: Account, b: Account)
    ensures AccountKey(a) == AccountKey(b) ==> a == b
    ensures AccountKey(a) != "request"
  {
    KeyShape(a);
    KeyShape(b);
    assert "request"[0] == 'r';
    if AccountKey(a) == AccountKey(b) {
      if a.OfUser? && b.OfUser? && a.id != "" {
        PrefixApart("user:", a.id, b.id);
      } else if a.OfFlow? && b.OfFlow? {
        PrefixApart("flow:", a.name, b.name);
      }
    }
  }

  /** A check that is not skipped has the account's key exactly when it is the account's own check. */
  lemma CheckOfAccount(budgets: Config, ctx: Context, a: Account, i: nat)
    requires i < 4 && !Checks(budgets, ctx)[i].skip
    ensures Checks(budgets, ctx)[i].key == AccountKey(a) <==> i == Place(a) && Charges(ctx, a)
    ensures i == 0 <==> Checks(budgets, ctx)[i].level == PerRequest
  {
    KeysApart(a, Everyone);
    KeysApart(a, OfFlow(ctx.flowName));
    if ctx.userId.Some? { KeysApart(a, OfUser(ctx.userId.value)); }
  }

  /** No key appears twice among the checks that are not skipped. */
  lemma ChecksApart(budgets: Config, ctx: Context, i: nat, j: nat)
    requires i < j < 4 && !Checks(budgets, ctx)[i].skip && !Checks(budgets, ctx)[j].skip
    ensures Checks(budgets, ctx)[i].key != Checks(budgets, ctx)[j].key
  {
    var a := if j == 1 then OfUser(ctx.userId.value) else if j == 2 then OfFlow(ctx.flowName) else Everyone;
    CheckOfAccount(budgets, ctx, a, i);
    CheckOfAccount(budgets, ctx, a, j);
  }
}
