/** `ModelRouter.complete`: an optional override, then the available providers in the strategy's order,
    each with a bounded retry. What the providers answer is an input: `reply(k)` is the result of the
    k-th call the router makes. */
module Routing {
  import opened Wrappers
  import opened Breakers
  import opened Strategies

  datatype Reply = Answer | Transient | Fatal

  const RETRY_MAX_ATTEMPTS := 3

  /** The attempt made of one provider: its calls were those from `first` up to `past`. */
  datatype Attempt = Attempt(name: string, ok: bool, first: nat, past: nat)

  datatype Result = Answered(name: string) | AllFailed(errors: seq<string>) | NoneHealthy | NotFound

  // ---- The retry loop ----

  /** Whether the provider answered, and the number of the next call. */
  function Retry(reply: nat -> Reply, call: nat, attempt: nat): (bool, nat)
    requires 1 <= attempt <= RETRY_MAX_ATTEMPTS
    decreases RETRY_MAX_ATTEMPTS - attempt
  {
    if reply(call) == Answer then (true, call + 1)
    else if reply(call) != Transient || attempt == RETRY_MAX_ATTEMPTS then (false, call + 1)
    else Retry(reply, call + 1, attempt + 1)
  }

  /** A provider is called until it answers, fails for good, or has failed three times: all but the last
      of its calls failed transiently. */
  ghost predicate Tried(reply: nat -> Reply, a: Attempt) {
    && 1 <= a.past - a.first <= 3
    && (forall k :: a.first <= k < a.past - 1 ==> reply(k) == Transient)
    && (a.ok <==> reply(a.past - 1) == Answer)
    && (reply(a.past - 1) == Transient ==> a.past - a.first == 3)
  }

  lemma {:induction false} RetryTries(reply: nat -> Reply, first: nat, call: nat, attempt: nat, name: string)
    requires 1 <= attempt <= RETRY_MAX_ATTEMPTS && call == first + attempt - 1
    requires forall k :: first <= k < call ==> reply(k) == Transient
    ensures var (ok, past) := Retry(reply, call, attempt); Tried(reply, Attempt(name, ok, first, past))
    decreases RETRY_MAX_ATTEMPTS - attempt
  {
    if reply(call) == Transient && attempt < RETRY_MAX_ATTEMPTS {
      RetryTries(reply, first, call + 1, attempt + 1, name);
    }
  }

  method CompleteWithRetry(reply: nat -> Reply, call: nat) returns (ok: bool, past: nat)
    ensures (ok, past) == Retry(reply, call, 1)
    ensures call < past <= call + 3
    ensures ok <==> reply(past - 1) == Answer
  {
    past := call;
    for attempt := 1 to RETRY_MAX_ATTEMPTS + 1
      invariant past == call + attempt - 1
      invariant attempt <= RETRY_MAX_ATTEMPTS
      invariant Retry(reply, past, attempt) == Retry(reply, call, 1)
    {
      var answer := reply(past);
      past := past + 1;
      if answer == Answer {
        return true, past;
      }
      if answer != Transient || attempt == RETRY_MAX_ATTEMPTS {
        return false, past;
      }
    }
    assert false;
  }

  // ---- The fallback loop ----

  /** The attempts of the loop over the ordered providers, and the one that answered. */
  function Fallback(ordered: seq<Registration>, reply: nat -> Reply, call: nat): seq<Attempt>
    decreases |ordered|
  {
    if ordered == [] then []
    else
      var (ok, past) := Retry(reply, call, 1);
      var attempt := Attempt(ordered[0].name, ok, call, past);
      if ok then [attempt] else [attempt] + Fallback(ordered[1..], reply, past)
  }

  function NamesOf(attempts: seq<Attempt>): (names: seq<string>)
    ensures |names| == |attempts| && forall i :: 0 <= i < |names| ==> names[i] == attempts[i].name
  {
    seq(|attempts|, i requires 0 <= i < |attempts| => attempts[i].name)
  }

  /** The attempts follow the order from its start, one call after the other; all but the last failed,
      and the loop stops early only at an answer. */
  ghost predicate Follows(ordered: seq<Registration>, attempts: seq<Attempt>, reply: nat -> Reply, call: nat) {
    && |attempts| <= |ordered|
    && (forall i :: 0 <= i < |attempts| ==> attempts[i].name == ordered[i].name && Tried(reply, attempts[i]))
    && (forall i :: 0 <= i < |attempts| - 1 ==> !attempts[i].ok && attempts[i + 1].first == attempts[i].past)
    && (attempts != [] ==> attempts[0].first == call)
    && (|attempts| < |ordered| ==> attempts != [] && attempts[|attempts| - 1].ok)
  }

  lemma {:induction false} FallbackFollows(ordered: seq<Registration>, reply: nat -> Reply, call: nat)
    ensures Follows(ordered, Fallback(ordered, reply, call), reply, call)
    decreases |ordered|
  {
    if ordered != [] {
      RetryTries(reply, call, call, 1, ordered[0].name);
      var (ok, past) := Retry(reply, call, 1);
      hide Tried, Retry;
      if !ok { FallbackFollows(ordered[1..], reply, past); }
    }
  }

  /** How many calls attempts have made. */
  function Calls(attempts: seq<Attempt>, call: nat): nat {
    if attempts == [] then call else attempts[|attempts| - 1].past
  }

  lemma {:induction false} FallbackCalls(ordered: seq<Registration>, reply: nat -> Reply, call: nat)
    ensures call <= Calls(Fallback(ordered, reply, call), call) <= call + RETRY_MAX_ATTEMPTS * |ordered|
    decreases |ordered|
  {
    if ordered != [] {
      RetryTries(reply, call, call, 1, ordered[0].name);
      var (ok, past) := Retry(reply, call, 1);
      if !ok { FallbackCalls(ordered[1..], reply, past); }
    }
  }

  // ---- The whole call ----

  datatype Choice = Sorted(order: Order) | Rotating

  datatype Router = Router(
    providers: seq<Registration>,
    maxFallbackAttempts: int,
    choice: Choice,
    counter: nat,
    breakers: map<string, Breaker>,
    last: Option<string>)

  /** `direct` is the attempt of the override, if any, `attempts` those of the loop over `ordered`. */
  datatype Completion = Completion(
    router: Router,
    direct: seq<Attempt>,
    ordered: seq<Registration>,
    attempts: seq<Attempt>,
    result: Result)

  function Play(breakers: map<string, Breaker>, a: Attempt): map<string, Breaker> {
    if a.name !in breakers then breakers
    else breakers[a.name := if a.ok then RecordSuccess(breakers[a.name]) else RecordFailure(breakers[a.name])]
  }

  function PlayAll(breakers: map<string, Breaker>, attempts: seq<Attempt>): map<string, Breaker> {
    if attempts == [] then breakers
    else Play(PlayAll(breakers, attempts[..|attempts| - 1]), attempts[|attempts| - 1])
  }

  predicate IsOpenFor(breakers: map<string, Breaker>, p: Registration) {
    p.name in breakers ==> Available(breakers[p.name])
  }

  function AvailableOf(providers: seq<Registration>, breakers: map<string, Breaker>): seq<Registration> {
    if providers == [] then []
    else
      var n := |providers| - 1;
      AvailableOf(providers[..n], breakers) + if IsOpenFor(breakers, providers[n]) then [providers[n]] else []
  }

  predicate Registered(providers: seq<Registration>, name: string) {
    exists i :: 0 <= i < |providers| && providers[i].name == name
  }

  /** An override of the strategy makes a new rotation, which starts at its first provider. */
  function OrderOf(r: Router, request: Option<Choice>, available: seq<Registration>): seq<Registration>
    requires available != []
  {
    match request.GetOr(r.choice)
    case Sorted(order) => Sort(order, available)
    case Rotating => Rotate(available, if request.Some? then 0 else r.counter % |available|)
  }

  function Counted(r: Router, request: Option<Choice>): Router {
    if request.None? && r.choice.Rotating? then r.(counter := r.counter + 1) else r
  }

  function MaxAttempts(r: Router, n: nat): (limit: nat)
    ensures limit <= n
  {
    if r.maxFallbackAttempts + 1 < 0 then 0
    else if r.maxFallbackAttempts + 1 < n then r.maxFallbackAttempts + 1 else n
  }

  /** The part of `complete` after the override. */
  function Route(r: Router, request: Option<Choice>, reply: nat -> Reply, call: nat, direct: seq<Attempt>): Completion {
    var available := AvailableOf(r.providers, r.breakers);
    if available == [] then Completion(r, direct, [], [], NoneHealthy)
    else
      var ordered := OrderOf(r, request, available);
      var attempts := Fallback(ordered[..MaxAttempts(r, |ordered|)], reply, call);
      var played := Counted(r, request).(breakers := PlayAll(r.breakers, attempts));
      if attempts != [] && attempts[|attempts| - 1].ok then
        var name := attempts[|attempts| - 1].name;
        Completion(played.(last := Some(name)), direct, ordered, attempts, Answered(name))
      else Completion(played, direct, ordered, attempts, AllFailed(NamesOf(attempts)))
  }

  /** An empty provider name asks for no provider. */
  predicate Asked(wanted: Option<string>) {
    wanted.Some? && wanted.value != ""
  }

  function Complete(r: Router, wanted: Option<string>, request: Option<Choice>, reply: nat -> Reply): Completion {
    if !Asked(wanted) then Route(r, request, reply, 0, [])
    else if !Registered(r.providers, wanted.value) then Completion(r, [], [], [], NotFound)
    else
      var (ok, past) := Retry(reply, 0, 1);
      var direct := Attempt(wanted.value, ok, 0, past);
      var played := r.(breakers := Play(r.breakers, direct));
      if ok then Completion(played.(last := wanted), [direct], [], [], Answered(wanted.value))
      else Route(played, request, reply, past, [direct])
  }

  // ---- What it promises ----

  /** What the router's constructor makes of providers with unique names: a breaker for each. */
  ghost predicate Wired(r: Router) {
    && DistinctNames(r.providers)
    && (forall name :: name in r.breakers <==> Registered(r.providers, name))
  }

  predicate DistinctNames(ps: seq<Registration>) {
    forall i, j :: 0 <= i < j < |ps| ==> ps[i].name != ps[j].name
  }

  lemma {:induction false} AvailableMembers(providers: seq<Registration>, breakers: map<string, Breaker>)
    requires DistinctNames(providers)
    ensures DistinctNames(AvailableOf(providers, breakers))
    ensures forall p :: p in AvailableOf(providers, breakers) <==> p in providers && IsOpenFor(breakers, p)
  {
    if providers != [] {
      var n := |providers| - 1;
      AvailableMembers(providers[..n], breakers);
      assert providers == providers[..n] + [providers[n]];
      hide IsOpenFor;
      var before := AvailableOf(providers[..n], breakers);
      forall i | 0 <= i < |before| ensures before[i].name != providers[n].name {
        assert before[i] in before;
      }
    }
  }

  /** A permutation of distinctly named providers is distinctly named. */
  lemma {:induction false} PermutedNames(a: seq<Registration>, b: seq<Registration>)
    requires Permutes(a, b) && DistinctNames(b)
    ensures DistinctNames(a) && |a| == |b|
    ensures forall p :: p in a <==> p in b
  {
    assert |multiset(a)| == |multiset(b)|;
    forall p ensures p in a <==> p in b {
      assert p in multiset(a) <==> p in multiset(b);
    }
    forall i, j | 0 <= i < j < |a| ensures a[i].name != a[j].name {
      assert a[i] in a && a[j] in a;
      if a[i].name == a[j].name {
        var x :| 0 <= x < |b| && b[x] == a[i];
        var y :| 0 <= y < |b| && b[y] == a[j];
        TwiceInMultiset(a, i, j);
        OnceInMultiset(b, a[i]);
      }
    }
  }

  lemma TwiceInMultiset(a: seq<Registration>, i: nat, j: nat)
    requires i < j < |a| && a[i] == a[j]
    ensures multiset(a)[a[i]] >= 2
  {
    assert a == a[..i] + [a[i]] + a[i + 1..j] + [a[j]] + a[j + 1..];
  }

  lemma {:induction false} OnceInMultiset(b: seq<Registration>, p: Registration)
    requires DistinctNames(b)
    ensures multiset(b)[p] <= 1
  {
    if b != [] {
      var n := |b| - 1;
      assert b == b[..n] + [b[n]];
      OnceInMultiset(b[..n], p);
      if p == b[n] {
        assert p !in b[..n];
        assert multiset(b[..n])[p] == 0;
      }
    }
  }

  /** The loop runs over a permutation of the available providers, in the strategy's order. */
  lemma OrderPermutes(r: Router, request: Option<Choice>, available: seq<Registration>)
    requires available != []
    ensures Permutes(OrderOf(r, request, available), available)
    ensures request.GetOr(r.choice).Sorted? ==>
              Strategies.Sorted(request.GetOr(r.choice).order, OrderOf(r, request, available))
  {
    match request.GetOr(r.choice)
    case Sorted(order) => SortIsStable(order, available, None);
    case Rotating => RotatePermutes(available, if request.Some? then 0 else r.counter % |available|);
  }

  /** The loop runs over the available providers, each once. */
  ghost predicate Offered(r: Router, ordered: seq<Registration>) {
    DistinctNames(ordered) && forall p :: p in ordered <==> p in r.providers && IsOpenFor(r.breakers, p)
  }

  /** The result is that of the last attempt. */
  predicate Concluded(result: Result, attempts: seq<Attempt>, limit: nat) {
    match result
    case AllFailed(errors) =>
      && |attempts| == limit
      && errors == NamesOf(attempts)
      && forall i :: 0 <= i < |attempts| ==> !attempts[i].ok
    case Answered(name) =>
      attempts != [] && attempts[|attempts| - 1].ok && name == attempts[|attempts| - 1].name
    case NoneHealthy => attempts == []
    case NotFound => false
  }

  /** Sorted and stable, which leaves one such order; or the rotation of the available providers that starts
      at the router's counter, or at the first provider when the request brings its own strategy. */
  ghost predicate InStrategyOrder(r: Router, request: Option<Choice>, ordered: seq<Registration>) {
    var available := AvailableOf(r.providers, r.breakers);
    match request.GetOr(r.choice)
    case Sorted(order) =>
      && Strategies.Sorted(order, ordered) && Permutes(ordered, available)
      && forall rank :: SameByRank(order, ordered, available, rank)
    case Rotating =>
      && |ordered| == |available|
      && forall k :: 0 <= k < |ordered| ==>
           ordered[k] == available[((if request.Some? then 0 else r.counter) + k) % |available|]
  }

  /** The attempts of the loop follow the strategy's order of the available providers, from its start and
      no further than the fallback limit, and their outcome is the result. */
  ghost predicate Routed(r: Router, request: Option<Choice>, c: Completion, reply: nat -> Reply, call: nat) {
    && Offered(r, c.ordered)
    && InStrategyOrder(r, request, c.ordered)
    && Follows(c.ordered[..MaxAttempts(r, |c.ordered|)], c.attempts, reply, call)
    && Concluded(c.result, c.attempts, MaxAttempts(r, |c.ordered|))
    && (c.result.NoneHealthy? <==> c.ordered == [])
    && c.router.last == (if c.result.Answered? then Some(c.result.name) else r.last)
    && c.router == r.(breakers := PlayAll(r.breakers, c.attempts), last := c.router.last, counter := c.router.counter)
    && c.router.counter == r.counter + if c.ordered != [] && request.None? && r.choice.Rotating? then 1 else 0
  }

  /** A rotation by a counter, place by place. */
  lemma RotateAt(ps: seq<Registration>, counter: nat, k: nat)
    requires k < |ps|
    ensures Rotate(ps, counter % |ps|)[k] == ps[(counter + k) % |ps|]
  {
    TurnStarts(counter, |ps|, k);
  }

  lemma SortedOrder(order: Order, ps: seq<Registration>)
    ensures Strategies.Sorted(order, Sort(order, ps)) && Permutes(Sort(order, ps), ps)
    ensures forall rank :: SameByRank(order, Sort(order, ps), ps, rank)
  {
    SortIsStable(order, ps, None);
    forall rank ensures SameByRank(order, Sort(order, ps), ps, rank) {
      SortIsStable(order, ps, rank);
    }
    hide Sort, Strategies.Sorted, Permutes, OfRank;
  }

  lemma RotatedOrder(ps: seq<Registration>, counter: nat)
    requires ps != []
    ensures |Rotate(ps, counter % |ps|)| == |ps|
    ensures forall k :: 0 <= k < |ps| ==> Rotate(ps, counter % |ps|)[k] == ps[(counter + k) % |ps|]
  {
    forall k | 0 <= k < |ps| ensures Rotate(ps, counter % |ps|)[k] == ps[(counter + k) % |ps|] {
      RotateAt(ps, counter, k);
    }
  }

  lemma OrderIsStrategys(r: Router, request: Option<Choice>, available: seq<Registration>)
    requires available == AvailableOf(r.providers, r.breakers) != []
    ensures InStrategyOrder(r, request, OrderOf(r, request, available))
  {
    hide AvailableOf, Sort, Strategies.Sorted, Permutes, SameByRank, Rotate;
    match request.GetOr(r.choice)
    case Sorted(order) => SortedOrder(order, available);
    case Rotating =>
      if request.Some? {
        assert 0 % |available| == 0;
        RotatedOrder(available, 0);
      } else {
        RotatedOrder(available, r.counter);
      }
  }

  lemma OrderOffers(r: Router, request: Option<Choice>, available: seq<Registration>)
    requires DistinctNames(r.providers) && available == AvailableOf(r.providers, r.breakers) != []
    ensures Offered(r, OrderOf(r, request, available)) && OrderOf(r, request, available) != []
  {
    hide OrderOf, IsOpenFor, DistinctNames, Permutes;
    AvailableMembers(r.providers, r.breakers);
    OrderPermutes(r, request, available);
    PermutedNames(OrderOf(r, request, available), available);
  }

  lemma FollowsConcludes(ordered: seq<Registration>, attempts: seq<Attempt>, reply: nat -> Reply, call: nat)
    requires Follows(ordered, attempts, reply, call)
    ensures if attempts != [] && attempts[|attempts| - 1].ok
            then Concluded(Answered(attempts[|attempts| - 1].name), attempts, |ordered|)
            else Concluded(AllFailed(NamesOf(attempts)), attempts, |ordered|)
  {
    hide Tried;
  }

  lemma TriesInOrder(r: Router, request: Option<Choice>, reply: nat -> Reply, call: nat, direct: seq<Attempt>)
    requires Wired(r)
    ensures Routed(r, request, Route(r, request, reply, call, direct), reply, call)
  {
    hide AvailableOf, OrderOf, Fallback, Offered, Concluded, Follows, PlayAll, NamesOf, MaxAttempts, InStrategyOrder;
    var available := AvailableOf(r.providers, r.breakers);
    if available != [] {
      OrderOffers(r, request, available);
      OrderIsStrategys(r, request, available);
      var ordered := OrderOf(r, request, available);
      var tried := ordered[..MaxAttempts(r, |ordered|)];
      FallbackFollows(tried, reply, call);
      FollowsConcludes(tried, Fallback(tried, reply, call), reply, call);
    } else {
      NothingRouted(r, request, reply, call);
    }
  }

  lemma NothingRouted(r: Router, request: Option<Choice>, reply: nat -> Reply, call: nat)
    requires DistinctNames(r.providers) && AvailableOf(r.providers, r.breakers) == []
    ensures Offered(r, []) && InStrategyOrder(r, request, [])
    ensures Follows([], [], reply, call) && Concluded(NoneHealthy, [], 0)
    ensures MaxAttempts(r, 0) == 0 && PlayAll(r.breakers, []) == r.breakers
  {
    AvailableMembers(r.providers, r.breakers);
  }

  /** Whether attempts of a provider answered, in order. */
  function OutcomesOf(attempts: seq<Attempt>, name: string): seq<bool> {
    if attempts == [] then []
    else
      var n := |attempts| - 1;
      OutcomesOf(attempts[..n], name) + if attempts[n].name == name then [attempts[n].ok] else []
  }

  /** Every attempt is one record at its own provider's breaker, and there are no others. */
  lemma {:induction false} RecordsAreAttempts(breakers: map<string, Breaker>, attempts: seq<Attempt>, name: string)
    requires name in breakers
    ensures var played := PlayAll(breakers, attempts);
            played.Keys == breakers.Keys
            && played[name].records == breakers[name].records + OutcomesOf(attempts, name)
  {
    if attempts != [] { RecordsAreAttempts(breakers, attempts[..|attempts| - 1], name); }
  }

  lemma {:induction false} NoOutcome(attempts: seq<Attempt>, name: string)
    requires forall i :: 0 <= i < |attempts| ==> attempts[i].name != name
    ensures OutcomesOf(attempts, name) == []
  {
    if attempts != [] { NoOutcome(attempts[..|attempts| - 1], name); }
  }

  /** Distinct attempts leave one record at the i-th provider: its own outcome. */
  lemma {:induction false} OneOutcome(attempts: seq<Attempt>, i: nat)
    requires i < |attempts|
    requires forall j, k :: 0 <= j < k < |attempts| ==> attempts[j].name != attempts[k].name
    ensures OutcomesOf(attempts, attempts[i].name) == [attempts[i].ok]
  {
    var n := |attempts| - 1;
    if i < n { OneOutcome(attempts[..n], i); } else { NoOutcome(attempts[..n], attempts[n].name); }
  }

  lemma AttemptsDistinct(
    r: Router, request: Option<Choice>, c: Completion, reply: nat -> Reply, call: nat, i: nat, j: nat)
    requires Routed(r, request, c, reply, call) && i < j < |c.attempts|
    ensures c.attempts[i].name != c.attempts[j].name
  {
    var tried := c.ordered[..MaxAttempts(r, |c.ordered|)];
    assert c.attempts[i].name == tried[i].name && c.attempts[j].name == tried[j].name;
    hide Tried;
  }

  /** The state in which the loop starts: the override, if any, has been recorded. */
  function Entered(r: Router, c: Completion): Router {
    r.(breakers := PlayAll(r.breakers, c.direct))
  }

  function FirstCall(c: Completion): nat {
    Calls(c.direct, 0)
  }

  lemma PlayOne(breakers: map<string, Breaker>, a: Attempt)
    ensures PlayAll(breakers, []) == breakers
    ensures PlayAll(breakers, [a]) == Play(breakers, a)
  {
    assert [a][..0] == [];
  }

  lemma PlayWired(r: Router, a: Attempt)
    requires Wired(r)
    ensures Wired(r.(breakers := Play(r.breakers, a)))
  {
  }

  /** A call either ends at its override or goes through the loop. */
  lemma CompleteRoutes(r: Router, wanted: Option<string>, request: Option<Choice>, reply: nat -> Reply)
    requires Wired(r)
    ensures var c := Complete(r, wanted, request, reply);
            var named := wanted.Some? && wanted.value != "";
            (|c.direct| <= 1
             && (c.direct != [] <==> named && Registered(r.providers, wanted.value))
             && (c.direct != [] ==>
                   c.direct[0].name == wanted.value && c.direct[0].first == 0 && Tried(reply, c.direct[0]))
             && (if named && c.direct == [] then c.result == NotFound && c.router == r && c.attempts == []
                 else if c.direct != [] && c.direct[0].ok then
                   c.result == Answered(wanted.value) && c.attempts == []
                   && c.router == r.(last := wanted, breakers := PlayAll(r.breakers, c.direct))
                 else Routed(Entered(r, c), request, c, reply, FirstCall(c))))
  {
    hide Routed, Tried, Play, PlayAll, Registered, Route;
    if !Asked(wanted) {
      assert r.(breakers := PlayAll(r.breakers, [])) == r by { PlayOne(r.breakers, Attempt("", false, 0, 1)); }
      TriesInOrder(r, request, reply, 0, []);
      RouteDirect(r, request, reply, 0, []);
    } else if Registered(r.providers, wanted.value) {
      RetryTries(reply, 0, 0, 1, wanted.value);
      var (ok, past) := Retry(reply, 0, 1);
      var direct := Attempt(wanted.value, ok, 0, past);
      PlayOne(r.breakers, direct);
      hide Retry;
      if !ok {
        PlayWired(r, direct);
        hide Wired;
        TriesInOrder(r.(breakers := Play(r.breakers, direct)), request, reply, past, [direct]);
        RouteDirect(r.(breakers := Play(r.breakers, direct)), request, reply, past, [direct]);
      }
    }
  }

  lemma RouteDirect(r: Router, request: Option<Choice>, reply: nat -> Reply, call: nat, direct: seq<Attempt>)
    ensures Route(r, request, reply, call, direct).direct == direct
  {
    hide Fallback, OrderOf, AvailableOf;
  }

  /** At every breaker a call leaves the outcome of its override there, if any, and of its attempt in the
      loop, if any: one record each, and nothing else. */
  lemma OneRecordPerAttempt(
    r: Router, wanted: Option<string>, request: Option<Choice>, reply: nat -> Reply, name: string)
    requires Wired(r) && name in r.breakers
    ensures var c := Complete(r, wanted, request, reply);
            (name in c.router.breakers
             && c.router.breakers[name].records
                == r.breakers[name].records + OutcomesOf(c.direct, name) + OutcomesOf(c.attempts, name)
             && forall i :: 0 <= i < |c.attempts| ==> OutcomesOf(c.attempts, c.attempts[i].name) == [c.attempts[i].ok])
  {
    hide Complete, Wired, Registered, Tried, PlayAll, OutcomesOf, Concluded, Follows, Offered;
    var c := Complete(r, wanted, request, reply);
    CompleteRoutes(r, wanted, request, reply);
    RecordsAreAttempts(r.breakers, c.direct, name);
    var entered := Entered(r, c);
    if c.attempts != [] {
      forall i, j | 0 <= i < j < |c.attempts| ensures c.attempts[i].name != c.attempts[j].name {
        AttemptsDistinct(entered, request, c, reply, FirstCall(c), i, j);
      }
      forall i | 0 <= i < |c.attempts| ensures OutcomesOf(c.attempts, c.attempts[i].name) == [c.attempts[i].ok] {
        OneOutcome(c.attempts, i);
      }
    }
    NothingOutcome(name);
    PlayOne(r.breakers, Attempt("", false, 0, 1));
    PlayOne(entered.breakers, Attempt("", false, 0, 1));
    RecordsAreAttempts(entered.breakers, c.attempts, name);
  }

  lemma NothingOutcome(name: string)
    ensures OutcomesOf([], name) == []
  {
  }

  /** A call makes at most three calls of each provider it may try, and three more for an override. */
  lemma CallBound(r: Router, wanted: Option<string>, request: Option<Choice>, reply: nat -> Reply)
    requires Wired(r)
    ensures var c := Complete(r, wanted, request, reply);
            Calls(c.attempts, FirstCall(c)) <= 3 * (MaxAttempts(r, |c.ordered|) + |c.direct|)
  {
    hide Wired, Registered, Follows, Offered, Concluded, Routed, PlayAll, Play, AvailableOf, OrderOf, Retry;
    var c := Complete(r, wanted, request, reply);
    CompleteRoutes(r, wanted, request, reply);
    FallbackCalls(c.ordered[..MaxAttempts(r, |c.ordered|)], reply, FirstCall(c));
    hide Fallback;
  }

  /** The loop gives up only when it has tried every available provider or one more than the fallbacks allowed,
      and it never tries more. A negative number of fallbacks below minus one allows none. */
  lemma GivesUpAtLimit(r: Router, wanted: Option<string>, request: Option<Choice>, reply: nat -> Reply)
    requires Wired(r)
    ensures var c, allowed := Complete(r, wanted, request, reply), r.maxFallbackAttempts + 1;
            && (c.attempts != [] ==> |c.attempts| <= allowed) && |c.attempts| <= |c.ordered|
            && (c.result.AllFailed? ==>
                  c.ordered != []
                  && (|c.attempts| == |c.ordered| || |c.attempts| == allowed || (allowed < 0 && c.attempts == [])))
  {
    hide Wired, Registered, Follows, Offered, PlayAll, Play, AvailableOf, OrderOf, Retry, InStrategyOrder;
    var c := Complete(r, wanted, request, reply);
    CompleteRoutes(r, wanted, request, reply);
    hide Complete;
    if c.ordered != [] || c.attempts != [] || c.result.AllFailed? {
      FollowsLimit(Entered(r, c), request, c, reply, FirstCall(c));
    }
  }

  lemma FollowsLimit(r: Router, request: Option<Choice>, c: Completion, reply: nat -> Reply, call: nat)
    requires Routed(r, request, c, reply, call)
    ensures |c.attempts| <= MaxAttempts(r, |c.ordered|)
    ensures c.result.AllFailed? ==> |c.attempts| == MaxAttempts(r, |c.ordered|) && c.ordered != []
  {
    hide Tried, Offered, InStrategyOrder, PlayAll, MaxAttempts;
  }
}
