/** The model router as an object over the circuit breakers of its providers. */
module RouterObject {
  import opened Wrappers
  import opened Breakers
  import opened Strategies
  import Routes = Routing
  import opened Routing

  class ModelRouter {
    const providers: seq<Registration>
    const maxFallbackAttempts: int
    const choice: Choice
    const breakers: map<string, CircuitBreaker>
    const rotation: RoundRobin
    var lastResolvedProvider: Option<string>

    ghost predicate Valid() {
      && DistinctNames(providers)
      && (forall name :: name in breakers <==> Registered(providers, name))
      && (forall a, b :: a in breakers && b in breakers && a != b ==> breakers[a] != breakers[b])
    }

    ghost function Health(): map<string, Breaker>
      reads breakers.Values
    {
      map name | name in breakers :: breakers[name].View()
    }

    ghost function View(): Router
      reads this, breakers.Values, rotation
    {
      Router(providers, maxFallbackAttempts, choice, rotation.counter, Health(), lastResolvedProvider)
    }

    /** The engine refuses two providers of one name. Without a limit of its own a call may try them all. */
    constructor (providers: seq<Registration>, choice: Choice, maxFallbackAttempts: Option<int>, threshold: int)
      requires DistinctNames(providers)
      ensures Valid() && Wired(View())
      ensures fresh(breakers.Values) && fresh(rotation)
      ensures View() == Router(providers, maxFallbackAttempts.GetOr(|providers| - 1), choice, 0,
                               map name | name in breakers :: New(threshold), None)
    {
      var made := MakeBreakers(providers, threshold);
      this.providers, this.choice, breakers := providers, choice, made;
      this.maxFallbackAttempts := maxFallbackAttempts.GetOr(|providers| - 1);
      rotation := new RoundRobin();
      lastResolvedProvider := None;
    }

    /** Records one attempt at the breaker of its provider. */
    method Note(name: string, ok: bool, ghost attempt: Attempt)
      requires Valid() && name in breakers && attempt.name == name && attempt.ok == ok
      modifies breakers[name]
      ensures Health() == Play(old(Health()), attempt)
    {
      if ok {
        breakers[name].Succeeded();
      } else {
        breakers[name].Failed();
      }
      OneBreaker(name);
    }

    /** Only the breaker of `name` changed. */
    twostate lemma OneBreaker(name: string)
      requires Valid() && name in breakers
      requires forall other :: other in breakers && other != name ==> unchanged(breakers[other])
      ensures Health() == old(Health())[name := breakers[name].View()]
    {
    }

    method FindAvailable() returns (available: seq<Registration>)
      ensures available == AvailableOf(providers, Health())
    {
      available := [];
      for i := 0 to |providers|
        invariant available == AvailableOf(providers[..i], Health())
      {
        assert providers[..i + 1][..i] == providers[..i];
        if providers[i].name !in breakers || breakers[providers[i].name].IsAvailable() {
          available := available + [providers[i]];
        }
      }
      assert providers[..|providers|] == providers;
    }

    /** Applies the strategy; the default rotation is the only one with a memory. */
    method ApplyStrategy(request: Option<Choice>, available: seq<Registration>) returns (ordered: seq<Registration>)
      requires available != []
      modifies rotation
      ensures ordered == OrderOf(old(View()), request, available)
      ensures rotation.counter == old(rotation.counter) + if request.None? && choice.Rotating? then 1 else 0
    {
      match request.GetOr(choice)
      case Sorted(order) => ordered := Sort(order, available);
      case Rotating =>
        if request.None? {
          ordered := rotation.Next(available);
        } else {
          var once := new RoundRobin();
          ordered := once.Next(available);
        }
    }

    /** The fallback loop. */
    method TryInOrder(ordered: seq<Registration>, maxAttempts: nat, reply: nat -> Reply, call: nat)
      returns (answered: Option<string>, errors: seq<string>, ghost attempts: seq<Attempt>)
      requires Valid() && maxAttempts <= |ordered|
      requires forall p :: p in ordered ==> p.name in breakers
      modifies breakers.Values
      ensures attempts == Fallback(ordered[..maxAttempts], reply, call)
      ensures Health() == PlayAll(old(Health()), attempts)
      ensures if attempts != [] && attempts[|attempts| - 1].ok then answered == Some(attempts[|attempts| - 1].name)
              else answered == None && errors == NamesOf(attempts)
    {
      hide Play, Retry, Registered, DistinctNames, Fallback, PlayAll;
      answered, errors, attempts := None, [], [];
      var next := call;
      ghost var tried := ordered[..maxAttempts];
      assert tried[0..] == tried;
      PlayNone(Health());
      for i := 0 to maxAttempts
        invariant |attempts| == i && (i > 0 ==> !attempts[i - 1].ok)
        invariant errors == NamesOf(attempts)
        invariant attempts + Fallback(tried[i..], reply, next) == Fallback(tried, reply, call)
        invariant Health() == PlayAll(old(Health()), attempts)
      {
        var name := ordered[i].name;
        assert ordered[i] in ordered;
        FallbackFrom(tried, i, reply, next);
        var ok, past := CompleteWithRetry(reply, next);
        ghost var attempt := Attempt(name, ok, next, past);
        ghost var before := attempts;
        Note(name, ok, attempt);
        attempts := attempts + [attempt];
        PlayMore(old(Health()), before, attempt);
        if ok {
          answered := Some(name);
          return;
        }
        Regroup(before, attempt, Fallback(tried[i + 1..], reply, past));
        errors := errors + [name];
        next := past;
      }
      FallbackEnd(tried, reply, next);
    }

    /** The part of `complete` after the override. */
    method RouteRest(request: Option<Choice>, reply: nat -> Reply, call: nat, ghost direct: seq<Attempt>)
      returns (result: Result, ghost completion: Completion)
      requires Valid()
      modifies this, breakers.Values, rotation
      ensures completion == Route(old(View()), request, reply, call, direct)
      ensures View() == completion.router && result == completion.result
    {
      hide Route, AvailableOf, OrderOf, Fallback, Registered, PlayAll, Offers, Limit, DistinctNames, NamesOf, Health;
      ghost var before := View();
      ValidOffers(request);
      HealthKeys();
      var available := FindAvailable();
      NoneAvailable(before, request, reply, call, direct);
      if available == [] {
        return NoneHealthy, Completion(before, direct, [], [], NoneHealthy);
      }
      OfferedMembers(before, request);
      var ordered := ApplyStrategy(request, available);
      var limit := Limit(maxFallbackAttempts, |ordered|);
      var answered, errors, attempts := TryInOrder(ordered, limit, reply, call);
      if answered.Some? {
        lastResolvedProvider := answered;
        result := Answered(answered.value);
      } else {
        result := AllFailed(errors);
      }
      RouteIs(before, request, reply, call, direct);
      completion := Route(before, request, reply, call, direct);
    }

    lemma HealthKeys()
      ensures forall name :: name in Health() <==> name in breakers
    {
    }

    lemma ValidOffers(request: Option<Choice>)
      requires Valid()
      ensures Offers(View(), request)
    {
      if AvailableOf(providers, Health()) != [] { OrderMembers(View(), request, AvailableOf(providers, Health())); }
    }

    method Complete(wanted: Option<string>, request: Option<Choice>, reply: nat -> Reply)
      returns (result: Result, ghost completion: Completion)
      requires Valid()
      modifies this, breakers.Values, rotation
      ensures completion == Routes.Complete(old(View()), wanted, request, reply)
      ensures View() == completion.router && result == completion.result
    {
      hide Route, Retry, Play;
      ghost var before := View();
      if wanted.Some? && wanted.value != "" {
        if wanted.value !in breakers {
          return NotFound, Completion(before, [], [], [], NotFound);
        }
        var ok, past := CompleteWithRetry(reply, 0);
        ghost var direct := Attempt(wanted.value, ok, 0, past);
        Note(wanted.value, ok, direct);
        if ok {
          lastResolvedProvider := wanted;
          return Answered(wanted.value), Completion(View(), [direct], [], [], Answered(wanted.value));
        }
        result, completion := RouteRest(request, reply, past, [direct]);
      } else {
        result, completion := RouteRest(request, reply, 0, []);
      }
    }
  }

  method MakeBreakers(providers: seq<Registration>, threshold: int) returns (made: map<string, CircuitBreaker>)
    requires DistinctNames(providers)
    ensures forall name :: name in made <==> Registered(providers, name)
    ensures forall a, b :: a in made && b in made && a != b ==> made[a] != made[b]
    ensures fresh(made.Values) && forall name :: name in made ==> made[name].View() == New(threshold)
  {
    made := map[];
    for i := 0 to |providers|
      invariant forall name :: name in made <==> Registered(providers[..i], name)
      invariant forall a, b :: a in made && b in made && a != b ==> made[a] != made[b]
      invariant fresh(made.Values) && forall name :: name in made ==> made[name].View() == New(threshold)
    {
      var breaker := new CircuitBreaker(threshold);
      ghost var before := made;
      assert breaker !in before.Values;
      made := made[providers[i].name := breaker];
      assert made.Values <= before.Values + {breaker};
      RegisteredMore(providers, i);
    }
    assert providers[..|providers|] == providers;
  }

  lemma RegisteredMore(providers: seq<Registration>, i: nat)
    requires i < |providers|
    ensures forall name ::
              Registered(providers[..i + 1], name) <==> Registered(providers[..i], name) || name == providers[i].name
  {
    var more := providers[..i + 1];
    assert more == providers[..i] + [providers[i]];
    assert more[i] == providers[i];
    forall name | Registered(providers[..i], name) ensures Registered(more, name) {
      var k :| 0 <= k < i && providers[..i][k].name == name;
      assert more[k].name == name;
    }
    forall name | Registered(more, name) && name != providers[i].name ensures Registered(providers[..i], name) {
      var k :| 0 <= k < i + 1 && more[k].name == name;
      assert providers[..i][k].name == name;
    }
  }

  /** One turn of the loop. */
  lemma FallbackFrom(tried: seq<Registration>, i: nat, reply: nat -> Reply, call: nat)
    requires i < |tried|
    ensures var (ok, past) := Retry(reply, call, 1);
            var attempt := Attempt(tried[i].name, ok, call, past);
            Fallback(tried[i..], reply, call)
            == if ok then [attempt] else [attempt] + Fallback(tried[i + 1..], reply, past)
  {
    assert tried[i..][1..] == tried[i + 1..];
    hide Retry;
  }

  lemma FallbackEnd(tried: seq<Registration>, reply: nat -> Reply, call: nat)
    ensures Fallback(tried[|tried|..], reply, call) == []
  {
  }

  lemma PlayNone(breakers: map<string, Breaker>)
    ensures PlayAll(breakers, []) == breakers
  {
  }

  lemma PlayMore(breakers: map<string, Breaker>, attempts: seq<Attempt>, attempt: Attempt)
    ensures PlayAll(breakers, attempts + [attempt]) == Play(PlayAll(breakers, attempts), attempt)
  {
    assert (attempts + [attempt])[..|attempts|] == attempts;
    hide Play;
  }

  lemma Regroup(before: seq<Attempt>, attempt: Attempt, rest: seq<Attempt>)
    ensures before + ([attempt] + rest) == (before + [attempt]) + rest
  {
  }

  function Limit(maxFallbackAttempts: int, n: nat): (limit: nat)
    ensures limit <= n
  {
    var most := if maxFallbackAttempts + 1 < n then maxFallbackAttempts + 1 else n;
    if most < 0 then 0 else most
  }

  /** Whatever the loop may try has a breaker. */
  ghost predicate Offers(r: Router, request: Option<Choice>) {
    var available := AvailableOf(r.providers, r.breakers);
    available != [] ==> forall p :: p in OrderOf(r, request, available) ==> p.name in r.breakers
  }

  lemma OfferedMembers(r: Router, request: Option<Choice>)
    requires Offers(r, request) && AvailableOf(r.providers, r.breakers) != []
    ensures forall p :: p in OrderOf(r, request, AvailableOf(r.providers, r.breakers)) ==> p.name in r.breakers
  {
  }

  lemma NoneAvailable(r: Router, request: Option<Choice>, reply: nat -> Reply, call: nat, direct: seq<Attempt>)
    ensures AvailableOf(r.providers, r.breakers) == [] ==>
              Route(r, request, reply, call, direct) == Completion(r, direct, [], [], NoneHealthy)
  {
  }

  /** The parts of a routed call. */
  lemma RouteIs(r: Router, request: Option<Choice>, reply: nat -> Reply, call: nat, direct: seq<Attempt>)
    requires AvailableOf(r.providers, r.breakers) != []
    ensures var ordered := OrderOf(r, request, AvailableOf(r.providers, r.breakers));
            var attempts := Fallback(ordered[..Limit(r.maxFallbackAttempts, |ordered|)], reply, call);
            var ok := attempts != [] && attempts[|attempts| - 1].ok;
            var c := Route(r, request, reply, call, direct);
            (c.result == (if ok then Answered(attempts[|attempts| - 1].name) else AllFailed(NamesOf(attempts)))
             && c.router == r.(counter := r.counter + (if request.None? && r.choice.Rotating? then 1 else 0),
                               breakers := PlayAll(r.breakers, attempts),
                               last := if ok then Some(attempts[|attempts| - 1].name) else r.last))
  {
    hide AvailableOf, OrderOf, Fallback, PlayAll, NamesOf;
  }

  lemma OrderMembers(r: Router, request: Option<Choice>, available: seq<Registration>)
    requires Wired(r) && available == AvailableOf(r.providers, r.breakers) != []
    ensures forall p :: p in OrderOf(r, request, available) ==> p.name in r.breakers
  {
    AvailableMembers(r.providers, r.breakers);
    OrderPermutes(r, request, available);
    PermutedNames(OrderOf(r, request, available), available);
    forall p | p in r.providers ensures Registered(r.providers, p.name) {
      var i :| 0 <= i < |r.providers| && r.providers[i] == p;
    }
    hide OrderOf, AvailableOf, IsOpenFor, Registered;
  }
}
