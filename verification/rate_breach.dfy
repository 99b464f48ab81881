/** The runs that break a bound, and the theorem that nothing else does. */
module RateBreach {
  import opened Wrappers
  import opened RateLimits
  import opened RateWindows
  import opened RateBound

  function Times(n: nat, at: int): (ts: seq<int>)
    ensures |ts| == n && forall i :: 0 <= i < n ==> ts[i] == at
  {
    if n == 0 then [] else Times(n - 1, at) + [at]
  }

  function Calls(n: nat, c: Config, who: Caller): (steps: seq<Step>)
    ensures |steps| == n && forall i :: 0 <= i < n ==> steps[i] == Step(0, CheckCall(c, who))
  {
    if n == 0 then [] else Calls(n - 1, c, who) + [Step(0, CheckCall(c, who))]
  }

  lemma {:induction false} LiveTimes(n: nat, at: int, start: int)
    ensures Live(Times(n, at), start) == if at > start then Times(n, at) else []
  {
    if n > 0 {
      assert Times(n, at)[..n - 1] == Times(n - 1, at);
      LiveTimes(n - 1, at, start);
    }
  }

  /** Only `key` has admissions, `n` of them, all at time zero. */
  function Filled(key: string, n: nat): State
    requires n > 0
  {
    State(Windows(map[key := Times(n, 0)], map[key := Times(n, 0)], 0), Start(0).q)
  }

  lemma FilledSync(c: Config, who: Caller, n: nat)
    requires 0 < n < c.limit && c.windowMs > 0
    ensures Sync(Filled(Key(c, who), n).w, c, who).0 == Filled(Key(c, who), n + 1).w
    ensures Sync(Filled(Key(c, who), n).w, c, who).1.allowed
  {
    LiveTimes(n, 0, -c.windowMs);
    var w := Filled(Key(c, who), n).w;
    assert Evict(w, Key(c, who), c.windowMs).logs == w.logs;
  }

  lemma AfterAppend(start: int, steps: seq<Step>, step: Step)
    ensures After(start, steps + [step]) == Advance(After(start, steps), step)
  {
    assert (steps + [step])[..|steps|] == steps;
    hide Advance;
  }

  lemma LegalAppend(configs: set<Config>, steps: seq<Step>, step: Step)
    requires LegalRun(configs, steps) && Legal(configs, step.event)
    ensures LegalRun(configs, steps + [step])
  {
    hide Legal;
  }

  lemma NoTimePasses(s: State, e: Event)
    ensures Advance(s, Step(0, e)) == Apply(s, e)
  {
    assert s.(w := s.w.(clock := s.w.clock + 0)) == s;
    hide Apply;
  }

  lemma FilledCheck(c: Config, who: Caller, n: nat)
    requires 0 < n < c.limit && c.windowMs > 0
    ensures Check(Filled(Key(c, who), n), c, who).0 == Filled(Key(c, who), n + 1)
  {
    hide Sync, Key;
    FilledSync(c, who, n);
  }

  lemma FirstCheck(c: Config, who: Caller)
    requires 0 < c.limit && c.windowMs > 0
    ensures Check(Start(0), c, who).0 == Filled(Key(c, who), 1)
  {
    hide Key;
    assert Times(1, 0) == [0] && At(map[], Key(c, who)) + [0] == [0];
  }

  /** The first calls of an empty limiter are all admitted. */
  lemma {:induction false} FillUp(c: Config, who: Caller, n: nat)
    requires 0 < n <= c.limit && c.windowMs > 0
    ensures After(0, Calls(n, c, who)) == Filled(Key(c, who), n)
  {
    hide Check, Filled, Key, Advance;
    var last := Step(0, CheckCall(c, who));
    assert Calls(n, c, who) == Calls(n - 1, c, who) + [last];
    AfterAppend(0, Calls(n - 1, c, who), last);
    if n > 1 {
      FillUp(c, who, n - 1);
      FilledCheck(c, who, n - 1);
      NoTimePasses(Filled(Key(c, who), n - 1), last.event);
    } else {
      FirstCheck(c, who);
      NoTimePasses(Start(0), last.event);
    }
  }

  lemma CrowdedWindow(h: seq<int>, limit: nat, windowMs: int)
    requires |h| > limit && forall i :: 0 <= i < |h| ==> 0 <= h[i] < windowMs
    ensures !WithinLimit(h, limit, windowMs)
  {
    WindowAll(h, 0, windowMs, 0, |h|);
  }

  lemma NotBounded(configs: set<Config>, c0: Config, steps: seq<Step>, who: Caller)
    requires LegalRun(configs, steps) && c0.limit > 0
    requires var h := At(After(0, steps).w.history, Key(c0, who));
             |h| > c0.limit && forall i :: 0 <= i < |h| ==> 0 <= h[i] < c0.windowMs
    ensures !Bounded(configs, c0)
  {
    CrowdedWindow(At(After(0, steps).w.history, Key(c0, who)), c0.limit, c0.windowMs);
  }

  /** A greater limit on the same key. */
  lemma GreaterLimitBreaks(configs: set<Config>, c: Config, c0: Config, u: Caller, v: Caller)
    requires ValidConfigs(configs) && c in configs && c0 in configs && Key(c, u) == Key(c0, v)
    requires c.limit > c0.limit
    ensures !Bounded(configs, c0)
  {
    hide After, Calls, Times, Key;
    FillUp(c, u, c0.limit + 1);
    NotBounded(configs, c0, Calls(c0.limit + 1, c, u), v);
  }

  /** At the end of its window every admission is forgotten. */
  lemma WindowForgets(c: Config, who: Caller, n: nat)
    requires n > 0 && c.limit > 0 && c.windowMs > 0
    ensures At(Advance(Filled(Key(c, who), n), Step(c.windowMs, CheckCall(c, who))).w.history, Key(c, who))
         == Times(n, 0) + [c.windowMs]
  {
    LiveTimes(n, 0, 0);
    var s := Filled(Key(c, who), n);
    var late := s.w.(clock := c.windowMs);
    assert Evict(late, Key(c, who), c.windowMs).logs == map[];
    assert Drain(State(Sync(late, c, who).0, s.q), c, who) == State(Sync(late, c, who).0, s.q);
  }

  /** A shorter window on the same key: its eviction forgets what `c0` must still count. */
  lemma ShorterWindowBreaks(configs: set<Config>, c: Config, c0: Config, u: Caller, v: Caller)
    requires ValidConfigs(configs) && c in configs && c0 in configs && Key(c, u) == Key(c0, v)
    requires c.windowMs < c0.windowMs
    ensures !Bounded(configs, c0)
  {
    var n := c0.limit;
    hide Filled, After, Advance, Key, Calls;
    var fill, late := Calls(n, c0, v), Step(c.windowMs, CheckCall(c, u));
    FillUp(c0, v, n);
    assert forall i :: 0 <= i < n ==> Times(n, 0)[i] == 0;
    WindowForgets(c, u, n);
    LegalAppend(configs, fill, late);
    hide LegalRun, ValidConfigs, Times;
    AfterAppend(0, fill, late);
    NotBounded(configs, c0, fill + [late], v);
  }

  /** Some caller has another key. */
  function Stranger(c: Config, who: Caller): Caller {
    Caller(Some(who.userId.GetOr("anonymous") + "2"), who.flowName + "2")
  }

  lemma StrangersKey(c: Config, who: Caller)
    requires !FixedKey(c)
    ensures Key(c, Stranger(c, who)) != Key(c, who)
  {
    assert |Key(c, Stranger(c, who))| == |Key(c, who)| + 1;
  }

  /** The one who is denied and waits. */
  function OneWaiting(c: Config, key: string, who: Caller, n: nat): State
    requires n > 0
  {
    var s := Filled(key, n);
    s.(q := Join(s.q, c, who))
  }

  lemma OneQueues(c: Config, who: Caller, n: nat)
    requires 0 < c.limit <= n && c.windowMs > 0 && c.queues && Depth(c) > 0
    ensures Check(Filled(Key(c, who), n), c, who).0 == OneWaiting(c, Key(c, who), who, n)
  {
    LiveTimes(n, 0, -c.windowMs);
    var w := Filled(Key(c, who), n).w;
    assert Evict(w, Key(c, who), c.windowMs).logs == w.logs;
  }

  /** A stranger's admission drains the queue under the stranger's key. */
  lemma StrangerDrains(c: Config, who: Caller, n: nat)
    requires c.limit > 1 && c.windowMs > 0 && !FixedKey(c) && n > 0
    ensures At(Check(OneWaiting(c, Key(c, who), who, n), c, Stranger(c, who)).0.w.history, Key(c, who))
         == Times(n + 1, 0)
  {
    hide Key, Stranger, Live, Times;
    var s, other := OneWaiting(c, Key(c, who), who, n), Stranger(c, who);
    StrangersKey(c, who);
    StampsLive(c.windowMs);
    var (w, result) := Sync(s.w, c, other);
    assert result.allowed && w.logs[Key(c, other)] == [0];
    assert Count(w, c, other) == 1;
    assert Evict(w, Key(c, other), c.windowMs) == w by {
      assert w.logs[Key(c, other) := [0]] == w.logs;
    }
    var checked := s.(w := w);
    var resolved := Resolve(checked, c.name);
    assert resolved.q.queues[c.name] == [];
    assert DrainLoop(checked, c, other) == resolved;
    assert At(resolved.w.history, Key(c, who)) == Times(n, 0) + [0];
    TimesMore(n);
  }

  lemma StampsLive(windowMs: int)
    requires windowMs > 0
    ensures Live([], -windowMs) == [] && Live([0], -windowMs) == [0]
  {
  }

  lemma TimesMore(n: nat)
    ensures Times(n, 0) + [0] == Times(n + 1, 0)
  {
  }

  /** Queueing per user or per flow, with room for two in the window. */
  lemma QueueBreaks(configs: set<Config>, c: Config, c0: Config, u: Caller, v: Caller)
    requires ValidConfigs(configs) && c in configs && c0 in configs && Key(c, u) == Key(c0, v)
    requires c.limit <= c0.limit && !QueueSafe(c)
    ensures !Bounded(configs, c0)
  {
    var n := c0.limit;
    var fill, wait := Calls(n, c0, v), Step(0, CheckCall(c, u));
    var drain := Step(0, CheckCall(c, Stranger(c, u)));
    FillUp(c0, v, n);
    OneQueues(c, u, n);
    StrangerDrains(c, u, n);
    var steps := fill + [wait] + [drain];
    LegalAppend(configs, fill, wait);
    LegalAppend(configs, fill + [wait], drain);
    AfterAppend(0, fill, wait);
    AfterAppend(0, fill + [wait], drain);
    hide Check, Join, Stranger, Filled, After, Key, LegalRun, OneWaiting;
    NoTimePasses(Filled(Key(c, u), n), wait.event);
    NoTimePasses(OneWaiting(c, Key(c, u), u, n), drain.event);
    NotBounded(configs, c0, steps, v);
  }

  /** The bound of `c0` holds on every run exactly when every configuration that can share a key with
      it has at least its window, at most its limit, and a queue that cannot cross keys. */
  lemma BoundExactly(configs: set<Config>, c0: Config)
    requires ValidConfigs(configs) && c0 in configs
    ensures Bounded(configs, c0) <==> forall c :: c in configs && SharesKey(c, c0) ==> Harmless(c, c0)
  {
    hide Bounded, ValidConfigs;
    if forall c :: c in configs && SharesKey(c, c0) ==> Harmless(c, c0) {
      BoundHolds(configs, c0);
    } else {
      var c :| c in configs && SharesKey(c, c0) && !Harmless(c, c0);
      var u, v :| Key(c, u) == Key(c0, v);
      if c.limit > c0.limit {
        GreaterLimitBreaks(configs, c, c0, u, v);
      } else if c.windowMs < c0.windowMs {
        ShorterWindowBreaks(configs, c, c0, u, v);
      } else {
        QueueBreaks(configs, c, c0, u, v);
      }
    }
  }
}
