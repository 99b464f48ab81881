/** Which sets of configurations keep a configuration's bound on every run. */
module RateBound {
  import opened Wrappers
  import opened RateLimits
  import opened RateWindows
  import opened RateLobby

  /** What `addRateLimit` admits: unique names, positive limits and windows. */
  ghost predicate ValidConfigs(configs: set<Config>) {
    && (forall c :: c in configs ==> c.limit > 0 && c.windowMs > 0)
    && (forall c, d :: c in configs && d in configs && c.name == d.name ==> c == d)
  }

  /** The calls that go on while no limit is removed and the limiter is not cleared. */
  predicate Legal(configs: set<Config>, e: Event) {
    match e
    case CheckSyncCall(c, who) => c in configs
    case CheckCall(c, who) => c in configs
    case CheckMultipleCall(cs, who) => forall c :: c in cs ==> c in configs
    case CountCall(c, who) => c in configs
    case TimerFires(id) => true
    case ReleaseCall(name) => false
    case ClearCall => false
  }

  predicate LegalRun(configs: set<Config>, steps: seq<Step>) {
    forall i :: 0 <= i < |steps| ==> Legal(configs, steps[i].event)
  }

  /** Every caller of the configuration has the same key. */
  predicate FixedKey(c: Config) {
    c.scope == Everyone || (c.scope == PerFlow && c.flowName.Some?)
  }

  predicate QueueSafe(c: Config) {
    !c.queues || FixedKey(c) || c.limit == 1 || Depth(c) <= 0
  }

  ghost predicate SharesKey(c: Config, d: Config) {
    exists u, v :: Key(c, u) == Key(d, v)
  }

  /** `c` does no harm to the bound of `c0`. */
  predicate Harmless(c: Config, c0: Config) {
    c.windowMs >= c0.windowMs && c.limit <= c0.limit && QueueSafe(c)
  }

  ghost predicate Uses(c: Config, key: string) {
    exists who :: Key(c, who) == key
  }

  /** The bound of `c0` holds on all its keys, on every run. */
  ghost predicate Bounded(configs: set<Config>, c0: Config) {
    forall start, steps, who | LegalRun(configs, steps) ::
      WithinLimit(At(After(start, steps).w.history, Key(c0, who)), c0.limit, c0.windowMs)
  }

  // ---- One call ----

  /** Whatever uses the key is harmless. */
  ghost predicate Fair(c: Config, key: string, c0: Config) {
    c.limit > 0 && c.windowMs > 0 && (Uses(c, key) ==> Harmless(c, c0))
  }

  lemma SyncTracks(w: Windows, c: Config, who: Caller, key: string, c0: Config)
    requires Tracks(w, key, c0.limit, c0.windowMs) && Fair(c, key, c0)
    ensures Tracks(Sync(w, c, who).0, key, c0.limit, c0.windowMs)
  {
    hide Tracks, Evict, Push;
    var mine := Key(c, who);
    assert mine == key ==> Uses(c, key);
    EvictTracks(w, mine, c.windowMs, key, c0.limit, c0.windowMs);
    if Count(w, c, who) < c.limit {
      PushTracks(Evict(w, mine, c.windowMs), mine, key, c0.limit, c0.windowMs);
    }
  }

  /** Someone just admitted is in the window. */
  lemma JustAdmitted(w: Windows, c: Config, who: Caller)
    requires c.windowMs > 0 && Sync(w, c, who).1.allowed
    ensures Count(Sync(w, c, who).0, c, who) >= 1
  {
    var w' := Sync(w, c, who).0;
    var log := w'.logs[Key(c, who)];
    assert log[|log| - 1] == w.clock;
    assert log[|log| - 1] in Live(log, w.clock - c.windowMs);
  }

  /** The queue of `c` holds requests of `c` only, and none where `c` can queue none. */
  ghost predicate OwnQueue(q: Lobby, c: Config) {
    c.name in q.queues ==>
      && (forall t :: t in q.queues[c.name] ==> t.config == c)
      && (!c.queues || Depth(c) <= 0 ==> q.queues[c.name] == [])
  }

  lemma FixedKeys(c: Config, u: Caller, v: Caller)
    requires FixedKey(c)
    ensures Key(c, u) == Key(c, v)
  {
  }

  lemma AdmitTracks(w: Windows, t: Ticket, key: string, c0: Config)
    requires Tracks(w, key, c0.limit, c0.windowMs) && Fair(t.config, key, c0)
    requires Key(t.config, t.caller) == key ==> |At(w.logs, key)| < c0.limit
    ensures Tracks(Admit(w, t), key, c0.limit, c0.windowMs)
  {
    hide Tracks, Evict, Push;
    var mine := Key(t.config, t.caller);
    assert mine == key ==> Uses(t.config, key);
    PushTracks(w, mine, key, c0.limit, c0.windowMs);
    EvictTracks(Push(w, mine), mine, t.config.windowMs, key, c0.limit, c0.windowMs);
  }

  lemma {:induction false} DrainLoopTracks(s: State, c: Config, who: Caller, key: string, c0: Config)
    requires c.name in s.q.queues && OwnQueue(s.q, c)
    requires Tracks(s.w, key, c0.limit, c0.windowMs) && Fair(c, key, c0)
    requires c.limit == 1 ==> Count(s.w, c, who) >= 1
    ensures Tracks(DrainLoop(s, c, who).w, key, c0.limit, c0.windowMs)
    decreases |s.q.queues[c.name]|
  {
    var evicted := Evict(s.w, Key(c, who), c.windowMs);
    assert Key(c, who) == key ==> Uses(c, key);
    EvictTracks(s.w, Key(c, who), c.windowMs, key, c0.limit, c0.windowMs);
    var queue := s.q.queues[c.name];
    if queue != [] && Count(s.w, c, who) < c.limit {
      var head := queue[0];
      assert head in queue;
      assert Key(c, head.caller) == key ==> Uses(c, key);
      if FixedKey(c) { FixedKeys(c, who, head.caller); }
      hide Tracks, Evict, Key;
      AdmitTracks(evicted, head, key, c0);
      var next := Resolve(s.(w := evicted), c.name);
      hide Admit;
      DrainLoopTracks(next, c, who, key, c0);
    }
  }

  lemma CheckTracks(s: State, c: Config, who: Caller, key: string, c0: Config)
    requires OwnQueue(s.q, c)
    requires Tracks(s.w, key, c0.limit, c0.windowMs) && Fair(c, key, c0)
    ensures Tracks(Check(s, c, who).0.w, key, c0.limit, c0.windowMs)
  {
    SyncTracks(s.w, c, who, key, c0);
    var synced := Sync(s.w, c, who);
    if synced.1.allowed {
      JustAdmitted(s.w, c, who);
      hide Tracks, Sync, Count;
      if c.name in s.q.queues { DrainLoopTracks(s.(w := synced.0), c, who, key, c0); }
    }
  }

  lemma {:induction false} PassTracks(w: Windows, cs: seq<Config>, who: Caller, key: string, c0: Config)
    requires Tracks(w, key, c0.limit, c0.windowMs) && forall c :: c in cs ==> Fair(c, key, c0)
    ensures Tracks(Pass(w, cs, who).0, key, c0.limit, c0.windowMs)
  {
    if cs != [] {
      hide Tracks, Fair, Sync;
      var n := |cs| - 1;
      PassTracks(w, cs[..n], who, key, c0);
      SyncTracks(Pass(w, cs[..n], who).0, cs[n], who, key, c0);
    }
  }

  lemma {:induction false} UndoTracks(
    w: Windows, cs: seq<Config>, results: seq<CheckResult>, who: Caller, key: string, c0: Config)
    requires |cs| == |results| && Tracks(w, key, c0.limit, c0.windowMs)
    ensures Tracks(Undo(w, cs, results, who), key, c0.limit, c0.windowMs)
    decreases |cs|
  {
    if cs != [] {
      hide Tracks, Pop;
      PopTracks(w, Key(cs[0], who), key, c0.limit, c0.windowMs);
      UndoTracks(if results[0].allowed then Pop(w, Key(cs[0], who)) else w, cs[1..], results[1..], who, key, c0);
    }
  }

  // ---- Every run ----

  ghost predicate From(q: Lobby, configs: set<Config>) {
    forall name, t :: name in q.queues && t in q.queues[name] ==> t.config in configs
  }

  lemma OrderlyOwnQueue(q: Lobby, configs: set<Config>, c: Config)
    requires Orderly(q) && From(q, configs) && ValidConfigs(configs) && c in configs
    ensures OwnQueue(q, c)
  {
    if c.name in q.queues {
      var queue := q.queues[c.name];
      assert QueueOk(queue, c.name, q.timers);
      forall i | 0 <= i < |queue| ensures queue[i].config == c && c.queues && i < Depth(c) {
        assert TicketOk(queue[i], i, c.name, q.timers);
        assert queue[i] in queue;
      }
      if queue != [] { assert TicketOk(queue[0], 0, c.name, q.timers); }
    }
  }

  lemma {:induction false} DrainLoopFrom(s: State, c: Config, who: Caller, configs: set<Config>)
    requires From(s.q, configs) && c.name in s.q.queues
    ensures From(DrainLoop(s, c, who).q, configs)
    decreases |s.q.queues[c.name]|
  {
    if s.q.queues[c.name] != [] && Count(s.w, c, who) < c.limit {
      var evicted := s.(w := Evict(s.w, Key(c, who), c.windowMs));
      hide Evict, Count, Admit;
      assert From(Resolve(evicted, c.name).q, configs);
      DrainLoopFrom(Resolve(evicted, c.name), c, who, configs);
    }
  }

  lemma CheckFrom(s: State, c: Config, who: Caller, configs: set<Config>)
    requires From(s.q, configs) && c in configs
    ensures From(Check(s, c, who).0.q, configs)
  {
    var synced := s.(w := Sync(s.w, c, who).0);
    if c.name in s.q.queues { DrainLoopFrom(synced, c, who, configs); }
    hide DrainLoop, Sync;
  }

  lemma ExpireFrom(q: Lobby, id: nat, configs: set<Config>)
    requires From(q, configs)
    ensures From(Expire(q, id), configs)
  {
    if id in q.timers && q.timers[id] in q.queues {
      var queue := q.queues[q.timers[id]];
      WithoutCut(queue, id);
      if IndexOf(queue, id) >= 0 { CutMembers(queue, Without(queue, id), IndexOf(queue, id)); }
      hide Without, IndexOf;
    }
  }

  /** The invariant of a run, for one key. */
  ghost predicate Good(s: State, key: string, configs: set<Config>, c0: Config) {
    Tracks(s.w, key, c0.limit, c0.windowMs) && Orderly(s.q) && From(s.q, configs)
  }

  lemma CheckGood(s: State, c: Config, who: Caller, key: string, configs: set<Config>, c0: Config)
    requires Good(s, key, configs, c0) && ValidConfigs(configs) && c in configs && Fair(c, key, c0)
    ensures Good(Check(s, c, who).0, key, configs, c0)
  {
    OrderlyOwnQueue(s.q, configs, c);
    hide Tracks, Orderly, From, Check, ValidConfigs, Fair;
    CheckTracks(s, c, who, key, c0);
    CheckOrderly(s, c, who);
    CheckFrom(s, c, who, configs);
  }

  lemma MultipleGood(s: State, cs: seq<Config>, who: Caller, key: string, configs: set<Config>, c0: Config)
    requires Good(s, key, configs, c0) && ValidConfigs(configs)
    requires forall c :: c in cs ==> c in configs && Fair(c, key, c0)
    ensures Good(CheckMultiple(s, cs, who).0, key, configs, c0)
  {
    hide Tracks, Orderly, From, Check, Pass, Undo, ValidConfigs, Fair;
    PassTracks(s.w, cs, who, key, c0);
    var (w, results) := Pass(s.w, cs, who);
    UndoTracks(w, cs, results, who, key, c0);
    if !AllAllowed(results) {
      CheckGood(s.(w := Undo(w, cs, results, who)), cs[FirstDenied(results)], who, key, configs, c0);
    }
  }

  lemma ApplyGood(s: State, e: Event, key: string, configs: set<Config>, c0: Config)
    requires Good(s, key, configs, c0) && ValidConfigs(configs) && Legal(configs, e)
    requires forall c :: c in configs ==> Fair(c, key, c0)
    ensures Good(Apply(s, e), key, configs, c0)
  {
    hide Tracks, Orderly, From, Check, CheckMultiple, ValidConfigs, Sync, Evict, Expire, Flush, Release;
    match e
    case CheckSyncCall(c, who) => SyncTracks(s.w, c, who, key, c0);
    case CheckCall(c, who) => CheckGood(s, c, who, key, configs, c0);
    case CheckMultipleCall(cs, who) => MultipleGood(s, cs, who, key, configs, c0);
    case CountCall(c, who) =>
      assert Key(c, who) == key ==> Uses(c, key);
      EvictTracks(s.w, Key(c, who), c.windowMs, key, c0.limit, c0.windowMs);
    case TimerFires(id) =>
      ExpireOrderly(s.q, id);
      ExpireFrom(s.q, id, configs);
  }

  lemma ClockTracks(w: Windows, elapsed: nat, key: string, limit: int, windowMs: int)
    requires Tracks(w, key, limit, windowMs)
    ensures Tracks(w.(clock := w.clock + elapsed), key, limit, windowMs)
  {
  }

  lemma AdvanceGood(s: State, step: Step, key: string, configs: set<Config>, c0: Config)
    requires Good(s, key, configs, c0) && ValidConfigs(configs) && Legal(configs, step.event)
    requires forall c :: c in configs ==> Fair(c, key, c0)
    ensures Good(Advance(s, step), key, configs, c0)
  {
    hide Tracks, Orderly, From, Apply, ValidConfigs, Fair, Legal;
    ClockTracks(s.w, step.elapsed, key, c0.limit, c0.windowMs);
    ApplyGood(s.(w := s.w.(clock := s.w.clock + step.elapsed)), step.event, key, configs, c0);
  }

  lemma {:induction false} AfterGood(start: int, steps: seq<Step>, key: string, configs: set<Config>, c0: Config)
    requires ValidConfigs(configs) && LegalRun(configs, steps)
    requires forall c :: c in configs ==> Fair(c, key, c0)
    ensures Good(After(start, steps), key, configs, c0)
  {
    if steps != [] {
      hide Good, Advance, ValidConfigs, Fair, Legal;
      AfterGood(start, steps[..|steps| - 1], key, configs, c0);
      AdvanceGood(After(start, steps[..|steps| - 1]), steps[|steps| - 1], key, configs, c0);
    }
  }

  /** Every configuration that can share a key with `c0` is harmless: then `c0`'s bound holds. */
  lemma BoundHolds(configs: set<Config>, c0: Config)
    requires ValidConfigs(configs) && c0 in configs
    requires forall c :: c in configs && SharesKey(c, c0) ==> Harmless(c, c0)
    ensures Bounded(configs, c0)
  {
    forall start, steps, who | LegalRun(configs, steps)
      ensures WithinLimit(At(After(start, steps).w.history, Key(c0, who)), c0.limit, c0.windowMs)
    {
      var key := Key(c0, who);
      forall c | c in configs ensures Fair(c, key, c0) {
        assert Uses(c, key) ==> SharesKey(c, c0);
      }
      AfterGood(start, steps, key, configs, c0);
      hide After, ValidConfigs, WithinLimit, Spaced, LegalRun;
      SpacedIsWithin(At(After(start, steps).w.history, key), c0.limit, c0.windowMs);
    }
  }
}
