/** The rate limiter as the source has it: maps that its methods change in place. */
module RateLimiterObject {
  import opened Wrappers
  import Limits = RateLimits
  import opened RateLimits
  import opened RateLobby

  class RateLimiter {
    var entries: map<string, seq<int>>
    var queues: map<string, seq<Ticket>>
    var timers: map<nat, string>
    var nextTicket: nat
    var now: int
    ghost var history: map<string, seq<int>>
    ghost var settled: multiset<nat>
    ghost var released: seq<Ticket>

    ghost function View(): State
      reads this
    {
      State(Windows(entries, history, now), Lobby(queues, timers, nextTicket, settled, released))
    }

    constructor (clock: int)
      ensures View() == Start(clock)
    {
      entries, queues, timers, nextTicket, now := map[], map[], map[], 0, clock;
      history, settled, released := map[], multiset{}, [];
    }

    method Elapse(elapsed: nat)
      modifies `now
      ensures View() == old(View()).(w := old(View()).w.(clock := old(View()).w.clock + elapsed))
    {
      now := now + elapsed;
    }

    method EvictAndCount(key: string, windowMs: int) returns (count: nat)
      modifies `entries
      ensures View() == old(View()).(w := Evict(old(View()).w, key, windowMs))
      ensures count == |At(entries, key)|
    {
      if key !in entries {
        return 0;
      }
      var live := Live(entries[key], now - windowMs);
      entries := entries[key := live];
      if live == [] {
        entries := entries - {key};
        assert entries == old(entries) - {key};
        return 0;
      }
      return |live|;
    }

    method RecordTimestamp(key: string)
      modifies `entries, `history
      ensures View() == old(View()).(w := Push(old(View()).w, key))
    {
      if key !in entries {
        entries := entries[key := []];
      }
      entries := entries[key := entries[key] + [now]];
      history := history[key := At(history, key) + [now]];
      assert entries == old(entries)[key := At(old(entries), key) + [now]];
    }

    method CheckSync(config: Config, who: Caller) returns (result: CheckResult)
      modifies `entries, `history
      ensures (View().w, result) == Sync(old(View()).w, config, who) && View().q == old(View()).q
    {
      var key := Key(config, who);
      hide Evict, Push, Key;
      var count := EvictAndCount(key, config.windowMs);
      if count >= config.limit {
        return CheckResult(false, count, config.name);
      }
      RecordTimestamp(key);
      return CheckResult(true, count + 1, config.name);
    }

    /** `resolve` of a queue entry that has left its queue. */
    method ResolveEntry(entry: Ticket)
      modifies this
      ensures View() == State(Admit(old(View()).w, entry),
                              old(View()).q.(timers := old(View()).q.timers - {entry.id},
                                             settled := old(View()).q.settled + multiset{entry.id},
                                             released := old(View()).q.released + [entry]))
    {
      hide Evict, Push, Key;
      timers := timers - {entry.id};
      settled, released := settled + multiset{entry.id}, released + [entry];
      var key := Key(entry.config, entry.caller);
      RecordTimestamp(key);
      var count := EvictAndCount(key, entry.config.windowMs);
    }

    method ShiftAndResolve(name: string)
      requires name in queues && queues[name] != []
      modifies this
      ensures View() == Limits.Resolve(old(View()), name)
    {
      hide Admit;
      var entry := queues[name][0];
      queues := queues[name := queues[name][1..]];
      ResolveEntry(entry);
    }

    method DrainQueue(config: Config, who: Caller)
      modifies this
      ensures View() == Drain(old(View()), config, who)
    {
      hide Limits.Resolve, Evict, Key;
      var name := config.name;
      if name !in queues || |queues[name]| == 0 {
        return;
      }
      ghost var before := View();
      var key := Key(config, who);
      while |queues[name]| > 0
        invariant name in queues
        invariant DrainLoop(View(), config, who) == DrainLoop(before, config, who)
        decreases |queues[name]|
      {
        ghost var s := View();
        var count := EvictAndCount(key, config.windowMs);
        if count >= config.limit {
          break;
        }
        LeavesOne(View(), name);
        ShiftAndResolve(name);
      }
      if |queues[name]| == 0 {
        queues := queues - {name};
      }
    }

    method EnqueueRequest(config: Config, who: Caller) returns (answer: Answer)
      modifies this
      ensures (View(), answer) == Enqueue(old(View()), config, who)
    {
      var name := config.name;
      if name !in queues {
        queues := queues[name := []];
      }
      if |queues[name]| >= config.maxQueueDepth.GetOr(100) {
        assert queues == old(queues)[name := queues[name]];
        return QueueFull;
      }
      var id := nextTicket;
      nextTicket := nextTicket + 1;
      timers := timers[id := name];
      queues := queues[name := queues[name] + [Ticket(id, config, who)]];
      ghost var before := if name in old(queues) then old(queues)[name] else [];
      assert queues == old(queues)[name := before + [Ticket(id, config, who)]];
      return Waiting(id);
    }

    method CheckOne(config: Config, who: Caller) returns (answer: Answer)
      modifies this
      ensures (View(), answer) == Check(old(View()), config, who)
    {
      hide Sync, Drain, Enqueue;
      var result := CheckSync(config, who);
      if result.allowed {
        DrainQueue(config, who);
        return Allowed(result);
      }
      if !config.queues {
        return RateLimited;
      }
      answer := EnqueueRequest(config, who);
    }

    /** The first loop of `checkMultiple`. */
    method CheckEach(configs: seq<Config>, who: Caller) returns (results: seq<CheckResult>)
      modifies `entries, `history
      ensures (View().w, results) == Pass(old(View()).w, configs, who) && View().q == old(View()).q
    {
      hide Sync;
      results := [];
      ghost var w := View().w;
      for i := 0 to |configs|
        invariant (View().w, results) == Pass(w, configs[..i], who)
        invariant View().q == old(View()).q
      {
        assert configs[..i + 1][..i] == configs[..i];
        var result := CheckSync(configs[i], who);
        results := results + [result];
      }
      assert configs[..|configs|] == configs;
    }

    /** Takes the last timestamp back. */
    method PopTimestamp(key: string)
      modifies `entries, `history
      ensures View() == old(View()).(w := Pop(old(View()).w, key))
    {
      if key in entries {
        var timestamps := Init(entries[key]);
        entries := entries[key := timestamps];
        if timestamps == [] {
          entries := entries - {key};
        }
        history := Put(history, key, Init(At(history, key)));
        assert entries == Put(old(entries), key, timestamps);
      }
    }

    method UndoRecorded(configs: seq<Config>, results: seq<CheckResult>, who: Caller)
      requires |configs| == |results|
      modifies `entries, `history
      ensures View() == old(View()).(w := Undo(old(View()).w, configs, results, who))
    {
      hide Pop, Key;
      ghost var w := View().w;
      for i := 0 to |results|
        invariant View().q == old(View()).q
        invariant Undo(View().w, configs[i..], results[i..], who) == Undo(w, configs, results, who)
      {
        assert configs[i..][1..] == configs[i + 1..] && results[i..][1..] == results[i + 1..];
        if results[i].allowed {
          PopTimestamp(Key(configs[i], who));
        }
      }
    }

    method CheckMultiple(configs: seq<Config>, who: Caller) returns (answer: Answer)
      modifies this
      ensures (View(), answer) == Limits.CheckMultiple(old(View()), configs, who)
    {
      hide Pass, Undo, Check, Higher, MostRestrictive;
      var results := CheckEach(configs, who);
      if AllAllowed(results) {
        if configs == [] {
          return Nothing;
        }
        forall i | 0 <= i < |configs| ensures configs[i].limit > 0 && results[i].currentCount > 0 {
          AllowedCounts(old(View()).w, configs, who, i);
        }
        var best := FindTightest(configs, results);
        TightestIsMostRestrictive(configs, results);
        OneMostRestrictive(configs, results, best, Tightest(configs, results));
        return Allowed(results[best]);
      }
      UndoRecorded(configs, results, who);
      var i := 0;
      while results[i].allowed
        invariant 0 <= i < |results| && AllAllowed(results[..i])
        decreases |results| - i
      {
        i := i + 1;
      }
      answer := CheckOne(configs[i], who);
    }

    method TimerFires(id: nat)
      modifies this
      ensures View() == old(View()).(q := Expire(old(View()).q, id))
    {
      if id in timers {
        var name := timers[id];
        timers := timers - {id};
        settled := settled + multiset{id};
        if name in queues {
          var index := IndexOf(queues[name], id);
          if index != -1 {
            queues := queues[name := queues[name][..index] + queues[name][index + 1..]];
          }
          assert queues == old(queues)[name := Without(old(queues)[name], id)];
        }
      }
    }

    method ReleaseQueued(name: string)
      modifies this
      ensures View() == Release(old(View()), name)
    {
      hide Limits.Resolve;
      if name !in queues {
        return;
      }
      ghost var before := View();
      while |queues[name]| > 0
        invariant name in queues
        invariant ReleaseLoop(View(), name) == ReleaseLoop(before, name)
        decreases |queues[name]|
      {
        LeavesOne(View(), name);
        ShiftAndResolve(name);
      }
      queues := queues - {name};
    }

    /** Rejects every entry of one queue. */
    method RejectAll(queue: seq<Ticket>, ghost name: string)
      requires QueueOk(queue, name, timers)
      modifies `timers, `settled
      ensures timers == old(timers) - Ids(queue)
      ensures settled == old(settled) + multiset(Ids(queue))
    {
      hide QueueOk, Ids;
      NoIds();
      for i := 0 to |queue|
        invariant timers == old(timers) - Ids(queue[..i])
        invariant settled == old(settled) + multiset(Ids(queue[..i]))
      {
        NextId(queue, i, name, old(timers));
        SettleMore(old(timers), old(settled), Ids(queue[..i]), {queue[i].id});
        timers := timers - {queue[i].id};
        settled := settled + multiset{queue[i].id};
      }
      assert queue[..|queue|] == queue;
    }

    method RejectQueues(ghost q: Lobby)
      requires Orderly(q) && queues == q.queues && timers == q.timers && settled == q.settled
      modifies `timers, `settled
      ensures timers == q.timers - Waiters(queues)
      ensures settled == q.settled + multiset(Waiters(queues))
    {
      hide Orderly, QueueOk, Ids, WaitersOf, Waiters, View;
      var names := queues.Keys;
      NoWaiters(queues);
      ghost var done: set<string> := {};
      while names != {}
        invariant done == queues.Keys - names && names <= queues.Keys
        invariant timers == q.timers - WaitersOf(queues, done)
        invariant settled == q.settled + multiset(WaitersOf(queues, done))
        decreases |names|
      {
        var name :| name in names;
        NextQueue(q, done, name);
        SettleMore(q.timers, q.settled, WaitersOf(queues, done), Ids(queues[name]));
        RejectAll(queues[name], name);
        names := names - {name};
        done := done + {name};
      }
      AllWaiters(queues);
      assert done == queues.Keys;
    }

    method Clear()
      requires Orderly(View().q)
      modifies this
      ensures View() == Apply(old(View()), ClearCall)
    {
      hide Orderly, Waiters;
      entries := map[];
      RejectQueues(View().q);
      queues := map[];
    }

    /** Whatever happens next to the limiter: the object takes the step of its specification. */
    method Perform(step: Step)
      requires Orderly(View().q)
      modifies this
      ensures View() == Advance(old(View()), step) && Orderly(View().q)
    {
      hide Orderly, Apply, View;
      Elapse(step.elapsed);
      ghost var before := View();
      ApplyOrderly(before, step.event);
      RunEvent(step.event);
    }

    method RunEvent(event: Event)
      requires Orderly(View().q)
      modifies this
      ensures View() == Apply(old(View()), event)
    {
      hide Sync, Check, Limits.CheckMultiple, Evict, Expire, Flush, Release, Orderly, Key, Count, View;
      match event
      case CheckSyncCall(c, who) => var result := CheckSync(c, who);
      case CheckCall(c, who) => var answer := CheckOne(c, who);
      case CheckMultipleCall(cs, who) => var answer := CheckMultiple(cs, who);
      case CountCall(c, who) => var count := GetCurrentCount(c, who);
      case TimerFires(id) => TimerFires(id);
      case ReleaseCall(name) => ReleaseQueued(name);
      case ClearCall => Clear();
    }

    method GetCurrentCount(config: Config, who: Caller) returns (count: nat)
      modifies `entries
      ensures View() == Apply(old(View()), CountCall(config, who))
      ensures count == Count(old(View()).w, config, who)
    {
      count := EvictAndCount(Key(config, who), config.windowMs);
    }
  }

  function WaitersOf(queues: map<string, seq<Ticket>>, names: set<string>): set<nat> {
    set name, t | name in names && name in queues && t in queues[name] :: t.id
  }

  lemma NoIds()
    ensures Ids([]) == {}
  {
  }

  lemma NoWaiters(queues: map<string, seq<Ticket>>)
    ensures WaitersOf(queues, {}) == {}
  {
  }

  lemma AllWaiters(queues: map<string, seq<Ticket>>)
    ensures WaitersOf(queues, queues.Keys) == Waiters(queues)
  {
  }

  lemma NextId(queue: seq<Ticket>, i: nat, name: string, timers: map<nat, string>)
    requires QueueOk(queue, name, timers) && i < |queue|
    ensures Ids(queue[..i + 1]) == Ids(queue[..i]) + {queue[i].id}
    ensures queue[i].id !in Ids(queue[..i])
  {
    assert queue[..i + 1] == queue[..i] + [queue[i]];
  }

  lemma SettleMore(timers: map<nat, string>, settled: multiset<nat>, done: set<nat>, more: set<nat>)
    requires done !! more
    ensures timers - (done + more) == (timers - done) - more
    ensures settled + multiset(done + more) == (settled + multiset(done)) + multiset(more)
    ensures forall id :: more == {id} ==> multiset(more) == multiset{id}
  {
  }

  /** The queues are apart: no request waits in two of them. */
  lemma NextQueue(q: Lobby, done: set<string>, name: string)
    requires Orderly(q) && name in q.queues && name !in done
    ensures WaitersOf(q.queues, done + {name}) == WaitersOf(q.queues, done) + Ids(q.queues[name])
    ensures WaitersOf(q.queues, done) !! Ids(q.queues[name])
    ensures QueueOk(q.queues[name], name, q.timers - WaitersOf(q.queues, done))
  {
    hide QueueOk;
    forall other, t | other in q.queues && t in q.queues[other] ensures t.id in q.timers && q.timers[t.id] == other {
      TicketHome(q.queues[other], other, q.timers, t);
    }
    OthersAllOk(q.queues[name], name, q.timers, WaitersOf(q.queues, done));
  }

  lemma TicketHome(queue: seq<Ticket>, name: string, timers: map<nat, string>, t: Ticket)
    requires QueueOk(queue, name, timers) && t in queue
    ensures t.id in timers && timers[t.id] == name
  {
    var i :| 0 <= i < |queue| && queue[i] == t;
    assert TicketOk(queue[i], i, name, timers);
  }

  lemma OthersAllOk(queue: seq<Ticket>, name: string, timers: map<nat, string>, gone: set<nat>)
    requires QueueOk(queue, name, timers) && forall t :: t in queue ==> t.id !in gone
    ensures QueueOk(queue, name, timers - gone)
  {
    forall i | 0 <= i < |queue| ensures TicketOk(queue[i], i, name, timers - gone) {
      assert TicketOk(queue[i], i, name, timers);
      assert queue[i] in queue;
    }
  }

  /** An allowed check counts itself and stays within the limit. */
  lemma {:induction false} AllowedCounts(w: Windows, cs: seq<Config>, who: Caller, i: nat)
    requires i < |cs| && Pass(w, cs, who).1[i].allowed
    ensures 0 < Pass(w, cs, who).1[i].currentCount <= cs[i].limit
  {
    hide Sync;
    var n := |cs| - 1;
    if i < n { AllowedCounts(w, cs[..n], who, i); } else { AllowedCount(Pass(w, cs[..n], who).0, cs[n], who); }
  }

  lemma AllowedCount(w: Windows, c: Config, who: Caller)
    ensures Sync(w, c, who).1.allowed ==> 0 < Sync(w, c, who).1.currentCount <= c.limit
  {
  }

  lemma LeavesOne(s: State, name: string)
    requires name in s.q.queues && s.q.queues[name] != []
    ensures var after := Limits.Resolve(s, name);
            name in after.q.queues && |after.q.queues[name]| == |s.q.queues[name]| - 1
  {
  }

  /** No result has a greater ratio of count to limit, and none before has as great a one. */
  predicate MostRestrictive(cs: seq<Config>, results: seq<CheckResult>, i: nat)
    requires |cs| == |results|
  {
    && i < |cs|
    && (forall j :: 0 <= j < |cs| ==> !Higher(results[j], cs[j], results[i], cs[i]))
    && (forall j :: 0 <= j < i ==> Higher(results[i], cs[i], results[j], cs[j]))
  }

  lemma Scale(x: int, y: int, z: int)
    requires z > 0
    ensures x < y <==> x * z < y * z
  {
  }

  lemma Regroup(x: int, y: int, z: int)
    ensures (x * y) * z == (x * z) * y
  {
  }

  /** Ratios compare like numbers: above one that is at least a third is above the third. */
  lemma HigherThanLower(a: int, la: int, b: int, lb: int, c: int, lc: int)
    requires la > 0 && lb > 0 && lc > 0 && a * lb > b * la && c * lb <= b * lc
    ensures a * lc > c * la
  {
    Scale(b * la, a * lb, lc);
    Scale(b * lc, c * lb, la);
    Regroup(a, lb, lc);
    Regroup(b, la, lc);
    Regroup(c, lb, la);
    Scale(c * la, a * lc, lb);
  }

  /** What the search finds. */
  lemma {:induction false} TightestIsMostRestrictive(cs: seq<Config>, results: seq<CheckResult>)
    requires |cs| == |results| > 0 && forall i :: 0 <= i < |cs| ==> cs[i].limit > 0
    ensures MostRestrictive(cs, results, Tightest(cs, results))
  {
    var n := |cs| - 1;
    if n > 0 {
      TightestIsMostRestrictive(cs[..n], results[..n]);
      var best, i := Tightest(cs[..n], results[..n]), Tightest(cs, results);
      forall j | 0 <= j < n
        ensures !Higher(results[j], cs[j], results[best], cs[best])
        ensures j < best ==> Higher(results[best], cs[best], results[j], cs[j])
      {
        assert cs[..n][j] == cs[j] && results[..n][j] == results[j];
        assert cs[..n][best] == cs[best] && results[..n][best] == results[best];
      }
      if Higher(results[n], cs[n], results[best], cs[best]) {
        forall j | 0 <= j < n ensures Higher(results[n], cs[n], results[j], cs[j]) {
          HigherThanLower(results[n].currentCount, cs[n].limit, results[best].currentCount, cs[best].limit,
                          results[j].currentCount, cs[j].limit);
        }
        forall j | 0 <= j < n ensures !Higher(results[j], cs[j], results[n], cs[n]) {
          assert Higher(results[n], cs[n], results[j], cs[j]);
        }
      }
    }
  }

  /** No other position is as good. */
  lemma OneMostRestrictive(cs: seq<Config>, results: seq<CheckResult>, i: nat, k: nat)
    requires |cs| == |results| && MostRestrictive(cs, results, i) && MostRestrictive(cs, results, k)
    ensures i == k
  {
    hide Higher;
    var above, below := Higher(results[i], cs[i], results[k], cs[k]), Higher(results[k], cs[k], results[i], cs[i]);
  }

  /** The loop that looks for the greatest ratio of count to limit. Every ratio is above the zero it starts
      from, since an allowed check counts itself. */
  method FindTightest(configs: seq<Config>, results: seq<CheckResult>) returns (best: nat)
    requires |configs| == |results| > 0
    requires forall i :: 0 <= i < |configs| ==> configs[i].limit > 0 && results[i].currentCount > 0
    ensures MostRestrictive(configs, results, best)
  {
    hide Higher, MostRestrictive;
    best := 0;
    for i := 0 to |results|
      invariant best < |results|
      invariant i > 0 ==> best == Tightest(configs[..i], results[..i])
    {
      assert i > 0 ==> configs[..i + 1][..i] == configs[..i] && results[..i + 1][..i] == results[..i];
      if i == 0 || Higher(results[i], configs[i], results[best], configs[best]) {
        best := i;
      }
    }
    assert configs[..|configs|] == configs && results[..|results|] == results;
    TightestIsMostRestrictive(configs, results);
  }
}
