/** How far an allowed check drains its queue: as long as there is room, and no further. */
module RateDraining {
  import opened RateLimits
  import opened RateMultiple
  import opened RateShared

  /** The requests are let through one after the other. */
  function AdmitAll(w: Windows, tickets: seq<Ticket>): Windows {
    if tickets == [] then w
    else Admit(AdmitAll(w, tickets[..|tickets| - 1]), tickets[|tickets| - 1])
  }

  /** How many timestamps under the caller's key are later than the start of the window. */
  function InWindow(w: Windows, c: Config, who: Caller): nat {
    |Live(At(w.logs, Key(c, who)), w.clock - c.windowMs)|
  }

  predicate HasRoom(w: Windows, c: Config, who: Caller) {
    InWindow(w, c, who) < c.limit
  }

  // ---- Evictions under the caller's key do not matter ----

  lemma {:induction false} LiveLive(log: seq<int>, a: int, b: int)
    ensures Live(Live(log, a), b) == Live(Live(log, b), a)
  {
    if log != [] {
      var n := |log| - 1;
      LiveLive(log[..n], a, b);
      LiveOne(Live(log[..n], a), log[n], b);
      LiveOne(Live(log[..n], b), log[n], a);
    }
  }

  lemma LiveOne(log: seq<int>, at: int, start: int)
    ensures Live(log + [at], start) == Live(log, start) + if at > start then [at] else []
  {
    assert (log + [at])[..|log|] == log;
    assert Live(log, start) + [] == Live(log, start);
  }

  /** Alike but for timestamps under `key` that have left the window that starts at `start`. */
  ghost predicate Alike(w: Windows, v: Windows, key: string, start: int) {
    && w.clock == v.clock && w.history == v.history
    && Live(At(w.logs, key), start) == Live(At(v.logs, key), start)
    && forall other :: other != key ==> At(w.logs, other) == At(v.logs, other)
  }

  lemma EvictAlike(w: Windows, v: Windows, key: string, windowMs: int)
    requires Alike(w, v, key, w.clock - windowMs)
    ensures Alike(Evict(w, key, windowMs), v, key, w.clock - windowMs)
  {
    hide Live;
    var start := w.clock - windowMs;
    EvictAt(w, key, windowMs, key);
    LiveTwice(At(w.logs, key), start);
    forall other | other != key ensures At(Evict(w, key, windowMs).logs, other) == At(w.logs, other) {
      EvictAt(w, key, windowMs, other);
    }
  }

  lemma AdmitAt(w: Windows, t: Ticket, key: string)
    ensures var k := Key(t.config, t.caller);
            && At(Admit(w, t).logs, key)
               == (if k == key then Live(At(w.logs, key) + [w.clock], w.clock - t.config.windowMs) else At(w.logs, key))
            && At(Admit(w, t).history, key) == At(w.history, key) + (if k == key then [w.clock] else [])
            && Admit(w, t).clock == w.clock
  {
    hide Live, Key, Push, Evict;
    var k := Key(t.config, t.caller);
    PushAt(w, k, key);
    EvictAt(Push(w, k), k, t.config.windowMs, key);
  }

  lemma AdmitAlike(w: Windows, v: Windows, t: Ticket, key: string, start: int)
    requires Alike(w, v, key, start)
    ensures Alike(Admit(w, t), Admit(v, t), key, start)
  {
    hide Live, Key, Admit;
    var a := w.clock - t.config.windowMs;
    forall other ensures At(Admit(w, t).logs, other) == At(Admit(v, t).logs, other) || other == key {
      AdmitAt(w, t, other);
      AdmitAt(v, t, other);
    }
    AdmitAt(w, t, key);
    AdmitAt(v, t, key);
    LiveLive(At(w.logs, key) + [w.clock], a, start);
    LiveLive(At(v.logs, key) + [w.clock], a, start);
    LiveOne(At(w.logs, key), w.clock, start);
    LiveOne(At(v.logs, key), w.clock, start);
    AdmitHistory(w, v, t);
  }

  lemma AdmitHistory(w: Windows, v: Windows, t: Ticket)
    requires w.history == v.history && w.clock == v.clock
    ensures Admit(w, t).history == Admit(v, t).history
  {
  }

  lemma {:induction false} AdmitAllAlike(w: Windows, v: Windows, tickets: seq<Ticket>, key: string, start: int)
    requires Alike(w, v, key, start)
    ensures Alike(AdmitAll(w, tickets), AdmitAll(v, tickets), key, start)
  {
    if tickets != [] {
      hide Alike, Admit;
      var n := |tickets| - 1;
      AdmitAllAlike(w, v, tickets[..n], key, start);
      AdmitAlike(AdmitAll(w, tickets[..n]), AdmitAll(v, tickets[..n]), tickets[n], key, start);
    }
  }

  lemma {:induction false} AdmitAllFirst(w: Windows, tickets: seq<Ticket>)
    requires tickets != []
    ensures AdmitAll(w, tickets) == AdmitAll(Admit(w, tickets[0]), tickets[1..])
  {
    hide Admit;
    var n := |tickets| - 1;
    if n > 0 {
      AdmitAllFirst(w, tickets[..n]);
      assert tickets[..n][1..] == tickets[1..][..n - 1];
    } else {
      assert tickets[..0] == [] && tickets[1..] == [];
    }
  }

  lemma {:induction false} AdmitAllClock(w: Windows, tickets: seq<Ticket>)
    ensures AdmitAll(w, tickets).clock == w.clock
  {
    if tickets != [] {
      AdmitAllClock(w, tickets[..|tickets| - 1]);
      AdmitAt(AdmitAll(w, tickets[..|tickets| - 1]), tickets[|tickets| - 1], "");
      hide Admit;
    }
  }

  // ---- The drain ----

  /** The first `n` requests of the queue went: there was room before each of them, and after the last there is
      none, or no one is left. */
  ghost predicate Drained(w: Windows, queue: seq<Ticket>, c: Config, who: Caller, n: nat) {
    && n <= |queue|
    && (forall m :: 0 <= m < n ==> HasRoom(AdmitAll(w, queue[..m]), c, who))
    && (n < |queue| ==> !HasRoom(AdmitAll(w, queue[..n]), c, who))
  }

  /** What that leaves. */
  ghost predicate LeftBy(s: State, queue: seq<Ticket>, c: Config, who: Caller, n: nat, s': State) {
    && n <= |queue|
    && Alike(s'.w, AdmitAll(s.w, queue[..n]), Key(c, who), s.w.clock - c.windowMs)
    && s'.q.released == s.q.released + queue[..n]
    && (forall name :: name != c.name ==>
          (name in s'.q.queues <==> name in s.q.queues)
          && (name in s.q.queues ==> s'.q.queues[name] == s.q.queues[name]))
  }

  lemma CountIsInWindow(w: Windows, c: Config, who: Caller)
    ensures Count(w, c, who) == InWindow(w, c, who)
  {
    CountIsLive(w, c, who);
    hide Count, Live;
  }

  lemma AlikeRoom(w: Windows, v: Windows, c: Config, who: Caller)
    requires Alike(w, v, Key(c, who), w.clock - c.windowMs)
    ensures HasRoom(w, c, who) == HasRoom(v, c, who)
  {
    hide Live, Key;
  }

  lemma AlikeSelf(w: Windows, key: string, start: int)
    ensures Alike(w, w, key, start)
  {
  }

  lemma AlikeChain(u: Windows, v: Windows, w: Windows, key: string, start: int)
    requires Alike(u, v, key, start) && Alike(v, w, key, start)
    ensures Alike(u, w, key, start)
  {
    hide Live;
  }

  lemma DrainedFirst(w: Windows, v: Windows, queue: seq<Ticket>, c: Config, who: Caller, n: nat)
    requires queue != [] && HasRoom(w, c, who) && w.clock == v.clock
    requires Alike(v, w, Key(c, who), w.clock - c.windowMs)
    requires Drained(Admit(v, queue[0]), queue[1..], c, who, n)
    ensures Drained(w, queue, c, who, n + 1)
  {
    hide HasRoom, Alike, Admit, Key;
    forall m | 0 < m <= n + 1
      ensures HasRoom(AdmitAll(w, queue[..m]), c, who)
           == HasRoom(AdmitAll(Admit(v, queue[0]), queue[1..][..m - 1]), c, who)
    {
      var start := w.clock - c.windowMs;
      AdmitAllFirst(v, queue[..m]);
      assert queue[..m][1..] == queue[1..][..m - 1];
      AdmitAllAlike(v, w, queue[..m], Key(c, who), start);
      AdmitAllClock(v, queue[..m]);
      AlikeRoom(AdmitAll(v, queue[..m]), AdmitAll(w, queue[..m]), c, who);
    }
    assert AdmitAll(w, queue[..0]) == w;
  }

  lemma LeftByFirst(s: State, t: State, queue: seq<Ticket>, c: Config, who: Caller, n: nat, s': State)
    requires queue != [] && t.w.clock == s.w.clock
    requires exists v: Windows ::
               Alike(v, s.w, Key(c, who), s.w.clock - c.windowMs) && t.w == Admit(v, queue[0]) && v.clock == s.w.clock
    requires t.q.released == s.q.released + [queue[0]]
    requires forall name :: name != c.name ==>
               (name in t.q.queues <==> name in s.q.queues)
               && (name in s.q.queues ==> t.q.queues[name] == s.q.queues[name])
    requires LeftBy(t, queue[1..], c, who, n, s')
    ensures LeftBy(s, queue, c, who, n + 1, s')
  {
    hide Alike, Admit, Key;
    var key, start := Key(c, who), s.w.clock - c.windowMs;
    var v: Windows :| Alike(v, s.w, key, start) && t.w == Admit(v, queue[0]) && v.clock == s.w.clock;
    assert queue[..n + 1][1..] == queue[1..][..n];
    AdmitAllFirst(v, queue[..n + 1]);
    AdmitAllAlike(v, s.w, queue[..n + 1], key, start);
    AlikeChain(s'.w, AdmitAll(t.w, queue[1..][..n]), AdmitAll(s.w, queue[..n + 1]), key, start);
    assert s.q.released + [queue[0]] + queue[1..][..n] == s.q.released + queue[..n + 1];
  }

  lemma {:induction false} LoopDrains(s: State, c: Config, who: Caller) returns (n: nat)
    requires c.name in s.q.queues
    ensures var queue, s' := s.q.queues[c.name], DrainLoop(s, c, who);
            && Drained(s.w, queue, c, who, n) && LeftBy(s, queue, c, who, n, s')
            && s'.q.queues[c.name] == queue[n..]
    decreases |s.q.queues[c.name]|
  {
    hide Alike, HasRoom, Evict, Admit, Key, Drained, LeftBy, Count;
    var queue, key, start := s.q.queues[c.name], Key(c, who), s.w.clock - c.windowMs;
    AlikeSelf(s.w, key, start);
    if queue == [] {
      n := 0;
      Stops(s, c, who, s);
    } else {
      CountIsInWindow(s.w, c, who);
      var evicted := s.(w := Evict(s.w, key, c.windowMs));
      EvictAlike(s.w, s.w, key, c.windowMs);
      EvictClock(s.w, key, c.windowMs);
      if Count(s.w, c, who) >= c.limit {
        n := 0;
        RoomIsCount(s.w, c, who);
        Stops(s, c, who, evicted);
      } else {
        var t := Resolve(evicted, c.name);
        RoomIsCount(s.w, c, who);
        n := LoopDrains(t, c, who);
        AdmitClock(evicted.w, queue[0]);
        DrainedFirst(s.w, evicted.w, queue, c, who, n);
        LeftByFirst(s, t, queue, c, who, n, DrainLoop(t, c, who));
        assert queue[1..][n..] == queue[n + 1..] by { LeftByLength(t, queue[1..], c, who, n, DrainLoop(t, c, who)); }
        n := n + 1;
      }
    }
  }

  lemma LeftByLength(s: State, queue: seq<Ticket>, c: Config, who: Caller, n: nat, s': State)
    requires LeftBy(s, queue, c, who, n, s')
    ensures n <= |queue|
  {
  }

  lemma RoomIsCount(w: Windows, c: Config, who: Caller)
    ensures HasRoom(w, c, who) <==> Count(w, c, who) < c.limit
  {
    CountIsInWindow(w, c, who);
    hide Count, InWindow;
  }

  lemma EvictClock(w: Windows, key: string, windowMs: int)
    ensures Evict(w, key, windowMs).clock == w.clock
  {
  }

  lemma AdmitClock(w: Windows, t: Ticket)
    ensures Admit(w, t).clock == w.clock
  {
    AdmitAt(w, t, "");
  }

  lemma Stops(s: State, c: Config, who: Caller, s': State)
    requires c.name in s.q.queues && (s.q.queues[c.name] == [] || !HasRoom(s.w, c, who))
    requires s'.q == s.q && Alike(s'.w, s.w, Key(c, who), s.w.clock - c.windowMs)
    ensures Drained(s.w, s.q.queues[c.name], c, who, 0) && LeftBy(s, s.q.queues[c.name], c, who, 0, s')
  {
    hide HasRoom, Alike, Key;
    assert s.q.queues[c.name][..0] == [] && AdmitAll(s.w, []) == s.w;
    assert s.q.released + [] == s.q.released;
  }

  // ---- Every allowed check ----

  function QueueOf(s: State, name: string): seq<Ticket> {
    if name in s.q.queues then s.q.queues[name] else []
  }

  /** The check itself is admitted. */
  function Admitted(s: State, c: Config, who: Caller): State {
    s.(w := Push(Evict(s.w, Key(c, who), c.windowMs), Key(c, who)))
  }

  /** A check that is allowed is admitted, and then releases its queue from the head: as many as there is room
      for in the window of the caller's key, each recorded under its own key. Then no one is left, or the
      window is full. */
  lemma DrainsWhileRoom(s: State, c: Config, who: Caller) returns (n: nat)
    requires Check(s, c, who).1.Allowed?
    ensures HasRoom(s.w, c, who)
    ensures var queue, s' := QueueOf(s, c.name), Check(s, c, who).0;
            && Drained(Admitted(s, c, who).w, queue, c, who, n) && LeftBy(Admitted(s, c, who), queue, c, who, n, s')
            && QueueOf(s', c.name) == queue[n..]
            && (QueueOf(s', c.name) == [] || !HasRoom(s'.w, c, who))
  {
    hide Alike, HasRoom, Push, Evict, Admit, Key, Count, Drained, LeftBy, DrainLoop;
    RoomIsCount(s.w, c, who);
    var admitted := Admitted(s, c, who);
    var queue := QueueOf(s, c.name);
    if queue != [] {
      n := LoopDrains(admitted, c, who);
      LeftByLength(admitted, queue, c, who, n, DrainLoop(admitted, c, who));
      assert n < |queue| <==> queue[n..] != [];
      FullOrGone(admitted, queue, c, who, n, DrainLoop(admitted, c, who));
      DropLeaves(admitted, queue, c, who, n, DrainLoop(admitted, c, who));
    } else {
      n := 0;
      NoQueue(admitted, c, who);
    }
  }

  lemma FullOrGone(s: State, queue: seq<Ticket>, c: Config, who: Caller, n: nat, s': State)
    requires Drained(s.w, queue, c, who, n) && LeftBy(s, queue, c, who, n, s')
    ensures n < |queue| ==> !HasRoom(s'.w, c, who)
  {
    hide HasRoom, Alike, Key;
    AdmitAllClock(s.w, queue[..n]);
    AlikeShares(s'.w, AdmitAll(s.w, queue[..n]), Key(c, who), s.w.clock - c.windowMs);
    AlikeRoom(s'.w, AdmitAll(s.w, queue[..n]), c, who);
  }

  lemma AlikeShares(w: Windows, v: Windows, key: string, start: int)
    requires Alike(w, v, key, start)
    ensures w.clock == v.clock && w.history == v.history
  {
  }

  lemma DropLeaves(s: State, queue: seq<Ticket>, c: Config, who: Caller, n: nat, s': State)
    requires LeftBy(s, queue, c, who, n, s')
    ensures LeftBy(s, queue, c, who, n, Drop(s', c.name))
    ensures QueueOf(Drop(s', c.name), c.name) == [] && Drop(s', c.name).w == s'.w
  {
    hide Alike, Key;
  }

  lemma NoQueue(s: State, c: Config, who: Caller)
    ensures Drained(s.w, [], c, who, 0) && LeftBy(s, [], c, who, 0, s)
  {
    hide HasRoom, Live, Key;
    var none: seq<Ticket> := [];
    assert none[..0] == none && AdmitAll(s.w, none) == s.w && s.q.released + none == s.q.released;
  }

  /** The requests of the queue that are under this key. */
  function Under(tickets: seq<Ticket>, key: string): nat {
    if tickets == [] then 0
    else
      var n := |tickets| - 1;
      Under(tickets[..n], key) + if Key(tickets[n].config, tickets[n].caller) == key then 1 else 0
  }

  /** Each request let through is one admission of now under its own key. */
  lemma {:induction false} EachAdmittedOnce(w: Windows, tickets: seq<Ticket>, key: string)
    ensures At(AdmitAll(w, tickets).history, key) == At(w.history, key) + Copies(Under(tickets, key), w.clock)
  {
    hide Key, Admit, Copies;
    if tickets != [] {
      var n := |tickets| - 1;
      EachAdmittedOnce(w, tickets[..n], key);
      AdmitAllClock(w, tickets[..n]);
      AdmitAt(AdmitAll(w, tickets[..n]), tickets[n], key);
      OneMoreCopy(Under(tickets[..n], key), w.clock);
    } else {
      OneMoreCopy(0, w.clock);
    }
  }

  /** So after an allowed check the history has, under each key, its own admission and those of the requests it
      released. */
  lemma DrainHistory(s: State, c: Config, who: Caller, key: string) returns (n: nat)
    requires Check(s, c, who).1.Allowed?
    ensures var queue, s' := QueueOf(s, c.name), Check(s, c, who).0;
            && n <= |queue| && s'.q.released == s.q.released + queue[..n] && QueueOf(s', c.name) == queue[n..]
            && At(s'.w.history, key)
               == At(s.w.history, key) + (if key == Key(c, who) then [s.w.clock] else [])
                  + Copies(Under(queue[..n], key), s.w.clock)
  {
    hide Alike, HasRoom, Push, Evict, Key, Check, Copies, Under, AdmitAll, Drained;
    n := DrainsWhileRoom(s, c, who);
    var admitted, queue := Admitted(s, c, who), QueueOf(s, c.name);
    AlikeShares(Check(s, c, who).0.w, AdmitAll(admitted.w, queue[..n]), Key(c, who), admitted.w.clock - c.windowMs);
    EachAdmittedOnce(admitted.w, queue[..n], key);
    EvictAt(s.w, Key(c, who), c.windowMs, key);
    PushAt(Evict(s.w, Key(c, who), c.windowMs), Key(c, who), key);
  }
}
