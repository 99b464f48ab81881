/** What the limiter answers, and what its timers, releases and `clear` do. */
module RateAnswers {
  import opened RateLimits
  import opened RateLobby
  import opened RateShared
  import opened RateDraining
  import opened RateLimiterObject

  /** A check is allowed if and only if there is room. Without room a reject configuration refuses; a queueing
      one refuses if and only if as many wait under its name as its depth, a hundred if it has none, and
      otherwise lets the caller wait, last in line, with a live timer. A refusal admits no one. */
  lemma AnswersExactly(s: State, c: Config, who: Caller)
    ensures var (s', answer) := Check(s, c, who);
            var queue, key := QueueOf(s, c.name), Key(c, who);
            if HasRoom(s.w, c, who) then answer == Allowed(CheckResult(true, InWindow(s.w, c, who) + 1, c.name))
            else
              && s'.w.history == s.w.history
              && At(s'.w.logs, key) == Live(At(s.w.logs, key), s.w.clock - c.windowMs)
              && s'.q.settled == s.q.settled && s'.q.released == s.q.released
              && (if !c.queues then answer == RateLimited && s'.q == s.q
                  else if |queue| >= (if c.maxQueueDepth.Some? then c.maxQueueDepth.value else 100) then
                    answer == QueueFull && QueueOf(s', c.name) == queue && s'.q.timers == s.q.timers
                  else
                    && answer == Waiting(s.q.next) && s'.q.next == s.q.next + 1
                    && QueueOf(s', c.name) == queue + [Ticket(s.q.next, c, who)]
                    && s'.q.timers == s.q.timers[s.q.next := c.name])
  {
    hide Live, Key, Push, Drain, InWindow;
    CountIsInWindow(s.w, c, who);
    EvictAt(s.w, Key(c, who), c.windowMs, Key(c, who));
    hide Evict, Count;
  }

  /** A check that does not queue admits the caller if and only if there is room, and otherwise only evicts. */
  lemma SyncExactly(s: State, c: Config, who: Caller)
    ensures var s', key := Apply(s, CheckSyncCall(c, who)), Key(c, who);
            var kept := Live(At(s.w.logs, key), s.w.clock - c.windowMs);
            && s'.q == s.q
            && (if HasRoom(s.w, c, who) then
                  && At(s'.w.logs, key) == kept + [s.w.clock]
                  && At(s'.w.history, key) == At(s.w.history, key) + [s.w.clock]
                else At(s'.w.logs, key) == kept && s'.w.history == s.w.history)
  {
    hide Live, Key, Push, InWindow;
    CountIsInWindow(s.w, c, who);
    EvictAt(s.w, Key(c, who), c.windowMs, Key(c, who));
    PushAt(Evict(s.w, Key(c, who), c.windowMs), Key(c, who), Key(c, who));
    hide Evict, Count;
  }

  /** Whom a configuration counts together; a caller without a user is anonymous. */
  function Counted(c: Config, who: Caller): string {
    match c.scope
    case PerUser => if who.userId.Some? then who.userId.value else "anonymous"
    case PerFlow => if c.flowName.Some? then c.flowName.value else who.flowName
    case Everyone => ""
  }

  lemma Behind(prefix: string, x: string, y: string)
    requires prefix + x == prefix + y
    ensures x == y
  {
    assert (prefix + x)[|prefix|..] == x && (prefix + y)[|prefix|..] == y;
  }

  lemma KeyKind(c: Config, who: Caller)
    ensures |Key(c, who)| > 10
    ensures var kind := Key(c, who)[10];
            (c.scope == PerUser <==> kind == 'u') && (c.scope == PerFlow <==> kind == 'f')
  {
  }

  /** Two checks share a key if and only if they are of one scope and count the same user, the same flow or
      everyone. */
  lemma SharedKeyExactly(c: Config, who: Caller, d: Config, other: Caller)
    ensures Key(c, who) == Key(d, other) <==> c.scope == d.scope && Counted(c, who) == Counted(d, other)
  {
    if Key(c, who) == Key(d, other) {
      KeyKind(c, who);
      KeyKind(d, other);
      match c.scope
      case PerUser => Behind("ratelimit:user:", Counted(c, who), Counted(d, other));
      case PerFlow => Behind("ratelimit:flow:", Counted(c, who), Counted(d, other));
      case Everyone =>
    }
  }

  // ---- Those who wait ----

  /** After any run, a timeout that fires takes its own request out of the queues, settles it, and nothing else
      changes; one that was cleared does nothing. */
  lemma TimeoutRejects(start: int, steps: seq<Step>, id: nat)
    ensures var s := After(start, steps);
            var s' := Apply(s, TimerFires(id));
            if id in s.q.timers then
              && Waiters(s'.q.queues) == Waiters(s.q.queues) - {id} && id in Waiters(s.q.queues)
              && s'.q.settled == s.q.settled + multiset{id} && s'.q.released == s.q.released && s'.w == s.w
            else s' == s
  {
    var s := After(start, steps);
    AfterOrderly(start, steps);
    hide After;
    ApplyOrderly(s, TimerFires(id));
    WaitersAreTimers(s.q);
    WaitersAreTimers(Apply(s, TimerFires(id)).q);
    hide Orderly, Waiters, Without;
  }

  lemma {:induction false} LoopReleases(s: State, name: string)
    requires name in s.q.queues
    ensures var queue, s' := s.q.queues[name], ReleaseLoop(s, name);
            && s'.q.released == s.q.released + queue && s'.w == AdmitAll(s.w, queue)
            && (forall other :: other != name ==>
                  (other in s'.q.queues <==> other in s.q.queues)
                  && (other in s.q.queues ==> s'.q.queues[other] == s.q.queues[other]))
    decreases |s.q.queues[name]|
  {
    hide Admit;
    var queue := s.q.queues[name];
    if queue != [] {
      LoopReleases(Resolve(s, name), name);
      AdmitAllFirst(s.w, queue);
      assert s.q.released + [queue[0]] + queue[1..] == s.q.released + queue;
    } else {
      assert s.q.released + [] == s.q.released;
    }
  }

  /** A release lets everyone go who waits under the name, in order, each recorded under its own key, whatever
      room there is; no other queue changes. */
  lemma ReleaseFreesAll(s: State, name: string)
    ensures var queue, s' := QueueOf(s, name), Apply(s, ReleaseCall(name));
            && QueueOf(s', name) == [] && name !in s'.q.queues
            && s'.q.released == s.q.released + queue && s'.w == AdmitAll(s.w, queue)
            && forall other :: other != name ==> QueueOf(s', other) == QueueOf(s, other)
  {
    hide ReleaseLoop, Admit;
    if name in s.q.queues {
      LoopReleases(s, name);
    } else {
      assert s.q.released + [] == s.q.released;
    }
  }

  /** `clear` forgets every log and rejects everyone who waits; its timers go with them. */
  lemma ClearEmpties(start: int, steps: seq<Step>)
    ensures var s := After(start, steps);
            var s' := Apply(s, ClearCall);
            && s'.w.logs == map[] && s'.w.history == s.w.history && s'.q.queues == map[] && s'.q.timers == map[]
            && s'.q.settled == s.q.settled + multiset(Waiters(s.q.queues)) && s'.q.released == s.q.released
  {
    var s := After(start, steps);
    AfterOrderly(start, steps);
    hide After;
    WaitersAreTimers(s.q);
    hide Orderly, Waiters;
    assert s.q.timers - s.q.timers.Keys == map[];
  }

  // ---- The answer of several checks ----

  lemma {:induction false} PassResult(w: Windows, cs: seq<Config>, who: Caller, n: nat)
    requires n < |cs|
    ensures Pass(w, cs, who).1[n] == Sync(Pass(w, cs[..n], who).0, cs[n], who).1
  {
    hide Sync;
    var m := |cs| - 1;
    if n < m {
      PassResult(w, cs[..m], who, n);
      assert cs[..m][..n] == cs[..n];
    }
  }

  lemma SyncResult(w: Windows, c: Config, who: Caller)
    ensures Sync(w, c, who).1.allowed ==> Sync(w, c, who).1 == CheckResult(true, Count(w, c, who) + 1, c.name)
  {
    hide Count;
  }

  lemma FittingResult(w: Windows, cs: seq<Config>, who: Caller, i: nat)
    requires AllFit(w, cs, who) && i < |cs| && Rejecting(cs)
    ensures Pass(w, cs, who).1[i] == CheckResult(true, Wanted(w, cs, who, i) + 1, cs[i].name)
  {
    hide Pass, Wanted, Count, Sync;
    PassIsFit(w, cs, who);
    PassPrefix(w, cs, who, i);
    PassResult(w, cs, who, i);
    SyncResult(Pass(w, cs[..i], who).0, cs[i], who);
    TurnCount(w, cs, who, i);
  }

  /** When all fit, the answer is that of the configuration with the greatest share of its limit in use, this
      call counted in; the first of those if there are several. */
  lemma AnswersMostRestrictive(s: State, cs: seq<Config>, who: Caller) returns (i: nat)
    requires AllFit(s.w, cs, who) && Rejecting(cs) && cs != [] && forall c :: c in cs ==> c.limit > 0
    ensures i < |cs|
    ensures CheckMultiple(s, cs, who).1 == Allowed(CheckResult(true, Wanted(s.w, cs, who, i) + 1, cs[i].name))
    ensures forall j :: 0 <= j < |cs| ==>
              (Wanted(s.w, cs, who, j) + 1) * cs[i].limit <= (Wanted(s.w, cs, who, i) + 1) * cs[j].limit
    ensures forall j :: 0 <= j < i ==>
              (Wanted(s.w, cs, who, j) + 1) * cs[i].limit < (Wanted(s.w, cs, who, i) + 1) * cs[j].limit
  {
    hide Pass, Wanted, Tightest, Fits;
    var results := Pass(s.w, cs, who).1;
    PassIsFit(s.w, cs, who);
    forall k | 0 <= k < |cs| ensures cs[k].limit > 0 { assert cs[k] in cs; }
    TightestIsMostRestrictive(cs, results);
    i := Tightest(cs, results);
    FittingResult(s.w, cs, who, i);
    forall j | 0 <= j < |cs|
      ensures (Wanted(s.w, cs, who, j) + 1) * cs[i].limit <= (Wanted(s.w, cs, who, i) + 1) * cs[j].limit
      ensures j < i ==> (Wanted(s.w, cs, who, j) + 1) * cs[i].limit < (Wanted(s.w, cs, who, i) + 1) * cs[j].limit
    {
      FittingResult(s.w, cs, who, j);
      assert !Higher(results[j], cs[j], results[i], cs[i]);
      assert j < i ==> Higher(results[i], cs[i], results[j], cs[j]);
    }
  }
}
