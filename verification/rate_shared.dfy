/** `checkMultiple` when configurations share keys: what a call records, and exactly for which lists of
    configurations every call is all or nothing. */
module RateShared {
  import opened RateLimits
  import opened RateMultiple

  // ---- What a pass counts ----

  function Copies(n: nat, at: int): (copies: seq<int>)
    ensures |copies| == n && forall t :: t in copies ==> t == at
  {
    seq(n, i => at)
  }

  /** How many of the configurations have this key. */
  function Times(cs: seq<Config>, who: Caller, key: string): nat {
    if cs == [] then 0
    else Times(cs[..|cs| - 1], who, key) + if Key(cs[|cs| - 1], who) == key then 1 else 0
  }

  /** What the evictions of all configurations of this key leave of its log. */
  function Remaining(log: seq<int>, cs: seq<Config>, who: Caller, key: string, now: int): (rest: seq<int>)
    ensures forall t :: t in rest <==> t in log && forall c :: c in cs && Key(c, who) == key ==> t > now - c.windowMs
  {
    if cs == [] then log
    else
      var n := |cs| - 1;
      var before := Remaining(log, cs[..n], who, key, now);
      assert forall c :: c in cs <==> c in cs[..n] || c == cs[n];
      if Key(cs[n], who) == key then Live(before, now - cs[n].windowMs) else before
  }

  lemma EvictAt(w: Windows, evicted: string, windowMs: int, key: string)
    ensures var after := Evict(w, evicted, windowMs);
            && At(after.logs, key)
               == (if evicted == key then Live(At(w.logs, key), w.clock - windowMs) else At(w.logs, key))
            && after.history == w.history && after.clock == w.clock
  {
    NothingLive(w.clock - windowMs);
    hide Live;
  }

  lemma {:induction false} EvictAllRemaining(w: Windows, cs: seq<Config>, who: Caller, key: string)
    ensures At(EvictAll(w, cs, who).logs, key) == Remaining(At(w.logs, key), cs, who, key, w.clock)
    ensures EvictAll(w, cs, who).history == w.history && EvictAll(w, cs, who).clock == w.clock
  {
    hide Key, Live, Evict, At;
    if cs != [] {
      var n := |cs| - 1;
      EvictAllRemaining(w, cs[..n], who, key);
      EvictAt(EvictAll(w, cs[..n], who), Key(cs[n], who), cs[n].windowMs, key);
    }
  }

  lemma OneMoreCopy(n: nat, at: int)
    ensures Copies(n + 1, at) == Copies(n, at) + [at] && Copies(0, at) == []
  {
  }

  lemma PushAt(w: Windows, pushed: string, key: string)
    ensures var after, mine := Push(w, pushed), if pushed == key then [w.clock] else [];
            && At(after.logs, key) == At(w.logs, key) + mine
            && At(after.history, key) == At(w.history, key) + mine
            && after.clock == w.clock
  {
  }

  lemma {:induction false} PushAllAt(w: Windows, keys: seq<string>, key: string)
    ensures var after, copies := PushAll(w, keys), Copies(multiset(keys)[key], w.clock);
            && At(after.logs, key) == At(w.logs, key) + copies
            && At(after.history, key) == At(w.history, key) + copies
            && after.clock == w.clock
  {
    hide Push, At, Copies;
    if keys != [] {
      var n := |keys| - 1;
      PushAllAt(w, keys[..n], key);
      PushAt(PushAll(w, keys[..n]), keys[n], key);
      assert keys == keys[..n] + [keys[n]];
      OneMoreCopy(multiset(keys[..n])[key], w.clock);
      assert multiset(keys)[key] == multiset(keys[..n])[key] + if keys[n] == key then 1 else 0;
    } else {
      OneMoreCopy(0, w.clock);
    }
  }

  lemma {:induction false} RecordedTimes(cs: seq<Config>, results: seq<CheckResult>, who: Caller, key: string)
    requires |cs| == |results| && AllAllowed(results)
    ensures multiset(Recorded(cs, results, who))[key] == Times(cs, who, key)
    decreases |cs|
  {
    if cs != [] {
      hide Key, Recorded;
      var n := |cs| - 1;
      RecordedTimes(cs[..n], results[..n], who, key);
      RecordedLast(cs, results, who);
    } else {
      assert Recorded(cs, results, who) == [];
    }
  }

  lemma {:induction false} LiveCopies(log: seq<int>, n: nat, at: int, start: int)
    requires at > start
    ensures Live(log + Copies(n, at), start) == Live(log, start) + Copies(n, at)
  {
    if n > 0 {
      LiveCopies(log, n - 1, at, start);
      assert Copies(n, at) == Copies(n - 1, at) + [at];
      LiveAppend(log + Copies(n - 1, at), at, start);
      assert log + Copies(n, at) == (log + Copies(n - 1, at)) + [at];
    } else {
      assert log + Copies(0, at) == log;
    }
  }

  /** A full pass leaves what the evictions leave, and one timestamp for each configuration of a key. */
  lemma FullPass(w: Windows, cs: seq<Config>, who: Caller, key: string)
    requires AllAllowed(Pass(w, cs, who).1) && forall c :: c in cs ==> c.windowMs > 0
    ensures var after, copies := Pass(w, cs, who).0, Copies(Times(cs, who, key), w.clock);
            && At(after.logs, key) == Remaining(At(w.logs, key), cs, who, key, w.clock) + copies
            && At(after.history, key) == At(w.history, key) + copies
            && after.clock == w.clock
  {
    hide Pass, Times, Remaining, PushAll, EvictAll, Recorded, Copies;
    var results := Pass(w, cs, who).1;
    PassEvictsThenPushes(w, cs, who);
    EvictAllRemaining(w, cs, who, key);
    PushAllAt(EvictAll(w, cs, who), Recorded(cs, results, who), key);
    RecordedTimes(cs, results, who, key);
  }

  /** The count a pass finds for configuration `i` when it allowed those before. */
  function Wanted(w: Windows, cs: seq<Config>, who: Caller, i: nat): nat
    requires i < |cs|
  {
    var key := Key(cs[i], who);
    |Remaining(At(w.logs, key), cs[..i + 1], who, key, w.clock)| + Times(cs[..i], who, key)
  }

  predicate Fits(w: Windows, cs: seq<Config>, who: Caller, i: nat)
    requires i < |cs|
  {
    Wanted(w, cs, who, i) < cs[i].limit
  }

  lemma CountIsLive(w: Windows, c: Config, who: Caller)
    ensures Count(w, c, who) == |Live(At(w.logs, Key(c, who)), w.clock - c.windowMs)|
  {
    NothingLive(w.clock - c.windowMs);
    hide Live, Key;
  }

  lemma RemainingLast(log: seq<int>, cs: seq<Config>, who: Caller, now: int, i: nat)
    requires i < |cs|
    ensures var key := Key(cs[i], who);
            Remaining(log, cs[..i + 1], who, key, now)
            == Live(Remaining(log, cs[..i], who, key, now), now - cs[i].windowMs)
  {
    hide Live, Key;
    assert cs[..i + 1][..i] == cs[..i];
  }

  lemma TurnCount(w: Windows, cs: seq<Config>, who: Caller, i: nat)
    requires i < |cs| && AllAllowed(Pass(w, cs[..i], who).1) && forall c :: c in cs ==> c.windowMs > 0
    ensures Count(Pass(w, cs[..i], who).0, cs[i], who) == Wanted(w, cs, who, i)
  {
    hide Live, Remaining, Pass, Times, Key, Copies, Count;
    var key, before := Key(cs[i], who), Pass(w, cs[..i], who).0;
    assert cs[i] in cs && forall c :: c in cs[..i] ==> c in cs;
    FullPass(w, cs[..i], who, key);
    CountIsLive(before, cs[i], who);
    LiveCopies(Remaining(At(w.logs, key), cs[..i], who, key, w.clock), Times(cs[..i], who, key), w.clock,
               w.clock - cs[i].windowMs);
    RemainingLast(At(w.logs, key), cs, who, w.clock, i);
  }

  lemma {:induction false} PassPrefix(w: Windows, cs: seq<Config>, who: Caller, n: nat)
    requires n <= |cs|
    ensures Pass(w, cs[..n], who).1 == Pass(w, cs, who).1[..n]
    ensures n < |cs| ==>
              Pass(w, cs, who).1[n].allowed == (Count(Pass(w, cs[..n], who).0, cs[n], who) < cs[n].limit)
  {
    hide Sync, Count;
    if n < |cs| {
      var m := |cs| - 1;
      PassPrefix(w, cs[..m], who, n);
      assert n < m ==> cs[..m][..n] == cs[..n];
      if n == m { SyncAllows(Pass(w, cs[..n], who).0, cs[n], who); }
    } else {
      assert cs[..n] == cs;
    }
  }

  lemma SyncAllows(w: Windows, c: Config, who: Caller)
    ensures Sync(w, c, who).1.allowed == (Count(w, c, who) < c.limit)
  {
  }

  /** While all before fit they are allowed, and the next is allowed just when it fits. */
  lemma {:induction false} PassFits(w: Windows, cs: seq<Config>, who: Caller, n: nat)
    requires n <= |cs| && forall c :: c in cs ==> c.windowMs > 0
    requires forall i :: 0 <= i < n ==> Fits(w, cs, who, i)
    ensures AllAllowed(Pass(w, cs, who).1[..n])
    ensures n < |cs| ==> Pass(w, cs, who).1[n].allowed == Fits(w, cs, who, n)
    decreases n
  {
    hide Pass, Wanted, Count;
    if n > 0 { PassFits(w, cs, who, n - 1); }
    PassPrefix(w, cs, who, n);
    if n < |cs| { TurnCount(w, cs, who, n); }
  }

  ghost predicate AllFit(w: Windows, cs: seq<Config>, who: Caller) {
    forall i :: 0 <= i < |cs| ==> Fits(w, cs, who, i)
  }

  /** The first configuration that does not fit. */
  ghost predicate FirstUnfit(w: Windows, cs: seq<Config>, who: Caller, i: nat) {
    i < |cs| && !Fits(w, cs, who, i) && forall j :: 0 <= j < i ==> Fits(w, cs, who, j)
  }

  lemma PassIsFit(w: Windows, cs: seq<Config>, who: Caller)
    requires forall c :: c in cs ==> c.windowMs > 0
    ensures AllAllowed(Pass(w, cs, who).1) <==> AllFit(w, cs, who)
  {
    hide Pass, Fits;
    var results := Pass(w, cs, who).1;
    if AllFit(w, cs, who) {
      PassFits(w, cs, who, |cs|);
      assert results[..|cs|] == results;
    } else if AllAllowed(results) {
      FitWhileAllowed(w, cs, who, |cs|);
    }
  }

  lemma {:induction false} FitWhileAllowed(w: Windows, cs: seq<Config>, who: Caller, n: nat)
    requires n <= |cs| && AllAllowed(Pass(w, cs, who).1[..n]) && forall c :: c in cs ==> c.windowMs > 0
    ensures forall i :: 0 <= i < n ==> Fits(w, cs, who, i)
    decreases n
  {
    hide Pass, Fits;
    if n > 0 {
      var results := Pass(w, cs, who).1;
      assert results[..n - 1] == results[..n][..n - 1];
      FitWhileAllowed(w, cs, who, n - 1);
      PassFits(w, cs, who, n - 1);
      assert results[..n][n - 1].allowed;
    }
  }

  lemma DeniedFirst(w: Windows, cs: seq<Config>, who: Caller)
    requires !AllAllowed(Pass(w, cs, who).1) && forall c :: c in cs ==> c.windowMs > 0
    ensures FirstUnfit(w, cs, who, FirstDenied(Pass(w, cs, who).1))
  {
    hide Pass, Fits;
    var i := FirstDenied(Pass(w, cs, who).1);
    FitWhileAllowed(w, cs, who, i);
    PassFits(w, cs, who, i);
  }

  // ---- What a call leaves ----

  predicate NoneWaiting(q: Lobby, cs: seq<Config>) {
    forall c :: c in cs && c.name in q.queues ==> q.queues[c.name] == []
  }

  predicate Rejecting(cs: seq<Config>) {
    forall c :: c in cs ==> c.windowMs > 0 && !c.queues
  }

  /** The log of the key loses what its configurations evict and gets `n` timestamps of now. */
  ghost predicate Leaves(s: State, after: State, cs: seq<Config>, who: Caller, key: string, n: nat) {
    && At(after.w.logs, key) == Remaining(At(s.w.logs, key), cs, who, key, s.w.clock) + Copies(n, s.w.clock)
    && At(after.w.history, key) == At(s.w.history, key) + Copies(n, s.w.clock)
    && after.q == s.q
  }

  /** Whether a configuration has room once the pass is taken back. */
  predicate Retries(w: Windows, cs: seq<Config>, who: Caller, i: nat)
    requires i < |cs|
  {
    |Remaining(At(w.logs, Key(cs[i], who)), cs, who, Key(cs[i], who), w.clock)| < cs[i].limit
  }

  lemma {:induction false} LiveKeeps(log: seq<int>, start: int)
    requires forall t :: t in log ==> t > start
    ensures Live(log, start) == log
  {
    if log != [] {
      var n := |log| - 1;
      forall t | t in log[..n] ensures t > start { assert t in log; }
      var last := log[n];
      assert last in log;
      LiveKeeps(log[..n], start);
    }
  }

  lemma EvictKeeps(w: Windows, key: string, windowMs: int)
    requires Tidy(w) && forall t :: t in At(w.logs, key) ==> t > w.clock - windowMs
    ensures Evict(w, key, windowMs) == w
  {
    LiveKeeps(At(w.logs, key), w.clock - windowMs);
    hide Live;
    assert key in w.logs ==> w.logs[key := w.logs[key]] == w.logs;
  }

  lemma CheckAgain(s: State, c: Config, who: Caller)
    requires Tidy(s.w) && !c.queues && (c.name in s.q.queues ==> s.q.queues[c.name] == [])
    requires forall t :: t in At(s.w.logs, Key(c, who)) ==> t > s.w.clock - c.windowMs
    ensures var (after, answer) := Check(s, c, who);
            if |At(s.w.logs, Key(c, who))| < c.limit then after == s.(w := Push(s.w, Key(c, who))) && answer.Allowed?
            else after == s && answer == RateLimited
  {
    EvictKeeps(s.w, Key(c, who), c.windowMs);
    hide Key, Evict, Push, Tidy, DrainLoop;
  }

  /** Each key of a call gets a timestamp for every configuration that has it when all fit. Otherwise the
      first that does not fit is tried again alone: it gets one if it has room, and no other key gets any. */
  lemma FittingCall(s: State, cs: seq<Config>, who: Caller, key: string)
    requires AllFit(s.w, cs, who) && Rejecting(cs)
    ensures var (after, answer) := CheckMultiple(s, cs, who);
            Leaves(s, after, cs, who, key, Times(cs, who, key)) && answer != RateLimited
  {
    PassIsFit(s.w, cs, who);
    FullPass(s.w, cs, who, key);
    hide Pass, AllFit, Times, Remaining, Copies, Tightest;
  }

  lemma UnfitCall(s: State, cs: seq<Config>, who: Caller, f: nat, key: string)
    requires Tidy(s.w) && FirstUnfit(s.w, cs, who, f) && Rejecting(cs) && NoneWaiting(s.q, cs)
    ensures var (after, answer) := CheckMultiple(s, cs, who);
            var again := Retries(s.w, cs, who, f);
            && answer.Allowed? == again && (answer == RateLimited) == !again
            && Leaves(s, after, cs, who, key, if again && Key(cs[f], who) == key then 1 else 0)
  {
    hide Pass, Fits, Remaining, Copies, Tightest, EvictAll, Check, Tidy, Undo, Push;
    PassIsFit(s.w, cs, who);
    DeniedFirst(s.w, cs, who);
    assert FirstDenied(Pass(s.w, cs, who).1) == f;
    var evicted := s.(w := EvictAll(s.w, cs, who));
    RollbackIsExact(s.w, cs, who);
    assert CheckMultiple(s, cs, who) == Check(evicted, cs[f], who);
    assert cs[f] in cs;
    EvictAllRemaining(s.w, cs, who, key);
    EvictAllRemaining(s.w, cs, who, Key(cs[f], who));
    TidyEvictAll(s.w, cs, who);
    CheckAgain(evicted, cs[f], who);
    PushAt(evicted.w, Key(cs[f], who), key);
    OneMoreCopy(0, s.w.clock);
  }

  // ---- All or nothing ----

  /** Every key gets the one timestamp and the call is allowed, or none gets any and it is refused. */
  ghost predicate AllOrNone(s: State, cs: seq<Config>, who: Caller) {
    var (after, answer) := CheckMultiple(s, cs, who);
    || (answer != RateLimited && forall c :: c in cs ==> Leaves(s, after, cs, who, Key(c, who), 1))
    || (answer == RateLimited && forall c :: c in cs ==> Leaves(s, after, cs, who, Key(c, who), 0))
  }

  predicate OneKey(cs: seq<Config>, who: Caller) {
    forall c, d :: c in cs && d in cs ==> Key(c, who) == Key(d, who)
  }

  lemma {:induction false} TimesPositive(cs: seq<Config>, who: Caller, i: nat)
    requires i < |cs|
    ensures Times(cs, who, Key(cs[i], who)) > 0
    ensures forall j :: 0 <= j < i && Key(cs[j], who) == Key(cs[i], who) ==> Times(cs, who, Key(cs[i], who)) > 1
  {
    hide Key;
    var n := |cs| - 1;
    if i < n {
      TimesPositive(cs[..n], who, i);
    } else {
      forall j | 0 <= j < i && Key(cs[j], who) == Key(cs[i], who) ensures Times(cs[..n], who, Key(cs[i], who)) > 0 {
        TimesPositive(cs[..n], who, j);
      }
    }
  }

  lemma {:induction false} TimesForeign(cs: seq<Config>, who: Caller, key: string)
    requires Foreign(cs, who, key)
    ensures Times(cs, who, key) == 0
  {
    if cs != [] { hide Key; TimesForeign(cs[..|cs| - 1], who, key); }
  }

  lemma {:induction false} TimesOne(cs: seq<Config>, who: Caller, i: nat)
    requires i < |cs| && DistinctKeys(cs, who)
    ensures Times(cs, who, Key(cs[i], who)) == 1
  {
    hide Key;
    var n := |cs| - 1;
    if i < n { TimesOne(cs[..n], who, i); } else { TimesForeign(cs[..n], who, Key(cs[i], who)); }
  }

  lemma {:induction false} TimesAll(cs: seq<Config>, who: Caller, key: string)
    requires forall c :: c in cs ==> Key(c, who) == key
    ensures Times(cs, who, key) == |cs|
  {
    if cs != [] { hide Key; TimesAll(cs[..|cs| - 1], who, key); }
  }

  lemma LeavesOnce(s: State, after: State, cs: seq<Config>, who: Caller, key: string, n: nat, m: nat)
    requires Leaves(s, after, cs, who, key, n) && Leaves(s, after, cs, who, key, m)
    ensures n == m
  {
    hide Remaining;
  }

  /** In a state where all fit, a call is all or nothing exactly when the keys differ. */
  lemma FittingExactly(s: State, cs: seq<Config>, who: Caller)
    requires AllFit(s.w, cs, who) && Rejecting(cs)
    ensures AllOrNone(s, cs, who) <==> DistinctKeys(cs, who)
  {
    hide CheckMultiple, Leaves, Key, AllFit, Times;
    var (after, answer) := CheckMultiple(s, cs, who);
    forall c | c in cs
      ensures Leaves(s, after, cs, who, Key(c, who), Times(cs, who, Key(c, who))) && answer != RateLimited
    {
      FittingCall(s, cs, who, Key(c, who));
    }
    if cs == [] { FittingCall(s, cs, who, ""); }
    if DistinctKeys(cs, who) {
      forall c | c in cs ensures Times(cs, who, Key(c, who)) == 1 {
        var i :| 0 <= i < |cs| && cs[i] == c;
        TimesOne(cs, who, i);
      }
    } else {
      var j, i :| 0 <= j < i < |cs| && Key(cs[j], who) == Key(cs[i], who);
      TimesPositive(cs, who, i);
      assert cs[i] in cs;
      if AllOrNone(s, cs, who) {
        LeavesOnce(s, after, cs, who, Key(cs[i], who), Times(cs, who, Key(cs[i], who)), 1);
      }
    }
  }

  /** In a state where one does not fit, exactly when that one stays refused or no other key is there. */
  lemma UnfitExactly(s: State, cs: seq<Config>, who: Caller, f: nat)
    requires Tidy(s.w) && FirstUnfit(s.w, cs, who, f) && Rejecting(cs) && NoneWaiting(s.q, cs)
    ensures AllOrNone(s, cs, who) <==> !Retries(s.w, cs, who, f) || OneKey(cs, who)
  {
    hide CheckMultiple, Leaves, Key, Fits, Retries, Tidy;
    var (after, answer) := CheckMultiple(s, cs, who);
    var again := Retries(s.w, cs, who, f);
    assert cs[f] in cs;
    forall c | c in cs
      ensures Leaves(s, after, cs, who, Key(c, who), if again && Key(cs[f], who) == Key(c, who) then 1 else 0)
    {
      UnfitCall(s, cs, who, f, Key(c, who));
    }
    UnfitCall(s, cs, who, f, Key(cs[f], who));
    if again && !OneKey(cs, who) {
      var c :| c in cs && Key(c, who) != Key(cs[f], who);
      if AllOrNone(s, cs, who) { LeavesOnce(s, after, cs, who, Key(c, who), 0, 1); }
    }
  }

  // ---- Every reachable call ----

  lemma {:induction false} FreshCounts(cs: seq<Config>, who: Caller, clock: int, i: nat)
    requires i < |cs|
    ensures Wanted(Start(clock).w, cs, who, i) == Times(cs[..i], who, Key(cs[i], who))
    ensures Remaining(At(Start(clock).w.logs, Key(cs[i], who)), cs, who, Key(cs[i], who), clock) == []
  {
    hide Key, Times;
    var key := Key(cs[i], who);
    assert forall t :: t !in Remaining([], cs[..i + 1], who, key, clock) && t !in Remaining([], cs, who, key, clock);
    EmptyLog(Remaining([], cs[..i + 1], who, key, clock));
    EmptyLog(Remaining([], cs, who, key, clock));
  }

  lemma EmptyLog(log: seq<int>)
    ensures log == [] || exists t :: t in log
  {
    if log != [] {
      var t := log[0];
      assert t in log;
    }
  }

  /** Whether every call with these configurations, after any run, is all or nothing. Nobody waits under the
      names of reject configurations unless another configuration of that name queues. */
  ghost predicate AlwaysAllOrNone(cs: seq<Config>, who: Caller) {
    forall start: int, steps: seq<Step> ::
      NoneWaiting(After(start, steps).q, cs) ==> AllOrNone(After(start, steps), cs, who)
  }

  /** The keys differ, or there is one key and the calls cannot all fit: one configuration does not even
      have room for those before it. */
  predicate SafeList(cs: seq<Config>, who: Caller) {
    DistinctKeys(cs, who) || (OneKey(cs, who) && exists i :: 0 <= i < |cs| && cs[i].limit <= i)
  }

  lemma {:induction false} RemainingForeign(
    log: seq<int>, cs: seq<Config>, who: Caller, key: string, now: int, n: nat)
    requires n <= |cs| && forall i :: n <= i < |cs| ==> Key(cs[i], who) != key
    ensures Remaining(log, cs, who, key, now) == Remaining(log, cs[..n], who, key, now)
  {
    hide Key, Live;
    if n < |cs| {
      var m := |cs| - 1;
      RemainingForeign(log, cs[..m], who, key, now, n);
      assert cs[..m][..n] == cs[..n];
    } else {
      assert cs[..n] == cs;
    }
  }

  lemma DistinctStaysRefused(w: Windows, cs: seq<Config>, who: Caller, f: nat)
    requires DistinctKeys(cs, who) && f < |cs| && !Fits(w, cs, who, f)
    ensures !Retries(w, cs, who, f)
  {
    hide Key, Live;
    TimesForeign(cs[..f], who, Key(cs[f], who));
    RemainingForeign(At(w.logs, Key(cs[f], who)), cs, who, Key(cs[f], who), w.clock, f + 1);
  }

  lemma CannotAllFit(w: Windows, cs: seq<Config>, who: Caller, i: nat)
    requires OneKey(cs, who) && i < |cs| && cs[i].limit <= i
    ensures !Fits(w, cs, who, i)
  {
    hide Key, Remaining;
    TimesAll(cs[..i], who, Key(cs[i], who));
  }

  lemma SafeListHolds(s: State, cs: seq<Config>, who: Caller)
    requires Tidy(s.w) && NoneWaiting(s.q, cs) && Rejecting(cs) && SafeList(cs, who)
    ensures AllOrNone(s, cs, who)
  {
    hide Fits, Retries, AllOrNone, Tidy, Pass, Key;
    PassIsFit(s.w, cs, who);
    if AllFit(s.w, cs, who) {
      FittingExactly(s, cs, who);
      if !DistinctKeys(cs, who) {
        var i :| 0 <= i < |cs| && cs[i].limit <= i;
        CannotAllFit(s.w, cs, who, i);
      }
    } else {
      DeniedFirst(s.w, cs, who);
      var f := FirstDenied(Pass(s.w, cs, who).1);
      UnfitExactly(s, cs, who, f);
      if DistinctKeys(cs, who) { DistinctStaysRefused(s.w, cs, who, f); }
    }
  }

  /** The first call of a fresh limiter already shows it. */
  lemma FreshCallTells(cs: seq<Config>, who: Caller, clock: int)
    requires Rejecting(cs) && (forall c :: c in cs ==> c.limit > 0) && AllOrNone(Start(clock), cs, who)
    ensures SafeList(cs, who)
  {
    hide AllOrNone, Pass, Key, Remaining;
    var s := Start(clock);
    PassIsFit(s.w, cs, who);
    if AllFit(s.w, cs, who) {
      hide Fits;
      FittingExactly(s, cs, who);
    } else {
      DeniedFirst(s.w, cs, who);
      var f := FirstDenied(Pass(s.w, cs, who).1);
      assert cs[f] in cs;
      FreshCounts(cs, who, clock, f);
      UnfitExactly(s, cs, who, f);
      TimesAll(cs[..f], who, Key(cs[f], who));
    }
  }

  /** With positive limits and windows: every call after any run is all or nothing if and only if the list
      is safe. */
  lemma AllOrNoneExactly(cs: seq<Config>, who: Caller)
    requires Rejecting(cs) && forall c :: c in cs ==> c.limit > 0
    ensures AlwaysAllOrNone(cs, who) <==> SafeList(cs, who)
  {
    hide AllOrNone, SafeList, Rejecting, Tidy;
    if SafeList(cs, who) {
      forall start: int, steps: seq<Step> | NoneWaiting(After(start, steps).q, cs)
        ensures AllOrNone(After(start, steps), cs, who)
      {
        AfterTidy(start, steps);
        SafeListHolds(After(start, steps), cs, who);
      }
    }
    if AlwaysAllOrNone(cs, who) {
      assert After(0, []) == Start(0);
      FreshCallTells(cs, who, 0);
    }
  }

  // ---- Two configurations of one key ----

  lemma PairTimes(c: Config, d: Config, who: Caller)
    requires Key(c, who) == Key(d, who)
    ensures Times([c, d], who, Key(c, who)) == 2 && Times([c, d][..1], who, Key(c, who)) == 1
    ensures Times([c, d][..0], who, Key(c, who)) == 0
  {
    hide Key;
    TimesAll([c, d], who, Key(c, who));
    TimesAll([c, d][..1], who, Key(c, who));
  }

  /** With room for both, one call leaves two timestamps. */
  lemma SharedKeyRecordsTwice(c: Config, d: Config, who: Caller, clock: int)
    requires Key(c, who) == Key(d, who) && c.limit >= 1 && d.limit >= 2 && Rejecting([c, d])
    ensures var (after, answer) := CheckMultiple(Start(clock), [c, d], who);
            && answer.Allowed?
            && At(after.w.logs, Key(c, who)) == [clock, clock] == At(after.w.history, Key(c, who))
    ensures !AllOrNone(Start(clock), [c, d], who)
  {
    hide Key, CheckMultiple, Remaining;
    var s, cs := Start(clock), [c, d];
    PairTimes(c, d, who);
    FreshCounts(cs, who, clock, 0);
    FreshCounts(cs, who, clock, 1);
    assert AllFit(s.w, cs, who);
    FittingCall(s, cs, who, Key(c, who));
    FittingExactly(s, cs, who);
    assert Key(cs[0], who) == Key(cs[1], who);
    assert Copies(2, clock) == [clock, clock];
    AllowedExactly(s, cs, who);
  }

  /** With room for one the pass is denied, and yet the call is allowed: one timestamp stands for both. */
  lemma SharedKeyAdmits(c: Config, d: Config, who: Caller, clock: int)
    requires Key(c, who) == Key(d, who) && c.limit >= 1 && d.limit == 1 && Rejecting([c, d])
    ensures !AllAllowed(Pass(Start(clock).w, [c, d], who).1)
    ensures var (after, answer) := CheckMultiple(Start(clock), [c, d], who);
            && answer.Allowed?
            && At(after.w.logs, Key(c, who)) == [clock] == At(after.w.history, Key(c, who))
  {
    hide Key, CheckMultiple, Remaining, Pass;
    var s, cs := Start(clock), [c, d];
    PairTimes(c, d, who);
    FreshCounts(cs, who, clock, 0);
    FreshCounts(cs, who, clock, 1);
    assert FirstUnfit(s.w, cs, who, 1);
    PassIsFit(s.w, cs, who);
    UnfitCall(s, cs, who, 1, Key(c, who));
    assert Copies(1, clock) == [clock];
  }

  /** Whatever waits: the call is allowed if and only if all fit, or the first that does not has room once
      the pass is taken back. */
  lemma AllowedExactly(s: State, cs: seq<Config>, who: Caller)
    requires Tidy(s.w) && cs != [] && Rejecting(cs)
    ensures CheckMultiple(s, cs, who).1.Allowed?
            <==> (AllFit(s.w, cs, who) || exists f :: FirstUnfit(s.w, cs, who, f) && Retries(s.w, cs, who, f))
  {
    hide Pass, Undo, EvictAll, Drain, Fits, Remaining, Tidy, Count, Key, Tightest, Push, Evict, Enqueue;
    PassIsFit(s.w, cs, who);
    if !AllFit(s.w, cs, who) {
      DeniedFirst(s.w, cs, who);
      RollbackIsExact(s.w, cs, who);
      var f, evicted := FirstDenied(Pass(s.w, cs, who).1), EvictAll(s.w, cs, who);
      assert cs[f] in cs;
      EvictAllRemaining(s.w, cs, who, Key(cs[f], who));
      CountIsLive(evicted, cs[f], who);
      LiveKeeps(At(evicted.logs, Key(cs[f], who)), s.w.clock - cs[f].windowMs);
      hide Live;
      forall g | FirstUnfit(s.w, cs, who, g) ensures g == f { OneUnfit(s.w, cs, who, f, g); }
    }
  }

  lemma OneUnfit(w: Windows, cs: seq<Config>, who: Caller, f: nat, g: nat)
    requires FirstUnfit(w, cs, who, f) && FirstUnfit(w, cs, who, g)
    ensures f == g
  {
    hide Fits;
  }
}
