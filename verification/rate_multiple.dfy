/** `checkMultiple`: taking back a failed pass leaves only the evictions, and with a key for each
    configuration the call is all or nothing. */
module RateMultiple {
  import opened RateLimits

  /** No key has an empty list. */
  predicate Tidy(w: Windows) {
    && (forall key :: key in w.logs ==> w.logs[key] != [])
    && (forall key :: key in w.history ==> w.history[key] != [])
  }

  function EvictAll(w: Windows, cs: seq<Config>, who: Caller): Windows {
    if cs == [] then w
    else
      var n := |cs| - 1;
      Evict(EvictAll(w, cs[..n], who), Key(cs[n], who), cs[n].windowMs)
  }

  function PushAll(w: Windows, keys: seq<string>): Windows {
    if keys == [] then w
    else
      var n := |keys| - 1;
      Push(PushAll(w, keys[..n]), keys[n])
  }

  /** The keys recorded by a pass. */
  function Recorded(cs: seq<Config>, results: seq<CheckResult>, who: Caller): seq<string>
    requires |cs| == |results|
    decreases |cs|
  {
    if cs == [] then []
    else (if results[0].allowed then [Key(cs[0], who)] else []) + Recorded(cs[1..], results[1..], who)
  }

  // ---- Evictions and admissions commute ----

  lemma LiveAppend(log: seq<int>, at: int, start: int)
    requires at > start
    ensures Live(log + [at], start) == Live(log, start) + [at]
  {
    assert (log + [at])[..|log|] == log;
  }

  function Append(entries: map<string, seq<int>>, key: string, at: int): map<string, seq<int>> {
    entries[key := At(entries, key) + [at]]
  }

  lemma AppendPut(entries: map<string, seq<int>>, key: string, live: seq<int>, at: int)
    ensures Append(Put(entries, key, live), key, at) == entries[key := live + [at]]
  {
    assert At(Put(entries, key, live), key) == live;
  }

  lemma EvictPushSame(w: Windows, key: string, windowMs: int)
    requires windowMs > 0
    ensures Evict(Push(w, key), key, windowMs) == Push(Evict(w, key, windowMs), key)
  {
    var log, start := At(w.logs, key), w.clock - windowMs;
    LiveAppend(log, w.clock, start);
    NothingLive(start);
    hide Live;
    var live := Live(log, start);
    var pushed := w.logs[key := log + [w.clock]];
    assert Evict(Push(w, key), key, windowMs).logs
        == pushed[key := live + [w.clock]] == w.logs[key := live + [w.clock]];
    if key in w.logs {
      AppendPut(w.logs, key, live, w.clock);
    }
  }

  lemma NothingLive(start: int)
    ensures Live([], start) == []
  {
  }

  lemma EvictPushOther(w: Windows, key: string, other: string, windowMs: int)
    requires key != other
    ensures Evict(Push(w, key), other, windowMs) == Push(Evict(w, other, windowMs), key)
  {
    hide Live;
    assert Evict(Push(w, key), other, windowMs).logs == Push(Evict(w, other, windowMs), key).logs;
  }

  lemma EvictPush(w: Windows, key: string, other: string, windowMs: int)
    requires windowMs > 0
    ensures Evict(Push(w, key), other, windowMs) == Push(Evict(w, other, windowMs), key)
  {
    hide Evict, Push;
    if key == other { EvictPushSame(w, key, windowMs); } else { EvictPushOther(w, key, other, windowMs); }
  }

  lemma AppendAppend(entries: map<string, seq<int>>, a: string, b: string, at: int)
    ensures Append(Append(entries, a, at), b, at) == Append(Append(entries, b, at), a, at)
  {
  }

  lemma PushPush(w: Windows, a: string, b: string)
    ensures Push(Push(w, a), b) == Push(Push(w, b), a)
  {
    AppendAppend(w.logs, a, b, w.clock);
    AppendAppend(w.history, a, b, w.clock);
  }

  lemma PopPush(w: Windows, key: string)
    requires Tidy(w)
    ensures Pop(Push(w, key), key) == w
  {
    var log, h := At(w.logs, key), At(w.history, key);
    assert Init(log + [w.clock]) == log && Init(h + [w.clock]) == h;
    assert Pop(Push(w, key), key).logs == w.logs;
    assert Pop(Push(w, key), key).history == w.history;
  }

  lemma {:induction false} EvictPushAll(w: Windows, keys: seq<string>, other: string, windowMs: int)
    requires windowMs > 0
    ensures Evict(PushAll(w, keys), other, windowMs) == PushAll(Evict(w, other, windowMs), keys)
  {
    if keys != [] {
      hide Evict, Push;
      var n := |keys| - 1;
      EvictPush(PushAll(w, keys[..n]), keys[n], other, windowMs);
      EvictPushAll(w, keys[..n], other, windowMs);
    }
  }

  lemma {:induction false} PushAllFirst(w: Windows, keys: seq<string>)
    requires keys != []
    ensures PushAll(w, keys) == Push(PushAll(w, keys[1..]), keys[0])
  {
    hide Push;
    var n := |keys| - 1;
    if n > 0 {
      PushAllFirst(w, keys[..n]);
      assert keys[..n][1..] == keys[1..][..n - 1];
      PushPush(PushAll(w, keys[1..][..n - 1]), keys[0], keys[n]);
    }
  }

  lemma {:induction false} RecordedLast(cs: seq<Config>, results: seq<CheckResult>, who: Caller)
    requires |cs| == |results| > 0
    ensures Recorded(cs, results, who)
         == Recorded(cs[..|cs| - 1], results[..|cs| - 1], who)
            + if results[|cs| - 1].allowed then [Key(cs[|cs| - 1], who)] else []
    decreases |cs|
  {
    hide Key;
    var n := |cs| - 1;
    if n > 0 {
      RecordedLast(cs[1..], results[1..], who);
      assert cs[1..][..n - 1] == cs[..n][1..] && results[1..][..n - 1] == results[..n][1..];
    }
  }

  // ---- A pass and its undoing ----

  lemma PushAllSync(w: Windows, keys: seq<string>, c: Config, who: Caller)
    requires c.windowMs > 0
    ensures var (after, result) := Sync(PushAll(w, keys), c, who);
            after == PushAll(Evict(w, Key(c, who), c.windowMs), keys + if result.allowed then [Key(c, who)] else [])
  {
    hide Evict, Push, Key, Count;
    EvictPushAll(w, keys, Key(c, who), c.windowMs);
    assert (keys + [Key(c, who)])[..|keys|] == keys;
    assert keys + [] == keys;
  }

  /** A pass is the evictions of all its configurations, then the admissions of those allowed. */
  lemma {:induction false} PassEvictsThenPushes(w: Windows, cs: seq<Config>, who: Caller)
    requires forall c :: c in cs ==> c.windowMs > 0
    ensures var (after, results) := Pass(w, cs, who);
            after == PushAll(EvictAll(w, cs, who), Recorded(cs, results, who))
  {
    if cs != [] {
      hide Evict, Push, PushAll, Key, Recorded, Sync;
      var n := |cs| - 1;
      PassEvictsThenPushes(w, cs[..n], who);
      var (before, results) := Pass(w, cs[..n], who);
      var result := Sync(before, cs[n], who).1;
      PushAllSync(EvictAll(w, cs[..n], who), Recorded(cs[..n], results, who), cs[n], who);
      RecordedLast(cs, results + [result], who);
      assert (results + [result])[..n] == results;
    } else {
      assert Recorded(cs, [], who) == [];
    }
  }

  lemma {:induction false} TidyPushAll(w: Windows, keys: seq<string>)
    requires Tidy(w)
    ensures Tidy(PushAll(w, keys))
  {
    if keys != [] { TidyPushAll(w, keys[..|keys| - 1]); }
  }

  lemma {:induction false} UndoPushAll(w: Windows, cs: seq<Config>, results: seq<CheckResult>, who: Caller)
    requires |cs| == |results| && Tidy(w)
    ensures Undo(PushAll(w, Recorded(cs, results, who)), cs, results, who) == w
    decreases |cs|
  {
    if cs != [] {
      hide Push, Pop, Tidy, Key;
      UndoPushAll(w, cs[1..], results[1..], who);
      if results[0].allowed {
        var keys := Recorded(cs, results, who);
        assert keys[1..] == Recorded(cs[1..], results[1..], who) && keys[0] == Key(cs[0], who);
        PushAllFirst(w, keys);
        TidyPushAll(w, keys[1..]);
        PopPush(PushAll(w, keys[1..]), keys[0]);
        assert Undo(PushAll(w, keys), cs, results, who)
            == Undo(Pop(PushAll(w, keys), keys[0]), cs[1..], results[1..], who);
      } else {
        assert Recorded(cs, results, who) == Recorded(cs[1..], results[1..], who);
      }
    }
  }

  lemma {:induction false} TidyEvictAll(w: Windows, cs: seq<Config>, who: Caller)
    requires Tidy(w)
    ensures Tidy(EvictAll(w, cs, who))
  {
    if cs != [] { TidyEvictAll(w, cs[..|cs| - 1], who); }
  }

  /** Whatever keys the configurations share, a pass taken back is only its evictions: no admission
      is lost and none remains. */
  lemma RollbackIsExact(w: Windows, cs: seq<Config>, who: Caller)
    requires Tidy(w) && forall c :: c in cs ==> c.windowMs > 0
    ensures var (after, results) := Pass(w, cs, who);
            Undo(after, cs, results, who) == EvictAll(w, cs, who)
  {
    PassEvictsThenPushes(w, cs, who);
    TidyEvictAll(w, cs, who);
    UndoPushAll(EvictAll(w, cs, who), cs, Pass(w, cs, who).1, who);
  }

  // ---- One key each ----

  predicate DistinctKeys(cs: seq<Config>, who: Caller) {
    forall i, j :: 0 <= i < j < |cs| ==> Key(cs[i], who) != Key(cs[j], who)
  }

  predicate Foreign(cs: seq<Config>, who: Caller, key: string) {
    forall i :: 0 <= i < |cs| ==> Key(cs[i], who) != key
  }

  lemma {:induction false} PassElsewhere(w: Windows, cs: seq<Config>, who: Caller, key: string)
    requires Foreign(cs, who, key)
    ensures var after := Pass(w, cs, who).0;
            At(after.logs, key) == At(w.logs, key) && (key in after.logs <==> key in w.logs)
            && At(after.history, key) == At(w.history, key)
    ensures Pass(w, cs, who).0.clock == w.clock
  {
    if cs != [] {
      var n := |cs| - 1;
      hide Key;
      PassElsewhere(w, cs[..n], who, key);
    }
  }

  /** What one configuration's turn does to its own key. */
  ghost predicate TurnTaken(w: Windows, after: Windows, result: CheckResult, c: Config, who: Caller) {
    var key, count := Key(c, who), Count(w, c, who);
    var mine := if count < c.limit then [w.clock] else [];
    && result.allowed == (count < c.limit)
    && At(after.logs, key) == Live(At(w.logs, key), w.clock - c.windowMs) + mine
    && At(after.history, key) == At(w.history, key) + mine
  }

  lemma TurnOfOne(w: Windows, before: Windows, c: Config, who: Caller)
    requires var key := Key(c, who);
             At(before.logs, key) == At(w.logs, key) && (key in before.logs <==> key in w.logs)
             && At(before.history, key) == At(w.history, key) && before.clock == w.clock
    ensures TurnTaken(w, Sync(before, c, who).0, Sync(before, c, who).1, c, who)
  {
    hide Key;
    NothingLive(w.clock - c.windowMs);
    hide Live;
  }

  lemma LaterTurns(w: Windows, before: Windows, result: CheckResult, c: Config, d: Config, who: Caller)
    requires Key(c, who) != Key(d, who) && TurnTaken(w, before, result, c, who)
    ensures TurnTaken(w, Sync(before, d, who).0, result, c, who)
  {
    hide Key, Live;
  }

  /** The admission of each configuration depends on its own count alone. */
  lemma {:induction false} PassOwnKey(w: Windows, cs: seq<Config>, who: Caller, i: nat)
    requires DistinctKeys(cs, who) && i < |cs|
    ensures TurnTaken(w, Pass(w, cs, who).0, Pass(w, cs, who).1[i], cs[i], who)
  {
    hide Key, TurnTaken, Sync;
    var n := |cs| - 1;
    var before := Pass(w, cs[..n], who).0;
    if i < n {
      PassOwnKey(w, cs[..n], who, i);
      LaterTurns(w, before, Pass(w, cs, who).1[i], cs[i], cs[n], who);
    } else {
      PassElsewhere(w, cs[..n], who, Key(cs[n], who));
      TurnOfOne(w, before, cs[n], who);
    }
  }

  lemma {:induction false} EvictAllElsewhere(w: Windows, cs: seq<Config>, who: Caller, key: string)
    requires Foreign(cs, who, key)
    ensures var after := EvictAll(w, cs, who);
            At(after.logs, key) == At(w.logs, key) && (key in after.logs <==> key in w.logs)
    ensures EvictAll(w, cs, who).history == w.history && EvictAll(w, cs, who).clock == w.clock
  {
    if cs != [] {
      hide Key;
      EvictAllElsewhere(w, cs[..|cs| - 1], who, key);
    }
  }

  lemma {:induction false} EvictAllOwnKey(w: Windows, cs: seq<Config>, who: Caller, i: nat)
    requires DistinctKeys(cs, who) && i < |cs|
    ensures At(EvictAll(w, cs, who).logs, Key(cs[i], who))
         == Live(At(w.logs, Key(cs[i], who)), w.clock - cs[i].windowMs)
    ensures EvictAll(w, cs, who).history == w.history && EvictAll(w, cs, who).clock == w.clock
  {
    hide Key;
    var n := |cs| - 1;
    if i < n {
      EvictAllOwnKey(w, cs[..n], who, i);
    } else {
      EvictAllElsewhere(w, cs[..n], who, Key(cs[n], who));
    }
  }

  lemma {:induction false} LiveTwice(timestamps: seq<int>, start: int)
    ensures Live(Live(timestamps, start), start) == Live(timestamps, start)
  {
    if timestamps != [] {
      var n := |timestamps| - 1;
      LiveTwice(timestamps[..n], start);
      var live := Live(timestamps[..n], start);
      assert (live + [timestamps[n]])[..|live|] == live;
    }
  }

  lemma EvictTwice(w: Windows, e: Windows, key: string, windowMs: int)
    requires Tidy(e) && e.clock == w.clock && At(e.logs, key) == Live(At(w.logs, key), w.clock - windowMs)
    ensures Evict(e, key, windowMs) == e
    ensures At(Evict(w, key, windowMs).logs, key) == At(e.logs, key)
  {
    LiveTwice(At(w.logs, key), w.clock - windowMs);
    NothingLive(w.clock - windowMs);
    hide Live;
    assert Evict(e, key, windowMs).logs == e.logs;
  }

  lemma CountAgain(w: Windows, cs: seq<Config>, who: Caller, i: nat)
    requires DistinctKeys(cs, who) && i < |cs| && Tidy(w)
    ensures Count(EvictAll(w, cs, who), cs[i], who) == Count(w, cs[i], who)
    ensures Evict(EvictAll(w, cs, who), Key(cs[i], who), cs[i].windowMs) == EvictAll(w, cs, who)
  {
    hide EvictAll, Evict, Live, Tidy, Key, DistinctKeys;
    EvictAllOwnKey(w, cs, who, i);
    TidyEvictAll(w, cs, who);
    EvictTwice(w, EvictAll(w, cs, who), Key(cs[i], who), cs[i].windowMs);
  }

  ghost predicate Room(w: Windows, cs: seq<Config>, who: Caller) {
    forall i :: 0 <= i < |cs| ==> Count(w, cs[i], who) < cs[i].limit
  }

  lemma PassMeansRoom(w: Windows, cs: seq<Config>, who: Caller)
    requires DistinctKeys(cs, who)
    ensures AllAllowed(Pass(w, cs, who).1) <==> Room(w, cs, who)
  {
    hide Count, DistinctKeys, Key;
    forall i | 0 <= i < |cs| ensures Pass(w, cs, who).1[i].allowed == (Count(w, cs[i], who) < cs[i].limit) {
      PassOwnKey(w, cs, who, i);
    }
  }

  /** Reject configurations with a key each, when every one has room: each log gets the one timestamp. */
  lemma AllRecorded(s: State, cs: seq<Config>, who: Caller, i: nat)
    requires DistinctKeys(cs, who) && Room(s.w, cs, who) && i < |cs|
    ensures var (after, answer) := CheckMultiple(s, cs, who);
            var key := Key(cs[i], who);
            (answer.Allowed? && after.q == s.q
             && At(after.w.logs, key) == Live(At(s.w.logs, key), s.w.clock - cs[i].windowMs) + [s.w.clock]
             && At(after.w.history, key) == At(s.w.history, key) + [s.w.clock])
  {
    PassMeansRoom(s.w, cs, who);
    PassOwnKey(s.w, cs, who, i);
    hide DistinctKeys, Pass;
  }

  /** When one has no room the call is refused, and nothing happened but evictions. */
  lemma RefusedWithoutRoom(s: State, cs: seq<Config>, who: Caller)
    requires Tidy(s.w) && DistinctKeys(cs, who) && !Room(s.w, cs, who)
    requires forall c :: c in cs ==> c.windowMs > 0 && !c.queues
    ensures CheckMultiple(s, cs, who) == (s.(w := EvictAll(s.w, cs, who)), RateLimited)
  {
    PassMeansRoom(s.w, cs, who);
    RollbackIsExact(s.w, cs, who);
    var results := Pass(s.w, cs, who).1;
    var first := FirstDenied(results);
    assert cs[first] in cs;
    PassOwnKey(s.w, cs, who, first);
    CountAgain(s.w, cs, who, first);
    hide Pass, Undo, EvictAll, Count, Evict, Key, DistinctKeys, Room, Live, Tidy;
  }

  /** Then every log is its old value without what has expired. */
  lemma NothingRecorded(s: State, cs: seq<Config>, who: Caller, i: nat)
    requires Tidy(s.w) && DistinctKeys(cs, who) && !Room(s.w, cs, who) && i < |cs|
    requires forall c :: c in cs ==> c.windowMs > 0 && !c.queues
    ensures var (after, answer) := CheckMultiple(s, cs, who);
            (answer == RateLimited && after.q == s.q
             && At(after.w.logs, Key(cs[i], who)) == Live(At(s.w.logs, Key(cs[i], who)), s.w.clock - cs[i].windowMs)
             && after.w.history == s.w.history)
  {
    hide EvictAll, CheckMultiple, Live, Tidy, Key, DistinctKeys, Room;
    RefusedWithoutRoom(s, cs, who);
    EvictAllOwnKey(s.w, cs, who, i);
  }

  /** Either way the keys of none of the configurations are not touched. */
  lemma OthersUntouched(s: State, cs: seq<Config>, who: Caller, key: string)
    requires Tidy(s.w) && DistinctKeys(cs, who) && Foreign(cs, who, key)
    requires forall c :: c in cs ==> c.windowMs > 0 && !c.queues
    ensures var after := CheckMultiple(s, cs, who).0;
            At(after.w.logs, key) == At(s.w.logs, key) && At(after.w.history, key) == At(s.w.history, key)
  {
    PassElsewhere(s.w, cs, who, key);
    EvictAllElsewhere(s.w, cs, who, key);
    PassMeansRoom(s.w, cs, who);
    if !Room(s.w, cs, who) { RefusedWithoutRoom(s, cs, who); }
    hide Pass, Undo, EvictAll, Key, DistinctKeys, Tidy, Room, Check;
  }

  // ---- Every reachable limiter is tidy ----

  lemma AdmitTidy(w: Windows, t: Ticket)
    requires Tidy(w)
    ensures Tidy(Admit(w, t))
  {
  }

  lemma {:induction false} DrainLoopTidy(s: State, c: Config, who: Caller)
    requires Tidy(s.w) && c.name in s.q.queues
    ensures Tidy(DrainLoop(s, c, who).w)
    decreases |s.q.queues[c.name]|
  {
    if s.q.queues[c.name] != [] && Count(s.w, c, who) < c.limit {
      var evicted := s.(w := Evict(s.w, Key(c, who), c.windowMs));
      AdmitTidy(evicted.w, s.q.queues[c.name][0]);
      hide Tidy, Admit, Evict, Count;
      DrainLoopTidy(Resolve(evicted, c.name), c, who);
    }
  }

  lemma {:induction false} ReleaseLoopTidy(s: State, name: string)
    requires Tidy(s.w) && name in s.q.queues
    ensures Tidy(ReleaseLoop(s, name).w)
    decreases |s.q.queues[name]|
  {
    hide Tidy, Admit;
    if s.q.queues[name] != [] {
      AdmitTidy(s.w, s.q.queues[name][0]);
      ReleaseLoopTidy(Resolve(s, name), name);
    }
  }

  lemma {:induction false} PassTidy(w: Windows, cs: seq<Config>, who: Caller)
    requires Tidy(w)
    ensures Tidy(Pass(w, cs, who).0)
  {
    if cs != [] { PassTidy(w, cs[..|cs| - 1], who); }
  }

  lemma {:induction false} UndoTidy(w: Windows, cs: seq<Config>, results: seq<CheckResult>, who: Caller)
    requires Tidy(w) && |cs| == |results|
    ensures Tidy(Undo(w, cs, results, who))
    decreases |cs|
  {
    if cs != [] {
      UndoTidy(if results[0].allowed then Pop(w, Key(cs[0], who)) else w, cs[1..], results[1..], who);
    }
  }

  lemma CheckTidy(s: State, c: Config, who: Caller)
    requires Tidy(s.w)
    ensures Tidy(Check(s, c, who).0.w)
  {
    var synced := s.(w := Sync(s.w, c, who).0);
    assert Tidy(synced.w);
    if c.name in s.q.queues { DrainLoopTidy(synced, c, who); }
    hide Tidy, Sync, DrainLoop;
  }

  lemma ApplyTidy(s: State, e: Event)
    requires Tidy(s.w)
    ensures Tidy(Apply(s, e).w)
  {
    hide Check, Pass, Undo, Expire, Flush, ReleaseLoop;
    match e
    case CheckSyncCall(c, who) =>
    case CheckCall(c, who) => CheckTidy(s, c, who);
    case CheckMultipleCall(cs, who) =>
      PassTidy(s.w, cs, who);
      var (w, results) := Pass(s.w, cs, who);
      if !AllAllowed(results) {
        UndoTidy(w, cs, results, who);
        CheckTidy(s.(w := Undo(w, cs, results, who)), cs[FirstDenied(results)], who);
      }
    case CountCall(c, who) =>
    case TimerFires(id) =>
    case ReleaseCall(name) => if name in s.q.queues { ReleaseLoopTidy(s, name); }
    case ClearCall =>
  }

  lemma AdvanceTidy(s: State, step: Step)
    requires Tidy(s.w)
    ensures Tidy(Advance(s, step).w)
  {
    hide Apply;
    ApplyTidy(s.(w := s.w.(clock := s.w.clock + step.elapsed)), step.event);
  }

  lemma {:induction false} AfterTidy(start: int, steps: seq<Step>)
    ensures Tidy(After(start, steps).w)
  {
    if steps != [] {
      hide Advance, Tidy;
      AfterTidy(start, steps[..|steps| - 1]);
      AdvanceTidy(After(start, steps[..|steps| - 1]), steps[|steps| - 1]);
    } else {
      assert Tidy(Start(start).w);
    }
  }

  /** After any run, for reject configurations with a key each: either all record one timestamp and the
      call is allowed, or none does and it is refused. */
  lemma AllOrNothing(start: int, steps: seq<Step>, cs: seq<Config>, who: Caller, i: nat)
    requires DistinctKeys(cs, who) && i < |cs| && forall c :: c in cs ==> c.windowMs > 0 && !c.queues
    ensures var s := After(start, steps);
            var (after, answer) := CheckMultiple(s, cs, who);
            var key, room := Key(cs[i], who), Room(s.w, cs, who);
            (answer.Allowed? == room && (answer == RateLimited) == !room && after.q == s.q
             && At(after.w.logs, key) == Live(At(s.w.logs, key), s.w.clock - cs[i].windowMs)
                                         + (if room then [s.w.clock] else [])
             && At(after.w.history, key) == At(s.w.history, key) + if room then [s.w.clock] else [])
  {
    hide CheckMultiple, Tidy, DistinctKeys, Room, Live;
    var s := After(start, steps);
    AfterTidy(start, steps);
    hide After;
    if Room(s.w, cs, who) { AllRecorded(s, cs, who, i); } else { NothingRecorded(s, cs, who, i); }
  }
}
