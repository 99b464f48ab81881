/** The sliding-window bound over the whole admission history, and exactly which sets of
    configurations keep it. */
module RateWindows {
  import opened RateLimits

  predicate Sorted(h: seq<int>) {
    forall i, j :: 0 <= i < j < |h| ==> h[i] <= h[j]
  }

  /** How many admissions fall in `[from, from + windowMs)`. */
  function InWindow(h: seq<int>, from: int, windowMs: int): nat {
    if h == [] then 0
    else
      var n := |h| - 1;
      InWindow(h[..n], from, windowMs) + if from <= h[n] < from + windowMs then 1 else 0
  }

  /** No interval of the window's length has more admissions than the limit. */
  ghost predicate WithinLimit(h: seq<int>, limit: int, windowMs: int) {
    forall from :: InWindow(h, from, windowMs) <= limit
  }

  /** Admissions `limit` apart are a window apart. */
  predicate Spaced(h: seq<int>, limit: int, windowMs: int) {
    forall i, j :: 0 <= i < |h| && 0 <= j < |h| && j == i + limit ==> h[j] - h[i] >= windowMs
  }

  // ---- The two readings of the bound agree ----

  lemma {:induction false} WindowAll(h: seq<int>, from: int, windowMs: int, a: nat, b: nat)
    requires a <= b <= |h|
    requires forall i :: a <= i < b ==> from <= h[i] < from + windowMs
    ensures InWindow(h, from, windowMs) >= b - a
  {
    if b > a {
      var n := |h| - 1;
      if b == |h| { WindowAll(h[..n], from, windowMs, a, b - 1); } else { WindowAll(h[..n], from, windowMs, a, b); }
    }
  }

  /** In a sorted history the admissions of an interval are consecutive. */
  lemma {:induction false} WindowRange(h: seq<int>, from: int, windowMs: int) returns (a: nat)
    requires Sorted(h)
    ensures a + InWindow(h, from, windowMs) <= |h|
    ensures forall i :: a <= i < a + InWindow(h, from, windowMs) ==> from <= h[i] < from + windowMs
    ensures InWindow(h, from, windowMs) > 0 ==>
              forall i :: a + InWindow(h, from, windowMs) <= i < |h| ==> h[i] >= from + windowMs
  {
    if h == [] {
      a := 0;
    } else {
      var n := |h| - 1;
      a := WindowRange(h[..n], from, windowMs);
      if from <= h[n] < from + windowMs && InWindow(h[..n], from, windowMs) == 0 {
        a := n;
      }
    }
  }

  lemma SpacedIsWithin(h: seq<int>, limit: int, windowMs: int)
    requires Sorted(h) && limit > 0
    ensures Spaced(h, limit, windowMs) <==> WithinLimit(h, limit, windowMs)
  {
    if Spaced(h, limit, windowMs) {
      forall from ensures InWindow(h, from, windowMs) <= limit {
        var a := WindowRange(h, from, windowMs);
        assert a + limit < |h| ==> h[a + limit] - h[a] >= windowMs;
      }
    }
    if WithinLimit(h, limit, windowMs) {
      forall i, j | 0 <= i < |h| && 0 <= j < |h| && j == i + limit ensures h[j] - h[i] >= windowMs {
        assert InWindow(h, h[i], windowMs) <= limit;
        if h[j] - h[i] < windowMs {
          WindowAll(h, h[i], windowMs, i, j + 1);
        }
      }
    }
  }

  // ---- What every call keeps ----

  /** The log is the end of the history; what it has forgotten left the window. */
  ghost predicate Fits(h: seq<int>, log: seq<int>, clock: int, limit: int, windowMs: int) {
    && |log| <= |h|
    && (forall i :: 0 <= i < |log| ==> log[i] == h[|h| - |log| + i])
    && (forall i :: 0 <= i < |h| - |log| ==> h[i] <= clock - windowMs)
    && (forall i :: 0 <= i < |h| ==> h[i] <= clock)
    && Sorted(h)
    && Spaced(h, limit, windowMs)
  }

  ghost predicate Tracks(w: Windows, key: string, limit: int, windowMs: int) {
    && (key in w.logs ==> w.logs[key] != [])
    && Fits(At(w.history, key), At(w.logs, key), w.clock, limit, windowMs)
  }

  lemma {:induction false} AllExpired(timestamps: seq<int>, start: int)
    requires forall i :: 0 <= i < |timestamps| ==> timestamps[i] <= start
    ensures Live(timestamps, start) == []
  {
    if timestamps != [] { AllExpired(timestamps[..|timestamps| - 1], start); }
  }

  lemma {:induction false} LiveIsSuffix(timestamps: seq<int>, start: int)
    requires Sorted(timestamps)
    ensures var cut := |timestamps| - |Live(timestamps, start)|;
            (Live(timestamps, start) == timestamps[cut..]
             && (forall i :: 0 <= i < cut ==> timestamps[i] <= start))
  {
    var n := |timestamps| - 1;
    if timestamps != [] && timestamps[n] > start {
      var before := timestamps[..n];
      LiveIsSuffix(before, start);
      var cut := |before| - |Live(before, start)|;
      assert Live(timestamps, start) == Live(before, start) + [timestamps[n]];
      assert timestamps[cut..] == before[cut..] + [timestamps[n]];
      hide Live;
    } else {
      AllExpired(timestamps, start);
    }
  }

  lemma EvictFits(h: seq<int>, log: seq<int>, clock: int, window: int, limit: int, windowMs: int)
    requires Fits(h, log, clock, limit, windowMs) && window >= windowMs
    ensures Fits(h, Live(log, clock - window), clock, limit, windowMs)
  {
    hide Spaced;
    LiveIsSuffix(log, clock - window);
    var k := |h| - |log|;
    var cut := |log| - |Live(log, clock - window)|;
    forall i | 0 <= i < k + cut ensures h[i] <= clock - windowMs {
      if i >= k { assert h[i] == log[i - k]; }
    }
  }

  lemma PushFits(h: seq<int>, log: seq<int>, clock: int, limit: int, windowMs: int)
    requires Fits(h, log, clock, limit, windowMs) && |log| < limit
    ensures Fits(h + [clock], log + [clock], clock, limit, windowMs)
  {
    assert Spaced(h + [clock], limit, windowMs);
  }

  lemma PopFits(h: seq<int>, log: seq<int>, clock: int, limit: int, windowMs: int)
    requires Fits(h, log, clock, limit, windowMs) && log != []
    ensures Fits(Init(h), Init(log), clock, limit, windowMs)
  {
    var h', log' := Init(h), Init(log);
    assert forall i :: 0 <= i < |h'| ==> h'[i] == h[i];
    assert forall i :: 0 <= i < |log'| ==> log'[i] == log[i];
    hide Init;
    assert Sorted(h') && Spaced(h', limit, windowMs);
    hide Sorted, Spaced;
  }

  lemma EvictTracks(w: Windows, other: string, window: int, key: string, limit: int, windowMs: int)
    requires Tracks(w, key, limit, windowMs)
    requires other == key ==> window >= windowMs
    ensures Tracks(Evict(w, other, window), key, limit, windowMs)
  {
    hide Fits;
    if other == key && key in w.logs {
      EvictFits(At(w.history, key), w.logs[key], w.clock, window, limit, windowMs);
    }
  }

  /** One admission under the limit. */
  lemma PushTracks(w: Windows, other: string, key: string, limit: int, windowMs: int)
    requires Tracks(w, key, limit, windowMs)
    requires other == key ==> |At(w.logs, key)| < limit
    ensures Tracks(Push(w, other), key, limit, windowMs)
  {
    hide Fits;
    if other == key {
      PushFits(At(w.history, key), At(w.logs, key), w.clock, limit, windowMs);
    }
  }

  lemma PopTracks(w: Windows, other: string, key: string, limit: int, windowMs: int)
    requires Tracks(w, key, limit, windowMs)
    ensures Tracks(Pop(w, other), key, limit, windowMs)
  {
    hide Fits;
    if other == key && key in w.logs {
      PopFits(At(w.history, key), w.logs[key], w.clock, limit, windowMs);
    }
  }
}
