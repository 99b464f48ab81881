/** The rate limiter on values: a log of timestamps per key, and queues of waiting requests per
    configuration name. The clock is read once per call. */
module RateLimits {
  import opened Wrappers

  datatype Scope = PerUser | PerFlow | Everyone

  datatype Config = Config(
    name: string,
    scope: Scope,
    flowName: Option<string>,
    limit: int,
    windowMs: int,
    queues: bool,
    maxQueueDepth: Option<int>)

  datatype Caller = Caller(userId: Option<string>, flowName: string)

  function Key(c: Config, who: Caller): string {
    match c.scope
    case PerUser => "ratelimit:user:" + who.userId.GetOr("anonymous")
    case PerFlow => "ratelimit:flow:" + c.flowName.GetOr(who.flowName)
    case Everyone => "ratelimit:global:global"
  }

  function Depth(c: Config): int {
    c.maxQueueDepth.GetOr(100)
  }

  // ---- The logs ----

  /** `logs` is what the limiter keeps; `history` has every admission there ever was, per key. */
  datatype Windows = Windows(logs: map<string, seq<int>>, history: map<string, seq<int>>, clock: int)

  function At(entries: map<string, seq<int>>, key: string): seq<int> {
    if key in entries then entries[key] else []
  }

  /** An empty list is not kept under its key. */
  function Put(entries: map<string, seq<int>>, key: string, timestamps: seq<int>): map<string, seq<int>> {
    if timestamps == [] then entries - {key} else entries[key := timestamps]
  }

  /** The timestamps later than `start`, in order. */
  function Live(timestamps: seq<int>, start: int): (live: seq<int>)
    ensures |live| <= |timestamps|
    ensures forall t :: t in live <==> t in timestamps && t > start
  {
    if timestamps == [] then []
    else
      var n := |timestamps| - 1;
      if timestamps[n] > start then Live(timestamps[..n], start) + [timestamps[n]]
      else Live(timestamps[..n], start)
  }

  function Evict(w: Windows, key: string, windowMs: int): Windows {
    if key !in w.logs then w else w.(logs := Put(w.logs, key, Live(w.logs[key], w.clock - windowMs)))
  }

  function Push(w: Windows, key: string): Windows {
    w.(logs := w.logs[key := At(w.logs, key) + [w.clock]],
       history := w.history[key := At(w.history, key) + [w.clock]])
  }

  function Init(timestamps: seq<int>): seq<int> {
    if timestamps == [] then [] else timestamps[..|timestamps| - 1]
  }

  /** Takes back the last admission under `key`. */
  function Pop(w: Windows, key: string): Windows {
    if key !in w.logs then w
    else w.(logs := Put(w.logs, key, Init(w.logs[key])), history := Put(w.history, key, Init(At(w.history, key))))
  }

  function Count(w: Windows, c: Config, who: Caller): nat {
    |At(Evict(w, Key(c, who), c.windowMs).logs, Key(c, who))|
  }

  datatype CheckResult = CheckResult(allowed: bool, currentCount: int, configName: string)

  /** `checkSync` */
  function Sync(w: Windows, c: Config, who: Caller): (Windows, CheckResult) {
    var evicted := Evict(w, Key(c, who), c.windowMs);
    var count := Count(w, c, who);
    if count >= c.limit then (evicted, CheckResult(false, count, c.name))
    else (Push(evicted, Key(c, who)), CheckResult(true, count + 1, c.name))
  }

  // ---- The queues ----

  datatype Ticket = Ticket(id: nat, config: Config, caller: Caller)

  /** The waiting requests. `timers` has the queue each live timeout timer watches; `settled` counts
      the times each request's promise was settled, `released` lists those resolved, in order. */
  datatype Lobby = Lobby(
    queues: map<string, seq<Ticket>>,
    timers: map<nat, string>,
    next: nat,
    settled: multiset<nat>,
    released: seq<Ticket>)

  function Join(q: Lobby, c: Config, who: Caller): Lobby {
    var queue := if c.name in q.queues then q.queues[c.name] else [];
    q.(queues := q.queues[c.name := queue + [Ticket(q.next, c, who)]],
       timers := q.timers[q.next := c.name],
       next := q.next + 1)
  }

  /** The head of a queue leaves and its promise is resolved. */
  function Leave(q: Lobby, name: string): Lobby
    requires name in q.queues && q.queues[name] != []
  {
    var head := q.queues[name][0];
    q.(queues := q.queues[name := q.queues[name][1..]],
       timers := q.timers - {head.id},
       settled := q.settled + multiset{head.id},
       released := q.released + [head])
  }

  /** The first position of a request in a queue, or -1. */
  function IndexOf(queue: seq<Ticket>, id: nat): (k: int)
    ensures -1 <= k < |queue|
    ensures forall i :: 0 <= i < (if k < 0 then |queue| else k) ==> queue[i].id != id
    ensures k >= 0 ==> queue[k].id == id
  {
    if queue == [] then -1
    else if queue[0].id == id then 0
    else
      var k := IndexOf(queue[1..], id);
      if k < 0 then -1 else k + 1
  }

  function Without(queue: seq<Ticket>, id: nat): seq<Ticket> {
    var k := IndexOf(queue, id);
    if k < 0 then queue else queue[..k] + queue[k + 1..]
  }

  /** A timeout timer fires: the request leaves its queue, if still there, and is rejected. */
  function Expire(q: Lobby, id: nat): Lobby {
    if id !in q.timers then q
    else
      var name := q.timers[id];
      q.(queues := if name in q.queues then q.queues[name := Without(q.queues[name], id)] else q.queues,
         timers := q.timers - {id},
         settled := q.settled + multiset{id})
  }

  function Ids(queue: seq<Ticket>): set<nat> {
    set t | t in queue :: t.id
  }

  function Waiters(queues: map<string, seq<Ticket>>): set<nat> {
    set name, t | name in queues && t in queues[name] :: t.id
  }

  /** `clear` rejects everyone who waits. */
  function Flush(q: Lobby): Lobby {
    q.(queues := map[], timers := q.timers - Waiters(q.queues), settled := q.settled + multiset(Waiters(q.queues)))
  }

  // ---- The limiter ----

  datatype State = State(w: Windows, q: Lobby)

  datatype Answer =
    | Allowed(result: CheckResult)
    | RateLimited
    | QueueFull
    | Waiting(id: nat)
    | Nothing

  function Start(clock: int): State {
    State(Windows(map[], map[], clock), Lobby(map[], map[], 0, multiset{}, []))
  }

  /** `resolve` of a queue entry: it records without a check of its own. */
  function Admit(w: Windows, t: Ticket): Windows {
    Evict(Push(w, Key(t.config, t.caller)), Key(t.config, t.caller), t.config.windowMs)
  }

  function Resolve(s: State, name: string): State
    requires name in s.q.queues && s.q.queues[name] != []
  {
    State(Admit(s.w, s.q.queues[name][0]), Leave(s.q, name))
  }

  /** The loop of `drainQueue`: the key is the caller's who was just admitted. */
  function DrainLoop(s: State, c: Config, who: Caller): (drained: State)
    requires c.name in s.q.queues
    ensures c.name in drained.q.queues
    decreases |s.q.queues[c.name]|
  {
    if s.q.queues[c.name] == [] then s
    else
      var evicted := s.(w := Evict(s.w, Key(c, who), c.windowMs));
      if Count(s.w, c, who) >= c.limit then evicted
      else DrainLoop(Resolve(evicted, c.name), c, who)
  }

  function Drop(s: State, name: string): State {
    s.(q := s.q.(queues := s.q.queues - {name}))
  }

  function Drain(s: State, c: Config, who: Caller): State {
    if c.name !in s.q.queues || s.q.queues[c.name] == [] then s
    else
      var drained := DrainLoop(s, c, who);
      if drained.q.queues[c.name] == [] then Drop(drained, c.name) else drained
  }

  function Enqueue(s: State, c: Config, who: Caller): (State, Answer) {
    var queue := if c.name in s.q.queues then s.q.queues[c.name] else [];
    if |queue| >= Depth(c) then (s.(q := s.q.(queues := s.q.queues[c.name := queue])), QueueFull)
    else (s.(q := Join(s.q, c, who)), Waiting(s.q.next))
  }

  function Check(s: State, c: Config, who: Caller): (State, Answer) {
    var (w, result) := Sync(s.w, c, who);
    var checked := s.(w := w);
    if result.allowed then (Drain(checked, c, who), Allowed(result))
    else if !c.queues then (checked, RateLimited)
    else Enqueue(checked, c, who)
  }

  /** The first loop of `checkMultiple`. */
  function Pass(w: Windows, cs: seq<Config>, who: Caller): (r: (Windows, seq<CheckResult>))
    ensures |r.1| == |cs|
  {
    if cs == [] then (w, [])
    else
      var n := |cs| - 1;
      var (before, results) := Pass(w, cs[..n], who);
      var (after, result) := Sync(before, cs[n], who);
      (after, results + [result])
  }

  predicate AllAllowed(results: seq<CheckResult>) {
    forall i :: 0 <= i < |results| ==> results[i].allowed
  }

  /** The loop of `checkMultiple` that takes the recorded timestamps back. */
  function Undo(w: Windows, cs: seq<Config>, results: seq<CheckResult>, who: Caller): Windows
    requires |cs| == |results|
    decreases |cs|
  {
    if cs == [] then w
    else Undo(if results[0].allowed then Pop(w, Key(cs[0], who)) else w, cs[1..], results[1..], who)
  }

  function FirstDenied(results: seq<CheckResult>): (i: nat)
    requires !AllAllowed(results)
    ensures i < |results| && !results[i].allowed && AllAllowed(results[..i])
  {
    if !results[0].allowed then 0
    else
      assert exists i :: 1 <= i < |results| && !results[i].allowed;
      var rest := FirstDenied(results[1..]);
      assert results[..rest + 1] == [results[0]] + results[1..][..rest];
      rest + 1
  }

  /** The ratio of count to limit is greater, for positive limits. */
  predicate Higher(a: CheckResult, c: Config, b: CheckResult, d: Config) {
    a.currentCount * d.limit > b.currentCount * c.limit
  }

  /** The first result of greatest ratio, found in one pass. */
  function Tightest(cs: seq<Config>, results: seq<CheckResult>): (i: nat)
    requires |cs| == |results| > 0
    ensures i < |cs|
  {
    var n := |cs| - 1;
    if n == 0 then 0
    else
      var best := Tightest(cs[..n], results[..n]);
      if Higher(results[n], cs[n], results[best], cs[best]) then n else best
  }

  datatype Event =
    | CheckSyncCall(config: Config, caller: Caller)
    | CheckCall(config: Config, caller: Caller)
    | CheckMultipleCall(configs: seq<Config>, caller: Caller)
    | CountCall(config: Config, caller: Caller)
    | TimerFires(id: nat)
    | ReleaseCall(name: string)
    | ClearCall

  datatype Step = Step(elapsed: nat, event: Event)

  function ReleaseLoop(s: State, name: string): (released: State)
    requires name in s.q.queues
    ensures name in released.q.queues && released.q.queues[name] == []
    decreases |s.q.queues[name]|
  {
    if s.q.queues[name] == [] then s else ReleaseLoop(Resolve(s, name), name)
  }

  function Release(s: State, name: string): State {
    if name !in s.q.queues then s else Drop(ReleaseLoop(s, name), name)
  }

  /** All pass, or the first denied configuration is checked again alone. */
  function CheckMultiple(s: State, cs: seq<Config>, who: Caller): (State, Answer) {
    var (w, results) := Pass(s.w, cs, who);
    if AllAllowed(results) then
      (s.(w := w), if cs == [] then Nothing else Allowed(results[Tightest(cs, results)]))
    else Check(s.(w := Undo(w, cs, results, who)), cs[FirstDenied(results)], who)
  }

  function Apply(s: State, e: Event): State {
    match e
    case CheckSyncCall(c, who) => s.(w := Sync(s.w, c, who).0)
    case CheckCall(c, who) => Check(s, c, who).0
    case CheckMultipleCall(cs, who) => CheckMultiple(s, cs, who).0
    case CountCall(c, who) => s.(w := Evict(s.w, Key(c, who), c.windowMs))
    case TimerFires(id) => s.(q := Expire(s.q, id))
    case ReleaseCall(name) => Release(s, name)
    case ClearCall => State(s.w.(logs := map[]), Flush(s.q))
  }

  function Advance(s: State, step: Step): State {
    Apply(s.(w := s.w.(clock := s.w.clock + step.elapsed)), step.event)
  }

  function After(start: int, steps: seq<Step>): State {
    if steps == [] then Start(start) else Advance(After(start, steps[..|steps| - 1]), steps[|steps| - 1])
  }
}
