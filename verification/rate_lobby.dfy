/** The queues of the rate limiter: every waiting request is settled once, those released leave in the
    order they came, and no queue outgrows its depth. */
module RateLobby {
  import opened RateLimits

  /** The tickets of one queue: in order of arrival, each within its depth and with its timer live. */
  predicate TicketOk(t: Ticket, place: nat, name: string, timers: map<nat, string>) {
    && t.config.name == name
    && t.config.queues
    && place < Depth(t.config)
    && t.id in timers
    && timers[t.id] == name
  }

  ghost predicate QueueOk(queue: seq<Ticket>, name: string, timers: map<nat, string>) {
    && (forall i :: 0 <= i < |queue| ==> TicketOk(queue[i], i, name, timers))
    && (forall i, j :: 0 <= i < j < |queue| ==> queue[i].id < queue[j].id)
  }

  ghost predicate Waits(q: Lobby, id: nat) {
    id in q.timers && q.timers[id] in q.queues && exists t :: t in q.queues[q.timers[id]] && t.id == id
  }

  /** No one waiting in the queue of a released request came before it. */
  ghost predicate NotOvertaken(t: Ticket, q: Lobby) {
    && t.id < q.next
    && t.id !in q.timers
    && (t.config.name in q.queues ==> forall u :: u in q.queues[t.config.name] ==> t.id < u.id)
  }

  ghost predicate QueuesOk(q: Lobby) {
    forall name :: name in q.queues ==> QueueOk(q.queues[name], name, q.timers)
  }

  ghost predicate TimersOk(q: Lobby) {
    forall id :: id in q.timers ==> id < q.next && Waits(q, id)
  }

  ghost predicate SettledOk(q: Lobby) {
    forall id: nat :: q.settled[id] == if id < q.next && id !in q.timers then 1 else 0
  }

  ghost predicate ReleasedOk(q: Lobby) {
    && (forall i :: 0 <= i < |q.released| ==> NotOvertaken(q.released[i], q))
    && (forall i, j :: 0 <= i < j < |q.released| && q.released[i].config.name == q.released[j].config.name ==>
          q.released[i].id < q.released[j].id)
  }

  ghost predicate Orderly(q: Lobby) {
    QueuesOk(q) && TimersOk(q) && SettledOk(q) && ReleasedOk(q)
  }

  // ---- A request joins ----

  lemma JoinQueues(q: Lobby, c: Config, who: Caller)
    requires QueuesOk(q) && TimersOk(q) && c.queues
    requires (if c.name in q.queues then |q.queues[c.name]| else 0) < Depth(c)
    ensures QueuesOk(Join(q, c, who))
  {
    var q' := Join(q, c, who);
    forall name | name in q'.queues ensures QueueOk(q'.queues[name], name, q'.timers) {
      var queue := if name in q.queues then q.queues[name] else [];
      assert QueueOk(queue, name, q.timers);
      forall i | 0 <= i < |queue| ensures queue[i].id < q.next && TicketOk(queue[i], i, name, q'.timers) {
        assert TicketOk(queue[i], i, name, q.timers);
        assert queue[i].id in q.timers;
      }
    }
  }

  lemma JoinTimers(q: Lobby, c: Config, who: Caller)
    requires TimersOk(q)
    ensures TimersOk(Join(q, c, who))
  {
    var q' := Join(q, c, who);
    forall id | id in q'.timers ensures id < q'.next && Waits(q', id) {
      if id == q.next {
        assert Ticket(id, c, who) in q'.queues[c.name];
      } else {
        assert Waits(q, id);
        var t :| t in q.queues[q.timers[id]] && t.id == id;
        assert t in q'.queues[q'.timers[id]];
      }
    }
  }

  lemma JoinReleased(q: Lobby, c: Config, who: Caller)
    requires ReleasedOk(q)
    ensures ReleasedOk(Join(q, c, who))
  {
    var q' := Join(q, c, who);
    forall i | 0 <= i < |q'.released| ensures NotOvertaken(q'.released[i], q') {
      assert NotOvertaken(q.released[i], q);
    }
  }

  lemma JoinOrderly(q: Lobby, c: Config, who: Caller)
    requires Orderly(q) && c.queues
    requires (if c.name in q.queues then |q.queues[c.name]| else 0) < Depth(c)
    ensures Orderly(Join(q, c, who))
  {
    JoinQueues(q, c, who);
    JoinTimers(q, c, who);
    JoinReleased(q, c, who);
    hide QueuesOk, TimersOk, ReleasedOk;
  }

  // ---- A request leaves: by release, by timeout, by `clear` ----

  /** The queues after some requests have gone from them, and their timers with them. */
  ghost predicate Fewer(q: Lobby, q': Lobby, gone: nat) {
    && q'.timers == q.timers - {gone}
    && q'.next == q.next
    && (forall name :: name in q'.queues ==>
          && name in q.queues
          && (forall t :: t in q'.queues[name] ==> t in q.queues[name])
          && (forall t :: t in q.queues[name] && t.id != gone ==> t in q'.queues[name]))
    && (forall name :: name in q.queues && name !in q'.queues ==> forall t :: t in q.queues[name] ==> t.id == gone)
  }

  lemma FewerTimers(q: Lobby, q': Lobby, gone: nat)
    requires TimersOk(q) && Fewer(q, q', gone)
    ensures TimersOk(q')
  {
    forall id | id in q'.timers ensures id < q'.next && Waits(q', id) {
      assert Waits(q, id);
      var t :| t in q.queues[q.timers[id]] && t.id == id;
      assert t in q'.queues[q'.timers[id]];
    }
  }

  lemma FewerReleased(q: Lobby, q': Lobby, gone: nat)
    requires ReleasedOk(q) && Fewer(q, q', gone) && q'.released == q.released
    ensures ReleasedOk(q')
  {
    forall i | 0 <= i < |q'.released| ensures NotOvertaken(q'.released[i], q') {
      assert NotOvertaken(q.released[i], q);
    }
  }

  lemma HeadFirst(q: Lobby, name: string)
    requires QueuesOk(q) && name in q.queues && q.queues[name] != []
    ensures Fewer(q, Leave(q, name), q.queues[name][0].id)
    ensures forall t :: t in q.queues[name][1..] ==> q.queues[name][0].id < t.id
    ensures q.queues[name][0].config.name == name
    ensures q.queues[name][0].id in q.timers && q.timers[q.queues[name][0].id] == name
  {
    var queue := q.queues[name];
    assert QueueOk(queue, name, q.timers);
    assert TicketOk(queue[0], 0, name, q.timers);
    assert queue == [queue[0]] + queue[1..];
  }

  lemma LeaveQueues(q: Lobby, name: string)
    requires QueuesOk(q) && name in q.queues && q.queues[name] != []
    ensures QueuesOk(Leave(q, name))
  {
    hide QueueOk;
    var head := q.queues[name][0];
    HeadFirst(q, name);
    CutOk(q.queues[name], q.queues[name][1..], 0, name, q.timers);
    forall other | other in q.queues && other != name ensures QueueOk(q.queues[other], other, q.timers - {head.id}) {
      ElsewhereOk(q.queues[other], other, q.timers, head.id);
    }
  }

  lemma LeaveReleased(q: Lobby, name: string)
    requires QueuesOk(q) && TimersOk(q) && ReleasedOk(q) && name in q.queues && q.queues[name] != []
    ensures ReleasedOk(Leave(q, name))
  {
    HeadFirst(q, name);
    var q' := Leave(q, name);
    var head := q.queues[name][0];
    assert head in q.queues[name];
    FewerReleased(q, q'.(released := q.released), head.id);
    forall i | 0 <= i < |q.released| ensures NotOvertaken(q'.released[i], q') {
      assert NotOvertaken(q.released[i], q'.(released := q.released));
    }
    forall i | 0 <= i < |q.released| && q.released[i].config.name == name ensures q.released[i].id < head.id {
      assert NotOvertaken(q.released[i], q);
    }
    assert NotOvertaken(head, q');
  }

  lemma LeaveOrderly(q: Lobby, name: string)
    requires Orderly(q) && name in q.queues && q.queues[name] != []
    ensures Orderly(Leave(q, name))
  {
    HeadFirst(q, name);
    LeaveQueues(q, name);
    FewerTimers(q, Leave(q, name), q.queues[name][0].id);
    LeaveReleased(q, name);
    assert q.queues[name][0].id < q.next;
    hide QueuesOk, TimersOk, ReleasedOk, Fewer;
  }

  /** One ticket less: those behind it move up. */
  predicate Cut(queue: seq<Ticket>, rest: seq<Ticket>, k: nat) {
    && k < |queue| == |rest| + 1
    && (forall i :: 0 <= i < k ==> rest[i] == queue[i])
    && (forall i :: k <= i < |rest| ==> rest[i] == queue[i + 1])
  }

  lemma CutMembers(queue: seq<Ticket>, rest: seq<Ticket>, k: nat)
    requires Cut(queue, rest, k)
    ensures forall t :: t in rest ==> t in queue
    ensures forall t :: t in queue && t != queue[k] ==> t in rest
  {
    forall t | t in queue && t != queue[k] ensures t in rest {
      var i :| 0 <= i < |queue| && queue[i] == t;
      assert i > k ==> t == rest[i - 1];
    }
  }

  lemma CutOk(queue: seq<Ticket>, rest: seq<Ticket>, k: nat, name: string, timers: map<nat, string>)
    requires Cut(queue, rest, k) && QueueOk(queue, name, timers)
    ensures QueueOk(rest, name, timers - {queue[k].id})
  {
    forall i | 0 <= i < |rest| ensures TicketOk(rest[i], i, name, timers - {queue[k].id}) {
      var j := if i < k then i else i + 1;
      assert TicketOk(queue[j], j, name, timers) && queue[j].id != queue[k].id;
    }
  }

  lemma OthersOk(queue: seq<Ticket>, name: string, timers: map<nat, string>, gone: nat)
    requires QueueOk(queue, name, timers) && forall t :: t in queue ==> t.id != gone
    ensures QueueOk(queue, name, timers - {gone})
  {
    forall i | 0 <= i < |queue| ensures TicketOk(queue[i], i, name, timers - {gone}) {
      assert TicketOk(queue[i], i, name, timers);
      assert queue[i] in queue;
    }
  }

  lemma WithoutCut(queue: seq<Ticket>, id: nat)
    ensures var k := IndexOf(queue, id);
            if k < 0 then Without(queue, id) == queue && forall t :: t in queue ==> t.id != id
            else Cut(queue, Without(queue, id), k) && queue[k].id == id
  {
    hide IndexOf;
    var k := IndexOf(queue, id);
    if k >= 0 {
      var rest := queue[..k] + queue[k + 1..];
      assert forall i :: k <= i < |rest| ==> rest[i] == queue[i + 1];
      assert Without(queue, id) == rest;
    } else {
      forall t | t in queue ensures t.id != id {
        var i :| 0 <= i < |queue| && queue[i] == t;
      }
    }
  }

  lemma WithoutOk(queue: seq<Ticket>, id: nat, name: string, timers: map<nat, string>)
    requires QueueOk(queue, name, timers)
    ensures QueueOk(Without(queue, id), name, timers - {id})
    ensures forall t :: t in Without(queue, id) ==> t in queue
    ensures forall t :: t in queue && t.id != id ==> t in Without(queue, id)
  {
    hide QueueOk, Without, IndexOf, Cut;
    WithoutCut(queue, id);
    var k, rest := IndexOf(queue, id), Without(queue, id);
    if k >= 0 {
      CutOk(queue, rest, k, name, timers);
      CutMembers(queue, rest, k);
    } else {
      OthersOk(queue, name, timers, id);
    }
  }

  lemma ExpireQueues(q: Lobby, id: nat)
    requires QueuesOk(q) && id in q.timers && q.timers[id] in q.queues
    ensures QueuesOk(Expire(q, id)) && Fewer(q, Expire(q, id), id)
  {
    hide QueueOk, Without;
    var q' := Expire(q, id);
    var name := q.timers[id];
    WithoutOk(q.queues[name], id, name, q.timers);
    forall other | other in q.queues && other != name ensures QueueOk(q.queues[other], other, q'.timers) {
      ElsewhereOk(q.queues[other], other, q.timers, id);
    }
  }

  lemma ElsewhereOk(queue: seq<Ticket>, other: string, timers: map<nat, string>, id: nat)
    requires QueueOk(queue, other, timers) && id in timers && timers[id] != other
    ensures QueueOk(queue, other, timers - {id})
  {
    forall t | t in queue ensures t.id != id {
      var i :| 0 <= i < |queue| && queue[i] == t;
      assert TicketOk(queue[i], i, other, timers);
    }
    OthersOk(queue, other, timers, id);
  }

  lemma ExpireOrderly(q: Lobby, id: nat)
    requires Orderly(q)
    ensures Orderly(Expire(q, id))
  {
    if id in q.timers {
      assert Waits(q, id);
      ExpireQueues(q, id);
      FewerTimers(q, Expire(q, id), id);
      FewerReleased(q, Expire(q, id), id);
      assert id < q.next;
      hide QueuesOk, Waits, TimersOk, ReleasedOk, Fewer, Without;
    }
  }

  /** Every timer belongs to someone waiting, so clearing the queues clears the timers. */
  lemma WaitersAreTimers(q: Lobby)
    requires Orderly(q)
    ensures Waiters(q.queues) == q.timers.Keys
  {
    forall id | id in q.timers ensures id in Waiters(q.queues) {
      assert Waits(q, id);
    }
    forall name, t | name in q.queues && t in q.queues[name] ensures t.id in q.timers {
      var i :| 0 <= i < |q.queues[name]| && q.queues[name][i] == t;
      assert TicketOk(q.queues[name][i], i, name, q.timers);
    }
  }

  lemma FlushOrderly(q: Lobby)
    requires Orderly(q)
    ensures Orderly(Flush(q)) && Flush(q).timers == map[]
  {
    WaitersAreTimers(q);
    var q' := Flush(q);
    forall i | 0 <= i < |q'.released| ensures NotOvertaken(q'.released[i], q') {
      assert NotOvertaken(q.released[i], q);
    }
  }

  lemma DropOrderly(q: Lobby, name: string)
    requires Orderly(q) && (name in q.queues ==> q.queues[name] == [])
    ensures Orderly(q.(queues := q.queues - {name}))
  {
    var q' := q.(queues := q.queues - {name});
    forall id | id in q'.timers ensures Waits(q', id) {
      assert Waits(q, id);
    }
    forall i | 0 <= i < |q'.released| ensures NotOvertaken(q'.released[i], q') {
      assert NotOvertaken(q.released[i], q);
    }
  }

  lemma EmptyOrderly(q: Lobby, name: string)
    requires Orderly(q) && name !in q.queues
    ensures Orderly(q.(queues := q.queues[name := []]))
  {
    var q' := q.(queues := q.queues[name := []]);
    forall id | id in q'.timers ensures Waits(q', id) {
      assert Waits(q, id);
    }
    forall i | 0 <= i < |q'.released| ensures NotOvertaken(q'.released[i], q') {
      assert NotOvertaken(q.released[i], q);
    }
  }

  // ---- Every call keeps it orderly ----

  lemma {:induction false} DrainLoopOrderly(s: State, c: Config, who: Caller)
    requires Orderly(s.q) && c.name in s.q.queues
    ensures Orderly(DrainLoop(s, c, who).q)
    decreases |s.q.queues[c.name]|
  {
    hide Orderly, Count, Evict;
    if s.q.queues[c.name] != [] && Count(s.w, c, who) < c.limit {
      LeaveOrderly(s.q, c.name);
      DrainLoopOrderly(Resolve(s.(w := Evict(s.w, Key(c, who), c.windowMs)), c.name), c, who);
    }
  }

  lemma DrainOrderly(s: State, c: Config, who: Caller)
    requires Orderly(s.q)
    ensures Orderly(Drain(s, c, who).q)
  {
    hide Orderly, DrainLoop;
    if c.name in s.q.queues {
      DrainLoopOrderly(s, c, who);
      var drained := DrainLoop(s, c, who);
      if drained.q.queues[c.name] == [] { DropOrderly(drained.q, c.name); }
    }
  }

  lemma CheckOrderly(s: State, c: Config, who: Caller)
    requires Orderly(s.q)
    ensures Orderly(Check(s, c, who).0.q)
  {
    hide Orderly, Drain, Sync, Join, Depth;
    DrainOrderly(s.(w := Sync(s.w, c, who).0), c, who);
    if c.queues {
      if (if c.name in s.q.queues then |s.q.queues[c.name]| else 0) < Depth(c) {
        JoinOrderly(s.q, c, who);
      } else if c.name in s.q.queues {
        assert s.q.queues[c.name := s.q.queues[c.name]] == s.q.queues;
      } else {
        EmptyOrderly(s.q, c.name);
      }
    }
  }

  lemma {:induction false} ReleaseLoopOrderly(s: State, name: string)
    requires Orderly(s.q) && name in s.q.queues
    ensures Orderly(ReleaseLoop(s, name).q)
    decreases |s.q.queues[name]|
  {
    hide Orderly;
    if s.q.queues[name] != [] {
      LeaveOrderly(s.q, name);
      ReleaseLoopOrderly(Resolve(s, name), name);
    }
  }

  lemma ApplyOrderly(s: State, e: Event)
    requires Orderly(s.q)
    ensures Orderly(Apply(s, e).q)
  {
    hide Orderly, Check, Sync, Pass, Undo, Expire, Flush, ReleaseLoop, Evict;
    match e
    case CheckSyncCall(c, who) =>
    case CheckCall(c, who) => CheckOrderly(s, c, who);
    case CheckMultipleCall(cs, who) =>
      var (w, results) := Pass(s.w, cs, who);
      if !AllAllowed(results) {
        CheckOrderly(s.(w := Undo(w, cs, results, who)), cs[FirstDenied(results)], who);
      }
    case CountCall(c, who) =>
    case TimerFires(id) => ExpireOrderly(s.q, id);
    case ReleaseCall(name) =>
      if name in s.q.queues {
        ReleaseLoopOrderly(s, name);
        DropOrderly(ReleaseLoop(s, name).q, name);
      }
    case ClearCall => FlushOrderly(s.q);
  }

  lemma AdvanceOrderly(s: State, step: Step)
    requires Orderly(s.q)
    ensures Orderly(Advance(s, step).q)
  {
    hide Orderly, Apply;
    ApplyOrderly(s.(w := s.w.(clock := s.w.clock + step.elapsed)), step.event);
  }

  lemma {:induction false} AfterOrderly(start: int, steps: seq<Step>)
    ensures Orderly(After(start, steps).q)
  {
    if steps != [] {
      hide Orderly, Advance;
      AfterOrderly(start, steps[..|steps| - 1]);
      AdvanceOrderly(After(start, steps[..|steps| - 1]), steps[|steps| - 1]);
    }
  }

  // ---- The theorems ----

  /** On every run each queued request either waits, with its timer live, or has been settled exactly
      once, with its timer gone. */
  lemma SettledExactlyOnce(start: int, steps: seq<Step>, id: nat)
    ensures var q := After(start, steps).q;
            (id < q.next ==>
               (q.settled[id] == (if id in Waiters(q.queues) then 0 else 1)
                && (id in q.timers <==> id in Waiters(q.queues))))
  {
    AfterOrderly(start, steps);
    WaitersAreTimers(After(start, steps).q);
  }

  /** Requests released from one queue leave in the order they came, and none waiting came earlier. */
  lemma ReleasedInOrder(start: int, steps: seq<Step>, i: nat, j: nat)
    ensures var q := After(start, steps).q;
            (i < j < |q.released| && q.released[i].config.name == q.released[j].config.name ==>
               q.released[i].id < q.released[j].id)
    ensures var q := After(start, steps).q;
            (i < |q.released| && q.released[i].config.name in q.queues ==>
               forall t :: t in q.queues[q.released[i].config.name] ==> q.released[i].id < t.id)
  {
    var q := After(start, steps).q;
    AfterOrderly(start, steps);
    if i < |q.released| { assert NotOvertaken(q.released[i], q); }
  }

  /** No request stands further back than the depth it was accepted under: with one configuration per
      name, no queue is longer than its depth. */
  lemma DepthBound(start: int, steps: seq<Step>, name: string, i: nat)
    requires name in After(start, steps).q.queues && i < |After(start, steps).q.queues[name]|
    ensures i < Depth(After(start, steps).q.queues[name][i].config)
    ensures After(start, steps).q.queues[name][i].config.name == name
  {
    var q := After(start, steps).q;
    AfterOrderly(start, steps);
    assert QueueOk(q.queues[name], name, q.timers);
    assert TicketOk(q.queues[name][i], i, name, q.timers);
  }
}
