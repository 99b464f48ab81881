/** Which executions a state store gives, told from the calls that stored and deleted them alone. */
module StateLifetimes {
  import opened Wrappers
  import opened Executions
  import opened StateRows
  import opened StateStores

  /** What was stored last under an id, if no deletion has followed. */
  function LastStored(ops: seq<Op>, id: string): Option<Stored> {
    if ops == [] then None
    else
      var before, last := ops[..|ops| - 1], ops[|ops| - 1];
      match last
      case SetOp(e) => if e.id == id then Some(e) else LastStored(before, id)
      case DeleteOp(deleted) => if deleted == id then None else LastStored(before, id)
      case ReadOp(_) => LastStored(before, id)
  }

  /** Nothing has been read later than now. */
  predicate ReadBy(ops: seq<Op>, now: int) {
    forall i :: 0 <= i < |ops| && ops[i].ReadOp? ==> ops[i].now <= now
  }

  /** It has not ended, or not longer ago than the retention period, or there is no such period. */
  predicate Retained(e: Stored, retention: int, now: int) {
    || retention <= 0
    || (e.state != Complete && e.state != Failed)
    || e.completed.None?
    || now <= e.completed.value + retention
  }

  /** What is stored was stored last, and what is not is no longer retained. */
  lemma {:induction false} StoredOrOver(ops: seq<Op>, retention: int, id: string, now: int)
    requires ReadBy(ops, now)
    ensures var m, stored := AfterModel(ops, retention), LastStored(ops, id);
            if id in m then stored == Some(m[id]) else stored.Some? ==> !Retained(stored.value, retention, now)
  {
    if ops != [] {
      var n := |ops| - 1;
      assert ReadBy(ops[..n], now);
      assert ops[n].ReadOp? ==> ops[n].now <= now;
      StoredOrOver(ops[..n], retention, id, now);
      hide ReadBy;
    }
  }

  /** After every safe run each store gives exactly what was stored last under an id, while it is retained. */
  lemma ReadsWhatIsRetained(c: Codec, ops: seq<Op>, retention: int, id: string, now: int)
    requires Inverse(c) && SafeRun(ops, retention) && ReadBy(ops, now)
    ensures var s, t := AfterIndexed(ops + [ReadOp(now)], retention), AfterTable(c, ops + [ReadOp(now)], retention);
            var stored := LastStored(ops, id);
            if stored.Some? && Retained(stored.value, retention, now) then
              id in s.store && s.store[id] == stored.value && id in t && DeserializeRow(c, t[id]) == stored.value
            else id !in s.store && id !in t
  {
    var read := ops + [ReadOp(now)];
    assert read[..|read| - 1] == ops && read[|read| - 1] == ReadOp(now);
    StoredOrOver(ops, retention, id, now);
    AfterHolds(c, read, retention);
    var m := AfterModel(ops, retention);
    assert AfterModel(read, retention) == Evict(m, retention, now);
    assert SafeRun(read, retention);
    hide *;
    EvictedExactly(m, retention, id, now);
    RowsRead(c, Evict(m, retention, now), id);
  }

  lemma EvictedExactly(m: Model, retention: int, id: string, now: int)
    ensures id in Evict(m, retention, now) <==> id in m && Retained(m[id], retention, now)
    ensures id in Evict(m, retention, now) ==> Evict(m, retention, now)[id] == m[id]
  {
  }

  lemma RowsRead(c: Codec, m: Model, id: string)
    requires Inverse(c)
    ensures id in Rows(c, m) <==> id in m
    ensures id in m ==> DeserializeRow(c, Rows(c, m)[id]) == m[id]
  {
    if id in m { RoundTrip(c, m[id]); }
    hide DeserializeRow, SerializeExecution, Inverse;
  }

  /** A listing has just the executions that are retained, in the state asked for and of the flow asked for; an
      empty flow name asks for any. */
  lemma ListsExactly(c: Codec, ops: seq<Op>, retention: int, f: Filter, id: string, now: int)
    requires Inverse(c) && SafeRun(ops, retention) && ReadBy(ops, now)
    ensures var read := ops + [ReadOp(now)];
            var m, t := AfterIndexed(read, retention).store, AfterTable(c, read, retention);
            var stored := LastStored(ops, id);
            var listed := stored.Some? && Retained(stored.value, retention, now)
                          && (f.state.None? || f.state.value == stored.value.state)
                          && (f.flowName.None? || f.flowName.value == "" || f.flowName.value == stored.value.flowName);
            && (id in (set k | k in m && Passes(m[k], f)) <==> listed)
            && (id in (set k | k in t && Passes(DeserializeRow(c, t[k]), f)) <==> listed)
  {
    ReadsWhatIsRetained(c, ops, retention, id, now);
    hide AfterIndexed, AfterTable, SafeRun, Inverse, DeserializeRow, LastStored, ReadBy, Retained;
  }
}
