/** The in-memory and the SQLite state store as objects. The database is one table, changed in place. */
module StateStoreObjects {
  import opened Wrappers
  import opened Executions
  import opened StateRows
  import opened StateStores

  class InMemoryStateStore {
    var store: Model
    var idempotencyIndex: map<string, string>
    const retentionPeriodMs: int

    ghost function View(): Indexed
      reads this
    {
      Indexed(store, idempotencyIndex)
    }

    constructor (retentionPeriodSeconds: int)
      ensures View() == Indexed(map[], map[])
      ensures retentionPeriodMs == if retentionPeriodSeconds > 0 then retentionPeriodSeconds * 1000 else 0
    {
      store, idempotencyIndex := map[], map[];
      retentionPeriodMs := if retentionPeriodSeconds > 0 then retentionPeriodSeconds * 1000 else 0;
    }

    method EvictExpired(now: int)
      modifies this
      ensures View() == IndexedEvict(old(View()), retentionPeriodMs, now)
    {
      hide Expired, EvictSome;
      EvictNone(View(), retentionPeriodMs, now);
      if retentionPeriodMs <= 0 {
        return;
      }
      var rest := store.Keys;
      ghost var before, seen: set<string> := View(), {};
      while rest != {}
        invariant seen == before.store.Keys - rest && rest <= before.store.Keys
        invariant rest <= store.Keys && forall id :: id in rest ==> store[id] == before.store[id]
        invariant View() == EvictSome(before, seen, retentionPeriodMs, now)
        decreases |rest|
      {
        var id :| id in rest;
        var execution := store[id];
        EvictOneMore(before, seen, id, retentionPeriodMs, now);
        rest := rest - {id};
        seen := seen + {id};
        if Expired(execution, retentionPeriodMs, now) {
          idempotencyIndex := idempotencyIndex - {execution.idempotencyKey};
          store := store - {id};
        }
      }
      assert seen == before.store.Keys;
      EvictEvery(before, retentionPeriodMs, now);
    }

    method Get(id: string, now: int) returns (found: Option<Stored>)
      modifies this
      ensures View() == IndexedEvict(old(View()), retentionPeriodMs, now)
      ensures found == if id in store then Some(store[id]) else None
    {
      EvictExpired(now);
      return if id in store then Some(store[id]) else None;
    }

    method GetByIdempotencyKey(key: string, now: int) returns (found: Option<Stored>)
      modifies this
      ensures View() == IndexedEvict(old(View()), retentionPeriodMs, now)
      ensures found == IndexedLookup(View(), key)
    {
      EvictExpired(now);
      if key !in idempotencyIndex || idempotencyIndex[key] == "" {
        return None;
      }
      var id := idempotencyIndex[key];
      return if id in store then Some(store[id]) else None;
    }

    method Put(e: Stored)
      modifies this
      ensures View() == IndexedSet(old(View()), e)
    {
      store := store[e.id := e];
      idempotencyIndex := idempotencyIndex[e.idempotencyKey := e.id];
    }

    method Remove(id: string)
      modifies this
      ensures View() == IndexedDelete(old(View()), id)
    {
      if id in store {
        idempotencyIndex := idempotencyIndex - {store[id].idempotencyKey};
        store := store - {id};
      }
    }

    method List(f: Filter, now: int) returns (found: set<string>)
      modifies this
      ensures View() == IndexedEvict(old(View()), retentionPeriodMs, now)
      ensures found == set id | id in store && Passes(store[id], f)
    {
      EvictExpired(now);
      found := set id | id in store && Passes(store[id], f);
    }
  }

  // ---- The eviction loop ----

  function ExpiredAmong(m: Model, ids: set<string>, retention: int, now: int): set<string> {
    set id | id in ids && id in m && Expired(m[id], retention, now)
  }

  function EvictSome(s: Indexed, ids: set<string>, retention: int, now: int): Indexed {
    var gone := ExpiredAmong(s.store, ids, retention, now);
    Indexed(s.store - gone, s.index - KeysOf(s.store, gone))
  }

  lemma EvictNone(s: Indexed, retention: int, now: int)
    ensures EvictSome(s, {}, retention, now) == s
    ensures retention <= 0 ==> IndexedEvict(s, retention, now) == s
  {
    assert KeysOf(s.store, {}) == {};
    assert retention <= 0 ==> ExpiredIds(s.store, retention, now) == {};
  }

  lemma EvictEvery(s: Indexed, retention: int, now: int)
    ensures EvictSome(s, s.store.Keys, retention, now) == IndexedEvict(s, retention, now)
  {
    hide Expired;
    assert ExpiredAmong(s.store, s.store.Keys, retention, now) == ExpiredIds(s.store, retention, now);
  }

  lemma EvictOneMore(s: Indexed, ids: set<string>, id: string, retention: int, now: int)
    requires id in s.store && id !in ids
    ensures var some := EvictSome(s, ids, retention, now);
            EvictSome(s, ids + {id}, retention, now)
            == (if Expired(s.store[id], retention, now)
                then Indexed(some.store - {id}, some.index - {s.store[id].idempotencyKey})
                else some)
  {
    hide Expired;
    var gone, more := ExpiredAmong(s.store, ids, retention, now), ExpiredAmong(s.store, ids + {id}, retention, now);
    if Expired(s.store[id], retention, now) {
      assert more == gone + {id};
      assert KeysOf(s.store, more) == KeysOf(s.store, gone) + {s.store[id].idempotencyKey};
    } else {
      assert more == gone;
    }
  }

  // ---- The SQLite store ----

  class SQLiteStateStore {
    const codec: Codec
    var table: Table
    const retentionPeriodMs: int

    /** An empty database; recovery of a previous one is not modelled. */
    constructor (codec: Codec, retentionPeriodSeconds: int)
      ensures table == map[] && this.codec == codec
      ensures retentionPeriodMs == if retentionPeriodSeconds > 0 then retentionPeriodSeconds * 1000 else 0
    {
      this.codec := codec;
      table := map[];
      retentionPeriodMs := if retentionPeriodSeconds > 0 then retentionPeriodSeconds * 1000 else 0;
    }

    method EvictExpired(now: int)
      modifies this
      ensures table == TableEvict(old(table), retentionPeriodMs, now)
    {
      if retentionPeriodMs <= 0 {
        return;
      }
      var cutoff := now - retentionPeriodMs;
      table := map id | id in table && !((table[id].state == "complete" || table[id].state == "failed")
                                         && table[id].tsCompleted.Some?
                                         && table[id].tsCompleted.value < cutoff) :: table[id];
    }

    method Get(id: string, now: int) returns (found: Option<Stored>)
      modifies this
      ensures table == TableEvict(old(table), retentionPeriodMs, now)
      ensures found == if id in table then Some(DeserializeRow(codec, table[id])) else None
    {
      EvictExpired(now);
      return if id in table then Some(DeserializeRow(codec, table[id])) else None;
    }

    method GetByIdempotencyKey(key: string, now: int) returns (found: Option<Stored>)
      modifies this
      ensures table == TableEvict(old(table), retentionPeriodMs, now)
      ensures TableFinds(codec, table, key, found)
    {
      hide DeserializeRow, TableEvict;
      EvictExpired(now);
      var rest := table.Keys;
      while rest != {}
        invariant rest <= table.Keys && table == TableEvict(old(table), retentionPeriodMs, now)
        invariant forall id :: id in table && id !in rest ==> table[id].idempotencyKey != key
        decreases |rest|
      {
        var id :| id in rest;
        if table[id].idempotencyKey == key {
          return Some(DeserializeRow(codec, table[id]));
        }
        rest := rest - {id};
      }
      return None;
    }

    method Put(e: Stored)
      modifies this
      ensures table == TableSet(old(table), SerializeExecution(codec, e))
    {
      var row := SerializeExecution(codec, e);
      table := map id | id in table && table[id].idempotencyKey != row.idempotencyKey :: table[id];
      table := table[row.id := row];
    }

    method Remove(id: string)
      modifies this
      ensures table == old(table) - {id}
    {
      table := table - {id};
    }

    method List(f: Filter, now: int) returns (found: set<string>)
      modifies this
      ensures table == TableEvict(old(table), retentionPeriodMs, now)
      ensures found == set id | id in table && RowPasses(table[id], f)
    {
      EvictExpired(now);
      found := set id | id in table && RowPasses(table[id], f);
    }
  }

  /** The filters of the prepared statements, on columns. */
  predicate RowPasses(r: Row, f: Filter) {
    && (f.state.Some? ==> r.state == StateName(f.state.value))
    && (f.flowName.GetOr("") != "" ==> r.flowName == f.flowName.value)
  }

  /** A filter on columns selects the rows whose executions it selects. */
  lemma RowFilter(c: Codec, e: Stored, f: Filter)
    ensures RowPasses(SerializeExecution(c, e), f) <==> Passes(e, f)
  {
    StateNameReads(e.state);
    if f.state.Some? { StateNameReads(f.state.value); }
    hide StateOf, StateName, Column, TransitionsJson, WaitJson;
  }
}
