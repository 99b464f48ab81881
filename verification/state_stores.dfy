/** The two state stores against one abstract map: an index kept in step with a map, and a table with a
    unique key. */
module StateStores {
  import opened Wrappers
  import opened Executions
  import opened StateRows

  type Model = map<string, Stored>

  // ---- The abstract map ----

  /** The retention period is over; without one nothing expires. */
  predicate Expired(e: Stored, retention: int, now: int) {
    retention > 0 && Terminal(e.state) && e.completed.Some? && now - e.completed.value > retention
  }

  function ExpiredIds(m: Model, retention: int, now: int): set<string> {
    set id | id in m && Expired(m[id], retention, now)
  }

  function Evict(m: Model, retention: int, now: int): Model {
    m - ExpiredIds(m, retention, now)
  }

  /** What a scan of the map finds for a key. */
  ghost predicate Finds(m: Model, key: string, found: Option<Stored>) {
    if found.Some? then exists id :: id in m && m[id] == found.value && m[id].idempotencyKey == key
    else forall id :: id in m ==> m[id].idempotencyKey != key
  }

  /** Each execution is at its id, and no two have the same idempotency key. */
  ghost predicate Proper(m: Model) {
    && (forall id :: id in m ==> m[id].id == id && id != "")
    && (forall a, b :: a in m && b in m && m[a].idempotencyKey == m[b].idempotencyKey ==> a == b)
  }

  /** Storing `e` leaves every idempotency key with one execution, and none behind. */
  predicate Safe(m: Model, e: Stored) {
    forall id :: id in m ==> (m[id].idempotencyKey == e.idempotencyKey <==> id == e.id)
  }

  datatype Filter = Filter(state: Option<ExecutionState>, flowName: Option<string>)

  predicate Passes(e: Stored, f: Filter) {
    (f.state.Some? ==> e.state == f.state.value) && (f.flowName.GetOr("") != "" ==> e.flowName == f.flowName.value)
  }

  // ---- The map with its index ----

  datatype Indexed = Indexed(store: Model, index: map<string, string>)

  function KeysOf(m: Model, ids: set<string>): set<string> {
    set id | id in ids && id in m :: m[id].idempotencyKey
  }

  function IndexedSet(s: Indexed, e: Stored): Indexed {
    Indexed(s.store[e.id := e], s.index[e.idempotencyKey := e.id])
  }

  function IndexedDelete(s: Indexed, id: string): Indexed {
    if id in s.store then Indexed(s.store - {id}, s.index - {s.store[id].idempotencyKey}) else s
  }

  function IndexedEvict(s: Indexed, retention: int, now: int): Indexed {
    var gone := ExpiredIds(s.store, retention, now);
    Indexed(s.store - gone, s.index - KeysOf(s.store, gone))
  }

  /** `getByIdempotencyKey` after the eviction. */
  function IndexedLookup(s: Indexed, key: string): Option<Stored> {
    if key in s.index && s.index[key] != "" && s.index[key] in s.store then Some(s.store[s.index[key]]) else None
  }

  /** The index is the map from keys to ids. */
  ghost predicate InStep(s: Indexed) {
    && Proper(s.store)
    && (forall id :: id in s.store ==>
          s.store[id].idempotencyKey in s.index && s.index[s.store[id].idempotencyKey] == id)
    && (forall key :: key in s.index ==> s.index[key] in s.store && s.store[s.index[key]].idempotencyKey == key)
  }

  // ---- The table ----

  type Table = map<string, Row>

  /** `INSERT OR REPLACE`: rows with the same id or the same unique key go. */
  function TableSet(t: Table, row: Row): Table {
    (map id | id in t && t[id].idempotencyKey != row.idempotencyKey :: t[id])[row.id := row]
  }

  function TableEvict(t: Table, retention: int, now: int): Table {
    if retention <= 0 then t
    else
      map id | id in t && !((t[id].state == "complete" || t[id].state == "failed")
                            && t[id].tsCompleted.Some? && t[id].tsCompleted.value < now - retention) :: t[id]
  }

  /** What the query by key returns, read back. */
  ghost predicate TableFinds(c: Codec, t: Table, key: string, found: Option<Stored>) {
    if found.Some? then exists id :: id in t && t[id].idempotencyKey == key && DeserializeRow(c, t[id]) == found.value
    else forall id :: id in t ==> t[id].idempotencyKey != key
  }

  function Rows(c: Codec, m: Model): Table {
    map id | id in m :: SerializeExecution(c, m[id])
  }

  // ---- Both implement the abstract map ----

  lemma SetInStep(s: Indexed, e: Stored)
    requires InStep(s) && Safe(s.store, e) && e.id != ""
    ensures InStep(IndexedSet(s, e)) && IndexedSet(s, e).store == s.store[e.id := e]
  {
  }

  lemma DeleteInStep(s: Indexed, id: string)
    requires InStep(s)
    ensures InStep(IndexedDelete(s, id)) && IndexedDelete(s, id).store == s.store - {id}
  {
  }

  lemma EvictInStep(s: Indexed, retention: int, now: int)
    requires InStep(s)
    ensures InStep(IndexedEvict(s, retention, now))
    ensures IndexedEvict(s, retention, now).store == Evict(s.store, retention, now)
  {
    hide Expired;
    var after := IndexedEvict(s, retention, now);
    forall id | id in after.store
      ensures after.store[id].idempotencyKey in after.index && after.index[after.store[id].idempotencyKey] == id
    {
      assert s.store[id].idempotencyKey !in KeysOf(s.store, ExpiredIds(s.store, retention, now));
    }
  }

  /** The index finds what a scan finds. */
  lemma LookupIsScan(s: Indexed, key: string)
    requires InStep(s)
    ensures Finds(s.store, key, IndexedLookup(s, key))
  {
  }

  lemma TableSetRefines(c: Codec, m: Model, e: Stored)
    requires Safe(m, e)
    ensures TableSet(Rows(c, m), SerializeExecution(c, e)) == Rows(c, m[e.id := e])
  {
    hide Column, StateName, TransitionsJson, WaitJson;
  }

  lemma ExpiredRow(c: Codec, e: Stored, retention: int, now: int)
    requires retention > 0
    ensures var row := SerializeExecution(c, e);
            ((row.state == "complete" || row.state == "failed")
             && row.tsCompleted.Some? && row.tsCompleted.value < now - retention)
            <==> Expired(e, retention, now)
  {
    TerminalName(e.state);
    hide StateName, Column, TransitionsJson, WaitJson, Terminal;
  }

  lemma TerminalName(state: ExecutionState)
    ensures Terminal(state) <==> StateName(state) == "complete" || StateName(state) == "failed"
  {
  }

  lemma TableEvictRefines(c: Codec, m: Model, retention: int, now: int)
    ensures TableEvict(Rows(c, m), retention, now) == Rows(c, Evict(m, retention, now))
  {
    if retention > 0 {
      forall id | id in m ensures id in ExpiredIds(m, retention, now) <==> Expired(m[id], retention, now) {
        ExpiredRow(c, m[id], retention, now);
      }
      forall id | id in m
        ensures var row := Rows(c, m)[id];
                ((row.state == "complete" || row.state == "failed")
                 && row.tsCompleted.Some? && row.tsCompleted.value < now - retention)
                <==> Expired(m[id], retention, now)
      {
        ExpiredRow(c, m[id], retention, now);
      }
      hide SerializeExecution, Expired;
    } else {
      assert ExpiredIds(m, retention, now) == {};
      hide SerializeExecution;
    }
  }

  lemma TableFindsModel(c: Codec, m: Model, key: string, found: Option<Stored>)
    requires Inverse(c)
    ensures TableFinds(c, Rows(c, m), key, found) <==> Finds(m, key, found)
  {
    forall id | id in m
      ensures DeserializeRow(c, Rows(c, m)[id]) == m[id] && Rows(c, m)[id].idempotencyKey == m[id].idempotencyKey
    {
      RoundTrip(c, m[id]);
    }
    hide DeserializeRow, SerializeExecution, Inverse;
    if found.Some? {
      if id :| id in Rows(c, m) && Rows(c, m)[id].idempotencyKey == key
               && DeserializeRow(c, Rows(c, m)[id]) == found.value {
        assert id in m && m[id] == found.value;
      }
      if id :| id in m && m[id] == found.value && m[id].idempotencyKey == key {
        assert id in Rows(c, m);
      }
    }
  }

  // ---- Over runs ----

  /** Every reading call of either store evicts first. */
  datatype Op = SetOp(e: Stored) | DeleteOp(id: string) | ReadOp(now: int)

  function ApplyModel(m: Model, op: Op, retention: int): Model {
    match op
    case SetOp(e) => m[e.id := e]
    case DeleteOp(id) => m - {id}
    case ReadOp(now) => Evict(m, retention, now)
  }

  function ApplyIndexed(s: Indexed, op: Op, retention: int): Indexed {
    match op
    case SetOp(e) => IndexedSet(s, e)
    case DeleteOp(id) => IndexedDelete(s, id)
    case ReadOp(now) => IndexedEvict(s, retention, now)
  }

  function ApplyTable(c: Codec, t: Table, op: Op, retention: int): Table {
    match op
    case SetOp(e) => TableSet(t, SerializeExecution(c, e))
    case DeleteOp(id) => t - {id}
    case ReadOp(now) => TableEvict(t, retention, now)
  }

  function AfterModel(ops: seq<Op>, retention: int): Model {
    if ops == [] then map[] else ApplyModel(AfterModel(ops[..|ops| - 1], retention), ops[|ops| - 1], retention)
  }

  function AfterIndexed(ops: seq<Op>, retention: int): Indexed {
    if ops == [] then Indexed(map[], map[])
    else ApplyIndexed(AfterIndexed(ops[..|ops| - 1], retention), ops[|ops| - 1], retention)
  }

  function AfterTable(c: Codec, ops: seq<Op>, retention: int): Table {
    if ops == [] then map[] else ApplyTable(c, AfterTable(c, ops[..|ops| - 1], retention), ops[|ops| - 1], retention)
  }

  /** No stored execution ever meets another of its key, and none changes its key. */
  predicate SafeRun(ops: seq<Op>, retention: int) {
    ops == []
    || (var last := ops[|ops| - 1];
        SafeRun(ops[..|ops| - 1], retention)
        && (last.SetOp? ==> last.e.id != "" && Safe(AfterModel(ops[..|ops| - 1], retention), last.e)))
  }

  lemma ApplyInStep(s: Indexed, op: Op, retention: int)
    requires InStep(s) && (op.SetOp? ==> op.e.id != "" && Safe(s.store, op.e))
    ensures InStep(ApplyIndexed(s, op, retention))
    ensures ApplyIndexed(s, op, retention).store == ApplyModel(s.store, op, retention)
  {
    hide InStep, Safe, IndexedSet, IndexedDelete, IndexedEvict, Evict;
    match op
    case SetOp(e) => SetInStep(s, e);
    case DeleteOp(id) => DeleteInStep(s, id);
    case ReadOp(now) => EvictInStep(s, retention, now);
  }

  lemma ApplyRows(c: Codec, m: Model, op: Op, retention: int)
    requires op.SetOp? ==> Safe(m, op.e)
    ensures ApplyTable(c, Rows(c, m), op, retention) == Rows(c, ApplyModel(m, op, retention))
  {
    hide Safe, TableSet, TableEvict, Evict, SerializeExecution;
    match op
    case SetOp(e) => TableSetRefines(c, m, e);
    case DeleteOp(id) => assert Rows(c, m) - {id} == Rows(c, m - {id});
    case ReadOp(now) => TableEvictRefines(c, m, retention, now);
  }

  lemma {:induction false} AfterHolds(c: Codec, ops: seq<Op>, retention: int)
    requires SafeRun(ops, retention)
    ensures InStep(AfterIndexed(ops, retention)) && AfterIndexed(ops, retention).store == AfterModel(ops, retention)
    ensures AfterTable(c, ops, retention) == Rows(c, AfterModel(ops, retention))
  {
    if ops != [] {
      hide InStep, Safe, ApplyIndexed, ApplyTable, ApplyModel, Rows;
      var before := ops[..|ops| - 1];
      AfterHolds(c, before, retention);
      ApplyInStep(AfterIndexed(before, retention), ops[|ops| - 1], retention);
      ApplyRows(c, AfterModel(before, retention), ops[|ops| - 1], retention);
    } else {
      assert AfterTable(c, [], retention) == Rows(c, map[]);
    }
  }

  /** The two stores answer every read alike. */
  ghost predicate Agree(c: Codec, s: Indexed, t: Table) {
    && t.Keys == s.store.Keys
    && (forall id :: id in t ==> DeserializeRow(c, t[id]) == s.store[id])
    && (forall key :: TableFinds(c, t, key, IndexedLookup(s, key)))
  }

  lemma InStepAgree(c: Codec, s: Indexed)
    requires Inverse(c) && InStep(s)
    ensures Agree(c, s, Rows(c, s.store))
  {
    forall id | id in s.store ensures DeserializeRow(c, Rows(c, s.store)[id]) == s.store[id] {
      RoundTrip(c, s.store[id]);
    }
    forall key ensures TableFinds(c, Rows(c, s.store), key, IndexedLookup(s, key)) {
      LookupIsScan(s, key);
      TableFindsModel(c, s.store, key, IndexedLookup(s, key));
    }
    hide InStep, Inverse, DeserializeRow, SerializeExecution, TableFinds;
  }

  /** After every safe run both stores are the same abstract map: a lookup by key is a scan, and the table
      gives the same executions, by id, by key and listed. */
  lemma StoresAgree(c: Codec, ops: seq<Op>, retention: int, key: string, f: Filter)
    requires Inverse(c) && SafeRun(ops, retention)
    ensures var s, t, m := AfterIndexed(ops, retention), AfterTable(c, ops, retention), AfterModel(ops, retention);
            (Agree(c, s, t)
             && s.store == m
             && Finds(m, key, IndexedLookup(s, key))
             && (set id | id in t && Passes(DeserializeRow(c, t[id]), f)) == (set id | id in m && Passes(m[id], f)))
  {
    hide SafeRun, AfterIndexed, AfterTable, AfterModel, InStep, Rows, DeserializeRow, Finds, IndexedLookup, TableFinds;
    AfterHolds(c, ops, retention);
    var s := AfterIndexed(ops, retention);
    InStepAgree(c, s);
    LookupIsScan(s, key);
  }

  /** Storing keeps the two in agreement exactly when it is safe. */
  lemma AgreeExactly(c: Codec, s: Indexed, e: Stored)
    requires Inverse(c) && InStep(s) && e.id != ""
    ensures Agree(c, IndexedSet(s, e), TableSet(Rows(c, s.store), SerializeExecution(c, e))) <==> Safe(s.store, e)
  {
    if Safe(s.store, e) {
      SetInStep(s, e);
      TableSetRefines(c, s.store, e);
      hide InStep, Safe, Inverse, Agree, Rows;
      InStepAgree(c, IndexedSet(s, e));
    } else {
      var id :| id in s.store && (s.store[id].idempotencyKey == e.idempotencyKey) != (id == e.id);
      if id == e.id { StaleKey(c, s, e); } else { LostRow(c, s, e, id); }
    }
  }

  /** The stores agree after every part of the run. */
  ghost predicate AgreeThroughout(c: Codec, ops: seq<Op>, retention: int) {
    forall n :: 0 <= n <= |ops| ==> Agree(c, AfterIndexed(ops[..n], retention), AfterTable(c, ops[..n], retention))
  }

  lemma AgreePrefix(c: Codec, ops: seq<Op>, retention: int)
    requires ops != []
    ensures AgreeThroughout(c, ops, retention)
        <==> AgreeThroughout(c, ops[..|ops| - 1], retention)
             && Agree(c, AfterIndexed(ops, retention), AfterTable(c, ops, retention))
  {
    hide Agree, AfterIndexed, AfterTable;
    var front := ops[..|ops| - 1];
    assert ops[..|ops|] == ops;
    assert forall n :: 0 <= n < |ops| ==> front[..n] == ops[..n];
    if AgreeThroughout(c, ops, retention) {
      forall n | 0 <= n < |ops|
        ensures Agree(c, AfterIndexed(front[..n], retention), AfterTable(c, front[..n], retention))
      {
        assert Agree(c, AfterIndexed(ops[..n], retention), AfterTable(c, ops[..n], retention));
      }
    }
  }

  /** They do if and only if the run is safe. */
  lemma {:induction false} AgreeRunExactly(c: Codec, ops: seq<Op>, retention: int)
    requires Inverse(c) && forall i :: 0 <= i < |ops| && ops[i].SetOp? ==> ops[i].e.id != ""
    ensures AgreeThroughout(c, ops, retention) <==> SafeRun(ops, retention)
  {
    hide Agree, Safe, InStep, ApplyIndexed, ApplyTable, ApplyModel, Rows, Inverse, AgreeThroughout;
    if ops != [] {
      var front, last := ops[..|ops| - 1], ops[|ops| - 1];
      AgreeRunExactly(c, front, retention);
      AgreePrefix(c, ops, retention);
      if SafeRun(front, retention) {
        AfterHolds(c, front, retention);
        LastAgrees(c, AfterIndexed(front, retention), last, retention);
      }
    } else {
      AgreeEmpty(c, retention);
    }
  }

  lemma AgreeEmpty(c: Codec, retention: int)
    ensures AgreeThroughout(c, [], retention)
  {
    assert AfterIndexed([], retention) == Indexed(map[], map[]) && AfterTable(c, [], retention) == map[];
    assert Agree(c, Indexed(map[], map[]), map[]);
    hide Agree, AfterIndexed, AfterTable;
    var none: seq<Op> := [];
    assert none[..0] == none;
  }

  lemma LastAgrees(c: Codec, s: Indexed, op: Op, retention: int)
    requires Inverse(c) && InStep(s) && (op.SetOp? ==> op.e.id != "")
    ensures Agree(c, ApplyIndexed(s, op, retention), ApplyTable(c, Rows(c, s.store), op, retention))
        <==> (op.SetOp? ==> Safe(s.store, op.e))
  {
    if op.SetOp? {
      AgreeExactly(c, s, op.e);
    } else {
      hide Agree, Safe, InStep, ApplyIndexed, ApplyTable, Rows, Inverse;
      ApplyInStep(s, op, retention);
      ApplyRows(c, s.store, op, retention);
      InStepAgree(c, ApplyIndexed(s, op, retention));
    }
    hide Agree, Safe, InStep, Rows, Inverse, TableSet, IndexedSet;
  }

  /** Another execution of the same key: the table loses it, the map keeps it. */
  lemma LostRow(c: Codec, s: Indexed, e: Stored, id: string)
    requires id in s.store && id != e.id && s.store[id].idempotencyKey == e.idempotencyKey
    ensures id in IndexedSet(s, e).store && id !in TableSet(Rows(c, s.store), SerializeExecution(c, e))
  {
    hide Column, TransitionsJson, WaitJson, StateName;
  }

  /** The same execution with another key: the index still leads from the old one. */
  lemma StaleKey(c: Codec, s: Indexed, e: Stored)
    requires InStep(s) && e.id in s.store && e.id != "" && s.store[e.id].idempotencyKey != e.idempotencyKey
    ensures var key := s.store[e.id].idempotencyKey;
            (IndexedLookup(IndexedSet(s, e), key) == Some(e)
             && !TableFinds(c, TableSet(Rows(c, s.store), SerializeExecution(c, e)), key, Some(e)))
  {
    hide Column, TransitionsJson, WaitJson, StateName, DeserializeRow;
  }

  /** Two executions of one key, and the later one deleted: the index has forgotten the earlier, which a scan finds. */
  lemma SharedKeyIsForgotten(a: Stored, b: Stored)
    requires a.id != b.id && a.idempotencyKey == b.idempotencyKey
    ensures var s := IndexedDelete(IndexedSet(IndexedSet(Indexed(map[], map[]), a), b), b.id);
            IndexedLookup(s, a.idempotencyKey) == None && Finds(s.store, a.idempotencyKey, Some(a))
  {
    var s := IndexedDelete(IndexedSet(IndexedSet(Indexed(map[], map[]), a), b), b.id);
    assert a.id in s.store && s.store[a.id] == a;
  }
}
