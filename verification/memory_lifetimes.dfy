/** What reading gives, told from the writes and deletions alone. */
module MemoryLifetimes {
  import opened Wrappers
  import opened MemoryStores

  /** The last write of a key of a scope, if no deletion has followed it. */
  function LastWritten(ops: seq<Op>, s: Scope, key: string): Option<Entry> {
    if ops == [] then None
    else
      var before, last := ops[..|ops| - 1], ops[|ops| - 1];
      if last.scope != s then LastWritten(before, s, key)
      else match last
        case SetOp(_, entry) => if entry.key == key then Some(entry) else LastWritten(before, s, key)
        case DeleteOp(_, deleted) => if deleted == key then None else LastWritten(before, s, key)
        case DeleteNamespaceOp(_) => None
        case _ => LastWritten(before, s, key)
  }

  /** Nothing has been read later than now. */
  predicate ReadBy(ops: seq<Op>, now: int) {
    forall i :: 0 <= i < |ops| && (ops[i].GetOp? || ops[i].ListOp?) ==> ops[i].now <= now
  }

  /** The entry lives: it has no end, or its end is to come. */
  predicate Lives(entry: Option<Entry>, now: int) {
    entry.Some? && (entry.value.expiresAt.None? || now < entry.value.expiresAt.value)
  }

  /** What is stored was written last, and what is not stored does not live. */
  lemma {:induction false} StoredOrOver(ops: seq<Op>, s: Scope, key: string, now: int)
    requires ReadBy(ops, now)
    ensures var a, written := AfterScoped(ops), LastWritten(ops, s, key);
            if (s, key) in a then written == Some(a[(s, key)]) else !Lives(written, now)
  {
    if ops != [] {
      var n := |ops| - 1;
      assert ReadBy(ops[..n], now);
      assert (ops[n].GetOp? || ops[n].ListOp?) ==> ops[n].now <= now;
      StoredOrOver(ops[..n], s, key, now);
      hide ReadBy;
    }
  }

  /** A read gives the entry written last while it lives, and nothing otherwise; a listing has the key
      exactly while it lives. */
  lemma ReadsWhatLives(ops: seq<Op>, scopes: set<Scope>, s: Scope, key: string, now: int)
    requires Apart(scopes) && Within(ops, scopes) && s in scopes && ReadBy(ops, now)
    ensures var written := LastWritten(ops, s, key);
            && Get(AfterFlat(ops), Namespace(s), key, now).1 == (if Lives(written, now) then written else None)
            && (key in List(AfterFlat(ops), Namespace(s), now).1 <==> Lives(written, now))
  {
    StoredOrOver(ops, s, key, now);
    ListedExactlyWhenRead(ops, scopes, s, key, now);
    AfterRefines(ops, scopes);
    GetRefines(AfterFlat(ops), AfterScoped(ops), scopes, s, key, now);
    hide AfterFlat, AfterScoped, LastWritten, Refines, Apart, Within, ReadBy, Get, List;
  }

  lemma WrittenLast(ops: seq<Op>, op: Op, s: Scope, key: string)
    ensures op.scope != s || op.GetOp? || op.ListOp? ==> LastWritten(ops + [op], s, key) == LastWritten(ops, s, key)
    ensures op.SetOp? && op.scope == s && op.entry.key == key ==> LastWritten(ops + [op], s, key) == Some(op.entry)
  {
    assert (ops + [op])[..|ops|] == ops;
  }

  lemma {:induction false} WrittenNow(ops: seq<Op>, later: seq<Op>, s: Scope, entry: Entry)
    requires forall i :: 0 <= i < |later| ==> later[i].scope != s || later[i].GetOp? || later[i].ListOp?
    ensures LastWritten(ops + [SetOp(s, entry)] + later, s, entry.key) == Some(entry)
    decreases |later|
  {
    hide LastWritten;
    var written := ops + [SetOp(s, entry)];
    if later == [] {
      WrittenLast(ops, SetOp(s, entry), s, entry.key);
      assert written + [] == written;
    } else {
      var n := |later| - 1;
      WrittenNow(ops, later[..n], s, entry);
      WrittenLast(written + later[..n], later[n], s, entry.key);
      assert written + later == written + later[..n] + [later[n]];
    }
  }

  /** What `ScopedMemory.set` stores with a positive lifetime is read back, whatever else is done in other
      scopes and read in its own, until the lifetime is over and never from then on. */
  lemma LivesItsLifetime(
    ops: seq<Op>, later: seq<Op>, scopes: set<Scope>, s: Scope, key: string, value: string, ttl: int, at: int,
    now: int)
    requires var entry := Entry(key, value, Some(at + ttl));
             && Apart(scopes) && s in scopes && ttl > 0
             && Within(ops + [SetOp(s, entry)] + later, scopes) && ReadBy(ops + [SetOp(s, entry)] + later, now)
             && forall i :: 0 <= i < |later| ==> later[i].scope != s || later[i].GetOp? || later[i].ListOp?
    ensures var entry := Entry(key, value, Some(at + ttl));
            var data := AfterFlat(ops + [SetOp(s, entry)] + later);
            && Get(data, Namespace(s), key, now).1 == (if now < at + ttl then Some(entry) else None)
            && (key in List(data, Namespace(s), now).1 <==> now < at + ttl)
  {
    var entry := Entry(key, value, Some(at + ttl));
    WrittenNow(ops, later, s, entry);
    ReadsWhatLives(ops + [SetOp(s, entry)] + later, scopes, s, key, now);
    hide AfterFlat, LastWritten, Apart, Within, ReadBy, Get, List;
  }
}
