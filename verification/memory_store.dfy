/** The flat memory store with composite string keys, against a store that keeps scopes apart. */
module MemoryStores {
  import opened Wrappers

  datatype Entry = Entry(key: string, value: string, expiresAt: Option<int>)

  datatype Scope = Tool(flowName: string) | User(userId: string) | Session(sessionId: string)

  function Namespace(s: Scope): string {
    match s
    case Tool(flowName) => "tool:" + flowName
    case User(userId) => "user:" + userId
    case Session(sessionId) => "session:" + sessionId
  }

  function Id(s: Scope): string {
    match s
    case Tool(flowName) => flowName
    case User(userId) => userId
    case Session(sessionId) => sessionId
  }

  predicate SameKind(s: Scope, t: Scope) {
    (s.Tool? <==> t.Tool?) && (s.User? <==> t.User?)
  }

  predicate Expired(e: Entry, now: int) {
    e.expiresAt.Some? && e.expiresAt.value <= now
  }

  // ---- The flat store ----

  type Flat = map<string, Entry>

  function CompositeKey(namespace: string, key: string): string {
    namespace + ":" + key
  }

  predicate StartsWith(s: string, prefix: string) {
    prefix <= s
  }

  function Get(data: Flat, namespace: string, key: string, now: int): (Flat, Option<Entry>) {
    var ck := CompositeKey(namespace, key);
    if ck !in data then (data, None)
    else if Expired(data[ck], now) then (data - {ck}, None)
    else (data, Some(data[ck]))
  }

  function Set(data: Flat, namespace: string, entry: Entry): Flat {
    data[CompositeKey(namespace, entry.key) := entry]
  }

  function Delete(data: Flat, namespace: string, key: string): Flat {
    data - {CompositeKey(namespace, key)}
  }

  function InNamespace(data: Flat, namespace: string): set<string> {
    set ck | ck in data && StartsWith(ck, namespace + ":")
  }

  function ExpiredIn(data: Flat, namespace: string, now: int): set<string> {
    set ck | ck in data && StartsWith(ck, namespace + ":") && Expired(data[ck], now)
  }

  function List(data: Flat, namespace: string, now: int): (Flat, set<string>) {
    (data - ExpiredIn(data, namespace, now),
     set ck | ck in data && StartsWith(ck, namespace + ":") && !Expired(data[ck], now) :: data[ck].key)
  }

  function DeleteNamespace(data: Flat, namespace: string): Flat {
    data - InNamespace(data, namespace)
  }

  // ---- When two scopes meet ----

  /** The one id goes on with a colon where the other ends. */
  predicate Overlaps(a: string, b: string) {
    a == b || StartsWith(a, b + ":") || StartsWith(b, a + ":")
  }

  predicate Meet(s: Scope, t: Scope) {
    SameKind(s, t) && Overlaps(Id(s), Id(t))
  }

  lemma PrefixOfShorter(a: string, b: string, k: string, l: string)
    requires a + ":" + k == b + ":" + l && |a| < |b|
    ensures StartsWith(b, a + ":")
  {
    var whole := a + ":" + k;
    assert whole[..|a| + 1] == a + ":";
    assert (b + ":" + l)[..|b|] == b;
    assert b[..|a| + 1] == whole[..|b|][..|a| + 1] == whole[..|a| + 1];
  }

  lemma OverlapExactly(a: string, b: string)
    ensures Overlaps(a, b) <==> exists k, l :: a + ":" + k == b + ":" + l
  {
    if Overlaps(a, b) {
      if a == b {
        assert a + ":" + "" == b + ":" + "";
      } else if StartsWith(a, b + ":") {
        var rest := a[|b| + 1..] + ":";
        assert a + ":" + "" == b + ":" + rest;
      } else {
        var rest := b[|a| + 1..] + ":";
        assert a + ":" + rest == b + ":" + "";
      }
    }
    if k, l :| a + ":" + k == b + ":" + l {
      if |a| < |b| {
        PrefixOfShorter(a, b, k, l);
      } else if |b| < |a| {
        PrefixOfShorter(b, a, l, k);
      } else {
        assert (a + ":" + k)[..|a|] == a && (b + ":" + l)[..|b|] == b;
      }
    }
  }

  function Prefix(s: Scope): string {
    match s
    case Tool(_) => "tool:"
    case User(_) => "user:"
    case Session(_) => "session:"
  }

  lemma Split(s: Scope, key: string)
    ensures CompositeKey(Namespace(s), key) == Prefix(s) + (Id(s) + ":" + key)
  {
  }

  /** Two scopes have a composite key in common exactly when they are of one kind and one id is the other,
      or goes on from it with a colon. */
  lemma CollideExactly(s: Scope, t: Scope)
    ensures Meet(s, t) <==>
            exists k, l :: CompositeKey(Namespace(s), k) == CompositeKey(Namespace(t), l)
  {
    OverlapExactly(Id(s), Id(t));
    if Meet(s, t) {
      var k, l :| Id(s) + ":" + k == Id(t) + ":" + l;
      Split(s, k);
      Split(t, l);
      assert CompositeKey(Namespace(s), k) == CompositeKey(Namespace(t), l);
    }
    if k, l :| CompositeKey(Namespace(s), k) == CompositeKey(Namespace(t), l) {
      SameComposite(s, t, k, l);
    }
  }

  lemma SameComposite(s: Scope, t: Scope, k: string, l: string)
    requires CompositeKey(Namespace(s), k) == CompositeKey(Namespace(t), l)
    ensures Meet(s, t) && Id(s) + ":" + k == Id(t) + ":" + l
  {
    Split(s, k);
    Split(t, l);
    var x, y := Id(s) + ":" + k, Id(t) + ":" + l;
    assert (Prefix(s) + x)[0] == (Prefix(t) + y)[0];
    assert SameKind(s, t);
    assert (Prefix(s) + x)[|Prefix(s)|..] == x && (Prefix(t) + y)[|Prefix(t)|..] == y;
    OverlapExactly(Id(s), Id(t));
  }

  lemma PrefixHasColon(a: string, b: string)
    requires StartsWith(a, b + ":")
    ensures ':' in a
  {
    assert a[|b|] == (b + ":")[|b|] == ':';
  }

  /** Ids without a colon never meet but in themselves. */
  lemma ColonFreeApart(s: Scope, t: Scope)
    requires ':' !in Id(s) && ':' !in Id(t) && s != t
    ensures !Meet(s, t)
  {
    if StartsWith(Id(s), Id(t) + ":") { PrefixHasColon(Id(s), Id(t)); }
    if StartsWith(Id(t), Id(s) + ":") { PrefixHasColon(Id(t), Id(s)); }
  }

  /** A composite key starts with a namespace exactly when it is a composite key of that scope, too. */
  lemma PrefixMeets(s: Scope, t: Scope, l: string)
    requires StartsWith(CompositeKey(Namespace(t), l), Namespace(s) + ":")
    ensures Meet(s, t)
  {
    var ck := CompositeKey(Namespace(t), l);
    var k := ck[|Namespace(s)| + 1..];
    assert ck == (Namespace(s) + ":") + k;
    assert ck == CompositeKey(Namespace(s), k);
    SameComposite(s, t, k, l);
  }

  // ---- The store that keeps scopes apart ----

  type Scoped = map<(Scope, string), Entry>

  ghost predicate Apart(scopes: set<Scope>) {
    forall s, t :: s in scopes && t in scopes && s != t ==> !Meet(s, t)
  }

  function ScopedGet(a: Scoped, s: Scope, key: string, now: int): (Scoped, Option<Entry>) {
    if (s, key) !in a then (a, None)
    else if Expired(a[(s, key)], now) then (a - {(s, key)}, None)
    else (a, Some(a[(s, key)]))
  }

  function ScopedExpired(a: Scoped, s: Scope, now: int): set<(Scope, string)> {
    set p | p in a && p.0 == s && Expired(a[p], now)
  }

  function ScopedList(a: Scoped, s: Scope, now: int): (Scoped, set<string>) {
    (a - ScopedExpired(a, s, now), set p | p in a && p.0 == s && !Expired(a[p], now) :: p.1)
  }

  function OfScope(a: Scoped, s: Scope): set<(Scope, string)> {
    set p | p in a && p.0 == s
  }

  function Place(p: (Scope, string)): string {
    CompositeKey(Namespace(p.0), p.1)
  }

  /** The flat store holds exactly the scoped entries, each at its composite key. */
  ghost predicate Refines(data: Flat, a: Scoped, scopes: set<Scope>) {
    && (forall p :: p in a ==> p.0 in scopes && a[p].key == p.1 && Place(p) in data && data[Place(p)] == a[p])
    && (forall ck :: ck in data ==> exists p :: p in a && Place(p) == ck)
  }

  lemma PlacesApart(scopes: set<Scope>, p: (Scope, string), q: (Scope, string))
    requires Apart(scopes) && p.0 in scopes && q.0 in scopes && Place(p) == Place(q)
    ensures p == q
  {
    SameComposite(p.0, q.0, p.1, q.1);
    var head := Id(p.0) + ":";
    assert (head + p.1)[|head|..] == p.1 && (head + q.1)[|head|..] == q.1;
  }

  lemma PlaceIn(data: Flat, a: Scoped, scopes: set<Scope>, p: (Scope, string))
    requires Apart(scopes) && Refines(data, a, scopes) && p.0 in scopes
    ensures Place(p) in data <==> p in a
  {
    if Place(p) in data {
      var q :| q in a && Place(q) == Place(p);
      PlacesApart(scopes, p, q);
    }
  }

  lemma RemoveRefines(data: Flat, a: Scoped, scopes: set<Scope>, gone: set<(Scope, string)>, places: set<string>)
    requires Apart(scopes) && Refines(data, a, scopes)
    requires forall p :: p in a ==> (p in gone <==> Place(p) in places)
    ensures Refines(data - places, a - gone, scopes)
  {
    forall ck | ck in data - places ensures exists p :: p in a - gone && Place(p) == ck {
      var p :| p in a && Place(p) == ck;
      assert p in a - gone;
    }
  }

  lemma SetRefines(data: Flat, a: Scoped, scopes: set<Scope>, s: Scope, entry: Entry)
    requires Apart(scopes) && Refines(data, a, scopes) && s in scopes
    ensures Refines(Set(data, Namespace(s), entry), a[(s, entry.key) := entry], scopes)
  {
    var data', a' := Set(data, Namespace(s), entry), a[(s, entry.key) := entry];
    forall p | p in a' ensures Place(p) in data' && data'[Place(p)] == a'[p] {
      if p != (s, entry.key) && Place(p) == Place((s, entry.key)) { PlacesApart(scopes, p, (s, entry.key)); }
    }
    forall ck | ck in data' ensures exists p :: p in a' && Place(p) == ck {
      if ck == Place((s, entry.key)) {
        assert (s, entry.key) in a';
      } else {
        var p :| p in a && Place(p) == ck;
        assert p in a';
      }
    }
  }

  lemma GetRefines(data: Flat, a: Scoped, scopes: set<Scope>, s: Scope, key: string, now: int)
    requires Apart(scopes) && Refines(data, a, scopes) && s in scopes
    ensures Get(data, Namespace(s), key, now).1 == ScopedGet(a, s, key, now).1
    ensures Refines(Get(data, Namespace(s), key, now).0, ScopedGet(a, s, key, now).0, scopes)
  {
    PlaceIn(data, a, scopes, (s, key));
    if (s, key) in a && Expired(a[(s, key)], now) { RemoveOne(data, a, scopes, s, key); }
  }

  lemma RemoveOne(data: Flat, a: Scoped, scopes: set<Scope>, s: Scope, key: string)
    requires Apart(scopes) && Refines(data, a, scopes) && s in scopes
    ensures Refines(Delete(data, Namespace(s), key), a - {(s, key)}, scopes)
  {
    forall p | p in a ensures p in {(s, key)} <==> Place(p) in {CompositeKey(Namespace(s), key)} {
      if Place(p) == Place((s, key)) { PlacesApart(scopes, p, (s, key)); }
    }
    RemoveRefines(data, a, scopes, {(s, key)}, {CompositeKey(Namespace(s), key)});
  }

  /** The prefix test finds the entries of the scope and no others. */
  lemma PrefixIsScope(data: Flat, a: Scoped, scopes: set<Scope>, s: Scope, p: (Scope, string))
    requires Apart(scopes) && Refines(data, a, scopes) && s in scopes && p in a
    ensures StartsWith(Place(p), Namespace(s) + ":") <==> p.0 == s
  {
    if StartsWith(Place(p), Namespace(s) + ":") { PrefixMeets(s, p.0, p.1); }
  }

  lemma ListRefines(data: Flat, a: Scoped, scopes: set<Scope>, s: Scope, now: int)
    requires Apart(scopes) && Refines(data, a, scopes) && s in scopes
    ensures List(data, Namespace(s), now).1 == ScopedList(a, s, now).1
    ensures Refines(List(data, Namespace(s), now).0, ScopedList(a, s, now).0, scopes)
  {
    forall p | p in a ensures StartsWith(Place(p), Namespace(s) + ":") <==> p.0 == s {
      PrefixIsScope(data, a, scopes, s, p);
    }
    hide StartsWith, Apart, Expired, Place, Namespace;
    RemoveRefines(data, a, scopes, ScopedExpired(a, s, now), ExpiredIn(data, Namespace(s), now));
    ListKeys(data, a, scopes, s, now);
  }

  lemma ListKeys(data: Flat, a: Scoped, scopes: set<Scope>, s: Scope, now: int)
    requires Refines(data, a, scopes)
    requires forall p :: p in a ==> (StartsWith(Place(p), Namespace(s) + ":") <==> p.0 == s)
    ensures List(data, Namespace(s), now).1 == ScopedList(a, s, now).1
  {
    hide StartsWith, Place, Namespace, Expired;
    var flat, scoped := List(data, Namespace(s), now).1, ScopedList(a, s, now).1;
    forall key | key in flat ensures key in scoped {
      var ck :| ck in data && StartsWith(ck, Namespace(s) + ":") && !Expired(data[ck], now) && data[ck].key == key;
      var p :| p in a && Place(p) == ck;
    }
    forall key | key in scoped ensures key in flat {
      var p :| p in a && p.0 == s && !Expired(a[p], now) && p.1 == key;
      assert Place(p) in data;
    }
  }

  lemma DeleteNamespaceRefines(data: Flat, a: Scoped, scopes: set<Scope>, s: Scope)
    requires Apart(scopes) && Refines(data, a, scopes) && s in scopes
    ensures Refines(DeleteNamespace(data, Namespace(s)), a - OfScope(a, s), scopes)
  {
    forall p | p in a ensures StartsWith(Place(p), Namespace(s) + ":") <==> p.0 == s {
      PrefixIsScope(data, a, scopes, s, p);
    }
    hide StartsWith, Apart, Place, Namespace;
    RemoveRefines(data, a, scopes, OfScope(a, s), InNamespace(data, Namespace(s)));
  }

  // ---- Over runs ----

  datatype Op =
    | GetOp(scope: Scope, key: string, now: int)
    | SetOp(scope: Scope, entry: Entry)
    | DeleteOp(scope: Scope, key: string)
    | ListOp(scope: Scope, now: int)
    | DeleteNamespaceOp(scope: Scope)

  function ApplyFlat(data: Flat, op: Op): Flat {
    match op
    case GetOp(s, key, now) => Get(data, Namespace(s), key, now).0
    case SetOp(s, entry) => Set(data, Namespace(s), entry)
    case DeleteOp(s, key) => Delete(data, Namespace(s), key)
    case ListOp(s, now) => List(data, Namespace(s), now).0
    case DeleteNamespaceOp(s) => DeleteNamespace(data, Namespace(s))
  }

  function ApplyScoped(a: Scoped, op: Op): Scoped {
    match op
    case GetOp(s, key, now) => ScopedGet(a, s, key, now).0
    case SetOp(s, entry) => a[(s, entry.key) := entry]
    case DeleteOp(s, key) => a - {(s, key)}
    case ListOp(s, now) => ScopedList(a, s, now).0
    case DeleteNamespaceOp(s) => a - OfScope(a, s)
  }

  function AfterFlat(ops: seq<Op>): Flat {
    if ops == [] then map[] else ApplyFlat(AfterFlat(ops[..|ops| - 1]), ops[|ops| - 1])
  }

  function AfterScoped(ops: seq<Op>): Scoped {
    if ops == [] then map[] else ApplyScoped(AfterScoped(ops[..|ops| - 1]), ops[|ops| - 1])
  }

  predicate Within(ops: seq<Op>, scopes: set<Scope>) {
    forall i :: 0 <= i < |ops| ==> ops[i].scope in scopes
  }

  lemma ApplyRefines(data: Flat, a: Scoped, scopes: set<Scope>, op: Op)
    requires Apart(scopes) && Refines(data, a, scopes) && op.scope in scopes
    ensures Refines(ApplyFlat(data, op), ApplyScoped(a, op), scopes)
  {
    hide Refines, Apart, Get, Set, Delete, List, DeleteNamespace, ScopedGet, ScopedList, OfScope;
    match op
    case GetOp(s, key, now) => GetRefines(data, a, scopes, s, key, now);
    case SetOp(s, entry) => SetRefines(data, a, scopes, s, entry);
    case DeleteOp(s, key) => RemoveOne(data, a, scopes, s, key);
    case ListOp(s, now) => ListRefines(data, a, scopes, s, now);
    case DeleteNamespaceOp(s) => DeleteNamespaceRefines(data, a, scopes, s);
  }

  lemma {:induction false} AfterRefines(ops: seq<Op>, scopes: set<Scope>)
    requires Apart(scopes) && Within(ops, scopes)
    ensures Refines(AfterFlat(ops), AfterScoped(ops), scopes)
  {
    if ops != [] {
      hide Refines, Apart, ApplyFlat, ApplyScoped;
      AfterRefines(ops[..|ops| - 1], scopes);
      ApplyRefines(AfterFlat(ops[..|ops| - 1]), AfterScoped(ops[..|ops| - 1]), scopes, ops[|ops| - 1]);
    }
  }

  /** Whatever was done before, reading gives what the store that keeps scopes apart would give. */
  ghost predicate Faithful(scopes: set<Scope>) {
    forall ops, s, key, now | Within(ops, scopes) && s in scopes ::
      Get(AfterFlat(ops), Namespace(s), key, now).1 == ScopedGet(AfterScoped(ops), s, key, now).1
  }

  /** Scopes read back exactly their own writes on every run, if and only if no two of them meet. */
  lemma FaithfulExactly(scopes: set<Scope>)
    ensures Faithful(scopes) <==> Apart(scopes)
  {
    if Apart(scopes) {
      forall ops, s, key, now | Within(ops, scopes) && s in scopes
        ensures Get(AfterFlat(ops), Namespace(s), key, now).1 == ScopedGet(AfterScoped(ops), s, key, now).1
      {
        AfterRefines(ops, scopes);
        GetRefines(AfterFlat(ops), AfterScoped(ops), scopes, s, key, now);
      }
    } else {
      var s, t :| s in scopes && t in scopes && s != t && Meet(s, t);
      CollideExactly(s, t);
      var k, l :| CompositeKey(Namespace(s), k) == CompositeKey(Namespace(t), l);
      LeaksAcross(s, t, k, l);
      assert Within([SetOp(s, Entry(k, "", None))], scopes);
    }
  }

  /** One write in one scope is read in the other. */
  lemma LeaksAcross(s: Scope, t: Scope, k: string, l: string)
    requires s != t && CompositeKey(Namespace(s), k) == CompositeKey(Namespace(t), l)
    ensures var ops := [SetOp(s, Entry(k, "", None))];
            (Get(AfterFlat(ops), Namespace(t), l, 0).1 == Some(Entry(k, "", None))
             && ScopedGet(AfterScoped(ops), t, l, 0).1 == None)
  {
    var op := SetOp(s, Entry(k, "", None));
    assert [op][..0] == [];
    assert AfterFlat([]) == map[] && AfterScoped([]) == map[];
    assert AfterFlat([op]) == ApplyFlat(map[], op) && AfterScoped([op]) == ApplyScoped(map[], op);
  }

  /** A key is listed exactly when reading it gives an entry. */
  lemma ListedExactlyWhenRead(ops: seq<Op>, scopes: set<Scope>, s: Scope, key: string, now: int)
    requires Apart(scopes) && Within(ops, scopes) && s in scopes
    ensures key in List(AfterFlat(ops), Namespace(s), now).1
            <==> Get(AfterFlat(ops), Namespace(s), key, now).1.Some?
  {
    AfterRefines(ops, scopes);
    ListRefines(AfterFlat(ops), AfterScoped(ops), scopes, s, now);
    GetRefines(AfterFlat(ops), AfterScoped(ops), scopes, s, key, now);
    var a := AfterScoped(ops);
    assert (s, key) in a ==> (s, key).1 == key;
    hide AfterFlat, AfterScoped, Refines, Apart, List, Get;
  }

  lemma ScopedOthers(a: Scoped, op: Op, t: Scope, key: string, now: int)
    requires t != op.scope
    ensures ScopedGet(ApplyScoped(a, op), t, key, now).1 == ScopedGet(a, t, key, now).1
  {
  }

  /** Whatever is done in one scope leaves what another reads. */
  lemma ScopesDoNotInterfere(ops: seq<Op>, scopes: set<Scope>, op: Op, t: Scope, key: string, now: int)
    requires Apart(scopes) && Within(ops, scopes) && op.scope in scopes && t in scopes && t != op.scope
    ensures Get(ApplyFlat(AfterFlat(ops), op), Namespace(t), key, now).1
         == Get(AfterFlat(ops), Namespace(t), key, now).1
  {
    hide AfterFlat, AfterScoped, Refines, Apart, ApplyFlat, ApplyScoped, Get, ScopedGet;
    AfterRefines(ops, scopes);
    ApplyRefines(AfterFlat(ops), AfterScoped(ops), scopes, op);
    GetRefines(AfterFlat(ops), AfterScoped(ops), scopes, t, key, now);
    GetRefines(ApplyFlat(AfterFlat(ops), op), ApplyScoped(AfterScoped(ops), op), scopes, t, key, now);
    ScopedOthers(AfterScoped(ops), op, t, key, now);
  }

  // ---- The store as an object ----

  class InMemoryStore {
    var data: Flat

    constructor ()
      ensures data == map[]
    {
      data := map[];
    }

    method Read(namespace: string, key: string, now: int) returns (entry: Option<Entry>)
      modifies this
      ensures (data, entry) == Get(old(data), namespace, key, now)
    {
      var ck := CompositeKey(namespace, key);
      if ck !in data {
        return None;
      }
      if data[ck].expiresAt.Some? && data[ck].expiresAt.value <= now {
        data := data - {ck};
        return None;
      }
      return Some(data[ck]);
    }

    method Write(namespace: string, entry: Entry)
      modifies this
      ensures data == Set(old(data), namespace, entry)
    {
      data := data[CompositeKey(namespace, entry.key) := entry];
    }

    method Remove(namespace: string, key: string)
      modifies this
      ensures data == Delete(old(data), namespace, key)
    {
      data := data - {CompositeKey(namespace, key)};
    }

    /** The loop over all entries collects the live keys and the expired ones, then deletes the latter. */
    method ListKeys(namespace: string, now: int) returns (keys: set<string>)
      modifies this
      ensures (data, keys) == List(old(data), namespace, now)
    {
      hide LiveKeys, DeadKeys;
      var toDelete: set<string> := {};
      keys := {};
      var rest := data.Keys;
      ghost var seen: set<string> := {};
      NoKeys(data, namespace, now);
      while rest != {}
        invariant seen == data.Keys - rest && rest <= data.Keys && data == old(data)
        invariant toDelete == DeadKeys(data, seen, namespace, now)
        invariant keys == LiveKeys(data, seen, namespace, now)
        decreases |rest|
      {
        var ck :| ck in rest;
        OneMoreKey(data, seen, ck, namespace, now);
        rest := rest - {ck};
        seen := seen + {ck};
        if StartsWith(ck, namespace + ":") {
          if data[ck].expiresAt.Some? && data[ck].expiresAt.value <= now {
            toDelete := toDelete + {ck};
          } else {
            keys := keys + {data[ck].key};
          }
        }
      }
      AllKeys(data, namespace, now);
      assert seen == data.Keys;
      data := data - toDelete;
    }

    method RemoveNamespace(namespace: string)
      modifies this
      ensures data == DeleteNamespace(old(data), namespace)
    {
      var prefix := namespace + ":";
      var toDelete: set<string> := {};
      var rest := data.Keys;
      while rest != {}
        invariant rest <= data.Keys && data == old(data)
        invariant toDelete == InNamespace(data, namespace) - rest
        decreases |rest|
      {
        var ck :| ck in rest;
        rest := rest - {ck};
        if StartsWith(ck, prefix) {
          toDelete := toDelete + {ck};
        }
      }
      data := data - toDelete;
    }
  }

  function LiveKeys(data: Flat, cks: set<string>, namespace: string, now: int): set<string> {
    set ck | ck in cks && ck in data && StartsWith(ck, namespace + ":") && !Expired(data[ck], now) :: data[ck].key
  }

  function DeadKeys(data: Flat, cks: set<string>, namespace: string, now: int): set<string> {
    set ck | ck in cks && ck in data && StartsWith(ck, namespace + ":") && Expired(data[ck], now)
  }

  lemma NoKeys(data: Flat, namespace: string, now: int)
    ensures LiveKeys(data, {}, namespace, now) == {} && DeadKeys(data, {}, namespace, now) == {}
  {
  }

  lemma OneMoreKey(data: Flat, seen: set<string>, ck: string, namespace: string, now: int)
    requires ck in data
    ensures LiveKeys(data, seen + {ck}, namespace, now)
         == LiveKeys(data, seen, namespace, now)
            + if StartsWith(ck, namespace + ":") && !Expired(data[ck], now) then {data[ck].key} else {}
    ensures DeadKeys(data, seen + {ck}, namespace, now)
         == DeadKeys(data, seen, namespace, now)
            + if StartsWith(ck, namespace + ":") && Expired(data[ck], now) then {ck} else {}
  {
    hide StartsWith, Expired;
  }

  lemma AllKeys(data: Flat, namespace: string, now: int)
    ensures List(data, namespace, now).0 == data - DeadKeys(data, data.Keys, namespace, now)
    ensures List(data, namespace, now).1 == LiveKeys(data, data.Keys, namespace, now)
  {
    hide StartsWith, Expired;
    assert ExpiredIn(data, namespace, now) == DeadKeys(data, data.Keys, namespace, now);
    var listed, live := List(data, namespace, now).1, LiveKeys(data, data.Keys, namespace, now);
    forall key | key in listed ensures key in live {
      var ck :| ck in data && StartsWith(ck, namespace + ":") && !Expired(data[ck], now) && data[ck].key == key;
      assert ck in data.Keys;
    }
    forall key | key in live ensures key in listed {
      var ck :| ck in data.Keys && ck in data && StartsWith(ck, namespace + ":") && !Expired(data[ck], now)
                && data[ck].key == key;
    }
  }

  /** `ScopedMemory.set`: an empty key is refused, a negative lifetime stores nothing, and none or zero
      never expires. */
  method SetScoped(store: InMemoryStore, s: Scope, key: string, value: string, ttl: Option<int>, now: int)
    returns (ok: bool)
    modifies store
    ensures ok <==> key != ""
    ensures store.data == if key == "" || ttl.GetOr(0) < 0 then old(store.data)
                          else Set(old(store.data), Namespace(s),
                                   Entry(key, value, if ttl.GetOr(0) > 0 then Some(now + ttl.value) else None))
  {
    if key == "" {
      return false;
    }
    if ttl.Some? && ttl.value < 0 {
      return true;
    }
    var expiresAt: Option<int> := None;
    if ttl.Some? && ttl.value > 0 {
      expiresAt := Some(now + ttl.value);
    }
    store.Write(Namespace(s), Entry(key, value, expiresAt));
    return true;
  }
}
