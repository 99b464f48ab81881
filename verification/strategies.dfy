/** The routing strategies: stable orderings of the available providers, and a rotation. */
module Strategies {
  import opened Wrappers

  datatype Rates = Rates(input: real, output: real)

  datatype Registration = Registration(name: string, priority: int, rates: Option<Rates>)

  /** What a strategy compares. A provider without a rank goes last. */
  type Rank = Option<real>

  predicate Less(a: Rank, b: Rank) {
    a.Some? && (b.None? || a.value < b.value)
  }

  datatype Order = ByPriority | ByCost

  function RankOf(order: Order, p: Registration): Rank {
    match order
    case ByPriority => Some(p.priority as real)
    case ByCost => if p.rates.Some? then Some(p.rates.value.input + p.rates.value.output) else None
  }

  /** Puts a provider behind everything that does not rank after it. */
  function Insert(order: Order, sorted: seq<Registration>, p: Registration): seq<Registration> {
    if sorted == [] then [p]
    else
      var n := |sorted| - 1;
      if Less(RankOf(order, p), RankOf(order, sorted[n])) then Insert(order, sorted[..n], p) + [sorted[n]]
      else sorted + [p]
  }

  /** The stable sort of the library. */
  function Sort(order: Order, ps: seq<Registration>): seq<Registration> {
    if ps == [] then [] else Insert(order, Sort(order, ps[..|ps| - 1]), ps[|ps| - 1])
  }

  predicate Sorted(order: Order, ps: seq<Registration>) {
    forall i, j :: 0 <= i < j < |ps| ==> !Less(RankOf(order, ps[j]), RankOf(order, ps[i]))
  }

  /** The providers of one rank, in the order they stand. */
  function OfRank(order: Order, ps: seq<Registration>, rank: Rank): seq<Registration> {
    if ps == [] then []
    else
      var n := |ps| - 1;
      OfRank(order, ps[..n], rank) + if RankOf(order, ps[n]) == rank then [ps[n]] else []
  }

  lemma {:induction false} OfRankMembers(order: Order, ps: seq<Registration>, rank: Rank, p: Registration)
    ensures p in OfRank(order, ps, rank) <==> p in ps && RankOf(order, p) == rank
  {
    hide RankOf;
    if ps != [] {
      var n := |ps| - 1;
      OfRankMembers(order, ps[..n], rank, p);
      assert ps == ps[..n] + [ps[n]];
    }
  }

  lemma OfRankAppend(order: Order, ps: seq<Registration>, p: Registration, rank: Rank)
    ensures OfRank(order, ps + [p], rank) == OfRank(order, ps, rank) + if RankOf(order, p) == rank then [p] else []
  {
    assert (ps + [p])[..|ps|] == ps;
    hide RankOf;
  }

  predicate Permutes(a: seq<Registration>, b: seq<Registration>) {
    multiset(a) == multiset(b)
  }

  lemma SortedAppend(order: Order, ps: seq<Registration>, p: Registration)
    requires Sorted(order, ps) && forall q :: q in ps ==> !Less(RankOf(order, p), RankOf(order, q))
    ensures Sorted(order, ps + [p])
  {
    hide RankOf, Less;
  }

  lemma LessTransitive(a: Rank, b: Rank, c: Rank)
    ensures !Less(a, b) && !Less(b, c) ==> !Less(a, c)
    ensures Less(a, b) ==> !Less(b, a)
  {
  }

  lemma LastIsGreatest(order: Order, ps: seq<Registration>, p: Registration)
    requires Sorted(order, ps) && ps != [] && !Less(RankOf(order, p), RankOf(order, ps[|ps| - 1]))
    ensures forall q :: q in ps ==> !Less(RankOf(order, p), RankOf(order, q))
  {
    forall q | q in ps ensures !Less(RankOf(order, p), RankOf(order, q)) {
      var i :| 0 <= i < |ps| && ps[i] == q;
      LessTransitive(RankOf(order, p), RankOf(order, ps[|ps| - 1]), RankOf(order, q));
    }
  }

  lemma InsertMembers(order: Order, sorted: seq<Registration>, p: Registration, q: Registration)
    requires Permutes(Insert(order, sorted, p), sorted + [p]) && q in Insert(order, sorted, p)
    ensures q in sorted || q == p
  {
    assert q in multiset(Insert(order, sorted, p));
    assert q in multiset(sorted + [p]);
    hide Insert;
  }

  lemma {:induction false} InsertPermutes(order: Order, sorted: seq<Registration>, p: Registration)
    ensures Permutes(Insert(order, sorted, p), sorted + [p])
  {
    if sorted != [] {
      var n := |sorted| - 1;
      assert sorted == sorted[..n] + [sorted[n]];
      InsertPermutes(order, sorted[..n], p);
      hide RankOf, Less;
    }
  }

  lemma {:induction false} InsertSorts(order: Order, sorted: seq<Registration>, p: Registration)
    requires Sorted(order, sorted)
    ensures Sorted(order, Insert(order, sorted, p))
  {
    if sorted != [] {
      var n := |sorted| - 1;
      var last, before := sorted[n], sorted[..n];
      if Less(RankOf(order, p), RankOf(order, last)) {
        InsertSorts(order, before, p);
        InsertPermutes(order, before, p);
        LessTransitive(RankOf(order, p), RankOf(order, last), RankOf(order, p));
        forall q | q in Insert(order, before, p) ensures !Less(RankOf(order, last), RankOf(order, q)) {
          InsertMembers(order, before, p, q);
          if q in before {
            var i :| 0 <= i < n && sorted[i] == q;
            assert !Less(RankOf(order, sorted[n]), RankOf(order, sorted[i]));
          }
        }
        SortedAppend(order, Insert(order, before, p), last);
      } else {
        LastIsGreatest(order, sorted, p);
        SortedAppend(order, sorted, p);
      }
      hide RankOf, Less, Permutes, Sorted;
    }
  }

  lemma {:induction false} NoneOfRank(order: Order, ps: seq<Registration>, p: Registration)
    requires forall q :: q in ps ==> RankOf(order, q) != RankOf(order, p)
    ensures OfRank(order, ps, RankOf(order, p)) == []
  {
    if ps != [] { NoneOfRank(order, ps[..|ps| - 1], p); }
  }

  /** Inserting leaves the providers of each rank in order, with the new one last among its own. */
  lemma {:induction false} InsertIsStable(order: Order, sorted: seq<Registration>, p: Registration, rank: Rank)
    ensures OfRank(order, Insert(order, sorted, p), rank) == OfRank(order, sorted + [p], rank)
  {
    hide RankOf, OfRank;
    if sorted == [] {
      assert [] + [p] == [p];
    } else {
      var n := |sorted| - 1;
      var last, before := sorted[n], sorted[..n];
      assert sorted == before + [last];
      if Less(RankOf(order, p), RankOf(order, last)) {
        InsertIsStable(order, before, p, rank);
        LessTransitive(RankOf(order, p), RankOf(order, last), RankOf(order, p));
        OfRankAppend(order, Insert(order, before, p), last, rank);
        OfRankAppend(order, before, p, rank);
        OfRankAppend(order, before, last, rank);
        OfRankAppend(order, sorted, p, rank);
      }
    }
  }

  /** Sorting permutes, orders by rank, and keeps the order of providers of equal rank. */
  lemma {:induction false} SortIsStable(order: Order, ps: seq<Registration>, rank: Rank)
    ensures Sorted(order, Sort(order, ps))
    ensures Permutes(Sort(order, ps), ps)
    ensures OfRank(order, Sort(order, ps), rank) == OfRank(order, ps, rank)
  {
    if ps != [] {
      var n := |ps| - 1;
      var before, last := ps[..n], ps[n];
      assert ps == before + [last];
      SortIsStable(order, before, rank);
      InsertSorts(order, Sort(order, before), last);
      InsertPermutes(order, Sort(order, before), last);
      InsertIsStable(order, Sort(order, before), last, rank);
      OfRankAppend(order, Sort(order, before), last, rank);
      OfRankAppend(order, before, last, rank);
      hide RankOf, Sorted, OfRank, Insert;
    }
  }

  lemma CastOrder(a: int, b: int)
    ensures a as real <= b as real <==> a <= b
  {
  }

  /** Sorted by priority, the lower number comes first. */
  lemma LowestPriorityFirst(ps: seq<Registration>, i: nat, j: nat)
    requires i < j < |Sort(ByPriority, ps)|
    ensures Sort(ByPriority, ps)[i].priority <= Sort(ByPriority, ps)[j].priority
  {
    SortIsStable(ByPriority, ps, None);
    var sorted := Sort(ByPriority, ps);
    assert !Less(RankOf(ByPriority, sorted[j]), RankOf(ByPriority, sorted[i]));
    CastOrder(sorted[i].priority, sorted[j].priority);
  }

  /** Sorted by cost, the lower sum of the two rates comes first, and a provider without rates after all that
      have them. */
  lemma CheapestFirst(ps: seq<Registration>, i: nat, j: nat)
    requires i < j < |Sort(ByCost, ps)|
    ensures var p, q := Sort(ByCost, ps)[i], Sort(ByCost, ps)[j];
            && (p.rates.None? ==> q.rates.None?)
            && (p.rates.Some? && q.rates.Some? ==>
                  p.rates.value.input + p.rates.value.output <= q.rates.value.input + q.rates.value.output)
  {
    SortIsStable(ByCost, ps, None);
    var sorted := Sort(ByCost, ps);
    assert !Less(RankOf(ByCost, sorted[j]), RankOf(ByCost, sorted[i]));
  }

  predicate SameByRank(order: Order, a: seq<Registration>, b: seq<Registration>, rank: Rank) {
    OfRank(order, a, rank) == OfRank(order, b, rank)
  }

  /** Nothing else is sorted and stable: whatever sort the library uses, this is its result. */
  lemma {:induction false} StableSortIsUnique(order: Order, a: seq<Registration>, b: seq<Registration>)
    requires Sorted(order, a) && Sorted(order, b) && forall rank :: SameByRank(order, a, b, rank)
    ensures a == b
  {
    if a == [] || b == [] {
      if a != [] { InOther(order, a, b, a[0]); }
      if b != [] {
        forall rank ensures SameByRank(order, b, a, rank) { assert SameByRank(order, a, b, rank); }
        InOther(order, b, a, b[0]);
      }
    } else {
      SameLast(order, a, b);
      var n, m := |a| - 1, |b| - 1;
      forall rank ensures SameByRank(order, a[..n], b[..m], rank) {
        assert SameByRank(order, a, b, rank);
        ButLast(order, a, rank);
        ButLast(order, b, rank);
      }
      hide SameByRank, RankOf, Less;
      StableSortIsUnique(order, a[..n], b[..m]);
      assert a == a[..n] + [a[n]] && b == b[..m] + [b[m]];
    }
  }

  lemma InOther(order: Order, a: seq<Registration>, b: seq<Registration>, p: Registration)
    requires p in a && forall rank :: SameByRank(order, a, b, rank)
    ensures p in b
  {
    var rank := RankOf(order, p);
    assert SameByRank(order, a, b, rank);
    OfRankMembers(order, a, rank, p);
    OfRankMembers(order, b, rank, p);
    hide OfRank;
  }

  lemma ButLast(order: Order, ps: seq<Registration>, rank: Rank)
    requires ps != []
    ensures var n, same := |ps| - 1, OfRank(order, ps, rank);
            if RankOf(order, ps[n]) == rank
            then same != [] && same[|same| - 1] == ps[n] && OfRank(order, ps[..n], rank) == same[..|same| - 1]
            else OfRank(order, ps[..n], rank) == same
  {
    hide RankOf;
  }

  /** Two ends that rank alike are the same, and in sorted lists they rank alike. */
  lemma SameLast(order: Order, a: seq<Registration>, b: seq<Registration>)
    requires a != [] && b != [] && Sorted(order, a) && Sorted(order, b)
    requires forall rank :: SameByRank(order, a, b, rank)
    ensures a[|a| - 1] == b[|b| - 1]
  {
    var p, q := a[|a| - 1], b[|b| - 1];
    InOther(order, a, b, p);
    forall rank ensures SameByRank(order, b, a, rank) { assert SameByRank(order, a, b, rank); }
    InOther(order, b, a, q);
    LastAgainst(order, a, q);
    LastAgainst(order, b, p);
    AlikeRanks(RankOf(order, p), RankOf(order, q));
    var rank := RankOf(order, p);
    assert SameByRank(order, a, b, rank);
    ButLast(order, a, rank);
    ButLast(order, b, rank);
    hide RankOf, Sorted, OfRank, Less;
  }

  lemma LastAgainst(order: Order, ps: seq<Registration>, q: Registration)
    requires Sorted(order, ps) && q in ps
    ensures !Less(RankOf(order, ps[|ps| - 1]), RankOf(order, q))
  {
    var i :| 0 <= i < |ps| && ps[i] == q;
    assert i < |ps| - 1 ==> !Less(RankOf(order, ps[|ps| - 1]), RankOf(order, ps[i]));
  }

  lemma AlikeRanks(a: Rank, b: Rank)
    requires !Less(a, b) && !Less(b, a)
    ensures a == b
  {
  }

  // ---- Round robin ----

  function Rotate(ps: seq<Registration>, index: nat): seq<Registration>
    requires index <= |ps|
  {
    ps[index..] + ps[..index]
  }

  lemma RotatePermutes(ps: seq<Registration>, index: nat)
    requires index <= |ps|
    ensures Permutes(Rotate(ps, index), ps)
  {
    assert ps == ps[..index] + ps[index..];
  }

  class RoundRobin {
    var counter: nat

    constructor ()
      ensures counter == 0
    {
      counter := 0;
    }

    /** The source is only called with providers. */
    method Next(providers: seq<Registration>) returns (result: seq<Registration>)
      requires providers != []
      modifies this
      ensures counter == old(counter) + 1
      ensures result == Rotate(providers, old(counter) % |providers|)
    {
      var len := |providers|;
      var index := counter % len;
      counter := counter + 1;
      result := [];
      for i := 0 to len
        invariant |result| == i
        invariant forall k :: 0 <= k < i ==> result[k] == providers[(index + k) % len]
      {
        result := result + [providers[(index + i) % len]];
      }
      forall k | 0 <= k < len ensures result[k] == Rotate(providers, index)[k] {
        WrapsOnce(index, k, len);
      }
    }
  }

  lemma WrapsOnce(index: nat, k: nat, len: nat)
    requires index < len && k < len
    ensures (index + k) % len == if index + k < len then index + k else index + k - len
  {
  }

  /** The position a call starts at. */
  function FirstOf(counter: nat, turn: nat, len: nat): nat
    requires len > 0
  {
    (counter + turn) % len
  }

  /** Among as many calls in a row as there are providers, exactly one starts with a given provider. */
  lemma RoundRobinIsFair(counter: nat, len: nat, j: nat) returns (turn: nat)
    requires j < len
    ensures turn < len && FirstOf(counter, turn, len) == j
    ensures forall other: nat :: other < len && FirstOf(counter, other, len) == j ==> other == turn
  {
    var first := counter % len;
    turn := if j >= first then j - first else j + len - first;
    TurnStarts(counter, len, turn);
    forall other: nat | other < len && FirstOf(counter, other, len) == j ensures other == turn {
      TurnStarts(counter, len, other);
      hide FirstOf;
    }
  }

  lemma TurnStarts(counter: nat, len: nat, turn: nat)
    requires turn < len
    ensures FirstOf(counter, turn, len)
         == if counter % len + turn < len then counter % len + turn else counter % len + turn - len
  {
    var q, r := counter / len, counter % len;
    assert counter == q * len + r;
    if r + turn < len {
      ModUnique(counter + turn, len, q, r + turn);
    } else {
      ModUnique(counter + turn, len, q + 1, r + turn - len);
    }
  }

  lemma ModUnique(x: nat, len: nat, q: nat, r: nat)
    requires r < len && x == q * len + r
    ensures x % len == r
  {
    var p := x / len;
    assert x == p * len + x % len;
    TimesOrder(p + 1, q, len);
    TimesOrder(q + 1, p, len);
  }

  lemma TimesOrder(x: int, y: int, d: int)
    requires d > 0
    ensures x <= y ==> x * d <= y * d
  {
  }
}
