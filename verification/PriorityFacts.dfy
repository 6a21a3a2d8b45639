/** Facts about the plain priority queues: what each operation does to the set of queued threads,
    to their order and to their priorities. */
module PriorityFacts {
  import opened PriorityOrder

  /** The queued threads, with their number of occurrences. */
  ghost function Bag<T>(q: seq<Entry<T>>): multiset<T> {
    multiset(Threads(q))
  }

  lemma {:induction false} BagConcat<T>(a: seq<Entry<T>>, b: seq<Entry<T>>)
    ensures Bag(a + b) == Bag(a) + Bag(b)
  {
    assert Threads(a + b) == Threads(a) + Threads(b);
  }

  lemma {:induction false} BagEmpty<T>()
    ensures Bag<T>([]) == multiset{}
  {
  }

  lemma {:induction false} BagOne<T>(e: Entry<T>)
    ensures Bag([e]) == multiset{e.thread}
  {
    assert Threads([e]) == [e.thread];
  }

  lemma {:induction false} BagInsert<T>(q: seq<Entry<T>>, p: int, t: T)
    ensures Bag(Insert(q, p, t)) == Bag(q) + multiset{t}
    ensures |Insert(q, p, t)| == |q| + 1
  {
    hide Bag;
    var k := Rank(q, p);
    BagConcat(q[..k] + [Entry(t, p)], q[k..]);
    BagConcat(q[..k], [Entry(t, p)]);
    BagOne(Entry(t, p));
    BagConcat(q[..k], q[k..]);
    assert q[..k] + q[k..] == q;
  }

  lemma {:induction false} BagQueued<T>(q: seq<Entry<T>>, t: T)
    ensures Queued(q, t) <==> t in Bag(q)
  {
    if t in Bag(q) {
      assert t in Threads(q);
      var i :| 0 <= i < |q| && Threads(q)[i] == t;
      assert IndexOf(q, t) <= i;
    }
    if Queued(q, t) {
      assert Threads(q)[IndexOf(q, t)] == t;
    }
  }

  lemma {:induction false} BagDelete<T>(q: seq<Entry<T>>, t: T)
    ensures Bag(Delete(q, t)) == Bag(q) - multiset{t}
    ensures |Delete(q, t)| == if Queued(q, t) then |q| - 1 else |q|
  {
    hide Bag;
    var k := IndexOf(q, t);
    if k < |q| {
      BagConcat(q[..k], q[k + 1..]);
      BagConcat(q[..k], q[k..]);
      assert q[..k] + q[k..] == q && q[k..][1..] == q[k + 1..];
      BagTail(q[k..]);
    } else {
      BagQueued(q, t);
    }
  }

  lemma {:induction false} BagFavorite<T>(q: seq<Entry<T>>, t: T)
    requires Queued(q, t)
    ensures Bag(Favorite(q, t)) == Bag(q) && |Favorite(q, t)| == |q|
  {
    BagQueued(q, t);
    BagDelete(q, t);
    BagInsert(Delete(q, t), FavoritePrio(Delete(q, t)), t);
  }

  lemma {:induction false} BagIncrease<T>(q: seq<Entry<T>>)
    ensures Bag(Increase(q)) == Bag(q)
  {
    assert Threads(Increase(q)) == Threads(q);
  }

  lemma {:induction false} BagTail<T>(q: seq<Entry<T>>)
    requires q != []
    ensures Bag(q) == Bag(q[1..]) + multiset{q[0].thread}
    ensures Bag(q) == Bag(q[..|q| - 1]) + multiset{q[|q| - 1].thread}
  {
    assert q == [q[0]] + q[1..] == q[..|q| - 1] + [q[|q| - 1]];
    BagConcat([q[0]], q[1..]);
    BagConcat(q[..|q| - 1], [q[|q| - 1]]);
    BagOne(q[0]);
    BagOne(q[|q| - 1]);
  }

  /** Waking moves threads from one queue to the other and loses none. */
  lemma {:induction false} BagWake<T>(ready: seq<Entry<T>>, q: seq<Entry<T>>, woken: set<T>, base: map<T, int>)
    ensures Bag(Keep(q, woken)) + Bag(Wake(ready, q, woken, base)) == Bag(q) + Bag(ready)
    ensures |Wake(ready, q, woken, base)| >= |ready|
  {
    hide Bag, Insert;
    if q == [] {
      BagEmpty<T>();
    } else {
      var p, last := q[..|q| - 1], q[|q| - 1];
      BagWake(ready, p, woken, base);
      BagTail(q);
      var k, w := Bag(Keep(p, woken)), Bag(Wake(ready, p, woken, base));
      assert (Bag(p) + multiset{last.thread}) + Bag(ready) == (Bag(p) + Bag(ready)) + multiset{last.thread};
      if last.thread in woken {
        BagInsert(Wake(ready, p, woken, base), BaseOf(base, last.thread) + 1, last.thread);
        assert k + (w + multiset{last.thread}) == (k + w) + multiset{last.thread};
      } else {
        BagConcat(Keep(p, woken), [last]);
        BagOne(last);
        assert (k + multiset{last.thread}) + w == (k + w) + multiset{last.thread};
      }
    }
  }

  lemma {:induction false} BagKeep<T>(q: seq<Entry<T>>, woken: set<T>, t: T)
    ensures Bag(Keep(q, woken))[t] == if t in woken then 0 else Bag(q)[t]
  {
    if q != [] {
      var p, last := q[..|q| - 1], q[|q| - 1];
      BagKeep(p, woken, t);
      BagTail(q);
      if last.thread !in woken {
        BagConcat(Keep(p, woken), [last]);
        BagOne(last);
      }
    }
  }

  // ---------------------------------------------------------------------------------------
  // Order and priorities

  lemma {:induction false} InsertDescending<T>(q: seq<Entry<T>>, p: int, t: T)
    requires Descending(q)
    ensures Descending(Insert(q, p, t))
  {
    var k, r := Rank(q, p), Insert(q, p, t);
    forall i, j | 0 <= i < j < |r| ensures r[i].prio >= r[j].prio {
      if i != k && j != k {
        assert q[if i < k then i else i - 1].prio >= q[if j < k then j else j - 1].prio;
      } else if i == k {
        assert q[k].prio >= q[j - 1].prio;
      }
    }
  }

  lemma {:induction false} DeleteDescending<T>(q: seq<Entry<T>>, t: T)
    requires Descending(q)
    ensures Descending(Delete(q, t))
  {
  }

  lemma {:induction false} FavoriteOnTop<T>(q: seq<Entry<T>>, t: T)
    requires Descending(q) && Queued(q, t)
    ensures Descending(Favorite(q, t)) && Favorite(q, t)[0].thread == t
    ensures |q| > 1 ==> Favorite(q, t) == [Entry(t, FavoritePrio(Delete(q, t)))] + Delete(q, t)
  {
    if |q| > 1 {
      var rest := Delete(q, t);
      DeleteDescending(q, t);
      InsertDescending(rest, FavoritePrio(rest), t);
      BagDelete(q, t);
      InsertTop(rest, FavoritePrio(rest), t);
    }
  }

  /** A thread that is more than one above all the others. */
  predicate FarAhead<T(==)>(q: seq<Entry<T>>, t: T) {
    |q| > 1 && q[0].thread == t && q[0].prio > q[1].prio + 1
  }

  /** Favouring a thread lowers its priority exactly when it is more than one above all the others. */
  lemma {:induction false} FavoriteLowers<T>(q: seq<Entry<T>>, t: T)
    requires Descending(q) && Queued(q, t)
    ensures Queued(Favorite(q, t), t)
    ensures PrioOf(Favorite(q, t), t) < PrioOf(q, t) <==> FarAhead(q, t)
  {
    FavoriteOnTop(q, t);
    if |q| > 1 && q[0].thread == t {
      DeleteFirst(q);
    }
  }

  lemma {:induction false} InsertTop<T>(q: seq<Entry<T>>, p: int, t: T)
    requires q != [] ==> q[0].prio < p
    ensures Insert(q, p, t) == [Entry(t, p)] + q
  {
    assert q[..0] + [Entry(t, p)] + q[0..] == [Entry(t, p)] + q;
  }

  /** An insertion leaves everybody's priority alone and pushes back exactly those of lower priority. */
  lemma {:induction false} InsertOthers<T>(q: seq<Entry<T>>, p: int, t: T, u: T)
    requires Descending(q) && Queued(q, u) && u != t
    ensures var r := Insert(q, p, t);
      && Queued(r, u) && PrioOf(r, u) == PrioOf(q, u)
      && IndexOf(r, u) == IndexOf(q, u) + if p > PrioOf(q, u) then 1 else 0
  {
    var r, k, i := Insert(q, p, t), Rank(q, p), IndexOf(q, u);
    var i' := if i < k then i else i + 1;
    assert r[i'] == q[i];
    forall m | 0 <= m < i' ensures r[m].thread != u {
      if m != k { assert r[m] == q[if m < k then m else m - 1]; }
    }
    FirstIndex(r, u, i');
    if i >= k { assert q[k].prio >= q[i].prio; }
  }

  lemma {:induction false} FirstIndex<T>(q: seq<Entry<T>>, t: T, k: nat)
    requires k < |q| && q[k].thread == t && forall m :: 0 <= m < k ==> q[m].thread != t
    ensures IndexOf(q, t) == k
  {
  }

  /** Deleting a thread keeps the others' priorities and order. */
  lemma {:induction false} DeleteOthers<T>(q: seq<Entry<T>>, t: T, u: T)
    requires Queued(q, u) && u != t
    ensures var r := Delete(q, t);
      && Queued(r, u) && PrioOf(r, u) == PrioOf(q, u)
      && IndexOf(r, u) == IndexOf(q, u) - if Queued(q, t) && IndexOf(q, t) < IndexOf(q, u) then 1 else 0
  {
    var r, k, i := Delete(q, t), IndexOf(q, t), IndexOf(q, u);
    if k < |q| {
      var i' := if i < k then i else i - 1;
      assert r[i'] == q[i];
      forall m | 0 <= m < i' ensures r[m].thread != u {
        assert r[m] == q[if m < k then m else m + 1];
      }
      FirstIndex(r, u, i');
    }
  }

  lemma {:induction false} IncreaseOthers<T>(q: seq<Entry<T>>, u: T)
    requires Queued(q, u)
    ensures var r := Increase(q);
      Queued(r, u) && PrioOf(r, u) == PrioOf(q, u) + 1 && IndexOf(r, u) == IndexOf(q, u)
  {
    FirstIndex(Increase(q), u, IndexOf(q, u));
  }

  lemma {:induction false} IncreaseDescending<T>(q: seq<Entry<T>>)
    requires Descending(q)
    ensures Descending(Increase(q))
  {
  }

  lemma {:induction false} KeepDescending<T>(q: seq<Entry<T>>, woken: set<T>)
    requires Descending(q)
    ensures Descending(Keep(q, woken))
    ensures q != [] ==> forall i :: 0 <= i < |Keep(q, woken)| ==> Keep(q, woken)[i].prio >= q[|q| - 1].prio
  {
    if q != [] {
      var p := q[..|q| - 1];
      KeepDescending(p, woken);
      if p != [] { assert p[|p| - 1].prio >= q[|q| - 1].prio; }
    }
  }

  lemma {:induction false} WakeDescending<T>(ready: seq<Entry<T>>, q: seq<Entry<T>>, woken: set<T>, base: map<T, int>)
    requires Descending(ready)
    ensures Descending(Wake(ready, q, woken, base))
  {
    hide Descending, Insert;
    if q != [] {
      var p, last := q[..|q| - 1], q[|q| - 1].thread;
      WakeDescending(ready, p, woken, base);
      InsertDescending(Wake(ready, p, woken, base), BaseOf(base, last) + 1, last);
    }
  }

  /** The last of distinct threads is found at the end only. */
  lemma {:induction false} DeleteLast<T>(q: seq<Entry<T>>)
    requires q != [] && Bag(q)[q[|q| - 1].thread] == 1
    ensures Delete(q, q[|q| - 1].thread) == q[..|q| - 1] && Queued(q, q[|q| - 1].thread)
  {
    var n, t := |q| - 1, q[|q| - 1].thread;
    BagTail(q);
    BagQueued(q[..n], t);
    forall i | 0 <= i < n ensures q[i].thread != t {
      assert q[..n][i] == q[i];
      assert !Queued(q[..n], t);
    }
    FirstIndex(q, t, n);
  }

  lemma {:induction false} DeleteFirst<T>(q: seq<Entry<T>>)
    requires q != []
    ensures Delete(q, q[0].thread) == q[1..] && Queued(q, q[0].thread)
  {
  }

  // ---------------------------------------------------------------------------------------
  // What the operations mean

  lemma {:induction false} RankUnique<T>(q: seq<Entry<T>>, p: int, k: nat)
    requires k <= |q|
    requires forall i :: 0 <= i < k ==> q[i].prio >= p
    requires k < |q| ==> q[k].prio < p
    ensures Rank(q, p) == k
  {
  }

  /** Any queue in order that is q with one more entry, behind everybody of its priority, is the
      result of the insertion: first come first served among equals leaves no other choice. */
  lemma {:induction false} InsertUnique<T>(q: seq<Entry<T>>, p: int, t: T, r: seq<Entry<T>>, k: nat)
    requires Descending(r) && k < |r| && r[k] == Entry(t, p) && q == r[..k] + r[k + 1..]
    requires k + 1 < |r| ==> r[k + 1].prio != p
    ensures r == Insert(q, p, t)
  {
    assert forall i :: 0 <= i < k ==> q[i] == r[i];
    assert forall i :: k <= i < |q| ==> q[i] == r[i + 1];
    forall i | 0 <= i < k ensures q[i].prio >= p {
      assert r[i].prio >= r[k].prio;
    }
    RankUnique(q, p, k);
  }

  lemma {:induction false} IndexAppend<T>(q: seq<Entry<T>>, e: Entry<T>, t: T)
    ensures IndexOf(q + [e], t) ==
      if Queued(q, t) then IndexOf(q, t) else if e.thread == t then |q| else |q| + 1
  {
    if Queued(q, t) {
      FirstIndex(q + [e], t, IndexOf(q, t));
    } else if e.thread == t {
      FirstIndex(q + [e], t, |q|);
    } else {
      var r := q + [e];
      assert forall i :: 0 <= i < |q| ==> r[i] == q[i];
      assert r[|q|] == e;
    }
  }

  /** A thread that is not woken stays queued, at its priority. */
  lemma {:induction false} KeepOne<T>(q: seq<Entry<T>>, woken: set<T>, u: T)
    requires u !in woken
    ensures Queued(Keep(q, woken), u) <==> Queued(q, u)
    ensures Queued(q, u) ==> PrioOf(Keep(q, woken), u) == PrioOf(q, u)
  {
    if q != [] {
      var p, last := q[..|q| - 1], q[|q| - 1];
      assert q == p + [last];
      KeepOne(p, woken, u);
      IndexAppend(p, last, u);
      IndexAppend(Keep(p, woken), last, u);
    }
  }

  /** The threads that are not woken keep their order. */
  lemma {:induction false} KeepOrder<T>(q: seq<Entry<T>>, woken: set<T>, u: T, v: T)
    requires u !in woken && v !in woken && Queued(q, u) && Queued(q, v)
    ensures Queued(Keep(q, woken), u) && Queued(Keep(q, woken), v)
    ensures IndexOf(Keep(q, woken), u) < IndexOf(Keep(q, woken), v) <==> IndexOf(q, u) < IndexOf(q, v)
  {
    KeepOne(q, woken, u);
    KeepOne(q, woken, v);
    var p, last := q[..|q| - 1], q[|q| - 1];
    assert q == p + [last];
    forall w | w == u || w == v ensures
      && IndexOf(q, w) == (if Queued(p, w) then IndexOf(p, w) else |p|)
      && (last.thread !in woken ==>
            IndexOf(Keep(q, woken), w) == if Queued(p, w) then IndexOf(Keep(p, woken), w) else |Keep(p, woken)|)
    {
      KeepOne(p, woken, w);
      IndexAppend(p, last, w);
      IndexAppend(Keep(p, woken), last, w);
    }
    if Queued(p, u) && Queued(p, v) {
      KeepOrder(p, woken, u, v);
    }
  }

  /** One more entry of the walk over a waiting queue. */
  lemma {:induction false} KeepWakeNext<T>(q: seq<Entry<T>>, i: nat, woken: set<T>,
                                           ready: seq<Entry<T>>, base: map<T, int>)
    requires i < |q|
    ensures Keep(q[..i + 1], woken) ==
      if q[i].thread in woken then Keep(q[..i], woken) else Keep(q[..i], woken) + [q[i]]
    ensures Wake(ready, q[..i + 1], woken, base) ==
              var r := Wake(ready, q[..i], woken, base);
              if q[i].thread in woken then Insert(r, BaseOf(base, q[i].thread) + 1, q[i].thread) else r
  {
    hide Insert;
    var s := q[..i + 1];
    assert s != [] && s[..|s| - 1] == q[..i] && s[|s| - 1] == q[i];
  }

  /** The newcomer has its priority, behind exactly those of at least that, and the others keep theirs. */
  lemma {:induction false} InsertOne<T>(q: seq<Entry<T>>, p: int, t: T)
    requires Descending(q) && !Queued(q, t)
    ensures var r := Insert(q, p, t);
      && Descending(r) && Queued(r, t) && PrioOf(r, t) == p
      && forall u: T :: Queued(q, u) ==>
           Queued(r, u) && PrioOf(r, u) == PrioOf(q, u) && (IndexOf(r, u) < IndexOf(r, t) <==> PrioOf(q, u) >= p)
  {
    hide IndexOf;
    var r, k := Insert(q, p, t), Rank(q, p);
    InsertDescending(q, p, t);
    NotThere(q, t);
    FirstIndex(r, t, k);
    forall u: T | Queued(q, u)
      ensures Queued(r, u) && PrioOf(r, u) == PrioOf(q, u) && (IndexOf(r, u) < IndexOf(r, t) <==> PrioOf(q, u) >= p)
    {
      InsertOthers(q, p, t, u);
      RankOf(q, p, u);
    }
  }

  lemma {:induction false} NotThere<T>(q: seq<Entry<T>>, t: T)
    requires !Queued(q, t)
    ensures forall i :: 0 <= i < |q| ==> q[i].thread != t
  {
  }

  lemma {:induction false} RankOf<T>(q: seq<Entry<T>>, p: int, u: T)
    requires Descending(q) && Queued(q, u)
    ensures IndexOf(q, u) < Rank(q, p) <==> PrioOf(q, u) >= p
  {
  }

  lemma {:induction false} OrderStays<T>(q: seq<Entry<T>>, p: int, t: T, a: T, b: T)
    requires Descending(q) && Queued(q, a) && Queued(q, b) && t != a && t != b && IndexOf(q, a) < IndexOf(q, b)
    ensures var r := Insert(q, p, t);
      Queued(r, a) && Queued(r, b) && IndexOf(r, a) < IndexOf(r, b)
  {
    hide Insert, Rank;
    InsertOthers(q, p, t, a);
    InsertOthers(q, p, t, b);
  }
}
