/** The linked queue over whole histories: after any sequence of operations the delta-coded ring
    still stands for the plain sequence on which the same operations were done. */
module PriorityReplay {
  import opened PriorityOrder
  import opened PriorityFacts
  import opened PriorityQueue
  import opened Cycles

  datatype Op<T> = Ins(prio: int, t: T) | DelMaxOp | Del(t: T) | Fav(t: T) | Inc

  /** What callers owe: only a thread that is not queued is inserted, and only one that is (or any
      thread, when the queue is empty) is deleted or favoured. */
  predicate Fits<T(==)>(q: seq<Entry<T>>, op: Op<T>) {
    match op
    case Ins(_, t) => !Queued(q, t)
    case Del(t) => q == [] || Queued(q, t)
    case Fav(t) => q == [] || Queued(q, t)
    case _ => true
  }

  function Step<T(==)>(q: seq<Entry<T>>, op: Op<T>): seq<Entry<T>> {
    match op
    case Ins(p, t) => Insert(q, p, t)
    case DelMaxOp => if q == [] then q else q[1..]
    case Del(t) => Delete(q, t)
    case Fav(t) => Favorite(q, t)
    case Inc => Increase(q)
  }

  function After<T(==)>(q: seq<Entry<T>>, ops: seq<Op<T>>): seq<Entry<T>> {
    if ops == [] then q else Step(After(q, ops[..|ops| - 1]), ops[|ops| - 1])
  }

  /** The threads that the calls of delmax return. */
  function Taken<T(==)>(q: seq<Entry<T>>, ops: seq<Op<T>>): seq<T> {
    if ops == [] then []
    else
      var before := After(q, ops[..|ops| - 1]);
      Taken(q, ops[..|ops| - 1]) +
        if ops[|ops| - 1].DelMaxOp? && before != [] then [before[0].thread] else []
  }

  ghost predicate Possible<T>(q: seq<Entry<T>>, ops: seq<Op<T>>) {
    forall k :: 0 <= k < |ops| ==> Fits(After(q, ops[..k]), ops[k])
  }

  ghost predicate Once<T>(q: seq<Entry<T>>) {
    forall t :: t in Bag(q) ==> Bag(q)[t] == 1
  }

  lemma {:induction false} StepOnce<T>(q: seq<Entry<T>>, op: Op<T>)
    requires Once(q) && Fits(q, op)
    ensures Once(Step(q, op))
  {
    hide Bag, Insert, Delete, Favorite, Queued;
    match op {
      case Ins(p, t) => BagInsert(q, p, t); BagQueued(q, t);
      case DelMaxOp =>
        if q != [] {
          BagTail(q);
          assert forall t :: t in Bag(q[1..]) ==> t in Bag(q) && Bag(q[1..])[t] <= Bag(q)[t];
        }
      case Del(t) => BagDelete(q, t);
      case Fav(t) => if q != [] { BagFavorite(q, t); } else { FavoriteNothing(q, t); }
      case Inc => BagIncrease(q);
    }
  }

  lemma {:induction false} FavoriteNothing<T>(q: seq<Entry<T>>, t: T)
    requires q == []
    ensures Favorite(q, t) == q
  {
  }

  lemma {:induction false} StepDescending<T>(q: seq<Entry<T>>, op: Op<T>)
    requires Descending(q) && Fits(q, op)
    ensures Descending(Step(q, op))
  {
    hide Insert, Delete;
    match op {
      case Ins(p, t) => InsertDescending(q, p, t);
      case DelMaxOp =>
      case Del(t) => DeleteDescending(q, t);
      case Fav(t) => if q != [] { FavoriteOnTop(q, t); }
      case Inc => IncreaseDescending(q);
    }
  }

  /** Every history of a queue that starts out in order ends in order, with no thread twice. */
  lemma {:induction false} AfterInOrder<T>(q: seq<Entry<T>>, ops: seq<Op<T>>)
    requires Descending(q) && Once(q) && Possible(q, ops)
    ensures Descending(After(q, ops)) && Once(After(q, ops))
  {
    hide Descending, Once, Step;
    if ops != [] {
      var n := |ops| - 1;
      forall k | 0 <= k < n ensures Fits(After(q, ops[..n][..k]), ops[..n][k]) {
        assert ops[..n][..k] == ops[..k];
      }
      AfterInOrder(q, ops[..n]);
      StepOnce(After(q, ops[..n]), ops[n]);
      StepDescending(After(q, ops[..n]), ops[n]);
    }
  }

  ghost predicate Among<T>(q: seq<Entry<T>>, all: set<T>) {
    forall i :: 0 <= i < |q| ==> q[i].thread in all
  }

  ghost predicate OpAmong<T>(op: Op<T>, all: set<T>) {
    op.Ins? ==> op.t in all
  }

  lemma {:induction false} StepAmong<T>(q: seq<Entry<T>>, op: Op<T>, all: set<T>)
    requires Among(q, all) && OpAmong(op, all) && Fits(q, op)
    ensures Among(Step(q, op), all)
  {
    if op.Fav? && q != [] {
      assert Among(Delete(q, op.t), all);
    }
  }

  lemma {:induction false} RingView(a: PQueue, t: Thread)
    requires a.Valid()
    ensures t in a.ring <==> Queued(a.Entries(), t)
    ensures |a.Entries()| == |a.ring| && (a.ring == [] <==> a.Entries() == [])
    ensures forall i :: 0 <= i < |a.ring| ==> a.ring[i] == a.Entries()[i].thread
  {
    var q := a.Entries();
    if t in a.ring {
      var i :| 0 <= i < |a.ring| && a.ring[i] == t;
      assert q[i].thread == t;
    }
    if Queued(q, t) {
      assert a.ring[IndexOf(q, t)] == t;
    }
  }

  lemma {:induction false} ViewAmong(a: PQueue, all: set<Thread>)
    requires a.Valid()
    ensures Within(a.ring, all) <==> Among(a.Entries(), all)
  {
  }

  /** Does one operation on the linked queue. */
  method Perform(a: PQueue, op: Op<Thread>, ghost all: set<Thread>) returns (t: Thread?)
    requires a.Valid() && Within(a.ring, all) && OpAmong(op, all) && Fits(a.Entries(), op)
    modifies a, all`q_next, all`q_prev, all`q_prio
    ensures a.Valid() && Within(a.ring, all)
    ensures a.Entries() == Step(old(a.Entries()), op)
    ensures t == if op.DelMaxOp? && old(a.Entries()) != [] then old(a.Entries())[0].thread else null
  {
    hide Linked, Coded, Falling, Distinct, Zip, Insert, Delete, Favorite, Queued, IndexOf;
    t := null;
    ghost var q := a.Entries();
    ViewAmong(a, all);
    StepAmong(q, op, all);
    match op {
      case Ins(p, u) =>
        RingView(a, u);
        a.Insert(p, u);
      case DelMaxOp =>
        Emptiness(a);
        t := a.DelMax();
      case Del(u) =>
        RingView(a, u);
        a.Delete(u);
      case Fav(u) =>
        RingView(a, u);
        var ok := a.Favorite(u);
      case Inc =>
        a.Increase();
    }
    ViewAmong(a, all);
  }

  lemma {:induction false} Emptiness(a: PQueue)
    requires a.Valid()
    ensures |a.Entries()| == |a.ring| && forall i :: 0 <= i < |a.ring| ==> a.ring[i] == a.Entries()[i].thread
  {
  }

  /** Does any possible sequence of operations on the linked queue. */
  method Replay(a: PQueue, ops: seq<Op<Thread>>, ghost all: set<Thread>) returns (taken: seq<Thread>)
    requires a.Valid() && Within(a.ring, all)
    requires forall k :: 0 <= k < |ops| ==> OpAmong(ops[k], all)
    requires Possible(a.Entries(), ops)
    modifies a, all`q_next, all`q_prev, all`q_prio
    ensures a.Valid()
    ensures a.Entries() == After(old(a.Entries()), ops)
    ensures a.num == |After(old(a.Entries()), ops)|
    ensures taken == Taken(old(a.Entries()), ops)
  {
    hide Linked, Coded, Falling, Distinct, Zip, Step, Fits;
    ghost var q := a.Entries();
    taken := [];
    var k := 0;
    assert ops[..0] == [];
    while k < |ops|
      invariant k <= |ops|
      invariant a.Valid() && Within(a.ring, all)
      invariant a.Entries() == After(q, ops[..k])
      invariant taken == Taken(q, ops[..k])
    {
      assert ops[..k + 1][..k] == ops[..k];
      var t := Perform(a, ops[k], all);
      if t != null {
        taken := taken + [t];
      }
      k := k + 1;
    }
    assert ops[..k] == ops;
    Counted(a);
  }

  lemma {:induction false} Counted(a: PQueue)
    requires a.Valid()
    ensures a.num == |a.Entries()|
  {
  }
}
