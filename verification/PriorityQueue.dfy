/** The thread priority queue as the library stores it: a circular doubly linked ring through
    the thread control blocks, in which the head holds an absolute priority and every other
    thread holds its distance to its predecessor. */
module PriorityQueue {
  import opened PriorityOrder
  import PriorityFacts
  import opened Cycles
  import EventManager

  /** What queues and the event manager need of a thread control block. */
  class Thread {
    var q_next: Thread?
    var q_prev: Thread?
    var q_prio: int
    var prio: int
    var state: EventManager.State
    var cancelreq: bool
    var sigpending: set<nat>
    var events: seq<EventManager.Event>

    constructor (prio: int)
      ensures this.prio == prio && state == EventManager.New && !cancelreq && sigpending == {} && events == []
    {
      q_next, q_prev, q_prio := null, null, 0;
      this.prio, state, cancelreq, sigpending, events := prio, EventManager.New, false, {}, [];
    }
  }

  datatype Direction = Next | Prev

  /** The threads of a ring point at their neighbours in both directions. */
  ghost predicate Linked(ring: seq<Thread>)
    reads ring`q_next, ring`q_prev
  {
    && (forall i {:trigger ring[i].q_next} :: 0 <= i < |ring| ==> ring[i].q_next == ring[Succ(i, |ring|)])
    && (forall i {:trigger ring[i].q_prev} :: 0 <= i < |ring| ==> ring[i].q_prev == ring[Pred(i, |ring|)])
  }

  /** The head holds its own priority, every other thread the distance to its predecessor. */
  ghost predicate Coded(ring: seq<Thread>, prios: seq<int>)
    requires |ring| == |prios|
    reads ring`q_prio
  {
    && (ring != [] ==> ring[0].q_prio == prios[0])
    && forall i {:trigger ring[i].q_prio} :: 1 <= i < |ring| ==> ring[i].q_prio == prios[i - 1] - prios[i]
  }

  ghost predicate Falling(prios: seq<int>) {
    forall i, j :: 0 <= i < j < |prios| ==> prios[i] >= prios[j]
  }

  function Zip(ring: seq<Thread>, prios: seq<int>): (q: seq<Entry<Thread>>)
    requires |ring| == |prios|
    ensures |q| == |ring|
    ensures forall i :: 0 <= i < |q| ==> q[i] == Entry(ring[i], prios[i])
  {
    seq(|ring|, i requires 0 <= i < |ring| => Entry(ring[i], prios[i]))
  }

  lemma {:induction false} NextInsert(ring: seq<Thread>, k: nat, t: Thread, i: nat)
    requires k <= |ring| && ring != [] && t.q_next == ring[if k == |ring| then 0 else k] && i <= |ring|
    requires forall i {:trigger ring[i].q_next} :: 0 <= i < |ring| ==>
               ring[i].q_next == if i == Pred(k, |ring|) then t else ring[Succ(i, |ring|)]
    ensures InsertAt(ring, k, t)[i].q_next == InsertAt(ring, k, t)[Succ(i, |ring| + 1)]
  {
    if i != k { assert ring[if i < k then i else i - 1].q_next == InsertAt(ring, k, t)[Succ(i, |ring| + 1)]; }
  }

  lemma {:induction false} PrevInsert(ring: seq<Thread>, k: nat, t: Thread, i: nat)
    requires k <= |ring| && ring != [] && t.q_prev == ring[Pred(k, |ring|)] && i <= |ring|
    requires forall i {:trigger ring[i].q_prev} :: 0 <= i < |ring| ==>
               ring[i].q_prev == if i == k || i == k - |ring| then t else ring[Pred(i, |ring|)]
    ensures InsertAt(ring, k, t)[i].q_prev == InsertAt(ring, k, t)[Pred(i, |ring| + 1)]
  {
    if i != k { assert ring[if i < k then i else i - 1].q_prev == InsertAt(ring, k, t)[Pred(i, |ring| + 1)]; }
  }

  /** Linking t in front of position k (behind the last thread when k == |ring|) keeps the ring linked. */
  lemma {:induction false} LinkedInsert(ring: seq<Thread>, k: nat, t: Thread)
    requires k <= |ring| && ring != []
    requires t.q_prev == ring[Pred(k, |ring|)] && t.q_next == ring[if k == |ring| then 0 else k]
    requires forall i {:trigger ring[i].q_next} :: 0 <= i < |ring| ==>
               ring[i].q_next == if i == Pred(k, |ring|) then t else ring[Succ(i, |ring|)]
    requires forall i {:trigger ring[i].q_prev} :: 0 <= i < |ring| ==>
               ring[i].q_prev == if i == k || i == k - |ring| then t else ring[Pred(i, |ring|)]
    ensures Linked(InsertAt(ring, k, t))
  {
    var r := InsertAt(ring, k, t);
    forall i | 0 <= i < |r| ensures r[i].q_next == r[Succ(i, |r|)] { NextInsert(ring, k, t, i); }
    forall i | 0 <= i < |r| ensures r[i].q_prev == r[Pred(i, |r|)] { PrevInsert(ring, k, t, i); }
  }

  /** Closing the gap around position k keeps the rest of the ring linked. */
  lemma {:induction false} LinkedRemove(ring: seq<Thread>, k: nat)
    requires k < |ring| && |ring| > 1
    requires forall i {:trigger ring[i].q_next} :: 0 <= i < |ring| && i != k ==>
               ring[i].q_next == if i == Pred(k, |ring|) then ring[Succ(k, |ring|)] else ring[Succ(i, |ring|)]
    requires forall i {:trigger ring[i].q_prev} :: 0 <= i < |ring| && i != k ==>
               ring[i].q_prev == if i == Succ(k, |ring|) then ring[Pred(k, |ring|)] else ring[Pred(i, |ring|)]
    ensures Linked(RemoveAt(ring, k))
  {
    var r := RemoveAt(ring, k);
    forall i | 0 <= i < |r| ensures r[i].q_next == r[Succ(i, |r|)] {
      assert ring[if i < k then i else i + 1].q_next == r[Succ(i, |r|)];
    }
    forall i | 0 <= i < |r| ensures r[i].q_prev == r[Pred(i, |r|)] {
      assert ring[if i < k then i else i + 1].q_prev == r[Pred(i, |r|)];
    }
  }

  /** Re-basing the newcomer and its successor keeps the priorities coded. */
  lemma {:induction false} CodedInsert(ring: seq<Thread>, prios: seq<int>, k: nat, t: Thread, p: int)
    requires |ring| == |prios| && k <= |ring|
    requires t.q_prio == if k == 0 then p else prios[k - 1] - p
    requires forall i {:trigger ring[i].q_prio} :: 0 <= i < |ring| ==>
               ring[i].q_prio == if i == k then p - prios[k] else if i == 0 then prios[0] else prios[i - 1] - prios[i]
    ensures Coded(InsertAt(ring, k, t), InsertAt(prios, k, p))
  {
    var r, s := InsertAt(ring, k, t), InsertAt(prios, k, p);
    forall i | 1 <= i < |r| ensures r[i].q_prio == s[i - 1] - s[i] {
      if i != k { assert ring[if i < k then i else i - 1].q_prio == s[i - 1] - s[i]; }
    }
  }

  lemma {:induction false} FallingInsert(prios: seq<int>, k: nat, p: int)
    requires k <= |prios| && Falling(prios)
    requires k > 0 ==> prios[k - 1] >= p
    requires k < |prios| ==> prios[k] < p
    ensures Falling(InsertAt(prios, k, p))
  {
    var r := InsertAt(prios, k, p);
    forall i, j | 0 <= i < j < |r| ensures r[i] >= r[j] {
      var a, b := if i < k then i else i - 1, if j < k then j else j - 1;
      if i != k && j != k { assert prios[a] >= prios[b]; }
    }
  }

  lemma {:induction false} ZipInsertAt(ring: seq<Thread>, prios: seq<int>, k: nat, t: Thread, p: int)
    requires |ring| == |prios| && k <= |ring|
    ensures Zip(InsertAt(ring, k, t), InsertAt(prios, k, p)) == InsertAt(Zip(ring, prios), k, Entry(t, p))
  {
  }

  lemma {:induction false} InsertIsInsertAt(q: seq<Entry<Thread>>, k: nat, t: Thread, p: int)
    requires k == Rank(q, p)
    ensures PriorityOrder.Insert(q, p, t) == InsertAt(q, k, Entry(t, p))
  {
    hide Rank;
  }

  lemma {:induction false} ZipInsert(ring: seq<Thread>, prios: seq<int>, k: nat, t: Thread, p: int)
    requires |ring| == |prios| && k <= |ring| && Falling(prios)
    requires k > 0 ==> prios[k - 1] >= p
    requires k < |prios| ==> prios[k] < p
    ensures k == Rank(Zip(ring, prios), p)
    ensures Zip(InsertAt(ring, k, t), InsertAt(prios, k, p)) == PriorityOrder.Insert(Zip(ring, prios), p, t)
  {
    hide PriorityOrder.Insert, InsertAt, Rank;
    PriorityFacts.RankUnique(Zip(ring, prios), p, k);
    ZipInsertAt(ring, prios, k, t, p);
    InsertIsInsertAt(Zip(ring, prios), k, t, p);
  }

  /** The four link assignments that put t between two neighbours. */
  method LinkIn(t: Thread, before: Thread, behind: Thread, ghost ring: seq<Thread>, ghost k: nat)
    requires k <= |ring| && ring != [] && Distinct(ring) && t !in ring && Linked(ring)
    requires before == ring[Pred(k, |ring|)] && behind == ring[if k == |ring| then 0 else k]
    modifies before`q_next, behind`q_prev, t`q_next, t`q_prev
    ensures Linked(InsertAt(ring, k, t))
    ensures t.q_next == behind
  {
    t.q_prev := before;
    t.q_next := behind;
    t.q_prev.q_next := t;
    t.q_next.q_prev := t;
    LinkedInsert(ring, k, t);
  }

  /** Codes t, just linked in behind a thread of priority p, and re-bases its successor. */
  method CodeIn(t: Thread, p: int, prio: int, head: Thread,
                ghost ring: seq<Thread>, ghost prios: seq<int>, ghost k: nat)
    requires |ring| == |prios| && 0 < k <= |ring| && Distinct(ring) && t !in ring && Coded(ring, prios)
    requires head == ring[0] && p == prios[k - 1] && t.q_next == ring[if k == |ring| then 0 else k]
    modifies t`q_prio, ring`q_prio
    ensures Coded(InsertAt(ring, k, t), InsertAt(prios, k, prio))
  {
    t.q_prio := p - prio;
    if t.q_next != head {
      t.q_next.q_prio := t.q_next.q_prio - t.q_prio;
    }
    CodedInsert(ring, prios, k, t, prio);
  }

  /** Links t in behind before, a thread of priority p, and codes it. */
  method Hook(t: Thread, before: Thread, behind: Thread, p: int, prio: int, head: Thread,
              ghost ring: seq<Thread>, ghost prios: seq<int>, ghost k: nat)
    requires |ring| == |prios| && 0 < k <= |ring| && Distinct(ring) && t !in ring && Linked(ring) && Coded(ring, prios)
    requires before == ring[k - 1] && behind == ring[if k == |ring| then 0 else k]
    requires head == ring[0] && p == prios[k - 1]
    modifies ring`q_next, ring`q_prev, ring`q_prio, t`q_next, t`q_prev, t`q_prio
    ensures Linked(InsertAt(ring, k, t)) && Coded(InsertAt(ring, k, t), InsertAt(prios, k, prio))
  {
    hide Linked, Coded, Distinct;
    LinkIn(t, before, behind, ring, k);
    CodeIn(t, p, prio, head, ring, prios, k);
  }

  /** Links t in as the new head, in front of the old one, and codes both. */
  method HookHead(t: Thread, before: Thread, head: Thread, prio: int, ghost ring: seq<Thread>, ghost prios: seq<int>)
    requires |ring| == |prios| > 0 && Distinct(ring) && t !in ring && Linked(ring) && Coded(ring, prios)
    requires before == ring[Pred(0, |ring|)] && head == ring[0]
    modifies ring`q_next, ring`q_prev, ring`q_prio, t`q_next, t`q_prev, t`q_prio
    ensures Linked(InsertAt(ring, 0, t)) && Coded(InsertAt(ring, 0, t), InsertAt(prios, 0, prio))
  {
    hide Linked, Coded, Distinct;
    LinkIn(t, before, head, ring, 0);
    CodeHead(t, prio, ring, prios);
  }

  method CodeHead(t: Thread, prio: int, ghost ring: seq<Thread>, ghost prios: seq<int>)
    requires |ring| == |prios| > 0 && Distinct(ring) && t !in ring && Coded(ring, prios) && t.q_next == ring[0]
    modifies t`q_prio, ring`q_prio
    ensures Coded(InsertAt(ring, 0, t), InsertAt(prios, 0, prio))
  {
    t.q_prio := prio;
    t.q_next.q_prio := prio - t.q_next.q_prio;
    CodedInsert(ring, prios, 0, t, prio);
  }

  /** Hands the distance of t, just linked out from behind the head, on to its successor. */
  method CodeOut(t: Thread, head: Thread, ghost ring: seq<Thread>, ghost prios: seq<int>, ghost k: nat)
    requires |ring| == |prios| && 0 < k < |ring| && Distinct(ring) && Coded(ring, prios)
    requires head == ring[0] && t == ring[k] && t.q_next == ring[Succ(k, |ring|)]
    modifies ring`q_prio
    ensures Coded(RemoveAt(ring, k), RemoveAt(prios, k))
  {
    if t.q_next != head {
      t.q_next.q_prio := t.q_next.q_prio + t.q_prio;
    }
    t.q_prio := 0;
    CodedRemove(ring, prios, k);
  }

  /** Turns the successor of a head that was just linked out into the new base. */
  method CodeOutHead(t: Thread, ghost ring: seq<Thread>, ghost prios: seq<int>)
    requires |ring| == |prios| > 1 && Distinct(ring) && Coded(ring, prios)
    requires t == ring[0] && t.q_next == ring[1]
    modifies ring`q_prio
    ensures Coded(RemoveAt(ring, 0), RemoveAt(prios, 0))
  {
    t.q_next.q_prio := t.q_prio - t.q_next.q_prio;
    t.q_prio := 0;
    CodedRemove(ring, prios, 0);
  }

  /** Adding the removed distance to the successor (or re-basing a new head) keeps the priorities coded. */
  lemma {:induction false} CodedRemove(ring: seq<Thread>, prios: seq<int>, k: nat)
    requires |ring| == |prios| && k < |ring|
    requires forall i {:trigger ring[i].q_prio} :: 0 <= i < |ring| && i != k ==>
               ring[i].q_prio ==
                 if i == 0 || (i == 1 && k == 0) then prios[i]
                 else if i == k + 1 then prios[k - 1] - prios[k + 1]
                 else prios[i - 1] - prios[i]
    ensures Coded(RemoveAt(ring, k), RemoveAt(prios, k))
  {
    var r, s := RemoveAt(ring, k), RemoveAt(prios, k);
    if r != [] { assert ring[if k == 0 then 1 else 0].q_prio == s[0]; }
    forall i | 1 <= i < |r| ensures r[i].q_prio == s[i - 1] - s[i] {
      assert ring[if i < k then i else i + 1].q_prio == s[i - 1] - s[i];
    }
  }

  lemma {:induction false} ZipRemove(ring: seq<Thread>, prios: seq<int>, k: nat)
    requires |ring| == |prios| && k < |ring| && Distinct(ring)
    ensures k == IndexOf(Zip(ring, prios), ring[k])
    ensures Zip(RemoveAt(ring, k), RemoveAt(prios, k)) == PriorityOrder.Delete(Zip(ring, prios), ring[k])
  {
    PriorityFacts.FirstIndex(Zip(ring, prios), ring[k], k);
    assert Zip(RemoveAt(ring, k), RemoveAt(prios, k)) == RemoveAt(Zip(ring, prios), k);
  }

  lemma {:induction false} FallingRemove(prios: seq<int>, k: nat)
    requires k < |prios| && Falling(prios)
    ensures Falling(RemoveAt(prios, k))
  {
  }

  /** The two link assignments that close the gap around t. */
  method LinkOut(t: Thread, ghost ring: seq<Thread>, ghost k: nat)
    requires k < |ring| && |ring| > 1 && ring[k] == t && Distinct(ring) && Linked(ring)
    modifies ring`q_next, ring`q_prev
    ensures Linked(RemoveAt(ring, k))
    ensures t.q_next == old(t.q_next) && t.q_prev == old(t.q_prev)
  {
    t.q_prev.q_next := t.q_next;
    t.q_next.q_prev := t.q_prev;
    LinkedRemove(ring, k);
  }

  /** Links t out from behind the head and hands its distance on. */
  method Unhook(t: Thread, head: Thread, ghost ring: seq<Thread>, ghost prios: seq<int>, ghost k: nat)
    requires |ring| == |prios| && 0 < k < |ring| && Distinct(ring) && Linked(ring) && Coded(ring, prios)
    requires head == ring[0] && t == ring[k] && t.q_next == ring[Succ(k, |ring|)]
    modifies ring`q_next, ring`q_prev, ring`q_prio
    ensures Linked(RemoveAt(ring, k)) && Coded(RemoveAt(ring, k), RemoveAt(prios, k))
  {
    hide Linked, Coded, Distinct;
    LinkOut(t, ring, k);
    CodeOut(t, head, ring, prios, k);
  }

  class PQueue {
    var head: Thread?
    var num: int
    ghost var ring: seq<Thread>  // the threads from the head along q_next
    ghost var prios: seq<int>    // their absolute priorities

    ghost predicate Valid()
      reads this, ring`q_next, ring`q_prev, ring`q_prio
    {
      && |ring| == |prios| == num
      && head == (if ring == [] then null else ring[0])
      && Distinct(ring)
      && Linked(ring)
      && Coded(ring, prios)
      && Falling(prios)
    }

    /** The abstract queue that the ring stands for. */
    ghost function Entries(): (q: seq<Entry<Thread>>)
      reads this
      requires |ring| == |prios|
    {
      Zip(ring, prios)
    }

    constructor ()
      ensures Valid() && Entries() == [] && ring == []
    {
      head, num := null, 0;
      ring, prios := [], [];
    }

    lemma {:induction false} Neighbours(k: nat)
      requires Valid() && k < |ring|
      ensures ring[k].q_next == ring[Succ(k, |ring|)] && ring[k].q_prev == ring[Pred(k, |ring|)]
    {
    }

    /** Brings the ghost view up to date once t has been linked in and coded. */
    ghost method Record(k: nat, t: Thread, p: int)
      requires |ring| == |prios| && k <= |ring| && num == |ring| + 1
      requires head == InsertAt(ring, k, t)[0]
      requires Distinct(ring) && t !in ring && Falling(prios)
      requires k > 0 ==> prios[k - 1] >= p
      requires k < |prios| ==> prios[k] < p
      requires Linked(InsertAt(ring, k, t))
      requires Coded(InsertAt(ring, k, t), InsertAt(prios, k, p))
      modifies this`ring, this`prios
      ensures Valid() && ring == InsertAt(old(ring), k, t)
      ensures Entries() == PriorityOrder.Insert(old(Entries()), p, t)
      ensures k == Rank(old(Entries()), p)
    {
      DistinctInsert(ring, k, t);
      FallingInsert(prios, k, p);
      ZipInsert(ring, prios, k, t, p);
      ring, prios := InsertAt(ring, k, t), InsertAt(prios, k, p);
    }

    /** The case of an empty queue. */
    method InsertFirst(prio: int, t: Thread)
      requires Valid() && ring == []
      modifies this, t`q_next, t`q_prev, t`q_prio
      ensures Valid()
      ensures Entries() == PriorityOrder.Insert(old(Entries()), prio, t) && ring == [t]
    {
      t.q_prev := t;
      t.q_next := t;
      t.q_prio := prio;
      head := t;
      num := num + 1;
      assert InsertAt(ring, 0, t) == [t];
      Record(0, t, prio);
    }

    /** The case of a new head. */
    method InsertHead(prio: int, t: Thread)
      requires Valid() && t !in ring && ring != [] && prios[0] < prio
      modifies this, ring`q_next, ring`q_prev, ring`q_prio, t`q_next, t`q_prev, t`q_prio
      ensures Valid()
      ensures Entries() == PriorityOrder.Insert(old(Entries()), prio, t) && ring == InsertAt(old(ring), 0, t)
    {
      hide PriorityOrder.Insert, Rank, Zip, Falling, Linked, Coded, Distinct;
      Neighbours(0);
      HookHead(t, head.q_prev, head, prio, ring, prios);
      head := t;
      num := num + 1;
      Record(0, t, prio);
    }

    /** The case of a place behind c, the last thread with a priority of at least prio. */
    method InsertBehind(prio: int, t: Thread, c: Thread, p: int, ghost k: nat)
      requires Valid() && t !in ring && 0 < k <= |ring| && c == ring[k - 1] && p == prios[k - 1] && p >= prio
      requires k < |ring| ==> prios[k] < prio
      modifies this, ring`q_next, ring`q_prev, ring`q_prio, t`q_next, t`q_prev, t`q_prio
      ensures Valid()
      ensures Entries() == PriorityOrder.Insert(old(Entries()), prio, t) && ring == InsertAt(old(ring), k, t)
      ensures k == Rank(old(Entries()), prio)
    {
      hide PriorityOrder.Insert, Rank, Zip, Falling, Linked, Coded, Distinct;
      Neighbours(k - 1);
      Hook(t, c, c.q_next, p, prio, head, ring, prios, k);
      num := num + 1;
      Record(k, t, prio);
    }

    method Insert(prio: int, t: Thread)
      requires Valid() && t !in ring
      modifies this, ring`q_next, ring`q_prev, ring`q_prio, t`q_next, t`q_prev, t`q_prio
      ensures Valid()
      ensures Entries() == PriorityOrder.Insert(old(Entries()), prio, t)
      ensures ring == InsertAt(old(ring), Rank(old(Entries()), prio), t)
    {
      if head == null || num == 0 {
        InsertFirst(prio, t);
      } else if head.q_prio < prio {
        InsertHead(prio, t);
      } else {
        var c := head;
        var p := c.q_prio;
        ghost var k: nat := 0;
        while p - c.q_next.q_prio >= prio && c.q_next != head
          invariant 0 <= k < |ring| && c == ring[k] && p == prios[k] && p >= prio
          decreases |ring| - k
        {
          c := c.q_next;
          p := p - c.q_prio;
          k := k + 1;
        }
        InsertBehind(prio, t, c, p, k + 1);
      }
    }

    /** Brings the ghost view up to date once the thread at position k has been linked out. */
    ghost method Forget(k: nat)
      requires |ring| == |prios| && k < |ring| && num == |ring| - 1
      requires head == (if |ring| == 1 then null else RemoveAt(ring, k)[0])
      requires Distinct(ring) && Falling(prios)
      requires Linked(RemoveAt(ring, k))
      requires Coded(RemoveAt(ring, k), RemoveAt(prios, k))
      modifies this`ring, this`prios
      ensures Valid() && ring == RemoveAt(old(ring), k) && old(ring)[k] !in ring
      ensures Entries() == PriorityOrder.Delete(old(Entries()), old(ring)[k])
      ensures k == IndexOf(old(Entries()), old(ring)[k])
    {
      DistinctRemove(ring, k);
      FallingRemove(prios, k);
      ZipRemove(ring, prios, k);
      ring, prios := RemoveAt(ring, k), RemoveAt(prios, k);
    }

    lemma {:induction false} OnlyOne()
      requires Valid() && ring != []
      ensures head.q_next == head <==> ring == [head]
    {
    }

    /** The case of a head that is alone. */
    method RemoveOnly(t: Thread)
      requires Valid() && ring == [t]
      modifies this, t`q_next, t`q_prev, t`q_prio
      ensures Valid() && ring == []
      ensures Entries() == []
    {
      t.q_next := null;
      t.q_prev := null;
      t.q_prio := 0;
      head := null;
      num := 0;
      ring, prios := [], [];
    }

    /** The case of a head with successors. */
    method RemoveHead(t: Thread)
      requires Valid() && |ring| > 1 && t == ring[0]
      modifies this, ring`q_next, ring`q_prev, ring`q_prio
      ensures Valid() && ring == RemoveAt(old(ring), 0) && t !in ring
      ensures Entries() == PriorityOrder.Delete(old(Entries()), t)
      ensures IndexOf(old(Entries()), t) == 0
    {
      hide PriorityOrder.Delete, IndexOf, Zip, Falling;
      LinkOut(t, ring, 0);
      CodeOutHead(t, ring, prios);
      head := t.q_next;
      num := num - 1;
      Forget(0);
    }

    /** The case of a thread behind the head. */
    method RemoveInner(t: Thread, ghost k: nat)
      requires Valid() && 0 < k < |ring| && ring[k] == t
      modifies this, ring`q_next, ring`q_prev, ring`q_prio
      ensures Valid() && ring == RemoveAt(old(ring), k) && t !in ring
      ensures Entries() == PriorityOrder.Delete(old(Entries()), t)
    {
      hide PriorityOrder.Delete, IndexOf, Zip, Falling, Linked, Coded, Distinct;
      Neighbours(k);
      Unhook(t, head, ring, prios, k);
      num := num - 1;
      Forget(k);
    }

    method DelMax() returns (t: Thread?)
      requires Valid()
      modifies this, ring`q_next, ring`q_prev, ring`q_prio
      ensures Valid()
      ensures t == null <==> old(ring) == []
      ensures t != null ==>
                && t == old(ring)[0] && t !in ring && ring == old(ring)[1..]
                && Entries() == old(Entries())[1..]
                && (forall e :: e in old(Entries()) ==> e.prio <= old(Entries())[0].prio)
      ensures t == null ==> ring == [] && Entries() == []
    {
      t := head;
      if head == null {
      } else if t.q_next == t {
        OnlyOne();
        RemoveOnly(t);
      } else {
        RemoveHead(t);
      }
    }

    method Delete(t: Thread)
      requires Valid() && (ring == [] || t in ring)
      modifies this, ring`q_next, ring`q_prev, ring`q_prio
      ensures Valid() && t !in ring
      ensures Entries() == PriorityOrder.Delete(old(Entries()), t)
      ensures old(ring) == [] || exists k :: 0 <= k < |old(ring)| && old(ring)[k] == t && ring == RemoveAt(old(ring), k)
    {
      if head == null {
        return;
      } else if head == t {
        if t.q_next == t {
          OnlyOne();
          RemoveOnly(t);
        } else {
          RemoveHead(t);
        }
      } else {
        ghost var k :| 0 <= k < |ring| && ring[k] == t;
        RemoveInner(t, k);
      }
    }

    function FavoritePrio(): int
      reads this, head
    {
      if head != null then head.q_prio + 1 else PRIO_MAX
    }

    lemma {:induction false} FavoritePrioView()
      requires Valid()
      ensures FavoritePrio() == PriorityOrder.FavoritePrio(Entries())
    {
    }

    /** Moves a queued thread to the top; its new priority is one above the rest. */
    method Favorite(t: Thread) returns (ok: bool)
      requires Valid() && (ring == [] || t in ring)
      modifies this, ring`q_next, ring`q_prev, ring`q_prio
      ensures Valid() && ok == (old(ring) != [])
      ensures Entries() == PriorityOrder.Favorite(old(Entries()), t)
    {
      hide PriorityOrder.Insert, PriorityOrder.Delete;
      if head == null || num == 0 {
        return false;
      }
      if num == 1 {
        return true;
      }
      Delete(t);
      FavoritePrioView();
      Insert(FavoritePrio(), t);
      return true;
    }

    method Increase()
      requires Valid()
      modifies this`prios, ring`q_prio
      ensures Valid() && ring == old(ring)
      ensures Entries() == PriorityOrder.Increase(old(Entries()))
    {
      if head == null {
        return;
      }
      head.q_prio := head.q_prio + 1;
      prios := seq(|prios|, i requires 0 <= i < |prios| reads this => prios[i] + 1);
    }

    method Tail() returns (t: Thread?)
      requires Valid()
      ensures t == if ring == [] then null else ring[|ring| - 1]
    {
      t := if head == null then null else head.q_prev;
    }

    method Walk(t: Thread?, direction: Direction, ghost k: nat) returns (tn: Thread?)
      requires Valid() && (t != null ==> k < |ring| && ring[k] == t)
      ensures t == null ==> tn == null
      ensures t != null && direction == Next ==> tn == if k + 1 < |ring| then ring[k + 1] else null
      ensures t != null && direction == Prev ==> tn == if k > 0 then ring[k - 1] else null
    {
      tn := null;
      if t == null {
        return;
      }
      if direction == Prev {
        if t != head {
          tn := t.q_prev;
        }
      } else {
        tn := t.q_next;
        if tn == head {
          tn := null;
        }
      }
    }

    method Contains(t: Thread?) returns (found: bool)
      requires Valid()
      ensures found <==> t in ring
    {
      found := false;
      var tc := head;
      ghost var k := 0;
      while tc != null
        invariant 0 <= k <= |ring|
        invariant tc == if k < |ring| then ring[k] else null
        invariant t !in ring[..k]
        decreases |ring| - k
      {
        if tc == t {
          found := true;
          return;
        }
        tc := Walk(tc, Next, k);
        k := k + 1;
      }
    }
  }

  ghost predicate Apart(a: seq<Thread>, b: seq<Thread>) {
    forall i, j :: 0 <= i < |a| && 0 <= j < |b| ==> a[i] != b[j]
  }

  ghost predicate Within(a: seq<Thread>, all: set<Thread>) {
    forall i :: 0 <= i < |a| ==> a[i] in all
  }

  lemma {:induction false} ApartRemove(a: seq<Thread>, b: seq<Thread>, k: nat, all: set<Thread>)
    requires Apart(a, b) && k < |a| && Within(a, all)
    ensures Apart(RemoveAt(a, k), b) && Within(RemoveAt(a, k), all)
    ensures a[k] !in b && a[k] in all
  {
  }

  lemma {:induction false} ApartInsert(a: seq<Thread>, b: seq<Thread>, k: nat, t: Thread, all: set<Thread>)
    requires Apart(a, b) && k <= |b| && t !in a && t in all && Within(b, all)
    ensures Apart(a, InsertAt(b, k, t)) && Within(InsertAt(b, k, t), all)
  {
  }

  /** Two queues with no thread in common, all of whose threads belong to `all`. */
  ghost predicate Separate(a: PQueue, b: PQueue, all: set<Thread>)
    reads a, a.ring`q_next, a.ring`q_prev, a.ring`q_prio, b, b.ring`q_next, b.ring`q_prev, b.ring`q_prio
  {
    && a != b && a.Valid() && b.Valid() && Apart(a.ring, b.ring)
    && Within(a.ring, all) && Within(b.ring, all)
  }

  /** Deletes t from one of two separate queues. */
  method TakeOut(a: PQueue, b: PQueue, t: Thread, ghost all: set<Thread>)
    requires Separate(a, b, all) && t in a.ring
    modifies a, all`q_next, all`q_prev, all`q_prio
    ensures Separate(a, b, all) && t !in a.ring && t !in b.ring && t in all
    ensures a.Entries() == Delete(old(a.Entries()), t)
    ensures b.Entries() == old(b.Entries())
  {
    hide PriorityOrder.Delete, PQueue.Valid, Zip;
    ghost var ring := a.ring;
    a.Delete(t);
    ghost var k :| 0 <= k < |ring| && ring[k] == t && a.ring == RemoveAt(ring, k);
    ApartRemove(ring, b.ring, k, all);
  }

  /** Inserts a free thread into the second of two separate queues. */
  method PutIn(a: PQueue, b: PQueue, t: Thread, prio: int, ghost all: set<Thread>)
    requires Separate(a, b, all) && t !in a.ring && t !in b.ring && t in all
    modifies b, all`q_next, all`q_prev, all`q_prio
    ensures Separate(a, b, all)
    ensures a.Entries() == old(a.Entries())
    ensures b.Entries() == Insert(old(b.Entries()), prio, t)
  {
    hide PriorityOrder.Insert, Linked, Coded, Falling, Distinct;
    ghost var k := Rank(b.Entries(), prio);
    ApartInsert(a.ring, b.ring, k, t, all);
    b.Insert(prio, t);
  }

  /** Moves t from one queue to another. */
  method Transfer(from: PQueue, to: PQueue, t: Thread, prio: int, ghost all: set<Thread>)
    requires Separate(from, to, all) && t in from.ring
    modifies from, to, all`q_next, all`q_prev, all`q_prio
    ensures Separate(from, to, all)
    ensures from.Entries() == Delete(old(from.Entries()), t)
    ensures to.Entries() == Insert(old(to.Entries()), prio, t)
  {
    hide *;
    TakeOut(from, to, t, all);
    PutIn(from, to, t, prio, all);
  }

  /** In a queue kept + q[i..] the rest of q follows behind the kept entries. */
  lemma {:induction false} WalkPosition(waiting: PQueue, q: seq<Entry<Thread>>, kept: seq<Entry<Thread>>, i: nat)
    requires waiting.Valid() && i <= |q| && waiting.Entries() == kept + q[i..]
    ensures |waiting.ring| == |kept| + |q| - i
    ensures i < |q| ==> waiting.ring[|kept|] == q[i].thread
    ensures i + 1 < |q| ==> waiting.ring[|kept| + 1] == q[i + 1].thread
    ensures i < |q| ==> Delete(waiting.Entries(), q[i].thread) == kept + q[i + 1..]
    ensures i < |q| ==> waiting.Entries() == (kept + [q[i]]) + q[i + 1..]
  {
    var es := waiting.Entries();
    assert i < |q| ==> es[|kept|] == q[i];
    assert i + 1 < |q| ==> es[|kept| + 1] == q[i + 1];
    if i < |q| {
      PriorityFacts.FirstIndex(es, q[i].thread, |kept|);
      assert es[|kept| + 1..] == q[i + 1..];
    }
  }

  /** The walk before it visits the i-th of the threads q that waited at the start, when r were ready. */
  ghost predicate Walking(waiting: PQueue, ready: PQueue, q: seq<Entry<Thread>>, r: seq<Entry<Thread>>,
                          woken: set<Thread>, base: map<Thread, int>, i: nat)
    requires waiting.Valid() && ready.Valid()
    requires i <= |q|
    reads waiting, waiting.ring`q_next, waiting.ring`q_prev, waiting.ring`q_prio
    reads ready, ready.ring`q_next, ready.ring`q_prev, ready.ring`q_prio
  {
    && waiting.Entries() == Keep(q[..i], woken) + q[i..]
    && ready.Entries() == Wake(r, q[..i], woken, base)
  }

  lemma {:induction false} WalkStart(waiting: PQueue, ready: PQueue, woken: set<Thread>, base: map<Thread, int>)
    requires waiting.Valid() && ready.Valid()
    ensures var q := waiting.Entries();
      && Threads(q) == waiting.ring
      && waiting.head == (if 0 < |q| then q[0].thread else null)
      && Walking(waiting, ready, q, ready.Entries(), woken, base, 0)
  {
    assert waiting.Entries()[..0] == [];
  }

  lemma {:induction false} WalkEnd(waiting: PQueue, ready: PQueue, q: seq<Entry<Thread>>, r: seq<Entry<Thread>>,
                woken: set<Thread>, base: map<Thread, int>)
    requires waiting.Valid() && ready.Valid()
    requires Walking(waiting, ready, q, r, woken, base, |q|)
    ensures waiting.Entries() == Keep(q, woken) && ready.Entries() == Wake(r, q, woken, base)
  {
    assert q[..|q|] == q;
  }

  lemma {:induction false} WalkNext(waiting: PQueue, ready: PQueue, q: seq<Entry<Thread>>, r: seq<Entry<Thread>>,
                 woken: set<Thread>, base: map<Thread, int>, i: nat)
    requires waiting.Valid() && ready.Valid()
    requires i < |q|
    requires Walking(waiting, ready, q, r, woken, base, i)
    ensures var t := q[i].thread; var k := |Keep(q[..i], woken)|;
      && k < |waiting.ring| && waiting.ring[k] == t
      && (if k + 1 < |waiting.ring| then waiting.ring[k + 1] else null) ==
         (if i + 1 < |q| then q[i + 1].thread else null)
      && Keep(q[..i + 1], woken) + q[i + 1..] ==
         (if t in woken then Delete(waiting.Entries(), t) else waiting.Entries())
      && Wake(r, q[..i + 1], woken, base) ==
           (if t in woken then Insert(ready.Entries(), BaseOf(base, t) + 1, t) else ready.Entries())
  {
    hide PriorityOrder.Insert, PriorityOrder.Delete, Keep, Wake, Zip, Linked, Coded;
    WalkPosition(waiting, q, Keep(q[..i], woken), i);
    PriorityFacts.KeepWakeNext(q, i, woken, r, base);
  }

  method MoveIf(waiting: PQueue, ready: PQueue, t: Thread, wakes: bool, ghost all: set<Thread>)
    requires Separate(waiting, ready, all) && t in waiting.ring
    modifies waiting, ready, all`q_next, all`q_prev, all`q_prio
    ensures Separate(waiting, ready, all)
    ensures waiting.Entries() == if wakes then Delete(old(waiting.Entries()), t) else old(waiting.Entries())
    ensures ready.Entries() == if wakes then Insert(old(ready.Entries()), t.prio + 1, t) else old(ready.Entries())
  {
    hide *;
    if wakes {
      Transfer(waiting, ready, t, t.prio + 1, all);
    }
  }

  /** Visits one thread: walks on to its successor first, then moves the thread just visited to the
      ready queue if it has to wake up. */
  method Visit(waiting: PQueue, ready: PQueue, t: Thread, wakes: bool, ghost woken: set<Thread>,
               ghost q: seq<Entry<Thread>>, ghost r: seq<Entry<Thread>>, ghost base: map<Thread, int>,
               ghost all: set<Thread>, ghost i: nat)
    returns (next: Thread?)
    requires Separate(waiting, ready, all) && i < |q| && t == q[i].thread && (wakes <==> t in woken)
    requires BaseOf(base, t) == t.prio
    requires Walking(waiting, ready, q, r, woken, base, i)
    modifies waiting, ready, all`q_next, all`q_prev, all`q_prio
    ensures Separate(waiting, ready, all)
    ensures Walking(waiting, ready, q, r, woken, base, i + 1)
    ensures next == if i + 1 < |q| then q[i + 1].thread else null
  {
    hide Keep, Wake, PriorityOrder.Insert, PriorityOrder.Delete, PQueue.Valid, Zip, Apart, Within, IndexOf, Queued,
      BaseOf;
    WalkNext(waiting, ready, q, r, woken, base, i);
    next := waiting.Walk(t, Next, |Keep(q[..i], woken)|);
    MoveIf(waiting, ready, t, wakes, all);
  }
}
