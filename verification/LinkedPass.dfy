/** The second pass of the event manager on the linked queues: it walks along the waiting queue,
    delivers what select(2) found to the events of each thread, and takes out of the ring, under its
    own feet, exactly those threads that wake up. */
module LinkedPass {
  import opened PriorityOrder
  import opened Cycles
  import opened PriorityQueue
  import opened EventManager
  import SchedulerLoop

  /** The waiting threads as the passes see them. */
  ghost function Snapshot(ts: seq<Thread>): (ws: seq<Waiter>)
    reads ts`cancelreq, ts`sigpending, ts`events
    ensures |ws| == |ts|
    ensures forall i :: 0 <= i < |ts| ==> ws[i] == Waiter(i, ts[i].cancelreq, ts[i].sigpending, ts[i].events)
  {
    if ts == [] then []
    else
      var n := |ts| - 1;
      Snapshot(ts[..n]) + [Waiter(n, ts[n].cancelreq, ts[n].sigpending, ts[n].events)]
  }

  ghost function StatesOf(ts: seq<Thread>): (r: seq<State>)
    reads ts`state
    ensures |r| == |ts| && forall i :: 0 <= i < |ts| ==> r[i] == ts[i].state
  {
    if ts == [] then [] else StatesOf(ts[..|ts| - 1]) + [ts[|ts| - 1].state]
  }

  /** Those with an event that is not pending any more, or a cancel request. */
  ghost function Wakers(ts: seq<Thread>, ws: seq<Waiter>): (r: set<Thread>)
    requires |ts| == |ws|
  {
    set i | 0 <= i < |ts| && Wakes(ws[i]) :: ts[i]
  }

  lemma {:induction false} WakerAt(ts: seq<Thread>, ws: seq<Waiter>, i: nat)
    requires |ts| == |ws| && i < |ts| && Distinct(ts)
    ensures ts[i] in Wakers(ts, ws) <==> Wakes(ws[i])
  {
    hide Wakes;
  }

  /** What the pass has done to the threads before it is at the i-th one. */
  ghost predicate DeliveredUpTo(ts: seq<Thread>, ws: seq<Waiter>, final: seq<Waiter>, was: seq<State>, i: nat)
    requires |ts| == |ws| == |final| == |was| && i <= |ts|
    reads ts`cancelreq, ts`events, ts`state
  {
    && (forall k :: 0 <= k < |ts| ==> ts[k].cancelreq == ws[k].cancelreq)
    && (forall k :: 0 <= k < i ==>
          ts[k].events == final[k].events && ts[k].state == if Wakes(final[k]) then Ready else was[k])
    && (forall k :: i <= k < |ts| ==> ts[k].events == ws[k].events && ts[k].state == was[k])
  }

  /** The i-th result is decided by the events of that thread and what came before. */
  lemma {:induction false} FinalAt(f: Found, l0: Late, ws: seq<Waiter>, i: nat)
    requires i < |ws|
    ensures var l := DeliverThreads(f, l0, ws[..i]).0;
      var r := DeliverEvents(f, l, ws[i].events);
      && DeliverThreads(f, l0, ws).1[i] == ws[i].(events := r.events)
      && DeliverThreads(f, l0, ws[..i + 1]).0 == r.late
  {
    hide DeliverThreads, DeliverEvents;
    SchedulerLoop.DeliverThreadsNext(f, l0, ws, i);
    SchedulerLoop.DeliverPrefix(f, l0, ws, i + 1);
  }

  lemma {:induction false} NobodyYet(f: Found, l0: Late)
    ensures DeliverThreads(f, l0, []) == (l0, [])
  {
  }

  /** Delivers to one thread and decides whether it wakes up. */
  method DeliverTo(t: Thread, f: Found, l: Late, ghost ts: seq<Thread>, ghost ws: seq<Waiter>, ghost final: seq<Waiter>,
                  ghost was: seq<State>, ghost l0: Late, ghost i: nat) returns (l': Late, wakes: bool)
    requires |ts| == |ws| == |was| && Distinct(ts) && i < |ts| && t == ts[i]
    requires final == DeliverThreads(f, l0, ws).1 && l == DeliverThreads(f, l0, ws[..i]).0
    requires DeliveredUpTo(ts, ws, final, was, i)
    modifies t`events, t`state
    ensures DeliveredUpTo(ts, ws, final, was, i + 1)
    ensures wakes == Wakes(final[i]) && l' == DeliverThreads(f, l0, ws[..i + 1]).0
  {
    hide DeliverThreads, DeliverEvents;
    FinalAt(f, l0, ws, i);
    var events, any;
    l', events, any := SchedulerLoop.DeliverRing(f, l, t.events);
    t.events := events;
    wakes := any || t.cancelreq;
    if wakes {
      t.state := Ready;
    }
  }

  /** The pass before it is at the i-th of the threads ts that waited in q when r were ready. */
  ghost predicate Passing(waiting: PQueue, ready: PQueue, f: Found, l0: Late, l: Late, ts: seq<Thread>,
                          q: seq<Entry<Thread>>, r: seq<Entry<Thread>>, ws: seq<Waiter>, was: seq<State>,
                          base: map<Thread, int>, all: set<Thread>, i: nat)
    reads waiting, waiting.ring`q_next, waiting.ring`q_prev, waiting.ring`q_prio
    reads ready, ready.ring`q_next, ready.ring`q_prev, ready.ring`q_prio
    reads ts`cancelreq, ts`events, ts`state
  {
    && Separate(waiting, ready, all)
    && |ts| == |q| == |ws| == |was| && i <= |ts| && Distinct(ts) && ts == Threads(q)
    && var final := DeliverThreads(f, l0, ws).1;
       && Walking(waiting, ready, q, r, Wakers(ts, final), base, i)
       && DeliveredUpTo(ts, ws, final, was, i)
       && l == DeliverThreads(f, l0, ws[..i]).0
  }

  /** Visits the i-th thread. */
  method PassOver(waiting: PQueue, ready: PQueue, f: Found, l: Late, t: Thread, ghost l0: Late, ghost ts: seq<Thread>,
                  ghost q: seq<Entry<Thread>>, ghost r: seq<Entry<Thread>>, ghost ws: seq<Waiter>,
                  ghost was: seq<State>,
                  ghost base: map<Thread, int>, ghost all: set<Thread>, ghost i: nat) returns (l': Late, next: Thread?)
    requires Passing(waiting, ready, f, l0, l, ts, q, r, ws, was, base, all, i)
    requires i < |q| && t == q[i].thread && t in all && BaseOf(base, t) == t.prio
    modifies waiting, ready, all`q_next, all`q_prev, all`q_prio, all`events, all`state
    ensures Passing(waiting, ready, f, l0, l', ts, q, r, ws, was, base, all, i + 1)
    ensures next == if i + 1 < |q| then q[i + 1].thread else null
  {
    hide Keep, Wake, PriorityOrder.Insert, PriorityOrder.Delete, PQueue.Valid, Apart, Within, Walking, Wakes,
      DeliverThreads, DeliverEvents, Wakers, Zip, DeliveredUpTo, Distinct;
    ghost var final := DeliverThreads(f, l0, ws).1;
    assert t == ts[i];
    WakerAt(ts, final, i);
    var wakes;
    l', wakes := DeliverTo(t, f, l, ts, ws, final, was, l0, i);
    next := Visit(waiting, ready, t, wakes, Wakers(ts, final), q, r, base, all, i);
  }

  lemma {:induction false} PassStarts(waiting: PQueue, ready: PQueue, f: Found, l0: Late, base: map<Thread, int>,
                                      all: set<Thread>)
    requires Separate(waiting, ready, all)
    ensures var ts := waiting.ring;
      Passing(waiting, ready, f, l0, l0, ts, waiting.Entries(), ready.Entries(),
              Snapshot(ts), StatesOf(ts), base, all, 0)
    ensures waiting.head == if |waiting.Entries()| > 0 then waiting.Entries()[0].thread else null
    ensures forall i :: 0 <= i < |waiting.ring| ==>
      waiting.ring[i] in all && waiting.Entries()[i].thread == waiting.ring[i]
  {
    hide Keep, Wake, PriorityOrder.Insert, PriorityOrder.Delete, Linked, Coded, Falling, Apart, Wakes,
      DeliverThreads, DeliverEvents, Wakers, Snapshot, StatesOf, Walking;
    var ts := waiting.ring;
    var ws := Snapshot(ts);
    WalkStart(waiting, ready, Wakers(ts, DeliverThreads(f, l0, ws).1), base);
    NobodyYet(f, l0);
    assert ws[..0] == [];
  }

  /** Every waiting thread is visited once although those that wake up leave the ring during the
      walk; the events of all of them are what the pass makes of them, exactly those with a
      non-pending event or a cancel request are ready, one step above their own priority, in walking
      order, and the others stay in order at their absolute priorities. */
  method SecondPass(waiting: PQueue, ready: PQueue, f: Found, l0: Late, ghost base: map<Thread, int>,
                    ghost all: set<Thread>)
    returns (l: Late, visited: seq<Thread>)
    requires Separate(waiting, ready, all)
    requires forall t :: t in all ==> t in base && base[t] == t.prio
    modifies waiting, ready, all`q_next, all`q_prev, all`q_prio, all`events, all`state
    ensures Separate(waiting, ready, all) && visited == old(waiting.ring)
    ensures var ts := old(waiting.ring);
      var (l', final) := DeliverThreads(f, l0, old(Snapshot(waiting.ring)));
      var woken := Wakers(ts, final);
      && l == l'
      && waiting.Entries() == Keep(old(waiting.Entries()), woken)
      && ready.Entries() == Wake(old(ready.Entries()), old(waiting.Entries()), woken, base)
      && forall k :: 0 <= k < |ts| ==>
           ts[k].events == final[k].events && ts[k].state == if Wakes(final[k]) then Ready else old(ts[k].state)
  {
    hide Keep, Wake, PriorityOrder.Insert, PriorityOrder.Delete, Linked, Coded, Falling, Apart, Wakes,
      DeliverThreads, DeliverEvents, Wakers, Zip, Passing;
    ghost var ts, q, r := waiting.ring, waiting.Entries(), ready.Entries();
    ghost var ws, was := Snapshot(ts), StatesOf(ts);
    PassStarts(waiting, ready, f, l0, base, all);
    l, visited := l0, [];
    var t := waiting.head;
    ghost var i := 0;
    while t != null
      invariant i <= |q| == |ts| && Passing(waiting, ready, f, l0, l, ts, q, r, ws, was, base, all, i)
      invariant visited == ts[..i]
      invariant t == if i < |q| then q[i].thread else null
      decreases |q| - i
    {
      visited := visited + [t];
      l, t := PassOver(waiting, ready, f, l, t, l0, ts, q, r, ws, was, base, all, i);
      i := i + 1;
    }
    PassEnds(waiting, ready, f, l0, l, ts, q, r, ws, was, base, all);
    assert ts[..i] == ts;
  }

  lemma {:induction false} PassEnds(waiting: PQueue, ready: PQueue, f: Found, l0: Late, l: Late, ts: seq<Thread>,
                                    q: seq<Entry<Thread>>, r: seq<Entry<Thread>>, ws: seq<Waiter>, was: seq<State>,
                                    base: map<Thread, int>, all: set<Thread>)
    requires |ts| == |ws| == |was| && Passing(waiting, ready, f, l0, l, ts, q, r, ws, was, base, all, |ts|)
    ensures var (l', final) := DeliverThreads(f, l0, ws);
      && Separate(waiting, ready, all) && l == l'
      && waiting.Entries() == Keep(q, Wakers(ts, final)) && ready.Entries() == Wake(r, q, Wakers(ts, final), base)
      && forall k :: 0 <= k < |ts| ==>
           ts[k].events == final[k].events && ts[k].state == if Wakes(final[k]) then Ready else was[k]
  {
    hide Keep, Wake, Linked, Coded, Falling, Apart, Wakes, DeliverThreads, DeliverEvents, Wakers;
    assert ws[..|ts|] == ws;
    WalkEnd(waiting, ready, q, r, Wakers(ts, DeliverThreads(f, l0, ws).1), base);
  }
}
