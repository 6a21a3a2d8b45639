/** Every thread is the running one or in exactly one queue, its state names that queue, and no
    thread is ever lost: the invariant of the scheduler and its preservation by every step. */
module Partition {
  import opened PriorityOrder
  import opened PriorityFacts
  import opened EventManager
  import opened Scheduler

  /** The number of times that thread t sits in a queue. */
  ghost function Places(m: Machine, t: nat): nat {
    Bag(m.nq)[t] + Bag(m.rq)[t] + Bag(m.wq)[t] + Bag(m.sq)[t] + Bag(m.dq)[t]
  }

  /** The queue of a thread is the one that its state names; a suspended thread remembers where
      it came from. */
  ghost predicate StatesOk(m: Machine) {
    forall t: nat {:trigger Look(m, t)} ::
      && (t in Bag(m.nq) ==> Look(m, t).state == New)
      && (t in Bag(m.rq) ==> Look(m, t).state == Ready)
      && (t in Bag(m.wq) ==> Look(m, t).state == Waiting)
      && (t in Bag(m.dq) ==> Look(m, t).state == Dead)
      && (t in Bag(m.sq) ==> Look(m, t).state != Dead)
  }

  ghost predicate Ordered(m: Machine) {
    Descending(m.nq) && Descending(m.rq) && Descending(m.wq) && Descending(m.sq) && Descending(m.dq)
  }

  /** The threads that exist are the held ones, which are in no queue, and those that are in one
      queue once. */
  ghost predicate Conserved(m: Machine, held: set<nat>) {
    && (forall t: nat {:trigger Places(m, t)} {:trigger t in m.tcbs} ::
          Places(m, t) + (if t in held then 1 else 0) == if t in m.tcbs then 1 else 0)
    && |m.tcbs| + m.freed == m.spawned
  }

  ghost predicate Sound(m: Machine, held: set<nat>) {
    Conserved(m, held) && StatesOk(m) && Ordered(m)
  }

  /** While a thread runs, it is the only one in no queue. */
  ghost predicate Inv(m: Machine) {
    Sound(m, {m.current}) && Look(m, m.current).state == Ready
  }

  // ---------------------------------------------------------------------------------------
  // Reading the invariant

  /** What pth_ctrl(PTH_CTRL_GETTHREADS) counts is what was spawned and is not freed yet. */
  lemma {:induction false} CountsThreads(m: Machine)
    requires Inv(m)
    ensures ThreadCount(m) == m.spawned - m.freed == |m.tcbs|
  {
    var all := Bag(m.nq) + Bag(m.rq) + Bag(m.wq) + Bag(m.sq) + Bag(m.dq) + multiset{m.current};
    forall t: nat ensures all[t] == multiset(m.tcbs.Keys)[t] {
      assert Places(m, t) == all[t] - multiset{m.current}[t];
    }
    assert all == multiset(m.tcbs.Keys);
    assert |all| == ThreadCount(m);
  }

  // ---------------------------------------------------------------------------------------
  // Moving one thread at a time

  /** Changing one queue changes the places of a thread by what that queue gains or loses. */
  lemma {:induction false} PlacesWith(m: Machine, s: State, q: Queue, u: nat)
    ensures Places(WithQueue(m, s, q), u) + Bag(QueueOf(m, s))[u] == Places(m, u) + Bag(q)[u]
  {
    hide Bag;
  }

  /** A thread that leaves its only place is held. */
  lemma {:induction false} OneOut(m: Machine, m': Machine, held: set<nat>, t: nat)
    requires Conserved(m, held) && m'.tcbs == m.tcbs && m'.spawned == m.spawned && m'.freed == m.freed
    requires Places(m, t) >= 1 && forall u: nat :: Places(m', u) == Places(m, u) - if u == t then 1 else 0
    ensures Conserved(m', held + {t}) && t in m.tcbs && t !in held
  {
    hide Places;
  }

  lemma {:induction false} OneIn(m: Machine, m': Machine, held: set<nat>, t: nat)
    requires Conserved(m, held) && m'.tcbs == m.tcbs && m'.spawned == m.spawned && m'.freed == m.freed
    requires t in held && forall u: nat :: Places(m', u) == Places(m, u) + if u == t then 1 else 0
    ensures Conserved(m', held - {t})
  {
    hide Places;
  }

  /** The states still fit when one queue loses threads, or gains one whose state names it. */
  lemma {:induction false} StatesWith(m: Machine, s: State, q: Queue, t: nat)
    requires StatesOk(m)
    requires forall u: nat :: u in Bag(q) ==> (u == t && Look(m, t).state == s) || u in Bag(QueueOf(m, s))
    ensures StatesOk(WithQueue(m, s, q))
  {
    hide Bag;
    var m' := WithQueue(m, s, q);
    forall u: nat ensures Look(m', u) == Look(m, u) {}
  }

  lemma {:induction false} OrderedWith(m: Machine, s: State, q: Queue)
    requires Ordered(m) && Descending(q)
    ensures Ordered(WithQueue(m, s, q)) && Descending(QueueOf(m, s))
  {
    hide Descending;
  }

  lemma {:induction false} QueuedState(m: Machine, s: State, t: nat)
    requires StatesOk(m) && t in Bag(QueueOf(m, s))
    ensures Look(m, t).state == s && Places(m, t) >= 1
  {
    hide Bag;
  }

  /** Taking a thread out of the queue that its state names. */
  lemma {:induction false} Take(m: Machine, held: set<nat>, s: State, t: nat)
    requires Sound(m, held) && Queued(QueueOf(m, s), t)
    ensures Sound(WithQueue(m, s, Delete(QueueOf(m, s), t)), held + {t})
    ensures t in m.tcbs && t !in held && Look(m, t).state == s
  {
    hide Bag, Delete, Descending, IndexOf, Places, Conserved, StatesOk, QueueOf, WithQueue;
    var q, q' := QueueOf(m, s), Delete(QueueOf(m, s), t);
    BagDelete(q, t);
    BagQueued(q, t);
    QueuedState(m, s, t);
    OrderedParts(m, s);
    DeleteDescending(q, t);
    OrderedWith(m, s, q');
    StatesWith(m, s, q', t);
    forall u: nat ensures Places(WithQueue(m, s, q'), u) == Places(m, u) - if u == t then 1 else 0 {
      PlacesWith(m, s, q', u);
    }
    WithQueueKeeps(m, s, q');
    OneOut(m, WithQueue(m, s, q'), held, t);
  }

  lemma {:induction false} OrderedParts(m: Machine, s: State)
    requires Ordered(m)
    ensures Descending(QueueOf(m, s))
  {
  }

  lemma {:induction false} WithQueueKeeps(m: Machine, s: State, q: Queue)
    ensures var m' := WithQueue(m, s, q);
      m'.tcbs == m.tcbs && m'.spawned == m.spawned && m'.freed == m.freed && m'.current == m.current
  {
  }

  /** Putting a held thread into the queue that its state names. */
  lemma {:induction false} PutBack(m: Machine, held: set<nat>, s: State, p: int, t: nat)
    requires Sound(m, held) && t in held && Look(m, t).state == s
    ensures Sound(WithQueue(m, s, Insert(QueueOf(m, s), p, t)), held - {t})
  {
    hide Bag, Insert, Descending, Places, Conserved, StatesOk, QueueOf, WithQueue;
    var q, q' := QueueOf(m, s), Insert(QueueOf(m, s), p, t);
    BagInsert(q, p, t);
    OrderedParts(m, s);
    InsertDescending(q, p, t);
    OrderedWith(m, s, q');
    StatesWith(m, s, q', t);
    forall u: nat ensures Places(WithQueue(m, s, q'), u) == Places(m, u) + if u == t then 1 else 0 {
      PlacesWith(m, s, q', u);
    }
    WithQueueKeeps(m, s, q');
    OneIn(m, WithQueue(m, s, q'), held, t);
  }

  lemma {:induction false} SuspendedWith(m: Machine, q: Queue, t: nat)
    requires StatesOk(m) && Ordered(m) && Descending(q)
    requires forall u: nat :: u in Bag(q) ==> (u == t && Look(m, t).state != Dead) || u in Bag(m.sq)
    ensures StatesOk(m.(sq := q)) && Ordered(m.(sq := q))
    ensures forall u: nat :: Places(m.(sq := q), u) + Bag(m.sq)[u] == Places(m, u) + Bag(q)[u]
  {
    hide Bag, Descending;
    var m' := m.(sq := q);
    forall u: nat ensures Look(m', u) == Look(m, u) {}
  }

  lemma {:induction false} TakeSuspended(m: Machine, held: set<nat>, t: nat)
    requires Sound(m, held) && Queued(m.sq, t)
    ensures Sound(m.(sq := Delete(m.sq, t)), held + {t})
    ensures t in m.tcbs && t !in held && Look(m, t).state != Dead
  {
    hide Bag, Delete, Descending, IndexOf, Conserved;
    BagDelete(m.sq, t);
    BagQueued(m.sq, t);
    DeleteDescending(m.sq, t);
    SuspendedWith(m, Delete(m.sq, t), t);
    assert Places(m, t) >= 1 && Look(m, t).state != Dead;
    OneOut(m, m.(sq := Delete(m.sq, t)), held, t);
  }

  lemma {:induction false} PutSuspended(m: Machine, held: set<nat>, t: nat)
    requires Sound(m, held) && t in held && Look(m, t).state != Dead
    ensures Sound(m.(sq := Insert(m.sq, PRIO_STD, t)), held - {t})
    ensures Queued(Insert(m.sq, PRIO_STD, t), t)
  {
    hide Bag, Insert, Descending, IndexOf, Conserved;
    BagInsert(m.sq, PRIO_STD, t);
    InsertDescending(m.sq, PRIO_STD, t);
    BagQueued(Insert(m.sq, PRIO_STD, t), t);
    SuspendedWith(m, Insert(m.sq, PRIO_STD, t), t);
    OneIn(m, m.(sq := Insert(m.sq, PRIO_STD, t)), held, t);
  }

  lemma {:induction false} SamePlaces(m: Machine, m': Machine, t: nat)
    requires m'.nq == m.nq && m'.rq == m.rq && m'.wq == m.wq && m'.sq == m.sq && m'.dq == m.dq
    ensures Places(m', t) == Places(m, t)
  {
    hide Bag;
  }

  /** A changed control block of a thread that keeps its state, or is in no queue. */
  lemma {:induction false} PutStates(m: Machine, t: nat, b: Tcb)
    requires StatesOk(m) && (Places(m, t) == 0 || b.state == Look(m, t).state)
    ensures StatesOk(Put(m, t, b))
  {
    hide Bag;
    var m' := Put(m, t, b);
    forall u: nat ensures Look(m', u) == if u == t then b else Look(m, u) {}
  }

  lemma {:induction false} PutConserved(m: Machine, held: set<nat>, t: nat, b: Tcb)
    requires Conserved(m, held) && t in m.tcbs
    ensures Conserved(Put(m, t, b), held)
  {
    hide Places;
    var m' := Put(m, t, b);
    assert m'.tcbs.Keys == m.tcbs.Keys;
    assert |m'.tcbs.Keys| == |m.tcbs.Keys|;
    forall u: nat ensures Places(m', u) == Places(m, u) { SamePlaces(m, m', u); }
  }

  /** The control block of a held thread can be changed at will. */
  lemma {:induction false} ChangeHeld(m: Machine, held: set<nat>, t: nat, b: Tcb)
    requires Sound(m, held) && t in held
    ensures Sound(Put(m, t, b), held) && Look(Put(m, t, b), t) == b
  {
    hide Places, StatesOk, Descending;
    assert Places(m, t) == 0 && t in m.tcbs;
    PutConserved(m, held, t, b);
    PutStates(m, t, b);
  }

  /** So can everything but the state of any thread. */
  lemma {:induction false} ChangeAny(m: Machine, held: set<nat>, t: nat, b: Tcb)
    requires Sound(m, held) && t in m.tcbs && b.state == Look(m, t).state
    ensures Sound(Put(m, t, b), held)
  {
    hide Places, StatesOk, Descending, Conserved;
    PutConserved(m, held, t, b);
    PutStates(m, t, b);
  }

  lemma {:induction false} FreeStates(m: Machine, t: nat)
    requires StatesOk(m) && Places(m, t) == 0
    ensures StatesOk(Free(m, t))
  {
    hide Bag;
    var m' := Free(m, t);
    forall u: nat ensures u != t ==> Look(m', u) == Look(m, u) {}
  }

  /** Freeing a held thread. */
  lemma {:induction false} FreeHeld(m: Machine, held: set<nat>, t: nat)
    requires Sound(m, held) && t in held
    ensures Sound(Free(m, t), held - {t})
  {
    hide Places, StatesOk, Descending;
    var m' := Free(m, t);
    assert Places(m, t) == 0 && t in m.tcbs;
    FreeStates(m, t);
    assert m'.tcbs.Keys == m.tcbs.Keys - {t};
    assert |m'.tcbs.Keys| == |m.tcbs.Keys| - 1;
    forall u: nat ensures Places(m', u) == Places(m, u) { SamePlaces(m, m', u); }
  }

  lemma {:induction false} OneMore(tcbs: map<nat, Tcb>, t: nat, b: Tcb)
    requires t !in tcbs
    ensures |tcbs[t := b]| == |tcbs| + 1
  {
    assert tcbs[t := b].Keys == tcbs.Keys + {t};
  }

  lemma {:induction false} AddConserved(m: Machine, held: set<nat>, t: nat, b: Tcb)
    requires Conserved(m, held) && t !in m.tcbs
    ensures Conserved(Put(m, t, b).(spawned := m.spawned + 1), held + {t})
    ensures t !in held && Places(m, t) == 0
  {
    hide Places;
    var m' := Put(m, t, b).(spawned := m.spawned + 1);
    assert Places(m, t) == 0 && t !in held;
    OneMore(m.tcbs, t, b);
    forall u: nat ensures Places(m', u) == Places(m, u) { SamePlaces(m, m', u); }
  }

  /** A new thread starts out held. */
  lemma {:induction false} AddHeld(m: Machine, held: set<nat>, t: nat, b: Tcb)
    requires Sound(m, held) && t !in m.tcbs
    ensures Sound(Put(m, t, b).(spawned := m.spawned + 1), held + {t})
    ensures t !in held
  {
    hide Bag, Descending, Conserved;
    var m' := Put(m, t, b).(spawned := m.spawned + 1);
    AddConserved(m, held, t, b);
    forall u: nat ensures u != t ==> Look(m', u) == Look(m, u) {}
  }

  // ---------------------------------------------------------------------------------------
  // The calls of the running thread

  lemma {:induction false} SpawnKeeps(m: Machine, t: nat, a: Attr)
    requires Inv(m) && t !in m.tcbs
    ensures Inv(Spawn(m, t, a))
  {
    hide Sound, Insert;
    var b := Tcb(a.prio, New, a.joinable, false, a.cancelEnable, a.cancelAsync, {}, []);
    AddHeld(m, {m.current}, t, b);
    PutBack(Put(m, t, b).(spawned := m.spawned + 1), {m.current} + {t}, New, a.prio, t);
    assert {m.current} + {t} - {t} == {m.current};
  }

  lemma {:induction false} SuspendKeeps(m: Machine, h: Handle)
    requires Inv(m)
    ensures Inv(Suspend(m, h).0)
    ensures Suspend(m, h).1 == Ok ==> h.Thread? && Queued(Suspend(m, h).0.sq, h.id)
  {
    hide Sound, Insert, Delete, IndexOf;
    if Suspend(m, h).1 == Ok {
      var t, s := h.id, Look(m, h.id).state;
      var m1 := WithQueue(m, s, Delete(QueueOf(m, s), t));
      Take(m, {m.current}, s, t);
      PutSuspended(m1, {m.current} + {t}, t);
      assert {m.current} + {t} - {t} == {m.current};
    }
  }

  /** Resuming never meets a dead thread, so it always finds the queue that the thread came from. */
  lemma {:induction false} ResumeKeeps(m: Machine, h: Handle)
    requires Inv(m)
    ensures Inv(Resume(m, h).0)
    ensures Resume(m, h).1 == Ok ==>
      h.Thread? && Look(m, h.id).state != Dead && Queued(QueueOf(Resume(m, h).0, Look(m, h.id).state), h.id)
  {
    hide Sound, Delete, IndexOf;
    if Resume(m, h).1 == Ok {
      var t, s := h.id, Look(m, h.id).state;
      var m1 := m.(sq := Delete(m.sq, t));
      TakeSuspended(m, {m.current}, t);
      PutBack(m1, {m.current} + {t}, s, PRIO_STD, t);
      assert {m.current} + {t} - {t} == {m.current};
      InsertQueues(QueueOf(m1, s), PRIO_STD, t);
    }
  }

  lemma {:induction false} InsertQueues(q: Queue, p: int, t: nat)
    ensures Queued(Insert(q, p, t), t)
  {
    BagInsert(q, p, t);
    BagQueued(Insert(q, p, t), t);
  }

  lemma {:induction false} BuryHeld(m: Machine, held: set<nat>, t: nat)
    requires Sound(m, held) && t in held
    ensures Sound(Bury(m, t), held - {t})
  {
    hide Sound, Insert;
    var b := Look(m, t);
    if b.joinable {
      ChangeHeld(m, held, t, b.(state := Dead));
      PutBack(Put(m, t, b.(state := Dead)), held, Dead, PRIO_STD, t);
    } else {
      FreeHeld(m, held, t);
    }
  }

  lemma {:induction false} CancelKeeps(m: Machine, h: Handle)
    requires Inv(m) && (h.Thread? ==> h.id in m.tcbs)
    ensures Inv(Cancel(m, h).0)
  {
    hide Sound, Delete, Insert, IndexOf, Bury;
    if h.Thread? && h.id != m.current && Look(m, h.id).state != Dead {
      var t, b := h.id, Look(m, h.id);
      var m1 := Put(m, t, b.(cancelreq := true));
      ChangeAny(m, {m.current}, t, b.(cancelreq := true));
      if b.cancelEnable && b.cancelAsync && Queued(QueueOf(m1, b.state), t) {
        var m2 := WithQueue(m1, b.state, Delete(QueueOf(m1, b.state), t));
        Take(m1, {m.current}, b.state, t);
        BuryHeld(m2, {m.current} + {t}, t);
        assert {m.current} + {t} - {t} == {m.current};
        BuryOthers(m2, t, m.current);
      }
    }
  }

  lemma {:induction false} BuryOthers(m: Machine, t: nat, u: nat)
    requires u != t
    ensures Look(Bury(m, t), u) == Look(m, u) && Bury(m, t).current == m.current
  {
  }

  lemma {:induction false} ReapKeeps(m: Machine, t: nat)
    requires Inv(m) && Queued(m.dq, t)
    ensures Inv(Reap(m, t))
  {
    hide Sound, Delete, IndexOf;
    Take(m, {m.current}, Dead, t);
    FreeHeld(m.(dq := Delete(m.dq, t)), {m.current} + {t}, t);
    assert {m.current} + {t} - {t} == {m.current};
  }

  /** A thread whose state is dead waits in the dead queue. */
  lemma {:induction false} DeadIsQueued(m: Machine, t: nat)
    requires Inv(m) && t in m.tcbs && Look(m, t).state == Dead
    ensures Queued(m.dq, t)
  {
    hide Bag, Descending, IndexOf;
    assert Places(m, t) == 1;
    BagQueued(m.dq, t);
  }

  lemma {:induction false} JoinKeeps(m: Machine, tid: Option<nat>)
    requires Inv(m) && (tid.Some? ==> tid.value in m.tcbs)
    ensures Inv(JoinDead(m, tid).0)
    ensures JoinDead(m, tid).1 == Ok ==> |JoinDead(m, tid).0.tcbs| == |m.tcbs| - 1
  {
    hide Sound, Delete, IndexOf;
    if JoinDead(m, tid).1 == Ok {
      var t := if tid.None? && m.dq != [] then m.dq[0].thread else tid.value;
      if tid.None? { HeadIsQueued(m.dq); } else { DeadIsQueued(m, t); }
      ReapKeeps(m, t);
      Take(m, {m.current}, Dead, t);
      assert JoinDead(m, tid).0.tcbs.Keys == m.tcbs.Keys - {t};
    }
  }

  lemma {:induction false} JoinCallKeeps(m: Machine, tid: Option<nat>)
    requires Inv(m) && (tid.Some? ==> tid.value in m.tcbs)
    ensures Inv(Join(m, tid).0)
  {
    hide Sound, Delete, IndexOf, JoinDead;
    if Join(m, tid).1.JoinAtOnce? {
      if tid.None? {
        HeadIsQueued(m.dq);
        Take(m, {m.current}, Dead, m.dq[0].thread);
      }
      JoinKeeps(m, Join(m, tid).1.tid);
    }
  }

  lemma {:induction false} HeadIsQueued(q: Queue)
    requires q != []
    ensures Queued(q, q[0].thread)
  {
  }

  lemma {:induction false} AbortKeeps(m: Machine, h: Handle)
    requires Inv(m) && (h.Thread? ==> h.id in m.tcbs)
    ensures Inv(Abort(m, h).0)
  {
    hide Sound, Delete, IndexOf, Insert, JoinDead, Cancel;
    if h.Thread? && h.id != m.current {
      var t, b := h.id, Look(m, h.id);
      if b.state == Dead && b.joinable {
        JoinKeeps(m, Some(t));
      } else {
        var b' := b.(joinable := false, cancelEnable := true, cancelAsync := true);
        ChangeAny(m, {m.current}, t, b');
        CancelKeeps(Put(m, t, b'), h);
      }
    }
  }

  /** A queue may be put into another order. */
  lemma {:induction false} Reordered(m: Machine, held: set<nat>, s: State, q: Queue)
    requires Sound(m, held) && Bag(q) == Bag(QueueOf(m, s)) && Descending(q)
    ensures Sound(WithQueue(m, s, q), held)
  {
    hide Bag, Descending, Places, StatesOk, QueueOf, WithQueue;
    StatesWith(m, s, q, 0);
    OrderedWith(m, s, q);
    WithQueueKeeps(m, s, q);
    forall u: nat ensures Places(WithQueue(m, s, q), u) == Places(m, u) { PlacesWith(m, s, q, u); }
  }

  lemma {:induction false} FavourKeeps(m: Machine, to: nat)
    requires Inv(m)
    ensures Inv(Favour(m, to).0)
  {
    hide Bag, Descending, IndexOf, Favorite, Conserved, StatesOk;
    if Favour(m, to).1 == Ok {
      var s := Look(m, to).state;
      OrderedParts(m, s);
      BagFavorite(QueueOf(m, s), to);
      FavoriteOnTop(QueueOf(m, s), to);
      Reordered(m, {m.current}, s, Favorite(QueueOf(m, s), to));
    }
  }

  // ---------------------------------------------------------------------------------------
  // A context switch

  lemma {:induction false} AgeKeeps(m: Machine, held: set<nat>)
    requires Sound(m, held)
    ensures Sound(m.(rq := Increase(m.rq)), held)
  {
    hide Bag, Descending, Increase, Conserved, StatesOk;
    BagIncrease(m.rq);
    IncreaseDescending(m.rq);
    Reordered(m, held, Ready, Increase(m.rq));
  }

  lemma {:induction false} PlaceKeeps(m: Machine, c: Cause)
    requires Inv(m)
    ensures Sound(Place(m, c), {})
  {
    hide Sound, Insert, Increase;
    var t, aged := m.current, m.(rq := Increase(m.rq));
    AgeKeeps(m, {t});
    assert {t} - {t} == {};
    match c {
      case Yield => PutBack(aged, {t}, Ready, Look(m, t).prio, t);
      case Exit => BuryHeld(aged, {t}, t);
      case Wait(events) =>
        var b := Look(m, t).(state := Waiting, events := AsPending(events));
        ChangeHeld(aged, {t}, t, b);
        PutBack(Put(aged, t, b), {t}, Waiting, Look(m, t).prio, t);
    }
  }

  /** A round keeps the order of the waiting threads. */
  lemma {:induction false} RoundTids(turn: Turn, conds: Conds, ws: seq<Waiter>, dopoll: bool, pipe: nat, i: nat)
    requires i < |ws|
    ensures RunRound(turn, conds, ws, dopoll, pipe).waiters[i].tid == ws[i].tid
  {
    hide ScanThreads, DeliverThreads, ScanEvents, DeliverEvents;
    var start := Start(conds, turn.pending);
    var (s, ws1) := ScanThreads(turn.env, start, ws);
    TimerOfThreads(turn.env, start, ws);
    var elapsed := Elapsed(turn.answer, dopoll || s.any, s.timer);
    var ws2 := if elapsed && !s.timer.value.isFunc then Expire(ws1, s.timer.value.thread, s.timer.value.event) else ws1;
    var s' := ScanThreadsAt(turn.env, start, ws, i);
    var l' := DeliverThreadsAt(Adjust(turn.answer, dopoll || s.any, pipe), Late(s.conds, turn.answer.raised), ws2, i);
  }

  lemma {:induction false} StoreStates(tcbs: map<nat, Tcb>, ws: seq<Waiter>, t: nat)
    ensures Store(tcbs, ws).Keys == tcbs.Keys
    ensures t in tcbs ==>
      var b := Store(tcbs, ws)[t];
      && b.state == (if t in WokenSet(ws) then Ready else tcbs[t].state)
      && b.joinable == tcbs[t].joinable && b.prio == tcbs[t].prio
  {
    if ws != [] {
      var p, w := ws[..|ws| - 1], ws[|ws| - 1];
      StoreStates(tcbs, p, t);
      assert t in WokenSet(ws) <==> t in WokenSet(p) || (Wakes(w) && w.tid == t) by {
        if t in WokenSet(ws) {
          var i :| 0 <= i < |ws| && Wakes(ws[i]) && ws[i].tid == t;
          if i < |p| { assert p[i] == ws[i]; }
        }
        if t in WokenSet(p) {
          var i :| 0 <= i < |p| && Wakes(p[i]) && p[i].tid == t;
          assert ws[i] == p[i];
        }
      }
    }
  }

  /** What waking does to the number of times that t is ready. */
  lemma {:induction false} BaseIsPrio(m: Machine, t: nat)
    ensures BaseOf(Base(m), t) == Look(m, t).prio
  {
  }

  lemma {:induction false} WakeBag(m: Machine, woken: set<nat>, t: nat)
    ensures Bag(Wake(m.rq, m.wq, woken, Base(m)))[t] == Bag(m.rq)[t] + if t in woken then Bag(m.wq)[t] else 0
    ensures Bag(Keep(m.wq, woken))[t] == if t in woken then 0 else Bag(m.wq)[t]
  {
    hide Bag, Keep, Wake;
    BagWake(m.rq, m.wq, woken, Base(m));
    BagKeep(m.wq, woken, t);
    var a, b: multiset<nat> := Bag<nat>(Keep(m.wq, woken)), Bag<nat>(Wake(m.rq, m.wq, woken, Base(m)));
    assert (a + b)[t] == (Bag<nat>(m.wq) + Bag<nat>(m.rq))[t];
  }

  lemma {:induction false} SettleConserves(m: Machine, r: Round)
    requires Conserved(m, {})
    ensures Conserved(Settle(m, r), {})
  {
    hide Bag, Descending, Keep, Wake, Store, WokenSet;
    var m' := Settle(m, r);
    StoreStates(m.tcbs, r.waiters, 0);
    forall u: nat ensures Places(m', u) == Places(m, u) { WakeBag(m, WokenSet(r.waiters), u); }
    assert m'.tcbs.Keys == m.tcbs.Keys;
    assert |m'.tcbs.Keys| == |m.tcbs.Keys|;
  }

  lemma {:induction false} SettleKeeps(m: Machine, r: Round)
    requires Sound(m, {})
    requires |r.waiters| == |m.wq| && forall i :: 0 <= i < |m.wq| ==> r.waiters[i].tid == m.wq[i].thread
    ensures Sound(Settle(m, r), {})
  {
    hide Bag, Descending, Keep, Wake, Store, WokenSet, StatesOk, Conserved, Places;
    var woken, m' := WokenSet(r.waiters), Settle(m, r);
    KeepDescending(m.wq, woken);
    WakeDescending(m.rq, m.wq, woken, Base(m));
    SettleConserves(m, r);
    forall u: nat
      ensures Look(m', u).joinable == Look(m, u).joinable
      ensures Look(m', u).state == if u in woken && u in m.tcbs then Ready else Look(m, u).state
    {
      StoreStates(m.tcbs, r.waiters, u);
    }
    forall u: nat ensures u in woken ==> u in Bag(m.wq) { WokenWait(m, r, u); }
    forall u: nat
      ensures u in Bag(m'.rq) ==> u in Bag(m.rq) || (u in woken && u in Bag(m.wq))
      ensures u in Bag(m'.wq) ==> u in Bag(m.wq) && u !in woken
    {
      WakeBag(m, woken, u);
    }
    SettleStates(m, m', woken);
  }

  lemma {:induction false} WokenWait(m: Machine, r: Round, u: nat)
    requires |r.waiters| == |m.wq| && forall i :: 0 <= i < |m.wq| ==> r.waiters[i].tid == m.wq[i].thread
    ensures u in WokenSet(r.waiters) ==> u in Bag(m.wq)
  {
    if u in WokenSet(r.waiters) {
      var i :| 0 <= i < |r.waiters| && Wakes(r.waiters[i]) && r.waiters[i].tid == u;
      assert Threads(m.wq)[i] == u;
    }
  }

  lemma {:induction false} SettleStates(m: Machine, m': Machine, woken: set<nat>)
    requires Sound(m, {})
    requires m'.nq == m.nq && m'.sq == m.sq && m'.dq == m.dq
    requires forall u: nat :: Look(m', u).joinable == Look(m, u).joinable &&
               Look(m', u).state == if u in woken && u in m.tcbs then Ready else Look(m, u).state
    requires forall u: nat :: u in woken ==> u in Bag(m.wq)
    requires forall u: nat :: u in Bag(m'.rq) ==> u in Bag(m.rq) || (u in woken && u in Bag(m.wq))
    requires forall u: nat :: u in Bag(m'.wq) ==> u in Bag(m.wq) && u !in woken
    ensures StatesOk(m')
  {
    hide Bag, Descending;
    forall t: nat
      ensures t in Bag(m'.nq) ==> Look(m', t).state == New
      ensures t in Bag(m'.rq) ==> Look(m', t).state == Ready
      ensures t in Bag(m'.wq) ==> Look(m', t).state == Waiting
      ensures t in Bag(m'.dq) ==> Look(m', t).state == Dead
      ensures t in Bag(m'.sq) ==> Look(m', t).state != Dead
    {
      assert Places(m, t) <= 1;
      assert Look(m, t) == Look(m, t);
    }
  }

  lemma {:induction false} RoundKeeps(m: Machine, turn: Turn, dopoll: bool)
    requires Sound(m, {})
    ensures Sound(Settle(m, RunRound(turn, m.conds, Waiters(m), dopoll, m.pipe)), {})
  {
    hide Sound, Settle, RunRound;
    var r := RunRound(turn, m.conds, Waiters(m), dopoll, m.pipe);
    forall i | 0 <= i < |m.wq| ensures r.waiters[i].tid == m.wq[i].thread {
      RoundTids(turn, m.conds, Waiters(m), dopoll, m.pipe, i);
    }
    SettleKeeps(m, r);
  }

  lemma {:induction false} RoundsKeep(m: Machine, turns: seq<Turn>, dopoll: bool)
    requires Sound(m, {})
    ensures Rounds(m, turns, dopoll).Some? ==> Sound(Rounds(m, turns, dopoll).value, {})
    decreases |turns|
  {
    hide Sound, Settle, RunRound, Waiters;
    if turns != [] {
      RoundKeeps(m, turns[0], dopoll);
      var r := RunRound(turns[0], m.conds, Waiters(m), dopoll, m.pipe);
      if r.repeat {
        RoundsKeep(Settle(m, r), turns[1..], dopoll);
      }
    }
  }

  lemma {:induction false} DrainKeeps(m: Machine)
    requires Sound(m, {})
    ensures Sound(Drain(m), {}) && Drain(m).nq == []
    ensures |Drain(m).rq| == |m.rq| + |m.nq|
    decreases |m.nq|
  {
    hide Sound, Insert, Delete, Bag, IndexOf;
    if m.nq != [] {
      var t := m.nq[|m.nq| - 1].thread;
      var p := if m.favournew then FavoritePrio(m.rq) else PRIO_STD;
      LastOnce(m);
      DeleteLast(m.nq);
      var m1 := m.(nq := m.nq[..|m.nq| - 1]);
      var m2 := Put(m1, t, Look(m, t).(state := Ready));
      Take(m, {}, New, t);
      assert {} + {t} == {t} && {t} - {t} == {};
      ChangeHeld(m1, {t}, t, Look(m, t).(state := Ready));
      PutBack(m2, {t}, Ready, p, t);
      BagInsert(m.rq, p, t);
      DrainKeeps(m2.(rq := Insert(m2.rq, p, t)));
    }
  }

  lemma {:induction false} LastOnce(m: Machine)
    requires Sound(m, {}) && m.nq != []
    ensures Bag(m.nq)[m.nq[|m.nq| - 1].thread] == 1
  {
    BagTail(m.nq);
    assert Places(m, m.nq[|m.nq| - 1].thread) <= 1;
  }

  lemma {:induction false} DispatchKeeps(m: Machine)
    requires Sound(m, {}) && m.rq != []
    ensures Dispatch(m).Running? && Inv(Dispatch(m).machine)
  {
    hide Bag, Delete, Descending, IndexOf, Places;
    DeleteFirst(m.rq);
    Take(m, {}, Ready, m.rq[0].thread);
    var m1, m' := m.(rq := m.rq[1..]), Dispatch(m).machine;
    assert {} + {m.rq[0].thread} == {m'.current};
    SoundIgnoresCurrent(m1, m', {m'.current});
  }

  lemma {:induction false} SoundIgnoresCurrent(m: Machine, m': Machine, held: set<nat>)
    requires Sound(m, held) && m' == m.(current := m'.current)
    ensures Sound(m', held)
  {
    hide Bag, Descending;
    forall u: nat ensures Places(m', u) == Places(m, u) {}
    forall u: nat ensures Look(m', u) == Look(m, u) {}
  }

  /** The scheduler hands over to the next thread with the invariant intact. */
  lemma {:induction false} ReschedKeeps(m: Machine, c: Cause, turns: seq<Turn>)
    requires Inv(m)
    ensures Resched(m, c, turns).Running? ==> Inv(Resched(m, c, turns).machine)
  {
    hide Inv, Sound, Place, Rounds, Drain;
    PlaceKeeps(m, c);
    var m1 := Place(m, c);
    RoundsKeep(m1, turns, Polls(m1));
    if Rounds(m1, turns, Polls(m1)).Some? {
      var m2 := Rounds(m1, turns, Polls(m1)).value;
      DrainKeeps(m2);
      if Drain(m2).rq != [] {
        DispatchKeeps(Drain(m2));
      }
    }
  }

  // ---------------------------------------------------------------------------------------
  // There is always a thread to run

  /** Waking somebody up leaves somebody ready. */
  lemma {:induction false} SettleReady(m: Machine, r: Round)
    requires |r.waiters| == |m.wq| && forall i :: 0 <= i < |m.wq| ==> r.waiters[i].tid == m.wq[i].thread
    ensures m.rq != [] || SomeWakes(r.waiters) ==> Settle(m, r).rq != []
    ensures Settle(m, r).nq == m.nq
  {
    hide Keep, Wake, Bag;
    var woken := WokenSet(r.waiters);
    BagWake(m.rq, m.wq, woken, Base(m));
    if SomeWakes(r.waiters) {
      var i :| 0 <= i < |r.waiters| && Wakes(r.waiters[i]);
      var t := r.waiters[i].tid;
      WokenWait(m, r, t);
      WakeBag(m, woken, t);
      BagEmpty<nat>();
    }
  }

  /** The event manager comes back from a blocking wait only when somebody is ready, and it never
      takes away a thread that was ready or new. */
  lemma {:induction false} RoundsReady(m: Machine, turns: seq<Turn>, dopoll: bool)
    requires HonestRounds(m, turns, dopoll)
    ensures Rounds(m, turns, dopoll).Some? ==>
      var m' := Rounds(m, turns, dopoll).value;
      m'.nq == m.nq && (!dopoll || m.rq != [] ==> m'.rq != [])
    decreases |turns|
  {
    hide Settle, RunRound, HonestTurn, Waiters, States;
    if turns != [] {
      var ws := Waiters(m);
      var r := RunRound(turns[0], m.conds, ws, dopoll, m.pipe);
      forall i | 0 <= i < |m.wq| ensures r.waiters[i].tid == m.wq[i].thread {
        RoundTids(turns[0], m.conds, ws, dopoll, m.pipe, i);
      }
      SettleReady(m, r);
      if !dopoll {
        RoundProgress(turns[0], m.conds, ws, m.pipe);
      }
      if r.repeat {
        RoundsReady(Settle(m, r), turns[1..], dopoll);
      }
    }
  }

  /** Under an honest select(2) the scheduler never finds itself without a thread to run. */
  lemma {:induction false} NeverAborts(m: Machine, c: Cause, turns: seq<Turn>)
    requires Inv(m) && HonestSwitch(m, c, turns)
    ensures Resched(m, c, turns) != Aborted
  {
    hide Inv, Sound, Place, Rounds, Drain, HonestRounds;
    PlaceKeeps(m, c);
    var m1 := Place(m, c);
    RoundsKeep(m1, turns, Polls(m1));
    RoundsReady(m1, turns, Polls(m1));
    if Rounds(m1, turns, Polls(m1)).Some? {
      DrainKeeps(Rounds(m1, turns, Polls(m1)).value);
    }
  }
}
