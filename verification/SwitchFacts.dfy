/** What one turn of the scheduler decides, thread by thread: where the thread that ran goes, where a
    thread that wakes up goes, in which order new threads start, who runs next, and when the scheduler
    may sleep. */
module SwitchFacts {
  import opened PriorityOrder
  import opened PriorityFacts
  import opened EventManager
  import opened Scheduler
  import opened Partition
  import opened WaitQueue

  // ---------------------------------------------------------------------------------------
  // The thread that ran

  lemma {:induction false} RunnerIsNowhere(m: Machine)
    requires Inv(m)
    ensures !Queued(m.nq, m.current) && !Queued(m.rq, m.current) && !Queued(m.wq, m.current)
    ensures !Queued(m.sq, m.current) && !Queued(m.dq, m.current) && m.current in m.tcbs
    ensures Descending(m.rq) && Descending(m.wq) && Descending(m.dq)
  {
    hide Bag, StatesOk, Descending, IndexOf;
    BagQueued(m.nq, m.current);
    BagQueued(m.rq, m.current);
    BagQueued(m.wq, m.current);
    BagQueued(m.sq, m.current);
    BagQueued(m.dq, m.current);
    assert Places(m, m.current) == 0;
  }

  /** A thread that yields is ready again at its own priority, behind everybody who has aged to at least
      that; one that waits is in the waiting queue at its own priority, behind everybody of at least
      that, with all its events pending. */
  lemma {:induction false} StopExactly(m: Machine, c: Cause)
    requires Inv(m) && !c.Exit?
    ensures var m', t := Place(m, c), m.current;
      && m'.nq == m.nq && m'.sq == m.sq && m'.dq == m.dq && m'.freed == m.freed
      && (c.Yield? ==>
            && m'.wq == m.wq && m'.tcbs == m.tcbs
            && Queued(m'.rq, t) && PrioOf(m'.rq, t) == Look(m, t).prio
            && forall u: nat :: Queued(m.rq, u) ==>
                 && Queued(m'.rq, u) && PrioOf(m'.rq, u) == PrioOf(m.rq, u) + 1
                 && (IndexOf(m'.rq, u) < IndexOf(m'.rq, t) <==> PrioOf(m.rq, u) + 1 >= Look(m, t).prio))
      && (c.Wait? ==>
            && Queued(m'.wq, t) && PrioOf(m'.wq, t) == Look(m, t).prio && Look(m', t).state == Waiting
            && |Look(m', t).events| == |c.events|
            && (forall j :: 0 <= j < |c.events| ==> Look(m', t).events[j] == Event(c.events[j].kind, Pending))
            && (forall u: nat :: Queued(m.wq, u) ==>
                  && Queued(m'.wq, u) && PrioOf(m'.wq, u) == PrioOf(m.wq, u)
                  && (IndexOf(m'.wq, u) < IndexOf(m'.wq, t) <==> PrioOf(m.wq, u) >= Look(m, t).prio))
            && forall u: nat :: Queued(m.rq, u) ==> Queued(m'.rq, u) && PrioOf(m'.rq, u) == PrioOf(m.rq, u) + 1)
  {
    hide Sound, Insert, IndexOf, Increase;
    var p := Look(m, m.current).prio;
    RunnerIsNowhere(m);
    Aged(m.rq, m.current);
    if c.Yield? {
      InsertOne(Increase(m.rq), p, m.current);
    } else {
      InsertOne(m.wq, p, m.current);
    }
  }

  lemma {:induction false} Aged(q: Queue, t: nat)
    requires Descending(q) && !Queued(q, t)
    ensures Descending(Increase(q)) && !Queued(Increase(q), t)
    ensures forall u: nat :: Queued(q, u) ==>
      Queued(Increase(q), u) && PrioOf(Increase(q), u) == PrioOf(q, u) + 1 && IndexOf(Increase(q), u) == IndexOf(q, u)
  {
    NotThere(q, t);
    forall u: nat | Queued(q, u)
      ensures Queued(Increase(q), u) && PrioOf(Increase(q), u) == PrioOf(q, u) + 1
      ensures IndexOf(Increase(q), u) == IndexOf(q, u)
    {
      IncreaseOthers(q, u);
    }
  }

  /** A joinable thread that exits is dead and in the dead queue; a detached one is gone. */
  lemma {:induction false} ExitExactly(m: Machine)
    requires Inv(m)
    ensures var m', t := Place(m, Exit), m.current;
      && m'.nq == m.nq && m'.sq == m.sq && m'.wq == m.wq
      && (forall u: nat :: u != t ==> Look(m', u) == Look(m, u) && (u in m'.tcbs <==> u in m.tcbs))
      && (forall u: nat :: Queued(m.rq, u) ==> Queued(m'.rq, u) && PrioOf(m'.rq, u) == PrioOf(m.rq, u) + 1)
      && (if Look(m, t).joinable then
            && t in m'.tcbs && Look(m', t) == Look(m, t).(state := Dead) && m'.freed == m.freed
            && Queued(m'.dq, t) && PrioOf(m'.dq, t) == PRIO_STD
            && (forall u: nat :: Queued(m.dq, u) ==> Queued(m'.dq, u))
          else t !in m'.tcbs && m'.freed == m.freed + 1 && m'.dq == m.dq)
  {
    hide Sound, Insert, IndexOf, Increase;
    RunnerIsNowhere(m);
    Aged(m.rq, m.current);
    InsertOne(m.dq, PRIO_STD, m.current);
  }

  // ---------------------------------------------------------------------------------------
  // Threads that wake up

  lemma {:induction false} WakeOne(m: Machine, q: Queue, woken: set<nat>, t: nat)
    requires Descending(m.rq) && !Queued(m.rq, t) && Bag(q)[t] <= 1
    ensures var r := Wake(m.rq, q, woken, Base(m));
      && Descending(r)
      && (Queued(r, t) <==> t in woken && t in Bag(q))
      && (Queued(r, t) ==> PrioOf(r, t) == Look(m, t).prio + 1)
  {
    hide Insert, Bag, IndexOf, Base, Descending;
    if q == [] {
      BagEmpty<nat>();
    } else {
      var p, last := q[..|q| - 1], q[|q| - 1].thread;
      var r := Wake(m.rq, p, woken, Base(m));
      BagTail(q);
      WakeOne(m, p, woken, t);
      BaseIsPrio(m, last);
      if last in woken {
        InsertDescending(r, Look(m, last).prio + 1, last);
        if last == t {
          InsertOne(r, Look(m, last).prio + 1, t);
        } else if Queued(r, t) {
          InsertOthers(r, Look(m, last).prio + 1, last, t);
        } else {
          StaysOut(r, Look(m, last).prio + 1, last, t);
        }
      }
    }
  }

  lemma {:induction false} StaysOut(q: Queue, p: int, t: nat, u: nat)
    requires !Queued(q, u) && u != t
    ensures !Queued(Insert(q, p, t), u)
  {
    hide Bag, Insert, IndexOf;
    BagInsert(q, p, t);
    BagQueued(q, u);
    BagQueued(Insert(q, p, t), u);
  }

  /** A thread that wakes up in a round enters the ready queue one above its own priority; one that does
      not stays out of it, and everybody who was ready keeps the priority. */
  lemma {:induction false} WokenEnters(m: Machine, turn: Turn, dopoll: bool, t: nat)
    requires Sound(m, {}) && Waits(m, t)
    ensures var r := RunRound(turn, m.conds, Waiters(m), dopoll, m.pipe);
      var m' := Settle(m, r);
      if Wakes(r.waiters[IndexOf(m.wq, t)]) then
        Queued(m'.rq, t) && PrioOf(m'.rq, t) == Look(m, t).prio + 1 && Look(m', t).state == Ready && !Waits(m', t)
      else !Queued(m'.rq, t) && Waits(m', t) && PrioOf(m'.wq, t) == PrioOf(m.wq, t)
  {
    hide RunRound, Bag, Keep, Wake, Store, WokenSet, Ordered, StatesOk, IndexOf, Wakes;
    var r, i := RunRound(turn, m.conds, Waiters(m), dopoll, m.pipe), IndexOf(m.wq, t);
    forall i | 0 <= i < |m.wq| ensures r.waiters[i].tid == m.wq[i].thread {
      RoundTids(turn, m.conds, Waiters(m), dopoll, m.pipe, i);
    }
    Apart(m, {});
    OnlyWaits(m, t);
    RoundWaiter(m, turn, dopoll, t);
    assert t in WokenSet(r.waiters) <==> Wakes(r.waiters[i]);
    WakeOne(m, m.wq, WokenSet(r.waiters), t);
    if !Wakes(r.waiters[i]) {
      KeepOne(m.wq, WokenSet(r.waiters), t);
    }
  }

  lemma {:induction false} OnlyWaits(m: Machine, t: nat)
    requires Sound(m, {}) && Waits(m, t)
    ensures t in Bag(m.wq) && Bag(m.wq)[t] <= 1 && !Queued(m.rq, t) && Descending(m.rq)
  {
    hide Bag, StatesOk, Descending, IndexOf;
    BagQueued(m.wq, t);
    BagQueued(m.rq, t);
    assert Places(m, t) <= 1;
  }

  lemma {:induction false} WakeOrder(m: Machine, q: Queue, woken: set<nat>, a: nat, b: nat)
    requires Descending(m.rq) && !Queued(m.rq, a) && !Queued(m.rq, b) && Bag(q)[a] <= 1 && Bag(q)[b] <= 1
    requires a != b && a in woken && b in woken && Queued(q, a) && Queued(q, b)
    requires IndexOf(q, a) < IndexOf(q, b) && Look(m, a).prio >= Look(m, b).prio
    ensures var r := Wake(m.rq, q, woken, Base(m));
      Queued(r, a) && Queued(r, b) && IndexOf(r, a) < IndexOf(r, b)
  {
    hide Insert, Bag, IndexOf, Base, Descending;
    var p, e := q[..|q| - 1], q[|q| - 1];
    var last := e.thread;
    var r := Wake(m.rq, p, woken, Base(m));
    assert q == p + [e];
    IndexAppend(p, e, a);
    IndexAppend(p, e, b);
    BagTail(q);
    BaseIsPrio(m, last);
    WakeOne(m, p, woken, a);
    WakeOne(m, p, woken, b);
    BagQueued(p, a);
    BagQueued(p, b);
    assert Queued(p, a);
    if !Queued(p, b) {
      InsertOne(r, Look(m, b).prio + 1, b);
    } else {
      WakeOrder(m, p, woken, a, b);
      if last in woken { OrderStays(r, Look(m, last).prio + 1, last, a, b); }
    }
  }

  /** Of two threads that wake up in one round the one that waited in front is ready in front, unless the
      other has the higher priority. */
  lemma {:induction false} WokenInOrder(m: Machine, turn: Turn, dopoll: bool, a: nat, b: nat)
    requires Sound(m, {}) && Waits(m, a) && Waits(m, b) && a != b
    requires IndexOf(m.wq, a) < IndexOf(m.wq, b) && Look(m, a).prio >= Look(m, b).prio
    ensures var r := RunRound(turn, m.conds, Waiters(m), dopoll, m.pipe);
      var q := Settle(m, r).rq;
      Wakes(r.waiters[IndexOf(m.wq, a)]) && Wakes(r.waiters[IndexOf(m.wq, b)]) ==>
        Queued(q, a) && Queued(q, b) && IndexOf(q, a) < IndexOf(q, b)
  {
    hide RunRound, Bag, Keep, Wake, Store, WokenSet, Sound, IndexOf, Wakes;
    var r := RunRound(turn, m.conds, Waiters(m), dopoll, m.pipe);
    forall i | 0 <= i < |m.wq| ensures r.waiters[i].tid == m.wq[i].thread {
      RoundTids(turn, m.conds, Waiters(m), dopoll, m.pipe, i);
    }
    OnlyWaits(m, a);
    OnlyWaits(m, b);
    if Wakes(r.waiters[IndexOf(m.wq, a)]) && Wakes(r.waiters[IndexOf(m.wq, b)]) {
      assert a in WokenSet(r.waiters) && b in WokenSet(r.waiters);
      WakeOrder(m, m.wq, WokenSet(r.waiters), a, b);
    }
  }

  // ---------------------------------------------------------------------------------------
  // New threads

  /** Favoured new threads are put in front of all ready ones, in the order of the new queue and each one
      above the next. */
  lemma {:induction false} FavouredStart(m: Machine)
    requires m.favournew && Descending(m.rq)
    ensures var r, n := Drain(m).rq, |m.nq|;
      && |r| == n + |m.rq| && r[n..] == m.rq && Drain(m).nq == []
      && (forall i :: 0 <= i < n ==> r[i].thread == m.nq[i].thread)
      && (forall i :: 0 <= i < n && i + 1 < |r| ==> r[i].prio == r[i + 1].prio + 1)
      && (n > 0 && m.rq == [] ==> r[n - 1].prio == PRIO_MAX)
    decreases |m.nq|
  {
    hide Insert, Drain, Look;
    DrainMoves(m);
    if m.nq != [] {
      var n, m1 := |m.nq| - 1, Moved(m);
      InsertTop(m.rq, FavoritePrio(m.rq), m.nq[n].thread);
      FavouredStart(m1);
      assert Drain(m).rq[n + 1..] == Drain(m1).rq[n..][1..];
    }
  }

  /** New threads that are not favoured become ready at the standard priority, behind everybody of at
      least that, the last one of the new queue first. */
  lemma {:induction false} PlainStart(m: Machine)
    requires !m.favournew && Descending(m.rq)
    ensures Drain(m).rq == Insertions(m.rq, m.nq) && Drain(m).nq == []
    decreases |m.nq|
  {
    hide Insert, Drain, Look;
    DrainMoves(m);
    if m.nq != [] {
      InsertDescending(m.rq, PRIO_STD, m.nq[|m.nq| - 1].thread);
      PlainStart(Moved(m));
      Peeled(m.rq, m.nq);
    }
  }

  /** The queue with all of these at the standard priority: those of at least that in front, then the
      newcomers from the last to the first, then the rest. */
  function Insertions(q: Queue, starting: Queue): Queue {
    var k := Rank(q, PRIO_STD);
    q[..k] + Reversed(starting) + q[k..]
  }

  function Reversed(q: Queue): (r: Queue)
    ensures |r| == |q| && forall i :: 0 <= i < |q| ==> r[i] == Entry(q[|q| - 1 - i].thread, PRIO_STD)
  {
    if q == [] then [] else [Entry(q[|q| - 1].thread, PRIO_STD)] + Reversed(q[..|q| - 1])
  }

  lemma {:induction false} Peeled(q: Queue, starting: Queue)
    requires starting != [] && Descending(q)
    ensures var n := |starting| - 1;
      Insertions(Insert(q, PRIO_STD, starting[n].thread), starting[..n]) == Insertions(q, starting)
  {
    hide Rank;
    var n, k := |starting| - 1, Rank(q, PRIO_STD);
    var e := Entry(starting[n].thread, PRIO_STD);
    var r := Insert(q, PRIO_STD, e.thread);
    assert r == q[..k] + [e] + q[k..];
    RankUnique(r, PRIO_STD, k + 1);
    assert r[..k + 1] == q[..k] + [e] && r[k + 1..] == q[k..];
  }

  // ---------------------------------------------------------------------------------------
  // Who runs next

  /** A switch dispatches a thread that nobody among the ready ones is above, and the others stay ready as
      they were; all new threads have been moved by then. */
  lemma {:induction false} RunsNext(m: Machine, c: Cause, turns: seq<Turn>)
    requires Inv(m) && Resched(m, c, turns).Running?
    ensures var m1 := Place(m, c);
      && Rounds(m1, turns, Polls(m1)).Some?
      && var q, m' := Drain(Rounds(m1, turns, Polls(m1)).value).rq, Resched(m, c, turns).machine;
      && m'.nq == [] && Queued(q, m'.current) && m'.rq == Delete(q, m'.current)
      && forall u: nat :: Queued(q, u) ==> PrioOf(q, u) <= PrioOf(q, m'.current)
  {
    hide Inv, Sound, Place, Rounds, Drain;
    var m1 := Place(m, c);
    PlaceKeeps(m, c);
    RoundsKeep(m1, turns, Polls(m1));
    var m2 := Rounds(m1, turns, Polls(m1)).value;
    DrainKeeps(m2);
    SoundOrder(Drain(m2));
    DeleteFirst(Drain(m2).rq);
    HeadIsTop(Drain(m2).rq);
  }

  lemma {:induction false} SoundOrder(m: Machine)
    requires Sound(m, {})
    ensures Descending(m.rq)
  {
  }

  lemma {:induction false} HeadIsTop(q: Queue)
    requires Descending(q) && q != []
    ensures forall u: nat :: Queued(q, u) ==> PrioOf(q, u) <= PrioOf(q, q[0].thread)
    ensures Queued(q, q[0].thread)
  {
  }

  // ---------------------------------------------------------------------------------------
  // When the scheduler may sleep

  /** select(2) finds nothing and no signal is raised. */
  const NOTHING: Answer := Answer(0, {}, {}, {}, {})

  /** What the outside shows of the machine is right. */
  predicate Shows(m: Machine, env: Env) { env.states == States(m) && env.anyDead == (m.dq != []) }

  /** Finding nothing is a possible answer of the first select(2) of a switch exactly when that may time
      out: a thread is ready or new, something has occurred already, or a timer runs. */
  lemma {:induction false} MayFindNothing(m: Machine, c: Cause, env: Env, pending: set<nat>)
    requires Inv(m) && Shows(Place(m, c), env)
    ensures var m1 := Place(m, c);
      var s := ScanThreads(env, Start(m1.conds, pending), Waiters(m1)).0;
      HonestSwitch(m, c, [Turn(env, pending, NOTHING)]) <==>
        m1.rq != [] || m1.nq != [] || s.any || s.timer.Some?
  {
    hide Inv, Place, ScanThreads, RunRound, Settle, Waiters, States;
    var m1 := Place(m, c);
    var turn := Turn(env, pending, NOTHING);
    assert [turn][1..] == [];
    assert HonestRounds(Settle(m1, RunRound(turn, m1.conds, Waiters(m1), Polls(m1), m1.pipe)), [], Polls(m1));
  }

  /** With a thread ready or new the scheduler never sleeps: whatever the events of the others wait for,
      a select(2) that finds nothing is answered at once and a thread is dispatched. */
  lemma {:induction false} BusyNeverSleeps(m: Machine, c: Cause, env: Env, pending: set<nat>)
    requires Inv(m) && Shows(Place(m, c), env) && (Place(m, c).rq != [] || Place(m, c).nq != [])
    ensures var turns := [Turn(env, pending, NOTHING)];
      HonestSwitch(m, c, turns) && Resched(m, c, turns).Running?
  {
    hide Inv, Place, ScanThreads, Settle, Waiters, States, HonestRounds, Expire, DeliverThreads, Drain;
    MayFindNothing(m, c, env, pending);
    var turns, m1 := [Turn(env, pending, NOTHING)], Place(m, c);
    assert !RunRound(turns[0], m1.conds, Waiters(m1), true, m1.pipe).repeat;
    NeverAborts(m, c, turns);
  }

  /** With nobody ready or new, nothing occurred and no timer, select(2) waits without a limit. */
  lemma {:induction false} IdleSleeps(m: Machine, c: Cause, env: Env, pending: set<nat>, answer: Answer)
    requires Inv(m) && Shows(Place(m, c), env) && Place(m, c).rq == [] && Place(m, c).nq == []
    requires var s := ScanThreads(env, Start(Place(m, c).conds, pending), Waiters(Place(m, c))).0;
      !s.any && s.timer.None?
    requires HonestSwitch(m, c, [Turn(env, pending, answer)])
    ensures answer.rc > 0
  {
    hide Inv, Place, ScanThreads, RunRound, Settle, Waiters, States;
  }
}
