/** What the calls that name a thread answer and do in the states that can occur: exactly when they
    succeed, and what is left of the thread afterwards. */
module Replies {
  import opened PriorityOrder
  import opened PriorityFacts
  import opened EventManager
  import opened Scheduler
  import opened Partition
  import opened Runs

  /** A thread that does not run is suspended or in the queue that its state names, not both. */
  lemma {:induction false} WhereItIs(m: Machine, t: nat)
    requires Inv(m) && t in m.tcbs && t != m.current
    ensures Queued(m.sq, t) <==> !Queued(QueueOf(m, Look(m, t).state), t)
    ensures Queued(m.sq, t) ==> Look(m, t).state != Dead
  {
    hide Bag, Descending, IndexOf;
    assert Places(m, t) == 1;
    BagQueued(m.sq, t);
    BagQueued(QueueOf(m, Look(m, t).state), t);
  }

  /** Suspending fails for the running thread, for dead threads and for suspended ones only. */
  lemma {:induction false} SuspendExactly(m: Machine, t: nat)
    requires Inv(m) && t in m.tcbs
    ensures Suspend(m, Thread(t)).1 ==
      if t == m.current || Look(m, t).state == Dead then Err(EPERM)
      else if Queued(m.sq, t) then Err(ESRCH)
      else Ok
    ensures Suspend(m, Thread(t)).1 != Ok ==> Suspend(m, Thread(t)).0 == m
    ensures Suspend(m, Thread(t)).1 == Ok ==>
      var m' := Suspend(m, Thread(t)).0;
      Queued(m'.sq, t) && PrioOf(m'.sq, t) == PRIO_STD && m'.tcbs == m.tcbs
  {
    hide Inv, IndexOf, Insert, Delete;
    if t != m.current {
      WhereItIs(m, t);
    }
    SuspendKeeps(m, Thread(t));
    if !Queued(m.sq, t) {
      InOrder(m);
      InsertOne(m.sq, PRIO_STD, t);
    }
  }

  lemma {:induction false} InOrder(m: Machine)
    requires Inv(m)
    ensures Descending(m.nq) && Descending(m.rq) && Descending(m.wq) && Descending(m.sq) && Descending(m.dq)
  {
    hide Descending;
  }

  /** Resuming succeeds exactly for suspended threads; the thread is then back in the queue of its state, at
      the standard priority, behind everybody of at least that, and nothing else has changed. */
  lemma {:induction false} ResumeExactly(m: Machine, t: nat)
    requires Inv(m) && t in m.tcbs
    ensures var (m', r) := Resume(m, Thread(t));
      && r == (if Queued(m.sq, t) then Ok else Err(EPERM)) && m'.tcbs == m.tcbs
      && (r != Ok ==> m' == m)
      && (r == Ok ==>
            var s := Look(m, t).state;
            && s != Dead && !Queued(m'.sq, t)
            && Queued(QueueOf(m', s), t) && PrioOf(QueueOf(m', s), t) == PRIO_STD
            && (forall u: nat :: Queued(QueueOf(m, s), u) ==>
                  && Queued(QueueOf(m', s), u) && PrioOf(QueueOf(m', s), u) == PrioOf(QueueOf(m, s), u)
                  && (IndexOf(QueueOf(m', s), u) < IndexOf(QueueOf(m', s), t) <==>
                        PrioOf(QueueOf(m, s), u) >= PRIO_STD))
            && forall s': State :: s' != s ==> QueueOf(m', s') == QueueOf(m, s'))
  {
    hide Inv, IndexOf, Insert, Delete;
    if t == m.current {
      NotSuspended(m);
    } else if Queued(m.sq, t) {
      WhereItIs(m, t);
      InOrder(m);
      InsertOne(QueueOf(m, Look(m, t).state), PRIO_STD, t);
      SuspendedOnce(m, t);
    }
  }

  lemma {:induction false} NotSuspended(m: Machine)
    requires Inv(m)
    ensures !Queued(m.sq, m.current)
  {
    hide Bag, StatesOk, Ordered, IndexOf;
    BagQueued(m.sq, m.current);
    assert Places(m, m.current) == 0;
  }

  lemma {:induction false} SuspendedOnce(m: Machine, t: nat)
    requires Inv(m) && Queued(m.sq, t)
    ensures !Queued(Delete(m.sq, t), t)
  {
    hide Bag, StatesOk, Ordered, IndexOf, Delete;
    BagDelete(m.sq, t);
    BagQueued(Delete(m.sq, t), t);
    assert Places(m, t) <= 1;
  }

  /** A new thread has the attributes it was given, no event, no signal and no request to cancel it, and
      is in the new queue at its priority, behind everybody of at least that. */
  lemma {:induction false} SpawnExactly(m: Machine, t: nat, a: Attr)
    requires Inv(m) && t !in m.tcbs
    ensures var m', b := Spawn(m, t, a), Look(Spawn(m, t, a), t);
      && b.prio == a.prio && b.joinable == a.joinable && b.cancelEnable == a.cancelEnable
      && b.cancelAsync == a.cancelAsync && !b.cancelreq && b.sigpending == {} && b.events == [] && b.state == New
      && m'.spawned == m.spawned + 1 && m' == m.(tcbs := m'.tcbs, nq := m'.nq, spawned := m'.spawned)
      && (forall u: nat :: u != t ==> Look(m', u) == Look(m, u))
      && Queued(m'.nq, t) && PrioOf(m'.nq, t) == a.prio
      && forall u: nat :: Queued(m.nq, u) ==>
           && Queued(m'.nq, u) && PrioOf(m'.nq, u) == PrioOf(m.nq, u)
           && (IndexOf(m'.nq, u) < IndexOf(m'.nq, t) <==> PrioOf(m.nq, u) >= a.prio)
  {
    hide Inv, IndexOf, Insert;
    InOrder(m);
    UnknownIsNowhere(m, t);
    InsertOne(m.nq, a.prio, t);
  }

  lemma {:induction false} UnknownIsNowhere(m: Machine, t: nat)
    requires Inv(m) && t !in m.tcbs
    ensures !Queued(m.nq, t)
  {
    hide Bag, StatesOk, Ordered, IndexOf;
    BagQueued(m.nq, t);
    assert Places(m, t) == 0;
  }

  /** Setting one attribute of a thread sets that one, for that thread only. */
  lemma {:induction false} AttrExactly(m: Machine, t: nat, x: Setting)
    requires t in m.tcbs
    ensures var r := Apply(m, AttrStep(t, x));
      && r.Running?
      && var m', b, b' := r.machine, Look(m, t), Look(r.machine, t);
      && m' == m.(tcbs := m'.tcbs) && (forall u: nat :: u != t ==> Look(m', u) == Look(m, u))
      && b'.prio == (if x.SetPrio? then x.prio else b.prio)
      && b'.joinable == (if x.SetJoinable? then x.joinable else b.joinable)
      && b'.cancelEnable == (if x.SetCancel? then x.enable else b.cancelEnable)
      && b'.cancelAsync == (if x.SetCancel? then x.async else b.cancelAsync)
      && b' == b.(prio := b'.prio, joinable := b'.joinable,
                  cancelEnable := b'.cancelEnable, cancelAsync := b'.cancelAsync)
  {
  }

  /** The running thread sets its own cancel state. */
  lemma {:induction false} CancelStateExactly(m: Machine, enable: bool, async: bool)
    ensures var r := Apply(m, CancelStateStep(enable, async));
      && r.Running?
      && var m', t := r.machine, m.current;
      && Look(m', t) == Look(m, t).(cancelEnable := enable, cancelAsync := async)
      && m' == m.(tcbs := m'.tcbs) && forall u: nat :: u != t ==> Look(m', u) == Look(m, u)
  {
  }

  /** A thread can be yielded to exactly when it is new or ready, and neither running nor suspended. */
  lemma {:induction false} FavourExactly(m: Machine, t: nat)
    requires Inv(m) && t in m.tcbs
    ensures var (m', r) := Favour(m, t);
      && (r == Ok <==> t != m.current && !Queued(m.sq, t) && (Look(m, t).state == New || Look(m, t).state == Ready))
      && (r != Ok ==> r == Err(EINVAL) && m' == m)
  {
    hide Inv, IndexOf, Favorite;
    if t != m.current {
      WhereItIs(m, t);
    } else {
      RunnerNotReady(m);
    }
  }

  lemma {:induction false} RunnerNotReady(m: Machine)
    requires Inv(m)
    ensures !Queued(m.rq, m.current) && !Queued(m.nq, m.current)
  {
    hide Bag, StatesOk, Ordered, IndexOf;
    BagQueued(m.rq, m.current);
    BagQueued(m.nq, m.current);
    assert Places(m, m.current) == 0;
  }

  /** A cancelled thread in asynchronous mode is gone at once, or dead if somebody may join it,
      unless it is suspended; in deferred mode it is only marked. */
  lemma {:induction false} CancelExactly(m: Machine, t: nat)
    requires Inv(m) && t in m.tcbs && t != m.current && Look(m, t).state != Dead
    ensures var (m', r) := Cancel(m, Thread(t));
      var b := Look(m, t);
      && (r != Ok <==> b.cancelEnable && b.cancelAsync && Queued(m.sq, t))
      && (r != Ok ==> r == Err(ESRCH))
      && (r != Ok || !(b.cancelEnable && b.cancelAsync) ==> m' == Put(m, t, b.(cancelreq := true)))
      && (r == Ok && b.cancelEnable && b.cancelAsync ==>
            if b.joinable then Look(m', t).state == Dead && Queued(m'.dq, t) else t !in m'.tcbs)
  {
    hide Inv, IndexOf, Insert, Delete;
    WhereItIs(m, t);
    var m1 := Put(m, t, Look(m, t).(cancelreq := true));
    var m2 := WithQueue(m1, Look(m, t).state, Delete(QueueOf(m1, Look(m, t).state), t));
    InsertQueues(m2.dq, PRIO_STD, t);
  }

  /** Joining a dead thread frees it and nothing else; joining any other fails. */
  lemma {:induction false} JoinExactly(m: Machine, t: nat)
    requires Inv(m) && t in m.tcbs
    ensures var (m', r) := JoinDead(m, Some(t));
      && (r == Ok <==> Queued(m.dq, t))
      && (r != Ok ==> r == Err(EIO) && m' == m)
      && (r == Ok ==> m'.tcbs == m.tcbs - {t} && m' == m.(tcbs := m'.tcbs, dq := m'.dq, freed := m.freed + 1) &&
                      !Queued(m'.dq, t))
  {
    hide IndexOf, Delete, StatesOk, Descending, Bag;
    BagQueued(m.dq, t);
    if Look(m, t).state == Dead {
      DeadIsQueued(m, t);
      BagDelete(m.dq, t);
      BagQueued(Delete(m.dq, t), t);
      assert Places(m, t) <= 1;
    } else {
      NotDead(m, t);
    }
  }

  lemma {:induction false} NotDead(m: Machine, t: nat)
    requires Inv(m) && Look(m, t).state != Dead
    ensures !Queued(m.dq, t)
  {
    hide Bag, Descending, IndexOf, Conserved;
    BagQueued(m.dq, t);
  }

  /** Joining a thread by name is refused for oneself and for detached threads, dead ones too; it
      reaps a dead thread at once and waits for any other. */
  lemma {:induction false} JoinCallExactly(m: Machine, t: nat)
    requires Inv(m) && t in m.tcbs
    ensures var (m', plan) := Join(m, Some(t));
      && plan == (if t == m.current then Refuse(EDEADLK)
                  else if !Look(m, t).joinable then Refuse(EINVAL)
                  else if Look(m, t).state == Dead then JoinAtOnce(Some(t))
                  else WaitFirst(Some(t)))
      && (t !in m'.tcbs <==> plan.JoinAtOnce?)
      && (!plan.JoinAtOnce? ==> m' == m)
  {
    hide Inv, IndexOf, Delete, JoinDead;
    JoinExactly(m, t);
    if t != m.current {
      WhereItIs(m, t);
      MoreThanOne(m, t);
      if Look(m, t).state == Dead { DeadIsQueued(m, t); }
    }
  }

  /** Joining any thread is refused when the caller is alone; otherwise it reaps the first dead thread at
      once if there is one, and waits for any to die if there is none. */
  lemma {:induction false} JoinAnyExactly(m: Machine)
    requires Inv(m)
    ensures var (m', plan) := Join(m, None);
      && (plan == Refuse(EDEADLK) <==> |m.tcbs| == 1)
      && (plan == WaitFirst(None) <==> |m.tcbs| > 1 && forall t: nat :: t in m.tcbs ==> Look(m, t).state != Dead)
      && (plan.JoinAtOnce? <==> exists t: nat :: t in m.tcbs && Look(m, t).state == Dead)
      && (plan.JoinAtOnce? ==>
            && plan.tid.Some? && Queued(m.dq, plan.tid.value) && IndexOf(m.dq, plan.tid.value) == 0
            && m'.tcbs == m.tcbs - {plan.tid.value} && m'.freed == m.freed + 1)
      && (!plan.JoinAtOnce? ==> m' == m)
  {
    hide Inv, IndexOf, Delete, JoinDead, ThreadCount;
    CountsThreads(m);
    SomeThread(m);
    if m.dq != [] {
      var t := m.dq[0].thread;
      HeadIsQueued(m.dq);
      DeadOnes(m, t);
      JoinExactly(m, t);
      AloneIsAlive(m, t);
      SameReap(m);
    } else {
      forall t: nat | t in m.tcbs ensures Look(m, t).state != Dead {
        if Look(m, t).state == Dead { DeadIsQueued(m, t); }
      }
    }
  }

  lemma {:induction false} DeadOnes(m: Machine, t: nat)
    requires Inv(m) && Queued(m.dq, t)
    ensures t in m.tcbs && Look(m, t).state == Dead && t != m.current
  {
    hide Bag, Ordered, IndexOf;
    BagQueued(m.dq, t);
    assert Places(m, t) >= 1;
  }

  lemma {:induction false} SomeThread(m: Machine)
    requires Inv(m)
    ensures m.current in m.tcbs && |m.tcbs| >= 1
  {
    hide Bag, StatesOk, Ordered;
    assert Places(m, m.current) >= 0;
    assert m.current in m.tcbs.Keys;
  }

  lemma {:induction false} AloneIsAlive(m: Machine, t: nat)
    requires Inv(m) && t in m.tcbs && t != m.current
    ensures |m.tcbs| > 1
  {
    hide Inv;
    SomeThread(m);
    assert |m.tcbs.Keys - {t} - {m.current}| == |m.tcbs.Keys| - 2;
  }

  lemma {:induction false} SameReap(m: Machine)
    requires m.dq != []
    ensures JoinDead(m, None) == JoinDead(m, Some(m.dq[0].thread))
    ensures IndexOf(m.dq, m.dq[0].thread) == 0
  {
  }

  /** Aborting gets rid of any other thread, dead or alive, except exactly a suspended one and a dead
      one that was detached after it died. */
  lemma {:induction false} AbortExactly(m: Machine, t: nat)
    requires Inv(m) && t in m.tcbs && t != m.current
    ensures var (m', r) := Abort(m, Thread(t));
      && r == (if Queued(m.sq, t) then Err(ESRCH)
               else if Look(m, t).state == Dead && !Look(m, t).joinable then Err(EPERM)
               else Ok)
      && (r == Ok <==> t !in m'.tcbs)
  {
    hide Inv, IndexOf, Insert, Delete, Cancel, JoinDead;
    WhereItIs(m, t);
    var b := Look(m, t);
    var b' := b.(joinable := false, cancelEnable := true, cancelAsync := true);
    if b.state == Dead && b.joinable {
      JoinExactly(m, t);
      MoreThanOne(m, t);
    } else if b.state == Dead {
      CancelDead(Put(m, t, b'), t);
    } else {
      ChangeFlags(m, t, b');
      CancelExactly(Put(m, t, b'), t);
    }
  }

  lemma {:induction false} CancelDead(m: Machine, t: nat)
    requires t != m.current && Look(m, t).state == Dead
    ensures Cancel(m, Thread(t)) == (m, Err(EPERM))
  {
  }

  lemma {:induction false} ChangeFlags(m: Machine, t: nat, b: Tcb)
    requires Inv(m) && t in m.tcbs && t != m.current && Look(m, t).state != Dead && b.state == Look(m, t).state
    ensures Inv(Put(m, t, b))
  {
    hide Sound;
    ChangeAny(m, {m.current}, t, b);
  }

  lemma {:induction false} MoreThanOne(m: Machine, t: nat)
    requires Queued(m.sq, t) || Queued(QueueOf(m, Look(m, t).state), t)
    ensures ThreadCount(m) > 1
  {
  }

  /** Raising a signal for a thread that exists fails exactly for the running thread and for numbers out
      of range; it makes the signal pending for that thread, unless it is ignored, and changes nothing
      else. */
  lemma {:induction false} RaiseExactly(m: Machine, t: nat, sig: int, ignored: bool)
    requires Inv(m) && t in m.tcbs
    ensures var (m', r) := Raise(m, Thread(t), sig, ignored);
      && (r == Ok <==> t != m.current && 0 <= sig <= NSIG)
      && (r != Ok ==> r == Err(EINVAL))
      && m' == m.(tcbs := m'.tcbs) && m'.tcbs.Keys == m.tcbs.Keys
      && forall u: nat, n: nat :: u in m.tcbs ==>
           (n in Look(m', u).sigpending <==>
              n in Look(m, u).sigpending || (u == t != m.current && n == sig && 0 < sig <= NSIG && !ignored))
  {
    hide Bag, StatesOk, Ordered, IndexOf;
    if t != m.current {
      BagQueued(m.nq, t);
      BagQueued(m.rq, t);
      BagQueued(m.wq, t);
      BagQueued(m.sq, t);
      BagQueued(m.dq, t);
      assert Places(m, t) == 1;
    }
  }

  // ---------------------------------------------------------------------------------------
  // The failures, from the start of the library on

  function Running1(b: Tcb): Machine {
    Machine(map[1 := b], [], [], [], [], [], 1, true, map[], 0, 1, 0)
  }

  const FIRST: Tcb := Tcb(PRIO_STD, Ready, true, false, false, false, {}, [])
  const SECOND: Tcb := Tcb(PRIO_STD, New, true, false, true, true, {}, [])

  lemma {:induction false} BootOne()
    ensures Boot(1, Attr(PRIO_STD, true, false, false), 0) == Running(Running1(FIRST))
  {
    var m := Machine(map[1 := FIRST.(state := New)], [Entry(1, PRIO_STD)], [], [], [], [], 1, true, map[], 0, 1, 0);
    InsertTop<nat>([], PRIO_MAX, 1);
    assert m.nq[..0] == [];
    assert Drain(m).tcbs == map[1 := FIRST];
    assert Drain(m).rq == [Entry(1, PRIO_MAX)];
    assert Drain(m).rq[1..] == [];
  }

  /** Two threads, the second one new. */
  function Two(): Machine {
    Machine(map[1 := FIRST, 2 := SECOND], [Entry(2, PRIO_STD)], [], [], [], [], 1, true, map[], 0, 2, 0)
  }

  const DEAD: Tcb := SECOND.(cancelreq := true, state := Dead)

  function Parked(): Machine { Two().(nq := [], sq := [Entry(2, PRIO_STD)]) }

  /** The second thread is dead, and somebody may join it or not. */
  function Ended(joinable: bool): Machine {
    Two().(nq := [], dq := [Entry(2, PRIO_STD)], tcbs := map[1 := FIRST, 2 := DEAD.(joinable := joinable)])
  }

  predicate Leads(m: Machine, step: Step, m': Machine) {
    Legal(m, step) && Apply(m, step) == Running(m')
  }

  const SPAWN: Step := SpawnStep(2, Attr(PRIO_STD, true, true, true))

  lemma {:induction false} SpawnTwo()
    ensures Leads(Running1(FIRST), SPAWN, Two())
  {
    InsertTop<nat>([], PRIO_STD, 2);
    assert map[1 := FIRST][2 := SECOND] == map[1 := FIRST, 2 := SECOND];
  }

  lemma {:induction false} SuspendTwo()
    ensures Leads(Two(), SuspendStep(Thread(2)), Parked())
  {
    InsertTop<nat>([], PRIO_STD, 2);
    DeleteFirst(Two().nq);
    assert Two().nq[1..] == [];
  }

  lemma {:induction false} CancelTwo()
    ensures Leads(Two(), CancelStep(Thread(2)), Ended(true))
  {
    InsertTop<nat>([], PRIO_STD, 2);
    DeleteFirst(Two().nq);
    assert Two().nq[1..] == [];
    assert Cancel(Two(), Thread(2)).0.tcbs == Ended(true).tcbs;
  }

  lemma {:induction false} DetachTwo()
    ensures Leads(Ended(true), AttrStep(2, SetJoinable(false)), Ended(false))
  {
    assert Ended(true).tcbs[2 := DEAD.(joinable := false)] == Ended(false).tcbs;
  }

  /** A new thread that is suspended can be neither aborted nor cancelled. */
  lemma {:induction false} SuspendedSurvives() returns (ms: seq<Machine>, steps: seq<Step>)
    ensures IsRun(ms, steps) && Boot(1, Attr(PRIO_STD, true, false, false), 0) == Running(ms[0]) && |steps| == 2
    ensures Abort(ms[2], Thread(2)).1 == Err(ESRCH) && 2 in Abort(ms[2], Thread(2)).0.tcbs
    ensures var b := Look(ms[2], 2);
      b.cancelEnable && b.cancelAsync && Cancel(ms[2], Thread(2)) == (Put(ms[2], 2, b.(cancelreq := true)), Err(ESRCH))
  {
    hide Boot, Apply, Legal;
    BootOne();
    SpawnTwo();
    SuspendTwo();
    ms, steps := [Running1(FIRST), Two(), Parked()], [SPAWN, SuspendStep(Thread(2))];
    forall i | 0 <= i < 2 ensures Leads(ms[i], steps[i], ms[i + 1]) {}
  }

  /** A thread that is cancelled and then detached is dead for good: it cannot be aborted, nor joined
      by name. */
  lemma {:induction false} DetachedSurvives() returns (ms: seq<Machine>, steps: seq<Step>)
    ensures IsRun(ms, steps) && Boot(1, Attr(PRIO_STD, true, false, false), 0) == Running(ms[0]) && |steps| == 3
    ensures Abort(ms[3], Thread(2)).1 == Err(EPERM) && 2 in Abort(ms[3], Thread(2)).0.tcbs
    ensures Join(ms[3], Some(2)) == (ms[3], Refuse(EINVAL))
  {
    hide Boot, Apply, Legal;
    BootOne();
    SpawnTwo();
    CancelTwo();
    DetachTwo();
    ms := [Running1(FIRST), Two(), Ended(true), Ended(false)];
    steps := [SPAWN, CancelStep(Thread(2)), AttrStep(2, SetJoinable(false))];
    forall i | 0 <= i < 3 ensures Leads(ms[i], steps[i], ms[i + 1]) {}
  }
}
