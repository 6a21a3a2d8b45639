/** What the scheduler does to the threads in its waiting queue and to their rings of events: a round
    of the event manager leaves everybody who does not wake up as it was, and nothing else touches
    them. */
module WaitQueue {
  import opened PriorityOrder
  import opened PriorityFacts
  import opened EventManager
  import opened EventOutcomes
  import opened Scheduler
  import opened Partition
  import opened Runs

  predicate Waits(m: Machine, t: nat) { Queued(m.wq, t) }

  // ---------------------------------------------------------------------------------------
  // A round, thread by thread

  lemma {:induction false} RoundEvent(turn: Turn, conds: Conds, ws: seq<Waiter>, dopoll: bool, pipe: nat,
                                      i: nat, j: nat)
    requires i < |ws| && j < |ws[i].events|
    ensures var w := RunRound(turn, conds, ws, dopoll, pipe).waiters[i];
      && |w.events| == |ws[i].events| && w.cancelreq == ws[i].cancelreq
      && (w.events[j].status == Pending ==> w.events[j] == ws[i].events[j])
      && (ws[i].events[j].status == Pending ==> w.events[j].status != Failed)
  {
    hide ScanThreads, DeliverThreads, ScanEvents, DeliverEvents, Check, Adjust;
    var start := Start(conds, turn.pending);
    var (s, ws1) := ScanThreads(turn.env, start, ws);
    var ws2 := BeforeDelivery(turn, conds, ws, dopoll);
    var s1 := ScanThreadsAt(turn.env, start, ws, i);
    var s2, sigs := ScanEventsAt(turn.env, s1, ws[i].sigpending, i, ws[i].events, j);
    TimerOfThreads(turn.env, start, ws);
    var f, l := Adjust(turn.answer, dopoll || s.any, pipe), Late(s.conds, turn.answer.raised);
    var l1 := DeliverThreadsAt(f, l, ws2, i);
    var l2 := DeliverEventsAt(f, l1, ws2[i].events, j);
  }

  lemma {:induction false} RoundShape(turn: Turn, conds: Conds, ws: seq<Waiter>, dopoll: bool, pipe: nat, i: nat)
    requires i < |ws|
    ensures var w := RunRound(turn, conds, ws, dopoll, pipe).waiters[i];
      |w.events| == |ws[i].events| && w.cancelreq == ws[i].cancelreq
  {
    hide ScanThreads, DeliverThreads, ScanEvents, DeliverEvents, Check, Adjust;
    var start := Start(conds, turn.pending);
    var (s, ws1) := ScanThreads(turn.env, start, ws);
    var ws2 := BeforeDelivery(turn, conds, ws, dopoll);
    var s1 := ScanThreadsAt(turn.env, start, ws, i);
    TimerOfThreads(turn.env, start, ws);
    var f, l := Adjust(turn.answer, dopoll || s.any, pipe), Late(s.conds, turn.answer.raised);
    var l1 := DeliverThreadsAt(f, l, ws2, i);
  }

  /** A thread that does not wake up keeps its ring. */
  lemma {:induction false} RoundKeepsRing(turn: Turn, conds: Conds, ws: seq<Waiter>, dopoll: bool, pipe: nat, i: nat)
    requires i < |ws| && !Wakes(RunRound(turn, conds, ws, dopoll, pipe).waiters[i])
    ensures RunRound(turn, conds, ws, dopoll, pipe).waiters[i].events == ws[i].events
  {
    hide RunRound;
    var w := RunRound(turn, conds, ws, dopoll, pipe).waiters[i];
    RoundShape(turn, conds, ws, dopoll, pipe, i);
    forall j | 0 <= j < |w.events| ensures w.events[j] == ws[i].events[j] {
      RoundEvent(turn, conds, ws, dopoll, pipe, i, j);
    }
  }

  // ---------------------------------------------------------------------------------------
  // A round on the machine

  lemma {:induction false} Unique(q: Queue, i: nat, j: nat)
    requires i < j < |q| && Bag(q)[q[i].thread] <= 1
    ensures q[i].thread != q[j].thread
  {
    var ts := Threads(q);
    assert ts == ts[..j] + [ts[j]] + ts[j + 1..];
    assert ts[..j][i] == ts[i];
  }

  lemma {:induction false} Apart(m: Machine, held: set<nat>)
    requires Sound(m, held)
    ensures forall i, j :: 0 <= i < j < |m.wq| ==> m.wq[i].thread != m.wq[j].thread
  {
    hide Bag, StatesOk, Ordered;
    forall i, j | 0 <= i < j < |m.wq| ensures m.wq[i].thread != m.wq[j].thread {
      assert Places(m, m.wq[i].thread) <= 1;
      Unique(m.wq, i, j);
    }
  }

  lemma {:induction false} StoreAt(tcbs: map<nat, Tcb>, ws: seq<Waiter>, i: nat)
    requires i < |ws| && ws[i].tid in tcbs
    requires forall i, j :: 0 <= i < j < |ws| ==> ws[i].tid != ws[j].tid
    ensures ws[i].tid in Store(tcbs, ws)
    ensures var b := Store(tcbs, ws)[ws[i].tid];
      b.events == ws[i].events && b.cancelreq == tcbs[ws[i].tid].cancelreq
  {
    var n := |ws| - 1;
    if i < n {
      StoreAt(tcbs, ws[..n], i);
    } else {
      StoreOther(tcbs, ws[..n], ws[i].tid);
    }
  }

  lemma {:induction false} StoreOther(tcbs: map<nat, Tcb>, ws: seq<Waiter>, t: nat)
    requires forall i :: 0 <= i < |ws| ==> ws[i].tid != t
    ensures t in Store(tcbs, ws) <==> t in tcbs
    ensures t in tcbs ==> Store(tcbs, ws)[t] == tcbs[t]
  {
    if ws != [] {
      StoreOther(tcbs, ws[..|ws| - 1], t);
    }
  }

  /** What a round does to a thread that waits: it wakes up and leaves, or stays as it was. */
  lemma {:induction false} RoundWaiter(m: Machine, turn: Turn, dopoll: bool, t: nat)
    requires Sound(m, {}) && Waits(m, t)
    ensures var r := RunRound(turn, m.conds, Waiters(m), dopoll, m.pipe);
      var m', w := Settle(m, r), r.waiters[IndexOf(m.wq, t)];
      && (Waits(m', t) <==> !Wakes(w)) && Look(m', t).cancelreq == Look(m, t).cancelreq
      && (Wakes(w) ==> Look(m', t).state == Ready)
      && (!Wakes(w) ==> Look(m', t).state == Look(m, t).state && Look(m', t).events == Look(m, t).events)
  {
    hide RunRound, Bag, Keep, Wake, Store, WokenSet, Ordered, StatesOk, IndexOf, Wakes;
    var r := RunRound(turn, m.conds, Waiters(m), dopoll, m.pipe);
    var m', i := Settle(m, r), IndexOf(m.wq, t);
    forall i | 0 <= i < |m.wq| ensures r.waiters[i].tid == m.wq[i].thread {
      RoundTids(turn, m.conds, Waiters(m), dopoll, m.pipe, i);
    }
    Apart(m, {});
    BagQueued(m.wq, t);
    BagQueued(m'.wq, t);
    assert t in m.tcbs by { assert Places(m, t) >= 1; }
    WakeBag(m, WokenSet(r.waiters), t);
    assert t in WokenSet(r.waiters) <==> Wakes(r.waiters[i]);
    StoreStates(m.tcbs, r.waiters, t);
    StoreAt(m.tcbs, r.waiters, i);
    if !Wakes(r.waiters[i]) {
      RoundKeepsRing(turn, m.conds, Waiters(m), dopoll, m.pipe, i);
    }
  }

  lemma {:induction false} RoundOther(m: Machine, turn: Turn, dopoll: bool, t: nat)
    requires Sound(m, {}) && !Waits(m, t)
    ensures var m' := Settle(m, RunRound(turn, m.conds, Waiters(m), dopoll, m.pipe));
      !Waits(m', t) && Look(m', t) == Look(m, t)
  {
    hide RunRound, Bag, Keep, Wake, Store, WokenSet, Ordered, StatesOk, IndexOf, Wakes, Conserved;
    var r := RunRound(turn, m.conds, Waiters(m), dopoll, m.pipe);
    forall i | 0 <= i < |m.wq| ensures r.waiters[i].tid == m.wq[i].thread && m.wq[i].thread != t {
      RoundTids(turn, m.conds, Waiters(m), dopoll, m.pipe, i);
    }
    BagQueued(m.wq, t);
    BagQueued(Settle(m, r).wq, t);
    WakeBag(m, WokenSet(r.waiters), t);
    StoreOther(m.tcbs, r.waiters, t);
  }

  lemma {:induction false} WaiterRing(m: Machine, t: nat)
    requires Waits(m, t)
    ensures var w := Waiters(m)[IndexOf(m.wq, t)];
      w.tid == t && w.events == Look(m, t).events && w.cancelreq == Look(m, t).cancelreq
  {
  }

  // ---------------------------------------------------------------------------------------
  // The beginning and the end of a switch

  lemma {:induction false} PlaceOthers(m: Machine, c: Cause, u: nat)
    requires Inv(m)
    ensures var m', t := Place(m, c), m.current;
      && (u != t ==> (Waits(m', u) <==> Waits(m, u)) && Look(m', u) == Look(m, u))
      && (c.Wait? ==> Waits(m', t)) && m'.sq == m.sq
  {
    hide Insert, IndexOf, Bag, Conserved, StatesOk, Ordered;
    var p := Look(m, m.current).prio;
    BagInsert(m.wq, p, m.current);
    BagQueued(m.wq, u);
    BagQueued(Insert(m.wq, p, m.current), u);
    BagQueued(Insert(m.wq, p, m.current), m.current);
  }

  /** The last of the new threads becomes ready. */
  function Moved(m: Machine): Machine
    requires m.nq != []
  {
    var t := m.nq[|m.nq| - 1].thread;
    var p := if m.favournew then FavoritePrio(m.rq) else PRIO_STD;
    Put(m, t, Look(m, t).(state := Ready)).(nq := m.nq[..|m.nq| - 1], rq := Insert(m.rq, p, t))
  }

  lemma {:induction false} DrainMoves(m: Machine)
    ensures Drain(m) == if m.nq == [] then m else Drain(Moved(m))
  {
  }

  lemma {:induction false} MovedLeaves(m: Machine, t: nat)
    requires m.nq != []
    ensures var m' := Moved(m);
      && m'.wq == m.wq && m'.sq == m.sq && m'.conds == m.conds && |m'.nq| == |m.nq| - 1
      && (Look(m', t) == Look(m, t) || Look(m', t) == Look(m, t).(state := Ready))
      && (!Queued(m.nq, t) ==> Look(m', t) == Look(m, t) && !Queued(m'.nq, t))
  {
    var n := |m.nq| - 1;
    if !Queued(m.nq, t) {
      assert m.nq[n].thread != t;
      assert forall i :: 0 <= i < n ==> m.nq[..n][i].thread != t;
    }
  }

  lemma {:induction false} DrainLeaves(m: Machine, t: nat)
    ensures Drain(m).wq == m.wq && Drain(m).sq == m.sq && Drain(m).conds == m.conds
    ensures Look(Drain(m), t) == Look(m, t) || Look(Drain(m), t) == Look(m, t).(state := Ready)
    ensures !Queued(m.nq, t) ==> Look(Drain(m), t) == Look(m, t)
    decreases |m.nq|
  {
    hide Drain, Moved, Look, Queued;
    DrainMoves(m);
    if m.nq != [] {
      MovedLeaves(m, t);
      DrainLeaves(Moved(m), t);
    }
  }

  // ---------------------------------------------------------------------------------------
  // What the running thread calls

  /** Calls that move a thread to another queue, or mark it so that it leaves the waiting queue. */
  predicate Moves(step: Step, t: nat) {
    (step.SuspendStep? || step.ResumeStep? || step.CancelStep? || step.AbortStep?) && step.h == Thread(t)
  }

  predicate Suspended(m: Machine, t: nat) { Queued(m.sq, t) }

  /** Thread t has the same ring as before, in the same state. */
  ghost predicate SameRing(m: Machine, m': Machine, t: nat) {
    var b, b' := Look(m, t), Look(m', t);
    b'.state == b.state && b'.events == b.events && b'.cancelreq == b.cancelreq
  }

  /** Thread t waits on, or stays suspended, as before, unless it is moved, and nobody begins to wait. */
  ghost predicate Leaves(m: Machine, m': Machine, t: nat, moved: bool) {
    && (Look(m', t).state == Waiting ==> Look(m, t).state == Waiting && Look(m', t).events == Look(m, t).events)
    && (!moved ==> (Suspended(m', t) <==> Suspended(m, t)))
    && (!moved && Waits(m, t) ==> Waits(m', t) && SameRing(m, m', t))
    && (!moved && Suspended(m, t) ==> SameRing(m, m', t))
  }

  lemma {:induction false} OthersWait(q: Queue, u: nat, p: int, t: nat)
    ensures u != t ==> (Queued(Delete(q, u), t) <==> Queued(q, t))
    ensures Queued(q, t) ==> Queued(Insert(q, p, u), t)
    ensures Queued(Insert(q, p, u), t) ==> Queued(q, t) || u == t
  {
    hide Bag, Delete, Insert, IndexOf;
    BagDelete(q, u);
    BagInsert(q, p, u);
    BagQueued(q, t);
    BagQueued(Delete(q, u), t);
    BagQueued(Insert(q, p, u), t);
  }

  lemma {:induction false} SuspendLeaves(m: Machine, h: Handle, t: nat)
    ensures Leaves(m, Suspend(m, h).0, t, h == Thread(t))
  {
    hide Delete, Insert, Queued;
    if h.Thread? {
      OthersWait(m.wq, h.id, 0, t);
      OthersWait(m.sq, h.id, PRIO_STD, t);
    }
  }

  lemma {:induction false} ResumeLeaves(m: Machine, h: Handle, t: nat)
    ensures Leaves(m, Resume(m, h).0, t, h == Thread(t))
  {
    hide Delete, Insert, Queued;
    if h.Thread? {
      OthersWait(m.wq, h.id, PRIO_STD, t);
      OthersWait(m.sq, h.id, 0, t);
    }
  }

  lemma {:induction false} BuryLeaves(m: Machine, u: nat, t: nat)
    ensures Leaves(m, Bury(m, u), t, u == t)
  {
    hide Insert, Queued;
  }

  lemma {:induction false} KickLeaves(m: Machine, b: Tcb, u: nat, t: nat)
    requires b == Look(m, u).(cancelreq := true)
    ensures var m1 := Put(m, u, b);
      && Leaves(m, m1, t, u == t)
      && Leaves(m, WithQueue(m1, b.state, Delete(QueueOf(m1, b.state), u)), t, u == t)
  {
    hide Delete, Queued;
    OthersWait(m.wq, u, 0, t);
  }

  lemma {:induction false} CancelLeaves(m: Machine, h: Handle, t: nat)
    ensures Leaves(m, Cancel(m, h).0, t, h == Thread(t))
  {
    hide Delete, Queued, Bury, WithQueue, QueueOf, Waits;
    if h.Thread? {
      var u := h.id;
      var b := Look(m, u).(cancelreq := true);
      var m1 := Put(m, u, b);
      KickLeaves(m, b, u, t);
      BuryLeaves(WithQueue(m1, b.state, Delete(QueueOf(m1, b.state), u)), u, t);
    }
  }

  lemma {:induction false} JoinLeaves(m: Machine, tid: Option<nat>, t: nat)
    requires Inv(m)
    ensures Leaves(m, JoinDead(m, tid).0, t, false)
  {
    hide Delete, Conserved, Ordered, IndexOf, Bag;
    BagQueued(m.wq, t);
    BagQueued(m.sq, t);
  }

  lemma {:induction false} AbortLeaves(m: Machine, h: Handle, t: nat)
    requires Inv(m)
    ensures Leaves(m, Abort(m, h).0, t, h == Thread(t))
  {
    hide Inv, Cancel, JoinDead, JoinPlanOf, Queued;
    if h.Thread? {
      CancelLeaves(Put(m, h.id, Look(m, h.id).(joinable := false, cancelEnable := true, cancelAsync := true)), h, t);
      match JoinPlanOf(m, Some(h.id)) {
        case JoinAtOnce(tid) => JoinLeaves(m, tid, t);
        case _ =>
      }
    }
  }

  lemma {:induction false} CallLeaves(m: Machine, step: Step, t: nat)
    requires Inv(m) && Legal(m, step) && !Switches(m, step)
    ensures Apply(m, step).Running? && Leaves(m, Apply(m, step).machine, t, Moves(step, t))
  {
    hide Inv, Suspend, Resume, Cancel, Abort, JoinDead, JoinPlanOf, Favour, Spawn, Raise, WithSetting, HonestSwitch,
      Queued;
    match step {
      case SuspendStep(h) => SuspendLeaves(m, h, t);
      case ResumeStep(h) => ResumeLeaves(m, h, t);
      case CancelStep(h) => CancelLeaves(m, h, t);
      case AbortStep(h) => AbortLeaves(m, h, t);
      case JoinStep(tid) =>
        if JoinPlanOf(m, tid).JoinAtOnce? { JoinLeaves(m, JoinPlanOf(m, tid).tid, t); }
      case ReapStep(tid) => JoinLeaves(m, tid, t);
      case SpawnStep(u, a) => SpawnLeaves(m, u, a, t);
      case RaiseStep(h, sig, ignored) => RaiseLeaves(m, h, sig, ignored, t);
      case AttrStep(u, x) => SettingLeaves(m, u, x, t);
      case _ =>
    }
  }

  lemma {:induction false} RaiseLeaves(m: Machine, h: Handle, sig: int, ignored: bool, t: nat)
    ensures Leaves(m, Raise(m, h, sig, ignored).0, t, false)
  {
    hide Queued;
  }

  lemma {:induction false} SettingLeaves(m: Machine, u: nat, x: Setting, t: nat)
    ensures Leaves(m, Put(m, u, WithSetting(Look(m, u), x)), t, false)
  {
    hide Queued;
  }

  lemma {:induction false} SpawnLeaves(m: Machine, u: nat, a: Attr, t: nat)
    requires Inv(m) && u !in m.tcbs
    ensures Leaves(m, Spawn(m, u, a), t, false)
  {
    hide Insert, StatesOk, Ordered, IndexOf, Bag;
    BagQueued(m.wq, t);
    BagQueued(m.sq, t);
    assert Places(m, u) == 0;
  }

  // ---------------------------------------------------------------------------------------
  // Raised signals

  lemma {:induction false} NotWaiting(m: Machine)
    requires Inv(m)
    ensures !Waits(m, m.current)
  {
    hide Bag, StatesOk, Ordered, IndexOf;
    BagQueued(m.wq, m.current);
    assert Places(m, m.current) == 0;
  }

  lemma {:induction false} RaisedRound(m: Machine, turn: Turn, dopoll: bool, t: nat, sig: nat)
    requires Sound(m, {}) && Waits(m, t) && sig in Look(m, t).sigpending && sig in Sought(Look(m, t).events)
    ensures !Waits(Settle(m, RunRound(turn, m.conds, Waiters(m), dopoll, m.pipe)), t)
  {
    hide RunRound, Settle, Sound, Sought, IndexOf;
    RoundWaiter(m, turn, dopoll, t);
    WaiterRing(m, t);
    PendingSignalWakes(turn, m.conds, Waiters(m), dopoll, m.pipe, IndexOf(m.wq, t), sig);
  }

  lemma {:induction false} RoundSigpending(turn: Turn, conds: Conds, ws: seq<Waiter>, dopoll: bool, pipe: nat, i: nat)
    requires i < |ws|
    ensures RunRound(turn, conds, ws, dopoll, pipe).waiters[i].sigpending == ws[i].sigpending - Sought(ws[i].events)
  {
    hide ScanThreads, DeliverThreads, ScanEvents, DeliverEvents, Check, Adjust, Sought;
    var start := Start(conds, turn.pending);
    var (s, ws1) := ScanThreads(turn.env, start, ws);
    var s1 := ScanThreadsAt(turn.env, start, ws, i);
    ScanSignals(turn.env, s1, ws[i].sigpending, i, ws[i].events);
    TimerOfThreads(turn.env, start, ws);
    var ws2 := BeforeDelivery(turn, conds, ws, dopoll);
    var f, l := Adjust(turn.answer, dopoll || s.any, pipe), Late(s.conds, turn.answer.raised);
    var l1 := DeliverThreadsAt(f, l, ws2, i);
  }

  lemma {:induction false} StoreSig(tcbs: map<nat, Tcb>, ws: seq<Waiter>, i: nat)
    requires i < |ws| && ws[i].tid in tcbs
    requires forall i, j :: 0 <= i < j < |ws| ==> ws[i].tid != ws[j].tid
    ensures ws[i].tid in Store(tcbs, ws) && Store(tcbs, ws)[ws[i].tid].sigpending == ws[i].sigpending
  {
    var n := |ws| - 1;
    if i < n {
      StoreSig(tcbs, ws[..n], i);
    } else {
      StoreOther(tcbs, ws[..n], ws[i].tid);
    }
  }

  /** A signal raised for a thread is used up by the round that finds an event which seeks it, and stays
      pending otherwise: it ends one wait at most. */
  lemma {:induction false} SignalUsedOnce(m: Machine, turn: Turn, dopoll: bool, t: nat)
    requires Sound(m, {}) && Waits(m, t)
    ensures var m' := Settle(m, RunRound(turn, m.conds, Waiters(m), dopoll, m.pipe));
      forall sig: nat :: sig in Look(m', t).sigpending <==>
        sig in Look(m, t).sigpending && sig !in Sought(Look(m, t).events)
  {
    hide RunRound, Bag, Keep, Wake, Store, WokenSet, Ordered, StatesOk, IndexOf, Wakes, Sought;
    var r, i := RunRound(turn, m.conds, Waiters(m), dopoll, m.pipe), IndexOf(m.wq, t);
    forall i | 0 <= i < |m.wq| ensures r.waiters[i].tid == m.wq[i].thread {
      RoundTids(turn, m.conds, Waiters(m), dopoll, m.pipe, i);
    }
    Apart(m, {});
    BagQueued(m.wq, t);
    assert t in m.tcbs by { assert Places(m, t) >= 1; }
    StoreSig(m.tcbs, r.waiters, i);
    RoundSigpending(turn, m.conds, Waiters(m), dopoll, m.pipe, i);
  }

  /** Nobody begins to wait in a round. */
  lemma {:induction false} RoundsWait(m: Machine, turns: seq<Turn>, dopoll: bool, t: nat)
    requires Sound(m, {}) && !Waits(m, t) && Rounds(m, turns, dopoll).Some?
    ensures !Waits(Rounds(m, turns, dopoll).value, t)
    decreases |turns|
  {
    hide RunRound, Settle, Sound, Waits, Waiters;
    RoundOther(m, turns[0], dopoll, t);
    var r := RunRound(turns[0], m.conds, Waiters(m), dopoll, m.pipe);
    if r.repeat {
      RoundKeeps(m, turns[0], dopoll);
      RoundsWait(Settle(m, r), turns[1..], dopoll, t);
    }
  }

  /** A thread that waits for a signal is out of the waiting queue after the first switch that follows
      when the signal is raised for it, whatever else it or anybody waits for. */
  lemma {:induction false} RaiseEndsWait(m: Machine, t: nat, sig: nat, j: nat, c: Cause, turns: seq<Turn>)
    requires 0 < sig < NSIG
    requires Inv(m) && Waits(m, t) && j < |Look(m, t).events| && Look(m, t).events[j].status == Pending
    requires Look(m, t).events[j].kind.Sigs? && sig in Look(m, t).events[j].kind.sigs
    requires Resched(Raise(m, Thread(t), sig, false).0, c, turns).Running?
    ensures Raise(m, Thread(t), sig, false).1 == Ok
    ensures !Waits(Resched(Raise(m, Thread(t), sig, false).0, c, turns).machine, t)
  {
    hide Inv, Sound, Place, Drain, RunRound, Settle, Sought, Queued;
    NotWaiting(m);
    SoughtAt(Look(m, t).events, j);
    var m0 := Raise(m, Thread(t), sig, false).0;
    RaiseKeeps(m, t, sig);
    var m1 := Place(m0, c);
    PlaceKeeps(m0, c);
    PlaceOthers(m0, c, t);
    var m2 := Rounds(m1, turns, Polls(m1)).value;
    var r := RunRound(turns[0], m1.conds, Waiters(m1), Polls(m1), m1.pipe);
    RaisedRound(m1, turns[0], Polls(m1), t, sig);
    RoundKeeps(m1, turns[0], Polls(m1));
    if r.repeat {
      RoundsWait(Settle(m1, r), turns[1..], Polls(m1), t);
    }
    DrainLeaves(m2, t);
  }

  lemma {:induction false} RaiseKeeps(m: Machine, t: nat, sig: nat)
    requires Inv(m) && Waits(m, t) && 0 < sig <= NSIG
    ensures Inv(Raise(m, Thread(t), sig, false).0)
  {
    hide Bag, StatesOk, Ordered, IndexOf;
    BagQueued(m.wq, t);
    assert Places(m, t) >= 1;
    StepKeeps(m, RaiseStep(Thread(t), sig, false));
  }

  /** Raising signal sig for a thread that waits for it, and that the next round would otherwise leave
      waiting, wakes it in that round exactly when sig is below NSIG; NSIG itself is accepted as well. */
  lemma {:induction false} RaiseWakesExactly(m: Machine, t: nat, sig: nat, j: nat, turn: Turn, dopoll: bool)
    requires Sound(m, {}) && Waits(m, t) && t != m.current && 0 < sig <= NSIG
    requires j < |Look(m, t).events| && Look(m, t).events[j].status == Pending
    requires Look(m, t).events[j].kind.Sigs? && sig in Look(m, t).events[j].kind.sigs
    requires Waits(Settle(m, RunRound(turn, m.conds, Waiters(m), dopoll, m.pipe)), t)
    ensures var (m', reply) := Raise(m, Thread(t), sig, false);
      && reply == Ok
      && (!Waits(Settle(m', RunRound(turn, m'.conds, Waiters(m'), dopoll, m'.pipe)), t) <==> sig < NSIG)
  {
    hide RunRound, Settle, Sound, IndexOf, Sought;
    var m', i := Raise(m, Thread(t), sig, false).0, IndexOf(m.wq, t);
    RaiseSound(m, t, sig);
    if sig < NSIG {
      SoughtAt(Look(m, t).events, j);
      RaisedRound(m', turn, dopoll, t, sig);
    } else {
      RaisedWaiters(m, t, sig);
      UnseenRound(turn, m.conds, Waiters(m), dopoll, m.pipe, i, sig);
      RoundWaiter(m, turn, dopoll, t);
      RoundWaiter(m', turn, dopoll, t);
    }
  }

  lemma {:induction false} RaiseSound(m: Machine, t: nat, sig: nat)
    requires Sound(m, {}) && Waits(m, t) && t != m.current && 0 < sig <= NSIG
    ensures Sound(Raise(m, Thread(t), sig, false).0, {})
  {
    hide Bag, StatesOk, Ordered, IndexOf;
    BagQueued(m.wq, t);
    assert Places(m, t) >= 1;
    var b := Look(m, t);
    ChangeAny(m, {}, t, b.(sigpending := b.sigpending + {sig}));
  }

  lemma {:induction false} RaisedWaiters(m: Machine, t: nat, sig: nat)
    requires Sound(m, {}) && Waits(m, t) && t != m.current && 0 < sig <= NSIG
    ensures Waiters(Raise(m, Thread(t), sig, false).0) == WithSig(Waiters(m), IndexOf(m.wq, t), sig)
  {
    hide Sound, IndexOf;
    Apart(m, {});
  }
}
