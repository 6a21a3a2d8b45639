/** The waiting queue of the scheduler and the threads that use one mutex and one condition variable:
    who waits in the queue for which of the two, and how that changes in a context switch. */
module Coupling {
  import opened PriorityOrder
  import opened PriorityFacts
  import opened EventManager
  import opened Scheduler
  import opened Partition
  import opened Runs
  import opened WaitQueue
  import opened Marking
  import Passes

  /** The event manager knows the condition variable and the mutex by these names. */
  datatype Names = Names(cond: nat, mutex: nat)

  /** A ring that has nothing to do with the two. */
  ghost predicate Foreign(v: Names, events: seq<Event>) {
    forall j :: 0 <= j < |events| ==> events[j].kind != Cond(v.cond) && events[j].kind != Mutex(v.mutex)
  }

  /** Who waits in the queue for the condition, whose wait may also end by an extra event, and who waits
      there for the mutex; who is suspended in such a wait; and the flags of the condition. */
  datatype Tie = Tie(v: Names, flags: CondFlags, sleepers: set<nat>, extra: set<nat>, lockers: set<nat>,
                     napping: set<nat>, queueing: set<nat>)

  predicate Listed(x: Tie, t: nat) { t in x.sleepers || t in x.lockers || t in x.napping || t in x.queueing }

  ghost predicate SleepRing(x: Tie, t: nat, b: Tcb) {
    && !b.cancelreq && b.events != [] && b.events[0].kind == Cond(x.v.cond)
    && (forall j :: 0 <= j < |b.events| ==> b.events[j].status == Pending)
    && Foreign(x.v, b.events[1..]) && (t in x.extra <==> |b.events| > 1)
  }

  ghost predicate LockRing(x: Tie, b: Tcb) {
    !b.cancelreq && b.events == [Event(Mutex(x.v.mutex), Pending)]
  }

  ghost predicate SleepsWell(m: Machine, x: Tie, t: nat) { Waits(m, t) && SleepRing(x, t, Look(m, t)) }

  ghost predicate LocksWell(m: Machine, x: Tie, t: nat) { Waits(m, t) && LockRing(x, Look(m, t)) }

  ghost predicate NapsWell(m: Machine, x: Tie, t: nat) {
    Suspended(m, t) && Look(m, t).state == Waiting && SleepRing(x, t, Look(m, t))
  }

  ghost predicate QueuesWell(m: Machine, x: Tie, t: nat) {
    Suspended(m, t) && Look(m, t).state == Waiting && LockRing(x, Look(m, t))
  }

  /** The queues hold exactly these threads for the condition and for the mutex. */
  ghost predicate Tied(m: Machine, x: Tie) {
    && Flags(m.conds, x.v.cond) == x.flags
    && (forall t :: t in x.sleepers ==> SleepsWell(m, x, t))
    && (forall t :: t in x.lockers ==> LocksWell(m, x, t))
    && (forall t :: t in x.napping ==> NapsWell(m, x, t))
    && (forall t :: t in x.queueing ==> QueuesWell(m, x, t))
    && (forall t: nat {:trigger Look(m, t)} ::
          Look(m, t).state == Waiting && !Listed(x, t) ==> Foreign(x.v, Look(m, t).events))
  }

  // ---------------------------------------------------------------------------------------
  // A round of the event manager

  /** Everybody in the queue waits for the condition, for the mutex, or for neither. */
  lemma {:induction false} QueueKinds(m: Machine, x: Tie, i: nat)
    requires Sound(m, {}) && Tied(m, x) && i < |m.wq|
    ensures var w := Waiters(m)[i];
      && (w.tid in x.sleepers <==> Passes.Awaits(w, Cond(x.v.cond)))
      && (w.tid in x.lockers ==> Passes.Awaits(w, Mutex(x.v.mutex)))
      && forall j :: 0 <= j < |w.events| && w.events[j].kind == Cond(x.v.cond) ==>
           j == 0 && w.events[j].status == Pending
  {
    hide Conserved, Ordered, IndexOf;
    var t := m.wq[i].thread;
    Member(m.wq, i);
    BagQueued(m.wq, t);
    assert Look(m, t).state == Waiting;
    NotSuspended(m, {}, t);
    if t in x.sleepers {
      var es := Look(m, t).events;
      assert forall j :: 1 <= j < |es| ==> es[1..][j - 1] == es[j];
    }
  }

  lemma {:induction false} Member(q: Queue, i: nat)
    requires i < |q|
    ensures Queued(q, q[i].thread)
  {
  }

  lemma {:induction false} NotSuspended(m: Machine, held: set<nat>, t: nat)
    requires Sound(m, held)
    ensures Waits(m, t) ==> !Suspended(m, t)
    ensures t in held ==> !Waits(m, t) && !Suspended(m, t)
  {
    hide Bag, StatesOk, Ordered, IndexOf;
    BagQueued(m.wq, t);
    BagQueued(m.sq, t);
    assert Places(m, t) <= 1;
  }

  lemma {:induction false} QueueShape(m: Machine, x: Tie)
    requires Sound(m, {}) && Tied(m, x)
    ensures Passes.Shape(Waiters(m), x.v.cond) && Passes.WaitingFor(Waiters(m), x.v.cond) == x.sleepers
  {
    hide Sound, Tied, Passes.Awaits;
    Apart(m, {});
    var ws := Waiters(m);
    forall i | 0 <= i < |ws|
      ensures ws[i].tid in x.sleepers <==> Passes.Awaits(ws[i], Cond(x.v.cond))
      ensures forall j :: 0 <= j < |ws[i].events| && ws[i].events[j].kind == Cond(x.v.cond) ==>
                j == 0 && ws[i].events[j].status == Pending
    {
      QueueKinds(m, x, i);
    }
    forall t | t in x.sleepers ensures t in Passes.WaitingFor(ws, x.v.cond) {
      assert Waits(m, t) by { TiedSleeper(m, x, t); }
      WaiterRing(m, t);
    }
  }

  lemma {:induction false} TiedSleeper(m: Machine, x: Tie, t: nat)
    requires Tied(m, x) && t in x.sleepers
    ensures SleepsWell(m, x, t)
  {
  }

  /** A thread in the waiting queue as the round finds it and leaves it. */
  lemma {:induction false} RoundWakes(m: Machine, turn: Turn, dopoll: bool, t: nat)
    requires Sound(m, {}) && Waits(m, t) && !Look(m, t).cancelreq
    requires forall j :: 0 <= j < |Look(m, t).events| ==> Look(m, t).events[j].status == Pending
    ensures var r := RunRound(turn, m.conds, Waiters(m), dopoll, m.pipe);
      var w := r.waiters[IndexOf(m.wq, t)];
      && |w.events| == |Look(m, t).events|
      && (Waits(Settle(m, r), t) <==> forall j :: 0 <= j < |w.events| ==> w.events[j].status != Occurred)
  {
    hide RunRound, Settle, Sound, IndexOf;
    var r, i := RunRound(turn, m.conds, Waiters(m), dopoll, m.pipe), IndexOf(m.wq, t);
    RoundWaiter(m, turn, dopoll, t);
    WaiterRing(m, t);
    RoundShape(turn, m.conds, Waiters(m), dopoll, m.pipe, i);
    var w := r.waiters[i];
    forall j | 0 <= j < |w.events| ensures w.events[j].status != Failed {
      RoundEvent(turn, m.conds, Waiters(m), dopoll, m.pipe, i, j);
    }
  }

  lemma {:induction false} SleeperRound(m: Machine, turn: Turn, dopoll: bool, x: Tie, t: nat, woken: set<nat>)
    requires Sound(m, {}) && Tied(m, x) && t in x.sleepers
    requires woken == Passes.Woken(Waiters(m), RunRound(turn, m.conds, Waiters(m), dopoll, m.pipe).waiters, x.v.cond)
    ensures var m' := Settle(m, RunRound(turn, m.conds, Waiters(m), dopoll, m.pipe));
      && (t in woken ==> !Waits(m', t))
      && (t !in woken && t !in x.extra ==> Waits(m', t))
      && (if Waits(m', t) then SleepsWell(m', x, t) else Look(m', t).state == Ready)
  {
    hide RunRound, Settle, Sound, IndexOf;
    var ws, r, i := Waiters(m), RunRound(turn, m.conds, Waiters(m), dopoll, m.pipe), IndexOf(m.wq, t);
    TiedSleeper(m, x, t);
    RoundWakes(m, turn, dopoll, t);
    RoundWaiter(m, turn, dopoll, t);
    WaiterRing(m, t);
    assert t in woken <==> r.waiters[i].events[0].status == Occurred by {
      Apart(m, {});
    }
  }

  lemma {:induction false} LockerRound(m: Machine, turn: Turn, dopoll: bool, x: Tie, t: nat)
    requires Sound(m, {}) && Tied(m, x) && t in x.lockers
    ensures var m' := Settle(m, RunRound(turn, m.conds, Waiters(m), dopoll, m.pipe));
      && (Waits(m', t) <==> x.v.mutex in turn.env.locked)
      && (if Waits(m', t) then LocksWell(m', x, t) else Look(m', t).state == Ready)
  {
    hide RunRound, Settle, Sound, IndexOf;
    assert LocksWell(m, x, t);
    RoundWakes(m, turn, dopoll, t);
    RoundWaiter(m, turn, dopoll, t);
    WaiterRing(m, t);
    Passes.LockPass(turn, m.conds, Waiters(m), dopoll, m.pipe, IndexOf(m.wq, t), x.v.mutex);
  }

  lemma {:induction false} ForeignRound(m: Machine, turn: Turn, dopoll: bool, x: Tie, t: nat)
    requires Sound(m, {}) && Tied(m, x) && !Listed(x, t)
    ensures var m' := Settle(m, RunRound(turn, m.conds, Waiters(m), dopoll, m.pipe));
      Look(m', t).state == Waiting ==> Foreign(x.v, Look(m', t).events)
  {
    hide RunRound, Settle, Sound, IndexOf;
    if Waits(m, t) {
      RoundWaiter(m, turn, dopoll, t);
    } else {
      RoundOther(m, turn, dopoll, t);
    }
    assert Look(m, t).state == Waiting ==> Foreign(x.v, Look(m, t).events);
  }

  /** A round does not see a thread that is suspended. */
  lemma {:induction false} AwayRound(m: Machine, turn: Turn, dopoll: bool, x: Tie, t: nat)
    requires Sound(m, {}) && Tied(m, x)
    ensures var m' := Settle(m, RunRound(turn, m.conds, Waiters(m), dopoll, m.pipe));
      (t in x.napping ==> NapsWell(m', x, t)) && (t in x.queueing ==> QueuesWell(m', x, t))
  {
    hide RunRound, Sound, IndexOf, Store, Keep, Wake;
    if t in x.napping || t in x.queueing {
      assert Suspended(m, t) by { assert t in x.napping ==> NapsWell(m, x, t); }
      NotSuspended(m, {}, t);
      RoundOther(m, turn, dopoll, t);
    }
  }

  /** A round releases one waiter of the condition, all or none, as a pass chooses them, and besides
      only those whose extra event has occurred; it releases those who wait for the mutex exactly when
      that is free; everybody else stays in the queue. */
  lemma {:induction false} TieRound(m: Machine, turn: Turn, dopoll: bool, x: Tie) returns (who: nat, extras: set<nat>)
    requires Sound(m, {}) && Tied(m, x)
    ensures who in x.sleepers || x.sleepers == {}
    ensures extras <= x.sleepers * x.extra
    ensures Tied(Settle(m, RunRound(turn, m.conds, Waiters(m), dopoll, m.pipe)),
                 x.(flags := FlagsAfter(x.flags, x.sleepers, who),
                    sleepers := x.sleepers - Chosen(x.flags, x.sleepers, who) - extras,
                    lockers := if x.v.mutex in turn.env.locked then x.lockers else {}))
  {
    hide RunRound, Sound, SleepsWell, LocksWell, NapsWell, QueuesWell, Foreign, Passes.Shape, Passes.Woken,
      Passes.WaitingFor, Chosen, FlagsAfter;
    var r := RunRound(turn, m.conds, Waiters(m), dopoll, m.pipe);
    var m' := Settle(m, r);
    QueueShape(m, x);
    who := Passes.CondPass(turn, m.conds, Waiters(m), dopoll, m.pipe, x.v.cond);
    var woken := Chosen(x.flags, x.sleepers, who);
    extras := set t | t in x.sleepers && t !in woken && !Waits(m', t);
    forall t | t in x.sleepers
      ensures t in woken ==> !Waits(m', t)
      ensures t !in woken && t !in x.extra ==> Waits(m', t)
      ensures if Waits(m', t) then SleepsWell(m', x, t) else Look(m', t).state == Ready
    {
      SleeperRound(m, turn, dopoll, x, t, woken);
    }
    forall t | t in x.lockers
      ensures Waits(m', t) <==> x.v.mutex in turn.env.locked
      ensures if Waits(m', t) then LocksWell(m', x, t) else Look(m', t).state == Ready
    {
      LockerRound(m, turn, dopoll, x, t);
    }
    forall t: nat
      ensures (t in x.napping ==> NapsWell(m', x, t)) && (t in x.queueing ==> QueuesWell(m', x, t))
    {
      AwayRound(m, turn, dopoll, x, t);
    }
    forall t: nat | !Listed(x, t) && Look(m', t).state == Waiting
      ensures Foreign(x.v, Look(m', t).events)
    {
      ForeignRound(m, turn, dopoll, x, t);
    }
    var y := x.(flags := FlagsAfter(x.flags, x.sleepers, who), sleepers := x.sleepers - woken - extras,
                lockers := if x.v.mutex in turn.env.locked then x.lockers else {});
    SameRings(m', x, y);
  }

  /** Rings are judged by the names of the two and by who has an extra event. */
  lemma {:induction false} SameRings(m: Machine, x: Tie, y: Tie)
    requires y == x.(flags := y.flags, sleepers := y.sleepers, lockers := y.lockers)
    ensures forall t :: SleepsWell(m, x, t) == SleepsWell(m, y, t) && LocksWell(m, x, t) == LocksWell(m, y, t)
    ensures forall t :: NapsWell(m, x, t) == NapsWell(m, y, t) && QueuesWell(m, x, t) == QueuesWell(m, y, t)
  {
  }

  // ---------------------------------------------------------------------------------------
  // Everything else

  /** What matters of a machine is who waits, with which ring. */
  lemma {:induction false} TieSame(m: Machine, m': Machine, x: Tie)
    requires Tied(m, x) && Flags(m'.conds, x.v.cond) == Flags(m.conds, x.v.cond)
    requires forall t :: t in x.sleepers || t in x.lockers ==> Waits(m', t) && SameRing(m, m', t)
    requires forall t :: t in x.napping || t in x.queueing ==> Suspended(m', t) && SameRing(m, m', t)
    requires forall t: nat {:trigger Look(m', t)} ::
      Look(m', t).state == Waiting && !Listed(x, t) ==>
      Look(m, t).state == Waiting && Look(m', t).events == Look(m, t).events
    ensures Tied(m', x)
  {
    hide Queued, Foreign;
    forall t | t in x.sleepers ensures SleepsWell(m', x, t) { assert SleepsWell(m, x, t); }
    forall t | t in x.lockers ensures LocksWell(m', x, t) { assert LocksWell(m, x, t); }
    forall t | t in x.napping ensures NapsWell(m', x, t) { assert NapsWell(m, x, t); }
    forall t | t in x.queueing ensures QueuesWell(m', x, t) { assert QueuesWell(m, x, t); }
  }

  /** The flags may change without anything else. */
  lemma {:induction false} TieFlags(m: Machine, m': Machine, x: Tie)
    requires Tied(m, x) && m' == m.(conds := m'.conds)
    ensures Tied(m', x.(flags := Flags(m'.conds, x.v.cond)))
  {
    hide Queued;
    var y := x.(flags := Flags(m'.conds, x.v.cond));
    forall u | u in y.sleepers ensures SleepsWell(m', y, u) { assert SleepsWell(m, x, u); }
    forall u | u in y.lockers ensures LocksWell(m', y, u) { assert LocksWell(m, x, u); }
    forall u | u in y.napping ensures NapsWell(m', y, u) { assert NapsWell(m, x, u); }
    forall u | u in y.queueing ensures QueuesWell(m', y, u) { assert QueuesWell(m, x, u); }
    forall u: nat | Look(m', u).state == Waiting && !Listed(y, u)
      ensures Foreign(y.v, Look(m', u).events)
    {
      assert Foreign(x.v, Look(m, u).events);
    }
  }

  /** The end of a switch: new threads become ready, and one thread runs. */
  lemma {:induction false} TieDispatch(m: Machine, x: Tie)
    requires Sound(m, {}) && Tied(m, x) && Dispatch(Drain(m)).Running?
    ensures Tied(Dispatch(Drain(m)).machine, x)
  {
    hide Sound, Drain, SleepsWell, LocksWell, NapsWell, QueuesWell, Foreign, Queued;
    var m' := Dispatch(Drain(m)).machine;
    DrainLeaves(m, 0);
    TieWaits(m, x);
    forall t: nat
      ensures Look(m', t) == Look(m, t) || Look(m', t) == Look(m, t).(state := Ready)
      ensures Listed(x, t) ==> Look(m', t) == Look(m, t)
    {
      DrainLeaves(m, t);
      NotNew(m, t);
    }
    TieSame(m, m', x);
  }

  lemma {:induction false} TieWaits(m: Machine, x: Tie)
    requires Tied(m, x)
    ensures forall t :: t in x.sleepers || t in x.lockers ==> Waits(m, t)
    ensures forall t :: t in x.napping || t in x.queueing ==> Suspended(m, t)
  {
    hide Foreign;
  }

  lemma {:induction false} NotNew(m: Machine, t: nat)
    requires Sound(m, {})
    ensures Waits(m, t) || Suspended(m, t) ==> !Queued(m.nq, t)
  {
    hide Bag, StatesOk, Ordered, IndexOf;
    BagQueued(m.wq, t);
    BagQueued(m.sq, t);
    BagQueued(m.nq, t);
    assert Places(m, t) <= 1;
  }

  /** Does the ring fit what the thread waits for, according to x? */
  ghost predicate Fits(x: Tie, t: nat, events: seq<Event>) {
    if t in x.sleepers then
      && events != [] && events[0].kind == Cond(x.v.cond)
      && Foreign(x.v, events[1..]) && (t in x.extra <==> |events| > 1)
    else if t in x.lockers then |events| == 1 && events[0].kind == Mutex(x.v.mutex)
    else Foreign(x.v, events)
  }

  ghost predicate SameBut(x: Tie, y: Tie, t: nat) {
    && y == x.(sleepers := y.sleepers, extra := y.extra, lockers := y.lockers)
    && forall u: nat :: u != t ==>
         (u in x.sleepers <==> u in y.sleepers) &&
         (u in x.extra <==> u in y.extra) && (u in x.lockers <==> u in y.lockers)
  }

  /** The beginning of a switch: the thread that ran joins those who wait, or does not. */
  lemma {:induction false} TiePlace(m: Machine, c: Cause, x: Tie, y: Tie)
    requires Inv(m) && Tied(m, x) && SameBut(x, y, m.current) && y.sleepers !! y.lockers
    requires m.current !in x.napping && m.current !in x.queueing
    requires if c.Wait? then Fits(y, m.current, c.events) else m.current !in y.sleepers && m.current !in y.lockers
    requires m.current in y.sleepers || m.current in y.lockers ==> !Look(m, m.current).cancelreq
    ensures Tied(Place(m, c), y)
  {
    hide Insert, IndexOf, Inv;
    var t, m' := m.current, Place(m, c);
    forall u: nat
      ensures u != t ==> (Waits(m', u) <==> Waits(m, u))
      ensures u != t ==> Look(m', u) == Look(m, u)
      ensures c.Wait? ==> Waits(m', t)
    {
      PlaceOthers(m, c, u);
    }
    PlaceOthers(m, c, t);
    forall u | u in y.sleepers ensures SleepsWell(m', y, u) {
      if u != t { assert SleepsWell(m, x, u); }
    }
    forall u | u in y.lockers ensures LocksWell(m', y, u) {
      if u != t { assert LocksWell(m, x, u); }
    }
    forall u | u in y.napping ensures NapsWell(m', y, u) { assert NapsWell(m, x, u); }
    forall u | u in y.queueing ensures QueuesWell(m', y, u) { assert QueuesWell(m, x, u); }
    forall u: nat | Look(m', u).state == Waiting && !Listed(y, u)
      ensures Foreign(y.v, Look(m', u).events)
    {
      if u != t {
        assert Foreign(x.v, Look(m, u).events);
      } else {
        PlacedForeign(m, c, y);
      }
    }
  }

  /** A thread that waits for neither leaves no trace. */
  lemma {:induction false} TieElse(m: Machine, x: Tie, y: Tie, t: nat)
    requires Tied(m, x) && SameBut(x, y, t)
    requires !Listed(x, t) && !Listed(y, t)
    ensures Tied(m, y)
  {
    hide Waits, Look, Suspended;
    forall u | u in y.sleepers ensures SleepsWell(m, y, u) { assert SleepsWell(m, x, u); }
    forall u | u in y.lockers ensures LocksWell(m, y, u) { assert LocksWell(m, x, u); }
    forall u | u in y.napping ensures NapsWell(m, y, u) { assert NapsWell(m, x, u); }
    forall u | u in y.queueing ensures QueuesWell(m, y, u) { assert QueuesWell(m, x, u); }
    forall u: nat | Look(m, u).state == Waiting && !Listed(y, u)
      ensures Foreign(y.v, Look(m, u).events)
    {
      assert Foreign(x.v, Look(m, u).events);
    }
  }

  lemma {:induction false} PlacedForeign(m: Machine, c: Cause, x: Tie)
    requires Inv(m) && (c.Wait? ==> Foreign(x.v, c.events))
    ensures Look(Place(m, c), m.current).state == Waiting ==> Foreign(x.v, Look(Place(m, c), m.current).events)
  {
    hide Sound, Insert;
    if c.Wait? {
      assert forall j :: 0 <= j < |c.events| ==> AsPending(c.events)[j].kind == c.events[j].kind;
    }
  }

  // ---------------------------------------------------------------------------------------
  // Calls and whole switches of threads that have nothing to do with the two

  /** The call moves nobody who waits for the two, and does not touch the condition. */
  ghost predicate Spares(step: Step, x: Tie) {
    && (forall t :: Listed(x, t) ==> !Moves(step, t))
    && (step.NotifyStep? ==> step.cond != x.v.cond)
    && (step.SwitchStep? && step.cause.Wait? ==> Foreign(x.v, step.cause.events))
  }

  lemma {:induction false} TieCall(m: Machine, step: Step, x: Tie)
    requires Inv(m) && Tied(m, x) && Legal(m, step) && !Switches(m, step) && Spares(step, x)
    ensures Apply(m, step).Running? && Tied(Apply(m, step).machine, x)
  {
    hide Inv, Legal, Apply, Switches, SleepsWell, LocksWell, NapsWell, QueuesWell, Foreign, Waits, Suspended, SameRing;
    CallLeaves(m, step, 0);
    var m' := Apply(m, step).machine;
    TieWaits(m, x);
    forall t: nat
      ensures Look(m', t).state == Waiting ==> Look(m, t).state == Waiting && Look(m', t).events == Look(m, t).events
      ensures Waits(m, t) && !Moves(step, t) ==> Waits(m', t) && SameRing(m, m', t)
      ensures Suspended(m, t) && !Moves(step, t) ==> Suspended(m', t) && SameRing(m, m', t)
    {
      CallLeaves(m, step, t);
    }
    CallFlags(m, step, x.v.cond);
    TieSame(m, m', x);
  }

  lemma {:induction false} CallFlags(m: Machine, step: Step, c: nat)
    requires Legal(m, step) && !Switches(m, step) && (step.NotifyStep? ==> step.cond != c)
    requires Apply(m, step).Running?
    ensures Flags(Apply(m, step).machine.conds, c) == Flags(m.conds, c)
  {
    hide Insert, HonestSwitch, Suspend, Resume, Cancel, Abort, Join, JoinDead, Raise, Favour, WithSetting;
    match step {
      case SuspendStep(h) => assert Suspend(m, h).0.conds == m.conds by { SuspendResumeFlags(m, h); }
      case ResumeStep(h) => assert Resume(m, h).0.conds == m.conds by { SuspendResumeFlags(m, h); }
      case CancelStep(h) => CancelFlags(m, h);
      case AbortStep(h) => AbortFlags(m, h);
      case JoinStep(tid) => JoinFlags(m, tid);
      case ReapStep(tid) => JoinFlags(m, tid);
      case RaiseStep(h, sig, ignored) => RaiseFlags(m, h, sig, ignored);
      case _ =>
    }
  }

  lemma {:induction false} SuspendResumeFlags(m: Machine, h: Handle)
    ensures Suspend(m, h).0.conds == m.conds && Resume(m, h).0.conds == m.conds
  {
    hide Insert, Delete, Queued;
  }

  lemma {:induction false} CancelFlags(m: Machine, h: Handle)
    ensures Cancel(m, h).0.conds == m.conds
  {
    hide Insert, Delete, Queued;
  }

  lemma {:induction false} AbortFlags(m: Machine, h: Handle)
    ensures Abort(m, h).0.conds == m.conds
  {
    hide Cancel, JoinPlanOf, Delete;
    if h.Thread? {
      CancelFlags(Put(m, h.id, Look(m, h.id).(joinable := false, cancelEnable := true, cancelAsync := true)), h);
    }
  }

  lemma {:induction false} JoinFlags(m: Machine, tid: Option<nat>)
    ensures Join(m, tid).0.conds == m.conds && JoinDead(m, tid).0.conds == m.conds
  {
    hide JoinPlanOf, Delete;
  }

  lemma {:induction false} RaiseFlags(m: Machine, h: Handle, sig: int, ignored: bool)
    ensures Raise(m, h, sig, ignored).0.conds == m.conds
  {
  }

  // ---------------------------------------------------------------------------------------
  // Threads that are suspended in a wait for the two, and resumed

  /** Thread u leaves the waiting queue. */
  function Parked(x: Tie, u: nat): Tie {
    x.(sleepers := x.sleepers - {u}, napping := if u in x.sleepers then x.napping + {u} else x.napping,
       lockers := x.lockers - {u}, queueing := if u in x.lockers then x.queueing + {u} else x.queueing)
  }

  /** Thread u is back in the waiting queue. */
  function Unparked(x: Tie, u: nat): Tie {
    x.(napping := x.napping - {u}, sleepers := if u in x.napping then x.sleepers + {u} else x.sleepers,
       queueing := x.queueing - {u}, lockers := if u in x.queueing then x.lockers + {u} else x.lockers)
  }

  lemma {:induction false} SuspendMoves(m: Machine, u: nat)
    requires Inv(m) && Suspend(m, Thread(u)).1 == Ok
    ensures var m' := Suspend(m, Thread(u)).0;
      Look(m', u) == Look(m, u) && Suspended(m', u) && !Suspended(m, u) && u != m.current && m'.conds == m.conds
    ensures Waits(m, u) ==> Look(m, u).state == Waiting
  {
    hide Bag, Insert, Delete, Ordered, IndexOf;
    BagInsert(m.sq, PRIO_STD, u);
    BagQueued(Insert(m.sq, PRIO_STD, u), u);
    BagQueued(m.sq, u);
    BagQueued(m.wq, u);
    BagQueued(QueueOf(m, Look(m, u).state), u);
    assert Places(m, u) <= 1;
  }

  lemma {:induction false} ResumeMoves(m: Machine, u: nat)
    requires Inv(m) && Resume(m, Thread(u)).1 == Ok
    ensures var m' := Resume(m, Thread(u)).0;
      && Look(m', u) == Look(m, u) && Suspended(m, u) && !Suspended(m', u) && u != m.current && m'.conds == m.conds
      && (Look(m, u).state == Waiting ==> Waits(m', u))
  {
    hide Bag, Insert, Delete, Ordered, IndexOf, StatesOk;
    BagDelete(m.sq, u);
    BagQueued(m.sq, u);
    BagQueued(Delete(m.sq, u), u);
    BagInsert(m.wq, PRIO_STD, u);
    BagQueued(Insert(m.wq, PRIO_STD, u), u);
    assert Places(m, u) <= 1;
  }

  lemma {:induction false} TieSuspend(m: Machine, u: nat, x: Tie)
    requires Inv(m) && Tied(m, x) && Suspend(m, Thread(u)).1 == Ok
    ensures Tied(Suspend(m, Thread(u)).0, Parked(x, u))
  {
    hide Inv, Suspend, Waits, Suspended, Foreign, SleepRing, LockRing;
    var m', y := Suspend(m, Thread(u)).0, Parked(x, u);
    SuspendMoves(m, u);
    forall t: nat | t != u ensures Leaves(m, m', t, false) { SuspendLeaves(m, Thread(u), t); }
    TieOthers(m, m', x, y, u);
    assert u in x.sleepers ==> SleepsWell(m, x, u);
    assert u in x.lockers ==> LocksWell(m, x, u);
    assert u in x.napping ==> NapsWell(m, x, u);
    assert u in x.queueing ==> QueuesWell(m, x, u);
    SameRingsToo(x, y);
  }

  lemma {:induction false} TieResume(m: Machine, u: nat, x: Tie)
    requires Inv(m) && Tied(m, x) && Resume(m, Thread(u)).1 == Ok
    ensures Tied(Resume(m, Thread(u)).0, Unparked(x, u))
  {
    hide Sound, Resume, Waits, Suspended, Foreign, SleepRing, LockRing;
    var m', y := Resume(m, Thread(u)).0, Unparked(x, u);
    ResumeMoves(m, u);
    NotSuspended(m, {m.current}, u);
    forall t: nat | t != u ensures Leaves(m, m', t, false) { ResumeLeaves(m, Thread(u), t); }
    TieOthers(m, m', x, y, u);
    assert u in x.sleepers ==> SleepsWell(m, x, u);
    assert u in x.lockers ==> LocksWell(m, x, u);
    assert u in x.napping ==> NapsWell(m, x, u);
    assert u in x.queueing ==> QueuesWell(m, x, u);
    SameRingsToo(x, y);
  }

  lemma {:induction false} SameRingsToo(x: Tie, y: Tie)
    requires y.v == x.v && y.extra == x.extra
    ensures forall t, b :: SleepRing(x, t, b) == SleepRing(y, t, b)
    ensures forall b :: LockRing(x, b) == LockRing(y, b)
  {
  }

  /** One thread is moved, the others stay as they were. */
  lemma {:induction false} TieOthers(m: Machine, m': Machine, x: Tie, y: Tie, u: nat)
    requires Tied(m, x) && y.v == x.v && y.extra == x.extra && (y == Parked(x, u) || y == Unparked(x, u))
    requires forall t: nat :: t != u ==> Leaves(m, m', t, false)
    ensures forall t :: t in y.sleepers && t != u ==> SleepsWell(m', y, t)
    ensures forall t :: t in y.lockers && t != u ==> LocksWell(m', y, t)
    ensures forall t :: t in y.napping && t != u ==> NapsWell(m', y, t)
    ensures forall t :: t in y.queueing && t != u ==> QueuesWell(m', y, t)
    ensures forall t: nat {:trigger Look(m', t)} ::
      t != u && Look(m', t).state == Waiting && !Listed(y, t) ==> Foreign(y.v, Look(m', t).events)
  {
    hide Waits, Suspended, Foreign;
    forall t | t in y.sleepers && t != u ensures SleepsWell(m', y, t) {
      assert SleepsWell(m, x, t);
      assert Leaves(m, m', t, false);
    }
    forall t | t in y.lockers && t != u ensures LocksWell(m', y, t) {
      assert LocksWell(m, x, t);
      assert Leaves(m, m', t, false);
    }
    forall t | t in y.napping && t != u ensures NapsWell(m', y, t) {
      assert NapsWell(m, x, t);
      assert Leaves(m, m', t, false);
    }
    forall t | t in y.queueing && t != u ensures QueuesWell(m', y, t) {
      assert QueuesWell(m, x, t);
      assert Leaves(m, m', t, false);
    }
    forall t: nat | t != u && Look(m', t).state == Waiting && !Listed(y, t) ensures Foreign(y.v, Look(m', t).events) {
      assert Leaves(m, m', t, false);
      assert Foreign(x.v, Look(m, t).events);
    }
  }
}
