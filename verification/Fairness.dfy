/** How long a ready thread has to wait, whom a directed yield runs next, and when neither holds. */
module Fairness {
  import opened PriorityOrder
  import opened PriorityFacts
  import opened TimeArith
  import opened EventManager
  import opened Scheduler
  import opened Partition
  import opened Runs

  // ---------------------------------------------------------------------------------------
  // Who overtakes a ready thread

  /** Is a thread that enters the ready queue at priority p put in front of one at priority a? */
  function Over(p: int, a: int): nat { if p > a then 1 else 0 }

  /** The number of woken threads that are put in front of a thread of priority a. */
  function WakeOver(m: Machine, q: Queue, woken: set<nat>, a: int): nat {
    if q == [] then 0
    else
      var last := q[|q| - 1].thread;
      WakeOver(m, q[..|q| - 1], woken, a) + if last in woken then Over(Look(m, last).prio + 1, a) else 0
  }

  lemma {:induction false} WakePosition(m: Machine, q: Queue, woken: set<nat>, u: nat)
    requires Descending(m.rq) && Queued(m.rq, u) && Bag(q)[u] == 0
    ensures var r := Wake(m.rq, q, woken, Base(m));
      && Descending(r) && Queued(r, u) && PrioOf(r, u) == PrioOf(m.rq, u)
      && IndexOf(r, u) == IndexOf(m.rq, u) + WakeOver(m, q, woken, PrioOf(m.rq, u))
  {
    hide Insert, Descending, Bag, IndexOf, Base;
    if q != [] {
      var p, last := q[..|q| - 1], q[|q| - 1].thread;
      BagTail(q);
      WakePosition(m, p, woken, u);
      BaseIsPrio(m, last);
      if last in woken {
        var r := Wake(m.rq, p, woken, Base(m));
        InsertOthers(r, BaseOf(Base(m), last) + 1, last, u);
        InsertDescending(r, BaseOf(Base(m), last) + 1, last);
      }
    }
  }

  /** The number of new threads that are put in front of a thread of priority a. */
  function DrainOver(m: Machine, a: int): nat {
    if m.favournew || PRIO_STD > a then |m.nq| else 0
  }

  lemma {:induction false} DrainPosition(m: Machine, u: nat)
    requires Descending(m.rq) && Queued(m.rq, u) && Bag(m.nq)[u] == 0
    ensures var r := Drain(m).rq;
      && Descending(r) && Queued(r, u) && PrioOf(r, u) == PrioOf(m.rq, u)
      && IndexOf(r, u) == IndexOf(m.rq, u) + DrainOver(m, PrioOf(m.rq, u))
    decreases |m.nq|
  {
    hide Insert, Bag;
    if m.nq != [] {
      var t := m.nq[|m.nq| - 1].thread;
      var p := if m.favournew then FavoritePrio(m.rq) else PRIO_STD;
      BagTail(m.nq);
      InsertOthers(m.rq, p, t, u);
      InsertDescending(m.rq, p, t);
      DrainPosition(Put(m, t, Look(m, t).(state := Ready)).(nq := m.nq[..|m.nq| - 1], rq := Insert(m.rq, p, t)), u);
    }
  }

  /** The number of threads that the event manager puts in front of a thread of priority a. */
  function RoundsOver(m: Machine, turns: seq<Turn>, dopoll: bool, a: int): nat
    decreases |turns|
  {
    if turns == [] then 0
    else
      var r := RunRound(turns[0], m.conds, Waiters(m), dopoll, m.pipe);
      WakeOver(m, m.wq, WokenSet(r.waiters), a) +
      if r.repeat then RoundsOver(Settle(m, r), turns[1..], dopoll, a) else 0
  }

  lemma {:induction false} ReadyElsewhere(m: Machine, u: nat)
    requires Sound(m, {}) && Queued(m.rq, u)
    ensures Descending(m.rq) && Bag(m.wq)[u] == 0 && Bag(m.nq)[u] == 0
  {
    hide Bag, Descending, IndexOf, StatesOk;
    BagQueued(m.rq, u);
    assert Places(m, u) <= 1;
  }

  lemma {:induction false} RoundsPosition(m: Machine, turns: seq<Turn>, dopoll: bool, u: nat)
    requires Sound(m, {}) && Queued(m.rq, u)
    ensures Rounds(m, turns, dopoll).Some? ==>
      var m' := Rounds(m, turns, dopoll).value;
      && Sound(m', {}) && m'.nq == m.nq && m'.favournew == m.favournew
      && Queued(m'.rq, u) && PrioOf(m'.rq, u) == PrioOf(m.rq, u)
      && IndexOf(m'.rq, u) == IndexOf(m.rq, u) + RoundsOver(m, turns, dopoll, PrioOf(m.rq, u))
    decreases |turns|
  {
    hide Sound, RunRound, Wake, Keep, WakeOver, Store, IndexOf, Waiters;
    if turns != [] {
      var r := RunRound(turns[0], m.conds, Waiters(m), dopoll, m.pipe);
      ReadyElsewhere(m, u);
      RoundKeeps(m, turns[0], dopoll);
      WakePosition(m, m.wq, WokenSet(r.waiters), u);
      if r.repeat {
        RoundsPosition(Settle(m, r), turns[1..], dopoll, u);
      }
    }
  }

  /** How many threads overtake a ready thread of priority a during a switch. */
  function PlaceOver(m: Machine, c: Cause, a: int): nat {
    if c.Yield? then Over(Look(m, m.current).prio, a) else 0
  }

  function SwitchOver(m: Machine, c: Cause, turns: seq<Turn>, a: int): nat {
    PlaceOver(m, c, a) + RoundsOver(Place(m, c), turns, Polls(Place(m, c)), a) + DrainOver(m, a)
  }

  lemma {:induction false} PlacePosition(m: Machine, c: Cause, u: nat)
    requires Inv(m) && Queued(m.rq, u)
    ensures var m1 := Place(m, c);
      && m1.nq == m.nq && m1.favournew == m.favournew && u != m.current
      && Queued(m1.rq, u) && PrioOf(m1.rq, u) == PrioOf(m.rq, u) + 1
      && IndexOf(m1.rq, u) == IndexOf(m.rq, u) + PlaceOver(m, c, PrioOf(m.rq, u) + 1)
  {
    hide Insert, Bag, IndexOf, Increase, Descending, StatesOk;
    BagQueued(m.rq, u);
    assert Places(m, u) == 1;
    IncreaseOthers(m.rq, u);
    IncreaseDescending(m.rq);
    if c.Yield? {
      InsertOthers(Increase(m.rq), Look(m, m.current).prio, m.current, u);
    }
  }

  /** The exact place of a ready thread after a switch: it ages by one, moves back by the number of
      threads that overtake it and forward by the one that is dispatched, which is itself when
      nobody was or came in front of it. */
  lemma {:induction false} SwitchPosition(m: Machine, c: Cause, turns: seq<Turn>, u: nat)
    requires Inv(m) && Queued(m.rq, u) && Resched(m, c, turns).Running?
    ensures var m' := Resched(m, c, turns).machine;
      var a := PrioOf(m.rq, u) + 1;
      var before := IndexOf(m.rq, u) + SwitchOver(m, c, turns, a);
      && (m'.current == u <==> before == 0)
      && (before > 0 ==> Queued(m'.rq, u) && PrioOf(m'.rq, u) == a && IndexOf(m'.rq, u) == before - 1)
  {
    hide Sound, Place, Rounds, RoundsOver, Drain, DrainOver, PlaceOver, IndexOf, Inv;
    PlaceKeeps(m, c);
    PlacePosition(m, c, u);
    var m1 := Place(m, c);
    RoundsPosition(m1, turns, Polls(m1), u);
    var m2 := Rounds(m1, turns, Polls(m1)).value;
    ReadyElsewhere(m2, u);
    DrainPosition(m2, u);
    assert DrainOver(m2, PrioOf(m.rq, u) + 1) == DrainOver(m, PrioOf(m.rq, u) + 1) by {
      DrainOverSame(m2, m, PrioOf(m.rq, u) + 1);
    }
    HeadPosition(Drain(m2).rq, u);
  }

  lemma {:induction false} DrainOverSame(m: Machine, m': Machine, a: int)
    requires m.nq == m'.nq && m.favournew == m'.favournew
    ensures DrainOver(m, a) == DrainOver(m', a)
  {
  }

  lemma {:induction false} HeadPosition(q: Queue, u: nat)
    requires Queued(q, u)
    ensures q[0].thread == u <==> IndexOf(q, u) == 0
    ensures IndexOf(q, u) > 0 ==>
      Queued(q[1..], u) && IndexOf(q[1..], u) == IndexOf(q, u) - 1 && PrioOf(q[1..], u) == PrioOf(q, u)
  {
  }

  // ---------------------------------------------------------------------------------------
  // Nobody overtakes

  /** Has thread t left the waiting queue between m and m'? */
  ghost predicate Left(m: Machine, m': Machine, t: nat) {
    t in Bag(m.wq) && t !in Bag(m'.wq)
  }

  lemma {:induction false} WakeOverSome(m: Machine, q: Queue, woken: set<nat>, a: int)
    ensures WakeOver(m, q, woken, a) == 0 <==>
              forall t :: t in woken && t in Bag(q) ==> Look(m, t).prio + 1 <= a
  {
    if q == [] {
      BagEmpty<nat>();
    } else {
      WakeOverSome(m, q[..|q| - 1], woken, a);
      BagTail(q);
    }
  }

  /** Nobody is put in front of a thread of priority a exactly when everybody that the event
      manager takes out of the waiting queue enters the ready queue at a or below. */
  lemma {:induction false} RoundsOverSome(m: Machine, turns: seq<Turn>, dopoll: bool, a: int)
    requires Sound(m, {}) && Rounds(m, turns, dopoll).Some?
    ensures var m' := Rounds(m, turns, dopoll).value;
      && (forall t: nat :: t in Bag(m'.wq) ==> t in Bag(m.wq))
      && (RoundsOver(m, turns, dopoll, a) == 0 <==>
            forall t: nat :: Left(m, m', t) ==> Look(m, t).prio + 1 <= a)
    decreases |turns|
  {
    hide Sound, RunRound, Waiters, Wake, Keep, Store, WokenSet, Bag, WakeOver;
    var r := RunRound(turns[0], m.conds, Waiters(m), dopoll, m.pipe);
    var m1, m' := Settle(m, r), Rounds(m, turns, dopoll).value;
    var woken := WokenSet(r.waiters);
    WakeOverSome(m, m.wq, woken, a);
    forall t: nat ensures t in Bag(m1.wq) <==> t in Bag(m.wq) && t !in woken { WakeBag(m, woken, t); }
    forall t: nat ensures Look(m1, t).prio == Look(m, t).prio { StoreStates(m.tcbs, r.waiters, t); }
    if r.repeat {
      RoundKeeps(m, turns[0], dopoll);
      RoundsOverSome(m1, turns[1..], dopoll, a);
      forall t: nat ensures Left(m, m', t) <==> (t in woken && t in Bag(m.wq)) || Left(m1, m', t) {}
    }
  }

  /** Every new thread is moved to the ready queue at B or below, favoured or not. */
  ghost predicate DrainBelow(m: Machine, B: int)
    decreases |m.nq|
  {
    m.nq == [] ||
      var t, p := m.nq[|m.nq| - 1].thread, if m.favournew then FavoritePrio(m.rq) else PRIO_STD;
      p <= B &&
      DrainBelow(Put(m, t, Look(m, t).(state := Ready)).(nq := m.nq[..|m.nq| - 1], rq := Insert(m.rq, p, t)), B)
  }

  /** Everybody who enters the ready queue during a switch does so at B or below: the thread that
      yields, those that wake up, one step above their own priority, and the new ones. */
  ghost predicate SwitchBelow(m: Machine, c: Cause, turns: seq<Turn>, B: int) {
    var m1 := Place(m, c);
    && (c.Yield? ==> Look(m, m.current).prio <= B)
    && (Rounds(m1, turns, Polls(m1)).Some? ==>
          var m2 := Rounds(m1, turns, Polls(m1)).value;
          && (forall t: nat :: Left(m1, m2, t) ==> Look(m1, t).prio + 1 <= B)
          && DrainBelow(m2, B))
  }

  /** Behind a ready thread of priority B or more nobody is favoured without going above B. */
  lemma {:induction false} DrainOverNone(m: Machine, u: nat, B: int)
    requires DrainBelow(m, B) && Descending(m.rq) && Queued(m.rq, u) && PrioOf(m.rq, u) >= B
    ensures DrainOver(m, PrioOf(m.rq, u)) == 0
  {
    hide IndexOf, Insert;
  }

  lemma {:induction false} SwitchOverNone(m: Machine, c: Cause, turns: seq<Turn>, u: nat, B: int)
    requires Inv(m) && Queued(m.rq, u) && PrioOf(m.rq, u) + 1 >= B && SwitchBelow(m, c, turns, B)
    requires Resched(m, c, turns).Running?
    ensures SwitchOver(m, c, turns, PrioOf(m.rq, u) + 1) == 0
  {
    hide Sound, Place, Rounds, RoundsOver, Drain, DrainOver, DrainBelow, IndexOf, Inv, Left, Base;
    var a, m1 := PrioOf(m.rq, u) + 1, Place(m, c);
    PlaceKeeps(m, c);
    PlacePosition(m, c, u);
    var m2 := Rounds(m1, turns, Polls(m1)).value;
    RoundsOverSome(m1, turns, Polls(m1), a);
    RoundsPosition(m1, turns, Polls(m1), u);
    ReadyElsewhere(m2, u);
    DrainOverNone(m2, u, B);
    DrainOverSame(m2, m, a);
  }

  // ---------------------------------------------------------------------------------------
  // Bounded waiting

  /** Every insertion into the ready queue that the step makes is at priority B or below. */
  ghost predicate EntersBelow(m: Machine, step: Step, B: int) {
    match step
    case ResumeStep(h) => Resume(m, h).1 == Ok && Look(m, h.id).state == Ready ==> PRIO_STD <= B
    case YieldToStep(to, turns) =>
      Favour(m, to).1 == Ok ==>
        && (Look(m, to).state == Ready && |m.rq| > 1 ==> FavoritePrio(Delete(m.rq, to)) <= B)
        && SwitchBelow(Favour(m, to).0, Yield, turns, B)
    case SwitchStep(c, turns) => SwitchBelow(m, c, turns, B)
    case _ => true
  }

  /** What a call of the running thread can do to the ready queue. */
  lemma {:induction false} CallOnReady(m: Machine, step: Step) returns (t: nat)
    requires Inv(m) && Legal(m, step) && !Switches(m, step)
    ensures var m' := Apply(m, step);
      m'.Running? && (m'.machine.rq == m.rq || m'.machine.rq == Delete(m.rq, t) ||
                      (m'.machine.rq == Insert(m.rq, PRIO_STD, t) && !Queued(m.rq, t)))
  {
    hide Insert, Delete, Inv, IndexOf, Favour, Cancel, Abort;
    t := if (step.SuspendStep? || step.ResumeStep? || step.CancelStep? || step.AbortStep?) && step.h.Thread?
         then step.h.id else 0;
    match step {
      case ResumeStep(h) => if Resume(m, h).1 == Ok { SuspendedNotReady(m, t); }
      case CancelStep(h) => CancelOnReady(m, h, t);
      case AbortStep(h) => AbortOnReady(m, h, t);
      case _ =>
    }
  }

  lemma {:induction false} CancelOnReady(m: Machine, h: Handle, t: nat)
    requires h.Thread? ==> t == h.id
    ensures Cancel(m, h).0.rq == m.rq || Cancel(m, h).0.rq == Delete(m.rq, t)
  {
    hide Insert, Delete, Queued;
  }

  lemma {:induction false} AbortOnReady(m: Machine, h: Handle, t: nat)
    requires h.Thread? ==> t == h.id
    ensures Abort(m, h).0.rq == m.rq || Abort(m, h).0.rq == Delete(m.rq, t)
  {
    hide Insert, Delete, Queued, Cancel;
    if h.Thread? {
      CancelOnReady(Put(m, t, Look(m, t).(joinable := false, cancelEnable := true, cancelAsync := true)), h, t);
    }
  }

  lemma {:induction false} SuspendedNotReady(m: Machine, t: nat)
    requires Inv(m) && Queued(m.sq, t)
    ensures !Queued(m.rq, t)
  {
    hide Bag, Descending, IndexOf, StatesOk;
    BagQueued(m.sq, t);
    BagQueued(m.rq, t);
    assert Places(m, t) <= 1;
  }

  /** The remaining wait: places to go once nobody can overtake, aging and a full queue before. */
  ghost function Measure(q: Queue, u: nat, B: int, L: int): int
    requires Queued(q, u)
  {
    if PrioOf(q, u) >= B then IndexOf(q, u) + 1 else B - PrioOf(q, u) + L
  }

  lemma {:induction false} CallMeasure(m: Machine, step: Step, u: nat, B: int, L: int)
    requires Inv(m) && Legal(m, step) && !Switches(m, step) && EntersBelow(m, step, B)
    requires Queued(m.rq, u) && Apply(m, step).Running? && Queued(Apply(m, step).machine.rq, u)
    ensures Measure(Apply(m, step).machine.rq, u, B, L) <= Measure(m.rq, u, B, L)
  {
    hide Insert, Delete, IndexOf, Apply, Legal, Bag, Places, StatesOk, EntersBelow;
    var t := CallOnReady(m, step);
    var q := Apply(m, step).machine.rq;
    if q == m.rq {
    } else if q == Delete(m.rq, t) {
      DeletedOnce(m, u);
      DeleteOthers(m.rq, t, u);
    } else {
      BagInsert(m.rq, PRIO_STD, t);
      ResumedBelow(m, step, B);
      InsertOthers(m.rq, PRIO_STD, t, u);
    }
  }

  /** A call that puts a thread into the ready queue resumes it. */
  lemma {:induction false} ResumedBelow(m: Machine, step: Step, B: int)
    requires Inv(m) && Legal(m, step) && !Switches(m, step) && EntersBelow(m, step, B)
    requires Apply(m, step).Running? && |Apply(m, step).machine.rq| > |m.rq|
    ensures PRIO_STD <= B
  {
    hide Insert, Delete, IndexOf, Inv, Cancel, Abort, Favour, SwitchBelow;
    var t := if (step.CancelStep? || step.AbortStep?) && step.h.Thread? then step.h.id else 0;
    if step.CancelStep? {
      CancelOnReady(m, step.h, t);
      BagDelete(m.rq, t);
    } else if step.AbortStep? {
      AbortOnReady(m, step.h, t);
      BagDelete(m.rq, t);
    } else if step.SuspendStep? && step.h.Thread? {
      BagDelete(m.rq, step.h.id);
    }
  }

  lemma {:induction false} DeletedOnce(m: Machine, u: nat)
    requires Inv(m)
    ensures !Queued(Delete(m.rq, u), u)
  {
    hide Bag, Descending, IndexOf, StatesOk, Delete;
    BagDelete(m.rq, u);
    BagQueued(Delete(m.rq, u), u);
    assert Places(m, u) <= 1;
  }

  lemma {:induction false} SwitchMeasure(m: Machine, c: Cause, turns: seq<Turn>, u: nat, B: int, L: int)
    requires Inv(m) && SwitchBelow(m, c, turns, B) && Queued(m.rq, u)
    requires Resched(m, c, turns).Running? && Queued(Resched(m, c, turns).machine.rq, u)
    requires |Resched(m, c, turns).machine.rq| <= L
    ensures Measure(Resched(m, c, turns).machine.rq, u, B, L) <= Measure(m.rq, u, B, L) - 1
  {
    hide Sound, Resched, SwitchOver, SwitchBelow, IndexOf;
    var m' := Resched(m, c, turns).machine;
    SwitchPosition(m, c, turns, u);
    ReschedKeeps(m, c, turns);
    CurrentNotReady(m', u);
    if PrioOf(m.rq, u) + 1 >= B {
      SwitchOverNone(m, c, turns, u, B);
    }
  }

  /** Favouring another thread at B or below is only possible while u is below B itself, and favouring
      u brings it to the front. */
  lemma {:induction false} FavourMeasure(m: Machine, to: nat, u: nat, B: int, L: int)
    requires Inv(m) && Favour(m, to).1 == Ok && Queued(m.rq, u) && L >= 0
    requires !(u == to && FarAhead(m.rq, u))
    requires Look(m, to).state == Ready && |m.rq| > 1 ==> FavoritePrio(Delete(m.rq, to)) <= B
    ensures Queued(Favour(m, to).0.rq, u) && Measure(Favour(m, to).0.rq, u, B, L) <= Measure(m.rq, u, B, L)
  {
    hide Insert, Delete, IndexOf, Bag, Places, StatesOk, Conserved, Favorite;
    if u == to {
      if Look(m, u).state == Ready { OwnFavour(m.rq, u, B, L); }
    } else if Look(m, to).state == Ready && |m.rq| > 1 {
      var rest := Delete(m.rq, to);
      DeleteOthers(m.rq, to, u);
      DeleteDescending(m.rq, to);
      InsertOthers(rest, FavoritePrio(rest), to, u);
      BelowHead(rest, u);
      assert Favorite(m.rq, to) == Insert(rest, FavoritePrio(rest), to) by { FavoriteInserts(m.rq, to); }
    }
  }

  lemma {:induction false} FavoriteInserts(q: Queue, t: nat)
    requires |q| > 1
    ensures Favorite(q, t) == Insert(Delete(q, t), FavoritePrio(Delete(q, t)), t)
  {
  }

  lemma {:induction false} OwnFavour(q: Queue, u: nat, B: int, L: int)
    requires Descending(q) && Queued(q, u) && !FarAhead(q, u) && L >= 0
    requires |q| > 1 ==> FavoritePrio(Delete(q, u)) <= B
    ensures Queued(Favorite(q, u), u) && Measure(Favorite(q, u), u, B, L) <= Measure(q, u, B, L)
  {
    hide Insert, Delete;
    FavoriteLowers(q, u);
    FavoriteOnTop(q, u);
    assert IndexOf(Favorite(q, u), u) == 0;
  }

  lemma {:induction false} BelowHead(q: Queue, u: nat)
    requires Descending(q) && Queued(q, u)
    ensures PrioOf(q, u) < FavoritePrio(q)
  {
  }

  lemma {:induction false} CurrentNotReady(m: Machine, u: nat)
    requires Inv(m) && Queued(m.rq, u)
    ensures u != m.current
  {
    hide Bag, Descending, IndexOf, StatesOk;
    BagQueued(m.rq, u);
    assert Places(m, u) >= 1;
  }

  /** The number of dispatches in the first k steps of a run. */
  ghost function Dispatches(ms: seq<Machine>, steps: seq<Step>, k: nat): nat
    requires k <= |steps| && |ms| == |steps| + 1
  {
    if k == 0 then 0 else Dispatches(ms, steps, k - 1) + if Switches(ms[k - 1], steps[k - 1]) then 1 else 0
  }

  /** Thread u is in the ready queue all the time, that queue never has more than L threads, nobody
      enters it above B, and no directed yield lowers the priority of u. */
  ghost predicate StaysReady(ms: seq<Machine>, steps: seq<Step>, u: nat, B: int, L: int) {
    && (forall k :: 0 <= k < |ms| ==> Queued(ms[k].rq, u) && |ms[k].rq| <= L)
    && (forall i :: 0 <= i < |steps| && i < |ms| ==>
          EntersBelow(ms[i], steps[i], B) && !(steps[i].YieldToStep? && steps[i].to == u && FarAhead(ms[i].rq, u)))
  }

  lemma {:induction false} WaitedSoFar(ms: seq<Machine>, steps: seq<Step>, u: nat, B: int, L: int, k: nat)
    requires IsRun(ms, steps) && Inv(ms[0]) && StaysReady(ms, steps, u, B, L) && k <= |steps|
    ensures Measure(ms[k].rq, u, B, L) + Dispatches(ms, steps, k) <= Measure(ms[0].rq, u, B, L)
  {
    hide Inv, EntersBelow, Measure, Apply, Legal, Switches;
    if k > 0 {
      WaitedSoFar(ms, steps, u, B, L, k - 1);
      RunInvariant(ms, steps, k - 1);
      StepMeasure(ms[k - 1], steps[k - 1], ms[k], u, B, L);
    }
  }

  lemma {:induction false} StepMeasure(m: Machine, step: Step, m': Machine, u: nat, B: int, L: int)
    requires Inv(m) && Legal(m, step) && Apply(m, step) == Running(m')
    requires !(step.YieldToStep? && step.to == u && FarAhead(m.rq, u))
    requires EntersBelow(m, step, B) && Queued(m.rq, u) && Queued(m'.rq, u) && |m'.rq| <= L
    ensures Measure(m'.rq, u, B, L) <= Measure(m.rq, u, B, L) - if Switches(m, step) then 1 else 0
  {
    hide Inv, Measure, Resched, HonestSwitch, SwitchBelow, Favour;
    if step.SwitchStep? {
      SwitchMeasure(m, step.cause, step.turns, u, B, L);
    } else if Switches(m, step) {
      FavourKeeps(m, step.to);
      FavourMeasure(m, step.to, u, B, L);
      SwitchMeasure(Favour(m, step.to).0, Yield, step.turns, u, B, L);
    } else {
      CallMeasure(m, step, u, B, L);
    }
  }

  /** A thread that stays ready waits for fewer than max(0, B - p) + L dispatches, where p is the
      queue priority it starts from, B caps the priorities at which threads enter the ready queue
      and L caps its length. */
  lemma {:induction false} BoundedWaiting(ms: seq<Machine>, steps: seq<Step>, u: nat, B: int, L: int)
    requires IsRun(ms, steps) && Inv(ms[0]) && StaysReady(ms, steps, u, B, L)
    ensures Dispatches(ms, steps, |steps|) < Max(0, B - PrioOf(ms[0].rq, u)) + L
  {
    hide Inv, EntersBelow, Apply, Legal, Switches;
    WaitedSoFar(ms, steps, u, B, L, |steps|);
    assert Queued(ms[|steps|].rq, u) && Queued(ms[0].rq, u) && |ms[0].rq| <= L && |ms[|steps|].rq| <= L;
  }

  // ---------------------------------------------------------------------------------------
  // Directed yield

  lemma {:induction false} DrainFavours(m: Machine)
    requires m.favournew && m.nq != []
    ensures Drain(m).rq != [] && Drain(m).rq[0].thread == m.nq[0].thread
    decreases |m.nq|
  {
    hide Insert;
    var t, p := m.nq[|m.nq| - 1].thread, FavoritePrio(m.rq);
    InsertTop(m.rq, p, t);
    var m1 := Put(m, t, Look(m, t).(state := Ready)).(nq := m.nq[..|m.nq| - 1], rq := Insert(m.rq, p, t));
    if |m.nq| > 1 {
      DrainFavours(m1);
    }
  }

  lemma {:induction false} RoundsKeepNew(m: Machine, turns: seq<Turn>, dopoll: bool)
    ensures Rounds(m, turns, dopoll).Some? ==>
      Rounds(m, turns, dopoll).value.nq == m.nq && Rounds(m, turns, dopoll).value.favournew == m.favournew
    decreases |turns|
  {
    hide RunRound, Waiters, Wake, Keep, Store, WokenSet;
    if turns != [] {
      var r := RunRound(turns[0], m.conds, Waiters(m), dopoll, m.pipe);
      if r.repeat {
        RoundsKeepNew(Settle(m, r), turns[1..], dopoll);
      }
    }
  }

  /** With new threads favoured, a yield to a new thread runs it next whatever happens in between. */
  lemma {:induction false} YieldToNew(m: Machine, to: nat, turns: seq<Turn>)
    requires Inv(m) && m.favournew && Look(m, to).state == New && Queued(m.nq, to)
    ensures Favour(m, to).1 == Ok
    ensures Resched(Favour(m, to).0, Yield, turns).Running? ==>
              Resched(Favour(m, to).0, Yield, turns).machine.current == to
  {
    hide Rounds, Drain, Favorite, Insert, Increase;
    var m0 := Favour(m, to).0;
    FavoriteOnTop(m.nq, to);
    BagFavorite(m.nq, to);
    var m1 := Place(m0, Yield);
    RoundsKeepNew(m1, turns, Polls(m1));
    if Rounds(m1, turns, Polls(m1)).Some? {
      DrainFavours(Rounds(m1, turns, Polls(m1)).value);
    }
  }

  /** A yield to a ready thread runs it next exactly when nobody who enters the ready queue in
      between does so above its aged priority: not the yielding thread, no thread that wakes up,
      and no new thread. */
  lemma {:induction false} YieldToReady(m: Machine, to: nat, turns: seq<Turn>)
    requires Inv(m) && Look(m, to).state == Ready && Queued(m.rq, to)
    requires Resched(Favour(m, to).0, Yield, turns).Running?
    ensures Favour(m, to).1 == Ok && Queued(Favour(m, to).0.rq, to)
    ensures var m0 := Favour(m, to).0;
      var a := PrioOf(m0.rq, to) + 1;
      var m1 := Place(m0, Yield);
      && Rounds(m1, turns, Polls(m1)).Some?
      && var m2 := Rounds(m1, turns, Polls(m1)).value;
      Resched(m0, Yield, turns).machine.current == to <==>
        && Look(m, m.current).prio <= a
        && (forall t: nat :: Left(m1, m2, t) ==> Look(m1, t).prio + 1 <= a)
        && (m.nq == [] || (!m.favournew && PRIO_STD <= a))
  {
    hide Rounds, RoundsOver, Drain, Favorite, Insert, Increase, StatesOk, Conserved, Descending, Bag, IndexOf, Base;
    FavoriteOnTop(m.rq, to);
    BagFavorite(m.rq, to);
    FirstIndex(Favorite(m.rq, to), to, 0);
    FavourKeeps(m, to);
    var m0 := Favour(m, to).0;
    PlaceKeeps(m0, Yield);
    var m1 := Place(m0, Yield);
    RoundsOverSome(m1, turns, Polls(m1), PrioOf(m0.rq, to) + 1);
    SwitchPosition(m0, Yield, turns, to);
  }

  // ---------------------------------------------------------------------------------------
  // Starvation when new threads are favoured

  /** Thread 1 is ready at priority k, and a short-lived thread runs. */
  function Crowded(k: nat): Machine {
    var b := Tcb(PRIO_STD, Ready, false, false, false, false, {}, []);
    Machine(map[1 := b, k + 2 := b], [], [Entry(1, k)], [], [], [], k + 2, true, map[], 0, k + 2, k)
  }

  /** The running thread spawns its successor and exits. */
  function Child(k: nat): Step { SpawnStep(k + 3, Attr(PRIO_STD, false, false, false)) }

  function Quiet(m: Machine): Turn {
    Turn(Env(ZERO, {}, {}, States(m), m.dq != [], {}), {}, Answer(0, {}, {}, {}, {}))
  }

  function Leave(k: nat): Step {
    SwitchStep(Exit, [Quiet(Place(Spawn(Crowded(k), k + 3, Attr(PRIO_STD, false, false, false)), Exit))])
  }

  /** With nobody waiting and nothing to report, polling changes nothing. */
  lemma {:induction false} QuietPoll(m: Machine)
    requires m.wq == []
    ensures HonestRounds(m, [Quiet(m)], true) && Rounds(m, [Quiet(m)], true) == Some(m)
  {
    var t := Quiet(m);
    assert Waiters(m) == [];
    var r := RunRound(t, m.conds, [], true, m.pipe);
    assert r == Round(m.conds, [], false);
    SettleNobody(m, r);
  }

  lemma {:induction false} SettleNobody(m: Machine, r: Round)
    requires m.wq == [] && r == Round(m.conds, [], false)
    ensures Settle(m, r) == m
  {
  }

  lemma {:induction false} CrowdedExit(k: nat)
    ensures var b := Tcb(PRIO_STD, Ready, false, false, false, false, {}, []);
      var m1 := Place(Spawn(Crowded(k), k + 3, Attr(PRIO_STD, false, false, false)), Exit);
      m1 == Machine(map[1 := b, k + 3 := b.(state := New)], [Entry(k + 3, PRIO_STD)], [Entry(1, k + 1)],
                    [], [], [], k + 2, true, map[], 0, k + 3, k + 1)
  {
    InsertTop<nat>([], PRIO_STD, k + 3);
    var b := Tcb(PRIO_STD, Ready, false, false, false, false, {}, []);
    var m1 := Place(Spawn(Crowded(k), k + 3, Attr(PRIO_STD, false, false, false)), Exit);
    assert m1.tcbs == map[1 := b, k + 3 := b.(state := New)];
    assert m1.rq == [Entry(1, k + 1)];
  }

  lemma {:induction false} CrowdedDispatch(m: Machine, k: nat)
    requires var b := Tcb(PRIO_STD, Ready, false, false, false, false, {}, []);
      m == Machine(map[1 := b, k + 3 := b.(state := New)], [Entry(k + 3, PRIO_STD)], [Entry(1, k + 1)],
                   [], [], [], k + 2, true, map[], 0, k + 3, k + 1)
    ensures Dispatch(Drain(m)) == Running(Crowded(k + 1))
  {
    InsertTop(m.rq, FavoritePrio(m.rq), k + 3);
    assert m.nq[..0] == [];
    assert Drain(m).tcbs == Crowded(k + 1).tcbs;
    assert Drain(m).rq == [Entry(k + 3, k + 2)] + [Entry(1, k + 1)];
    assert Drain(m).rq[1..] == [Entry(1, k + 1)];
  }

  /** A spawn and an exit later, thread 1 is a step older and still waits behind a newcomer. */
  lemma {:induction false} CrowdedAgain(k: nat)
    ensures var m := Spawn(Crowded(k), k + 3, Attr(PRIO_STD, false, false, false));
      && Legal(Crowded(k), Child(k)) && Apply(Crowded(k), Child(k)) == Running(m)
      && Legal(m, Leave(k)) && Apply(m, Leave(k)) == Running(Crowded(k + 1))
  {
    hide Rounds, HonestRounds, Place, Drain, Quiet, Spawn;
    var m1 := Place(Spawn(Crowded(k), k + 3, Attr(PRIO_STD, false, false, false)), Exit);
    CrowdedExit(k);
    QuietPoll(m1);
    CrowdedDispatch(m1, k);
  }

  const PLAIN: Attr := Attr(PRIO_STD, false, false, false)

  lemma {:induction false} BootAlone()
    ensures var b := Tcb(PRIO_STD, Ready, false, false, false, false, {}, []);
      Boot(1, PLAIN, 0) == Running(Machine(map[1 := b], [], [], [], [], [], 1, true, map[], 0, 1, 0))
  {
    var b := Tcb(PRIO_STD, Ready, false, false, false, false, {}, []);
    var m := Machine(map[1 := b.(state := New)], [Entry(1, PRIO_STD)], [], [], [], [], 1, true, map[], 0, 1, 0);
    InsertTop<nat>([], PRIO_MAX, 1);
    assert m.nq[..0] == [];
    assert Drain(m).tcbs == map[1 := b];
    assert Drain(m).rq == [Entry(1, PRIO_MAX)];
    assert Drain(m).rq[1..] == [];
  }

  /** The main thread with a new one. */
  function Pair(): Machine {
    var b := Tcb(PRIO_STD, Ready, false, false, false, false, {}, []);
    Machine(map[1 := b, 2 := b.(state := New)], [Entry(2, PRIO_STD)], [], [], [], [], 1, true, map[], 0, 2, 0)
  }

  lemma {:induction false} FirstSpawn()
    ensures var m := Boot(1, PLAIN, 0).machine;
      Boot(1, PLAIN, 0).Running? && Legal(m, SpawnStep(2, PLAIN)) && Apply(m, SpawnStep(2, PLAIN)) == Running(Pair())
  {
    hide Boot;
    BootAlone();
    InsertTop<nat>([], PRIO_STD, 2);
    assert Spawn(Boot(1, PLAIN, 0).machine, 2, PLAIN).tcbs == Pair().tcbs;
  }

  lemma {:induction false} PairPlaced()
    ensures Place(Pair(), Yield) == Pair().(rq := [Entry(1, PRIO_STD)])
  {
    InsertTop<nat>([], PRIO_STD, 1);
    assert Increase<nat>([]) == [];
  }

  lemma {:induction false} PairDispatched(m: Machine)
    requires m == Pair().(rq := [Entry(1, PRIO_STD)])
    ensures Dispatch(Drain(m)) == Running(Crowded(0))
  {
    InsertTop(m.rq, FavoritePrio(m.rq), 2);
    assert m.nq[..0] == [];
    assert Drain(m).tcbs == Crowded(0).tcbs;
    assert Drain(m).rq == [Entry(2, PRIO_STD + 1)] + [Entry(1, PRIO_STD)];
    assert Drain(m).rq[1..] == [Entry(1, PRIO_STD)];
  }

  function FirstYield(): Step { SwitchStep(Yield, [Quiet(Place(Pair(), Yield))]) }

  lemma {:induction false} CrowdedAtFirst()
    ensures Legal(Pair(), FirstYield()) && Apply(Pair(), FirstYield()) == Running(Crowded(0))
  {
    hide Rounds, HonestRounds, Place, Drain, Quiet;
    var m1 := Place(Pair(), Yield);
    PairPlaced();
    QuietPoll(m1);
    PairDispatched(m1);
  }

  lemma {:induction false} RunExtend(ms: seq<Machine>, steps: seq<Step>, step: Step, m: Machine)
    requires IsRun(ms, steps) && Legal(ms[|steps|], step) && Apply(ms[|steps|], step) == Running(m)
    ensures IsRun(ms + [m], steps + [step])
    ensures Dispatches(ms + [m], steps + [step], |steps| + 1) ==
            Dispatches(ms, steps, |steps|) + if Switches(ms[|steps|], step) then 1 else 0
  {
    hide Apply, Legal, Switches;
    forall i | 0 <= i < |steps|
      ensures Legal((ms + [m])[i], (steps + [step])[i])
      ensures Apply((ms + [m])[i], (steps + [step])[i]) == Running((ms + [m])[i + 1])
    {
      assert Legal(ms[i], steps[i]) && Apply(ms[i], steps[i]) == Running(ms[i + 1]);
    }
    SameDispatches(ms, steps, ms + [m], steps + [step], |steps|);
  }

  lemma {:induction false} SameDispatches(ms: seq<Machine>, steps: seq<Step>,
                                          ms': seq<Machine>, steps': seq<Step>, k: nat)
    requires |ms| == |steps| + 1 && |ms'| == |steps'| + 1 && k <= |steps| <= |steps'|
    requires ms'[..|ms|] == ms && steps'[..|steps|] == steps
    ensures Dispatches(ms', steps', k) == Dispatches(ms, steps, k)
  {
    hide Switches;
    if k > 0 {
      SameDispatches(ms, steps, ms', steps', k - 1);
      assert ms'[k - 1] == ms[k - 1] && steps'[k - 1] == steps[k - 1];
    }
  }

  lemma {:induction false} StarvingBegins() returns (ms: seq<Machine>, steps: seq<Step>)
    ensures IsRun(ms, steps) && Boot(1, PLAIN, 0) == Running(ms[0]) && |steps| == 2 && ms[2] == Crowded(0)
    ensures Dispatches(ms, steps, 2) == 1
  {
    hide Apply, Legal, Boot;
    FirstSpawn();
    CrowdedAtFirst();
    ms, steps := [Boot(1, PLAIN, 0).machine, Pair(), Crowded(0)], [SpawnStep(2, PLAIN), FirstYield()];
    assert Dispatches(ms, steps, 1) == 0;
  }

  /** So, with new threads favoured as the library starts out, there is a run of any number of
      dispatches n in which the main thread yields once and is never dispatched again: without a
      cap on favoured insertions there is no bound. */
  lemma {:induction false} FavouringStarves(n: nat) returns (ms: seq<Machine>, steps: seq<Step>)
    ensures IsRun(ms, steps) && Boot(1, PLAIN, 0) == Running(ms[0]) && |steps| >= 2 && ms[|steps|] == Crowded(n)
    ensures Dispatches(ms, steps, |steps|) == n + 1
    ensures forall k :: 2 <= k < |ms| ==> ms[k].current != 1 && Queued(ms[k].rq, 1) && |ms[k].rq| == 1
  {
    hide Apply, Legal, Dispatches, Boot;
    if n == 0 {
      ms, steps := StarvingBegins();
    } else {
      var k := n - 1;
      ms, steps := FavouringStarves(k);
      var m := Spawn(Crowded(k), k + 3, PLAIN);
      CrowdedAgain(k);
      RunExtend(ms, steps, Child(k), m);
      RunExtend(ms + [m], steps + [Child(k)], Leave(k), Crowded(n));
      ms, steps := ms + [m] + [Crowded(n)], steps + [Child(k)] + [Leave(k)];
    }
  }

  // ---------------------------------------------------------------------------------------
  // A directed yield that lowers a priority

  const LOW: Attr := Attr(PRIO_MIN, false, false, false)
  const STANDARD: Tcb := Tcb(PRIO_STD, Ready, false, false, false, false, {}, [])

  /** The main thread, at the lowest priority, with the given new threads. */
  function LowMain(others: map<nat, Tcb>, nq: Queue, favournew: bool): Machine {
    Machine(map[1 := STANDARD.(prio := PRIO_MIN)] + others, nq, [], [], [], [], 1, favournew, map[], 0, 1 + |nq|, 0)
  }

  predicate Leads(m: Machine, step: Step, m': Machine) {
    Legal(m, step) && Apply(m, step) == Running(m')
  }

  const NEWCOMER: Tcb := STANDARD.(state := New)

  lemma {:induction false} BootLow()
    ensures Boot(1, LOW, 0) == Running(LowMain(map[], [], true))
  {
    var b := STANDARD.(prio := PRIO_MIN);
    var m := Machine(map[1 := b.(state := New)], [Entry(1, PRIO_MIN)], [], [], [], [], 1, true, map[], 0, 1, 0);
    InsertTop<nat>([], PRIO_MAX, 1);
    assert m.nq[..0] == [];
    assert Drain(m).tcbs == map[1 := b] == map[1 := b] + map[];
    assert Drain(m).rq == [Entry(1, PRIO_MAX)];
    assert Drain(m).rq[1..] == [];
  }

  lemma {:induction false} FirstNew()
    ensures Leads(LowMain(map[], [], true), FavournewStep(false), LowMain(map[], [], false))
    ensures Leads(LowMain(map[], [], false), SpawnStep(2, PLAIN), LowMain(map[2 := NEWCOMER], [Entry(2, 0)], false))
  {
    var b := STANDARD.(prio := PRIO_MIN);
    InsertTop<nat>([], PRIO_STD, 2);
    assert (map[1 := b] + map[])[2 := NEWCOMER] == map[1 := b] + map[2 := NEWCOMER];
  }

  lemma {:induction false} SecondNew()
    ensures Leads(LowMain(map[2 := NEWCOMER], [Entry(2, 0)], false), SpawnStep(3, PLAIN), ThreeThreads())
  {
    var b := STANDARD.(prio := PRIO_MIN);
    assert (map[1 := b] + map[2 := NEWCOMER])[3 := NEWCOMER] == map[1 := b] + map[2 := NEWCOMER, 3 := NEWCOMER];
    assert Insert([Entry(2, 0)], 0, 3) == [Entry(2, 0), Entry(3, 0)];
  }

  function ThreeThreads(): Machine {
    LowMain(map[2 := NEWCOMER, 3 := NEWCOMER], [Entry(2, 0), Entry(3, 0)], false)
  }

  /** Thread 3 runs, thread 2 is ready far ahead of the main thread. */
  function TwoAhead(): Machine {
    ThreeThreads().(tcbs := map[1 := STANDARD.(prio := PRIO_MIN), 2 := STANDARD, 3 := STANDARD], nq := [],
                    rq := [Entry(2, PRIO_STD), Entry(1, PRIO_MIN)], current := 3)
  }

  lemma {:induction false} TwoPlaced()
    ensures Place(ThreeThreads(), Yield) == ThreeThreads().(rq := [Entry(1, PRIO_MIN)])
  {
    InsertTop<nat>([], PRIO_MIN, 1);
    assert Increase<nat>([]) == [];
  }

  lemma {:induction false} DrainLast(m: Machine, m': Machine)
    requires m.nq != [] && !m.favournew
    requires var t := m.nq[|m.nq| - 1].thread;
      m' == Put(m, t, Look(m, t).(state := Ready)).(nq := m.nq[..|m.nq| - 1], rq := Insert(m.rq, PRIO_STD, t))
    ensures Drain(m) == Drain(m')
  {
  }

  lemma {:induction false} TwoDispatched(m: Machine)
    requires m == ThreeThreads().(rq := [Entry(1, PRIO_MIN)])
    ensures Dispatch(Drain(m)) == Running(TwoAhead())
  {
    hide Drain, Insert;
    var m1 := Put(m, 3, STANDARD).(nq := [Entry(2, 0)], rq := [Entry(3, 0), Entry(1, PRIO_MIN)]);
    var m2 := Put(m1, 2, STANDARD).(nq := [], rq := [Entry(3, 0), Entry(2, 0), Entry(1, PRIO_MIN)]);
    assert m.nq[..1] == [Entry(2, 0)] && m1.nq[..0] == [];
    InsertTop(m.rq, PRIO_STD, 3);
    DrainLast(m, m1);
    InsertSecond();
    DrainLast(m1, m2);
    DrainNone(m2);
    assert m2.tcbs == TwoAhead().tcbs;
    assert m2.rq[1..] == TwoAhead().rq;
  }

  lemma {:induction false} InsertSecond()
    ensures Insert<nat>([Entry(3, PRIO_STD), Entry(1, PRIO_MIN)], PRIO_STD, 2) ==
            [Entry(3, PRIO_STD), Entry(2, PRIO_STD), Entry(1, PRIO_MIN)]
  {
    var q: Queue := [Entry(3, PRIO_STD), Entry(1, PRIO_MIN)];
    assert q[1..] == [Entry(1, PRIO_MIN)] && q[..1] == [Entry(3, PRIO_STD)];
    assert Rank(q[1..], PRIO_STD) == 0;
  }

  lemma {:induction false} DrainNone(m: Machine)
    requires m.nq == []
    ensures Drain(m) == m
  {
  }

  function LowYield(): Step { SwitchStep(Yield, [Quiet(Place(ThreeThreads(), Yield))]) }

  lemma {:induction false} ThirdRuns()
    ensures Leads(ThreeThreads(), LowYield(), TwoAhead())
  {
    hide Rounds, HonestRounds, Place, Drain, Quiet;
    var m1 := Place(ThreeThreads(), Yield);
    TwoPlaced();
    QuietPoll(m1);
    TwoDispatched(m1);
  }

  /** A run from the start of the library on after which a directed yield to thread 2, the first of
      the ready ones, lowers its priority from 0 to -4. */
  lemma {:induction false} FavourCanLower() returns (ms: seq<Machine>, steps: seq<Step>)
    ensures IsRun(ms, steps) && Boot(1, LOW, 0) == Running(ms[0]) && |steps| == 4
    ensures Queued(ms[4].rq, 2) && PrioOf(ms[4].rq, 2) == PRIO_STD && Favour(ms[4], 2).1 == Ok
    ensures var q := Favour(ms[4], 2).0.rq; Queued(q, 2) && PrioOf(q, 2) == -4
  {
    hide Boot, Apply, Legal, Delete, Insert;
    BootLow();
    FirstNew();
    SecondNew();
    ThirdRuns();
    ms := [LowMain(map[], [], true), LowMain(map[], [], false), LowMain(map[2 := NEWCOMER], [Entry(2, 0)], false),
           ThreeThreads(), TwoAhead()];
    steps := [FavournewStep(false), SpawnStep(2, PLAIN), SpawnStep(3, PLAIN), LowYield()];
    forall i | 0 <= i < 4 ensures Leads(ms[i], steps[i], ms[i + 1]) {}
    var q := TwoAhead().rq;
    DeleteFirst(q);
    assert q[1..] == [Entry(1, PRIO_MIN)];
    InsertTop(q[1..], -4, 2);
  }
}
