/** Suspended threads: whatever happens while a thread is suspended, resuming it takes it back to
    the queue that it came from. */
module Suspension {
  import opened PriorityOrder
  import opened PriorityFacts
  import opened EventManager
  import opened Scheduler
  import opened Partition
  import opened Runs

  /** A suspended thread exists, is not held and is in no other queue. */
  lemma {:induction false} NowhereElse(m: Machine, held: set<nat>, u: nat)
    requires Sound(m, held) && Queued(m.sq, u)
    ensures u in m.tcbs && u !in held && Look(m, u).state != Dead
    ensures u !in Bag(m.nq) && u !in Bag(m.rq) && u !in Bag(m.wq) && u !in Bag(m.dq)
  {
    hide Bag, Descending, IndexOf;
    BagQueued(m.sq, u);
    assert Places(m, u) >= 1;
  }

  lemma {:induction false} NotInItsQueue(m: Machine, u: nat)
    requires Inv(m) && Queued(m.sq, u)
    ensures Look(m, u).state != Dead && u != m.current && u in m.tcbs
    ensures !Queued(QueueOf(m, Look(m, u).state), u)
  {
    hide Bag, Descending, IndexOf, StatesOk, Conserved;
    NowhereElse(m, {m.current}, u);
    BagQueued(QueueOf(m, Look(m, u).state), u);
  }

  lemma {:induction false} PutOthers(m: Machine, t: nat, b: Tcb, s: State, q: Queue, u: nat)
    ensures QueueOf(Put(m, t, b), s) == QueueOf(m, s)
    ensures Look(Put(m, t, b), u) == if u == t then b else Look(m, u)
    ensures Look(WithQueue(m, s, q), u) == Look(m, u)
  {
  }

  lemma {:induction false} CancelState(m: Machine, h: Handle, u: nat)
    requires u in m.tcbs && !Queued(QueueOf(m, Look(m, u).state), u)
    ensures Look(Cancel(m, h).0, u).state == Look(m, u).state
  {
    hide Insert, Delete, IndexOf, Queued, Put, QueueOf, WithQueue, Bury, Look;
    if h.Thread? {
      var t, b := h.id, Look(m, h.id);
      var m1 := Put(m, t, b.(cancelreq := true));
      var q := Delete(QueueOf(m1, b.state), t);
      PutOthers(m, t, b.(cancelreq := true), b.state, q, u);
      PutOthers(m1, t, b, b.state, q, u);
      if u != t {
        BuryOthers(WithQueue(m1, b.state, q), t, u);
      }
    }
  }

  lemma {:induction false} AbortState(m: Machine, h: Handle, u: nat)
    requires u in m.tcbs && Look(m, u).state != Dead && !Queued(QueueOf(m, Look(m, u).state), u)
    ensures Look(Abort(m, h).0, u).state == Look(m, u).state
  {
    hide Insert, Delete, IndexOf, Queued, Cancel, JoinPlanOf;
    if h.Thread? {
      var m1 := Put(m, h.id, Look(m, h.id).(joinable := false, cancelEnable := true, cancelAsync := true));
      CancelState(m1, h, u);
    }
  }

  lemma {:induction false} CallState(m: Machine, step: Step, u: nat)
    requires Inv(m) && Legal(m, step) && !Switches(m, step) && Queued(m.sq, u)
    ensures Apply(m, step).Running?
    ensures Look(Apply(m, step).machine, u).state == Look(m, u).state
  {
    hide Inv, Insert, Delete, IndexOf, Favour, Cancel, Abort, Queued, JoinPlanOf, WithSetting;
    NotInItsQueue(m, u);
    if step.CancelStep? {
      CancelState(m, step.h, u);
    } else if step.AbortStep? {
      AbortState(m, step.h, u);
    } else if step.AttrStep? {
      SettingKeepsState(Look(m, step.t), step.x);
    }
  }

  lemma {:induction false} RoundState(m: Machine, turn: Turn, dopoll: bool, u: nat)
    requires Sound(m, {}) && Queued(m.sq, u)
    ensures var m' := Settle(m, RunRound(turn, m.conds, Waiters(m), dopoll, m.pipe));
      Sound(m', {}) && m'.sq == m.sq && Look(m', u).state == Look(m, u).state
  {
    hide Sound, RunRound, Waiters, Keep, Wake, Store, WokenSet, Bag, IndexOf;
    RoundKeeps(m, turn, dopoll);
    NowhereElse(m, {}, u);
    var r := RunRound(turn, m.conds, Waiters(m), dopoll, m.pipe);
    forall i | 0 <= i < |m.wq| ensures r.waiters[i].tid == m.wq[i].thread {
      RoundTids(turn, m.conds, Waiters(m), dopoll, m.pipe, i);
    }
    WokenWait(m, r, u);
    StoreStates(m.tcbs, r.waiters, u);
  }

  lemma {:induction false} RoundsState(m: Machine, turns: seq<Turn>, dopoll: bool, u: nat)
    requires Sound(m, {}) && Queued(m.sq, u) && Rounds(m, turns, dopoll).Some?
    ensures var m' := Rounds(m, turns, dopoll).value;
      Sound(m', {}) && m'.sq == m.sq && Look(m', u).state == Look(m, u).state
    decreases |turns|
  {
    hide Sound, Settle, RunRound, Waiters, IndexOf, Look;
    RoundState(m, turns[0], dopoll, u);
    var r := RunRound(turns[0], m.conds, Waiters(m), dopoll, m.pipe);
    if r.repeat {
      RoundsState(Settle(m, r), turns[1..], dopoll, u);
    }
  }

  lemma {:induction false} DrainState(m: Machine, u: nat)
    requires u !in Bag(m.nq)
    ensures Drain(m).sq == m.sq && Look(Drain(m), u).state == Look(m, u).state
    decreases |m.nq|
  {
    hide Insert, Bag;
    if m.nq != [] {
      BagTail(m.nq);
      var t := m.nq[|m.nq| - 1].thread;
      var p := if m.favournew then FavoritePrio(m.rq) else PRIO_STD;
      DrainState(Put(m, t, Look(m, t).(state := Ready)).(nq := m.nq[..|m.nq| - 1], rq := Insert(m.rq, p, t)), u);
    }
  }

  lemma {:induction false} SwitchState(m: Machine, c: Cause, turns: seq<Turn>, u: nat)
    requires Inv(m) && Queued(m.sq, u) && Resched(m, c, turns).Running?
    ensures Look(Resched(m, c, turns).machine, u).state == Look(m, u).state
  {
    hide Sound, Rounds, Drain, IndexOf, Insert, Increase, Bag;
    NowhereElse(m, {m.current}, u);
    PlaceKeeps(m, c);
    var m1 := Place(m, c);
    RoundsState(m1, turns, Polls(m1), u);
    var m2 := Rounds(m1, turns, Polls(m1)).value;
    NowhereElse(m2, {}, u);
    DrainState(m2, u);
  }

  /** No step of any kind changes the state of a thread that it leaves suspended. */
  lemma {:induction false} StepState(m: Machine, step: Step, u: nat)
    requires Inv(m) && Legal(m, step) && Queued(m.sq, u) && Apply(m, step).Running?
    ensures Look(Apply(m, step).machine, u).state == Look(m, u).state
  {
    hide Inv, Sound, Look, IndexOf, Resched, Spawn, Suspend, Resume, Cancel, Abort, JoinDead, HonestSwitch;
    if step.SwitchStep? {
      SwitchState(m, step.cause, step.turns, u);
    } else if Switches(m, step) {
      FavourKeeps(m, step.to);
      FavourState(m, step.to, u);
      SwitchState(Favour(m, step.to).0, Yield, step.turns, u);
    } else {
      CallState(m, step, u);
    }
  }

  lemma {:induction false} FavourState(m: Machine, to: nat, u: nat)
    ensures Favour(m, to).0.sq == m.sq && Look(Favour(m, to).0, u) == Look(m, u)
  {
    hide Favorite, IndexOf;
  }

  lemma {:induction false} WhileSuspended(ms: seq<Machine>, steps: seq<Step>, u: nat, i: nat, k: nat)
    requires IsRun(ms, steps) && Inv(ms[0]) && i <= k <= |steps|
    requires forall j :: i <= j <= k ==> Queued(ms[j].sq, u)
    ensures Look(ms[k], u).state == Look(ms[i], u).state
    decreases k
  {
    hide Inv, Look, IndexOf, Apply, Legal, Queued;
    if i < k {
      WhileSuspended(ms, steps, u, i, k - 1);
      RunInvariant(ms, steps, k - 1);
      assert Legal(ms[k - 1], steps[k - 1]) && Apply(ms[k - 1], steps[k - 1]) == Running(ms[k]);
      StepState(ms[k - 1], steps[k - 1], u);
    }
  }

  /** A thread that is suspended at step i and resumed at step k, and was suspended all the time in
      between, is back in the queue that it was taken from, in the state that it had. */
  lemma {:induction false} SuspendResume(ms: seq<Machine>, steps: seq<Step>, u: nat, i: nat, k: nat)
    requires IsRun(ms, steps) && Inv(ms[0]) && i < k < |steps|
    requires steps[i] == SuspendStep(Thread(u)) && Suspend(ms[i], Thread(u)).1 == Ok
    requires steps[k] == ResumeStep(Thread(u))
    requires forall j :: i < j <= k ==> Queued(ms[j].sq, u)
    ensures var s := Look(ms[i], u).state;
      && Queued(QueueOf(ms[i], s), u) && !Queued(QueueOf(ms[i + 1], s), u)
      && Queued(QueueOf(ms[k + 1], s), u) && Look(ms[k + 1], u).state == s && !Queued(ms[k + 1].sq, u)
  {
    hide Inv, IndexOf, Insert, Delete, Queued;
    RunInvariant(ms, steps, i + 1);
    RunInvariant(ms, steps, k);
    RunInvariant(ms, steps, k + 1);
    assert Apply(ms[i], steps[i]) == Running(ms[i + 1]) && Apply(ms[k], steps[k]) == Running(ms[k + 1]);
    assert Queued(ms[i + 1].sq, u) && Queued(ms[k].sq, u);
    NotInItsQueue(ms[i + 1], u);
    NotInItsQueue(ms[k], u);
    WhileSuspended(ms, steps, u, i + 1, k);
    ResumeKeeps(ms[k], Thread(u));
    if Queued(ms[k + 1].sq, u) {
      NotInItsQueue(ms[k + 1], u);
    }
  }
}
