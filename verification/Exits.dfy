/** What becomes of threads that exit: along every run a joinable thread that has exited stays in the
    dead queue until somebody joins or aborts it, which frees it once, and whoever waits for its end is
    woken. */
module Exits {
  import opened PriorityOrder
  import opened PriorityFacts
  import opened EventManager
  import opened EventOutcomes
  import opened Scheduler
  import opened Partition
  import opened Runs
  import opened WaitQueue
  import opened SwitchFacts
  import Replies

  /** Dead, and kept until it is joined. */
  predicate DeadHere(m: Machine, t: nat) {
    t in m.tcbs && Look(m, t).state == Dead && Queued(m.dq, t)
  }

  /** The steps that may free a dead thread: a join of it or of any, and aborting it. */
  predicate Reaps(step: Step, t: nat) {
    match step
    case JoinStep(tid) => tid == None || tid == Some(t)
    case ReapStep(tid) => tid == None || tid == Some(t)
    case AbortStep(h) => h == Thread(t)
    case _ => false
  }

  ghost predicate Freed(m: Machine, m': Machine, t: nat) {
    t !in m'.tcbs && m'.tcbs == m.tcbs - {t} && m'.freed == m.freed + 1
  }

  /** Thread t is there as before. */
  ghost predicate StillDead(m': Machine, t: nat) {
    t in m'.tcbs && Look(m', t).state == Dead
  }

  // ---------------------------------------------------------------------------------------
  // Calls

  lemma {:induction false} DeadElsewhere(m: Machine, held: set<nat>, t: nat)
    requires Sound(m, held) && Queued(m.dq, t)
    ensures !Queued(m.nq, t) && !Queued(m.wq, t) && t !in held
  {
    hide Bag, StatesOk, Ordered, IndexOf;
    BagQueued(m.nq, t);
    BagQueued(m.wq, t);
    BagQueued(m.dq, t);
    assert Places(m, t) <= 1;
  }

  lemma {:induction false} CancelSpares(m: Machine, h: Handle, t: nat)
    requires t in m.tcbs && Look(m, t).state == Dead
    ensures StillDead(Cancel(m, h).0, t)
  {
    hide Queued, Insert, Delete;
  }

  lemma {:induction false} ReapEffect(m: Machine, tid: Option<nat>, t: nat)
    requires Inv(m) && DeadHere(m, t) && (tid.Some? ==> tid.value in m.tcbs)
    ensures var m' := JoinDead(m, tid).0;
      StillDead(m', t) || (Freed(m, m', t) && (tid == None || tid == Some(t)))
  {
    hide Inv, Queued, Delete;
  }

  lemma {:induction false} AbortEffect(m: Machine, h: Handle, t: nat)
    requires Inv(m) && DeadHere(m, t) && LiveHandle(m, h)
    ensures var m' := Abort(m, h).0;
      StillDead(m', t) || (Freed(m, m', t) && h == Thread(t))
  {
    hide Inv, Queued, Cancel, JoinDead, JoinPlanOf;
    if h.Thread? && h.id != m.current {
      var u, b := h.id, Look(m, h.id);
      if b.state == Dead && b.joinable {
        JoinPlanTid(m, u);
        ReapEffect(m, Some(u), t);
      } else {
        CancelSpares(Put(m, u, b.(joinable := false, cancelEnable := true, cancelAsync := true)), h, t);
      }
    }
  }

  lemma {:induction false} JoinPlanTid(m: Machine, u: nat)
    ensures JoinPlanOf(m, Some(u)).JoinAtOnce? ==> JoinPlanOf(m, Some(u)).tid == Some(u)
  {
  }

  lemma {:induction false} JoinEffect(m: Machine, tid: Option<nat>, t: nat)
    requires Inv(m) && DeadHere(m, t) && (tid.Some? ==> tid.value in m.tcbs)
    ensures var m' := Join(m, tid).0;
      StillDead(m', t) || (Freed(m, m', t) && (tid == None || tid == Some(t)))
  {
    hide Inv, Queued, JoinDead, ThreadCount;
    var plan := JoinPlanOf(m, tid);
    if plan.JoinAtOnce? {
      if m.dq != [] { HeadExists(m); }
      ReapEffect(m, plan.tid, t);
    }
  }

  lemma {:induction false} HeadExists(m: Machine)
    requires Inv(m) && m.dq != []
    ensures m.dq[0].thread in m.tcbs
  {
    hide Inv;
    HeadIsQueued(m.dq);
    Replies.DeadOnes(m, m.dq[0].thread);
  }

  lemma {:induction false} CallSpares(m: Machine, step: Step, t: nat)
    requires Inv(m) && Legal(m, step) && !Switches(m, step) && DeadHere(m, t)
    ensures Apply(m, step).Running?
    ensures var m' := Apply(m, step).machine;
      StillDead(m', t) || (Freed(m, m', t) && Reaps(step, t))
  {
    hide Inv, Suspend, Resume, Cancel, Abort, Join, JoinDead, Favour, HonestSwitch, Queued, Insert;
    match step {
      case SuspendStep(h) => SuspendedTcbs(m, h);
      case ResumeStep(h) => SuspendedTcbs(m, h);
      case CancelStep(h) => CancelSpares(m, h, t);
      case AbortStep(h) => AbortEffect(m, h, t);
      case JoinStep(tid) => JoinEffect(m, tid, t);
      case ReapStep(tid) => ReapEffect(m, tid, t);
      case AttrStep(u, x) => SettingKeepsState(Look(m, u), x);
      case _ =>
    }
  }

  lemma {:induction false} SuspendedTcbs(m: Machine, h: Handle)
    ensures Suspend(m, h).0.tcbs == m.tcbs && Resume(m, h).0.tcbs == m.tcbs
  {
    hide Queued, Insert, Delete;
  }

  // ---------------------------------------------------------------------------------------
  // Switches

  lemma {:induction false} RoundSpares(m: Machine, turn: Turn, dopoll: bool, t: nat)
    requires Sound(m, {}) && DeadHere(m, t)
    ensures var m' := Settle(m, RunRound(turn, m.conds, Waiters(m), dopoll, m.pipe));
      Sound(m', {}) && DeadHere(m', t)
  {
    hide Sound, RunRound, Store, Keep, Wake, WokenSet, Waiters, Queued;
    var r := RunRound(turn, m.conds, Waiters(m), dopoll, m.pipe);
    RoundKeeps(m, turn, dopoll);
    DeadElsewhere(m, {}, t);
    RoundOther(m, turn, dopoll, t);
    StoreStates(m.tcbs, r.waiters, t);
  }

  lemma {:induction false} RoundsSpare(m: Machine, turns: seq<Turn>, dopoll: bool, t: nat)
    requires Sound(m, {}) && DeadHere(m, t) && Rounds(m, turns, dopoll).Some?
    ensures var m' := Rounds(m, turns, dopoll).value;
      Sound(m', {}) && DeadHere(m', t)
    decreases |turns|
  {
    hide Sound, RunRound, Settle, Waiters, DeadHere;
    RoundSpares(m, turns[0], dopoll, t);
    var r := RunRound(turns[0], m.conds, Waiters(m), dopoll, m.pipe);
    if r.repeat {
      RoundsSpare(Settle(m, r), turns[1..], dopoll, t);
    }
  }

  lemma {:induction false} DrainSpares(m: Machine, t: nat)
    requires t in m.tcbs
    ensures t in Drain(m).tcbs && Drain(m).dq == m.dq
    decreases |m.nq|
  {
    hide Drain, Insert;
    DrainMoves(m);
    if m.nq != [] {
      DrainSpares(Moved(m), t);
    }
  }

  /** The rest of a switch after the thread that ran has been put away. */
  lemma {:induction false} SwitchSpares(m: Machine, c: Cause, turns: seq<Turn>, t: nat)
    requires Inv(m) && DeadHere(Place(m, c), t) && Resched(m, c, turns).Running?
    ensures DeadHere(Resched(m, c, turns).machine, t)
  {
    hide Inv, Sound, Place, Rounds, Drain, Queued;
    var m1 := Place(m, c);
    PlaceKeeps(m, c);
    RoundsSpare(m1, turns, Polls(m1), t);
    var m2 := Rounds(m1, turns, Polls(m1)).value;
    DeadElsewhere(m2, {}, t);
    DrainLeaves(m2, t);
    DrainSpares(m2, t);
  }

  lemma {:induction false} PlaceSpares(m: Machine, c: Cause, t: nat)
    requires Inv(m) && DeadHere(m, t)
    ensures DeadHere(Place(m, c), t)
  {
    hide Sound, Insert, Increase, IndexOf;
    DeadElsewhere(m, {m.current}, t);
    PlaceOthers(m, c, t);
    if c.Exit? {
      ExitExactly(m);
    }
  }

  lemma {:induction false} FavourSpares(m: Machine, to: nat, t: nat)
    requires Inv(m) && DeadHere(m, t) && Favour(m, to).1 == Ok
    ensures Inv(Favour(m, to).0) && DeadHere(Favour(m, to).0, t)
  {
    hide Inv, Favorite, IndexOf;
    FavourKeeps(m, to);
  }

  // ---------------------------------------------------------------------------------------
  // Whole runs

  /** No step of any kind frees a dead thread, or brings it back, except a join or an abort that takes
      exactly this thread out. */
  lemma {:induction false} StepSpares(m: Machine, step: Step, m': Machine, t: nat)
    requires Inv(m) && Legal(m, step) && Apply(m, step) == Running(m') && DeadHere(m, t)
    ensures DeadHere(m', t) || (Freed(m, m', t) && Reaps(step, t))
  {
    hide Inv, Legal, Place, Resched, Favour, Reaps, Queued;
    StepKeeps(m, step);
    if !Switches(m, step) {
      CallSpares(m, step, t);
      if StillDead(m', t) { DeadIsQueued(m', t); }
    } else if step.SwitchStep? {
      PlaceSpares(m, step.cause, t);
      SwitchSpares(m, step.cause, step.turns, t);
    } else {
      FavourSpares(m, step.to, t);
      PlaceSpares(Favour(m, step.to).0, Yield, t);
      SwitchSpares(Favour(m, step.to).0, Yield, step.turns, t);
    }
  }

  /** A joinable thread that exits at step i is dead and in the dead queue at any later moment, unless a join
      or an abort has freed it meanwhile, which no other step does. */
  lemma {:induction false} DeadUntilJoined(ms: seq<Machine>, steps: seq<Step>, i: nat, k: nat)
    requires IsRun(ms, steps) && Inv(ms[0]) && i < k <= |steps|
    requires steps[i].SwitchStep? && steps[i].cause == Exit && Look(ms[i], ms[i].current).joinable
    ensures var t := ms[i].current;
      || DeadHere(ms[k], t)
      || exists j :: i < j < k && DeadHere(ms[j], t) && Reaps(steps[j], t) && Freed(ms[j], ms[j + 1], t)
    decreases k
  {
    hide Inv, Legal, Apply, DeadHere, Freed, Reaps;
    var t := ms[i].current;
    RunInvariant(ms, steps, k - 1);
    assert Legal(ms[k - 1], steps[k - 1]) && Apply(ms[k - 1], steps[k - 1]) == Running(ms[k]);
    if k == i + 1 {
      ExitDies(ms[i], steps[i], ms[k]);
    } else {
      DeadUntilJoined(ms, steps, i, k - 1);
      if DeadHere(ms[k - 1], t) {
        StepSpares(ms[k - 1], steps[k - 1], ms[k], t);
        if !DeadHere(ms[k], t) {
          assert i < k - 1 < k && Freed(ms[k - 1], ms[k - 1 + 1], t);
        }
      }
    }
  }

  lemma {:induction false} ExitDies(m: Machine, step: Step, m': Machine)
    requires Inv(m) && Legal(m, step) && Apply(m, step) == Running(m')
    requires step.SwitchStep? && step.cause == Exit && Look(m, m.current).joinable
    ensures DeadHere(m', m.current)
  {
    hide Inv, Place, Resched, Queued, HonestSwitch;
    ExitExactly(m);
    SwitchSpares(m, Exit, step.turns, m.current);
  }

  /** Whoever waits for the end of a dead thread, or of any, is woken in the next round. */
  lemma {:induction false} JoinerWakes(m: Machine, turn: Turn, dopoll: bool, u: nat, j: nat, t: nat)
    requires Sound(m, {}) && DeadHere(m, t) && SwitchFacts.Shows(m, turn.env)
    requires Waits(m, u) && j < |Look(m, u).events| && Look(m, u).events[j].status == Pending
    requires Look(m, u).events[j].kind == Tid(Some(t), Dead) || Look(m, u).events[j].kind == Tid(None, Dead)
    ensures !Waits(Settle(m, RunRound(turn, m.conds, Waiters(m), dopoll, m.pipe)), u)
  {
    hide Sound, RunRound, Settle, IndexOf;
    RoundWaiter(m, turn, dopoll, u);
    WaiterRing(m, u);
    PlainRound(turn, m.conds, Waiters(m), dopoll, m.pipe, IndexOf(m.wq, u), j);
  }
}
