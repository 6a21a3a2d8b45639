/** Threads that use one mutex and one condition variable, on the scheduler itself: every run of the
    scheduler in which the running thread acquires, releases, awaits, notifies or does anything else
    is a run of the protocol of module CondVars, with a pass for every round of the event manager, and
    the waiting queue holds at every moment exactly the threads that the protocol says. */
module CondRuns {
  import opened PriorityOrder
  import opened EventManager
  import opened Scheduler
  import opened Partition
  import opened Runs
  import opened WaitQueue
  import opened Marking
  import opened Coupling
  import M = Mutexes
  import C = CondVars

  function TieOf(v: Names, s: C.Cv): Tie {
    var extra := set t | t in s.pcs && s.pcs[t].Sleeping? && s.pcs[t].extra;
    var napping := set t | t in s.pcs && s.pcs[t].Sleeping? && t !in s.marked && t in s.parked;
    var queueing := set t | t in s.pcs && (s.pcs[t].Wants? || s.pcs[t].Returning?) && t !in s.marked && t in s.parked;
    Tie(v, s.cond, C.Sleepers(s), extra, C.Lockers(s) - s.marked, napping, queueing)
  }

  ghost predicate Chain(ss: seq<C.Cv>, steps: seq<C.Step>) {
    |ss| == |steps| + 1 && forall i :: 0 <= i < |steps| ==> C.Leads(ss[i], steps[i], ss[i + 1])
  }

  lemma {:induction false} Prepended(s: C.Cv, step: C.Step, ss: seq<C.Cv>, steps: seq<C.Step>)
    requires Chain(ss, steps) && C.Leads(s, step, ss[0])
    ensures Chain([s] + ss, [step] + steps)
    ensures C.PassesFollow(ss, steps) && (|steps| > 0 && steps[0].PassStep?) ==>
      C.PassesFollow([s] + ss, [step] + steps)
  {
    hide C.Leads;
    var ss', steps' := [s] + ss, [step] + steps;
    forall i | 0 <= i < |steps'| ensures C.Leads(ss'[i], steps'[i], ss'[i + 1]) {
      if i > 0 { assert C.Leads(ss[i - 1], steps[i - 1], ss[i]); }
    }
  }

  // ---------------------------------------------------------------------------------------
  // Rounds are passes

  lemma {:induction false} PassTie(v: Names, s: C.Cv, who: nat, extras: set<nat>)
    requires extras <= C.Sleepers(s)
    ensures var x := TieOf(v, s);
      TieOf(v, C.Pass(s, who, extras)) ==
        x.(flags := FlagsAfter(x.flags, x.sleepers, who),
           sleepers := x.sleepers - Chosen(x.flags, x.sleepers, who) - extras,
           lockers := if s.mutex.locked then x.lockers else {})
  {
    var s' := C.Pass(s, who, extras);
    assert C.Sleepers(s') == C.Sleepers(s) - Chosen(s.cond, C.Sleepers(s), who) - extras;
    assert C.Lockers(s') == C.Lockers(s);
    assert C.Lockers(s) !! C.Sleepers(s);
  }

  predicate Shows(v: Names, turn: Turn, locked: bool) { v.mutex in turn.env.locked <==> locked }

  lemma {:induction false} RoundIsPass(m: Machine, turn: Turn, dopoll: bool, v: Names, s: C.Cv) returns (step: C.Step)
    requires Sound(m, {}) && Tied(m, TieOf(v, s)) && Shows(v, turn, s.mutex.locked)
    ensures step.PassStep? && C.Legal(s, step)
    ensures Tied(Settle(m, RunRound(turn, m.conds, Waiters(m), dopoll, m.pipe)), TieOf(v, C.Next(s, step)))
  {
    hide Sound, Tied, RunRound, Settle, Waiters, Chosen, FlagsAfter;
    var who, extras := TieRound(m, turn, dopoll, TieOf(v, s));
    PassTie(v, s, who, extras);
    step := C.PassStep(who, extras);
  }

  /** What a call leaves behind apart from marks. */
  datatype Core = Core(mutex: M.Mutex, waiters: int, pcs: map<nat, C.Pc>)

  function CoreOf(s: C.Cv): Core { Core(s.mutex, s.waiters, s.pcs) }

  lemma {:induction false} RoundsArePasses(m: Machine, turns: seq<Turn>, dopoll: bool, v: Names, s: C.Cv)
    returns (ss: seq<C.Cv>, steps: seq<C.Step>)
    requires Sound(m, {}) && Tied(m, TieOf(v, s)) && Rounds(m, turns, dopoll).Some?
    requires forall i :: 0 <= i < |turns| ==> Shows(v, turns[i], s.mutex.locked)
    ensures Chain(ss, steps) && ss[0] == s && |steps| > 0 && (forall i :: 0 <= i < |steps| ==> steps[i].PassStep?)
    ensures CoreOf(ss[|steps|]) == CoreOf(s) && ss[|steps|].parked == s.parked
    ensures Tied(Rounds(m, turns, dopoll).value, TieOf(v, ss[|steps|]))
    decreases |turns|
  {
    hide Sound, Tied, RunRound, Settle, Waiters, TieOf, C.Legal, C.Sleepers, C.Lockers, Chosen, FlagsAfter;
    var r := RunRound(turns[0], m.conds, Waiters(m), dopoll, m.pipe);
    assert Shows(v, turns[0], s.mutex.locked);
    var step := RoundIsPass(m, turns[0], dopoll, v, s);
    var s1 := C.Next(s, step);
    if r.repeat {
      RoundKeeps(m, turns[0], dopoll);
      var ss1, steps1 := RoundsArePasses(Settle(m, r), turns[1..], dopoll, v, s1);
      ss, steps := [s] + ss1, [step] + steps1;
      Prepended(s, step, ss1, steps1);
    } else {
      ss, steps := [s, s1], [step];
    }
  }

  // ---------------------------------------------------------------------------------------
  // The scheduler with threads that call

  datatype World = World(m: Machine, core: Core)

  /** The running thread makes a call, or goes on with one; or it does something else.  A call that
      waits takes the extra events along; a switch comes with its turns of the event manager. */
  datatype Act = Call(step: C.Step, extras: seq<Event>, turns: seq<Turn>) | Other(other: Step)

  /** The objects as a call finds them; marks are nothing that it can see. */
  function Fields(v: Names, w: World): C.Cv {
    C.Cv.Cv(w.core.mutex, Flags(w.m.conds, v.cond), w.core.waiters, w.core.pcs, {}, {}, 0, 0)
  }

  function Left(v: Names, w: World, step: C.Step): C.Cv { C.Next(Fields(v, w), step) }

  function Entered(v: Names, w: World, step: C.Step): Machine {
    w.m.(conds := w.m.conds[v.cond := Left(v, w, step).cond])
  }

  /** How a thread at pc enters the scheduler. */
  function CauseOf(v: Names, pc: C.Pc, extras: seq<Event>): Cause {
    match pc
    case Sleeping(_, _) => Wait([Event(Cond(v.cond), Pending)] + extras)
    case Wants => Wait([Event(Mutex(v.mutex), Pending)])
    case Returning(_) => Wait([Event(Mutex(v.mutex), Pending)])
    case _ => Yield
  }

  predicate IsCall(step: C.Step) { !step.PassStep? && !step.ParkStep? && !step.UnparkStep? }

  /** What the code asks of a caller, and that a thread goes on where it stopped. */
  predicate MayCall(v: Names, w: World, step: C.Step) {
    match step
    case AcquireStep(t) => C.At(Fields(v, w), t).Out?
    case ReleaseStep(t) => C.At(Fields(v, w), t).Out?
    case AwaitStep(t, _) => C.At(Fields(v, w), t).Out? && C.Held(Fields(v, w), t) > 0
    case NotifyStep(t, _) => C.At(Fields(v, w), t).Out?
    case ResumeStep(t) => C.At(Fields(v, w), t).Yielding?
    case WakeStep(t) => C.InCall(C.At(Fields(v, w), t))
    case _ => false
  }

  /** Other calls cancel or abort nobody who is inside a wait, and leave the two objects alone. */
  ghost predicate Harmless(v: Names, core: Core, step: Step) {
    && (forall t :: t in core.pcs && C.InCall(core.pcs[t]) && Moves(step, t) ==> step.SuspendStep? || step.ResumeStep?)
    && (step.NotifyStep? ==> step.cond != v.cond)
    && (step.SwitchStep? && step.cause.Wait? ==> Foreign(v, step.cause.events))
  }

  predicate AllShow(v: Names, turns: seq<Turn>, locked: bool) {
    forall i :: 0 <= i < |turns| ==> Shows(v, turns[i], locked)
  }

  function TurnsOf(step: Step): seq<Turn> {
    match step case YieldToStep(_, turns) => turns case SwitchStep(_, turns) => turns case _ => []
  }

  ghost predicate May(v: Names, w: World, act: Act) {
    match act
    case Call(step, extras, turns) =>
      && MayCall(v, w, step) && step.t == w.m.current
      && (C.InCall(C.At(Left(v, w, step), w.m.current)) ==> !Look(w.m, w.m.current).cancelreq)
      && (step.AwaitStep? ==> Foreign(v, extras) && (step.extra <==> extras != []))
      && AllShow(v, turns, Left(v, w, step).mutex.locked)
    case Other(step) =>
      && C.At(Fields(v, w), w.m.current).Out? && Legal(w.m, step) && Harmless(v, w.core, step)
      && AllShow(v, TurnsOf(step), w.core.mutex.locked)
  }

  /** What the act is in the protocol: the call itself, or the suspension of a thread inside a wait and
      its end. */
  function OwnStep(w: World, act: Act): Option<C.Step> {
    match act
    case Call(step, _, _) => Some(step)
    case Other(SuspendStep(Thread(u))) =>
      if u in w.core.pcs && C.InCall(w.core.pcs[u]) && Suspend(w.m, Thread(u)).1 == Ok
      then Some(C.ParkStep(w.m.current, u)) else None
    case Other(ResumeStep(Thread(u))) =>
      if u in w.core.pcs && C.InCall(w.core.pcs[u]) && Resume(w.m, Thread(u)).1 == Ok
      then Some(C.UnparkStep(w.m.current, u)) else None
    case Other(_) => None
  }

  predicate HandsOver(v: Names, w: World, act: Act) {
    match act
    case Call(step, _, _) => !C.At(Left(v, w, step), w.m.current).Out?
    case Other(step) => Switches(w.m, step)
  }

  /** The steps are what the act is in the protocol, and then passes, exactly if it enters the scheduler. */
  ghost predicate Mirrors(v: Names, w: World, act: Act, steps: seq<C.Step>) {
    var own := OwnStep(w, act);
    var n := if own.Some? then 1 else 0;
    && n <= |steps| && (own.Some? ==> steps[0] == own.value)
    && (forall i :: n <= i < |steps| ==> steps[i].PassStep?)
    && (HandsOver(v, w, act) <==> |steps| > n)
  }

  function Does(v: Names, w: World, act: Act): (Outcome, Core) {
    match act
    case Call(step, extras, turns) =>
      var s, m := Left(v, w, step), Entered(v, w, step);
      var pc := C.At(s, w.m.current);
      (if pc.Out? then Running(m) else Resched(m, CauseOf(v, pc, extras), turns), CoreOf(s))
    case Other(step) => (Apply(w.m, step), w.core)
  }

  // ---------------------------------------------------------------------------------------
  // One step

  /** Those are parked who are suspended inside a wait. */
  ghost predicate SameAway(m: Machine, s: C.Cv) {
    forall t: nat :: t in s.parked <==> C.InCall(C.At(s, t)) && Suspended(m, t)
  }

  /** The scheduler is where the protocol is: same fields, same place of every thread, and the queues
      hold exactly those whom the protocol says, with their rings. */
  ghost predicate Matches(v: Names, w: World, s: C.Cv) {
    Inv(w.m) && Tied(w.m, TieOf(v, s)) && CoreOf(s) == w.core && C.MarkedWait(s) && SameAway(w.m, s)
  }

  /** Somebody inside a wait who is not marked is in the waiting queue, so not the running thread. */
  lemma {:induction false} RunnerIsMarked(v: Names, w: World, s: C.Cv)
    requires Matches(v, w, s)
    ensures !Listed(TieOf(v, s), w.m.current) && w.m.current !in s.parked
    ensures C.InCall(C.At(s, w.m.current)) ==> w.m.current in s.marked
  {
    hide Sound, SleepsWell, LocksWell, NapsWell, QueuesWell, Waits, Suspended, Foreign;
    TieWaits(w.m, TieOf(v, s));
    NotSuspended(w.m, {w.m.current}, w.m.current);
  }

  lemma {:induction false} CallIsLegal(v: Names, w: World, s: C.Cv, step: C.Step)
    requires Matches(v, w, s) && MayCall(v, w, step) && step.t == w.m.current
    ensures C.Legal(s, step) && IsCall(step)
  {
    hide Inv, Tied;
    RunnerIsMarked(v, w, s);
  }

  /** The protocol and the code make the same of a call. */
  lemma {:induction false} SameCall(v: Names, w: World, s: C.Cv, step: C.Step)
    requires CoreOf(s) == w.core && s.cond == Flags(w.m.conds, v.cond) && IsCall(step)
    ensures CoreOf(C.Next(s, step)) == CoreOf(Left(v, w, step)) && C.Next(s, step).cond == Left(v, w, step).cond
  {
  }

  /** A call changes only what its own thread waits for. */
  lemma {:induction false} OwnMove(v: Names, s: C.Cv, step: C.Step)
    requires C.Legal(s, step) && IsCall(step) && C.MarkedWait(s)
    ensures var x, y, s', t := TieOf(v, s), TieOf(v, C.Next(s, step)), C.Next(s, step), step.t;
      && SameBut(x.(flags := s'.cond), y, t) && t !in y.napping && t !in y.queueing
      && (t in y.sleepers <==> C.At(s', t).Sleeping?)
      && (t in y.lockers <==> C.At(s', t).Wants? || C.At(s', t).Returning?)
      && (t in y.extra <==> C.At(s', t).Sleeping? && C.At(s', t).extra)
      && (C.At(s', t).Sleeping? ==> step.AwaitStep? && C.At(s', t).extra == step.extra)
  {
  }

  /** A switch, from the thread that stops running to the one that runs next. */
  lemma {:induction false} SwitchIsPasses(v: Names, m: Machine, c: Cause, turns: seq<Turn>, s: C.Cv)
    returns (ss: seq<C.Cv>, steps: seq<C.Step>)
    requires Sound(Place(m, c), {}) && Tied(Place(m, c), TieOf(v, s)) && Resched(m, c, turns).Running?
    requires AllShow(v, turns, s.mutex.locked)
    ensures Chain(ss, steps) && ss[0] == s && |steps| > 0 && (forall i :: 0 <= i < |steps| ==> steps[i].PassStep?)
    ensures CoreOf(ss[|steps|]) == CoreOf(s) && ss[|steps|].parked == s.parked
    ensures Tied(Resched(m, c, turns).machine, TieOf(v, ss[|steps|]))
  {
    hide Sound, Tied, Place, Rounds, Drain, Dispatch, TieOf, C.Leads, Shows;
    var m1 := Place(m, c);
    ss, steps := RoundsArePasses(m1, turns, Polls(m1), v, s);
    RoundsKeep(m1, turns, Polls(m1));
    TieDispatch(Rounds(m1, turns, Polls(m1)).value, TieOf(v, ss[|steps|]));
  }

  lemma {:induction false} TieParts(v: Names, m: Machine, s: C.Cv)
    requires Tied(m, TieOf(v, s))
    ensures Flags(m.conds, v.cond) == s.cond && TieOf(v, s).flags == s.cond
  {
  }

  lemma {:induction false} TieApart(v: Names, s: C.Cv)
    ensures TieOf(v, s).sleepers !! TieOf(v, s).lockers
  {
  }

  /** The ring of a call that waits is the one that the protocol expects. */
  lemma {:induction false} CauseFits(v: Names, x: Tie, t: nat, pc: C.Pc, extras: seq<Event>)
    requires x.v == v
    requires (t in x.sleepers <==> pc.Sleeping?) && (t in x.lockers <==> pc.Wants? || pc.Returning?)
    requires pc.Sleeping? ==> Foreign(v, extras) && (t in x.extra <==> pc.extra) && (pc.extra <==> extras != [])
    ensures var c := CauseOf(v, pc, extras);
      if c.Wait? then Fits(x, t, c.events) else t !in x.sleepers && t !in x.lockers
  {
    if pc.Sleeping? {
      assert ([Event(Cond(v.cond), Pending)] + extras)[1..] == extras;
    }
  }

  /** Nobody is suspended or resumed in a switch. */
  lemma {:induction false} SwitchLeavesAway(m: Machine, c: Cause, turns: seq<Turn>)
    requires Resched(m, c, turns).Running?
    ensures Resched(m, c, turns).machine.sq == m.sq
  {
    hide Rounds, Drain, Insert;
    var m1 := Place(m, c);
    assert m1.sq == m.sq;
    RoundsLeaveAway(m1, turns, Polls(m1));
    DrainLeaves(Rounds(m1, turns, Polls(m1)).value, 0);
  }

  lemma {:induction false} RoundsLeaveAway(m: Machine, turns: seq<Turn>, dopoll: bool)
    ensures Rounds(m, turns, dopoll).Some? ==> Rounds(m, turns, dopoll).value.sq == m.sq
    decreases |turns|
  {
    hide RunRound, Waiters, Store, Keep, Wake, WokenSet;
    if turns != [] {
      var r := RunRound(turns[0], m.conds, Waiters(m), dopoll, m.pipe);
      if r.repeat { RoundsLeaveAway(Settle(m, r), turns[1..], dopoll); }
    }
  }

  /** A thread that makes a call finds the queue as the protocol says, and leaves it so. */
  lemma {:induction false} CallPlaced(v: Names, w: World, s: C.Cv, step: C.Step, extras: seq<Event>, turns: seq<Turn>)
    requires Matches(v, w, s) && May(v, w, Call(step, extras, turns)) && C.Legal(s, step)
    ensures var s1, m1 := C.Next(s, step), Entered(v, w, step);
      var pc := C.At(s1, w.m.current);
      && Inv(m1)
      && (pc.Out? ==> Tied(m1, TieOf(v, s1)))
      && (!pc.Out? ==> Tied(Place(m1, CauseOf(v, pc, extras)), TieOf(v, s1)))
  {
    hide Inv, Tied, Place, C.Legal, C.Next, TieOf, C.MarkedWait, Fits, CauseOf, SameBut, AllShow;
    var s1, m1, x := C.Next(s, step), Entered(v, w, step), TieOf(v, s);
    var y, pc := TieOf(v, s1), C.At(s1, w.m.current);
    IrrelevantKeeps(w.m, m1);
    TieParts(v, w.m, s);
    SameCall(v, w, s, step);
    OwnMove(v, s, step);
    RunnerIsMarked(v, w, s);
    TieNames(v, s);
    TieNames(v, s1);
    TieFlags(w.m, m1, x);
    if pc.Out? {
      TieElse(m1, x.(flags := s1.cond), y, step.t);
    } else {
      TieApart(v, s1);
      CauseFits(v, y, step.t, pc, extras);
      TiePlace(m1, CauseOf(v, pc, extras), x.(flags := s1.cond), y);
    }
  }

  lemma {:induction false} TieNames(v: Names, s: C.Cv)
    ensures TieOf(v, s).v == v
  {
  }

  ghost predicate Extends(s: C.Cv, ss: seq<C.Cv>, steps: seq<C.Step>) {
    Chain(ss, steps) && ss[0] == s && C.PassesFollow(ss, steps)
  }

  lemma {:induction false} MarkedChain(ss: seq<C.Cv>, steps: seq<C.Step>, k: nat)
    requires Chain(ss, steps) && C.MarkedWait(ss[0]) && k <= |steps|
    ensures C.MarkedWait(ss[k])
  {
    hide C.Legal, C.Next, C.MarkedWait;
    if k > 0 {
      MarkedChain(ss, steps, k - 1);
      assert C.Leads(ss[k - 1], steps[k - 1], ss[k]);
      C.MarkedStep(ss[k - 1], steps[k - 1]);
    }
  }

  lemma {:induction false} CallRefines(v: Names, w: World, act: Act, w': World, s: C.Cv)
    returns (ss: seq<C.Cv>, steps: seq<C.Step>)
    requires Matches(v, w, s) && act.Call? && May(v, w, act) && Does(v, w, act) == (Running(w'.m), w'.core)
    ensures Extends(s, ss, steps) && Matches(v, w', ss[|steps|]) && Mirrors(v, w, act, steps)
  {
    hide Inv, Tied, Place, C.Legal, C.Next, TieOf, C.MarkedWait, CauseOf, Resched, MayCall, Entered, SameAway, Shows;
    hide Left, Foreign, Flags;
    var step := act.step;
    CallIsLegal(v, w, s, step);
    CallPlaced(v, w, s, step, act.extras, act.turns);
    TieParts(v, w.m, s);
    SameCall(v, w, s, step);
    CallParks(s, step);
    EnteredAway(v, w, step);
    var s1, m1 := C.Next(s, step), Entered(v, w, step);
    var pc := C.At(s1, w.m.current);
    if pc.Out? {
      ss, steps := [s, s1], [step];
    } else {
      var c := CauseOf(v, pc, act.extras);
      PlaceKeeps(m1, c);
      ReschedKeeps(m1, c, act.turns);
      var ss1, steps1 := SwitchIsPasses(v, m1, c, act.turns, s1);
      SwitchLeavesAway(m1, c, act.turns);
      ss, steps := [s] + ss1, [step] + steps1;
      Prepended(s, step, ss1, steps1);
    }
    MarkedChain(ss, steps, |steps|);
    CallAway(v, w, s, step, w'.m, ss[|steps|]);
  }

  /** The running thread is not suspended, and a call suspends and resumes nobody. */
  lemma {:induction false} CallAway(v: Names, w: World, s: C.Cv, step: C.Step, m': Machine, s': C.Cv)
    requires Matches(v, w, s) && C.Legal(s, step) && IsCall(step) && step.t == w.m.current
    requires m'.sq == w.m.sq && s'.parked == s.parked && s'.pcs == C.Next(s, step).pcs
    ensures SameAway(m', s')
  {
    hide Sound, Tied, Queued;
    NotSuspended(w.m, {w.m.current}, w.m.current);
    forall t: nat ensures t in s'.parked <==> C.InCall(C.At(s', t)) && Suspended(m', t) {
      if t != step.t { OthersStay(s, step, t); }
      assert t in s.parked <==> C.InCall(C.At(s, t)) && Suspended(w.m, t);
    }
  }

  lemma {:induction false} OthersStay(s: C.Cv, step: C.Step, t: nat)
    requires C.Legal(s, step) && IsCall(step) && t != step.t
    ensures C.At(C.Next(s, step), t) == C.At(s, t)
  {
  }

  lemma {:induction false} CallParks(s: C.Cv, step: C.Step)
    requires IsCall(step)
    ensures C.Next(s, step).parked == s.parked
  {
  }

  lemma {:induction false} EnteredAway(v: Names, w: World, step: C.Step)
    ensures Entered(v, w, step).sq == w.m.sq
  {
  }

  /** A switch for another reason: no step of the protocol, but passes. */
  lemma {:induction false} OtherSwitch(v: Names, w: World, step: Step, w': World, s: C.Cv)
    returns (ss: seq<C.Cv>, steps: seq<C.Step>)
    requires Matches(v, w, s) && Apply(w.m, step) == Running(w'.m) && w'.core == w.core && Inv(w'.m)
    requires Switches(w.m, step) && Spares(step, TieOf(v, s)) && AllShow(v, TurnsOf(step), w.core.mutex.locked)
    ensures Extends(s, ss, steps) && Matches(v, w', ss[|steps|])
    ensures |steps| > 0 && forall i :: 0 <= i < |steps| ==> steps[i].PassStep?
  {
    hide Inv, Tied, Place, TieOf, C.MarkedWait, Resched, Apply, Spares, Switches, Shows, SameAway, Foreign, Listed;
    var x := TieOf(v, s);
    RunnerIsMarked(v, w, s);
    TieNames(v, s);
    var m1, c, turns := SwitchParts(w.m, step, x);
    OtherPlaced(v, m1, c, s);
    SwitchLeavesAway(m1, c, turns);
    ss, steps := SwitchIsPasses(v, m1, c, turns, s);
    MarkedChain(ss, steps, |steps|);
    SameQueueAway(w.m, w'.m, s, ss[|steps|]);
  }

  /** Something else that suspends and resumes nobody inside a wait. */
  lemma {:induction false} OtherRefines(v: Names, w: World, act: Act, w': World, s: C.Cv)
    returns (ss: seq<C.Cv>, steps: seq<C.Step>)
    requires Matches(v, w, s) && act.Other? && May(v, w, act) && Does(v, w, act) == (Running(w'.m), w'.core)
    requires OwnStep(w, act).None?
    ensures Extends(s, ss, steps) && Matches(v, w', ss[|steps|]) && Mirrors(v, w, act, steps)
  {
    hide Inv, Tied, TieOf, C.MarkedWait, Legal, Apply, Harmless, Spares, Switches, AllShow, SameAway, OwnStep;
    var step := act.other;
    StepKeeps(w.m, step);
    HarmlessSpares(v, w, s, step);
    if Switches(w.m, step) {
      SwitchIsNoMove(w.m, step);
      ss, steps := OtherSwitch(v, w, step, w', s);
    } else {
      ss, steps := [s], [];
      OtherAway(v, w, step, w'.m, s);
      if Spares(step, TieOf(v, s)) {
        TieCall(w.m, step, TieOf(v, s));
      } else {
        RefusedMove(w.m, step);
      }
    }
  }

  lemma {:induction false} SwitchIsNoMove(m: Machine, step: Step)
    requires Switches(m, step)
    ensures !step.SuspendStep? && !step.ResumeStep?
  {
  }

  lemma {:induction false} SameQueueAway(m: Machine, m': Machine, s: C.Cv, s': C.Cv)
    requires SameAway(m, s) && m'.sq == m.sq && CoreOf(s') == CoreOf(s) && s'.parked == s.parked
    ensures SameAway(m', s')
  {
    hide Queued;
    forall t: nat ensures t in s'.parked <==> C.InCall(C.At(s', t)) && Suspended(m', t) {
      assert t in s.parked <==> C.InCall(C.At(s, t)) && Suspended(m, t);
    }
  }

  /** Who is suspended inside a wait changes only by a successful suspension or resumption. */
  lemma {:induction false} OtherAway(v: Names, w: World, step: Step, m': Machine, s: C.Cv)
    requires Inv(w.m) && CoreOf(s) == w.core && SameAway(w.m, s)
    requires Legal(w.m, step) && !Switches(w.m, step) && Apply(w.m, step) == Running(m')
    requires Harmless(v, w.core, step) && OwnStep(w, Other(step)).None?
    ensures SameAway(m', s)
  {
    hide Inv, Legal, Apply, Switches, Suspended, Foreign;
    forall t: nat ensures t in s.parked <==> C.InCall(C.At(s, t)) && Suspended(m', t) {
      assert t in s.parked <==> C.InCall(C.At(s, t)) && Suspended(w.m, t);
      CallLeaves(w.m, step, t);
      if C.InCall(C.At(s, t)) && Moves(step, t) {
        RefusedMove(w.m, step);
      }
    }
  }

  /** A suspension or resumption that fails changes nothing. */
  lemma {:induction false} RefusedMove(m: Machine, step: Step)
    requires step.SuspendStep? ==> Suspend(m, step.h).1 != Ok
    requires step.ResumeStep? ==> Resume(m, step.h).1 != Ok
    requires step.SuspendStep? || step.ResumeStep?
    ensures Apply(m, step) == Running(m)
  {
    hide Insert, Delete, Queued;
  }

  /** Suspending a thread inside a wait parks it, and resuming it ends that. */
  lemma {:induction false} MoveRefines(v: Names, w: World, act: Act, w': World, s: C.Cv)
    returns (ss: seq<C.Cv>, steps: seq<C.Step>)
    requires Matches(v, w, s) && act.Other? && May(v, w, act) && Does(v, w, act) == (Running(w'.m), w'.core)
    requires OwnStep(w, act).Some?
    ensures Extends(s, ss, steps) && Matches(v, w', ss[|steps|]) && Mirrors(v, w, act, steps)
  {
    hide Inv, Tied, TieOf, C.MarkedWait, Suspend, Resume, Suspended, C.Next, C.Legal, Harmless, Shows;
    var step, u := OwnStep(w, act).value, act.other.h.id;
    StepKeeps(w.m, act.other);
    RunnerIsMarked(v, w, s);
    assert u in s.parked <==> C.InCall(C.At(s, u)) && Suspended(w.m, u);
    if act.other.SuspendStep? {
      SuspendMoves(w.m, u);
      TieSuspend(w.m, u, TieOf(v, s));
      ParkTie(v, s, step);
    } else {
      ResumeMoves(w.m, u);
      TieResume(w.m, u, TieOf(v, s));
      UnparkTie(v, s, step);
    }
    var s1 := C.Next(s, step);
    MoveAway(w, act.other, w'.m, s, step);
    ss, steps := [s, s1], [step];
    MarkedChain(ss, steps, 1);
  }

  lemma {:induction false} ParkTie(v: Names, s: C.Cv, step: C.Step)
    requires step.ParkStep? && step.t != step.u && step.t !in s.parked
    requires C.InCall(C.At(s, step.u)) && step.u !in s.parked
    ensures C.Legal(s, step) && TieOf(v, C.Next(s, step)) == Parked(TieOf(v, s), step.u)
    ensures CoreOf(C.Next(s, step)) == CoreOf(s)
  {
  }

  lemma {:induction false} UnparkTie(v: Names, s: C.Cv, step: C.Step)
    requires step.UnparkStep? && step.t != step.u && step.t !in s.parked && step.u in s.parked
    ensures C.Legal(s, step) && TieOf(v, C.Next(s, step)) == Unparked(TieOf(v, s), step.u)
    ensures CoreOf(C.Next(s, step)) == CoreOf(s)
  {
  }

  lemma {:induction false} MoveAway(w: World, other: Step, m': Machine, s: C.Cv, step: C.Step)
    requires Inv(w.m) && CoreOf(s) == w.core && SameAway(w.m, s) && C.Legal(s, step)
    requires OwnStep(w, Other(other)) == Some(step) && Legal(w.m, other) && Apply(w.m, other) == Running(m')
    ensures SameAway(m', C.Next(s, step))
  {
    hide Inv, Suspended, Suspend, Resume;
    var s', u := C.Next(s, step), other.h.id;
    forall t: nat ensures t in s'.parked <==> C.InCall(C.At(s', t)) && Suspended(m', t) {
      assert t in s.parked <==> C.InCall(C.At(s, t)) && Suspended(w.m, t);
      if t != u {
        CallLeaves(w.m, other, t);
      } else if other.SuspendStep? {
        SuspendMoves(w.m, u);
      } else {
        ResumeMoves(w.m, u);
      }
    }
  }

  lemma {:induction false} HarmlessSpares(v: Names, w: World, s: C.Cv, step: Step)
    requires CoreOf(s) == w.core && Harmless(v, w.core, step) && OwnStep(w, Other(step)).None?
    ensures
      || Spares(step, TieOf(v, s))
      || (step.SuspendStep? && Suspend(w.m, step.h).1 != Ok)
      || (step.ResumeStep? && Resume(w.m, step.h).1 != Ok)
  {
    hide Foreign, Suspend, Resume;
    assert forall t :: Listed(TieOf(v, s), t) ==> t in s.pcs && C.InCall(s.pcs[t]);
  }

  /** A switch of either kind is one of the running thread, with the queues perhaps reordered before. */
  lemma {:induction false} SwitchParts(m: Machine, step: Step, x: Tie) returns (m1: Machine, c: Cause, turns: seq<Turn>)
    requires Inv(m) && Tied(m, x) && Spares(step, x) && Switches(m, step)
    ensures Inv(m1) && Tied(m1, x) && m1.current == m.current && m1.sq == m.sq
    ensures Apply(m, step) == Resched(m1, c, turns) && turns == TurnsOf(step)
    ensures c.Wait? ==> Foreign(x.v, c.events)
  {
    hide Inv, Tied, Resched, Favour, Foreign;
    if step.SwitchStep? {
      m1, c, turns := m, step.cause, step.turns;
    } else {
      m1, c, turns := Favour(m, step.to).0, Yield, step.turns;
      FavourKeeps(m, step.to);
      FavourTied(m, step.to, x);
    }
  }

  lemma {:induction false} FavourTied(m: Machine, to: nat, x: Tie)
    requires Tied(m, x)
    ensures Tied(Favour(m, to).0, x) && Favour(m, to).0.current == m.current && Favour(m, to).0.sq == m.sq
  {
    hide Queued, Favorite, Foreign;
    TieWaits(m, x);
    TieSame(m, Favour(m, to).0, x);
  }

  lemma {:induction false} OtherPlaced(v: Names, m: Machine, c: Cause, s: C.Cv)
    requires Inv(m) && Tied(m, TieOf(v, s)) && (c.Wait? ==> Foreign(v, c.events))
    requires !Listed(TieOf(v, s), m.current)
    ensures Sound(Place(m, c), {}) && Tied(Place(m, c), TieOf(v, s))
  {
    hide Inv, Tied, Place, TieOf, Foreign;
    PlaceKeeps(m, c);
    TieNames(v, s);
    TieApart(v, s);
    TiePlace(m, c, TieOf(v, s), TieOf(v, s));
  }

  lemma {:induction false} StepRefines(v: Names, w: World, act: Act, w': World, s: C.Cv)
    returns (ss: seq<C.Cv>, steps: seq<C.Step>)
    requires Matches(v, w, s) && May(v, w, act) && Does(v, w, act) == (Running(w'.m), w'.core)
    ensures Extends(s, ss, steps) && Matches(v, w', ss[|steps|]) && Mirrors(v, w, act, steps)
  {
    hide Matches, May, Does, Extends, Mirrors, OwnStep;
    if act.Call? {
      ss, steps := CallRefines(v, w, act, w', s);
    } else if OwnStep(w, act).Some? {
      ss, steps := MoveRefines(v, w, act, w', s);
    } else {
      ss, steps := OtherRefines(v, w, act, w', s);
    }
  }

  // ---------------------------------------------------------------------------------------
  // Whole runs

  ghost predicate IsRunOf(v: Names, ws: seq<World>, acts: seq<Act>) {
    && |ws| == |acts| + 1
    && forall i :: 0 <= i < |acts| ==>
         May(v, ws[i], acts[i]) && Does(v, ws[i], acts[i]) == (Running(ws[i + 1].m), ws[i + 1].core)
  }

  /** Both objects are as they were initialized, and nobody uses them yet. */
  ghost predicate Starts(v: Names, w: World) {
    && Inv(w.m) && w.core == CoreOf(C.Init()) && Flags(w.m.conds, v.cond) == CLEAR
    && forall t: nat {:trigger Look(w.m, t)} ::
         Look(w.m, t).state == Waiting ==> Foreign(v, Look(w.m, t).events)
  }

  lemma {:induction false} StartMatches(v: Names, w: World)
    requires Starts(v, w)
    ensures Matches(v, w, C.Init())
  {
    hide Inv;
    var x := TieOf(v, C.Init());
    assert x.sleepers == {} && x.lockers == {};
    forall t: nat | Look(w.m, t).state == Waiting ensures Foreign(x.v, Look(w.m, t).events) {
      assert Foreign(v, Look(w.m, t).events);
    }
  }

  lemma {:induction false} Joined(a: seq<C.Cv>, p: seq<C.Step>, b: seq<C.Cv>, q: seq<C.Step>)
    requires Extends(C.Init(), a, p) && Extends(a[|p|], b, q)
    ensures Extends(C.Init(), a + b[1..], p + q) && (a + b[1..])[|p + q|] == b[|q|]
  {
    hide C.Legal, C.Next;
    var ss, steps := a + b[1..], p + q;
    assert forall i :: |p| <= i < |ss| ==> ss[i] == b[i - |p|];
    forall i | 0 <= i < |steps| ensures C.Leads(ss[i], steps[i], ss[i + 1]) {
      if i < |p| {
        assert C.Leads(a[i], p[i], a[i + 1]);
      } else {
        assert C.Leads(b[i - |p|], q[i - |p|], b[i - |p| + 1]);
      }
    }
  }

  /** The protocol run (ss, steps) follows the first k acts of the scheduler run: at[i] is where it is
      when act i begins. */
  ghost predicate Follows(v: Names, ws: seq<World>, acts: seq<Act>, k: nat,
                          ss: seq<C.Cv>, steps: seq<C.Step>, at: seq<nat>)
    requires k <= |acts| && |ws| == |acts| + 1
  {
    && |ss| == |steps| + 1 && |at| == k + 1 && at[0] == 0 && at[k] == |steps|
    && (forall i :: 0 <= i <= k ==> at[i] <= |steps| && Matches(v, ws[i], ss[at[i]]))
    && (forall i :: 0 <= i < k ==> at[i] <= at[i + 1] && Mirrors(v, ws[i], acts[i], steps[at[i]..at[i + 1]]))
  }

  lemma {:induction false} FollowsOn(v: Names, ws: seq<World>, acts: seq<Act>, k: nat,
                                     a: seq<C.Cv>, p: seq<C.Step>, at: seq<nat>, b: seq<C.Cv>, q: seq<C.Step>)
    requires k < |acts| && |ws| == |acts| + 1 && Follows(v, ws, acts, k, a, p, at)
    requires |b| == |q| + 1 && b[0] == a[|p|] && Matches(v, ws[k + 1], b[|q|]) && Mirrors(v, ws[k], acts[k], q)
    ensures Follows(v, ws, acts, k + 1, a + b[1..], p + q, at + [|p + q|])
  {
    hide Matches, Mirrors;
    var ss, steps, at' := a + b[1..], p + q, at + [|p + q|];
    assert ss[|steps|] == b[|q|];
    forall i | 0 <= i <= k + 1 ensures at'[i] <= |steps| && Matches(v, ws[i], ss[at'[i]]) {
      if i <= k { assert Matches(v, ws[i], a[at[i]]); }
    }
    forall i | 0 <= i < k + 1
      ensures at'[i] <= at'[i + 1] && Mirrors(v, ws[i], acts[i], steps[at'[i]..at'[i + 1]])
    {
      if i < k {
        assert steps[at'[i]..at'[i + 1]] == p[at[i]..at[i + 1]];
      } else {
        assert steps[at'[i]..at'[i + 1]] == q;
      }
    }
  }

  lemma {:induction false} RunRefines(v: Names, ws: seq<World>, acts: seq<Act>, k: nat)
    returns (ss: seq<C.Cv>, steps: seq<C.Step>, at: seq<nat>)
    requires IsRunOf(v, ws, acts) && Starts(v, ws[0]) && k <= |acts|
    ensures Extends(C.Init(), ss, steps) && Follows(v, ws, acts, k, ss, steps, at)
  {
    hide Matches, May, Does, Starts, C.Legal, C.Next, Mirrors;
    if k == 0 {
      StartMatches(v, ws[0]);
      ss, steps, at := [C.Init()], [], [0];
    } else {
      var a, p, at0 := RunRefines(v, ws, acts, k - 1);
      assert May(v, ws[k - 1], acts[k - 1]) && Does(v, ws[k - 1], acts[k - 1]) == (Running(ws[k].m), ws[k].core);
      assert Matches(v, ws[k - 1], a[at0[k - 1]]);
      var b, q := StepRefines(v, ws[k - 1], acts[k - 1], ws[k], a[|p|]);
      Joined(a, p, b, q);
      FollowsOn(v, ws, acts, k - 1, a, p, at0, b, q);
      ss, steps, at := a + b[1..], p + q, at0 + [|p + q|];
    }
  }

  /** Every run of the scheduler is a run of the protocol, act by act: each call is its step of the
      protocol, each suspension and resumption of a thread inside a wait too, and every entry into the
      scheduler is a row of passes.  Whenever a thread runs, the two agree on the fields of the objects
      and on where every thread is, and the queues hold exactly those whom the protocol says. */
  lemma {:induction false} EveryRunIsProtocol(v: Names, ws: seq<World>, acts: seq<Act>)
    returns (ss: seq<C.Cv>, steps: seq<C.Step>, at: seq<nat>)
    requires IsRunOf(v, ws, acts) && Starts(v, ws[0])
    ensures C.IsRun(ss, steps) && C.PassesFollow(ss, steps) && Follows(v, ws, acts, |acts|, ss, steps, at)
  {
    hide Follows, May, Does, Starts;
    ss, steps, at := RunRefines(v, ws, acts, |acts|);
    assert C.IsRun(ss, steps) by {
      hide C.Legal, C.Next;
      forall i | 0 <= i < |steps| ensures C.Legal(ss[i], steps[i]) && ss[i + 1] == C.Next(ss[i], steps[i]) {
        assert C.Leads(ss[i], steps[i], ss[i + 1]);
      }
    }
  }

  /** A library that has just started will do. */
  lemma {:induction false} BootStarts(v: Names, main: nat, a: Attr, pipe: nat)
    ensures Boot(main, a, pipe).Running? && Starts(v, World(Boot(main, a, pipe).machine, CoreOf(C.Init())))
  {
    hide Inv, Boot;
    BootInv(main, a, pipe);
    NobodyWaits(main, a, pipe);
  }

  lemma {:induction false} NobodyWaits(main: nat, a: Attr, pipe: nat)
    requires Boot(main, a, pipe).Running?
    ensures var m := Boot(main, a, pipe).machine;
      m.conds == map[] && forall t: nat {:trigger Look(m, t)} :: Look(m, t).state != Waiting
  {
    hide Drain, Insert;
    var m := Machine(map[main := Tcb(a.prio, New, a.joinable, false, a.cancelEnable, a.cancelAsync, {}, [])],
                     [Entry(main, a.prio)], [], [], [], [], main, true, map[], pipe, 1, 0);
    var m' := Boot(main, a, pipe).machine;
    DrainLeaves(m, main);
    assert m' == Dispatch(Drain(m)).machine;
    forall t: nat ensures Look(m', t).state != Waiting {
      DrainLeaves(m, t);
      assert Look(m', t) == Look(Drain(m), t);
    }
  }

  /** A wait that begins on the scheduler is ended by a notification from before it began exactly when
      the last notification that did anything found nobody in the waiting queue for the condition, no
      pass since has found anybody there, and no wait has begun since; that is also when the wait finds
      the condition signaled. */
  lemma {:induction false} StaleOnScheduler(v: Names, ws: seq<World>, acts: seq<Act>)
    returns (ss: seq<C.Cv>, steps: seq<C.Step>, at: seq<nat>)
    requires IsRunOf(v, ws, acts) && Starts(v, ws[0])
    ensures C.IsRun(ss, steps) && C.PassesFollow(ss, steps) && Follows(v, ws, acts, |acts|, ss, steps, at)
    ensures forall i :: 0 <= i < |acts| && acts[i].Call? && acts[i].step.AwaitStep? ==>
      && at[i] < |steps| && steps[at[i]] == acts[i].step
      && (C.EndedByOld(ss, steps, at[i]) <==> C.Stale(ss, steps, at[i]))
      && (Flags(ws[i].m.conds, v.cond).signaled <==> C.Stale(ss, steps, at[i]))
  {
    hide May, Does, Starts, C.PassesFollow, C.Stale, C.EndedByOld, C.Legal, C.Next, Matches, Mirrors;
    ss, steps, at := EveryRunIsProtocol(v, ws, acts);
    forall i | 0 <= i < |acts| && acts[i].Call? && acts[i].step.AwaitStep?
      ensures at[i] < |steps| && steps[at[i]] == acts[i].step
      ensures C.EndedByOld(ss, steps, at[i]) <==> C.Stale(ss, steps, at[i])
      ensures Flags(ws[i].m.conds, v.cond).signaled <==> C.Stale(ss, steps, at[i])
    {
      CallIsFirst(v, ws[i], acts[i], steps[at[i]..at[i + 1]]);
      MatchingFlags(v, ws[i], ss[at[i]]);
      C.StaleExactly(ss, steps, at[i]);
    }
  }

  lemma {:induction false} CallIsFirst(v: Names, w: World, act: Act, steps: seq<C.Step>)
    requires act.Call? && Mirrors(v, w, act, steps)
    ensures |steps| > 0 && steps[0] == act.step
  {
  }

  lemma {:induction false} MatchingFlags(v: Names, w: World, s: C.Cv)
    requires Matches(v, w, s)
    ensures Flags(w.m.conds, v.cond) == s.cond
  {
    TieParts(v, w.m, s);
  }
}
