/** Barriers: the interleavings of any number of threads that keep reaching one barrier, with its
    one-bit cycle flag, its mutex and its condition variable as they are in the library.  The
    fields `gen`, `arrivals` and `log` only record history: the generations completed, the arrivals
    counted and the calls that returned. */
module Barriers {
  import opened EventManager
  import opened Mutexes
  import opened Counting
  import opened Marking

  /** Where a thread is: outside, waiting for the mutex on the way in, yielding after a broadcast
      with the mutex in its hands, waiting for the condition, or waiting for the mutex after it.
      g is the generation in which it arrived, bit its copy of the cycle flag. */
  datatype Pc =
    | Out
    | Entering
    | Yielding(g: nat)
    | Sleeping(g: nat, bit: bool)
    | Returning(g: nat, bit: bool)

  datatype Light = Head | Plain | Tail

  datatype Exit = Exit(t: nat, g: nat, light: Light)

  datatype Barrier = Barrier(
    threshold: nat, count: int, cycle: bool, mutex: Mutex, cond: CondFlags, waiters: int,
    pcs: map<nat, Pc>, marked: set<nat>,
    gen: nat, arrivals: nat, log: seq<Exit>)

  datatype Step = ReachStep(t: nat) | WakeStep(t: nat) | ResumeStep(t: nat) | PassStep(who: nat)

  function At(s: Barrier, t: nat): Pc {
    if t in s.pcs then s.pcs[t] else Out
  }

  function Init(threshold: nat): Barrier {
    Barrier(threshold, threshold, false, FREE, CLEAR, 0, map[], {}, 0, 0, [])
  }

  // ---------------------------------------------------------------------------------------
  // The pieces of pth_barrier_reach between two switches to the scheduler

  /** Gives the mutex back and returns. */
  function Finish(s: Barrier, t: nat, g: nat, light: Light): Barrier {
    s.(mutex := Mutexes.Leave(s.mutex, t), pcs := s.pcs[t := Out], log := s.log + [Exit(t, g, light)])
  }

  /** Waits for the condition.  A signal that was no broadcast would be used up on the spot. */
  function Await(s: Barrier, t: nat, g: nat, bit: bool): Barrier {
    var c := if s.cond.signaled && !s.cond.broadcast then CLEAR else s.cond;
    s.(cond := c, waiters := s.waiters + 1, mutex := Mutexes.Leave(s.mutex, t), pcs := s.pcs[t := Sleeping(g, bit)])
  }

  /** The arrival proper, once the mutex is held. */
  function Arrive(s: Barrier, t: nat): Barrier {
    var s1 := s.(count := s.count - 1, arrivals := s.arrivals + 1);
    if s1.count == 0 then
      var s2 := s1.(cycle := !s.cycle, count := s.threshold, gen := s.gen + 1);
      if s.waiters > 0 then s2.(cond := CondFlags(true, true, false), pcs := s.pcs[t := Yielding(s.gen)])
      else Finish(s2, t, s.gen, Tail)
    else Await(s1, t, s.gen, s.cycle)
  }

  /** Back from the condition with the mutex held: the loop looks at the cycle flag again. */
  function Recheck(s: Barrier, t: nat, g: nat, bit: bool): Barrier {
    var s1 := s.(waiters := s.waiters - 1);
    if bit == s.cycle then Await(s1, t, g, bit) else Finish(s1, t, g, Plain)
  }

  function Reach(s: Barrier, t: nat): Barrier {
    match Mutexes.Enter(s.mutex, t)
    case Some(mx) => Arrive(s.(mutex := mx), t)
    case None => s.(pcs := s.pcs[t := Entering])
  }

  function Wake(s: Barrier, t: nat): Barrier {
    var s1 := s.(marked := s.marked - {t});
    match At(s, t)
    case Entering =>
      if s.mutex.locked then s1 else Arrive(s1.(mutex := Mutexes.Enter(s.mutex, t).value), t)
    case Sleeping(g, bit) =>
      (match Mutexes.Enter(s.mutex, t)
       case Some(mx) => Recheck(s1.(mutex := mx), t, g, bit)
       case None => s1.(pcs := s.pcs[t := Returning(g, bit)]))
    case Returning(g, bit) =>
      if s.mutex.locked then s1 else Recheck(s1.(mutex := Mutexes.Enter(s.mutex, t).value), t, g, bit)
    case _ => s1
  }

  /** The threads in the waiting queue for the condition; a marked one has left it. */
  function Sleepers(s: Barrier): set<nat> {
    set t | t in s.pcs && s.pcs[t].Sleeping? && t !in s.marked
  }

  /** The threads that wait for the mutex. */
  function Lockers(s: Barrier): set<nat> {
    set t | t in s.pcs && (s.pcs[t].Entering? || s.pcs[t].Returning?)
  }

  function Pass(s: Barrier, who: nat): Barrier {
    s.(marked := s.marked + (if s.mutex.locked then {} else Lockers(s)) + Chosen(s.cond, Sleepers(s), who),
       cond := FlagsAfter(s.cond, Sleepers(s), who))
  }

  predicate Legal(s: Barrier, step: Step) {
    match step
    case ReachStep(t) => At(s, t).Out?
    case WakeStep(t) => t in s.marked && (At(s, t).Entering? || At(s, t).Sleeping? || At(s, t).Returning?)
    case ResumeStep(t) => At(s, t).Yielding?
    case PassStep(who) => who in Sleepers(s) || Sleepers(s) == {}
  }

  function Next(s: Barrier, step: Step): Barrier {
    match step
    case ReachStep(t) => Reach(s, t)
    case WakeStep(t) => Wake(s, t)
    case ResumeStep(t) => if At(s, t).Yielding? then Finish(s, t, At(s, t).g, Tail) else s
    case PassStep(who) => Pass(s, who)
  }

  // ---------------------------------------------------------------------------------------
  // Counting threads

  function InGen(g: nat): Pc -> bool {
    (pc: Pc) => (pc.Yielding? || pc.Sleeping? || pc.Returning?) && pc.g == g
  }

  function InCond(): Pc -> bool {
    (pc: Pc) => pc.Sleeping? || pc.Returning?
  }

  function InYield(g: nat): Pc -> bool {
    (pc: Pc) => pc == Yielding(g)
  }

  /** How many calls of generation g have returned, and how many of them as the tail light. */
  function Left(log: seq<Exit>, g: nat): nat {
    if log == [] then 0 else Left(log[..|log| - 1], g) + if log[|log| - 1].g == g then 1 else 0
  }

  function Tails(log: seq<Exit>, g: nat): nat {
    if log == [] then 0
    else Tails(log[..|log| - 1], g) + if log[|log| - 1].g == g && log[|log| - 1].light == Tail then 1 else 0
  }

  lemma {:induction false} LogAppend(log: seq<Exit>, e: Exit, g: nat)
    ensures Left(log + [e], g) == Left(log, g) + if e.g == g then 1 else 0
    ensures Tails(log + [e], g) == Tails(log, g) + if e.g == g && e.light == Tail then 1 else 0
  {
    assert (log + [e])[..|log|] == log;
  }

  // ---------------------------------------------------------------------------------------
  // What every state has in common

  predicate Odd(g: nat) { g % 2 == 1 }

  /** How many threads have arrived in generation g. */
  function Arrived(s: Barrier, g: nat): int {
    if g < s.gen then s.threshold else if g == s.gen then s.threshold - s.count else 0
  }

  ghost predicate Counters(s: Barrier) {
    && 1 <= s.count <= s.threshold
    && s.cycle == Odd(s.gen)
    && s.arrivals == s.gen * s.threshold + (s.threshold - s.count)
    && s.waiters == Many(s.pcs, InCond())
    && (s.cond.signaled ==> s.cond.broadcast)
  }

  /** Each arrival of each generation is still inside or has returned, once, and the tail light of
      each completed generation goes to one thread. */
  ghost predicate Accounted(s: Barrier) {
    && (forall g: nat :: Many(s.pcs, InGen(g)) + Left(s.log, g) == Arrived(s, g))
    && (forall g: nat :: Many(s.pcs, InYield(g)) + Tails(s.log, g) == if g < s.gen then 1 else 0)
    && (forall i :: 0 <= i < |s.log| ==> s.log[i].g < s.gen && s.log[i].light != Head)
  }

  ghost predicate PcOk(s: Barrier, pc: Pc) {
    && (pc.Sleeping? || pc.Returning? ==> pc.bit == Odd(pc.g) && pc.g <= s.gen)
    && (pc.Yielding? ==> pc.g + 1 == s.gen)
  }

  /** Between steps only a yielding thread holds the mutex, once. */
  ghost predicate Places(s: Barrier) {
    && (forall t :: t in s.pcs ==> PcOk(s, s.pcs[t]))
    && (forall t :: t in s.pcs && s.pcs[t].Yielding? ==> s.mutex == Locked(t))
    && (s.mutex == FREE || exists t :: s.mutex == Locked(t) && t in s.pcs && s.pcs[t].Yielding?)
  }

  ghost predicate Inv(s: Barrier) {
    Counters(s) && Accounted(s) && Places(s)
  }

  lemma {:induction false} Moves(s: Barrier, t: nat, pc: Pc)
    ensures forall g: nat ::
              Many(s.pcs[t := pc], InGen(g)) ==
                Many(s.pcs, InGen(g)) - (if InGen(g)(At(s, t)) then 1 else 0) + (if InGen(g)(pc) then 1 else 0)
    ensures forall g: nat ::
              Many(s.pcs[t := pc], InYield(g)) ==
                Many(s.pcs, InYield(g)) - (if At(s, t) == Yielding(g) then 1 else 0) +
                  (if pc == Yielding(g) then 1 else 0)
    ensures Many(s.pcs[t := pc], InCond()) ==
      Many(s.pcs, InCond()) - (if InCond()(At(s, t)) then 1 else 0) + (if InCond()(pc) then 1 else 0)
  {
    hide Many;
    forall g: nat { ManyUpdate(s.pcs, t, pc, InGen(g)); }
    forall g: nat { ManyUpdate(s.pcs, t, pc, InYield(g)); }
    ManyUpdate(s.pcs, t, pc, InCond());
  }

  lemma {:induction false} Logs(log: seq<Exit>, e: Exit)
    ensures forall g: nat :: Left(log + [e], g) == Left(log, g) + if e.g == g then 1 else 0
    ensures forall g: nat :: Tails(log + [e], g) == Tails(log, g) + if e.g == g && e.light == Tail then 1 else 0
  {
    forall g: nat { LogAppend(log, e, g); }
  }

  // ---------------------------------------------------------------------------------------
  // Every step keeps it

  /** With the mutex free nobody is yielding. */
  lemma {:induction false} FreeMutex(s: Barrier, t: nat)
    requires Inv(s) && !s.mutex.locked
    ensures s.mutex == FREE && Mutexes.Enter(s.mutex, t) == Some(Locked(t)) && Mutexes.Leave(Locked(t), t) == FREE
    ensures forall u :: u in s.pcs ==> !s.pcs[u].Yielding?
  {
  }

  lemma {:induction false} EnterFree(s: Barrier, t: nat)
    requires Inv(s) && !At(s, t).Yielding?
    ensures Mutexes.Enter(s.mutex, t).Some? <==> s.mutex == FREE
    ensures s.mutex == FREE || s.mutex.locked
  {
  }

  lemma {:induction false} ArriveSleeps(s: Barrier, t: nat)
    requires Inv(s) && s.mutex == FREE && (At(s, t).Out? || At(s, t).Entering?) && s.count > 1
    ensures Inv(Arrive(s.(mutex := Locked(t)), t))
  {
    hide Many, Left, Tails, InGen;
    FreeMutex(s, t);
    Moves(s, t, Sleeping(s.gen, s.cycle));
    AsleepIn(s.gen, s.cycle);
    OutsideIn(At(s, t));
  }

  lemma {:induction false} ArriveYields(s: Barrier, t: nat)
    requires Inv(s) && s.mutex == FREE && (At(s, t).Out? || At(s, t).Entering?) && s.count == 1 && s.waiters > 0
    ensures Inv(Arrive(s.(mutex := Locked(t)), t))
  {
    hide Many, Left, Tails, InGen;
    FreeMutex(s, t);
    Moves(s, t, Yielding(s.gen));
    YieldingIn(s.gen);
    OutsideIn(At(s, t));
    NextGeneration(s.gen, s.threshold);
  }

  lemma {:induction false} ArriveReturns(s: Barrier, t: nat)
    requires Inv(s) && s.mutex == FREE && (At(s, t).Out? || At(s, t).Entering?) && s.count == 1 && s.waiters <= 0
    ensures Inv(Arrive(s.(mutex := Locked(t)), t))
  {
    hide Many, Left, Tails, InGen;
    FreeMutex(s, t);
    Moves(s, t, Out);
    Logs(s.log, Exit(t, s.gen, Tail));
    OutsideIn(At(s, t));
    OutsideIn(Out);
    NextGeneration(s.gen, s.threshold);
  }

  lemma {:induction false} ArriveKeeps(s: Barrier, t: nat)
    requires Inv(s) && s.mutex == FREE && (At(s, t).Out? || At(s, t).Entering?)
    ensures Inv(Arrive(s.(mutex := Locked(t)), t))
  {
    hide Accounted, Places, Arrive;
    if s.count > 1 {
      ArriveSleeps(s, t);
    } else if s.waiters > 0 {
      ArriveYields(s, t);
    } else {
      ArriveReturns(s, t);
    }
  }

  lemma {:induction false} RecheckSleeps(s: Barrier, t: nat, g: nat, bit: bool)
    requires Inv(s) && s.mutex == FREE && (At(s, t) == Sleeping(g, bit) || At(s, t) == Returning(g, bit))
    requires bit == s.cycle
    ensures Inv(Recheck(s.(mutex := Locked(t)), t, g, bit))
  {
    hide Many, Left, Tails, InGen;
    FreeMutex(s, t);
    assert PcOk(s, s.pcs[t]);
    AsleepIn(g, bit);
    Moves(s, t, Sleeping(g, bit));
  }

  lemma {:induction false} RecheckReturns(s: Barrier, t: nat, g: nat, bit: bool)
    requires Inv(s) && s.mutex == FREE && (At(s, t) == Sleeping(g, bit) || At(s, t) == Returning(g, bit))
    requires bit != s.cycle
    ensures Inv(Recheck(s.(mutex := Locked(t)), t, g, bit))
  {
    hide Many, Left, Tails, InGen;
    FreeMutex(s, t);
    assert PcOk(s, s.pcs[t]);
    AsleepIn(g, bit);
    Moves(s, t, Out);
    OutsideIn(Out);
    Logs(s.log, Exit(t, g, Plain));
  }

  lemma {:induction false} RecheckKeeps(s: Barrier, t: nat)
    requires Inv(s) && s.mutex == FREE && (At(s, t).Sleeping? || At(s, t).Returning?)
    ensures Inv(Recheck(s.(mutex := Locked(t)), t, At(s, t).g, At(s, t).bit))
  {
    hide Inv, Recheck;
    if At(s, t).bit == s.cycle {
      RecheckSleeps(s, t, At(s, t).g, At(s, t).bit);
    } else {
      RecheckReturns(s, t, At(s, t).g, At(s, t).bit);
    }
  }

  lemma {:induction false} ResumeKeeps(s: Barrier, t: nat)
    requires Inv(s) && At(s, t).Yielding?
    ensures Inv(Finish(s, t, At(s, t).g, Tail))
  {
    hide Many, Left, Tails, InGen;
    var g := At(s, t).g;
    assert s.mutex == Locked(t) && PcOk(s, s.pcs[t]);
    Moves(s, t, Out);
    YieldingIn(g);
    OutsideIn(Out);
    Logs(s.log, Exit(t, g, Tail));
  }

  /** A thread that has to wait for the mutex moves on without changing a count. */
  lemma {:induction false} BlockKeeps(s: Barrier, t: nat)
    requires Inv(s)
    ensures At(s, t).Out? ==> Inv(s.(pcs := s.pcs[t := Entering]))
    ensures At(s, t).Sleeping? ==> Inv(s.(pcs := s.pcs[t := Returning(At(s, t).g, At(s, t).bit)]))
  {
    hide Many, Left, Tails, InGen;
    if At(s, t).Out? {
      Moves(s, t, Entering);
      OutsideIn(Out);
      OutsideIn(Entering);
    } else if At(s, t).Sleeping? {
      Moves(s, t, Returning(At(s, t).g, At(s, t).bit));
      AsleepIn(At(s, t).g, At(s, t).bit);
    }
  }

  /** Marks are not part of the invariant. */
  lemma {:induction false} MarksDoNotMatter(s: Barrier, marked: set<nat>)
    requires Inv(s)
    ensures Inv(s.(marked := marked)) && Inv(s.(marked := marked, cond := CLEAR))
  {
    hide Many, Left, Tails;
  }

  lemma {:induction false} StepKeeps(s: Barrier, step: Step)
    requires Inv(s) && Legal(s, step)
    ensures Inv(Next(s, step))
  {
    hide Inv, Arrive, Recheck, Finish;
    match step {
      case ReachStep(t) =>
        EnterFree(s, t);
        if s.mutex == FREE { ArriveKeeps(s, t); } else { BlockKeeps(s, t); }
      case WakeStep(t) =>
        var s1 := s.(marked := s.marked - {t});
        MarksDoNotMatter(s, s.marked - {t});
        EnterFree(s1, t);
        if s.mutex == FREE {
          if At(s, t).Entering? { ArriveKeeps(s1, t); } else { RecheckKeeps(s1, t); }
        } else {
          BlockKeeps(s1, t);
        }
      case ResumeStep(t) =>
        ResumeKeeps(s, t);
      case PassStep(who) =>
        MarksDoNotMatter(s, Pass(s, who).marked);
    }
  }

  // ---------------------------------------------------------------------------------------
  // What every step does

  /** An arrival that is counted: the last one of a generation completes it, wakes those who wait, if
      there are any, and is the tail light; any other waits for the generation in which it arrived. */
  ghost predicate Counted(s: Barrier, s': Barrier, t: nat) {
    && s'.arrivals == s.arrivals + 1 && s'.threshold == s.threshold
    && (forall u: nat :: u != t ==> At(s', u) == At(s, u))
    && (s.count > 1 ==>
          && s'.gen == s.gen && s'.cycle == s.cycle && s'.count == s.count - 1 && s'.log == s.log
          && At(s', t) == Sleeping(s.gen, s.cycle) && s'.waiters == s.waiters + 1 && s'.mutex == FREE)
    && (s.count == 1 ==>
          && s'.gen == s.gen + 1 && s'.cycle == !s.cycle && s'.count == s.threshold && s'.waiters == s.waiters
          && (if exists u :: u in s.pcs && (s.pcs[u].Sleeping? || s.pcs[u].Returning?) then
                && At(s', t) == Yielding(s.gen) && s'.mutex == Locked(t) && s'.log == s.log
                && s'.cond == CondFlags(true, true, false)
              else At(s', t).Out? && s'.mutex == FREE && s'.log == s.log + [Exit(t, s.gen, Tail)]))
  }

  lemma {:induction false} WaitersAre(s: Barrier)
    requires Inv(s)
    ensures s.waiters > 0 <==> exists u :: u in s.pcs && (s.pcs[u].Sleeping? || s.pcs[u].Returning?)
  {
    hide Many, Accounted, Places;
    Somebody(s.pcs, InCond());
    if u :| u in s.pcs && (s.pcs[u].Sleeping? || s.pcs[u].Returning?) {
      assert InCond()(s.pcs[u]);
    }
  }

  /** A thread that reaches the barrier is counted, unless another holds the mutex: then it waits for
      that and is not counted yet. */
  lemma {:induction false} ReachExactly(s: Barrier, t: nat)
    requires Inv(s) && At(s, t).Out?
    ensures var s' := Reach(s, t);
      if s.mutex == FREE then Counted(s, s', t) else s' == s.(pcs := s.pcs[t := Entering])
  {
    hide Many, Accounted, Counters;
    EnterFree(s, t);
    WaitersAre(s);
    if s.mutex == FREE { FreeMutex(s, t); }
  }

  /** A woken thread gets no further while another holds the mutex.  Otherwise one on its way in is
      counted, one whose bit shows that the cycle has changed returns, and any other goes on waiting. */
  lemma {:induction false} WakeExactly(s: Barrier, t: nat)
    requires Inv(s) && Legal(s, Step.WakeStep(t))
    ensures var s', pc := Wake(s, t), At(s, t);
      && s'.marked == s.marked - {t}
      && (s.mutex != FREE ==>
            s' == s.(marked := s'.marked, pcs := s'.pcs) && (forall u: nat :: u != t ==> At(s', u) == At(s, u)) &&
            At(s', t) == if pc.Sleeping? then Returning(pc.g, pc.bit) else pc)
      && (s.mutex == FREE && pc.Entering? ==> Counted(s, s', t))
      && (s.mutex == FREE && !pc.Entering? ==>
            && s'.mutex == FREE && s'.gen == s.gen && s'.count == s.count && s'.arrivals == s.arrivals
            && (forall u: nat :: u != t ==> At(s', u) == At(s, u))
            && (if pc.bit != s.cycle then
                  At(s', t).Out? && s'.log == s.log + [Exit(t, pc.g, Plain)] && s'.waiters == s.waiters - 1
                else At(s', t) == Sleeping(pc.g, pc.bit) && s'.log == s.log && s'.waiters == s.waiters))
  {
    hide Many, Accounted, Counters;
    EnterFree(s, t);
    WaitersAre(s);
    if s.mutex == FREE { FreeMutex(s, t); }
  }

  /** The tail light gives the mutex back and returns. */
  lemma {:induction false} ResumeExactly(s: Barrier, t: nat)
    requires Inv(s) && At(s, t).Yielding?
    ensures var s' := Next(s, ResumeStep(t));
      && At(s', t).Out? && s'.mutex == FREE && s'.log == s.log + [Exit(t, At(s, t).g, Tail)]
      && s' == s.(mutex := s'.mutex, pcs := s'.pcs, log := s'.log)
      && forall u: nat :: u != t ==> At(s', u) == At(s, u)
  {
    hide Many, Accounted, Counters;
  }

  /** A pass marks all who sleep after a broadcast, and clears it, and all who wait for a free mutex. */
  lemma {:induction false} PassExactly(s: Barrier, who: nat)
    requires Inv(s) && Legal(s, Step.PassStep(who))
    ensures var s' := Pass(s, who);
      && s' == s.(marked := s'.marked, cond := s'.cond)
      && (forall t: nat :: t in s'.marked <==>
            || t in s.marked || (At(s, t).Sleeping? && s.cond.signaled)
            || ((At(s, t).Entering? || At(s, t).Returning?) && s.mutex == FREE))
      && s'.cond == if s.cond.signaled && Sleepers(s) != {} then CLEAR else s.cond
  {
    hide Many, Accounted;
  }

  lemma {:induction false} NextGeneration(g: nat, n: nat)
    ensures (g + 1) * n == g * n + n
    ensures Odd(g + 1) == !Odd(g)
  {
  }

  lemma {:induction false} AsleepIn(g: nat, bit: bool)
    ensures forall h: nat :: InGen(h)(Sleeping(g, bit)) <==> h == g
    ensures forall h: nat :: InGen(h)(Returning(g, bit)) <==> h == g
  {
  }

  lemma {:induction false} YieldingIn(g: nat)
    ensures forall h: nat :: InGen(h)(Yielding(g)) <==> h == g
  {
  }

  lemma {:induction false} OutsideIn(pc: Pc)
    requires pc.Out? || pc.Entering?
    ensures forall h: nat :: !InGen(h)(pc)
  {
  }

  lemma {:induction false} InitInv(threshold: nat)
    requires threshold > 0
    ensures Inv(Init(threshold))
  {
    forall g: nat ensures Many(Init(threshold).pcs, InGen(g)) == 0 && Many(Init(threshold).pcs, InYield(g)) == 0 {
      assert Those(Init(threshold).pcs, InGen(g)) == {} && Those(Init(threshold).pcs, InYield(g)) == {};
    }
    assert Those(Init(threshold).pcs, InCond()) == {};
  }

  // ---------------------------------------------------------------------------------------
  // Whole runs

  ghost predicate IsRun(ss: seq<Barrier>, steps: seq<Step>) {
    && |ss| == |steps| + 1
    && forall i :: 0 <= i < |steps| ==> Legal(ss[i], steps[i]) && ss[i + 1] == Next(ss[i], steps[i])
  }

  lemma {:induction false} RunKeeps(ss: seq<Barrier>, steps: seq<Step>, k: nat)
    requires IsRun(ss, steps) && Inv(ss[0]) && k <= |steps|
    ensures Inv(ss[k])
  {
    hide Inv;
    if k > 0 {
      RunKeeps(ss, steps, k - 1);
      StepKeeps(ss[k - 1], steps[k - 1]);
    }
  }

  /** For any number of threads and every interleaving: a call returns only when all `threshold`
      arrivals of its own generation are there, each generation has at most `threshold` arrivals,
      of whom each leaves at most once, exactly one call per completed generation is the tail
      light, and the head light is never returned. */
  lemma {:induction false} BarrierSafety(n: nat, ss: seq<Barrier>, steps: seq<Step>, k: nat, i: nat)
    requires n > 0 && IsRun(ss, steps) && ss[0] == Init(n) && k <= |steps| && i < |ss[k].log|
    ensures var s, e := ss[k], ss[k].log[i];
      && e.g < s.gen && e.light != Head
      && Many(s.pcs, InGen(e.g)) + Left(s.log, e.g) == n
      && Tails(s.log, e.g) + Many(s.pcs, InYield(e.g)) == 1
  {
    hide Many, Left, Tails, Places, Counters;
    InitInv(n);
    RunKeeps(ss, steps, k);
    ThresholdStays(ss, steps, k);
  }

  lemma {:induction false} ThresholdStays(ss: seq<Barrier>, steps: seq<Step>, k: nat)
    requires IsRun(ss, steps) && k <= |steps|
    ensures ss[k].threshold == ss[0].threshold
  {
    if k > 0 {
      ThresholdStays(ss, steps, k - 1);
      assert ss[k] == Next(ss[k - 1], steps[k - 1]);
    }
  }

  /** Arrivals are conserved: whole generations plus those of the current one. */
  lemma {:induction false} ArrivalsConserved(n: nat, ss: seq<Barrier>, steps: seq<Step>, k: nat)
    requires n > 0 && IsRun(ss, steps) && ss[0] == Init(n) && k <= |steps|
    ensures ss[k].arrivals == ss[k].gen * n + (n - ss[k].count) && 1 <= ss[k].count <= n
  {
    hide Many, Accounted, Places;
    InitInv(n);
    RunKeeps(ss, steps, k);
    ThresholdStays(ss, steps, k);
  }
}
