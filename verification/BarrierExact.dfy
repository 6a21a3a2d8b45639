/** When the one-bit cycle flag of a barrier is enough: a thread whose generation is complete never
    goes back to waiting, whatever the interleaving, exactly when no more threads take part than
    the threshold asks for (or the threshold is 1, so that nobody waits at all). */
module BarrierExact {
  import EventManager
  import Mutexes
  import opened Barriers
  import opened Counting

  // ---------------------------------------------------------------------------------------
  // Enough: at most `threshold` participants

  ghost predicate Few(s: Barrier, P: set<nat>) {
    s.pcs.Keys <= P && |P| <= s.threshold
  }

  /** Nobody inside is more than one generation behind. */
  ghost predicate Recent(s: Barrier) {
    forall t :: t in s.pcs && (s.pcs[t].Sleeping? || s.pcs[t].Returning?) ==> s.pcs[t].g + 1 >= s.gen
  }

  /** No broadcast is lost: a thread of a completed generation that still waits for the condition is
      marked, or the next pass will mark it. */
  ghost predicate NoneLost(s: Barrier) {
    forall t :: t in s.pcs && s.pcs[t].Sleeping? && s.pcs[t].g < s.gen ==> t in s.marked || s.cond.signaled
  }

  ghost predicate Exact(s: Barrier, P: set<nat>) {
    Inv(s) && Few(s, P) && Recent(s) && NoneLost(s)
  }

  lemma {:induction false} NoneLeft(log: seq<Exit>, g: nat)
    requires forall i :: 0 <= i < |log| ==> log[i].g < g
    ensures Left(log, g) == 0
  {
    if log != [] {
      NoneLeft(log[..|log| - 1], g);
    }
  }

  /** When the last arrival of a generation comes, all the other participants have arrived in it. */
  lemma {:induction false} AllArrived(s: Barrier, P: set<nat>, t: nat, u: nat)
    requires Inv(s) && Few(s, P) && s.count == 1 && t in P && !InGen(s.gen)(At(s, t))
    requires u in s.pcs && u != t
    ensures InGen(s.gen)(s.pcs[u])
  {
    hide InGen, Places, Counters;
    var here := Those(s.pcs, InGen(s.gen));
    NoneLeft(s.log, s.gen);
    assert |here| == s.threshold - 1;
    assert t !in here;
    assert here + {t} <= P;
    Fills(here + {t}, P);
  }

  lemma {:induction false} Fills(a: set<nat>, b: set<nat>)
    requires a <= b && |b| <= |a|
    ensures a == b
  {
    assert b == a + (b - a);
    assert |b - a| == 0;
  }

  lemma {:induction false} Facts(s: Barrier, t: nat)
    requires Inv(s)
    ensures s.cycle == Odd(s.gen) && (s.cond.signaled ==> s.cond.broadcast) && 1 <= s.count
    ensures PcOk(s, At(s, t))
  {
    hide Many, Accounted;
  }

  lemma {:induction false} ArriveExact(s: Barrier, P: set<nat>, t: nat)
    requires Exact(s, P) && s.mutex == Mutexes.FREE && (At(s, t).Out? || At(s, t).Entering?) && t in P
    ensures Exact(Arrive(s.(mutex := Mutexes.Locked(t)), t), P)
  {
    hide Inv;
    ArriveKeeps(s, t);
    FreeMutex(s, t);
    Facts(s, t);
    if s.count == 1 {
      forall u | u in s.pcs && u != t ensures InGen(s.gen)(s.pcs[u]) {
        AllArrived(s, P, t, u);
      }
      if s.waiters <= 0 {
        forall u | u in s.pcs ensures !s.pcs[u].Sleeping? && !s.pcs[u].Returning? {
          NobodyWaits(s, u);
        }
      }
    }
  }

  lemma {:induction false} NobodyWaits(s: Barrier, u: nat)
    requires Inv(s) && s.waiters <= 0 && u in s.pcs
    ensures !s.pcs[u].Sleeping? && !s.pcs[u].Returning?
  {
    assert Those(s.pcs, InCond()) == {};
    assert InCond()(s.pcs[u]) ==> u in Those(s.pcs, InCond());
  }

  lemma {:induction false} RecheckExact(s: Barrier, P: set<nat>, t: nat)
    requires Exact(s, P) && s.mutex == Mutexes.FREE && (At(s, t).Sleeping? || At(s, t).Returning?)
    ensures Exact(Recheck(s.(mutex := Mutexes.Locked(t)), t, At(s, t).g, At(s, t).bit), P)
    ensures At(Recheck(s.(mutex := Mutexes.Locked(t)), t, At(s, t).g, At(s, t).bit), t) ==
      if At(s, t).g < s.gen then Out else Sleeping(s.gen, s.cycle)
  {
    hide Inv;
    RecheckKeeps(s, t);
    FreeMutex(s, t);
    Facts(s, t);
  }

  predicate Takes(step: Step, P: set<nat>) {
    step.PassStep? || step.t in P
  }

  /** Waking up to a free mutex is an arrival or a recheck, and uses up the mark. */
  lemma {:induction false} WakeFree(s: Barrier, t: nat)
    requires Legal(s, WakeStep(t)) && s.mutex == Mutexes.FREE
    ensures At(s, t).Entering? ==>
      var a := Arrive(s.(mutex := Mutexes.Locked(t)), t);
      Wake(s, t) == a.(marked := a.marked - {t}) && (!At(a, t).Sleeping? || At(a, t).g == a.gen)
    ensures !At(s, t).Entering? ==>
      var a := Recheck(s.(mutex := Mutexes.Locked(t)), t, At(s, t).g, At(s, t).bit);
      Wake(s, t) == a.(marked := a.marked - {t}) && a.gen == s.gen
  {
  }

  lemma {:induction false} WakeExact(s: Barrier, P: set<nat>, t: nat)
    requires Exact(s, P) && Legal(s, WakeStep(t)) && t in P
    ensures Exact(Wake(s, t), P)
    ensures (At(s, t).Sleeping? || At(s, t).Returning?) && s.mutex == Mutexes.FREE ==>
      (At(Wake(s, t), t).Out? <==> At(s, t).g < s.gen)
  {
    hide Inv, Arrive, Recheck;
    StepKeeps(s, WakeStep(t));
    EnterFree(s, t);
    if s.mutex == Mutexes.FREE {
      FreeMutex(s, t);
      WakeFree(s, t);
      if At(s, t).Entering? {
        ArriveExact(s, P, t);
        MarkExact(Arrive(s.(mutex := Mutexes.Locked(t)), t), Wake(s, t), P, t);
      } else {
        RecheckExact(s, P, t);
        MarkExact(Recheck(s.(mutex := Mutexes.Locked(t)), t, At(s, t).g, At(s, t).bit), Wake(s, t), P, t);
      }
    }
  }

  /** The mark that a thread loses by waking is one that it needs no more. */
  lemma {:induction false} MarkExact(a: Barrier, b: Barrier, P: set<nat>, t: nat)
    requires Exact(a, P) && Inv(b) && b == a.(marked := b.marked)
    requires b.marked == a.marked - {t}
    requires !At(a, t).Sleeping? || At(a, t).g == a.gen
    ensures Exact(b, P)
  {
    hide Inv;
  }

  lemma {:induction false} StepExact(s: Barrier, P: set<nat>, step: Step)
    requires Exact(s, P) && Legal(s, step) && Takes(step, P)
    ensures Exact(Next(s, step), P)
  {
    hide Inv, Arrive, Wake;
    StepKeeps(s, step);
    match step {
      case ReachStep(t) =>
        EnterFree(s, t);
        if s.mutex == Mutexes.FREE { FreeMutex(s, t); ArriveExact(s, P, t); }
      case WakeStep(t) => WakeExact(s, P, t);
      case ResumeStep(t) =>
      case PassStep(who) => PassExact(s, P, who);
    }
  }

  lemma {:induction false} PassExact(s: Barrier, P: set<nat>, who: nat)
    requires Exact(s, P) && Inv(Pass(s, who))
    ensures Exact(Pass(s, who), P)
  {
    hide Accounted, Many, Places;
  }

  ghost predicate RunOf(n: nat, P: set<nat>, ss: seq<Barrier>, steps: seq<Step>) {
    && IsRun(ss, steps) && ss[0] == Init(n)
    && forall i :: 0 <= i < |steps| ==> Takes(steps[i], P)
  }

  lemma {:induction false} RunExact(n: nat, P: set<nat>, ss: seq<Barrier>, steps: seq<Step>, k: nat)
    requires n > 0 && |P| <= n && RunOf(n, P, ss, steps) && k <= |steps|
    ensures Exact(ss[k], P)
  {
    hide Inv;
    if k == 0 {
      InitInv(n);
    } else {
      RunExact(n, P, ss, steps, k - 1);
      StepExact(ss[k - 1], P, steps[k - 1]);
    }
  }

  /** With few enough participants no wake-up is lost: after any pass of the event manager every
      thread that still sleeps although its generation is complete has been marked. */
  lemma {:induction false} PassMarksAll(n: nat, P: set<nat>, ss: seq<Barrier>, steps: seq<Step>, k: nat, t: nat)
    requires n > 0 && |P| <= n && RunOf(n, P, ss, steps) && k < |steps| && steps[k].PassStep?
    requires At(ss[k + 1], t).Sleeping? && At(ss[k + 1], t).g < ss[k + 1].gen
    ensures t in ss[k + 1].marked
  {
    hide Inv;
    RunExact(n, P, ss, steps, k);
    Facts(ss[k], t);
    assert ss[k + 1] == Pass(ss[k], steps[k].who);
  }

  // ---------------------------------------------------------------------------------------
  // Enough: a threshold of 1

  ghost predicate NoneInside(s: Barrier) {
    forall t :: t in s.pcs ==> !s.pcs[t].Sleeping? && !s.pcs[t].Returning?
  }

  lemma {:induction false} RunOfOne(ss: seq<Barrier>, steps: seq<Step>, k: nat)
    requires IsRun(ss, steps) && ss[0] == Init(1) && k <= |steps|
    ensures NoneInside(ss[k])
  {
    if k > 0 {
      RunOfOne(ss, steps, k - 1);
      InitInv(1);
      RunKeeps(ss, steps, k - 1);
      ThresholdStays(ss, steps, k - 1);
      StepOfOne(ss[k - 1], steps[k - 1]);
    }
  }

  lemma {:induction false} StepOfOne(s: Barrier, step: Step)
    requires Inv(s) && s.threshold == 1 && NoneInside(s) && Legal(s, step)
    ensures NoneInside(Next(s, step))
  {
    hide Accounted, Places, Many;
  }

  // ---------------------------------------------------------------------------------------
  // Not enough: one participant more than a threshold of 2 or above

  function Final(s: Barrier, steps: seq<Step>): Barrier {
    if steps == [] then s else Next(Final(s, steps[..|steps| - 1]), steps[|steps| - 1])
  }

  /** The last of the steps has handed over to the scheduler. */
  ghost predicate HandsOver(s: Barrier, steps: seq<Step>) {
    steps != [] && !steps[|steps| - 1].PassStep? && !At(Final(s, steps), steps[|steps| - 1].t).Out?
  }

  ghost predicate Feasible(s: Barrier, steps: seq<Step>) {
    forall k :: 0 <= k < |steps| ==>
      Legal(Final(s, steps[..k]), steps[k]) && (HandsOver(s, steps[..k]) ==> steps[k].PassStep?)
  }

  lemma {:induction false} Extend(s: Barrier, steps: seq<Step>, step: Step)
    requires Feasible(s, steps) && Legal(Final(s, steps), step) && (HandsOver(s, steps) ==> step.PassStep?)
    ensures Feasible(s, steps + [step]) && Final(s, steps + [step]) == Next(Final(s, steps), step)
  {
    var all := steps + [step];
    forall k | 0 <= k < |all|
      ensures Legal(Final(s, all[..k]), all[k]) && (HandsOver(s, all[..k]) ==> all[k].PassStep?)
    {
      assert all[..k] == if k < |steps| then steps[..k] else steps;
    }
    assert all[..|steps|] == steps;
  }

  lemma {:induction false} AtRest(s: Barrier, steps: seq<Step>)
    requires steps != [] && (steps[|steps| - 1].PassStep? || At(Final(s, steps), steps[|steps| - 1].t).Out?)
    ensures !HandsOver(s, steps)
  {
  }

  ghost predicate Apart(ts: seq<nat>) {
    forall i, j :: 0 <= i < j < |ts| ==> ts[i] != ts[j]
  }

  ghost predicate Uses(steps: seq<Step>, P: set<nat>) {
    forall i :: 0 <= i < |steps| ==> Takes(steps[i], P)
  }

  /** What a row of arrivals that are not the last leaves behind. */
  ghost predicate Slept(s: Barrier, s': Barrier, ts: seq<nat>, k: nat)
    requires k <= |ts|
  {
    && s' == s.(count := s.count - k, arrivals := s.arrivals + k, waiters := s.waiters + k, pcs := s'.pcs)
    && forall t: nat :: At(s', t) == if t in ts[..k] then Sleeping(s.gen, s.cycle) else At(s, t)
  }

  /** Nobody waits for the mutex. */
  ghost predicate NoQueue(s: Barrier) {
    forall t: nat :: !At(s, t).Entering? && !At(s, t).Returning?
  }

  /** Without a broadcast and anybody at the mutex a pass does nothing. */
  lemma {:induction false} IdlePass(s: Barrier) returns (who: nat)
    requires s.cond == EventManager.CLEAR && NoQueue(s)
    ensures Legal(s, PassStep(who)) && Next(s, PassStep(who)) == s
  {
    who := 0;
    if Sleepers(s) != {} {
      who :| who in Sleepers(s);
    }
    assert forall t :: t in Lockers(s) ==> At(s, t).Entering? || At(s, t).Returning?;
  }

  lemma {:induction false} ReachAll(s0: Barrier, before: seq<Step>, ts: seq<nat>, P: set<nat>)
    returns (steps: seq<Step>)
    requires Feasible(s0, before) && !HandsOver(s0, before) && Uses(before, P)
    requires var s := Final(s0, before);
      && s.mutex == Mutexes.FREE && s.count > |ts| && s.cond == EventManager.CLEAR && NoQueue(s)
      && Apart(ts) && forall i :: 0 <= i < |ts| ==> At(s, ts[i]).Out? && ts[i] in P
    ensures Feasible(s0, steps) && !HandsOver(s0, steps) && Uses(steps, P)
    ensures Slept(Final(s0, before), Final(s0, steps), ts, |ts|)
  {
    hide Final, Feasible, HandsOver;
    ghost var s := Final(s0, before);
    steps := before;
    assert ts[..0] == [];
    for k := 0 to |ts|
      invariant Feasible(s0, steps) && !HandsOver(s0, steps) && Uses(steps, P) && Slept(s, Final(s0, steps), ts, k)
    {
      ghost var c := Final(s0, steps);
      assert At(c, ts[k]).Out?;
      assert ts[..k + 1] == ts[..k] + [ts[k]];
      Extend(s0, steps, ReachStep(ts[k]));
      SleepsNext(s, c, ts, k);
      steps := steps + [ReachStep(ts[k])];
      var who := IdlePass(Final(s0, steps));
      Extend(s0, steps, PassStep(who));
      steps := steps + [PassStep(who)];
      AtRest(s0, steps);
    }
  }

  lemma {:induction false} SleepsNext(s: Barrier, c: Barrier, ts: seq<nat>, k: nat)
    requires k < |ts| && Slept(s, c, ts, k)
    requires s.mutex == Mutexes.FREE && s.count > |ts| && s.cond == EventManager.CLEAR
    ensures Slept(s, Next(c, ReachStep(ts[k])), ts, k + 1)
  {
    assert ts[..k + 1] == ts[..k] + [ts[k]];
  }

  /** What is left when a row of marked threads of the generation before wakes up and leaves. */
  ghost predicate Freed(s: Barrier, s': Barrier, ts: seq<nat>, k: nat)
    requires k <= |ts|
  {
    && s' == s.(waiters := s.waiters - k, pcs := s'.pcs, marked := s'.marked, log := s'.log)
    && (forall t: nat :: At(s', t) == if t in ts[..k] then Out else At(s, t))
    && (forall t: nat :: t in s.marked && t !in ts[..k] ==> t in s'.marked)
    && s'.marked <= s.marked
  }

  lemma {:induction false} WakeAll(s0: Barrier, before: seq<Step>, ts: seq<nat>, g: nat, bit: bool, P: set<nat>)
    returns (steps: seq<Step>)
    requires Feasible(s0, before) && !HandsOver(s0, before) && Uses(before, P)
    requires var s := Final(s0, before);
      && s.mutex == Mutexes.FREE && bit != s.cycle
      && Apart(ts) && forall i :: 0 <= i < |ts| ==> At(s, ts[i]) == Sleeping(g, bit) && ts[i] in s.marked && ts[i] in P
    ensures Feasible(s0, steps) && !HandsOver(s0, steps) && Uses(steps, P)
    ensures Freed(Final(s0, before), Final(s0, steps), ts, |ts|)
  {
    hide Final, Feasible, HandsOver;
    ghost var s := Final(s0, before);
    steps := before;
    assert ts[..0] == [];
    for k := 0 to |ts|
      invariant Feasible(s0, steps) && !HandsOver(s0, steps) && Uses(steps, P) && Freed(s, Final(s0, steps), ts, k)
    {
      ghost var c := Final(s0, steps);
      assert ts[k] !in ts[..k];
      assert At(c, ts[k]) == Sleeping(g, bit) && ts[k] in c.marked;
      Extend(s0, steps, WakeStep(ts[k]));
      LeavesNext(s, c, ts, k, g, bit);
      steps := steps + [WakeStep(ts[k])];
      AtRest(s0, steps);
    }
  }

  lemma {:induction false} LeavesNext(s: Barrier, c: Barrier, ts: seq<nat>, k: nat, g: nat, bit: bool)
    requires k < |ts| && Freed(s, c, ts, k)
    requires s.mutex == Mutexes.FREE && bit != s.cycle && At(c, ts[k]) == Sleeping(g, bit)
    ensures Freed(s, Next(c, WakeStep(ts[k])), ts, k + 1)
  {
    assert ts[..k + 1] == ts[..k] + [ts[k]];
  }

  /** The last arrival of a generation: it broadcasts and yields, and after a pass it gives the mutex
      back and returns. */
  lemma {:induction false} Complete(s0: Barrier, before: seq<Step>, t: nat, who: nat, P: set<nat>)
    returns (steps: seq<Step>)
    requires Feasible(s0, before) && !HandsOver(s0, before) && Uses(before, P) && t in P
    requires var s := Final(s0, before);
      && s.mutex == Mutexes.FREE && s.count == 1 && s.waiters > 0 && At(s, t).Out?
      && At(s, who).Sleeping? && who !in s.marked
    ensures Feasible(s0, steps) && !HandsOver(s0, steps) && Uses(steps, P)
    ensures Completed(Final(s0, before), Final(s0, steps))
  {
    hide Final, Feasible, HandsOver, Completed;
    ghost var s := Final(s0, before);
    Extend(s0, before, ReachStep(t));
    steps := before + [ReachStep(t)];
    Yields(s, t, who);
    Extend(s0, steps, PassStep(who));
    steps := steps + [PassStep(who)];
    AtRest(s0, steps);
    Extend(s0, steps, ResumeStep(t));
    steps := steps + [ResumeStep(t)];
    AtRest(s0, steps);
  }

  ghost predicate Completed(s: Barrier, s': Barrier) {
    && s' == s.(count := s.threshold, arrivals := s.arrivals + 1, cycle := !s.cycle, gen := s.gen + 1,
                cond := EventManager.CLEAR, pcs := s'.pcs, marked := s'.marked, log := s'.log)
    && (forall u: nat :: At(s', u) == At(s, u))
    && (forall u: nat :: At(s, u).Sleeping? ==> u in s'.marked)
    && (forall u: nat :: u in s'.marked ==> u in s.marked || At(s, u).Sleeping?)
  }

  lemma {:induction false} Yields(s: Barrier, t: nat, who: nat)
    requires s.mutex == Mutexes.FREE && s.count == 1 && s.waiters > 0 && At(s, t).Out?
    requires At(s, who).Sleeping? && who !in s.marked
    ensures var s1 := Next(s, ReachStep(t));
      var s2 := Next(s1, PassStep(who));
      && Legal(s1, PassStep(who)) && Legal(s2, ResumeStep(t))
      && At(Next(s2, ResumeStep(t)), t).Out? && Completed(s, Next(s2, ResumeStep(t)))
  {
    var s1 := Next(s, ReachStep(t));
    assert At(s1, t) == Yielding(s.gen) && s1.mutex == Mutexes.Locked(t);
    assert forall u: nat :: u != t ==> At(s1, u) == At(s, u);
    assert who in Sleepers(s1);
    assert forall u: nat :: At(s, u).Sleeping? ==> u in Sleepers(s1) || u in s1.marked;
    assert Mutexes.Leave(Mutexes.Locked(t), t) == Mutexes.FREE;
  }

  /** Generation 0 up to the point where everybody but its last arrival is marked. */
  lemma {:induction false} StrandFirst(n: nat, ts: seq<nat>, P: set<nat>) returns (steps: seq<Step>)
    requires n >= 2 && |ts| == n + 1 && Apart(ts) && forall i :: 0 <= i <= n ==> ts[i] in P
    ensures Feasible(Init(n), steps) && !HandsOver(Init(n), steps) && Uses(steps, P)
    ensures var s := Final(Init(n), steps);
      && s.mutex == Mutexes.FREE && s.gen == 1 && s.cycle && s.count == n == s.threshold && s.waiters == n - 1
      && s.cond == EventManager.CLEAR && NoQueue(s)
      && (forall i :: 0 <= i < n - 1 ==> ts[i] in s.marked && At(s, ts[i]) == Sleeping(0, false))
      && At(s, ts[n - 1]).Out? && At(s, ts[n]).Out? && ts[n - 1] !in s.marked
  {
    hide Final, Feasible, Uses, HandsOver;
    var s0 := Init(n);
    NoSteps(s0, P);
    var first := ts[..n - 1];
    steps := ReachAll(s0, [], first, P);
    assert first[..n - 1] == first;
    assert At(Final(s0, steps), ts[0]) == Sleeping(0, false) by { assert first[0] == ts[0]; }
    assert ts[n - 1] !in first && ts[n] !in first;
    steps := Complete(s0, steps, ts[n - 1], ts[0], P);
    forall i | 0 <= i < n - 1
      ensures ts[i] in Final(s0, steps).marked && At(Final(s0, steps), ts[i]) == Sleeping(0, false)
    {
      assert first[i] == ts[i];
    }
  }

  /** A run in which thread ts[0] of generation 0 is dispatched only when two generations are
      complete: the flag then shows what it showed on arrival. */
  lemma {:induction false} Strand(n: nat, ts: seq<nat>, P: set<nat>) returns (steps: seq<Step>)
    requires n >= 2 && |ts| == n + 1 && Apart(ts) && forall i :: 0 <= i <= n ==> ts[i] in P
    ensures Feasible(Init(n), steps) && !HandsOver(Init(n), steps) && Uses(steps, P)
    ensures var s := Final(Init(n), steps);
      && s.mutex == Mutexes.FREE && At(s, ts[0]) == Sleeping(0, false) && ts[0] in s.marked
      && s.gen == 2 && !s.cycle
  {
    hide Final, Feasible, Uses, HandsOver;
    var s0, others, again := Init(n), ts[1..n - 1], ts[1..n];
    steps := StrandFirst(n, ts, P);
    steps := WakeAll(s0, steps, others, 0, false, P);
    ghost var s5 := Final(s0, steps);
    assert others[..|others|] == others;
    assert ts[0] !in others && ts[n - 1] !in others && ts[n] !in others;
    forall i | 0 <= i < |again| ensures At(s5, again[i]).Out? && again[i] in P {
      assert again[i] == ts[i + 1];
      if i < n - 2 { assert others[i] == again[i]; }
    }
    steps := ReachAll(s0, steps, again, P);
    assert again[..n - 1] == again;
    assert ts[0] !in again && ts[n] !in again && again[n - 2] == ts[n - 1];
    steps := Complete(s0, steps, ts[n], ts[n - 1], P);
  }

  lemma {:induction false} NoSteps(s: Barrier, P: set<nat>)
    ensures Feasible(s, []) && !HandsOver(s, []) && Uses([], P) && Final(s, []) == s
  {
  }

  /** A thread that stops running inside a call hands over to the scheduler, so that a pass follows
      before anybody runs again. */
  ghost predicate PassesFollow(ss: seq<Barrier>, steps: seq<Step>) {
    |ss| == |steps| + 1 &&
      forall i :: 0 <= i < |steps| - 1 && !steps[i].PassStep? && !At(ss[i + 1], steps[i].t).Out? ==>
      steps[i + 1].PassStep?
  }

  lemma {:induction false} AsRun(s: Barrier, steps: seq<Step>) returns (ss: seq<Barrier>)
    requires Feasible(s, steps)
    ensures IsRun(ss, steps) && PassesFollow(ss, steps) && ss[0] == s
    ensures forall k :: 0 <= k < |ss| ==> ss[k] == Final(s, steps[..k])
  {
    ss := seq(|steps| + 1, k requires 0 <= k <= |steps| => Final(s, steps[..k]));
    forall i | 0 <= i < |steps| - 1 && !steps[i].PassStep? && !At(ss[i + 1], steps[i].t).Out?
      ensures steps[i + 1].PassStep?
    {
      assert HandsOver(s, steps[..i + 1]);
    }
    forall i | 0 <= i < |steps| ensures ss[i + 1] == Next(ss[i], steps[i]) {
      assert steps[..i + 1][..i] == steps[..i];
    }
  }

  lemma {:induction false} Choose(P: set<nat>, k: nat) returns (ts: seq<nat>)
    requires k <= |P|
    ensures |ts| == k && Apart(ts) && forall i :: 0 <= i < k ==> ts[i] in P
  {
    if k == 0 {
      ts := [];
    } else {
      var t :| t in P;
      assert |P - {t}| == |P| - 1;
      var rest := Choose(P - {t}, k - 1);
      ts := [t] + rest;
    }
  }

  /** At step k thread t gets the mutex back after its generation was completed, and does not
      return. */
  ghost predicate InVain(ss: seq<Barrier>, steps: seq<Step>, k: nat, t: nat) {
    && k < |steps| && |ss| == |steps| + 1 && steps[k] == WakeStep(t)
    && (At(ss[k], t).Sleeping? || At(ss[k], t).Returning?) && ss[k].mutex == Mutexes.FREE
    && At(ss[k], t).g < ss[k].gen && !At(ss[k + 1], t).Out?
  }

  ghost predicate NeverInVain(n: nat, P: set<nat>) {
    forall ss, steps, k: nat, t: nat ::
      RunOf(n, P, ss, steps) && PassesFollow(ss, steps) ==> !InVain(ss, steps, k, t)
  }

  lemma {:induction false} NotInVain(n: nat, P: set<nat>, ss: seq<Barrier>, steps: seq<Step>, k: nat, t: nat)
    requires n > 0 && (|P| <= n || n == 1) && RunOf(n, P, ss, steps)
    ensures !InVain(ss, steps, k, t)
  {
    hide Inv, Wake;
    if k < |steps| && steps[k] == WakeStep(t) {
      assert Legal(ss[k], steps[k]) && ss[k + 1] == Next(ss[k], steps[k]) && Takes(steps[k], P);
      if |P| <= n {
        RunExact(n, P, ss, steps, k);
        WakeExact(ss[k], P, t);
      } else {
        RunOfOne(ss, steps, k);
      }
    }
  }

  /** The one-bit flag suffices exactly when at most `n` threads take part, or n is 1. */
  lemma {:induction false} FlagSuffices(n: nat, P: set<nat>)
    requires n > 0
    ensures NeverInVain(n, P) <==> |P| <= n || n == 1
  {
    hide InVain, RunOf;
    if |P| <= n || n == 1 {
      forall ss, steps, k: nat, t: nat | RunOf(n, P, ss, steps) && PassesFollow(ss, steps)
        ensures !InVain(ss, steps, k, t)
      {
        NotInVain(n, P, ss, steps, k, t);
      }
    } else {
      var ss, steps, k, t := Stranded(n, P);
    }
  }

  lemma {:induction false} Stranded(n: nat, P: set<nat>) returns (ss: seq<Barrier>, steps: seq<Step>, k: nat, t: nat)
    requires n >= 2 && |P| > n
    ensures RunOf(n, P, ss, steps) && PassesFollow(ss, steps) && InVain(ss, steps, k, t)
  {
    hide Final, Feasible, HandsOver;
    var ts := Choose(P, n + 1);
    var script := Strand(n, ts, P);
    k, t := |script|, ts[0];
    Extend(Init(n), script, WakeStep(t));
    steps := script + [WakeStep(t)];
    ss := AsRun(Init(n), steps);
    assert steps[..k] == script && steps[..k + 1] == steps;
  }
}
