/** Condition variables: the interleavings of threads that use one mutex and one condition variable,
    with the short cut of pth_cond_await that uses up a signal on the spot.  `signals` and `wakes`
    only record history: the plain notifications sent, and the waits that plain signals have ended. */
module CondVars {
  import opened EventManager
  import M = Mutexes
  import opened Counting
  import opened Marking

  /** Where a thread is: outside, waiting for the mutex, yielding after a notification, waiting for
      the condition, perhaps along with an extra event, or waiting for the mutex after it.  n is how
      often it held the mutex when it began to wait. */
  datatype Pc = Out | Wants | Yielding | Sleeping(n: int, extra: bool) | Returning(n: int)

  datatype Cv = Cv(
    mutex: M.Mutex, cond: CondFlags, waiters: int, pcs: map<nat, Pc>, marked: set<nat>, parked: set<nat>,
    signals: nat, wakes: nat)

  datatype Step =
    | AcquireStep(t: nat)
    | ReleaseStep(t: nat)
    | AwaitStep(t: nat, extra: bool)
    | NotifyStep(t: nat, broadcast: bool)
    | ResumeStep(t: nat)
    | WakeStep(t: nat)
    | ParkStep(t: nat, u: nat)
    | UnparkStep(t: nat, u: nat)
    | PassStep(who: nat, extras: set<nat>)

  function At(s: Cv, t: nat): Pc {
    if t in s.pcs then s.pcs[t] else Out
  }

  function Held(s: Cv, t: nat): int {
    if s.mutex.owner == Some(t) then s.mutex.count else 0
  }

  function Goes(s: Cv, t: nat, pc: Pc): Cv {
    s.(pcs := s.pcs[t := pc])
  }

  function Init(): Cv { Cv(M.FREE, CLEAR, 0, map[], {}, {}, 0, 0) }

  // ---------------------------------------------------------------------------------------
  // The steps

  function Acquire(s: Cv, t: nat): Cv {
    match M.Enter(s.mutex, t)
    case Some(mx) => s.(mutex := mx)
    case None => Goes(s, t, Wants)
  }

  predicate ShortCut(s: Cv) { s.cond.signaled && !s.cond.broadcast }

  function Await(s: Cv, t: nat, extra: bool): Cv {
    if ShortCut(s) then s.(cond := CLEAR, wakes := s.wakes + 1)
    else Goes(s.(waiters := s.waiters + 1, mutex := M.Leave(s.mutex, t)), t, Sleeping(Held(s, t), extra))
  }

  /** A notification does something only when somebody is counted as a waiter. */
  function Notify(s: Cv, t: nat, broadcast: bool): Cv {
    var s1 := s.(signals := s.signals + if broadcast then 0 else 1);
    if s.waiters > 0 then Goes(s1.(cond := CondFlags(true, broadcast, false)), t, Yielding) else s1
  }

  function Wake(s: Cv, t: nat): Cv {
    var s1 := s.(marked := s.marked - {t});
    match At(s, t)
    case Wants => if s.mutex.locked then s1 else Goes(s1.(mutex := M.Enter(s.mutex, t).value), t, Out)
    case Sleeping(n, _) =>
      (match M.Enter(s.mutex, t)
       case Some(mx) => Goes(s1.(mutex := mx, waiters := s.waiters - 1), t, Out)
       case None => Goes(s1, t, Returning(n)))
    case Returning(n) =>
      if s.mutex.locked then s1
      else Goes(s1.(mutex := M.Enter(s.mutex, t).value, waiters := s.waiters - 1), t, Out)
    case _ => s1
  }

  /** The threads in the waiting queue for the condition; a marked one has left it, and so has one that
      is suspended. */
  function Sleepers(s: Cv): set<nat> {
    set t | t in s.pcs && s.pcs[t].Sleeping? && t !in s.marked && t !in s.parked
  }

  /** The threads that wait for the mutex and are not suspended. */
  function Lockers(s: Cv): set<nat> {
    set t | t in s.pcs && (s.pcs[t].Wants? || s.pcs[t].Returning?) && t !in s.parked
  }

  predicate InCall(pc: Pc) { pc.Wants? || pc.Sleeping? || pc.Returning? }

  /** One pass of the event manager: it serves the condition, and marks those whose extra event has
      occurred meanwhile. */
  function Pass(s: Cv, who: nat, extras: set<nat>): Cv {
    s.(marked := s.marked + (if s.mutex.locked then {} else Lockers(s)) + Chosen(s.cond, Sleepers(s), who) + extras,
       cond := FlagsAfter(s.cond, Sleepers(s), who),
       wakes := s.wakes + if ShortCut(s) && Chosen(s.cond, Sleepers(s), who) != {} then 1 else 0)
  }

  /** A thread awaits with the mutex in its hands, is woken only when a pass has marked it, and does
      nothing while it is suspended.  Threads are parked, that is suspended, inside a wait. */
  predicate Legal(s: Cv, step: Step) {
    (step.PassStep? || step.t !in s.parked) &&
    match step
    case AcquireStep(t) => At(s, t).Out?
    case ReleaseStep(t) => At(s, t).Out?
    case AwaitStep(t, _) => At(s, t).Out? && Held(s, t) > 0
    case NotifyStep(t, _) => At(s, t).Out?
    case ResumeStep(t) => At(s, t).Yielding?
    case WakeStep(t) => t in s.marked && InCall(At(s, t))
    case ParkStep(t, u) => u != t && InCall(At(s, u)) && u !in s.parked
    case UnparkStep(t, u) => u != t && u in s.parked
    case PassStep(who, extras) =>
      && (who in Sleepers(s) || Sleepers(s) == {})
      && forall t :: t in extras ==> t in Sleepers(s) && At(s, t).extra
  }

  function Next(s: Cv, step: Step): Cv {
    match step
    case AcquireStep(t) => Acquire(s, t)
    case ReleaseStep(t) => s.(mutex := M.Leave(s.mutex, t))
    case AwaitStep(t, extra) => Await(s, t, extra)
    case NotifyStep(t, broadcast) => Notify(s, t, broadcast)
    case ResumeStep(t) => Goes(s, t, Out)
    case WakeStep(t) => Wake(s, t)
    case ParkStep(_, u) => s.(parked := s.parked + {u})
    case UnparkStep(_, u) => s.(parked := s.parked - {u})
    case PassStep(who, extras) => Pass(s, who, extras)
  }

  // ---------------------------------------------------------------------------------------
  // What every state has in common

  function InCond(): Pc -> bool { (pc: Pc) => pc.Sleeping? || pc.Returning? }

  /** A waiter that held the mutex more than once still holds it, one time less. */
  ghost predicate PcOk(s: Cv, t: nat, pc: Pc) {
    && (pc.Sleeping? ==> pc.n >= 1 && (if pc.n > 1 then Held(s, t) == pc.n - 1 else Held(s, t) == 0))
    && (pc.Returning? ==> pc.n == 1 && Held(s, t) == 0)
    && (pc.Wants? ==> Held(s, t) == 0)
  }

  ghost predicate Inv(s: Cv) {
    && s.waiters == Many(s.pcs, InCond())
    && s.mutex.initialized && s.mutex.count >= 0
    && (s.mutex.locked <==> s.mutex.owner.Some?) && (s.mutex.locked <==> s.mutex.count >= 1)
    && (forall t :: t in s.pcs ==> PcOk(s, t, s.pcs[t]))
    && s.wakes + (if ShortCut(s) then 1 else 0) <= s.signals
  }

  /** Others do not notice that t takes or gives back the mutex. */
  lemma {:induction false} OthersOk(s: Cv, s': Cv, t: nat)
    requires Inv(s) && s'.pcs == s.pcs[t := At(s', t)] && t in s'.pcs && PcOk(s', t, s'.pcs[t])
    requires forall u: nat :: u != t ==> Held(s', u) == Held(s, u)
    ensures forall u :: u in s'.pcs ==> PcOk(s', u, s'.pcs[u])
  {
    hide Many;
    forall u | u in s'.pcs ensures PcOk(s', u, s'.pcs[u]) {
      if u != t {
        assert PcOk(s, u, s.pcs[u]);
      }
    }
  }

  lemma {:induction false} AcquireKeeps(s: Cv, t: nat)
    requires Inv(s) && At(s, t).Out?
    ensures Inv(Acquire(s, t))
  {
    hide Many;
    ManyUpdate(s.pcs, t, Wants, InCond());
    var s' := Acquire(s, t);
    if M.Enter(s.mutex, t).None? {
      OthersOk(s, s', t);
    } else {
      forall u | u in s.pcs ensures PcOk(s', u, s.pcs[u]) { assert PcOk(s, u, s.pcs[u]); }
    }
  }

  lemma {:induction false} ReleaseKeeps(s: Cv, t: nat)
    requires Inv(s) && At(s, t).Out?
    ensures Inv(Next(s, ReleaseStep(t)))
  {
    hide Many;
    var s' := Next(s, ReleaseStep(t));
    forall u | u in s.pcs ensures PcOk(s', u, s.pcs[u]) { assert PcOk(s, u, s.pcs[u]); }
  }

  lemma {:induction false} AwaitKeeps(s: Cv, t: nat, extra: bool)
    requires Inv(s) && At(s, t).Out? && Held(s, t) > 0
    ensures Inv(Await(s, t, extra))
  {
    hide Many;
    ManyUpdate(s.pcs, t, Sleeping(Held(s, t), extra), InCond());
    if !ShortCut(s) {
      OthersOk(s, Await(s, t, extra), t);
    } else {
      forall u | u in s.pcs ensures PcOk(Await(s, t, extra), u, s.pcs[u]) { assert PcOk(s, u, s.pcs[u]); }
    }
  }

  lemma {:induction false} NotifyKeeps(s: Cv, t: nat, broadcast: bool)
    requires Inv(s) && At(s, t).Out?
    ensures Inv(Notify(s, t, broadcast))
  {
    hide Many;
    ManyUpdate(s.pcs, t, Yielding, InCond());
    if s.waiters > 0 {
      OthersOk(s, Notify(s, t, broadcast), t);
    } else {
      forall u | u in s.pcs ensures PcOk(Notify(s, t, broadcast), u, s.pcs[u]) { assert PcOk(s, u, s.pcs[u]); }
    }
  }

  lemma {:induction false} ResumeKeeps(s: Cv, t: nat)
    requires Inv(s) && At(s, t).Yielding?
    ensures Inv(Goes(s, t, Out))
  {
    hide Many;
    ManyUpdate(s.pcs, t, Out, InCond());
    OthersOk(s, Goes(s, t, Out), t);
  }

  lemma {:induction false} MarksKeep(s: Cv, s': Cv)
    requires Inv(s) && s' == s.(marked := s'.marked, parked := s'.parked)
    ensures Inv(s')
  {
    hide Many;
    forall u | u in s.pcs ensures PcOk(s', u, s.pcs[u]) { assert PcOk(s, u, s.pcs[u]); }
  }

  /** A wait ends with the mutex held as often as when it began. */
  lemma {:induction false} WakeKeeps(s: Cv, t: nat)
    requires Inv(s) && Legal(s, WakeStep(t))
    ensures Inv(Wake(s, t))
    ensures (At(s, t).Sleeping? || At(s, t).Returning?) && At(Wake(s, t), t).Out? ==> Held(Wake(s, t), t) == At(s, t).n
  {
    hide Many;
    var s1 := s.(marked := s.marked - {t});
    MarksKeep(s, s1);
    ManyUpdate(s.pcs, t, Out, InCond());
    ManyUpdate(s.pcs, t, Returning(1), InCond());
    assert PcOk(s, t, s.pcs[t]);
    if Wake(s, t) != s1 {
      OthersOk(s1, Wake(s, t), t);
    }
  }

  /** Can thread t have the mutex at once? */
  predicate MayEnter(s: Cv, t: nat) { !s.mutex.locked || s.mutex.owner == Some(t) }

  /** A woken thread is out of its call with the mutex exactly when it can have that; a waiter is then not
      counted any more.  Otherwise it waits for the mutex, and is still counted as a waiter if it was.
      Nobody else is concerned, nor is the condition. */
  lemma {:induction false} WakeExactly(s: Cv, t: nat)
    requires Inv(s) && Legal(s, WakeStep(t))
    ensures var s' := Wake(s, t);
      && t !in s'.marked && s'.cond == s.cond && s'.marked == s.marked - {t} && s'.parked == s.parked
      && (forall u: nat :: u != t ==> At(s', u) == At(s, u) && Held(s', u) == Held(s, u))
      && (At(s', t).Out? <==> MayEnter(s, t))
      && (At(s', t).Out? ==> Held(s', t) == Held(s, t) + 1)
      && (!At(s', t).Out? ==> s'.mutex == s.mutex && (At(s, t).Wants? <==> At(s', t).Wants?) &&
                              (At(s', t).Wants? || At(s', t).Returning?))
      && s'.waiters == s.waiters - if At(s', t).Out? && !At(s, t).Wants? then 1 else 0
  {
    hide Many;
    assert PcOk(s, t, s.pcs[t]);
  }

  /** An acquisition succeeds at once exactly when the thread can have the mutex. */
  lemma {:induction false} AcquireExactly(s: Cv, t: nat)
    requires Inv(s) && At(s, t).Out?
    ensures var s' := Acquire(s, t);
      && (At(s', t).Out? <==> MayEnter(s, t)) && (At(s', t).Out? || At(s', t).Wants?)
      && Held(s', t) == Held(s, t) + (if MayEnter(s, t) then 1 else 0)
      && s' == s.(mutex := s'.mutex, pcs := s'.pcs)
      && forall u: nat :: u != t ==> At(s', u) == At(s, u) && Held(s', u) == Held(s, u)
  {
    hide Many;
  }

  /** A pass marks one of those who wait in the queue for the condition, all or none; those who wait for
      the mutex exactly when that is free; and those whose extra event has occurred. */
  lemma {:induction false} PassExactly(s: Cv, who: nat, extras: set<nat>)
    requires Inv(s) && Legal(s, PassStep(who, extras))
    ensures var s' := Pass(s, who, extras);
      var open := s.cond.signaled && (s.cond.broadcast || !s.cond.handled);
      && s' == s.(marked := s'.marked, cond := s'.cond, wakes := s'.wakes)
      && (forall t: nat :: t in s'.marked <==>
            || t in s.marked || t in extras
            || (At(s, t).Sleeping? && t !in s.parked && open && (s.cond.broadcast || t == who))
            || ((At(s, t).Wants? || At(s, t).Returning?) && t !in s.parked && !s.mutex.locked))
      && s'.cond == if open && Sleepers(s) != {} then CLEAR else s.cond
  {
    hide Many;
    if s.cond.signaled && (s.cond.broadcast || !s.cond.handled) && Sleepers(s) != {} {
      assert who in Chosen(s.cond, Sleepers(s), who);
    }
  }

  lemma {:induction false} PassKeeps(s: Cv, who: nat, extras: set<nat>)
    requires Inv(s)
    ensures Inv(Pass(s, who, extras))
  {
    hide Many, Sleepers;
    var s' := Pass(s, who, extras);
    forall u | u in s.pcs ensures PcOk(s', u, s.pcs[u]) { assert PcOk(s, u, s.pcs[u]); }
  }

  lemma {:induction false} StepKeeps(s: Cv, step: Step)
    requires Inv(s) && Legal(s, step)
    ensures Inv(Next(s, step))
  {
    hide Inv;
    match step {
      case AcquireStep(t) => AcquireKeeps(s, t);
      case ReleaseStep(t) => ReleaseKeeps(s, t);
      case AwaitStep(t, extra) => AwaitKeeps(s, t, extra);
      case NotifyStep(t, broadcast) => NotifyKeeps(s, t, broadcast);
      case ResumeStep(t) => ResumeKeeps(s, t);
      case WakeStep(t) => WakeKeeps(s, t);
      case ParkStep(_, u) => MarksKeep(s, Next(s, step));
      case UnparkStep(_, u) => MarksKeep(s, Next(s, step));
      case PassStep(who, extras) => PassKeeps(s, who, extras);
    }
  }

  // ---------------------------------------------------------------------------------------
  // Whole runs

  ghost predicate IsRun(ss: seq<Cv>, steps: seq<Step>) {
    && |ss| == |steps| + 1 && ss[0] == Init()
    && forall i :: 0 <= i < |steps| ==> Legal(ss[i], steps[i]) && ss[i + 1] == Next(ss[i], steps[i])
  }

  lemma {:induction false} InitInv()
    ensures Inv(Init())
  {
    assert Those(Init().pcs, InCond()) == {};
  }

  lemma {:induction false} RunKeeps(ss: seq<Cv>, steps: seq<Step>, k: nat)
    requires IsRun(ss, steps) && k <= |steps|
    ensures Inv(ss[k])
  {
    hide Inv;
    if k == 0 {
      InitInv();
    } else {
      RunKeeps(ss, steps, k - 1);
      StepKeeps(ss[k - 1], steps[k - 1]);
    }
  }

  /** How many plain notifications the first k steps sent. */
  function Sent(steps: seq<Step>, k: nat): nat
    requires k <= |steps|
  {
    if k == 0 then 0 else Sent(steps, k - 1) + if steps[k - 1].NotifyStep? && !steps[k - 1].broadcast then 1 else 0
  }

  lemma {:induction false} SentSoFar(ss: seq<Cv>, steps: seq<Step>, k: nat)
    requires IsRun(ss, steps) && k <= |steps|
    ensures ss[k].signals == Sent(steps, k)
  {
    if k > 0 {
      SentSoFar(ss, steps, k - 1);
      assert ss[k] == Next(ss[k - 1], steps[k - 1]);
    }
  }

  /** In every run plain notifications end no more waits than there are notifications, and the
      library counts as waiters exactly those inside a wait. */
  lemma {:induction false} AtMostOneEach(ss: seq<Cv>, steps: seq<Step>, k: nat)
    requires IsRun(ss, steps) && k <= |steps|
    ensures ss[k].wakes <= Sent(steps, k)
    ensures ss[k].waiters == Many(ss[k].pcs, InCond())
  {
    RunKeeps(ss, steps, k);
    SentSoFar(ss, steps, k);
  }

  /** A wait of thread t that begins at step i and ends at step k leaves t with the mutex as often
      as it held it before. */
  lemma {:induction false} AwaitRestores(ss: seq<Cv>, steps: seq<Step>, t: nat, i: nat, k: nat)
    requires IsRun(ss, steps) && i < k < |steps| && steps[i].AwaitStep? && steps[i].t == t && !ShortCut(ss[i])
    requires forall j :: i < j <= k ==> !At(ss[j], t).Out?
    requires At(ss[k + 1], t).Out?
    ensures Held(ss[k + 1], t) == Held(ss[i], t)
  {
    hide Inv;
    RunKeeps(ss, steps, k);
    Remembers(ss, steps, t, i, k);
    assert Legal(ss[k], steps[k]) && ss[k + 1] == Next(ss[k], steps[k]);
    assert steps[k] == WakeStep(t) by { Leaves(ss[k], steps[k], t); }
    WakeKeeps(ss[k], t);
  }

  /** While t waits, it remembers how often it held the mutex. */
  lemma {:induction false} Remembers(ss: seq<Cv>, steps: seq<Step>, t: nat, i: nat, k: nat)
    requires IsRun(ss, steps) && i < k < |steps| && steps[i].AwaitStep? && steps[i].t == t && !ShortCut(ss[i])
    requires forall j :: i < j <= k ==> !At(ss[j], t).Out?
    ensures (At(ss[k], t).Sleeping? || At(ss[k], t).Returning?) && At(ss[k], t).n == Held(ss[i], t)
    decreases k
  {
    hide Legal, Next;
    if i + 1 == k {
      Begins(ss[i], t, steps[i].extra);
      assert ss[k] == Next(ss[i], steps[i]);
    } else {
      Remembers(ss, steps, t, i, k - 1);
      assert Legal(ss[k - 1], steps[k - 1]) && ss[k] == Next(ss[k - 1], steps[k - 1]);
      Stays(ss[k - 1], steps[k - 1], t);
    }
  }

  lemma {:induction false} Begins(s: Cv, t: nat, extra: bool)
    requires !ShortCut(s)
    ensures At(Next(s, AwaitStep(t, extra)), t) == Sleeping(Held(s, t), extra)
  {
  }

  lemma {:induction false} Stays(s: Cv, step: Step, t: nat)
    requires Legal(s, step) && (At(s, t).Sleeping? || At(s, t).Returning?)
    ensures var pc := At(Next(s, step), t);
      pc.Out? || ((pc.Sleeping? || pc.Returning?) && pc.n == At(s, t).n)
  {
  }

  lemma {:induction false} Leaves(s: Cv, step: Step, t: nat)
    requires Legal(s, step) && (At(s, t).Sleeping? || At(s, t).Returning?) && At(Next(s, step), t).Out?
    ensures step == WakeStep(t)
  {
  }

  // ---------------------------------------------------------------------------------------
  // Notifications that outlive their waiters

  /** A notification that does something. */
  predicate Effective(s: Cv, step: Step) { step.NotifyStep? && s.waiters > 0 }

  /** A thread that stops running inside a call hands over to the scheduler, so that a pass follows
      before anybody runs again. */
  ghost predicate PassesFollow(ss: seq<Cv>, steps: seq<Step>)
    requires |ss| == |steps| + 1
  {
    forall i :: 0 <= i < |steps| && !steps[i].PassStep? && !At(ss[i + 1], steps[i].t).Out? ==>
      i + 1 < |steps| && steps[i + 1].PassStep?
  }

  /** The last notification in the first k steps that did something. */
  function Last(ss: seq<Cv>, steps: seq<Step>, k: nat): (r: Option<nat>)
    requires |ss| == |steps| + 1 && k <= |steps|
    ensures r.Some? ==> r.value < k && Effective(ss[r.value], steps[r.value])
    ensures forall i :: (if r.Some? then r.value else -1) < i < k ==> !Effective(ss[i], steps[i])
  {
    if k == 0 then None
    else if Effective(ss[k - 1], steps[k - 1]) then Some(k - 1)
    else Last(ss, steps, k - 1)
  }

  /** The last notification that did something found nobody in the waiting queue for the condition, no
      pass since has found anybody there, and no wait has begun since. */
  ghost predicate Stale(ss: seq<Cv>, steps: seq<Step>, k: nat)
    requires |ss| == |steps| + 1 && k <= |steps|
  {
    match Last(ss, steps, k)
    case None => false
    case Some(i) =>
      Sleepers(ss[i]) == {} &&
      forall j :: i < j < k ==> !steps[j].AwaitStep? && (steps[j].PassStep? ==> Sleepers(ss[j]) == {})
  }

  /** A pass that serves the condition ends the wait of t. */
  predicate Serves(s: Cv, step: Step, t: nat) {
    step.PassStep? && t in Chosen(s.cond, Sleepers(s), step.who)
  }

  /** The wait that begins at step k lasts until a pass at step j serves it, and nothing was notified
      in between. */
  ghost predicate EndsUnasked(ss: seq<Cv>, steps: seq<Step>, k: nat, j: nat)
    requires |ss| == |steps| + 1 && k < j < |steps| && steps[k].AwaitStep?
  {
    && Serves(ss[j], steps[j], steps[k].t)
    && forall i :: k < i <= j ==> At(ss[i], steps[k].t).Sleeping? && (i < j ==> !Effective(ss[i], steps[i]))
  }

  /** The wait that begins at step k is ended by a notification that was sent before it began: on
      the spot, or by a later pass. */
  ghost predicate EndedByOld(ss: seq<Cv>, steps: seq<Step>, k: nat)
    requires |ss| == |steps| + 1 && k < |steps| && steps[k].AwaitStep?
  {
    ShortCut(ss[k]) || exists j :: k < j < |steps| && EndsUnasked(ss, steps, k, j)
  }

  /** Only a notification, a wait that begins and a pass that finds a waiter change the flags. */
  lemma {:induction false} QuietStep(s: Cv, step: Step)
    requires Legal(s, step) && !Effective(s, step)
    ensures s.cond == CLEAR ==> Next(s, step).cond == CLEAR
    ensures !step.AwaitStep? && (step.PassStep? ==> Sleepers(s) == {}) ==> Next(s, step).cond == s.cond
  {
  }

  lemma {:induction false} NotifyFlags(s: Cv, step: Step)
    requires Legal(s, step) && Effective(s, step)
    ensures var s' := Next(s, step);
      && s'.cond == CondFlags(true, step.broadcast, false) && Sleepers(s') == Sleepers(s)
      && !At(s', step.t).Out?
  {
  }

  /** A pass that finds both a fresh notification and a waiter uses the notification up. */
  lemma {:induction false} PassFlags(s: Cv, step: Step)
    requires Legal(s, step) && step.PassStep? && s.cond.signaled && !s.cond.handled && Sleepers(s) != {}
    ensures Next(s, step).cond == CLEAR
  {
    assert step.who in Chosen(s.cond, Sleepers(s), step.who);
  }

  /** Marked and suspended threads are inside a wait. */
  ghost predicate MarkedWait(s: Cv) {
    forall t :: t in s.marked || t in s.parked ==> InCall(At(s, t))
  }

  lemma {:induction false} MarkedStep(s: Cv, step: Step)
    requires MarkedWait(s) && Legal(s, step)
    ensures MarkedWait(Next(s, step))
  {
  }

  lemma {:induction false} MarkedRun(ss: seq<Cv>, steps: seq<Step>, k: nat)
    requires IsRun(ss, steps) && k <= |steps|
    ensures MarkedWait(ss[k])
  {
    hide Next, Legal;
    if k > 0 {
      MarkedRun(ss, steps, k - 1);
      assert Legal(ss[k - 1], steps[k - 1]) && ss[k] == Next(ss[k - 1], steps[k - 1]);
      MarkedStep(ss[k - 1], steps[k - 1]);
    }
  }

  /** A wait that begins uses up a plain notification at once; otherwise the thread goes to sleep. */
  lemma {:induction false} AwaitFlags(s: Cv, step: Step)
    requires MarkedWait(s) && Legal(s, step) && step.AwaitStep?
    ensures var s' := Next(s, step);
      if ShortCut(s) then s'.cond == CLEAR && At(s', step.t).Out?
      else s'.cond == s.cond && At(s', step.t).Sleeping? && step.t in Sleepers(s')
  {
  }

  /** The step before k was a notification that did something or the beginning of a wait that lasts:
      a pass is about to come. */
  ghost predicate PassDue(ss: seq<Cv>, steps: seq<Step>, k: nat)
    requires |ss| == |steps| + 1 && k <= |steps|
  {
    k > 0 && (Effective(ss[k - 1], steps[k - 1]) || (steps[k - 1].AwaitStep? && !At(ss[k], steps[k - 1].t).Out?))
  }

  /** What the flags say before step k. */
  ghost predicate FlagsTell(ss: seq<Cv>, steps: seq<Step>, k: nat)
    requires |ss| == |steps| + 1 && k <= |steps|
  {
    if Stale(ss, steps, k) then
      ss[k].cond == CondFlags(true, steps[Last(ss, steps, k).value].broadcast, false)
    else if PassDue(ss, steps, k) then
      ss[k].cond == CLEAR || (ss[k].cond.signaled && !ss[k].cond.handled && Sleepers(ss[k]) != {})
    else ss[k].cond == CLEAR
  }

  lemma {:induction false} FlagsFollow(ss: seq<Cv>, steps: seq<Step>, k: nat)
    requires IsRun(ss, steps) && PassesFollow(ss, steps) && k <= |steps|
    ensures FlagsTell(ss, steps, k)
  {
    hide Next, Legal, Sleepers;
    if k > 0 {
      FlagsFollow(ss, steps, k - 1);
      FlagsStep(ss, steps, k - 1);
    }
  }

  lemma {:induction false} FlagsStep(ss: seq<Cv>, steps: seq<Step>, k: nat)
    requires IsRun(ss, steps) && PassesFollow(ss, steps) && k < |steps| && FlagsTell(ss, steps, k)
    ensures FlagsTell(ss, steps, k + 1)
  {
    hide Next, Legal, Sleepers;
    var s, step := ss[k], steps[k];
    assert Legal(s, step) && ss[k + 1] == Next(s, step);
    if Effective(s, step) {
      NotifyFlags(s, step);
    } else {
      QuietStep(s, step);
      if step.AwaitStep? {
        MarkedRun(ss, steps, k);
        AwaitFlags(s, step);
        assert !Stale(ss, steps, k + 1);
      } else {
        assert Stale(ss, steps, k + 1) ==> Stale(ss, steps, k);
      }
      if PassDue(ss, steps, k) {
        DueFollows(ss, steps, k);
      }
      if step.PassStep? && s.cond != CLEAR && Sleepers(s) != {} {
        PassFlags(s, step);
      }
    }
  }

  lemma {:induction false} DueFollows(ss: seq<Cv>, steps: seq<Step>, k: nat)
    requires IsRun(ss, steps) && PassesFollow(ss, steps) && k <= |steps| && PassDue(ss, steps, k)
    ensures k < |steps| && steps[k].PassStep?
  {
    hide Next, Legal;
    assert Legal(ss[k - 1], steps[k - 1]) && ss[k] == Next(ss[k - 1], steps[k - 1]);
    if Effective(ss[k - 1], steps[k - 1]) {
      NotifyFlags(ss[k - 1], steps[k - 1]);
    }
  }

  /** Flags that are not set stay so until somebody notifies. */
  lemma {:induction false} StaysClear(ss: seq<Cv>, steps: seq<Step>, k: nat, j: nat)
    requires IsRun(ss, steps) && k <= j <= |steps| && ss[k].cond == CLEAR
    requires forall i :: k <= i < j ==> !Effective(ss[i], steps[i])
    ensures ss[j].cond == CLEAR
    decreases j
  {
    hide Next, Legal, Sleepers;
    if k < j {
      StaysClear(ss, steps, k, j - 1);
      assert Legal(ss[j - 1], steps[j - 1]) && ss[j] == Next(ss[j - 1], steps[j - 1]);
      QuietStep(ss[j - 1], steps[j - 1]);
    }
  }

  /** In every run a wait is ended by a notification that was sent before it began exactly when the
      last notification that did anything, plain or broadcast, found nobody in the waiting queue for the
      condition, no pass since has found anybody there, and no wait has begun since. */
  lemma {:induction false} StaleExactly(ss: seq<Cv>, steps: seq<Step>, k: nat)
    requires IsRun(ss, steps) && PassesFollow(ss, steps) && k < |steps| && steps[k].AwaitStep?
    ensures EndedByOld(ss, steps, k) <==> Stale(ss, steps, k)
    ensures ss[k].cond.signaled <==> Stale(ss, steps, k)
  {
    hide Next, Legal, Sleepers;
    FlagsFollow(ss, steps, k);
    if PassDue(ss, steps, k) {
      DueFollows(ss, steps, k);
    } else if Stale(ss, steps, k) {
      StaleEnds(ss, steps, k);
    } else {
      forall j | k < j < |steps| ensures !EndsUnasked(ss, steps, k, j) {
        if EndsUnasked(ss, steps, k, j) {
          StaysClear(ss, steps, k, j);
        }
      }
    }
  }

  lemma {:induction false} StaleEnds(ss: seq<Cv>, steps: seq<Step>, k: nat)
    requires IsRun(ss, steps) && PassesFollow(ss, steps) && k < |steps| && steps[k].AwaitStep?
    requires ss[k].cond.signaled
    ensures EndedByOld(ss, steps, k)
  {
    hide Next, Sleepers;
    if !ShortCut(ss[k]) {
      MarkedRun(ss, steps, k);
      assert Legal(ss[k], steps[k]) && ss[k + 1] == Next(ss[k], steps[k]);
      AwaitFlags(ss[k], steps[k]);
      assert EndsUnasked(ss, steps, k, k + 1);
    }
  }

  // ---------------------------------------------------------------------------------------
  // Four runs in which that happens

  predicate Leads(s: Cv, step: Step, s': Cv) {
    Legal(s, step) && Next(s, step) == s'
  }

  lemma {:induction false} AsRun(ss: seq<Cv>, steps: seq<Step>)
    requires |ss| == |steps| + 1 && ss[0] == Init()
    requires forall i :: 0 <= i < |steps| ==> Leads(ss[i], steps[i], ss[i + 1])
    ensures IsRun(ss, steps)
  {
    hide Next, Legal;
    forall i | 0 <= i < |steps| ensures Legal(ss[i], steps[i]) && ss[i + 1] == Next(ss[i], steps[i]) {
      assert Leads(ss[i], steps[i], ss[i + 1]);
    }
  }

  function Flag(broadcast: bool): CondFlags { CondFlags(true, broadcast, false) }

  /** Thread 0 waits for the condition, thread 1 holds the mutex. */
  function Scene(c: CondFlags, extra: bool, other: Pc, marked: set<nat>, signals: nat, wakes: nat): Cv {
    Cv(M.Locked(1), c, 1, map[0 := Sleeping(1, extra), 1 := other], marked, {}, signals, wakes)
  }

  function SentBy(broadcast: bool): nat { if broadcast then 0 else 1 }

  /** Thread 0 begins to wait. */
  lemma {:induction false} WaitBegins(extra: bool) returns (s1: Cv, s2: Cv)
    ensures At(s1, 0).Out? && s2 == Cv(M.FREE, CLEAR, 1, map[0 := Sleeping(1, extra)], {}, {}, 0, 0)
    ensures Leads(Init(), AcquireStep(0), s1) && Leads(s1, AwaitStep(0, extra), s2)
  {
    s1 := Next(Init(), AcquireStep(0));
    s2 := Next(s1, AwaitStep(0, extra));
  }

  /** Thread 1 takes the mutex and notifies. */
  lemma {:induction false} FirstNotify(extra: bool, marked: set<nat>, broadcast: bool) returns (s1: Cv, s2: Cv)
    requires marked <= {0}
    ensures s1 == Cv(M.FREE, CLEAR, 1, map[0 := Sleeping(1, extra)], marked, {}, 0, 0)
    ensures Leads(s1, AcquireStep(1), s2) && At(s2, 1).Out?
    ensures Leads(s2, NotifyStep(1, broadcast), Scene(Flag(broadcast), extra, Yielding, marked, SentBy(broadcast), 0))
  {
    s1 := Cv(M.FREE, CLEAR, 1, map[0 := Sleeping(1, extra)], marked, {}, 0, 0);
    s2 := s1.(mutex := M.Locked(1));
  }

  /** A pass marks thread 0, and thread 1 goes on and notifies once more. */
  lemma {:induction false} SecondNotify(b: bool)
    ensures var n := SentBy(b);
      && Leads(Scene(Flag(b), false, Yielding, {}, n, 0), PassStep(0, {}), Scene(CLEAR, false, Yielding, {0}, n, n))
      && Leads(Scene(CLEAR, false, Yielding, {0}, n, n), ResumeStep(1), Scene(CLEAR, false, Out, {0}, n, n))
      && Leads(Scene(CLEAR, false, Out, {0}, n, n), NotifyStep(1, b), Scene(Flag(b), false, Yielding, {0}, 2 * n, n))
  {
    assert Sleepers(Scene(Flag(b), false, Yielding, {}, SentBy(b), 0)) == {0};
  }

  /** Nobody is left for that notification, and thread 1 goes on. */
  lemma {:induction false} NobodyLeft(b: bool, extra: bool, n: nat, w: nat)
    ensures Leads(Scene(Flag(b), extra, Yielding, {0}, n, w), PassStep(0, {}),
                  Scene(Flag(b), extra, Yielding, {0}, n, w))
    ensures Leads(Scene(Flag(b), extra, Yielding, {0}, n, w), ResumeStep(1), Scene(Flag(b), extra, Out, {0}, n, w))
    ensures Leads(Scene(Flag(false), extra, Out, {0}, n, w), AwaitStep(1, false),
                  Scene(CLEAR, extra, Out, {0}, n, w + 1))
  {
    assert Sleepers(Scene(Flag(b), extra, Yielding, {0}, n, w)) == {};
  }

  ghost predicate EndsStale(ss: seq<Cv>, steps: seq<Step>, k: nat) {
    && IsRun(ss, steps) && PassesFollow(ss, steps)
    && k < |steps| && steps[k] == AwaitStep(1, false) && EndedByOld(ss, steps, k)
  }

  /** A thread that notifies twice and then waits ends its own wait with its second signal. */
  lemma {:induction false} SelfNotified() returns (ss: seq<Cv>, steps: seq<Step>)
    ensures |steps| == 11 && EndsStale(ss, steps, 10)
  {
    hide Next, Legal, Leads, IsRun;
    steps := [AcquireStep(0), AwaitStep(0, false), PassStep(0, {}), AcquireStep(1), NotifyStep(1, false),
              PassStep(0, {}), ResumeStep(1), NotifyStep(1, false), PassStep(0, {}), ResumeStep(1),
              AwaitStep(1, false)];
    var s1, s2 := WaitBegins(false);
    IdlePass(s2);
    var s3, s4 := FirstNotify(false, {}, false);
    SecondNotify(false);
    NobodyLeft(false, false, 2, 1);
    var c := Flag(false);
    ss := [Init(), s1, s2, s3, s4, Scene(c, false, Yielding, {}, 1, 0), Scene(CLEAR, false, Yielding, {0}, 1, 1),
           Scene(CLEAR, false, Out, {0}, 1, 1), Scene(c, false, Yielding, {0}, 2, 1),
           Scene(c, false, Yielding, {0}, 2, 1),
           Scene(c, false, Out, {0}, 2, 1), Scene(CLEAR, false, Out, {0}, 2, 2)];
    forall i | 0 <= i < |steps| ensures Leads(ss[i], steps[i], ss[i + 1]) {}
    AsRun(ss, steps);
  }

  /** A wait as it is meant: thread 0 waits, thread 1 notifies, gives the mutex back, and thread 0 returns
      with the mutex. */
  lemma {:induction false} PlainWait() returns (ss: seq<Cv>, steps: seq<Step>)
    ensures IsRun(ss, steps) && PassesFollow(ss, steps) && |steps| == 9
    ensures steps[1] == AwaitStep(0, false) && steps[4] == NotifyStep(1, false) && steps[8] == WakeStep(0)
    ensures At(ss[9], 0).Out? && Held(ss[9], 0) == 1 && ss[9].waiters == 0 && ss[9].cond == CLEAR
  {
    hide Next, Legal, Leads, IsRun;
    steps := [AcquireStep(0), AwaitStep(0, false), PassStep(0, {}), AcquireStep(1), NotifyStep(1, false),
              PassStep(0, {}), ResumeStep(1), ReleaseStep(1), WakeStep(0)];
    var s1, s2 := WaitBegins(false);
    IdlePass(s2);
    var s3, s4 := FirstNotify(false, {}, false);
    SecondNotify(false);
    var s8, s9 := WaitEnds();
    ss := [Init(), s1, s2, s3, s4, Scene(Flag(false), false, Yielding, {}, 1, 0),
           Scene(CLEAR, false, Yielding, {0}, 1, 1), Scene(CLEAR, false, Out, {0}, 1, 1), s8, s9];
    forall i | 0 <= i < |steps| ensures Leads(ss[i], steps[i], ss[i + 1]) {}
    AsRun(ss, steps);
  }

  lemma {:induction false} WaitEnds() returns (s1: Cv, s2: Cv)
    ensures Leads(Scene(CLEAR, false, Out, {0}, 1, 1), ReleaseStep(1), s1) && Leads(s1, WakeStep(0), s2)
    ensures At(s1, 1).Out? && At(s2, 0).Out? && Held(s2, 0) == 1 && s2.waiters == 0 && s2.cond == CLEAR
  {
    s1 := Next(Scene(CLEAR, false, Out, {0}, 1, 1), ReleaseStep(1));
    s2 := Next(s1, WakeStep(0));
  }

  /** The same with broadcasts: the wait begins, and the next pass ends it. */
  lemma {:induction false} SelfBroadcast() returns (ss: seq<Cv>, steps: seq<Step>)
    ensures |steps| == 12 && EndsStale(ss, steps, 10)
  {
    hide Next, Legal, Leads, IsRun;
    steps := [AcquireStep(0), AwaitStep(0, false), PassStep(0, {}), AcquireStep(1), NotifyStep(1, true),
              PassStep(0, {}), ResumeStep(1), NotifyStep(1, true), PassStep(0, {}), ResumeStep(1), AwaitStep(1, false),
              PassStep(1, {})];
    var s1, s2 := WaitBegins(false);
    IdlePass(s2);
    var s3, s4 := FirstNotify(false, {}, true);
    SecondNotify(true);
    NobodyLeft(true, false, 0, 0);
    var s5, s6 := BroadcastWaits();
    var c := Flag(true);
    ss := [Init(), s1, s2, s3, s4, Scene(c, false, Yielding, {}, 0, 0), Scene(CLEAR, false, Yielding, {0}, 0, 0),
           Scene(CLEAR, false, Out, {0}, 0, 0), Scene(c, false, Yielding, {0}, 0, 0),
           Scene(c, false, Yielding, {0}, 0, 0),
           Scene(c, false, Out, {0}, 0, 0), s5, s6];
    forall i | 0 <= i < |steps| ensures Leads(ss[i], steps[i], ss[i + 1]) {}
    AsRun(ss, steps);
    assert EndsUnasked(ss, steps, 10, 11);
  }

  lemma {:induction false} BroadcastWaits() returns (s1: Cv, s2: Cv)
    ensures Leads(Scene(Flag(true), false, Out, {0}, 0, 0), AwaitStep(1, false), s1) && Leads(s1, PassStep(1, {}), s2)
    ensures At(s1, 1).Sleeping? && 1 in Sleepers(s1) && s1.cond == Flag(true)
  {
    s1 := Next(Scene(Flag(true), false, Out, {0}, 0, 0), AwaitStep(1, false));
    s2 := Next(s1, PassStep(1, {}));
  }

  /** A waiter that its extra event has taken out of the waiting queue is still counted: a single
      notification then ends the next wait. */
  lemma {:induction false} ExtraLeft() returns (ss: seq<Cv>, steps: seq<Step>)
    ensures |steps| == 8 && EndsStale(ss, steps, 7)
  {
    hide Next, Legal, Leads, IsRun;
    steps := [AcquireStep(0), AwaitStep(0, true), PassStep(0, {0}), AcquireStep(1), NotifyStep(1, false),
              PassStep(0, {}), ResumeStep(1), AwaitStep(1, false)];
    var s1, s2 := WaitBegins(true);
    var s3, s4 := FirstNotify(true, {0}, false);
    ExtraPass(s2);
    NobodyLeft(false, true, 1, 0);
    var c := Flag(false);
    ss := [Init(), s1, s2, s3, s4, Scene(c, true, Yielding, {0}, 1, 0), Scene(c, true, Yielding, {0}, 1, 0),
           Scene(c, true, Out, {0}, 1, 0), Scene(CLEAR, true, Out, {0}, 1, 1)];
    forall i | 0 <= i < |steps| ensures Leads(ss[i], steps[i], ss[i + 1]) {}
    AsRun(ss, steps);
  }

  /** Thread 0 waits and is suspended, thread 1 holds the mutex. */
  function Parked(c: CondFlags, other: Pc, signals: nat, wakes: nat): Cv {
    Scene(c, false, other, {}, signals, wakes).(parked := {0})
  }

  lemma {:induction false} ParkedPass(w: nat)
    ensures Leads(Parked(Flag(false), Yielding, 1, w), PassStep(0, {}), Parked(Flag(false), Yielding, 1, w))
    ensures Leads(Parked(Flag(false), Yielding, 1, w), ResumeStep(1), Parked(Flag(false), Out, 1, w))
    ensures Leads(Parked(Flag(false), Out, 1, w), AwaitStep(1, false), Parked(CLEAR, Out, 1, w + 1))
  {
    assert Sleepers(Parked(Flag(false), Yielding, 1, w)) == {};
  }

  lemma {:induction false} ParkedNotify() returns (s1: Cv, s2: Cv, s3: Cv)
    ensures s1 == Cv(M.FREE, CLEAR, 1, map[0 := Sleeping(1, false)], {}, {}, 0, 0)
    ensures Leads(s1, AcquireStep(1), s2) && Leads(s2, ParkStep(1, 0), s3) && At(s2, 1).Out? && At(s3, 1).Out?
    ensures Leads(s3, NotifyStep(1, false), Parked(Flag(false), Yielding, 1, 0))
  {
    s1 := Cv(M.FREE, CLEAR, 1, map[0 := Sleeping(1, false)], {}, {}, 0, 0);
    s2 := s1.(mutex := M.Locked(1));
    s3 := s2.(parked := {0});
  }

  /** A waiter that is suspended misses the notification although it still waits: it is counted, and
      the notification ends the next wait instead. */
  lemma {:induction false} SuspendedMisses() returns (ss: seq<Cv>, steps: seq<Step>)
    ensures |steps| == 9 && EndsStale(ss, steps, 8)
    ensures At(ss[9], 0).Sleeping? && 0 !in ss[9].marked
  {
    hide Next, Legal, Leads, IsRun;
    steps := [AcquireStep(0), AwaitStep(0, false), PassStep(0, {}), AcquireStep(1), ParkStep(1, 0),
              NotifyStep(1, false), PassStep(0, {}), ResumeStep(1), AwaitStep(1, false)];
    var s1, s2 := WaitBegins(false);
    IdlePass(s2);
    var s3, s4, s5 := ParkedNotify();
    ParkedPass(0);
    var c := Flag(false);
    ss := [Init(), s1, s2, s3, s4, s5, Parked(c, Yielding, 1, 0), Parked(c, Yielding, 1, 0), Parked(c, Out, 1, 0),
           Parked(CLEAR, Out, 1, 1)];
    forall i | 0 <= i < |steps| ensures Leads(ss[i], steps[i], ss[i + 1]) {}
    AsRun(ss, steps);
  }

  lemma {:induction false} ExtraPass(s: Cv)
    requires s == Cv(M.FREE, CLEAR, 1, map[0 := Sleeping(1, true)], {}, {}, 0, 0)
    ensures Leads(s, PassStep(0, {0}), s.(marked := {0}))
  {
  }

  lemma {:induction false} IdlePass(s: Cv)
    requires s.cond == CLEAR && !s.mutex.locked && Lockers(s) == {} && 0 in Sleepers(s)
    ensures Leads(s, PassStep(0, {}), s)
  {
  }
}
