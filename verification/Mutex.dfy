/** Mutexes: every thread runs undisturbed between two switches to the scheduler, so a call is one
    step unless it has to wait; the wait loop of an acquisition takes a step of its own for each
    time that the thread is woken.  All interleavings of such steps are considered. */
module Mutexes {
  import opened EventManager

  datatype Mutex = Mutex(initialized: bool, locked: bool, owner: Option<nat>, count: int)

  datatype Errno = EINVAL | EDEADLK | EBUSY | EACCES | EINTR

  /** Where a thread stands: outside, or waiting for a mutex, perhaps along with an extra event. */
  datatype Pc = Outside | Wants(m: nat, extra: bool)

  /** A pass has taken the marked threads out of the waiting queue because their mutex was free, and
      those in `left` because of their extra event alone. */
  datatype World = World(
    mutexes: map<nat, Mutex>, rings: map<nat, seq<nat>>, pcs: map<nat, Pc>, marked: set<nat>, left: set<nat>)

  /** NULL for a mutex is None. */
  datatype Step =
    | AcquireStep(t: nat, m: Option<nat>, tryonly: bool, extra: bool)
    | WakeStep(t: nat)
    | ReleaseStep(t: nat, m: Option<nat>)
    | PassStep(extras: set<nat>)

  datatype Report = Nothing | Took(t: nat, m: nat) | Gave(t: nat, m: nat) | Refused(error: Errno) | Waits

  function RingOf(w: World, t: nat): seq<nat> {
    if t in w.rings then w.rings[t] else []
  }

  function PcOf(w: World, t: nat): Pc {
    if t in w.pcs then w.pcs[t] else Outside
  }

  function Without(ring: seq<nat>, m: nat): seq<nat> {
    if ring == [] then []
    else if ring[0] == m then ring[1..]
    else [ring[0]] + Without(ring[1..], m)
  }

  lemma {:induction false} WithoutBag(ring: seq<nat>, m: nat)
    ensures multiset(Without(ring, m)) == multiset(ring) - multiset{m}
  {
    if ring != [] {
      assert ring == [ring[0]] + ring[1..];
      if ring[0] != m {
        WithoutBag(ring[1..], m);
      }
    }
  }

  // ---------------------------------------------------------------------------------------
  // The steps

  /** The end of a successful acquisition of an unlocked mutex. */
  function Lock(w: World, t: nat, m: nat): World
    requires m in w.mutexes
  {
    w.(mutexes := w.mutexes[m := w.mutexes[m].(locked := true, owner := Some(t), count := 1)],
       rings := w.rings[t := RingOf(w, t) + [m]],
       pcs := w.pcs[t := Outside])
  }

  /** The end of the last release. */
  function Unlock(w: World, t: nat, m: nat): World
    requires m in w.mutexes
  {
    w.(mutexes := w.mutexes[m := w.mutexes[m].(locked := false, owner := None, count := 0)],
       rings := w.rings[t := Without(RingOf(w, t), m)])
  }

  function Acquire(w: World, t: nat, m: Option<nat>, tryonly: bool, extra: bool): (World, Report)
    requires m.Some? ==> m.value in w.mutexes
  {
    if m.None? then (w, Refused(EINVAL))
    else
      var mx := w.mutexes[m.value];
      if !mx.initialized then (w, Refused(EDEADLK))
      else if !mx.locked then (Lock(w, t, m.value), Took(t, m.value))
      else if mx.count >= 1 && mx.owner == Some(t) then
        (w.(mutexes := w.mutexes[m.value := mx.(count := mx.count + 1)]), Took(t, m.value))
      else if tryonly then (w, Refused(EBUSY))
      else (w.(pcs := w.pcs[t := Wants(m.value, extra)]), Waits)
  }

  /** The wait returns: the event occurred, or only the extra one did.  In between others may have
      run, so the mutex is looked at again in the first case. */
  function Wake(w: World, t: nat): (World, Report)
    requires PcOf(w, t).Wants? && PcOf(w, t).m in w.mutexes
  {
    var m, w1 := PcOf(w, t).m, w.(marked := w.marked - {t}, left := w.left - {t});
    if t in w.left then (w1.(pcs := w.pcs[t := Outside]), Refused(EINTR))
    else if w.mutexes[m].locked then (w1, Waits)
    else (Lock(w1, t, m), Took(t, m))
  }

  function Release(w: World, t: nat, m: Option<nat>): (World, Report)
    requires m.Some? ==> m.value in w.mutexes
  {
    if m.None? then (w, Refused(EINVAL))
    else
      var mx := w.mutexes[m.value];
      if !mx.initialized || !mx.locked then (w, Refused(EDEADLK))
      else if mx.owner != Some(t) then (w, Refused(EACCES))
      else if mx.count - 1 <= 0 then
        (Unlock(w, t, m.value), Gave(t, m.value))
      else (w.(mutexes := w.mutexes[m.value := mx.(count := mx.count - 1)]), Gave(t, m.value))
  }

  /** The thread is in the waiting queue for its mutex. */
  predicate InQueue(w: World, t: nat) {
    t in w.pcs && w.pcs[t].Wants? && w.pcs[t].m in w.mutexes && t !in w.marked && t !in w.left
  }

  /** Those in the waiting queue whose mutex is free. */
  function Free(w: World): set<nat> {
    set t | t in w.pcs && InQueue(w, t) && !w.mutexes[w.pcs[t].m].locked
  }

  /** One pass of the event manager: everybody in the queue whose mutex is free is marked, and those
      others leave whose extra event has occurred. */
  function Pass(w: World, extras: set<nat>): World {
    w.(marked := w.marked + Free(w), left := w.left + (extras - Free(w)))
  }

  /** A thread calls only while it is not inside another call, with a mutex that exists, and it is
      woken only when one of its events occurred. */
  predicate Legal(w: World, step: Step) {
    match step
    case AcquireStep(t, m, _, _) => PcOf(w, t) == Outside && (m.Some? ==> m.value in w.mutexes)
    case ReleaseStep(t, m) => PcOf(w, t) == Outside && (m.Some? ==> m.value in w.mutexes)
    case WakeStep(t) =>
      PcOf(w, t).Wants? && PcOf(w, t).m in w.mutexes && (t in w.marked || t in w.left)
    case PassStep(extras) => forall t :: t in extras ==> InQueue(w, t) && w.pcs[t].extra
  }

  function Next(w: World, step: Step): (World, Report)
    requires Legal(w, step)
  {
    match step
    case AcquireStep(t, m, tryonly, extra) => Acquire(w, t, m, tryonly, extra)
    case ReleaseStep(t, m) => Release(w, t, m)
    case WakeStep(t) => Wake(w, t)
    case PassStep(extras) => (Pass(w, extras), Nothing)
  }

  // ---------------------------------------------------------------------------------------
  // One mutex on its own, as condition variables, barriers and read-write locks use theirs

  const FREE: Mutex := Mutex.Mutex(true, false, None, 0)

  function Locked(t: nat): Mutex { Mutex.Mutex(true, true, Some(t), 1) }

  /** The mutex once thread t has it, if it does not have to wait. */
  function Enter(mx: Mutex, t: nat): Option<Mutex> {
    if !mx.locked then Some(mx.(locked := true, owner := Some(t), count := 1))
    else if mx.count >= 1 && mx.owner == Some(t) then Some(mx.(count := mx.count + 1))
    else None
  }

  predicate MayLeave(mx: Mutex, t: nat) {
    mx.initialized && mx.locked && mx.owner == Some(t)
  }

  function Leave(mx: Mutex, t: nat): Mutex {
    if !MayLeave(mx, t) then mx
    else if mx.count - 1 <= 0 then mx.(locked := false, owner := None, count := 0)
    else mx.(count := mx.count - 1)
  }

  // ---------------------------------------------------------------------------------------
  // What every state has in common

  ghost predicate Consistent(mx: Mutex) {
    && (mx.locked <==> mx.count >= 1)
    && (mx.locked <==> mx.owner.Some?)
    && (mx.locked ==> mx.initialized)
    && mx.count >= 0
  }

  /** How often mutex m is in the ring of thread t. */
  ghost function InRing(w: World, t: nat, m: nat): nat {
    multiset(RingOf(w, t))[m]
  }

  predicate Owns(w: World, t: nat, m: nat) {
    m in w.mutexes && w.mutexes[m].owner == Some(t)
  }

  /** A mutex is locked exactly when its count is positive, exactly when it is once in the ring of
      its owner, and it is in no other ring. */
  ghost predicate Inv(w: World) {
    && (forall m :: m in w.mutexes ==> Consistent(w.mutexes[m]))
    && (forall t: nat, m: nat :: InRing(w, t, m) == if Owns(w, t, m) then 1 else 0)
  }

  /** The number of times that thread t holds mutex m. */
  function Held(w: World, t: nat, m: nat): int {
    if Owns(w, t, m) then w.mutexes[m].count else 0
  }

  lemma {:induction false} LockRings(w: World, t: nat, m: nat, u: nat, n: nat)
    requires m in w.mutexes
    ensures InRing(Lock(w, t, m), u, n) == InRing(w, u, n) + if u == t && n == m then 1 else 0
  {
    if u == t {
      assert multiset(RingOf(Lock(w, t, m), u)) == multiset(RingOf(w, u)) + multiset{m};
    }
  }

  lemma {:induction false} LockKeeps(w: World, t: nat, m: nat)
    requires Inv(w) && m in w.mutexes && w.mutexes[m].initialized && !w.mutexes[m].locked
    ensures Inv(Lock(w, t, m))
    ensures forall u, n :: Held(Lock(w, t, m), u, n) == Held(w, u, n) + if u == t && n == m then 1 else 0
  {
    hide InRing;
    var w' := Lock(w, t, m);
    assert Consistent(w.mutexes[m]);
    forall u: nat, n: nat ensures InRing(w', u, n) == if Owns(w', u, n) then 1 else 0 {
      LockRings(w, t, m, u, n);
      assert InRing(w, u, n) == if Owns(w, u, n) then 1 else 0;
    }
  }

  lemma {:induction false} UnlockRings(w: World, t: nat, m: nat, u: nat, n: nat)
    requires m in w.mutexes && InRing(w, t, m) == 1
    ensures InRing(Unlock(w, t, m), u, n) == InRing(w, u, n) - if u == t && n == m then 1 else 0
  {
    hide Without;
    if u == t {
      WithoutBag(RingOf(w, t), m);
      assert multiset(RingOf(Unlock(w, t, m), u)) == multiset(RingOf(w, u)) - multiset{m};
    }
  }

  lemma {:induction false} UnlockKeeps(w: World, t: nat, m: nat)
    requires Inv(w) && Owns(w, t, m) && w.mutexes[m].count == 1
    ensures Inv(Unlock(w, t, m))
    ensures forall u, n :: Held(Unlock(w, t, m), u, n) == Held(w, u, n) - if u == t && n == m then 1 else 0
  {
    hide InRing, Without;
    var w' := Unlock(w, t, m);
    assert Consistent(w.mutexes[m]);
    assert InRing(w, t, m) == 1;
    forall u: nat, n: nat ensures InRing(w', u, n) == if Owns(w', u, n) then 1 else 0 {
      UnlockRings(w, t, m, u, n);
      assert InRing(w, u, n) == if Owns(w, u, n) then 1 else 0;
    }
  }

  /** A release works exactly for the thread that holds the mutex, and takes one acquisition back. */
  lemma {:induction false} ReleaseKeeps(w: World, t: nat, m: Option<nat>)
    requires Inv(w) && (m.Some? ==> m.value in w.mutexes)
    ensures Inv(Release(w, t, m).0)
    ensures var (w', r) := Release(w, t, m);
      && (r.Gave? <==> m.Some? && Held(w, t, m.value) > 0)
      && (r.Gave? ==> r == Gave(t, m.value))
      && (!r.Gave? ==> w' == w)
      && (!r.Gave? ==>
            r == Refused(if m.None? then EINVAL else if !w.mutexes[m.value].locked then EDEADLK else EACCES))
      && forall u, n :: Held(w', u, n) == Held(w, u, n) - if r == Gave(u, n) then 1 else 0
  {
    hide InRing, Unlock;
    if m.Some? {
      assert Consistent(w.mutexes[m.value]);
      if Release(w, t, m).1.Gave? {
        if w.mutexes[m.value].count == 1 {
          UnlockKeeps(w, t, m.value);
        } else {
          SameRings(w, Release(w, t, m).0);
        }
      }
    }
  }

  ghost predicate HeldByOther(w: World, t: nat, m: nat) {
    m in w.mutexes && exists u: nat :: u != t && Held(w, u, m) > 0
  }

  lemma {:induction false} FreeMeans(w: World, m: nat)
    requires Inv(w) && m in w.mutexes
    ensures !w.mutexes[m].locked <==> forall u: nat :: Held(w, u, m) == 0
  {
    assert Consistent(w.mutexes[m]);
    if w.mutexes[m].locked {
      assert Held(w, w.mutexes[m].owner.value, m) > 0;
    }
  }

  lemma {:induction false} HolderIs(w: World, t: nat, m: nat)
    requires Inv(w) && m in w.mutexes
    ensures HeldByOther(w, t, m) <==> w.mutexes[m].locked && w.mutexes[m].owner != Some(t)
  {
    assert Consistent(w.mutexes[m]);
    if w.mutexes[m].locked {
      assert Held(w, w.mutexes[m].owner.value, m) > 0;
    }
  }

  lemma {:induction false} AcquireKeeps(w: World, t: nat, m: Option<nat>, tryonly: bool, extra: bool)
    requires Inv(w) && (m.Some? ==> m.value in w.mutexes)
    ensures Inv(Acquire(w, t, m, tryonly, extra).0)
    ensures var (w', r) := Acquire(w, t, m, tryonly, extra);
      && (r.Took? <==> m.Some? && w.mutexes[m.value].initialized &&
                       (!w.mutexes[m.value].locked || w.mutexes[m.value].owner == Some(t)))
      && (r.Took? ==> r == Took(t, m.value))
      && (r == Waits <==> m.Some? && !tryonly && HeldByOther(w, t, m.value))
      && (r == Refused(EBUSY) <==> m.Some? && tryonly && HeldByOther(w, t, m.value))
      && (r == Refused(EINVAL) <==> m.None?)
      && (r == Refused(EDEADLK) <==> m.Some? && !w.mutexes[m.value].initialized)
      && (r == Waits ==> w' == w.(pcs := w.pcs[t := Wants(m.value, extra)]))
      && (r.Refused? ==> w' == w)
      && forall u, n :: Held(w', u, n) == Held(w, u, n) + if r == Took(u, n) then 1 else 0
  {
    hide RingOf;
    var (w', r) := Acquire(w, t, m, tryonly, extra);
    if m.Some? {
      assert Consistent(w.mutexes[m.value]);
      HolderIs(w, t, m.value);
      if w.mutexes[m.value].initialized && !w.mutexes[m.value].locked {
        LockKeeps(w, t, m.value);
      } else {
        SameRings(w, w');
      }
    }
  }

  /** Counts and program counters may change without touching the rings. */
  lemma {:induction false} SameRings(w: World, w': World)
    requires Inv(w) && w'.rings == w.rings && w'.mutexes.Keys == w.mutexes.Keys
    requires forall m :: m in w.mutexes ==> w'.mutexes[m].(count := w.mutexes[m].count) == w.mutexes[m]
    requires forall m :: m in w.mutexes ==> w'.mutexes[m].count == w.mutexes[m].count ||
                                            (w.mutexes[m].count >= 1 && w'.mutexes[m].count >= 1)
    ensures Inv(w')
  {
    forall u: nat, n: nat ensures InRing(w', u, n) == InRing(w, u, n) && Owns(w', u, n) == Owns(w, u, n) {}
  }

  /** A thread that comes back from its wait gives up exactly when only its extra event occurred;
      otherwise it takes the mutex exactly when nobody holds it, and waits again exactly when somebody
      does.  It is not marked any more. */
  lemma {:induction false} WakeKeeps(w: World, t: nat)
    requires Inv(w) && PcOf(w, t).Wants? && PcOf(w, t).m in w.mutexes && w.mutexes[PcOf(w, t).m].initialized
    ensures Inv(Wake(w, t).0)
    ensures var (w', r) := Wake(w, t);
      var free := forall u: nat :: Held(w, u, PcOf(w, t).m) == 0;
      && (r == Refused(EINTR) <==> t in w.left)
      && (r == Took(t, PcOf(w, t).m) <==> t !in w.left && free)
      && (r == Waits <==> t !in w.left && !free)
      && (r == Refused(EINTR) || r == Took(t, PcOf(w, t).m) || r == Waits)
      && PcOf(w', t) == (if r == Waits then PcOf(w, t) else Outside)
      && (r == Waits ==> InQueue(w', t))
      && forall u, n :: Held(w', u, n) == Held(w, u, n) + if r == Took(u, n) then 1 else 0
  {
    hide RingOf;
    var w1 := w.(marked := w.marked - {t}, left := w.left - {t});
    SameRings(w, w1);
    FreeMeans(w, PcOf(w, t).m);
    if Wake(w, t).1.Took? {
      LockKeeps(w1, t, PcOf(w, t).m);
    } else {
      SameRings(w, Wake(w, t).0);
    }
  }

  /** Nobody waits for a mutex that was never initialized. */
  ghost predicate WaitsOk(w: World) {
    forall t :: t in w.pcs && w.pcs[t].Wants? && w.pcs[t].m in w.mutexes ==> w.mutexes[w.pcs[t].m].initialized
  }

  lemma {:induction false} StepKeeps(w: World, step: Step)
    requires Inv(w) && WaitsOk(w) && Legal(w, step)
    ensures Inv(Next(w, step).0) && WaitsOk(Next(w, step).0)
    ensures var (w', r) := Next(w, step);
      forall u, n :: Held(w', u, n) ==
                     Held(w, u, n) + (if r == Took(u, n) then 1 else 0) - (if r == Gave(u, n) then 1 else 0)
  {
    hide Inv, Held;
    match step {
      case AcquireStep(t, m, tryonly, extra) => AcquireKeeps(w, t, m, tryonly, extra);
      case ReleaseStep(t, m) => ReleaseKeeps(w, t, m);
      case WakeStep(t) => WakeKeeps(w, t);
      case PassStep(extras) => PassKeeps(w, extras);
    }
  }

  lemma {:induction false} PassKeeps(w: World, extras: set<nat>)
    requires Inv(w)
    ensures Inv(Pass(w, extras))
    ensures forall u, n :: Held(Pass(w, extras), u, n) == Held(w, u, n)
  {
    hide Free;
    SameRings(w, Pass(w, extras));
  }

  // ---------------------------------------------------------------------------------------
  // Whole runs

  ghost predicate IsRun(ws: seq<World>, steps: seq<Step>) {
    && |ws| == |steps| + 1
    && forall i :: 0 <= i < |steps| ==> Legal(ws[i], steps[i]) && ws[i + 1] == Next(ws[i], steps[i]).0
  }

  function ReportAt(ws: seq<World>, steps: seq<Step>, i: nat): Report
    requires i < |steps| < |ws| && Legal(ws[i], steps[i])
  {
    Next(ws[i], steps[i]).1
  }

  /** Acquisitions minus releases of mutex m by thread t in the first k steps. */
  ghost function Balance(ws: seq<World>, steps: seq<Step>, t: nat, m: nat, k: nat): int
    requires IsRun(ws, steps) && k <= |steps|
  {
    if k == 0 then 0
    else
      var r := ReportAt(ws, steps, k - 1);
      Balance(ws, steps, t, m, k - 1) + (if r == Took(t, m) then 1 else 0) - (if r == Gave(t, m) then 1 else 0)
  }

  lemma {:induction false} RunKeeps(ws: seq<World>, steps: seq<Step>, k: nat)
    requires IsRun(ws, steps) && Inv(ws[0]) && WaitsOk(ws[0]) && k <= |steps|
    ensures Inv(ws[k]) && WaitsOk(ws[k])
  {
    if k > 0 {
      RunKeeps(ws, steps, k - 1);
      StepKeeps(ws[k - 1], steps[k - 1]);
    }
  }

  /** What a thread holds is what it acquired and did not release yet: n acquisitions need n
      releases by the same thread. */
  lemma {:induction false} HeldIsBalance(ws: seq<World>, steps: seq<Step>, t: nat, m: nat, k: nat)
    requires IsRun(ws, steps) && Inv(ws[0]) && WaitsOk(ws[0]) && k <= |steps|
    ensures Held(ws[k], t, m) == Held(ws[0], t, m) + Balance(ws, steps, t, m, k)
  {
    hide Inv, WaitsOk, Held;
    if k > 0 {
      HeldIsBalance(ws, steps, t, m, k - 1);
      RunKeeps(ws, steps, k - 1);
      StepKeeps(ws[k - 1], steps[k - 1]);
    }
  }

  ghost predicate NothingHeld(w: World) {
    forall t, m :: Held(w, t, m) == 0
  }

  /** Two threads never both have acquisitions of one mutex that they did not release. */
  lemma {:induction false} MutualExclusion(ws: seq<World>, steps: seq<Step>, t: nat, u: nat, m: nat, k: nat)
    requires IsRun(ws, steps) && Inv(ws[0]) && WaitsOk(ws[0]) && NothingHeld(ws[0]) && k <= |steps|
    requires Balance(ws, steps, t, m, k) > 0 && Balance(ws, steps, u, m, k) > 0
    ensures t == u
  {
    HeldIsBalance(ws, steps, t, m, k);
    HeldIsBalance(ws, steps, u, m, k);
  }

  lemma {:induction false} HolderStays(ws: seq<World>, steps: seq<Step>, t: nat, m: nat, i: nat, k: nat)
    requires IsRun(ws, steps) && Inv(ws[0]) && WaitsOk(ws[0]) && i <= k <= |steps| && Held(ws[i], t, m) > 0
    requires forall j :: i <= j < k ==> ReportAt(ws, steps, j) != Gave(t, m)
    ensures Held(ws[k], t, m) > 0
    decreases k
  {
    hide Inv, WaitsOk, Held;
    if i < k {
      HolderStays(ws, steps, t, m, i, k - 1);
      RunKeeps(ws, steps, k - 1);
      StepKeeps(ws[k - 1], steps[k - 1]);
      assert ReportAt(ws, steps, k - 1) != Gave(t, m);
    }
  }

  /** However many waiters a pass marked, the mutex goes to one of them: as long as nobody releases
      it, all that take it are one and the same thread. */
  lemma {:induction false} OneOfTheMarked(ws: seq<World>, steps: seq<Step>, t: nat, u: nat, m: nat, i: nat, k: nat)
    requires IsRun(ws, steps) && Inv(ws[0]) && WaitsOk(ws[0]) && i < k < |steps|
    requires ReportAt(ws, steps, i) == Took(t, m) && ReportAt(ws, steps, k) == Took(u, m)
    requires forall j :: i < j < k ==> ReportAt(ws, steps, j) != Gave(t, m)
    ensures t == u
  {
    RunKeeps(ws, steps, i);
    RunKeeps(ws, steps, i + 1);
    StepKeeps(ws[i], steps[i]);
    TakenIsHeld(ws[i], steps[i], t, m);
    HolderStays(ws, steps, t, m, i + 1, k);
    RunKeeps(ws, steps, k);
    RunKeeps(ws, steps, k + 1);
    StepKeeps(ws[k], steps[k]);
    TakenIsHeld(ws[k], steps[k], u, m);
  }

  lemma {:induction false} TakenIsHeld(w: World, step: Step, t: nat, m: nat)
    requires Inv(w) && WaitsOk(w) && Legal(w, step) && Next(w, step).1 == Took(t, m)
    ensures Held(Next(w, step).0, t, m) > 0
    ensures forall u: nat :: u != t ==> Held(w, u, m) == 0
  {
    hide Consistent, RingOf;
    StepKeeps(w, step);
    assert Held(w, t, m) >= 0 by { HeldNat(w, t, m); }
    match step {
      case AcquireStep(_, n, tryonly, extra) => AcquireKeeps(w, step.t, n, tryonly, extra);
      case WakeStep(_) => WakeKeeps(w, step.t);
      case _ =>
    }
    UnlockedNotHeld(w, m);
  }

  lemma {:induction false} HeldNat(w: World, t: nat, m: nat)
    requires Inv(w)
    ensures Held(w, t, m) >= 0
  {
    if m in w.mutexes { assert Consistent(w.mutexes[m]); }
  }

  lemma {:induction false} UnlockedNotHeld(w: World, m: nat)
    requires Inv(w)
    ensures m in w.mutexes && !w.mutexes[m].locked ==> forall u: nat :: Held(w, u, m) == 0
  {
    if m in w.mutexes { assert Consistent(w.mutexes[m]); }
  }

  /** A thread that was marked stays so, in its wait, until it is woken. */
  lemma {:induction false} MarkStays(w: World, step: Step, t: nat, m: nat)
    requires Legal(w, step) && step != WakeStep(t)
    requires PcOf(w, t).Wants? && PcOf(w, t).m == m && m in w.mutexes && t in w.marked && t !in w.left
    ensures var w' := Next(w, step).0;
      PcOf(w', t) == PcOf(w, t) && m in w'.mutexes && t in w'.marked && t !in w'.left
  {
  }

  lemma {:induction false} MarkedUntil(ws: seq<World>, steps: seq<Step>, i: nat, k: nat, t: nat, m: nat)
    requires IsRun(ws, steps) && i <= k <= |steps|
    requires PcOf(ws[i], t).Wants? && PcOf(ws[i], t).m == m && m in ws[i].mutexes
    requires t in ws[i].marked && t !in ws[i].left
    requires forall j :: i <= j < k ==> steps[j] != WakeStep(t)
    ensures PcOf(ws[k], t) == PcOf(ws[i], t) && m in ws[k].mutexes && t in ws[k].marked && t !in ws[k].left
    decreases k
  {
    hide Next, Legal;
    if i < k {
      MarkedUntil(ws, steps, i, k - 1, t, m);
      assert Legal(ws[k - 1], steps[k - 1]) && ws[k] == Next(ws[k - 1], steps[k - 1]).0;
      MarkStays(ws[k - 1], steps[k - 1], t, m);
    }
  }

  /** A mutex that nobody holds stays so until somebody takes it. */
  lemma {:induction false} FreeUntil(ws: seq<World>, steps: seq<Step>, i: nat, k: nat, m: nat)
    requires IsRun(ws, steps) && Inv(ws[0]) && WaitsOk(ws[0]) && i <= k <= |steps|
    requires forall u: nat :: Held(ws[i], u, m) == 0
    requires forall j :: i <= j < k ==> !(ReportAt(ws, steps, j).Took? && ReportAt(ws, steps, j).m == m)
    ensures forall u: nat :: Held(ws[k], u, m) == 0
    decreases k
  {
    hide Inv, WaitsOk, Held;
    if i < k {
      FreeUntil(ws, steps, i, k - 1, m);
      RunKeeps(ws, steps, k - 1);
      RunKeeps(ws, steps, k);
      StepKeeps(ws[k - 1], steps[k - 1]);
      var r := ReportAt(ws, steps, k - 1);
      forall u: nat ensures Held(ws[k], u, m) == 0 {
        HeldNat(ws[k], u, m);
        assert r != Took(u, m);
      }
    }
  }

  /** The mutex is handed over: a thread that waits for a mutex which a pass finds free has it when it is
      woken, exactly when nobody else has taken it in between and kept it. */
  lemma {:induction false} HandOver(ws: seq<World>, steps: seq<Step>, i: nat, k: nat, t: nat, m: nat)
    requires IsRun(ws, steps) && Inv(ws[0]) && WaitsOk(ws[0]) && i < k < |steps|
    requires InQueue(ws[i], t) && ws[i].pcs[t].m == m && (forall u: nat :: Held(ws[i], u, m) == 0)
    requires steps[i].PassStep? && steps[k] == WakeStep(t) && forall j :: i < j < k ==> steps[j] != WakeStep(t)
    ensures ReportAt(ws, steps, k) == Took(t, m) <==> forall u: nat :: Held(ws[k], u, m) == 0
    ensures ReportAt(ws, steps, k) == Took(t, m) || ReportAt(ws, steps, k) == Waits
    ensures (forall j :: i < j < k ==> !(ReportAt(ws, steps, j).Took? && ReportAt(ws, steps, j).m == m)) ==>
              ReportAt(ws, steps, k) == Took(t, m) && Held(ws[k + 1], t, m) == 1
  {
    hide Next, Inv, Held, WaitsOk;
    RunKeeps(ws, steps, i);
    RunKeeps(ws, steps, k);
    FreeMeans(ws[i], m);
    assert ws[i + 1] == Next(ws[i], steps[i]).0;
    PassMarks(ws[i], steps[i], t);
    MarkedUntil(ws, steps, i + 1, k, t, m);
    Initialized(ws[k], t);
    assert ws[k + 1] == Next(ws[k], steps[k]).0;
    WakeReports(ws[k], t);
    if forall j :: i < j < k ==> !(ReportAt(ws, steps, j).Took? && ReportAt(ws, steps, j).m == m) {
      RunKeeps(ws, steps, i + 1);
      StepKeeps(ws[i], steps[i]);
      PassReports(ws[i], steps[i]);
      var w1 := ws[i + 1];
      forall u: nat ensures Held(w1, u, m) == 0 {}
      FreeUntil(ws, steps, i + 1, k, m);
    }
  }

  lemma {:induction false} PassMarks(w: World, step: Step, t: nat)
    requires Legal(w, step) && step.PassStep? && InQueue(w, t) && !w.mutexes[w.pcs[t].m].locked
    ensures var w' := Next(w, step).0;
      t in w'.marked && t !in w'.left && PcOf(w', t) == PcOf(w, t) && w'.mutexes == w.mutexes
  {
  }

  lemma {:induction false} PassReports(w: World, step: Step)
    requires Legal(w, step) && step.PassStep?
    ensures Next(w, step).1 == Nothing
  {
  }

  lemma {:induction false} Initialized(w: World, t: nat)
    requires WaitsOk(w) && PcOf(w, t).Wants? && PcOf(w, t).m in w.mutexes
    ensures w.mutexes[PcOf(w, t).m].initialized
  {
  }

  lemma {:induction false} WakeReports(w: World, t: nat)
    requires Inv(w) && Legal(w, WakeStep(t)) && t !in w.left && w.mutexes[PcOf(w, t).m].initialized
    ensures var (w', r) := Next(w, WakeStep(t));
      var m := PcOf(w, t).m;
      && (r == Took(t, m) <==> forall u: nat :: Held(w, u, m) == 0) && (r == Took(t, m) || r == Waits)
      && (r == Took(t, m) ==> Held(w', t, m) == 1)
  {
    hide Inv, Held, Wake;
    WakeKeeps(w, t);
  }

  // ---------------------------------------------------------------------------------------
  // Releasing everything at the end of a thread

  lemma {:induction false} WithoutAt(ring: seq<nat>, k: nat)
    requires k < |ring| && forall i :: 0 <= i < k ==> ring[i] != ring[k]
    ensures Without(ring, ring[k]) == ring[..k] + ring[k + 1..]
  {
    if k > 0 {
      var rest := ring[1..];
      assert forall i :: 0 <= i < |rest| ==> rest[i] == ring[i + 1];
      WithoutAt(rest, k - 1);
      assert rest[k..] == ring[k + 1..];
      assert ring[..k] == [ring[0]] + rest[..k - 1];
    }
  }

  /** What is in a ring is held once by that thread, and sits there once. */
  lemma {:induction false} RingFacts(w: World, t: nat, i: nat)
    requires Inv(w) && i < |RingOf(w, t)|
    ensures var m := RingOf(w, t)[i];
      && Owns(w, t, m) && w.mutexes[m].count >= 1 && w.mutexes[m].initialized
      && InRing(w, t, m) == 1
      && (forall j :: 0 <= j < |RingOf(w, t)| && j != i ==> RingOf(w, t)[j] != m)
  {
    var r := RingOf(w, t);
    var m := r[i];
    assert m in multiset(r);
    assert InRing(w, t, m) == if Owns(w, t, m) then 1 else 0;
    assert Consistent(w.mutexes[m]);
    forall j | 0 <= j < |r| && j != i ensures r[j] != m {
      var a, b := if i < j then i else j, if i < j then j else i;
      assert r == r[..a] + [r[a]] + r[a + 1..b] + [r[b]] + r[b + 1..];
    }
  }

  /** Releasing the mutex at index i of the ring. */
  lemma {:induction false} ReleaseAt(w: World, t: nat, i: nat)
    requires Inv(w) && i < |RingOf(w, t)|
    ensures var r := RingOf(w, t);
      && r[i] in w.mutexes
      && var w' := Release(w, t, Some(r[i])).0;
      && Inv(w')
      && RingOf(w', t) == (if w.mutexes[r[i]].count == 1 then r[..i] + r[i + 1..] else r)
      && (forall u, n :: Held(w', u, n) == Held(w, u, n) - if u == t && n == r[i] then 1 else 0)
  {
    hide Inv;
    var r := RingOf(w, t);
    RingFacts(w, t, i);
    ReleaseKeeps(w, t, Some(r[i]));
    WithoutAt(r, i);
  }

  /** The walk over the ring of an exiting thread, at index i.  Taking out the node under the hook
      moves the hook to the node that the walk would visit next, which ends the walk. */
  function ReleaseFrom(w: World, t: nat, i: nat): World
    requires Inv(w) && i < |RingOf(w, t)|
    decreases |RingOf(w, t)| - i
  {
    var r := RingOf(w, t);
    ReleaseAt(w, t, i);
    var w' := Release(w, t, Some(r[i])).0;
    if RingOf(w', t) == r then (if i + 1 < |r| then ReleaseFrom(w', t, i + 1) else w')
    else if i > 0 && i < |RingOf(w', t)| then ReleaseFrom(w', t, i)
    else w'
  }

  function ReleaseAll(w: World, t: nat): World
    requires Inv(w)
  {
    if RingOf(w, t) == [] then w else ReleaseFrom(w, t, 0)
  }

  lemma {:induction false} ReleaseRest(w: World, t: nat, i: nat)
    requires Inv(w) && 0 < i < |RingOf(w, t)|
    ensures var w' := ReleaseFrom(w, t, i);
      && Inv(w')
      && (forall u, n :: Held(w', u, n) == Held(w, u, n) - if u == t && n in RingOf(w, t)[i..] then 1 else 0)
    decreases |RingOf(w, t)| - i
  {
    hide Inv, Held, Release, RingOf;
    var r := RingOf(w, t);
    ReleaseAt(w, t, i);
    RingFacts(w, t, i);
    var w1 := Release(w, t, Some(r[i])).0;
    assert r[i..] == [r[i]] + r[i + 1..];
    if RingOf(w1, t) == r {
      if i + 1 < |r| {
        ReleaseRest(w1, t, i + 1);
      }
    } else {
      assert (r[..i] + r[i + 1..])[i..] == r[i + 1..];
      if i < |RingOf(w1, t)| {
        ReleaseRest(w1, t, i);
      }
    }
  }

  /** Only the first mutex is released when its last acquisition is; otherwise every mutex in the
      ring is released once. */
  lemma {:induction false} ReleaseAllEffect(w: World, t: nat)
    requires Inv(w) && RingOf(w, t) != []
    ensures var r, w' := RingOf(w, t), ReleaseAll(w, t);
      && Inv(w') && r[0] in w.mutexes
      && (forall u, n :: Held(w', u, n) == Held(w, u, n) -
            if u == t && (if Held(w, t, r[0]) == 1 then n == r[0] else n in r) then 1 else 0)
  {
    hide Inv, Release, RingOf;
    var r := RingOf(w, t);
    ReleaseAt(w, t, 0);
    RingFacts(w, t, 0);
    var w1 := Release(w, t, Some(r[0])).0;
    assert r == [r[0]] + r[1..];
    if RingOf(w1, t) == r && 1 < |r| {
      ReleaseRest(w1, t, 1);
    }
  }

  /** An exiting thread gives all its mutexes back exactly when it holds none, or only one, once. */
  lemma {:induction false} ReleaseAllEmpties(w: World, t: nat)
    requires Inv(w)
    ensures RingOf(ReleaseAll(w, t), t) == [] <==>
      RingOf(w, t) == [] || (|RingOf(w, t)| == 1 && Held(w, t, RingOf(w, t)[0]) == 1)
  {
    hide Release, InRing, ReleaseFrom;
    var r, w' := RingOf(w, t), ReleaseAll(w, t);
    if r != [] {
      ReleaseAllEffect(w, t);
      RingFacts(w, t, 0);
      if |r| > 1 || Held(w, t, r[0]) > 1 {
        var k := if Held(w, t, r[0]) > 1 then 0 else 1;
        RingFacts(w, t, k);
        HeldInRing(w', t, r[k]);
      } else if RingOf(w', t) != [] {
        var n := RingOf(w', t)[0];
        RingFacts(w', t, 0);
        HeldInRing(w, t, n);
      }
    }
  }

  lemma {:induction false} HeldInRing(w: World, t: nat, m: nat)
    requires Inv(w) && Held(w, t, m) > 0
    ensures m in RingOf(w, t)
  {
    assert InRing(w, t, m) == 1;
  }

  /** Two mutexes held once each: the second one stays locked when the thread is gone. */
  lemma {:induction false} ReleaseAllForgets(w: World, t: nat, a: nat, b: nat)
    requires Inv(w) && a != b && RingOf(w, t) == [a, b] && Held(w, t, a) == 1
    ensures Held(ReleaseAll(w, t), t, b) == Held(w, t, b) >= 1
  {
    ReleaseAllEffect(w, t);
    RingFacts(w, t, 1);
  }

  function TwoFree(): World {
    World(map[0 := FREE, 1 := FREE], map[], map[], {}, {})
  }

  lemma {:induction false} TwoFreeInv()
    ensures Inv(TwoFree()) && WaitsOk(TwoFree()) && NothingHeld(TwoFree())
  {
  }

  /** A thread takes two free mutexes and exits: the second one stays locked. */
  lemma {:induction false} ForgottenLock() returns (ws: seq<World>, steps: seq<Step>)
    ensures IsRun(ws, steps) && ws[0] == TwoFree() && |steps| == 2 && Inv(ws[2])
    ensures RingOf(ws[2], 0) == [0, 1] && Held(ReleaseAll(ws[2], 0), 0, 1) == 1
  {
    hide Inv, WaitsOk, NothingHeld, ReleaseAll;
    steps := [AcquireStep(0, Some(0), false, false), AcquireStep(0, Some(1), false, false)];
    var w1 := Next(TwoFree(), steps[0]).0;
    var w2 := Next(w1, steps[1]).0;
    ws := [TwoFree(), w1, w2];
    TwoFreeInv();
    RunKeeps(ws, steps, 2);
    ReleaseAllForgets(w2, 0, 0, 1);
  }

  /** Thread 1 waits for a mutex that thread 0 holds, and has it when thread 0 has given it back. */
  lemma {:induction false} Contended() returns (ws: seq<World>, steps: seq<Step>)
    ensures IsRun(ws, steps) && ws[0] == TwoFree() && |steps| == 5 && steps[4] == WakeStep(1)
    ensures Held(ws[2], 0, 0) == 1 && PcOf(ws[2], 1) == Wants(0, false)
    ensures ReportAt(ws, steps, 4) == Took(1, 0) && Held(ws[5], 1, 0) == 1
  {
    var w1, w2 := ContendedStart();
    var w3, w4, w5 := ContendedEnd(w2);
    steps := [AcquireStep(0, Some(0), false, false), AcquireStep(1, Some(0), false, false), ReleaseStep(0, Some(0)),
              PassStep({}), WakeStep(1)];
    ws := [TwoFree(), w1, w2, w3, w4, w5];
    hide Next, Legal;
  }

  lemma {:induction false} ContendedStart() returns (w1: World, w2: World)
    ensures Legal(TwoFree(), AcquireStep(0, Some(0), false, false))
    ensures Next(TwoFree(), AcquireStep(0, Some(0), false, false)).0 == w1
    ensures Legal(w1, AcquireStep(1, Some(0), false, false))
    ensures Next(w1, AcquireStep(1, Some(0), false, false)).0 == w2
    ensures 0 in w2.mutexes && w2.mutexes[0] == Locked(0) && PcOf(w2, 0) == Outside && PcOf(w2, 1) == Wants(0, false)
    ensures w2.pcs.Keys == {0, 1} && w2.marked == {} && w2.left == {}
  {
    w1 := Next(TwoFree(), AcquireStep(0, Some(0), false, false)).0;
    w2 := Next(w1, AcquireStep(1, Some(0), false, false)).0;
  }

  lemma {:induction false} ContendedEnd(w2: World) returns (w3: World, w4: World, w5: World)
    requires 0 in w2.mutexes && w2.mutexes[0] == Locked(0) && PcOf(w2, 0) == Outside && PcOf(w2, 1) == Wants(0, false)
    requires w2.pcs.Keys == {0, 1} && w2.marked == {} && w2.left == {}
    ensures Legal(w2, ReleaseStep(0, Some(0))) && Next(w2, ReleaseStep(0, Some(0))).0 == w3
    ensures Legal(w3, PassStep({})) && Next(w3, PassStep({})).0 == w4
    ensures Legal(w4, WakeStep(1)) && Next(w4, WakeStep(1)) == (w5, Took(1, 0)) && Held(w5, 1, 0) == 1
  {
    w3 := Next(w2, ReleaseStep(0, Some(0))).0;
    w4 := Next(w3, PassStep({})).0;
    assert 1 in w4.marked;
    w5 := Next(w4, WakeStep(1)).0;
  }
}
