/** The synchronization objects as the library keeps them: structures whose fields are changed in
    place, piece by piece between two switches to the scheduler.  In each class Perform does any
    step of the interleavings of modules Mutexes, CondVars, Barriers and RwLocks, so that whatever
    is proved about their runs holds for this code. */
module SyncObjects {
  import opened EventManager
  import opened Marking
  import M = Mutexes
  import B = Barriers
  import R = RwLocks
  import C = CondVars

  // ---------------------------------------------------------------------------------------
  // Mutexes with the rings of their owners

  class Locks {
    var mutexes: map<nat, M.Mutex>
    var rings: map<nat, seq<nat>>
    var pcs: map<nat, M.Pc>
    var marked: set<nat>
    var left: set<nat>

    ghost function View(): M.World
      reads this
    {
      M.World.World(mutexes, rings, pcs, marked, left)
    }

    ghost predicate Valid()
      reads this
    {
      M.Inv(View()) && M.WaitsOk(View())
    }

    /** Takes a free mutex and puts it into the ring of its new owner. */
    method Lock(t: nat, m: nat)
      requires m in mutexes
      modifies this
      ensures View() == M.Lock(old(View()), t, m)
    {
      mutexes := mutexes[m := mutexes[m].(locked := true, owner := Some(t), count := 1)];
      rings := rings[t := (if t in rings then rings[t] else []) + [m]];
      pcs := pcs[t := M.Outside];
    }

    method Acquire(t: nat, m: Option<nat>, tryonly: bool, extra: bool) returns (r: M.Report)
      requires m.Some? ==> m.value in mutexes
      modifies this
      ensures (View(), r) == M.Acquire(old(View()), t, m, tryonly, extra)
    {
      if m == None { return M.Refused(M.EINVAL); }
      var mx := mutexes[m.value];
      if !mx.initialized { return M.Refused(M.EDEADLK); }
      if !mx.locked {
        Lock(t, m.value);
        return M.Took(t, m.value);
      }
      if mx.count >= 1 && mx.owner == Some(t) {
        mutexes := mutexes[m.value := mx.(count := mx.count + 1)];
        return M.Took(t, m.value);
      }
      if tryonly { return M.Refused(M.EBUSY); }
      pcs := pcs[t := M.Wants(m.value, extra)];
      return M.Waits;
    }

    /** The wait loop, from one return of the wait to the next wait or the end. */
    method Wake(t: nat) returns (r: M.Report)
      requires t in pcs && pcs[t].Wants? && pcs[t].m in mutexes
      modifies this
      ensures (View(), r) == M.Wake(old(View()), t)
    {
      var m, pending := pcs[t].m, t in left;
      marked, left := marked - {t}, left - {t};
      if pending {
        pcs := pcs[t := M.Outside];
        return M.Refused(M.EINTR);
      }
      if mutexes[m].locked { return M.Waits; }
      Lock(t, m);
      return M.Took(t, m);
    }

    method Release(t: nat, m: Option<nat>) returns (r: M.Report)
      requires m.Some? ==> m.value in mutexes
      modifies this
      ensures (View(), r) == M.Release(old(View()), t, m)
    {
      if m == None { return M.Refused(M.EINVAL); }
      var mx := mutexes[m.value];
      if !mx.initialized || !mx.locked { return M.Refused(M.EDEADLK); }
      if mx.owner != Some(t) { return M.Refused(M.EACCES); }
      if mx.count - 1 <= 0 {
        mutexes := mutexes[m.value := mx.(locked := false, owner := None, count := 0)];
        rings := rings[t := M.Without(if t in rings then rings[t] else [], m.value)];
      } else {
        mutexes := mutexes[m.value := mx.(count := mx.count - 1)];
      }
      return M.Gave(t, m.value);
    }

    method Perform(step: M.Step) returns (r: M.Report)
      requires Valid() && M.Legal(View(), step)
      modifies this
      ensures Valid() && (View(), r) == M.Next(old(View()), step)
    {
      hide M.Inv, M.WaitsOk, M.Acquire, M.Release, M.Wake;
      M.StepKeeps(View(), step);
      match step {
        case AcquireStep(t, m, tryonly, extra) => r := Acquire(t, m, tryonly, extra);
        case ReleaseStep(t, m) => r := Release(t, m);
        case WakeStep(t) => r := Wake(t);
        case PassStep(extras) =>
          var free := set t | t in pcs && pcs[t].Wants? && pcs[t].m in mutexes && t !in marked && t !in left &&
                              !mutexes[pcs[t].m].locked;
          assert free == M.Free(View());
          marked, left := marked + free, left + (extras - free);
          r := M.Nothing;
      }
    }
  }

  // ---------------------------------------------------------------------------------------
  // The mutex inside another object, without the rings

  class MutexObject {
    var initialized: bool
    var locked: bool
    var owner: Option<nat>
    var count: int

    ghost function View(): M.Mutex
      reads this
    {
      M.Mutex.Mutex(initialized, locked, owner, count)
    }

    constructor ()
      ensures View() == M.FREE
    {
      initialized, locked, owner, count := true, false, None, 0;
    }

    /** Takes the mutex unless the caller has to wait for it. */
    method Enter(t: nat) returns (ok: bool)
      modifies this
      ensures ok == M.Enter(old(View()), t).Some?
      ensures View() == if ok then M.Enter(old(View()), t).value else old(View())
    {
      if !locked {
        locked := true;
        owner := Some(t);
        count := 1;
        return true;
      }
      if count >= 1 && owner == Some(t) {
        count := count + 1;
        return true;
      }
      return false;
    }

    method Leave(t: nat) returns (ok: bool)
      modifies this
      ensures ok == M.MayLeave(old(View()), t)
      ensures View() == M.Leave(old(View()), t)
    {
      if !initialized || !locked {
        return false;
      }
      if owner != Some(t) {
        return false;
      }
      count := count - 1;
      if count <= 0 {
        locked := false;
        owner := None;
        count := 0;
      }
      return true;
    }
  }

  // ---------------------------------------------------------------------------------------
  // Condition variables

  class CondObject {
    const mutex: MutexObject
    var cond: CondFlags
    var waiters: int
    var pcs: map<nat, C.Pc>
    var marked: set<nat>
    var parked: set<nat>
    ghost var signals: nat
    ghost var wakes: nat

    ghost function View(): C.Cv
      reads this, mutex
    {
      C.Cv.Cv(mutex.View(), cond, waiters, pcs, marked, parked, signals, wakes)
    }

    constructor ()
      ensures View() == C.Init() && fresh(mutex)
    {
      cond, waiters, pcs, marked, parked := CLEAR, 0, map[], {}, {};
      signals, wakes := 0, 0;
      mutex := new MutexObject();
    }

    /** True when the wait is over at once. */
    method Await(t: nat, extra: bool) returns (over: bool)
      modifies this, mutex
      ensures View() == C.Await(old(View()), t, extra) && over == C.ShortCut(old(View()))
    {
      if cond.signaled && !cond.broadcast {
        cond := CLEAR;
        wakes := wakes + 1;
        return true;
      }
      waiters := waiters + 1;
      var n := if mutex.owner == Some(t) then mutex.count else 0;
      var ok := mutex.Leave(t);
      pcs := pcs[t := C.Sleeping(n, extra)];
      return false;
    }

    method Notify(t: nat, broadcast: bool)
      modifies this
      ensures View() == C.Notify(old(View()), t, broadcast)
    {
      if !broadcast {
        signals := signals + 1;
      }
      if waiters > 0 {
        cond := CondFlags(true, broadcast, false);
        pcs := pcs[t := C.Yielding];
      }
    }

    method Wake(t: nat)
      modifies this, mutex
      ensures View() == C.Wake(old(View()), t)
    {
      marked := marked - {t};
      var pc := if t in pcs then pcs[t] else C.Out;
      match pc {
        case Wants =>
          if !mutex.locked {
            var ok := mutex.Enter(t);
            pcs := pcs[t := C.Out];
          }
        case Sleeping(n, _) =>
          var ok := mutex.Enter(t);
          if ok {
            waiters := waiters - 1;
            pcs := pcs[t := C.Out];
          } else {
            pcs := pcs[t := C.Returning(n)];
          }
        case Returning(n) =>
          if !mutex.locked {
            var ok := mutex.Enter(t);
            waiters := waiters - 1;
            pcs := pcs[t := C.Out];
          }
        case _ =>
      }
    }

    /** What the event manager does to those who wait here. */
    method Pass(who: nat, extras: set<nat>)
      modifies this
      ensures View() == C.Pass(old(View()), who, extras)
    {
      var sleepers := set t | t in pcs && pcs[t].Sleeping? && t !in marked && t !in parked;
      var lockers := set t | t in pcs && (pcs[t].Wants? || pcs[t].Returning?) && t !in parked;
      var woken := Chosen(cond, sleepers, who);
      if woken != {} && cond.signaled && !cond.broadcast {
        wakes := wakes + 1;
      }
      if !mutex.locked {
        marked := marked + lockers;
      }
      marked := marked + woken + extras;
      cond := FlagsAfter(cond, sleepers, who);
    }

    method Perform(step: C.Step)
      requires C.Inv(View()) && C.Legal(View(), step)
      modifies this, mutex
      ensures C.Inv(View()) && View() == C.Next(old(View()), step)
    {
      hide C.Inv, C.Await, C.Notify, C.Wake, C.Pass, C.Legal;
      C.StepKeeps(View(), step);
      match step {
        case AcquireStep(t) =>
          var ok := mutex.Enter(t);
          if !ok {
            pcs := pcs[t := C.Wants];
          }
        case ReleaseStep(t) => var ok := mutex.Leave(t);
        case AwaitStep(t, extra) => var over := Await(t, extra);
        case NotifyStep(t, broadcast) => Notify(t, broadcast);
        case ResumeStep(t) => pcs := pcs[t := C.Out];
        case WakeStep(t) => Wake(t);
        case ParkStep(_, u) => parked := parked + {u};
        case UnparkStep(_, u) => parked := parked - {u};
        case PassStep(who, extras) => Pass(who, extras);
      }
    }
  }

  // ---------------------------------------------------------------------------------------
  // Barriers

  class BarrierObject {
    const threshold: nat
    var count: int
    var cycle: bool
    const mutex: MutexObject
    var cond: CondFlags
    var waiters: int
    var pcs: map<nat, B.Pc>
    var marked: set<nat>
    ghost var gen: nat
    ghost var arrivals: nat
    ghost var log: seq<B.Exit>

    ghost function View(): B.Barrier
      reads this, mutex
    {
      B.Barrier.Barrier(threshold, count, cycle, mutex.View(), cond, waiters, pcs, marked, gen, arrivals, log)
    }

    constructor (threshold: nat)
      ensures View() == B.Init(threshold) && fresh(mutex)
    {
      this.threshold, count, cycle, cond, waiters, pcs, marked := threshold, threshold, false, CLEAR, 0, map[], {};
      gen, arrivals, log := 0, 0, [];
      mutex := new MutexObject();
    }

    method Finish(t: nat, ghost g: nat, ghost light: B.Light)
      modifies this, mutex
      ensures View() == B.Finish(old(View()), t, g, light)
    {
      var ok := mutex.Leave(t);
      pcs := pcs[t := B.Out];
      log := log + [B.Exit(t, g, light)];
    }

    /** The first half of pth_cond_await. */
    method Await(t: nat, g: nat, bit: bool)
      modifies this, mutex
      ensures View() == B.Await(old(View()), t, g, bit)
    {
      if cond.signaled && !cond.broadcast {
        cond := CLEAR;
      }
      waiters := waiters + 1;
      var ok := mutex.Leave(t);
      pcs := pcs[t := B.Sleeping(g, bit)];
    }

    method Arrive(t: nat, g: nat)
      requires g == gen
      modifies this, mutex
      ensures View() == B.Arrive(old(View()), t)
    {
      var bit := cycle;
      count := count - 1;
      arrivals := arrivals + 1;
      if count == 0 {
        cycle := !cycle;
        count := threshold;
        gen := gen + 1;
        if waiters > 0 {
          cond := CondFlags(true, true, false);
          pcs := pcs[t := B.Yielding(g)];
        } else {
          Finish(t, g, B.Tail);
        }
      } else {
        Await(t, g, bit);
      }
    }

    method Recheck(t: nat, g: nat, bit: bool)
      modifies this, mutex
      ensures View() == B.Recheck(old(View()), t, g, bit)
    {
      waiters := waiters - 1;
      if bit == cycle {
        Await(t, g, bit);
      } else {
        Finish(t, g, B.Plain);
      }
    }

    method Reach(t: nat, g: nat)
      requires g == gen
      modifies this, mutex
      ensures View() == B.Reach(old(View()), t)
    {
      var ok := mutex.Enter(t);
      if ok {
        Arrive(t, g);
      } else {
        pcs := pcs[t := B.Entering];
      }
    }

    method Wake(t: nat, g: nat)
      requires g == gen
      modifies this, mutex
      ensures View() == B.Wake(old(View()), t)
    {
      marked := marked - {t};
      var pc := if t in pcs then pcs[t] else B.Out;
      match pc {
        case Entering =>
          if !mutex.locked {
            var ok := mutex.Enter(t);
            Arrive(t, g);
          }
        case Sleeping(h, bit) =>
          var ok := mutex.Enter(t);
          if ok {
            Recheck(t, h, bit);
          } else {
            pcs := pcs[t := B.Returning(h, bit)];
          }
        case Returning(h, bit) =>
          if !mutex.locked {
            var ok := mutex.Enter(t);
            Recheck(t, h, bit);
          }
        case _ =>
      }
    }

    method Pass(who: nat)
      modifies this
      ensures View() == B.Pass(old(View()), who)
    {
      var sleepers := set t | t in pcs && pcs[t].Sleeping? && t !in marked;
      var lockers := set t | t in pcs && (pcs[t].Entering? || pcs[t].Returning?);
      if !mutex.locked {
        marked := marked + lockers;
      }
      marked := marked + Chosen(cond, sleepers, who);
      cond := FlagsAfter(cond, sleepers, who);
    }

    /** g is the generation that is being gathered. */
    method Perform(step: B.Step, g: nat)
      requires B.Inv(View()) && B.Legal(View(), step) && g == gen
      modifies this, mutex
      ensures B.Inv(View()) && View() == B.Next(old(View()), step)
    {
      hide B.Inv, B.Reach, B.Wake, B.Finish, B.Pass;
      B.StepKeeps(View(), step);
      match step {
        case ReachStep(t) => Reach(t, g);
        case WakeStep(t) => Wake(t, g);
        case ResumeStep(t) => Finish(t, pcs[t].g, B.Tail);
        case PassStep(who) => Pass(who);
      }
    }
  }

  // ---------------------------------------------------------------------------------------
  // Read-write locks

  class RwLockObject {
    const rd: MutexObject
    const rw: MutexObject
    var readers: int
    var mode: R.Mode
    var pcs: map<nat, R.Pc>

    ghost function View(): R.Lock
      reads this, rd, rw
    {
      R.Lock.Lock(rd.View(), rw.View(), readers, mode, pcs)
    }

    constructor (mode: R.Mode)
      ensures View() == R.Init(mode) && rd != rw && fresh(rd) && fresh(rw)
    {
      readers, pcs := 0, map[];
      this.mode := mode;
      rd := new MutexObject();
      rw := new MutexObject();
    }

    method Settle(t: nat)
      requires rd != rw
      modifies this, rd
      ensures View() == R.Settle(old(View()), t)
    {
      mode := R.RD;
      var ok := rd.Leave(t);
      pcs := pcs[t := R.Reading];
    }

    method Join(t: nat, tryonly: bool, extra: bool)
      requires rd != rw
      modifies this, rd, rw
      ensures View() == R.Join(old(View()), t, tryonly, extra)
    {
      readers := readers + 1;
      if readers == 1 {
        var ok := rw.Enter(t);
        if !ok {
          if tryonly {
            readers := readers - 1;
            ok := rd.Leave(t);
            pcs := pcs[t := R.Idle];
          } else {
            pcs := pcs[t := R.First(extra)];
          }
          return;
        }
      }
      Settle(t);
    }

    method Acquire(t: nat, op: R.Mode, tryonly: bool, extra: bool)
      requires rd != rw
      modifies this, rd, rw
      ensures View() == R.Acquire(old(View()), t, op, tryonly, extra)
    {
      if op == R.RW {
        var ok := rw.Enter(t);
        if ok {
          mode := R.RW;
          pcs := pcs[t := R.Writing];
        } else if !tryonly {
          pcs := pcs[t := R.WantsRW(extra)];
        }
      } else {
        var ok := rd.Enter(t);
        if ok {
          Join(t, tryonly, extra);
        } else if !tryonly {
          pcs := pcs[t := R.WantsRD(extra)];
        }
      }
    }

    method Drop(t: nat) returns (ok: bool)
      requires rd != rw
      modifies this, rd, rw
      ensures View() == R.Drop(old(View()), t)
      ensures ok ==> pcs == old(pcs)[t := R.Idle]
      ensures !ok ==> pcs == old(pcs)[t := R.Reading]
    {
      readers := readers - 1;
      if readers == 0 {
        ok := rw.Leave(t);
        if !ok {
          readers := readers + 1;
          var done := rd.Leave(t);
          pcs := pcs[t := R.Reading];
          return false;
        }
      }
      mode := R.RD;
      var done := rd.Leave(t);
      pcs := pcs[t := R.Idle];
      return true;
    }

    /** True unless the release is refused or has to wait. */
    method Release(t: nat) returns (ok: bool)
      requires rd != rw
      modifies this, rd, rw
      ensures View() == R.Release(old(View()), t)
      ensures ok ==> pcs == old(pcs)[t := R.Idle]
    {
      if mode == R.RW {
        ok := rw.Leave(t);
        if ok {
          pcs := pcs[t := R.Idle];
        }
      } else {
        ok := rd.Enter(t);
        if ok {
          ok := Drop(t);
        } else {
          pcs := pcs[t := R.Leaving];
        }
      }
    }

    method Wake(t: nat)
      requires rd != rw
      modifies this, rd, rw
      ensures View() == R.Wake(old(View()), t)
    {
      var pc := if t in pcs then pcs[t] else R.Idle;
      match pc {
        case WantsRW(_) =>
          if !rw.locked {
            var ok := rw.Enter(t);
            mode := R.RW;
            pcs := pcs[t := R.Writing];
          }
        case WantsRD(extra) =>
          if !rd.locked {
            var ok := rd.Enter(t);
            Join(t, false, extra);
          }
        case First(_) =>
          if !rw.locked {
            var ok := rw.Enter(t);
            Settle(t);
          }
        case Leaving =>
          if !rd.locked {
            var ok := rd.Enter(t);
            ok := Drop(t);
          }
        case _ =>
      }
    }

    /** The extra event ends a wait: the acquisition is given up. */
    method Interrupt(t: nat)
      requires rd != rw
      modifies this, rd
      ensures View() == R.Interrupt(old(View()), t)
    {
      var pc := if t in pcs then pcs[t] else R.Idle;
      match pc {
        case WantsRW(_) => pcs := pcs[t := R.Idle];
        case WantsRD(_) => pcs := pcs[t := R.Idle];
        case First(_) =>
          readers := readers - 1;
          var ok := rd.Leave(t);
          pcs := pcs[t := R.Idle];
        case _ =>
      }
    }

    /** As long as no owner of `rw` acquires for writing, the lock stays safe. */
    method Perform(step: R.Step)
      requires rd != rw && R.Inv(View()) && R.Legal(View(), step)
      modifies this, rd, rw
      ensures View() == R.Next(old(View()), step)
      ensures !R.OwnerWrites(old(View()), step) ==> R.Inv(View())
      ensures R.Safe(View()) <==> !R.OwnerWrites(old(View()), step)
    {
      hide R.Inv, R.Acquire, R.Release, R.Wake, R.Interrupt, R.Safe;
      R.OverlapExactly(View(), step);
      if !R.OwnerWrites(View(), step) {
        R.StepKeeps(View(), step);
      }
      match step {
        case AcquireStep(t, op, tryonly, extra) => Acquire(t, op, tryonly, extra);
        case ReleaseStep(t) => var ok := Release(t);
        case WakeStep(t) => Wake(t);
        case InterruptStep(t) => Interrupt(t);
      }
    }
  }
}
