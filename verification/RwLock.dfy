/** Read-write locks: the interleavings of threads that acquire and release one lock for reading or
    writing.  The mutex `rw` excludes writers; the first reader takes it for all readers, and the
    mutex `rd` guards the number of readers meanwhile. */
module RwLocks {
  import opened EventManager
  import Mutexes
  import opened Counting

  datatype Mode = RD | RW

  /** Where a thread is: not using the lock, waiting for `rw` to write or for `rd` to read, waiting
      for `rw` as the first reader with `rd` in its hands, holding the lock, or waiting for `rd` on
      the way out.  A wait may be given up when an extra event occurs. */
  datatype Pc =
    | Idle
    | WantsRW(extra: bool)
    | WantsRD(extra: bool)
    | First(extra: bool)
    | Reading
    | Writing
    | Leaving

  datatype Lock = Lock(rd: Mutexes.Mutex, rw: Mutexes.Mutex, readers: int, mode: Mode, pcs: map<nat, Pc>)

  datatype Step =
    | AcquireStep(t: nat, op: Mode, tryonly: bool, extra: bool)
    | WakeStep(t: nat)
    | InterruptStep(t: nat)
    | ReleaseStep(t: nat)

  function At(s: Lock, t: nat): Pc {
    if t in s.pcs then s.pcs[t] else Idle
  }

  function Goes(s: Lock, t: nat, pc: Pc): Lock {
    s.(pcs := s.pcs[t := pc])
  }

  /** The mode of a lock that nobody used yet is not set; it is read by nobody then. */
  function Init(mode: Mode): Lock {
    Lock(Mutexes.FREE, Mutexes.FREE, 0, mode, map[])
  }

  // ---------------------------------------------------------------------------------------
  // The pieces of acquire and release between two switches to the scheduler

  function Wrote(s: Lock, t: nat): Lock {
    Goes(s.(mode := RW), t, Writing)
  }

  /** A reader is in: it gives `rd` back. */
  function Settle(s: Lock, t: nat): Lock {
    Goes(s.(mode := RD, rd := Mutexes.Leave(s.rd, t)), t, Reading)
  }

  /** A first reader that did not get `rw` backs out. */
  function Undo(s: Lock, t: nat): Lock {
    Goes(s.(readers := s.readers - 1, rd := Mutexes.Leave(s.rd, t)), t, Idle)
  }

  /** A reader that holds `rd` counts itself, and the first one goes for `rw`. */
  function Join(s: Lock, t: nat, tryonly: bool, extra: bool): Lock {
    var s1 := s.(readers := s.readers + 1);
    if s1.readers != 1 then Settle(s1, t)
    else
      match Mutexes.Enter(s1.rw, t)
      case Some(mx) => Settle(s1.(rw := mx), t)
      case None => if tryonly then Undo(s1, t) else Goes(s1, t, First(extra))
  }

  function Acquire(s: Lock, t: nat, op: Mode, tryonly: bool, extra: bool): Lock {
    match op
    case RW =>
      (match Mutexes.Enter(s.rw, t)
       case Some(mx) => Wrote(s.(rw := mx), t)
       case None => if tryonly then s else Goes(s, t, WantsRW(extra)))
    case RD =>
      (match Mutexes.Enter(s.rd, t)
       case Some(mx) => Join(s.(rd := mx), t, tryonly, extra)
       case None => if tryonly then s else Goes(s, t, WantsRD(extra)))
  }

  /** A reader that holds `rd` again leaves.  Only the owner of `rw` can give that back, so for
      anybody else being last fails and the reader stays in. */
  function Drop(s: Lock, t: nat): Lock {
    var s1 := s.(readers := s.readers - 1);
    if s1.readers != 0 then Goes(s1.(mode := RD, rd := Mutexes.Leave(s.rd, t)), t, Idle)
    else if Mutexes.MayLeave(s.rw, t) then
      Goes(s1.(mode := RD, rw := Mutexes.Leave(s.rw, t), rd := Mutexes.Leave(s.rd, t)), t, Idle)
    else Goes(s1.(readers := s.readers, rd := Mutexes.Leave(s.rd, t)), t, Reading)
  }

  function Release(s: Lock, t: nat): Lock {
    match s.mode
    case RW => if Mutexes.MayLeave(s.rw, t) then Goes(s.(rw := Mutexes.Leave(s.rw, t)), t, Idle) else s
    case RD =>
      match Mutexes.Enter(s.rd, t)
      case Some(mx) => Drop(s.(rd := mx), t)
      case None => Goes(s, t, Leaving)
  }

  /** The wait for a mutex returns and the mutex is looked at again. */
  function Wake(s: Lock, t: nat): Lock {
    match At(s, t)
    case WantsRW(_) => if s.rw.locked then s else Wrote(s.(rw := Mutexes.Enter(s.rw, t).value), t)
    case WantsRD(extra) => if s.rd.locked then s else Join(s.(rd := Mutexes.Enter(s.rd, t).value), t, false, extra)
    case First(_) => if s.rw.locked then s else Settle(s.(rw := Mutexes.Enter(s.rw, t).value), t)
    case Leaving => if s.rd.locked then s else Drop(s.(rd := Mutexes.Enter(s.rd, t).value), t)
    case _ => s
  }

  function Interrupt(s: Lock, t: nat): Lock {
    match At(s, t)
    case WantsRW(_) => Goes(s, t, Idle)
    case WantsRD(_) => Goes(s, t, Idle)
    case First(_) => Undo(s, t)
    case _ => s
  }

  /** No thread nests acquisitions, and only those that hold the lock release it. */
  predicate Legal(s: Lock, step: Step) {
    match step
    case AcquireStep(t, _, _, _) => At(s, t).Idle?
    case ReleaseStep(t) => At(s, t).Reading? || At(s, t).Writing?
    case WakeStep(t) => !At(s, t).Idle? && !At(s, t).Reading? && !At(s, t).Writing?
    case InterruptStep(t) =>
      (At(s, t).WantsRW? || At(s, t).WantsRD? || At(s, t).First?) && At(s, t).extra
  }

  function Next(s: Lock, step: Step): Lock {
    match step
    case AcquireStep(t, op, tryonly, extra) => Acquire(s, t, op, tryonly, extra)
    case ReleaseStep(t) => Release(s, t)
    case WakeStep(t) => Wake(s, t)
    case InterruptStep(t) => Interrupt(s, t)
  }

  // ---------------------------------------------------------------------------------------
  // Safety

  function InRead(): Pc -> bool { (pc: Pc) => pc.Reading? }

  function Readers(s: Lock): nat { Many(s.pcs, InRead()) }

  /** No writer overlaps a reader or another writer. */
  ghost predicate Safe(s: Lock) {
    forall t, u :: t in s.pcs && u in s.pcs && s.pcs[t].Writing? && (s.pcs[u].Writing? || s.pcs[u].Reading?) ==> t == u
  }

  ghost predicate Pending(s: Lock) {
    && (forall t :: t in s.pcs && s.pcs[t].First? ==> s.rd == Mutexes.Locked(t))
    && (s.rd == Mutexes.FREE || exists t :: t in s.pcs && s.pcs[t].First? && s.rd == Mutexes.Locked(t))
    && (s.rd != Mutexes.FREE ==> Readers(s) == 0)
    && (forall t :: t in s.pcs ==> !s.pcs[t].Leaving?)
  }

  /** The number of readers is that of the settled ones plus at most one that is pending, and the
      mode names the kind of the threads that hold the lock. */
  ghost predicate Inv(s: Lock) {
    && Pending(s)
    && s.readers == Readers(s) + (if s.rd == Mutexes.FREE then 0 else 1)
    && (s.rw == Mutexes.FREE || (s.rw.owner.Some? && s.rw == Mutexes.Locked(s.rw.owner.value)))
    && (Readers(s) > 0 ==> s.rw.locked && s.mode == RD)
    && (forall t :: t in s.pcs && s.pcs[t].Writing? ==> s.rw == Mutexes.Locked(t) && s.mode == RW && Readers(s) == 0)
    && (s.rw.locked ==> Readers(s) > 0 || At(s, s.rw.owner.value).Writing?)
  }

  /** The one step that goes wrong: a write acquisition by a thread that owns `rw` already, because
      it was the first reader and left before the others. */
  predicate OwnerWrites(s: Lock, step: Step) {
    step.AcquireStep? && step.op == RW && s.rw.owner == Some(step.t)
  }

  lemma {:induction false} InvSafe(s: Lock)
    requires Inv(s)
    ensures Safe(s)
  {
    hide Many;
    Somebody(s.pcs, InRead());
    forall t, u | t in s.pcs && u in s.pcs && s.pcs[t].Writing? && (s.pcs[u].Writing? || s.pcs[u].Reading?)
      ensures t == u
    {
      assert InRead()(s.pcs[u]) <==> s.pcs[u].Reading?;
    }
  }

  lemma {:induction false} Moves(s: Lock, t: nat, pc: Pc)
    ensures Readers(Goes(s, t, pc)) ==
      Readers(s) - (if At(s, t).Reading? then 1 else 0) + (if pc.Reading? then 1 else 0)
    ensures At(s, t).Reading? ==> Readers(s) > 0
  {
    hide Many;
    ManyUpdate(s.pcs, t, pc, InRead());
    Somebody(s.pcs, InRead());
    assert At(s, t).Reading? ==> InRead()(s.pcs[t]);
  }

  lemma {:induction false} WriteKeeps(s: Lock, t: nat, tryonly: bool, extra: bool)
    requires Inv(s) && At(s, t).Idle? && s.rw.owner != Some(t)
    ensures Inv(Acquire(s, t, RW, tryonly, extra))
  {
    hide Many;
    Moves(s, t, Writing);
    Moves(s, t, WantsRW(extra));
  }

  lemma {:induction false} FirstKeeps(s: Lock, t: nat, extra: bool)
    requires Inv(s) && s.rd == Mutexes.FREE && (At(s, t).Idle? || At(s, t).WantsRD?) && s.readers == 0
    ensures Inv(Goes(s.(readers := 1, rd := Mutexes.Locked(t)), t, First(extra)))
  {
    hide Many;
    Moves(s, t, First(extra));
    var s' := Goes(s.(readers := 1, rd := Mutexes.Locked(t)), t, First(extra));
    assert s'.pcs[t].First? && s'.rd == Mutexes.Locked(t);
  }

  lemma {:induction false} JoinKeeps(s: Lock, t: nat, tryonly: bool, extra: bool)
    requires Inv(s) && s.rd == Mutexes.FREE && (At(s, t).Idle? || At(s, t).WantsRD?)
    ensures Inv(Join(s.(rd := Mutexes.Locked(t)), t, tryonly, extra))
  {
    hide Many;
    if s.readers == 0 && Mutexes.Enter(s.rw, t).None? && !tryonly {
      FirstKeeps(s, t, extra);
    } else {
      Moves(s, t, Reading);
      Moves(s, t, Idle);
    }
  }

  lemma {:induction false} AcquireKeeps(s: Lock, t: nat, op: Mode, tryonly: bool, extra: bool)
    requires Inv(s) && At(s, t).Idle? && !(op == RW && s.rw.owner == Some(t))
    ensures Inv(Acquire(s, t, op, tryonly, extra))
  {
    hide Many, Join;
    if op == RW {
      WriteKeeps(s, t, tryonly, extra);
    } else if s.rd == Mutexes.FREE {
      JoinKeeps(s, t, tryonly, extra);
    } else {
      Moves(s, t, WantsRD(extra));
    }
  }

  lemma {:induction false} ReleaseKeeps(s: Lock, t: nat)
    requires Inv(s) && (At(s, t).Reading? || At(s, t).Writing?)
    ensures Inv(Release(s, t))
  {
    hide Many;
    Moves(s, t, Idle);
    Moves(s, t, Reading);
  }

  lemma {:induction false} WakeKeeps(s: Lock, t: nat)
    requires Inv(s) && Legal(s, WakeStep(t))
    ensures Inv(Wake(s, t))
  {
    hide Many, Join, Drop;
    Moves(s, t, Writing);
    Moves(s, t, Reading);
    if At(s, t).WantsRD? && s.rd == Mutexes.FREE {
      JoinKeeps(s, t, false, At(s, t).extra);
    }
  }

  lemma {:induction false} InterruptKeeps(s: Lock, t: nat)
    requires Inv(s) && Legal(s, InterruptStep(t))
    ensures Inv(Interrupt(s, t))
  {
    hide Many;
    Moves(s, t, Idle);
  }

  lemma {:induction false} StepKeeps(s: Lock, step: Step)
    requires Inv(s) && Legal(s, step) && !OwnerWrites(s, step)
    ensures Inv(Next(s, step))
  {
    hide Inv, Acquire, Release, Wake, Interrupt;
    match step {
      case AcquireStep(t, op, tryonly, extra) => AcquireKeeps(s, t, op, tryonly, extra);
      case ReleaseStep(t) => ReleaseKeeps(s, t);
      case WakeStep(t) => WakeKeeps(s, t);
      case InterruptStep(t) => InterruptKeeps(s, t);
    }
  }

  /** From a state that is in order, a step leads to an overlap exactly when it is a write
      acquisition by the owner of `rw`. */
  lemma {:induction false} OverlapExactly(s: Lock, step: Step)
    requires Inv(s) && Legal(s, step)
    ensures Safe(Next(s, step)) <==> !OwnerWrites(s, step)
  {
    hide Many;
    if !OwnerWrites(s, step) {
      StepKeeps(s, step);
      InvSafe(Next(s, step));
    } else {
      Somebody(s.pcs, InRead());
      var u :| u in s.pcs && InRead()(s.pcs[u]);
      var s' := Next(s, step);
      assert s'.pcs[step.t].Writing? && s'.pcs[u].Reading?;
    }
  }

  ghost predicate SomeWriter(s: Lock) { exists t :: t in s.pcs && s.pcs[t].Writing? }

  /** A first reader is on its way in. */
  ghost predicate SomeFirst(s: Lock) { exists t :: t in s.pcs && s.pcs[t].First? }

  /** The mutexes are held by those for whom they are meant. */
  lemma {:induction false} HoldersAre(s: Lock)
    requires Inv(s)
    ensures s.rw.locked <==> Readers(s) > 0 || SomeWriter(s)
    ensures s.rd.locked <==> SomeFirst(s)
    ensures SomeFirst(s) ==> Readers(s) == 0
  {
    hide Many;
    if s.rw.locked && Readers(s) == 0 {
      assert s.pcs[s.rw.owner.value].Writing?;
    }
  }

  /** What an acquisition leads to when the lock is used by nobody, by readers or by a writer: a writer
      gets it exactly when nobody has it; a reader exactly when no writer has it and no first reader is on
      its way in.  With tryonly everything stays as it was otherwise, and without it the thread waits:
      a reader as the first one, if there is none before it. */
  lemma {:induction false} AcquireExactly(s: Lock, t: nat, op: Mode, tryonly: bool, extra: bool)
    requires Inv(s) && At(s, t).Idle? && !(op == RW && s.rw.owner == Some(t))
    ensures var s' := Acquire(s, t, op, tryonly, extra);
      && (forall u: nat :: u != t ==> At(s', u) == At(s, u))
      && (op == RW ==>
            (At(s', t).Writing? <==> Readers(s) == 0 && !SomeWriter(s)) &&
            (!At(s', t).Writing? ==> s' == if tryonly then s else Goes(s, t, WantsRW(extra))))
      && (op == RD ==>
            && (At(s', t).Reading? <==> !SomeWriter(s) && !SomeFirst(s))
            && (!At(s', t).Reading? && tryonly ==> At(s', t).Idle?)
            && (!At(s', t).Reading? && !tryonly ==> At(s', t) == if SomeFirst(s) then WantsRD(extra) else First(extra)))
  {
    hide Many;
    HoldersAre(s);
  }

  /** A woken writer gets the lock exactly when nobody has it; a woken reader exactly when no writer has
      it and no first reader is on its way in, and becomes the first one when only a writer is in its
      way; a woken first reader exactly when no writer has it.  Otherwise everything stays as it is. */
  lemma {:induction false} WakeExactly(s: Lock, t: nat)
    requires Inv(s) && Legal(s, WakeStep(t))
    ensures var s' := Wake(s, t);
      && (forall u: nat :: u != t ==> At(s', u) == At(s, u))
      && (At(s, t).WantsRW? ==>
            if Readers(s) == 0 && !SomeWriter(s) then At(s', t).Writing? else s' == s)
      && (At(s, t).WantsRD? ==>
            if SomeFirst(s) then s' == s
            else At(s', t) == if SomeWriter(s) then First(At(s, t).extra) else Reading)
      && (At(s, t).First? ==> if SomeWriter(s) then s' == s else At(s', t).Reading?)
  {
    hide Many;
    HoldersAre(s);
    if At(s, t).First? { assert SomeFirst(s); }
  }

  /** A wait that is given up leaves no trace. */
  lemma {:induction false} InterruptExactly(s: Lock, t: nat)
    requires Inv(s) && Legal(s, InterruptStep(t))
    ensures var s' := Interrupt(s, t);
      && At(s', t).Idle? && (forall u: nat :: u != t ==> At(s', u) == At(s, u))
      && s'.rw == s.rw && s'.mode == s.mode
      && s'.readers == Readers(s) + (if SomeFirst(s) && !At(s, t).First? then 1 else 0)
      && (At(s, t).First? ==> s'.rd == Mutexes.FREE) && (!At(s, t).First? ==> s'.rd == s.rd)
  {
    hide Many;
    HoldersAre(s);
    if At(s, t).First? { assert SomeFirst(s); }
  }

  /** A release is refused exactly for a last reader that is not the one who entered first. */
  lemma {:induction false} RefusedExactly(s: Lock, t: nat)
    requires Inv(s) && (At(s, t).Reading? || At(s, t).Writing?)
    ensures At(Release(s, t), t).Idle? <==> !(At(s, t).Reading? && Readers(s) == 1 && s.rw.owner != Some(t))
    ensures !At(Release(s, t), t).Idle? ==> Release(s, t) == s
  {
    hide Many;
    Moves(s, t, Idle);
    if At(s, t).Reading? {
      assert s.pcs[t := Reading] == s.pcs;
    }
  }

  // ---------------------------------------------------------------------------------------
  // Whole runs

  ghost predicate IsRun(ss: seq<Lock>, steps: seq<Step>) {
    && |ss| == |steps| + 1
    && forall i :: 0 <= i < |steps| ==> Legal(ss[i], steps[i]) && ss[i + 1] == Next(ss[i], steps[i])
  }

  lemma {:induction false} InitInv(mode: Mode)
    ensures Inv(Init(mode))
  {
    assert Those(Init(mode).pcs, InRead()) == {};
  }

  lemma {:induction false} RunKeeps(ss: seq<Lock>, steps: seq<Step>, k: nat)
    requires IsRun(ss, steps) && Inv(ss[0]) && k <= |steps|
    requires forall i :: 0 <= i < k ==> !OwnerWrites(ss[i], steps[i])
    ensures Inv(ss[k])
  {
    hide Inv, OwnerWrites;
    if k > 0 {
      RunKeeps(ss, steps, k - 1);
      StepKeeps(ss[k - 1], steps[k - 1]);
    }
  }

  /** For every run without nesting: no writer ever overlaps a reader or another writer exactly when
      no thread that owns `rw` (as a first reader who left early) acquires the lock for writing. */
  lemma {:induction false} RunSafeExactly(mode: Mode, ss: seq<Lock>, steps: seq<Step>, k: nat)
    requires IsRun(ss, steps) && ss[0] == Init(mode) && k <= |steps|
    ensures (forall j :: 0 <= j <= k ==> Safe(ss[j])) <==> (forall i :: 0 <= i < k ==> !OwnerWrites(ss[i], steps[i]))
  {
    hide Inv, OwnerWrites, Safe;
    InitInv(mode);
    InvSafe(ss[0]);
    if k > 0 {
      RunSafeExactly(mode, ss, steps, k - 1);
      assert ss[k] == Next(ss[k - 1], steps[k - 1]);
      assert (forall j :: 0 <= j <= k ==> Safe(ss[j])) <==>
        (forall j :: 0 <= j <= k - 1 ==> Safe(ss[j])) && Safe(ss[k]);
      assert (forall i :: 0 <= i < k ==> !OwnerWrites(ss[i], steps[i])) <==>
             (forall i :: 0 <= i < k - 1 ==> !OwnerWrites(ss[i], steps[i])) && !OwnerWrites(ss[k - 1], steps[k - 1]);
      if forall i :: 0 <= i < k - 1 ==> !OwnerWrites(ss[i], steps[i]) {
        RunKeeps(ss, steps, k - 1);
        OverlapExactly(ss[k - 1], steps[k - 1]);
      }
    }
  }

  /** The reader that entered first leaves last. */
  ghost predicate FirstLeavesLast(s: Lock, step: Step) {
    step.ReleaseStep? && At(s, step.t).Reading? && s.rw.owner == Some(step.t) ==> Readers(s) == 1
  }

  /** Then the owner of `rw` always holds the lock. */
  ghost predicate OwnerIn(s: Lock) {
    s.rw.locked && s.rw.owner.Some? ==> At(s, s.rw.owner.value).Reading? || At(s, s.rw.owner.value).Writing?
  }

  lemma {:induction false} DisciplineKeeps(s: Lock, step: Step)
    requires Inv(s) && OwnerIn(s) && Legal(s, step) && FirstLeavesLast(s, step)
    ensures !OwnerWrites(s, step)
    ensures OwnerIn(Next(s, step))
    ensures step.ReleaseStep? ==> At(Next(s, step), step.t).Idle?
  {
    hide Many;
    if step.ReleaseStep? {
      RefusedExactly(s, step.t);
      Moves(s, step.t, Idle);
      if At(s, step.t).Reading? && Readers(s) == 1 {
        OnlyReader(s, step.t);
      }
    }
  }

  lemma {:induction false} OnlyReader(s: Lock, t: nat)
    requires Readers(s) == 1 && At(s, t).Reading?
    ensures forall u: nat :: At(s, u).Reading? ==> u == t
  {
    var those := Those(s.pcs, InRead());
    assert t in those;
    assert |those - {t}| == 0;
    forall u: nat | At(s, u).Reading? ensures u == t {
      assert u in those;
    }
  }

  /** In runs without nesting where the first reader leaves last, nobody overlaps a writer, the mode
      and the number of readers are right, and every release succeeds. */
  lemma {:induction false} DisciplinedRun(mode: Mode, ss: seq<Lock>, steps: seq<Step>, k: nat)
    requires IsRun(ss, steps) && ss[0] == Init(mode) && k <= |steps|
    requires forall i :: 0 <= i < |steps| ==> FirstLeavesLast(ss[i], steps[i])
    ensures Inv(ss[k]) && Safe(ss[k]) && OwnerIn(ss[k])
    ensures k < |steps| && steps[k].ReleaseStep? ==> At(ss[k + 1], steps[k].t).Idle?
  {
    hide Inv, FirstLeavesLast, Safe, OwnerIn;
    if k == 0 {
      InitInv(mode);
      NobodyOwns(mode);
    } else {
      DisciplinedRun(mode, ss, steps, k - 1);
      DisciplineKeeps(ss[k - 1], steps[k - 1]);
      StepKeeps(ss[k - 1], steps[k - 1]);
    }
    InvSafe(ss[k]);
    if k < |steps| {
      DisciplineKeeps(ss[k], steps[k]);
    }
  }

  lemma {:induction false} NobodyOwns(mode: Mode)
    ensures OwnerIn(Init(mode))
  {
  }

  /** Two readers, the first of whom leaves and comes back to write: writer and reader overlap. */
  lemma {:induction false} Overlap(mode: Mode) returns (ss: seq<Lock>, steps: seq<Step>)
    ensures IsRun(ss, steps) && ss[0] == Init(mode) && |steps| == 4 && !Safe(ss[4])
  {
    steps := [AcquireStep(0, RD, false, false), AcquireStep(1, RD, false, false), ReleaseStep(0),
              AcquireStep(0, RW, false, false)];
    var s1 := Next(Init(mode), steps[0]);
    var s2 := Next(s1, steps[1]);
    var s3 := Next(s2, steps[2]);
    ss := [Init(mode), s1, s2, s3, Next(s3, steps[3])];
    assert ss[4].pcs[0].Writing? && ss[4].pcs[1].Reading?;
  }

  /** Two readers leave in the order in which they came: the second release is refused. */
  lemma {:induction false} Refused(mode: Mode) returns (ss: seq<Lock>, steps: seq<Step>)
    ensures IsRun(ss, steps) && ss[0] == Init(mode) && |steps| == 4
    ensures steps[3] == ReleaseStep(1) && At(ss[3], 1).Reading? && ss[4] == ss[3]
  {
    steps := [AcquireStep(0, RD, false, false), AcquireStep(1, RD, false, false), ReleaseStep(0), ReleaseStep(1)];
    var s1 := Next(Init(mode), steps[0]);
    var s2 := Next(s1, steps[1]);
    var s3 := Next(s2, steps[2]);
    assert s3.pcs[1 := Reading] == s3.pcs;
    ss := [Init(mode), s1, s2, s3, Next(s3, steps[3])];
  }

  /** A writer waits for a reader, and has the lock when the reader has left. */
  lemma {:induction false} WriterWaits(mode: Mode) returns (ss: seq<Lock>, steps: seq<Step>)
    ensures IsRun(ss, steps) && ss[0] == Init(mode) && |steps| == 4
    ensures At(ss[2], 0).Reading? && At(ss[2], 1).WantsRW? && At(ss[4], 0).Idle? && At(ss[4], 1).Writing?
  {
    steps := [AcquireStep(0, RD, false, false), AcquireStep(1, RW, false, false), ReleaseStep(0), WakeStep(1)];
    var s1 := Next(Init(mode), steps[0]);
    var s2 := Next(s1, steps[1]);
    var s3 := Next(s2, steps[2]);
    ss := [Init(mode), s1, s2, s3, Next(s3, steps[3])];
  }
}
