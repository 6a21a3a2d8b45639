/** Whole runs of the scheduler: what holds in every state that any sequence of calls and context
    switches can reach. */
module Runs {
  import opened PriorityOrder
  import opened PriorityFacts
  import opened EventManager
  import opened Scheduler
  import opened Partition

  /** What the running thread may do next. */
  datatype Step =
    | SpawnStep(t: nat, attr: Attr)
    | SuspendStep(h: Handle)
    | ResumeStep(h: Handle)
    | CancelStep(h: Handle)
    | AbortStep(h: Handle)
    | JoinStep(tid: Option<nat>)
    | ReapStep(tid: Option<nat>)  // the rest of a join that had to wait
    | AttrStep(t: nat, x: Setting)
    | RaiseStep(h: Handle, sig: int, ignored: bool)  // the yield to the thread is a step of its own
    | CancelStateStep(enable: bool, async: bool)
    | NotifyStep(cond: nat, flags: CondFlags)
    | FavournewStep(on: bool)
    | YieldToStep(to: nat, turns: seq<Turn>)
    | SwitchStep(cause: Cause, turns: seq<Turn>)

  /** A switch of any kind: the scheduler runs and dispatches a thread. */
  predicate Switches(m: Machine, step: Step) {
    step.SwitchStep? || (step.YieldToStep? && Favour(m, step.to).1 == Ok)
  }

  function Apply(m: Machine, step: Step): Outcome {
    match step
    case SpawnStep(t, a) => Running(Spawn(m, t, a))
    case SuspendStep(h) => Running(Suspend(m, h).0)
    case ResumeStep(h) => Running(Resume(m, h).0)
    case CancelStep(h) => Running(Cancel(m, h).0)
    case AbortStep(h) => Running(Abort(m, h).0)
    case JoinStep(tid) => Running(Join(m, tid).0)
    case ReapStep(tid) => Running(JoinDead(m, tid).0)
    case AttrStep(t, x) => Running(Put(m, t, WithSetting(Look(m, t), x)))
    case RaiseStep(h, sig, ignored) => Running(Raise(m, h, sig, ignored).0)
    case CancelStateStep(enable, async) =>
      Running(Put(m, m.current, Look(m, m.current).(cancelEnable := enable, cancelAsync := async)))
    case NotifyStep(c, f) => Running(m.(conds := m.conds[c := f]))
    case FavournewStep(on) => Running(m.(favournew := on))
    case YieldToStep(to, turns) =>
      if Favour(m, to).1 == Ok then Resched(Favour(m, to).0, Yield, turns) else Running(m)
    case SwitchStep(c, turns) => Resched(m, c, turns)
  }

  predicate LiveHandle(m: Machine, h: Handle) { h.Thread? ==> h.id in m.tcbs }

  /** Callers pass threads that exist, a new thread gets a control block of its own, and select(2)
      is honest. */
  predicate Legal(m: Machine, step: Step) {
    match step
    case SpawnStep(t, _) => t !in m.tcbs
    case SuspendStep(h) => LiveHandle(m, h)
    case ResumeStep(h) => LiveHandle(m, h)
    case CancelStep(h) => LiveHandle(m, h)
    case AbortStep(h) => LiveHandle(m, h)
    case JoinStep(tid) => tid.Some? ==> tid.value in m.tcbs
    case ReapStep(tid) => tid.Some? ==> tid.value in m.tcbs
    case AttrStep(t, _) => t in m.tcbs
    case RaiseStep(h, _, _) => LiveHandle(m, h)
    case YieldToStep(to, turns) => to in m.tcbs && HonestSwitch(Favour(m, to).0, Yield, turns)
    case SwitchStep(c, turns) => HonestSwitch(m, c, turns)
    case _ => true
  }

  ghost predicate IsRun(ms: seq<Machine>, steps: seq<Step>) {
    && |ms| == |steps| + 1
    && forall i :: 0 <= i < |steps| ==> Legal(ms[i], steps[i]) && Apply(ms[i], steps[i]) == Running(ms[i + 1])
  }

  /** The library right after pth_init has spawned the main thread and the scheduler took over. */
  function Boot(main: nat, a: Attr, pipe: nat): Outcome {
    Dispatch(Drain(Machine(map[main := Tcb(a.prio, New, a.joinable, false, a.cancelEnable, a.cancelAsync, {}, [])],
                           [Entry(main, a.prio)], [], [], [], [], main, true, map[], pipe, 1, 0)))
  }

  lemma {:induction false} BootInv(main: nat, a: Attr, pipe: nat)
    ensures Boot(main, a, pipe).Running? && Inv(Boot(main, a, pipe).machine)
    ensures Boot(main, a, pipe).machine.current == main
  {
    var m := Machine(map[main := Tcb(a.prio, New, a.joinable, false, a.cancelEnable, a.cancelAsync, {}, [])],
                     [Entry(main, a.prio)], [], [], [], [], main, true, map[], pipe, 1, 0);
    BagOne(Entry(main, a.prio));
    BagEmpty<nat>();
    assert Sound(m, {});
    DrainKeeps(m);
    DispatchKeeps(Drain(m));
    InsertTop<nat>([], FavoritePrio<nat>([]), main);
  }

  lemma {:induction false} StepKeeps(m: Machine, step: Step)
    requires Inv(m) && Legal(m, step)
    ensures Apply(m, step) != Aborted
    ensures Apply(m, step).Running? ==> Inv(Apply(m, step).machine)
  {
    hide Sound, Resched, HonestSwitch, Spawn, Suspend, Resume, Cancel, Abort, Join, JoinDead, Favour, WithSetting;
    match step {
      case SpawnStep(t, a) => SpawnKeeps(m, t, a);
      case SuspendStep(h) => SuspendKeeps(m, h);
      case ResumeStep(h) => ResumeKeeps(m, h);
      case CancelStep(h) => CancelKeeps(m, h);
      case AbortStep(h) => AbortKeeps(m, h);
      case JoinStep(tid) => JoinCallKeeps(m, tid);
      case ReapStep(tid) => JoinKeeps(m, tid);
      case AttrStep(t, x) =>
        SettingKeepsState(Look(m, t), x);
        ChangeAny(m, {m.current}, t, WithSetting(Look(m, t), x));
      case RaiseStep(h, sig, ignored) =>
        if h.Thread? && sig >= 0 {
          ChangeAny(m, {m.current}, h.id, Look(m, h.id).(sigpending := Look(m, h.id).sigpending + {sig}));
        }
      case CancelStateStep(enable, async) =>
        ChangeHeld(m, {m.current}, m.current, Look(m, m.current).(cancelEnable := enable, cancelAsync := async));
      case NotifyStep(c, f) => IrrelevantKeeps(m, m.(conds := m.conds[c := f]));
      case FavournewStep(on) => IrrelevantKeeps(m, m.(favournew := on));
      case YieldToStep(to, turns) =>
        FavourKeeps(m, to);
        ReschedKeeps(Favour(m, to).0, Yield, turns);
        NeverAborts(Favour(m, to).0, Yield, turns);
      case SwitchStep(c, turns) =>
        ReschedKeeps(m, c, turns);
        NeverAborts(m, c, turns);
    }
  }

  lemma {:induction false} SettingKeepsState(b: Tcb, x: Setting)
    ensures WithSetting(b, x).state == b.state
  {
  }

  lemma {:induction false} IrrelevantKeeps(m: Machine, m': Machine)
    requires Inv(m) && m' == m.(conds := m'.conds, favournew := m'.favournew)
    ensures Inv(m')
  {
    hide Bag, Descending;
    forall u: nat ensures Places(m', u) == Places(m, u) {}
    forall u: nat ensures Look(m', u) == Look(m, u) {}
  }

  /** In every state of every run each thread is the running one or in exactly one queue, its
      state names the queue, nothing is lost, and no step of any kind ends in the scheduler's
      "no more threads" abort. */
  lemma {:induction false} RunInvariant(ms: seq<Machine>, steps: seq<Step>, k: nat)
    requires IsRun(ms, steps) && Inv(ms[0]) && k < |ms|
    ensures Inv(ms[k])
    ensures forall step :: Legal(ms[k], step) ==> Apply(ms[k], step) != Aborted
  {
    if k > 0 {
      RunInvariant(ms, steps, k - 1);
      assert Legal(ms[k - 1], steps[k - 1]) && Apply(ms[k - 1], steps[k - 1]) == Running(ms[k]);
      StepKeeps(ms[k - 1], steps[k - 1]);
    }
    forall step | Legal(ms[k], step) ensures Apply(ms[k], step) != Aborted {
      StepKeeps(ms[k], step);
    }
  }

  /** The same from the start of the library on, with the count of threads that callers see. */
  lemma {:induction false} EveryRun(main: nat, a: Attr, pipe: nat, ms: seq<Machine>, steps: seq<Step>, k: nat)
    requires IsRun(ms, steps) && Boot(main, a, pipe) == Running(ms[0]) && k < |ms|
    ensures Inv(ms[k]) && ThreadCount(ms[k]) == ms[k].spawned - ms[k].freed
    ensures forall step :: Legal(ms[k], step) ==> Apply(ms[k], step) != Aborted
  {
    hide Inv, Boot, Apply, Legal, ThreadCount;
    BootInv(main, a, pipe);
    RunInvariant(ms, steps, k);
    CountsThreads(ms[k]);
  }
}
