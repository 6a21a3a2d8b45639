/** The scheduler as a state machine: five queues, the running thread and the thread control
    blocks.  Between two context switches the running thread calls functions of the library; a
    context switch runs the whole scheduler loop once and ends with the next thread running. */
module Scheduler {
  import opened PriorityOrder
  import opened EventManager

  datatype Tcb = Tcb(
    prio: int, state: State, joinable: bool,
    cancelreq: bool, cancelEnable: bool, cancelAsync: bool,
    sigpending: set<nat>, events: seq<Event>)

  type Queue = seq<Entry<nat>>

  datatype Machine = Machine(
    tcbs: map<nat, Tcb>,
    nq: Queue, rq: Queue, wq: Queue, sq: Queue, dq: Queue,
    current: nat, favournew: bool, conds: Conds, pipe: nat,
    spawned: nat, freed: nat)

  datatype Errno = EINVAL | EPERM | ESRCH | EDEADLK | EIO

  datatype Reply = Ok | Err(error: Errno)

  /** A thread as callers name it: NULL, the scheduler itself, or a thread control block. */
  datatype Handle = Null | Sched | Thread(id: nat)

  const NOBODY: Tcb := Tcb(PRIO_STD, Dead, false, false, false, false, {}, [])

  function Look(m: Machine, t: nat): Tcb {
    if t in m.tcbs then m.tcbs[t] else NOBODY
  }

  function Put(m: Machine, t: nat, b: Tcb): Machine {
    m.(tcbs := m.tcbs[t := b])
  }

  function Free(m: Machine, t: nat): Machine {
    m.(tcbs := m.tcbs - {t}, freed := m.freed + 1)
  }

  function QueueOf(m: Machine, s: State): Queue {
    match s case New => m.nq case Ready => m.rq case Waiting => m.wq case Dead => m.dq
  }

  function WithQueue(m: Machine, s: State, q: Queue): Machine {
    match s case New => m.(nq := q) case Ready => m.(rq := q) case Waiting => m.(wq := q) case Dead => m.(dq := q)
  }

  function ThreadCount(m: Machine): int {
    |m.nq| + |m.rq| + 1 + |m.wq| + |m.sq| + |m.dq|
  }

  // ---------------------------------------------------------------------------------------
  // What the running thread may call

  datatype Attr = Attr(prio: int, joinable: bool, cancelEnable: bool, cancelAsync: bool)

  function Spawn(m: Machine, t: nat, a: Attr): Machine {
    var b := Tcb(a.prio, New, a.joinable, false, a.cancelEnable, a.cancelAsync, {}, []);
    Put(m, t, b).(nq := Insert(m.nq, a.prio, t), spawned := m.spawned + 1)
  }

  function Suspend(m: Machine, h: Handle): (r: (Machine, Reply)) {
    match h
    case Null => (m, Err(EINVAL))
    case Sched => (m, Err(EPERM))
    case Thread(t) =>
      var s := Look(m, t).state;
      if t == m.current || s == Dead then (m, Err(EPERM))
      else if !Queued(QueueOf(m, s), t) then (m, Err(ESRCH))
      else (WithQueue(m, s, Delete(QueueOf(m, s), t)).(sq := Insert(m.sq, PRIO_STD, t)), Ok)
  }

  /** Resuming a dead thread would hand it to no queue at all. */
  function Resume(m: Machine, h: Handle): (r: (Machine, Reply)) {
    match h
    case Null => (m, Err(EINVAL))
    case Sched => (m, Err(EPERM))
    case Thread(t) =>
      if t == m.current || !Queued(m.sq, t) then (m, Err(EPERM))
      else
        var m1, s := m.(sq := Delete(m.sq, t)), Look(m, t).state;
        (if s == Dead then m1 else WithQueue(m1, s, Insert(QueueOf(m1, s), PRIO_STD, t)), Ok)
  }

  /** Kicks a thread out of its queue: it is freed, or kept in the dead queue until it is joined. */
  function Bury(m: Machine, t: nat): Machine {
    var b := Look(m, t);
    if !b.joinable then Free(m, t)
    else Put(m, t, b.(state := Dead)).(dq := Insert(m.dq, PRIO_STD, t))
  }

  function Cancel(m: Machine, h: Handle): (r: (Machine, Reply)) {
    match h
    case Null => (m, Err(EINVAL))
    case Sched => (m, Ok)
    case Thread(t) =>
      var b := Look(m, t);
      if t == m.current then (m, Err(EINVAL))
      else if b.state == Dead then (m, Err(EPERM))
      else
        var m1 := Put(m, t, b.(cancelreq := true));
        if !(b.cancelEnable && b.cancelAsync) then (m1, Ok)
        else if !Queued(QueueOf(m1, b.state), t) then (m1, Err(ESRCH))
        else (Bury(WithQueue(m1, b.state, Delete(QueueOf(m1, b.state), t)), t), Ok)
  }

  /** Reaps a dead thread. */
  function Reap(m: Machine, t: nat): Machine {
    Free(m.(dq := Delete(m.dq, t)), t)
  }

  /** The part of joining after the wait, or without one: no thread means any dead one. */
  function JoinDead(m: Machine, tid: Option<nat>): (r: (Machine, Reply)) {
    var t := if tid.None? && m.dq != [] then Some(m.dq[0].thread) else tid;
    if t.None? || Look(m, t.value).state != Dead then (m, Err(EIO))
    else (Reap(m, t.value), Ok)
  }

  datatype JoinPlan = Refuse(error: Errno) | WaitFirst(tid: Option<nat>) | JoinAtOnce(tid: Option<nat>)

  /** The checks of joining before it waits. */
  function JoinPlanOf(m: Machine, tid: Option<nat>): JoinPlan {
    if tid == Some(m.current) then Refuse(EDEADLK)
    else if tid.Some? && !Look(m, tid.value).joinable then Refuse(EINVAL)
    else if ThreadCount(m) == 1 then Refuse(EDEADLK)
    else
      var t := if tid.None? && m.dq != [] then Some(m.dq[0].thread) else tid;
      if t.None? || Look(m, t.value).state != Dead then WaitFirst(t) else JoinAtOnce(t)
  }

  /** The call up to the point where it returns or waits. */
  function Join(m: Machine, tid: Option<nat>): (r: (Machine, JoinPlan)) {
    var plan := JoinPlanOf(m, tid);
    (if plan.JoinAtOnce? then JoinDead(m, plan.tid).0 else m, plan)
  }

  /** What pth_attr_set can change of a thread that exists. */
  datatype Setting = SetPrio(prio: int) | SetJoinable(joinable: bool) | SetCancel(enable: bool, async: bool)

  function WithSetting(b: Tcb, x: Setting): Tcb {
    match x
    case SetPrio(prio) => b.(prio := prio)
    case SetJoinable(joinable) => b.(joinable := joinable)
    case SetCancel(enable, async) => b.(cancelEnable := enable, cancelAsync := async)
  }

  predicate Exists(m: Machine, t: nat) {
    Queued(m.nq, t) || Queued(m.rq, t) || Queued(m.wq, t) || Queued(m.sq, t) || Queued(m.dq, t)
  }

  /** Raising a signal for a thread, up to the directed yield to it.  Signal 0 asks whether the thread
      exists, and a signal that the process ignores changes nothing. */
  function Raise(m: Machine, h: Handle, sig: int, ignored: bool): (r: (Machine, Reply)) {
    if h == Null || h == Thread(m.current) || sig < 0 || sig > NSIG then (m, Err(EINVAL))
    else if sig == 0 then (m, if h.Thread? && Exists(m, h.id) then Ok else Err(ESRCH))
    else if ignored || h == Sched then (m, Ok)
    else
      var b := Look(m, h.id);
      (Put(m, h.id, b.(sigpending := b.sigpending + {sig})), Ok)
  }

  function Abort(m: Machine, h: Handle): (r: (Machine, Reply)) {
    match h
    case Null => (m, Err(EINVAL))
    case Sched => (m, Err(ESRCH))
    case Thread(t) =>
      var b := Look(m, t);
      if t == m.current then (m, Err(EINVAL))
      else if b.state == Dead && b.joinable then
        (match JoinPlanOf(m, Some(t))
         case JoinAtOnce(tid) => JoinDead(m, tid)
         case Refuse(e) => (m, Err(e))
         case WaitFirst(_) => (m, Err(EIO)))
      else Cancel(Put(m, t, b.(joinable := false, cancelEnable := true, cancelAsync := true)), h)
  }

  /** The choice of a directed yield before it switches: the thread goes to the top of its queue. */
  function Favour(m: Machine, to: nat): (r: (Machine, Reply)) {
    var s := Look(m, to).state;
    if (s != New && s != Ready) || !Queued(QueueOf(m, s), to) then (m, Err(EINVAL))
    else (WithQueue(m, s, Favorite(QueueOf(m, s), to)), Ok)
  }

  // ---------------------------------------------------------------------------------------
  // What a context switch does

  /** Why the running thread enters the scheduler. */
  datatype Cause = Yield | Wait(events: seq<Event>) | Exit

  function AsPending(events: seq<Event>): (r: seq<Event>)
    ensures |r| == |events|
    ensures forall i :: 0 <= i < |events| ==> r[i] == events[i].(status := Pending)
  {
    seq(|events|, i requires 0 <= i < |events| => events[i].(status := Pending))
  }

  /** Puts the thread that ran into its next queue and lets the ready threads age. */
  function Place(m: Machine, c: Cause): Machine {
    var t := m.current;
    match c
    case Yield => m.(rq := Insert(Increase(m.rq), Look(m, t).prio, t))
    case Exit => Bury(m, t).(rq := Increase(m.rq))
    case Wait(events) =>
      Put(m, t, Look(m, t).(state := Waiting, events := AsPending(events)))
        .(wq := Insert(m.wq, Look(m, t).prio, t), rq := Increase(m.rq))
  }

  /** The waiting queue as the event manager walks it. */
  function Waiters(m: Machine): (ws: seq<Waiter>)
    ensures |ws| == |m.wq|
    ensures forall i :: 0 <= i < |ws| ==> ws[i].tid == m.wq[i].thread
  {
    seq(|m.wq|, i requires 0 <= i < |m.wq| =>
      var b := Look(m, m.wq[i].thread);
      Waiter(m.wq[i].thread, b.cancelreq, b.sigpending, b.events))
  }

  /** Writes the waiting threads back after a round of the event manager. */
  function Store(tcbs: map<nat, Tcb>, ws: seq<Waiter>): map<nat, Tcb> {
    if ws == [] then tcbs
    else
      var r, w := Store(tcbs, ws[..|ws| - 1]), ws[|ws| - 1];
      if w.tid !in r then r
      else r[w.tid := r[w.tid].(state := if Wakes(w) then Ready else r[w.tid].state,
                                sigpending := w.sigpending, events := w.events)]
  }

  function WokenSet(ws: seq<Waiter>): (r: set<nat>)
    ensures forall t :: t in r <==> exists i :: 0 <= i < |ws| && Wakes(ws[i]) && ws[i].tid == t
  {
    set i | 0 <= i < |ws| && Wakes(ws[i]) :: ws[i].tid
  }

  function Base(m: Machine): map<nat, int> {
    map t | t in m.tcbs :: m.tcbs[t].prio
  }

  /** Moves the threads that wake up from the waiting to the ready queue. */
  function Settle(m: Machine, r: Round): Machine {
    var woken := WokenSet(r.waiters);
    m.(tcbs := Store(m.tcbs, r.waiters), conds := r.conds,
       wq := Keep(m.wq, woken), rq := Wake(m.rq, m.wq, woken, Base(m)))
  }

  /** The event manager: rounds are repeated while an event function has to be asked again.
      Without a turn left the scheduler is still asleep. */
  function Rounds(m: Machine, turns: seq<Turn>, dopoll: bool): Option<Machine>
    decreases |turns|
  {
    if turns == [] then None
    else
      var r := RunRound(turns[0], m.conds, Waiters(m), dopoll, m.pipe);
      if r.repeat then Rounds(Settle(m, r), turns[1..], dopoll) else Some(Settle(m, r))
  }

  function States(m: Machine): map<nat, State> {
    map t | t in m.tcbs :: m.tcbs[t].state
  }

  /** The turns show the machine as it is and come from an honest select(2). */
  predicate HonestRounds(m: Machine, turns: seq<Turn>, dopoll: bool)
    decreases |turns|
  {
    turns == [] ||
      (&& turns[0].env.states == States(m)
       && turns[0].env.anyDead == (m.dq != [])
       && HonestTurn(turns[0], m.conds, Waiters(m), dopoll, m.pipe)
       && var r := RunRound(turns[0], m.conds, Waiters(m), dopoll, m.pipe);
          r.repeat ==> HonestRounds(Settle(m, r), turns[1..], dopoll))
  }

  /** Moves the new threads to the ready queue, from the tail of their queue on. */
  function Drain(m: Machine): Machine
    decreases |m.nq|
  {
    if m.nq == [] then m
    else
      var t := m.nq[|m.nq| - 1].thread;
      var p := if m.favournew then FavoritePrio(m.rq) else PRIO_STD;
      Drain(Put(m, t, Look(m, t).(state := Ready)).(nq := m.nq[..|m.nq| - 1], rq := Insert(m.rq, p, t)))
  }

  datatype Outcome = Running(machine: Machine) | Asleep | Aborted

  function Dispatch(m: Machine): Outcome {
    if m.rq == [] then Aborted else Running(m.(current := m.rq[0].thread, rq := m.rq[1..]))
  }

  predicate Polls(m: Machine) { m.rq != [] || m.nq != [] }

  /** One whole turn of the scheduler loop, from the switch into it to the switch out of it. */
  function Resched(m: Machine, c: Cause, turns: seq<Turn>): Outcome {
    var m1 := Place(m, c);
    match Rounds(m1, turns, Polls(m1))
    case None => Asleep
    case Some(m2) => Dispatch(Drain(m2))
  }

  predicate HonestSwitch(m: Machine, c: Cause, turns: seq<Turn>) {
    HonestRounds(Place(m, c), turns, Polls(Place(m, c)))
  }
}
