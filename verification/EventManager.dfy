/** The event manager: one pass over the waiting threads decides which events have occurred and
    what to ask of select(2), a second pass delivers the answer and decides who wakes up. */
module EventManager {
  import opened TimeArith

  datatype Option<T> = None | Some(value: T)

  datatype State = New | Ready | Waiting | Dead

  datatype Status = Pending | Occurred | Failed

  /** What an event waits for.  A set of file descriptors that the caller left out is None. */
  datatype Kind =
    | Fd(fd: nat, readable: bool, writeable: bool, exception: bool)
    | Select(nfd: int, rfds: Option<set<nat>>, wfds: Option<set<nat>>, efds: Option<set<nat>>, count: int)
    | Sigs(sigs: set<nat>)
    | Timer(tv: Time)
    | Msg(port: nat)
    | Mutex(mutex: nat)
    | Cond(cond: nat)
    | Tid(tid: Option<nat>, goal: State)
    | Func(func: nat, period: Time)

  datatype Event = Event(kind: Kind, status: Status)

  /** A thread in the waiting queue, with its ring of events from the one it hooked on. */
  datatype Waiter = Waiter(tid: nat, cancelreq: bool, sigpending: set<nat>, events: seq<Event>)

  datatype CondFlags = CondFlags(signaled: bool, broadcast: bool, handled: bool)

  const CLEAR: CondFlags := CondFlags(false, false, false)

  /** The flags of every condition variable; one that is not listed has none set. */
  type Conds = map<nat, CondFlags>

  function Flags(conds: Conds, c: nat): CondFlags {
    if c in conds then conds[c] else CLEAR
  }

  /** The rest of the process as the first pass finds it. */
  datatype Env = Env(
    now: Time,
    locked: set<nat>,            // mutexes that are locked
    arrived: set<nat>,           // message ports with a message
    states: map<nat, State>,     // threads that exist, with their state
    anyDead: bool,               // the dead queue is not empty
    holds: set<nat>)             // event functions that answer true

  datatype NextTimer = NextTimer(thread: nat, event: nat, value: Time, isFunc: bool)

  /** What the first pass gathers. */
  datatype Scan = Scan(
    conds: Conds, pending: set<nat>, catch: set<nat>,
    rfds: set<nat>, wfds: set<nat>, efds: set<nat>, fdmax: int,
    timer: Option<NextTimer>, any: bool)

  function Below(s: Option<set<nat>>, nfd: int): (r: set<nat>)
    ensures forall x :: x in r <==> s.Some? && x in s.value && x < nfd
  {
    match s
    case None => {}
    case Some(v) => set x | x in v && x < nfd
  }

  function Max(a: int, b: int): int { if a < b then b else a }

  function Nearer(timer: Option<NextTimer>, tv: Time, i: nat, j: nat, isFunc: bool): Option<NextTimer> {
    if timer.None? || Compare(tv, timer.value.value) < 0 then Some(NextTimer(i, j, tv, isFunc)) else timer
  }

  const NSIG: int := 32

  /** The event manager looks at the signals from 1 to NSIG - 1. */
  function Seen(sigs: set<nat>): (r: set<nat>)
    ensures forall x :: x in r <==> x in sigs && 1 <= x < NSIG
  {
    set x | x in sigs && 1 <= x < NSIG
  }

  datatype Checked = Checked(scan: Scan, sigpending: set<nat>, occurred: bool)

  /** The first look at a pending event: the j-th event of the i-th waiting thread. */
  function Check(env: Env, s: Scan, sigpending: set<nat>, i: nat, j: nat, kind: Kind): Checked {
    match kind
    case Fd(fd, r, w, e) =>
      Checked(s.(rfds := if r then s.rfds + {fd} else s.rfds,
                 wfds := if w then s.wfds + {fd} else s.wfds,
                 efds := if e then s.efds + {fd} else s.efds,
                 fdmax := Max(s.fdmax, fd)), sigpending, false)
    case Select(nfd, r, w, e, _) =>
      Checked(s.(rfds := s.rfds + Below(r, nfd),
                 wfds := s.wfds + Below(w, nfd),
                 efds := s.efds + Below(e, nfd),
                 fdmax := Max(s.fdmax, nfd - 1)), sigpending, false)
    case Sigs(all) =>
      var sigs := Seen(all);
      Checked(s.(pending := s.pending - sigs, catch := s.catch + (sigs - s.pending)),
              sigpending - sigs, sigs * sigpending != {} || sigs * s.pending != {})
    case Timer(tv) =>
      if Compare(tv, env.now) < 0 then Checked(s, sigpending, true)
      else Checked(s.(timer := Nearer(s.timer, tv, i, j, false)), sigpending, false)
    case Msg(port) => Checked(s, sigpending, port in env.arrived)
    case Mutex(m) => Checked(s, sigpending, m !in env.locked)
    case Cond(c) =>
      var f := Flags(s.conds, c);
      if f.signaled && f.broadcast then Checked(s, sigpending, true)
      else if f.signaled && !f.handled then
        Checked(s.(conds := s.conds[c := f.(handled := true)]), sigpending, true)
      else Checked(s, sigpending, false)
    case Tid(tid, goal) =>
      Checked(s, sigpending,
              if tid.None? then env.anyDead else tid.value in env.states && env.states[tid.value] == goal)
    case Func(f, period) =>
      if f in env.holds then Checked(s, sigpending, true)
      else Checked(s.(timer := Nearer(s.timer, Sum(env.now, period), i, j, true)), sigpending, false)
  }

  datatype Scanned = Scanned(scan: Scan, sigpending: set<nat>, events: seq<Event>)

  /** The first pass over one ring of events, in ring order. */
  function ScanEvents(env: Env, s: Scan, sigpending: set<nat>, i: nat, events: seq<Event>): (r: Scanned)
    ensures |r.events| == |events|
  {
    if events == [] then Scanned(s, sigpending, [])
    else
      var j := |events| - 1;
      var r := ScanEvents(env, s, sigpending, i, events[..j]);
      if events[j].status != Pending then r.(events := r.events + [events[j]])
      else
        var c := Check(env, r.scan, r.sigpending, i, j, events[j].kind);
        Scanned(c.scan.(any := c.scan.any || c.occurred), c.sigpending,
                r.events + [events[j].(status := if c.occurred then Occurred else Pending)])
  }

  /** The first pass over the waiting queue, in queue order. */
  function ScanThreads(env: Env, s: Scan, ws: seq<Waiter>): (r: (Scan, seq<Waiter>))
    ensures |r.1| == |ws|
  {
    if ws == [] then (s, [])
    else
      var i := |ws| - 1;
      var (s1, out) := ScanThreads(env, s, ws[..i]);
      var w := ws[i];
      var s2 := s1.(any := s1.any || w.cancelreq);
      var r := ScanEvents(env, s2, w.sigpending, i, w.events);
      (r.scan, out + [w.(sigpending := r.sigpending, events := r.events)])
  }

  function Start(conds: Conds, pending: set<nat>): Scan {
    Scan(conds, pending, {}, {}, {}, {}, -1, None, false)
  }

  /** What the manager asks of select(2); no delay means to wait without a limit. */
  datatype Ask = Ask(nfd: int, rfds: set<nat>, wfds: set<nat>, efds: set<nat>, delay: Option<Time>)

  function Question(s: Scan, dopoll: bool, now: Time, pipe: nat): Ask {
    Ask(Max(s.fdmax, pipe) + 1, s.rfds + {pipe}, s.wfds, s.efds,
        if dopoll then Some(ZERO)
        else if s.timer.Some? then Some(Difference(s.timer.value.value, now))
        else None)
  }

  /** What comes back: the result, the sets that are left, and the caught signals raised meanwhile. */
  datatype Answer = Answer(rc: int, rfds: set<nat>, wfds: set<nat>, efds: set<nat>, raised: set<nat>)

  /** The contract of an error-free select(2) that can be interrupted by the signals in `catch` only. */
  predicate Honest(ask: Ask, a: Answer, catch: set<nat>, pipe: nat) {
    && a.rfds <= ask.rfds && a.wfds <= ask.wfds && a.efds <= ask.efds
    && a.rc == |a.rfds| + |a.wfds| + |a.efds|
    && (a.rc == 0 ==> ask.delay.Some?)
    && a.raised <= catch
    && (pipe in a.rfds ==> a.raised != {})
  }

  /** The file descriptors found ready, as the second pass sees them. */
  datatype Found = Found(rfds: set<nat>, wfds: set<nat>, efds: set<nat>)

  /** Takes the internal signal pipe out of the answer of a blocking select. */
  function Adjust(a: Answer, dopoll: bool, pipe: nat): Found {
    var piped := !dopoll && a.rc > 0 && pipe in a.rfds;
    var rc := if piped then a.rc - 1 else a.rc;
    if rc <= 0 then Found({}, {}, {})
    else Found(if piped then a.rfds - {pipe} else a.rfds, a.wfds, a.efds)
  }

  predicate Elapsed(a: Answer, dopoll: bool, timer: Option<NextTimer>) {
    !dopoll && a.rc == 0 && timer.Some?
  }

  /** Marks an explicit timer event that has elapsed. */
  function Expire(ws: seq<Waiter>, i: nat, j: nat): (r: seq<Waiter>)
    requires i < |ws| && j < |ws[i].events|
    ensures |r| == |ws|
  {
    ws[i := ws[i].(events := ws[i].events[j := ws[i].events[j].(status := Occurred)])]
  }

  datatype Late = Late(conds: Conds, raised: set<nat>)

  function Hits(s: Option<set<nat>>, nfd: int, found: set<nat>): set<nat> { Below(s, nfd) * found }

  /** What is left of a caller's set: everything from nfd on, and what was found below it. */
  function Project(s: Option<set<nat>>, nfd: int, found: set<nat>): (r: Option<set<nat>>) {
    match s
    case None => None
    case Some(v) => Some(set x | x in v && (x < nfd ==> x in found))
  }

  /** The second look at an event. */
  function Deliver(f: Found, l: Late, ev: Event): (r: (Late, Event)) {
    if ev.status == Pending then
      match ev.kind
      case Fd(fd, r, w, e) =>
        if (r && fd in f.rfds) || (w && fd in f.wfds) || (e && fd in f.efds)
        then (l, ev.(status := Occurred)) else (l, ev)
      case Select(nfd, r, w, e, _) =>
        var n := |Hits(r, nfd, f.rfds)| + |Hits(w, nfd, f.wfds)| + |Hits(e, nfd, f.efds)|;
        if n > 0
        then (l, Event(Select(nfd, Project(r, nfd, f.rfds), Project(w, nfd, f.wfds), Project(e, nfd, f.efds), n),
                   Occurred))
        else (l, ev)
      case Sigs(all) =>
        var sigs := Seen(all);
        if sigs * l.raised != {} then (l.(raised := l.raised - sigs), ev.(status := Occurred)) else (l, ev)
      case _ => (l, ev)
    else
      match ev.kind
      case Cond(c) => if Flags(l.conds, c).signaled then (l.(conds := l.conds[c := CLEAR]), ev) else (l, ev)
      case _ => (l, ev)
  }

  datatype Delivered = Delivered(late: Late, events: seq<Event>)

  function DeliverEvents(f: Found, l: Late, events: seq<Event>): (r: Delivered)
    ensures |r.events| == |events|
  {
    if events == [] then Delivered(l, [])
    else
      var j := |events| - 1;
      var r := DeliverEvents(f, l, events[..j]);
      var (l', ev) := Deliver(f, r.late, events[j]);
      Delivered(l', r.events + [ev])
  }

  function DeliverThreads(f: Found, l: Late, ws: seq<Waiter>): (r: (Late, seq<Waiter>))
    ensures |r.1| == |ws|
  {
    if ws == [] then (l, [])
    else
      var i := |ws| - 1;
      var (l1, out) := DeliverThreads(f, l, ws[..i]);
      var r := DeliverEvents(f, l1, ws[i].events);
      (r.late, out + [ws[i].(events := r.events)])
  }

  /** A thread wakes up when one of its events is no longer pending or when it is to be cancelled. */
  predicate Wakes(w: Waiter) {
    w.cancelreq || SomeOccurred(w.events)
  }

  predicate SomeOccurred(events: seq<Event>) {
    exists j :: 0 <= j < |events| && events[j].status != Pending
  }

  predicate SomeWakes(ws: seq<Waiter>) {
    exists i :: 0 <= i < |ws| && Wakes(ws[i])
  }

  // ---------------------------------------------------------------------------------------
  // What the passes do to a single event

  /** The first pass looks at the j-th event of a ring after the events in front of it. */
  lemma {:induction false} ScanEventsAt(env: Env, s: Scan, sigpending: set<nat>, i: nat, events: seq<Event>, j: nat)
    returns (s': Scan, sigs': set<nat>)
    requires j < |events|
    ensures ScanEvents(env, s, sigpending, i, events).events[j] ==
              if events[j].status != Pending then events[j]
              else events[j].(status :=
                   if Check(env, s', sigs', i, j, events[j].kind).occurred then Occurred else Pending)
  {
    var n := |events| - 1;
    var r := ScanEvents(env, s, sigpending, i, events[..n]);
    if j == n {
      s', sigs' := r.scan, r.sigpending;
    } else {
      s', sigs' := ScanEventsAt(env, s, sigpending, i, events[..n], j);
    }
  }

  /** The first pass changes no more of a thread than its signals and the status of its events. */
  lemma {:induction false} ScanThreadsAt(env: Env, s: Scan, ws: seq<Waiter>, i: nat) returns (s': Scan)
    requires i < |ws|
    ensures var r := ScanEvents(env, s', ws[i].sigpending, i, ws[i].events);
            ScanThreads(env, s, ws).1[i] == ws[i].(sigpending := r.sigpending, events := r.events)
  {
    var n := |ws| - 1;
    if i == n {
      var s1 := ScanThreads(env, s, ws[..n]).0;
      s' := s1.(any := s1.any || ws[n].cancelreq);
    } else {
      s' := ScanThreadsAt(env, s, ws[..n], i);
    }
  }

  lemma {:induction false} DeliverEventsAt(f: Found, l: Late, events: seq<Event>, j: nat) returns (l': Late)
    requires j < |events|
    ensures DeliverEvents(f, l, events).events[j] == Deliver(f, l', events[j]).1
  {
    var n := |events| - 1;
    if j == n {
      l' := DeliverEvents(f, l, events[..n]).late;
    } else {
      l' := DeliverEventsAt(f, l, events[..n], j);
    }
  }

  lemma {:induction false} DeliverThreadsAt(f: Found, l: Late, ws: seq<Waiter>, i: nat) returns (l': Late)
    requires i < |ws|
    ensures DeliverThreads(f, l, ws).1[i] == ws[i].(events := DeliverEvents(f, l', ws[i].events).events)
  {
    var n := |ws| - 1;
    if i == n {
      l' := DeliverThreads(f, l, ws[..n]).0;
    } else {
      l' := DeliverThreadsAt(f, l, ws[..n], i);
    }
  }

  // ---------------------------------------------------------------------------------------
  // Everything asked of select(2) is asked for an event that is still pending

  datatype Which = R | W | E

  function Asked(s: Scan, x: Which): set<nat> {
    match x case R => s.rfds case W => s.wfds case E => s.efds
  }

  function FoundIn(f: Found, x: Which): set<nat> {
    match x case R => f.rfds case W => f.wfds case E => f.efds
  }

  /** Does an event of this kind ask whether fd is ready in the given way? */
  predicate Wants(kind: Kind, x: Which, fd: nat) {
    match kind
    case Fd(d, r, w, e) => fd == d && (match x case R => r case W => w case E => e)
    case Select(nfd, r, w, e, _) => fd in Below(match x case R => r case W => w case E => e, nfd)
    case _ => false
  }

  predicate PendingWants(ev: Event, x: Which, fd: nat) {
    ev.status == Pending && Wants(ev.kind, x, fd)
  }

  lemma {:induction false} AskedByEvent(env: Env, s: Scan, sigpending: set<nat>, i: nat, events: seq<Event>,
                                        x: Which, fd: nat) returns (j: nat)
    requires fd in Asked(ScanEvents(env, s, sigpending, i, events).scan, x) && fd !in Asked(s, x)
    ensures j < |events| && PendingWants(ScanEvents(env, s, sigpending, i, events).events[j], x, fd)
  {
    var n := |events| - 1;
    var r := ScanEvents(env, s, sigpending, i, events[..n]);
    if fd in Asked(r.scan, x) {
      j := AskedByEvent(env, s, sigpending, i, events[..n], x, fd);
    } else {
      j := n;
    }
  }

  lemma {:induction false} AskedByThread(env: Env, s: Scan, ws: seq<Waiter>, x: Which, fd: nat) returns (i: nat, j: nat)
    requires fd in Asked(ScanThreads(env, s, ws).0, x) && fd !in Asked(s, x)
    ensures i < |ws| && j < |ScanThreads(env, s, ws).1[i].events|
    ensures PendingWants(ScanThreads(env, s, ws).1[i].events[j], x, fd)
  {
    var n := |ws| - 1;
    var (s1, out) := ScanThreads(env, s, ws[..n]);
    if fd in Asked(s1, x) {
      i, j := AskedByThread(env, s, ws[..n], x, fd);
    } else {
      i := n;
      j := AskedByEvent(env, s1.(any := s1.any || ws[n].cancelreq), ws[n].sigpending, n, ws[n].events, x, fd);
    }
  }

  // ---------------------------------------------------------------------------------------
  // Every signal to catch is caught for an event; what occurs makes the manager poll

  predicate Catches(ev: Event, sig: nat) {
    ev.kind.Sigs? && sig in Seen(ev.kind.sigs)
  }

  lemma {:induction false} CaughtByEvent(env: Env, s: Scan, sigpending: set<nat>, i: nat, events: seq<Event>, sig: nat)
    returns (j: nat)
    requires sig in ScanEvents(env, s, sigpending, i, events).scan.catch && sig !in s.catch
    ensures j < |events| && Catches(ScanEvents(env, s, sigpending, i, events).events[j], sig)
  {
    var n := |events| - 1;
    var r := ScanEvents(env, s, sigpending, i, events[..n]);
    if sig in r.scan.catch {
      j := CaughtByEvent(env, s, sigpending, i, events[..n], sig);
    } else {
      j := n;
    }
  }

  lemma {:induction false} CaughtByThread(env: Env, s: Scan, ws: seq<Waiter>, sig: nat) returns (i: nat, j: nat)
    requires sig in ScanThreads(env, s, ws).0.catch && sig !in s.catch
    ensures i < |ws| && j < |ScanThreads(env, s, ws).1[i].events|
    ensures Catches(ScanThreads(env, s, ws).1[i].events[j], sig)
  {
    var n := |ws| - 1;
    var (s1, out) := ScanThreads(env, s, ws[..n]);
    if sig in s1.catch {
      i, j := CaughtByThread(env, s, ws[..n], sig);
    } else {
      i := n;
      j := CaughtByEvent(env, s1.(any := s1.any || ws[n].cancelreq), ws[n].sigpending, n, ws[n].events, sig);
    }
  }

  lemma {:induction false} AnyEvent(env: Env, s: Scan, sigpending: set<nat>, i: nat, events: seq<Event>)
    returns (j: nat)
    requires ScanEvents(env, s, sigpending, i, events).scan.any && !s.any
    ensures j < |events| && ScanEvents(env, s, sigpending, i, events).events[j].status != Pending
  {
    var n := |events| - 1;
    var r := ScanEvents(env, s, sigpending, i, events[..n]);
    if r.scan.any {
      j := AnyEvent(env, s, sigpending, i, events[..n]);
    } else {
      j := n;
    }
  }

  lemma {:induction false} AnyThread(env: Env, s: Scan, ws: seq<Waiter>) returns (i: nat)
    requires ScanThreads(env, s, ws).0.any && !s.any
    ensures i < |ws| && Wakes(ScanThreads(env, s, ws).1[i])
  {
    var n := |ws| - 1;
    var (s1, out) := ScanThreads(env, s, ws[..n]);
    if s1.any {
      i := AnyThread(env, s, ws[..n]);
    } else {
      i := n;
      if !ws[n].cancelreq {
        var j := AnyEvent(env, s1.(any := s1.any || ws[n].cancelreq), ws[n].sigpending, n, ws[n].events);
      }
    }
  }

  // ---------------------------------------------------------------------------------------
  // The timer that the manager chose

  predicate TimerIn(t: NextTimer, events: seq<Event>) {
    && t.event < |events|
    && events[t.event].status == Pending
    && (if t.isFunc then events[t.event].kind.Func? else events[t.event].kind.Timer?)
  }

  lemma {:induction false} TimerOfEvents(env: Env, s: Scan, sigpending: set<nat>, i: nat, events: seq<Event>)
    ensures var r := ScanEvents(env, s, sigpending, i, events);
            r.scan.timer == s.timer ||
            (r.scan.timer.Some? && r.scan.timer.value.thread == i && TimerIn(r.scan.timer.value, r.events))
  {
    if events != [] {
      TimerOfEvents(env, s, sigpending, i, events[..|events| - 1]);
    }
  }

  lemma {:induction false} TimerOfThreads(env: Env, s: Scan, ws: seq<Waiter>)
    requires s.timer.None?
    ensures var (s', out) := ScanThreads(env, s, ws);
            s'.timer.Some? ==>
              s'.timer.value.thread < |ws| && TimerIn(s'.timer.value, out[s'.timer.value.thread].events)
  {
    if ws != [] {
      var n := |ws| - 1;
      TimerOfThreads(env, s, ws[..n]);
      var s1 := ScanThreads(env, s, ws[..n]).0;
      TimerOfEvents(env, s1.(any := s1.any || ws[n].cancelreq), ws[n].sigpending, n, ws[n].events);
    }
  }

  // ---------------------------------------------------------------------------------------
  // One round of the manager, and its repetition

  /** The outcome of a round: the condition flags, the waiting threads with their events as the
      second pass left them, and whether an event function has to be asked again. */
  datatype Round = Round(conds: Conds, waiters: seq<Waiter>, repeat: bool)

  /** What the outside contributes to a round. */
  datatype Turn = Turn(env: Env, pending: set<nat>, answer: Answer)

  function RunRound(turn: Turn, conds: Conds, ws: seq<Waiter>, dopoll: bool, pipe: nat): (r: Round)
    ensures |r.waiters| == |ws|
  {
    var (s, ws1) := ScanThreads(turn.env, Start(conds, turn.pending), ws);
    var poll := dopoll || s.any;
    var elapsed := Elapsed(turn.answer, poll, s.timer);
    TimerOfThreads(turn.env, Start(conds, turn.pending), ws);
    var ws2 := if elapsed && !s.timer.value.isFunc then Expire(ws1, s.timer.value.thread, s.timer.value.event) else ws1;
    var (l, ws3) := DeliverThreads(Adjust(turn.answer, poll, pipe), Late(s.conds, turn.answer.raised), ws2);
    Round(l.conds, ws3, elapsed && s.timer.value.isFunc)
  }

  /** The question that goes with a round. */
  function RoundAsk(turn: Turn, conds: Conds, ws: seq<Waiter>, dopoll: bool, pipe: nat): Ask {
    var s := ScanThreads(turn.env, Start(conds, turn.pending), ws).0;
    Question(s, dopoll || s.any, turn.env.now, pipe)
  }

  predicate HonestTurn(turn: Turn, conds: Conds, ws: seq<Waiter>, dopoll: bool, pipe: nat) {
    var s := ScanThreads(turn.env, Start(conds, turn.pending), ws).0;
    Honest(RoundAsk(turn, conds, ws, dopoll, pipe), turn.answer, s.catch, pipe)
  }

  // ---------------------------------------------------------------------------------------
  // Progress: a blocking round wakes somebody up or is repeated

  /** The second pass puts no event back to pending. */
  lemma {:induction false} DeliverKeepsWakes(f: Found, l: Late, ws: seq<Waiter>, i: nat)
    requires i < |ws| && Wakes(ws[i])
    ensures Wakes(DeliverThreads(f, l, ws).1[i])
  {
    var l' := DeliverThreadsAt(f, l, ws, i);
    if !ws[i].cancelreq {
      var j :| 0 <= j < |ws[i].events| && ws[i].events[j].status != Pending;
      var l'' := DeliverEventsAt(f, l', ws[i].events, j);
      assert DeliverThreads(f, l, ws).1[i].events[j].status != Pending;
    }
  }

  /** A file descriptor found ready wakes every thread that asked for it. */
  lemma {:induction false} DeliverFound(f: Found, l: Late, ws: seq<Waiter>, i: nat, j: nat, x: Which, fd: nat)
    requires i < |ws| && j < |ws[i].events| && PendingWants(ws[i].events[j], x, fd) && fd in FoundIn(f, x)
    ensures Wakes(DeliverThreads(f, l, ws).1[i])
  {
    var l' := DeliverThreadsAt(f, l, ws, i);
    var l'' := DeliverEventsAt(f, l', ws[i].events, j);
    var k := ws[i].events[j].kind;
    if k.Select? {
      match x
      case R => assert fd in Hits(k.rfds, k.nfd, f.rfds);
      case W => assert fd in Hits(k.wfds, k.nfd, f.wfds);
      case E => assert fd in Hits(k.efds, k.nfd, f.efds);
    }
    assert DeliverThreads(f, l, ws).1[i].events[j].status == Occurred;
  }

  /** A raised signal is still there for the next event unless an event took it and occurred. */
  lemma {:induction false} RaisedThroughEvents(f: Found, l: Late, events: seq<Event>, sig: nat)
    requires sig in l.raised
    ensures var r := DeliverEvents(f, l, events);
            sig in r.late.raised || SomeOccurred(r.events)
  {
    if events != [] {
      var n := |events| - 1;
      RaisedThroughEvents(f, l, events[..n], sig);
      var p, r := DeliverEvents(f, l, events[..n]), DeliverEvents(f, l, events);
      if sig !in p.late.raised {
        var j :| 0 <= j < |p.events| && p.events[j].status != Pending;
        assert r.events[j].status != Pending;
      } else if sig !in r.late.raised {
        assert r.events[n].status != Pending;
      }
    }
  }

  lemma {:induction false} RaisedThroughThreads(f: Found, l: Late, ws: seq<Waiter>, sig: nat)
    requires sig in l.raised
    ensures var (l', out) := DeliverThreads(f, l, ws);
            sig in l'.raised || SomeWakes(out)
  {
    if ws != [] {
      var n := |ws| - 1;
      RaisedThroughThreads(f, l, ws[..n], sig);
      var (l1, p) := DeliverThreads(f, l, ws[..n]);
      var (l', out) := DeliverThreads(f, l, ws);
      if sig !in l1.raised {
        var i :| 0 <= i < |p| && Wakes(p[i]);
        assert Wakes(out[i]);
      } else {
        RaisedThroughEvents(f, l1, ws[n].events, sig);
        if sig !in l'.raised { assert Wakes(out[n]); }
      }
    }
  }

  /** A raised signal that some pending event waits for wakes somebody up. */
  lemma {:induction false} SignalInEvents(f: Found, l: Late, events: seq<Event>, j: nat, sig: nat)
    requires sig in l.raised && j < |events| && Catches(events[j], sig)
    ensures SomeOccurred(DeliverEvents(f, l, events).events)
  {
    var n := |events| - 1;
    var p, r := DeliverEvents(f, l, events[..n]), DeliverEvents(f, l, events);
    if j < n {
      SignalInEvents(f, l, events[..n], j, sig);
      var k :| 0 <= k < |p.events| && p.events[k].status != Pending;
      assert r.events[k].status != Pending;
    } else {
      RaisedThroughEvents(f, l, events[..n], sig);
      if sig in p.late.raised {
        assert sig in Seen(events[n].kind.sigs) * p.late.raised;
        assert r.events[n].status != Pending;
      } else {
        var k :| 0 <= k < |p.events| && p.events[k].status != Pending;
        assert r.events[k].status != Pending;
      }
    }
  }

  lemma {:induction false} SignalInThreads(f: Found, l: Late, ws: seq<Waiter>, i: nat, j: nat, sig: nat)
    requires sig in l.raised && i < |ws| && j < |ws[i].events| && Catches(ws[i].events[j], sig)
    ensures SomeWakes(DeliverThreads(f, l, ws).1)
  {
    var n := |ws| - 1;
    var (l1, p) := DeliverThreads(f, l, ws[..n]);
    var out := DeliverThreads(f, l, ws).1;
    if i < n {
      SignalInThreads(f, l, ws[..n], i, j, sig);
      var k :| 0 <= k < |p| && Wakes(p[k]);
      assert Wakes(out[k]);
    } else {
      RaisedThroughThreads(f, l, ws[..n], sig);
      if sig in l1.raised {
        SignalInEvents(f, l1, ws[n].events, j, sig);
        assert Wakes(out[n]);
      } else {
        var k :| 0 <= k < |p| && Wakes(p[k]);
        assert Wakes(out[k]);
      }
    }
  }

  /** A blocking round under an honest select either has to be repeated for an event function or
      leaves at least one thread that wakes up. */
  lemma {:induction false} RoundProgress(turn: Turn, conds: Conds, ws: seq<Waiter>, pipe: nat)
    requires HonestTurn(turn, conds, ws, false, pipe)
    ensures var r := RunRound(turn, conds, ws, false, pipe);
            r.repeat || SomeWakes(r.waiters)
  {
    var start := Start(conds, turn.pending);
    var (s, ws1) := ScanThreads(turn.env, start, ws);
    var a, f, l := turn.answer, Adjust(turn.answer, s.any, pipe), Late(s.conds, turn.answer.raised);
    TimerOfThreads(turn.env, start, ws);
    if s.any {
      var i := AnyThread(turn.env, start, ws);
      DeliverKeepsWakes(f, l, ws1, i);
    } else if a.rc == 0 {
      TimerProgress(f, l, ws1, s.timer.value);
    } else if pipe in a.rfds {
      var sig :| sig in a.raised;
      var i, j := CaughtByThread(turn.env, start, ws, sig);
      SignalInThreads(f, l, ws1, i, j, sig);
    } else {
      var x: Which, fd: nat := SomeFound(f, a);
      var i, j := AskedByThread(turn.env, start, ws, x, fd);
      DeliverFound(f, l, ws1, i, j, x, fd);
    }
  }

  lemma {:induction false} TimerProgress(f: Found, l: Late, ws: seq<Waiter>, t: NextTimer)
    requires t.thread < |ws| && TimerIn(t, ws[t.thread].events)
    ensures SomeWakes(DeliverThreads(f, l, Expire(ws, t.thread, t.event)).1)
  {
    var ws2 := Expire(ws, t.thread, t.event);
    assert ws2[t.thread].events[t.event].status != Pending;
    DeliverKeepsWakes(f, l, ws2, t.thread);
  }

  lemma {:induction false} SomeFound(f: Found, a: Answer) returns (x: Which, fd: nat)
    requires a.rc == |a.rfds| + |a.wfds| + |a.efds| > 0 && f == Found(a.rfds, a.wfds, a.efds)
    ensures fd in FoundIn(f, x)
  {
    if a.rfds != {} {
      x := R; fd :| fd in a.rfds;
    } else if a.wfds != {} {
      x := W; fd :| fd in a.wfds;
    } else {
      x := E; fd :| fd in a.efds;
    }
  }
}
