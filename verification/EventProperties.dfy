/** What a round of the event manager promises to condition variables, to file descriptor events
    and to timers. */
module EventProperties {
  import opened TimeArith
  import opened EventManager
  import opened EventOutcomes

  // ---------------------------------------------------------------------------------------
  // Condition variables

  predicate CondPending(ev: Event, c: nat) {
    ev.kind == Cond(c) && ev.status == Pending
  }

  predicate CondMarked(before: Event, after: Event, c: nat) {
    CondPending(before, c) && after.status == Occurred
  }

  /** The number of events that wait for condition c. */
  function WaitingOn(events: seq<Event>, c: nat): nat {
    if events == [] then 0
    else WaitingOn(events[..|events| - 1], c) + if CondPending(events[|events| - 1], c) then 1 else 0
  }

  function AllWaitingOn(ws: seq<Waiter>, c: nat): nat {
    if ws == [] then 0 else AllWaitingOn(ws[..|ws| - 1], c) + WaitingOn(ws[|ws| - 1].events, c)
  }

  /** The number of those that a pass marks as occurred. */
  function Marks(before: seq<Event>, after: seq<Event>, c: nat): nat
    requires |before| == |after|
  {
    if before == [] then 0
    else
      var n := |before| - 1;
      Marks(before[..n], after[..n], c) + if CondMarked(before[n], after[n], c) then 1 else 0
  }

  predicate SameShape(before: seq<Waiter>, after: seq<Waiter>) {
    && |before| == |after|
    && forall i :: 0 <= i < |before| ==> |before[i].events| == |after[i].events|
  }

  function AllMarks(before: seq<Waiter>, after: seq<Waiter>, c: nat): nat
    requires SameShape(before, after)
  {
    if before == [] then 0
    else
      var n := |before| - 1;
      AllMarks(before[..n], after[..n], c) + Marks(before[n].events, after[n].events, c)
  }

  /** How many of `waiting` waiters a pass marks that finds the flags f. */
  function Served(f: CondFlags, waiting: nat): nat {
    if f.signaled && f.broadcast then waiting
    else if f.signaled && !f.handled && waiting > 0 then 1
    else 0
  }

  /** The flags that such a pass leaves behind. */
  function Used(f: CondFlags, waiting: nat): CondFlags {
    if f.signaled && !f.broadcast && !f.handled && waiting > 0 then f.(handled := true) else f
  }

  lemma {:induction false} CheckMarks(env: Env, s: Scan, sigpending: set<nat>, i: nat, j: nat, kind: Kind, c: nat)
    ensures var r := Check(env, s, sigpending, i, j, kind);
            var f, p := Flags(s.conds, c), if kind == Cond(c) then 1 else 0;
            Flags(r.scan.conds, c) == Used(f, p) && (kind == Cond(c) ==> (r.occurred <==> Served(f, 1) == 1))
  {
  }

  lemma {:induction false} ScanMarks(env: Env, s: Scan, sigpending: set<nat>, i: nat, events: seq<Event>, c: nat)
    ensures var r := ScanEvents(env, s, sigpending, i, events);
            var f, p := Flags(s.conds, c), WaitingOn(events, c);
            Marks(events, r.events, c) == Served(f, p) && Flags(r.scan.conds, c) == Used(f, p)
  {
    hide Check;
    if events != [] {
      var n := |events| - 1;
      ScanMarks(env, s, sigpending, i, events[..n], c);
      CheckMarks(env, ScanEvents(env, s, sigpending, i, events[..n]).scan,
                 ScanEvents(env, s, sigpending, i, events[..n]).sigpending, i, n, events[n].kind, c);
      var q, r := ScanEvents(env, s, sigpending, i, events[..n]), ScanEvents(env, s, sigpending, i, events);
      assert r.events[..n] == q.events;
    }
  }

  lemma {:induction false} ScanAllMarks(env: Env, s: Scan, ws: seq<Waiter>, c: nat)
    ensures var (s', out) := ScanThreads(env, s, ws);
            var f, p := Flags(s.conds, c), AllWaitingOn(ws, c);
            SameShape(ws, out) && AllMarks(ws, out, c) == Served(f, p) && Flags(s'.conds, c) == Used(f, p)
  {
    hide ScanEvents, Flags, Marks, WaitingOn;
    if ws != [] {
      var n := |ws| - 1;
      ScanAllMarks(env, s, ws[..n], c);
      var (s1, p) := ScanThreads(env, s, ws[..n]);
      ScanMarks(env, s1.(any := s1.any || ws[n].cancelreq), ws[n].sigpending, n, ws[n].events, c);
      var out := ScanThreads(env, s, ws).1;
      assert out[..n] == p;
    }
  }

  /** Is there an event of condition c that has occurred? */
  predicate SomeServed(events: seq<Event>, c: nat) {
    exists j :: 0 <= j < |events| && events[j].kind == Cond(c) && events[j].status != Pending
  }

  predicate SomeThreadServed(ws: seq<Waiter>, c: nat) {
    exists i :: 0 <= i < |ws| && SomeServed(ws[i].events, c)
  }

  /** The second pass clears the flags of a condition exactly when one of its waiters was served. */
  lemma {:induction false} DeliverClears(f: Found, l: Late, events: seq<Event>, c: nat)
    ensures var r := DeliverEvents(f, l, events);
            Flags(r.late.conds, c) ==
              if Flags(l.conds, c).signaled && SomeServed(events, c) then CLEAR else Flags(l.conds, c)
  {
    if events != [] {
      var n := |events| - 1;
      DeliverClears(f, l, events[..n], c);
      assert SomeServed(events, c) <==>
               SomeServed(events[..n], c) || (events[n].kind == Cond(c) && events[n].status != Pending) by {
        if j :| 0 <= j < |events| && events[j].kind == Cond(c) && events[j].status != Pending {
          if j < n { assert events[..n][j] == events[j]; }
        }
        if SomeServed(events[..n], c) {
          var j :| 0 <= j < n && events[..n][j].kind == Cond(c) && events[..n][j].status != Pending;
          assert events[j] == events[..n][j];
        }
      }
    }
  }

  lemma {:induction false} DeliverAllClears(f: Found, l: Late, ws: seq<Waiter>, c: nat)
    ensures Flags(DeliverThreads(f, l, ws).0.conds, c) ==
              if Flags(l.conds, c).signaled && SomeThreadServed(ws, c) then CLEAR else Flags(l.conds, c)
  {
    if ws != [] {
      var n := |ws| - 1;
      DeliverAllClears(f, l, ws[..n], c);
      var l1 := DeliverThreads(f, l, ws[..n]).0;
      DeliverClears(f, l1, ws[n].events, c);
      assert SomeThreadServed(ws, c) <==> SomeThreadServed(ws[..n], c) || SomeServed(ws[n].events, c) by {
        if i :| 0 <= i < |ws| && SomeServed(ws[i].events, c) {
          if i < n { assert ws[..n][i] == ws[i]; }
        }
        if SomeThreadServed(ws[..n], c) {
          var i :| 0 <= i < n && SomeServed(ws[..n][i].events, c);
          assert ws[i] == ws[..n][i];
        }
      }
    }
  }

  /** Two later views of the same threads that agree on the events waiting for c before. */
  predicate AgreeOn(before: seq<Waiter>, a: seq<Waiter>, b: seq<Waiter>, c: nat) {
    && SameShape(before, a) && SameShape(before, b)
    && forall i, j :: 0 <= i < |before| && 0 <= j < |before[i].events| && CondPending(before[i].events[j], c) ==>
         a[i].events[j].status == b[i].events[j].status
  }

  lemma {:induction false} MarksAgree(before: seq<Event>, a: seq<Event>, b: seq<Event>, c: nat)
    requires |before| == |a| == |b|
    requires forall j :: 0 <= j < |before| && CondPending(before[j], c) ==> a[j].status == b[j].status
    ensures Marks(before, a, c) == Marks(before, b, c)
  {
    if before != [] {
      var n := |before| - 1;
      MarksAgree(before[..n], a[..n], b[..n], c);
    }
  }

  lemma {:induction false} AllMarksAgree(before: seq<Waiter>, a: seq<Waiter>, b: seq<Waiter>, c: nat)
    requires AgreeOn(before, a, b, c)
    ensures AllMarks(before, a, c) == AllMarks(before, b, c)
  {
    if before != [] {
      var n := |before| - 1;
      AllMarksAgree(before[..n], a[..n], b[..n], c);
      MarksAgree(before[n].events, a[n].events, b[n].events, c);
    }
  }

  lemma {:induction false} MarkedSomewhere(before: seq<Event>, after: seq<Event>, c: nat) returns (j: nat)
    requires |before| == |after| && Marks(before, after, c) > 0
    ensures j < |before| && CondMarked(before[j], after[j], c)
  {
    var n := |before| - 1;
    if CondMarked(before[n], after[n], c) {
      j := n;
    } else {
      j := MarkedSomewhere(before[..n], after[..n], c);
    }
  }

  lemma {:induction false} ThreadMarkedSomewhere(before: seq<Waiter>, after: seq<Waiter>, c: nat)
    returns (i: nat, j: nat)
    requires SameShape(before, after) && AllMarks(before, after, c) > 0
    ensures i < |before| && j < |before[i].events| && CondMarked(before[i].events[j], after[i].events[j], c)
  {
    var n := |before| - 1;
    if Marks(before[n].events, after[n].events, c) > 0 {
      i := n;
      j := MarkedSomewhere(before[n].events, after[n].events, c);
    } else {
      i, j := ThreadMarkedSomewhere(before[..n], after[..n], c);
    }
  }

  /** The part of a round between the two passes and after them leaves condition events alone. */
  lemma {:induction false} RestKeepsConds(f: Found, l: Late, ws: seq<Waiter>,
                                          ws1: seq<Waiter>, ws2: seq<Waiter>, c: nat)
    requires SameShape(ws, ws1) && SameShape(ws1, ws2)
    requires forall i, j :: 0 <= i < |ws| && 0 <= j < |ws[i].events| ==> ws1[i].events[j].kind == ws[i].events[j].kind
    requires forall i, j :: 0 <= i < |ws| && 0 <= j < |ws[i].events| && ws1[i].events[j].kind.Cond? ==>
               ws2[i].events[j] == ws1[i].events[j]
    ensures AgreeOn(ws, ws1, DeliverThreads(f, l, ws2).1, c)
  {
    var out := DeliverThreads(f, l, ws2).1;
    forall i | 0 <= i < |ws| ensures |out[i].events| == |ws[i].events| {
      var l' := DeliverThreadsAt(f, l, ws2, i);
    }
    forall i, j | 0 <= i < |ws| && 0 <= j < |ws[i].events| && CondPending(ws[i].events[j], c)
      ensures ws1[i].events[j].status == out[i].events[j].status
    {
      var l' := DeliverThreadsAt(f, l, ws2, i);
      var l'' := DeliverEventsAt(f, l', ws2[i].events, j);
    }
  }

  lemma {:induction false} ScanKeepsKinds(env: Env, s: Scan, ws: seq<Waiter>)
    ensures var out := ScanThreads(env, s, ws).1;
            && SameShape(ws, out)
            && (forall i, j :: 0 <= i < |ws| && 0 <= j < |ws[i].events| ==>
                  out[i].events[j].kind == ws[i].events[j].kind)
            && (forall i, j :: 0 <= i < |ws| && 0 <= j < |ws[i].events| && ws[i].events[j].status == Pending ==>
                  out[i].events[j].status != Failed)
  {
    var out := ScanThreads(env, s, ws).1;
    forall i | 0 <= i < |ws| ensures |out[i].events| == |ws[i].events| {
      var s' := ScanThreadsAt(env, s, ws, i);
    }
    forall i, j | 0 <= i < |ws| && 0 <= j < |ws[i].events|
      ensures out[i].events[j].kind == ws[i].events[j].kind
      ensures ws[i].events[j].status == Pending ==> out[i].events[j].status != Failed
    {
      var s' := ScanThreadsAt(env, s, ws, i);
      var s'', sigs := ScanEventsAt(env, s', ws[i].sigpending, i, ws[i].events, j);
    }
  }

  /** What a notification does to the threads waiting on condition c in one round: a broadcast
      marks all of them, a plain signal that nobody handled yet marks one if there is one, and as
      soon as anybody was marked no flag is left. */
  lemma {:induction false} CondRound(turn: Turn, conds: Conds, ws: seq<Waiter>, dopoll: bool, pipe: nat, c: nat)
    ensures var r := RunRound(turn, conds, ws, dopoll, pipe);
            var f, waiting := Flags(conds, c), AllWaitingOn(ws, c);
            && SameShape(ws, r.waiters)
            && (f.signaled && f.broadcast ==> AllMarks(ws, r.waiters, c) == waiting)
            && (f.signaled && !f.broadcast && !f.handled ==> AllMarks(ws, r.waiters, c) == if waiting > 0 then 1 else 0)
            && (!f.signaled ==> AllMarks(ws, r.waiters, c) == 0)
            && AllMarks(ws, r.waiters, c) == Served(f, waiting)
            && (AllMarks(ws, r.waiters, c) > 0 ==> Flags(r.conds, c) == CLEAR)
            && (AllMarks(ws, r.waiters, c) == 0 && !SomeThreadServed(ws, c) ==> Flags(r.conds, c) == f)
  {
    hide AllMarks, ScanThreads, DeliverThreads;
    var start := Start(conds, turn.pending);
    var (s, ws1) := ScanThreads(turn.env, start, ws);
    var poll := dopoll || s.any;
    TimerOfThreads(turn.env, start, ws);
    var elapsed := Elapsed(turn.answer, poll, s.timer);
    var ws2 := if elapsed && !s.timer.value.isFunc then Expire(ws1, s.timer.value.thread, s.timer.value.event) else ws1;
    var fd, l := Adjust(turn.answer, poll, pipe), Late(s.conds, turn.answer.raised);
    ScanAllMarks(turn.env, start, ws, c);
    ScanKeepsKinds(turn.env, start, ws);
    RestKeepsConds(fd, l, ws, ws1, ws2, c);
    AllMarksAgree(ws, ws1, DeliverThreads(fd, l, ws2).1, c);
    DeliverAllClears(fd, l, ws2, c);
    if AllMarks(ws, ws1, c) > 0 {
      var i, j := ThreadMarkedSomewhere(ws, ws1, c);
      assert ws2[i].events[j] == ws1[i].events[j];
      assert SomeServed(ws2[i].events, c);
    } else if SomeThreadServed(ws2, c) && !SomeThreadServed(ws, c) {
      NewlyServed(ws, ws1, ws2, c);
    }
  }

  lemma {:induction false} MarkCounts(before: seq<Event>, after: seq<Event>, c: nat, j: nat)
    requires |before| == |after| && j < |before| && CondMarked(before[j], after[j], c)
    ensures Marks(before, after, c) > 0
  {
    var n := |before| - 1;
    if j < n { MarkCounts(before[..n], after[..n], c, j); }
  }

  lemma {:induction false} AllMarkCounts(before: seq<Waiter>, after: seq<Waiter>, c: nat, i: nat, j: nat)
    requires SameShape(before, after) && i < |before| && j < |before[i].events|
    requires CondMarked(before[i].events[j], after[i].events[j], c)
    ensures AllMarks(before, after, c) > 0
  {
    var n := |before| - 1;
    if i < n {
      AllMarkCounts(before[..n], after[..n], c, i, j);
    } else {
      MarkCounts(before[n].events, after[n].events, c, j);
    }
  }

  /** Who is served after the first pass and was not before has been marked by it. */
  lemma {:induction false} NewlyServed(ws: seq<Waiter>, ws1: seq<Waiter>, ws2: seq<Waiter>, c: nat)
    requires SameShape(ws, ws1) && SameShape(ws1, ws2) && SomeThreadServed(ws2, c) && !SomeThreadServed(ws, c)
    requires forall i, j :: 0 <= i < |ws| && 0 <= j < |ws[i].events| ==> ws1[i].events[j].kind == ws[i].events[j].kind
    requires forall i, j :: 0 <= i < |ws| && 0 <= j < |ws[i].events| ==> ws2[i].events[j].kind == ws1[i].events[j].kind
    requires forall i, j :: 0 <= i < |ws| && 0 <= j < |ws[i].events| && ws1[i].events[j].kind.Cond? ==>
               ws2[i].events[j] == ws1[i].events[j]
    requires forall i, j :: 0 <= i < |ws| && 0 <= j < |ws[i].events| && ws[i].events[j].status == Pending ==>
               ws1[i].events[j].status != Failed
    ensures AllMarks(ws, ws1, c) > 0
  {
    hide AllMarks;
    var i :| 0 <= i < |ws2| && SomeServed(ws2[i].events, c);
    var j :| 0 <= j < |ws2[i].events| && ws2[i].events[j].kind == Cond(c) && ws2[i].events[j].status != Pending;
    assert !SomeServed(ws[i].events, c);
    AllMarkCounts(ws, ws1, c, i, j);
  }

  /** So one notification never serves waiters in two rounds. */
  lemma {:induction false} OneNotifyOneRound(turn: Turn, conds: Conds, ws: seq<Waiter>, dopoll: bool, pipe: nat, c: nat,
                          turn2: Turn, ws2: seq<Waiter>, dopoll2: bool)
    ensures var r := RunRound(turn, conds, ws, dopoll, pipe);
            var r2 := RunRound(turn2, r.conds, ws2, dopoll2, pipe);
            && SameShape(ws, r.waiters) && SameShape(ws2, r2.waiters)
            && (AllMarks(ws, r.waiters, c) > 0 ==> AllMarks(ws2, r2.waiters, c) == 0)
  {
    CondRound(turn, conds, ws, dopoll, pipe, c);
    CondRound(turn2, RunRound(turn, conds, ws, dopoll, pipe).conds, ws2, dopoll2, pipe, c);
  }

  // ---------------------------------------------------------------------------------------
  // File descriptors: one select for everybody is as good as one each

  lemma {:induction false} CheckAsks(env: Env, s: Scan, sigpending: set<nat>, i: nat, j: nat, kind: Kind, x: Which)
    ensures var r := Check(env, s, sigpending, i, j, kind).scan;
      && Asked(s, x) <= Asked(r, x) && s.fdmax <= r.fdmax
      && forall fd: nat :: Wants(kind, x, fd) ==> fd in Asked(r, x) && fd <= r.fdmax
  {
  }

  lemma {:induction false} AskedStays(env: Env, s: Scan, sigpending: set<nat>, i: nat, events: seq<Event>, x: Which)
    ensures var r := ScanEvents(env, s, sigpending, i, events);
            Asked(s, x) <= Asked(r.scan, x) && s.fdmax <= r.scan.fdmax
  {
    hide Check;
    if events != [] {
      var n := |events| - 1;
      AskedStays(env, s, sigpending, i, events[..n], x);
      var r := ScanEvents(env, s, sigpending, i, events[..n]);
      CheckAsks(env, r.scan, r.sigpending, i, n, events[n].kind, x);
    }
  }

  lemma {:induction false} EventAsks(env: Env, s: Scan, sigpending: set<nat>, i: nat, events: seq<Event>, j: nat,
                                     x: Which, fd: nat)
    requires j < |events| && PendingWants(events[j], x, fd)
    ensures var r := ScanEvents(env, s, sigpending, i, events);
            fd in Asked(r.scan, x) && fd <= r.scan.fdmax
  {
    hide Check, Wants;
    var n := |events| - 1;
    if j < n {
      EventAsks(env, s, sigpending, i, events[..n], j, x, fd);
    }
    var r := ScanEvents(env, s, sigpending, i, events[..n]);
    CheckAsks(env, r.scan, r.sigpending, i, n, events[n].kind, x);
  }

  lemma {:induction false} ThreadAsks(env: Env, s: Scan, ws: seq<Waiter>, i: nat, j: nat, x: Which, fd: nat)
    requires i < |ws| && j < |ws[i].events| && PendingWants(ws[i].events[j], x, fd)
    ensures var r := ScanThreads(env, s, ws).0;
            fd in Asked(r, x) && fd <= r.fdmax
  {
    var n := |ws| - 1;
    var s1 := ScanThreads(env, s, ws[..n]).0;
    var s2 := s1.(any := s1.any || ws[n].cancelreq);
    if i < n {
      ThreadAsks(env, s, ws[..n], i, j, x, fd);
      AskedStays(env, s2, ws[n].sigpending, n, ws[n].events, x);
    } else {
      EventAsks(env, s2, ws[n].sigpending, n, ws[n].events, j, x, fd);
    }
  }

  /** What select(2) answers when `ready` are the file descriptors that are ready. */
  predicate Kernel(ask: Ask, a: Answer, ready: Found) {
    && a.rfds == (set fd | fd in ask.rfds && fd in ready.rfds && fd < ask.nfd)
    && a.wfds == (set fd | fd in ask.wfds && fd in ready.wfds && fd < ask.nfd)
    && a.efds == (set fd | fd in ask.efds && fd in ready.efds && fd < ask.nfd)
    && a.rc == |a.rfds| + |a.wfds| + |a.efds|
  }

  /** The result of a select of its own for a single event. */
  function PrivateCount(kind: Kind, ready: Found): nat {
    match kind
    case Fd(fd, r, w, e) =>
      (if r && fd in ready.rfds then 1 else 0) + (if w && fd in ready.wfds then 1 else 0) +
      (if e && fd in ready.efds then 1 else 0)
    case Select(nfd, r, w, e, _) =>
      |Below(r, nfd) * ready.rfds| + |Below(w, nfd) * ready.wfds| + |Below(e, nfd) * ready.efds|
    case _ => 0
  }

  /** A caller's set after a select of its own: only what is ready is left below nfd. */
  ghost predicate PrivateSet(before: Option<set<nat>>, after: Option<set<nat>>, nfd: int, ready: set<nat>) {
    && (before.None? <==> after.None?)
    && (before.Some? ==> Below(after, nfd) == Below(before, nfd) * ready)
    && (before.Some? ==> forall fd :: fd >= nfd ==> (fd in after.value <==> fd in before.value))
  }

  /** An answer with the signal pipe taken out still tells everything else. */
  /** What threads may see: the manager keeps its own signal pipe to itself when it has waited. */
  function Visible(ready: Found, dopoll: bool, pipe: nat): Found {
    if dopoll then ready else ready.(rfds := ready.rfds - {pipe})
  }

  lemma {:induction false} AdjustTells(a: Answer, dopoll: bool, pipe: nat, x: Which, fd: nat)
    requires a.rc == |a.rfds| + |a.wfds| + |a.efds|
    ensures fd in FoundIn(Adjust(a, dopoll, pipe), x) <==>
              fd in FoundIn(Visible(Found(a.rfds, a.wfds, a.efds), dopoll, pipe), x)
  {
    if pipe in a.rfds {
      assert |a.rfds - {pipe}| == |a.rfds| - 1;
      assert fd in a.rfds && fd != pipe ==> fd in a.rfds - {pipe};
    }
  }

  /** What the second pass does to a file descriptor event, from the sets that were found. */
  lemma {:induction false} DeliverPrivately(f: Found, l: Late, ev: Event, ready: Found)
    requires ev.status == Pending && (ev.kind.Fd? || ev.kind.Select?)
    requires forall x: Which, fd :: Wants(ev.kind, x, fd) ==> (fd in FoundIn(f, x) <==> fd in FoundIn(ready, x))
    ensures var ev' := Deliver(f, l, ev).1; var n := PrivateCount(ev.kind, ready);
      && (ev'.status == Occurred <==> n > 0)
      && (n == 0 ==> ev' == ev)
      && (ev.kind.Fd? ==> ev'.kind == ev.kind)
      && (ev.kind.Select? && n > 0 ==>
            && ev'.kind.Select? && ev'.kind.nfd == ev.kind.nfd && ev'.kind.count == n
            && PrivateSet(ev.kind.rfds, ev'.kind.rfds, ev.kind.nfd, ready.rfds)
            && PrivateSet(ev.kind.wfds, ev'.kind.wfds, ev.kind.nfd, ready.wfds)
            && PrivateSet(ev.kind.efds, ev'.kind.efds, ev.kind.nfd, ready.efds))
  {
    if ev.kind.Select? {
      var k := ev.kind;
      forall fd ensures fd in Hits(k.rfds, k.nfd, f.rfds) <==> fd in Below(k.rfds, k.nfd) * ready.rfds {
        assert Wants(k, R, fd) <==> fd in Below(k.rfds, k.nfd);
      }
      forall fd ensures fd in Hits(k.wfds, k.nfd, f.wfds) <==> fd in Below(k.wfds, k.nfd) * ready.wfds {
        assert Wants(k, W, fd) <==> fd in Below(k.wfds, k.nfd);
      }
      forall fd ensures fd in Hits(k.efds, k.nfd, f.efds) <==> fd in Below(k.efds, k.nfd) * ready.efds {
        assert Wants(k, E, fd) <==> fd in Below(k.efds, k.nfd);
      }
      assert Hits(k.rfds, k.nfd, f.rfds) == Below(k.rfds, k.nfd) * ready.rfds;
      assert Hits(k.wfds, k.nfd, f.wfds) == Below(k.wfds, k.nfd) * ready.wfds;
      assert Hits(k.efds, k.nfd, f.efds) == Below(k.efds, k.nfd) * ready.efds;
      assert Below(Project(k.rfds, k.nfd, f.rfds), k.nfd) == Hits(k.rfds, k.nfd, f.rfds);
      assert Below(Project(k.wfds, k.nfd, f.wfds), k.nfd) == Hits(k.wfds, k.nfd, f.wfds);
      assert Below(Project(k.efds, k.nfd, f.efds), k.nfd) == Hits(k.efds, k.nfd, f.efds);
    } else {
      assert Wants(ev.kind, R, ev.kind.fd) == ev.kind.readable;
      assert Wants(ev.kind, W, ev.kind.fd) == ev.kind.writeable;
      assert Wants(ev.kind, E, ev.kind.fd) == ev.kind.exception;
    }
  }

  /** Merging what all threads wait for, doing one select and handing the answer out again gives
      every file descriptor event the result that a select of its own would have given, except that the
      manager's own signal pipe shows as not ready after a wait. */
  lemma {:induction false} Multiplex(turn: Turn, conds: Conds, ws: seq<Waiter>, dopoll: bool, pipe: nat,
                                     ready: Found, i: nat, j: nat)
    requires i < |ws| && j < |ws[i].events|
    requires var ev := ws[i].events[j];
             ev.status == Pending && (ev.kind.Fd? || ev.kind.Select?)
    requires Kernel(RoundAsk(turn, conds, ws, dopoll, pipe), turn.answer, ready)
    ensures var r := RunRound(turn, conds, ws, dopoll, pipe);
      var polled := dopoll || ScanThreads(turn.env, Start(conds, turn.pending), ws).0.any;
      var ev, seen := ws[i].events[j], Visible(ready, polled, pipe);
      var n := PrivateCount(ev.kind, seen);
      && j < |r.waiters[i].events|
      && var ev' := r.waiters[i].events[j];
      && (ev'.status == Occurred <==> n > 0)
      && (n == 0 ==> ev' == ev)
      && (ev.kind.Fd? ==> ev'.kind == ev.kind)
      && (ev.kind.Select? && n > 0 ==>
            && ev'.kind.Select? && ev'.kind.nfd == ev.kind.nfd && ev'.kind.count == n
            && PrivateSet(ev.kind.rfds, ev'.kind.rfds, ev.kind.nfd, seen.rfds)
            && PrivateSet(ev.kind.wfds, ev'.kind.wfds, ev.kind.nfd, seen.wfds)
            && PrivateSet(ev.kind.efds, ev'.kind.efds, ev.kind.nfd, seen.efds))
  {
    hide ScanThreads, DeliverThreads, ScanEvents, DeliverEvents, Deliver, PrivateCount, PrivateSet, Wants;
    var start := Start(conds, turn.pending);
    var (s, ws1) := ScanThreads(turn.env, start, ws);
    var poll := dopoll || s.any;
    TimerOfThreads(turn.env, start, ws);
    var elapsed := Elapsed(turn.answer, poll, s.timer);
    var ws2 := if elapsed && !s.timer.value.isFunc then Expire(ws1, s.timer.value.thread, s.timer.value.event) else ws1;
    var f, l, ev := Adjust(turn.answer, poll, pipe), Late(s.conds, turn.answer.raised), ws[i].events[j];
    var s1 := ScanThreadsAt(turn.env, start, ws, i);
    var s2, sigs := ScanEventsAt(turn.env, s1, ws[i].sigpending, i, ws[i].events, j);
    assert ws2[i].events[j] == ev;
    var seen := Visible(ready, poll, pipe);
    forall x: Which, fd | Wants(ev.kind, x, fd) ensures fd in FoundIn(f, x) <==> fd in FoundIn(seen, x) {
      ThreadAsks(turn.env, start, ws, i, j, x, fd);
      AdjustTells(turn.answer, poll, pipe, x, fd);
    }
    var l1 := DeliverThreadsAt(f, l, ws2, i);
    var l2 := DeliverEventsAt(f, l1, ws2[i].events, j);
    DeliverPrivately(f, l2, ev, seen);
  }

  // ---------------------------------------------------------------------------------------
  // Timers: the delay ends no later than the first of them

  /** A time in a window of 2^31 seconds from lo on, so that differences of seconds fit an int. */
  predicate InWindow(t: Time, lo: int) {
    InRange(t) && lo <= t.sec <= lo + INT_MAX
  }

  /** When an event has to be looked at again, if it is a matter of time. */
  function Deadline(kind: Kind, now: Time): Option<Time> {
    match kind
    case Timer(tv) => Some(tv)
    case Func(_, period) => Some(Sum(now, period))
    case _ => None
  }

  predicate TimeOk(kind: Kind, now: Time, lo: int) {
    && (Deadline(kind, now).Some? ==> InWindow(Deadline(kind, now).value, lo))
    && (kind.Func? ==> InRange(kind.period) && Total(kind.period) >= 0)
  }

  predicate ChosenOk(timer: Option<NextTimer>, now: Time, lo: int) {
    timer.Some? ==> InWindow(timer.value.value, lo) && Total(timer.value.value) >= Total(now)
  }

  /** The chosen timer is due no later than tv. */
  predicate DueBy(timer: Option<NextTimer>, tv: Time) {
    timer.Some? && Total(timer.value.value) <= Total(tv)
  }

  predicate Sooner(a: Option<NextTimer>, b: Option<NextTimer>) {
    b.Some? ==> DueBy(a, b.value.value)
  }

  predicate Covers(timer: Option<NextTimer>, ev: Event, now: Time) {
    ev.status == Pending && Deadline(ev.kind, now).Some? ==> DueBy(timer, Deadline(ev.kind, now).value)
  }

  lemma {:induction false} CheckTimer(env: Env, s: Scan, sigpending: set<nat>, i: nat, j: nat, kind: Kind, lo: int)
    requires InWindow(env.now, lo) && TimeOk(kind, env.now, lo) && ChosenOk(s.timer, env.now, lo)
    ensures var c := Check(env, s, sigpending, i, j, kind);
      && ChosenOk(c.scan.timer, env.now, lo) && Sooner(c.scan.timer, s.timer)
      && (!c.occurred ==> Covers(c.scan.timer, Event(kind, Pending), env.now))
  {
    if kind.Timer? {
      CompareOrder(kind.tv, env.now);
      if s.timer.Some? { CompareOrder(kind.tv, s.timer.value.value); }
    } else if kind.Func? {
      SumTotal(env.now, kind.period);
      if s.timer.Some? { CompareOrder(Sum(env.now, kind.period), s.timer.value.value); }
    }
  }

  lemma {:induction false} EventTimers(env: Env, s: Scan, sigpending: set<nat>, i: nat, events: seq<Event>, lo: int)
    requires InWindow(env.now, lo) && ChosenOk(s.timer, env.now, lo)
    requires forall j :: 0 <= j < |events| ==> TimeOk(events[j].kind, env.now, lo)
    ensures var r := ScanEvents(env, s, sigpending, i, events);
      && ChosenOk(r.scan.timer, env.now, lo) && Sooner(r.scan.timer, s.timer)
      && forall j :: 0 <= j < |events| ==> Covers(r.scan.timer, r.events[j], env.now)
  {
    if events != [] {
      var n := |events| - 1;
      EventTimers(env, s, sigpending, i, events[..n], lo);
      var q := ScanEvents(env, s, sigpending, i, events[..n]);
      CheckTimer(env, q.scan, q.sigpending, i, n, events[n].kind, lo);
      var r := ScanEvents(env, s, sigpending, i, events);
      forall j | 0 <= j < n ensures Covers(r.scan.timer, r.events[j], env.now) {
        assert r.events[j] == q.events[j];
      }
    }
  }

  lemma {:induction false} ThreadTimers(env: Env, s: Scan, ws: seq<Waiter>, lo: int)
    requires InWindow(env.now, lo) && ChosenOk(s.timer, env.now, lo)
    requires forall i, j :: 0 <= i < |ws| && 0 <= j < |ws[i].events| ==> TimeOk(ws[i].events[j].kind, env.now, lo)
    ensures var (s', out) := ScanThreads(env, s, ws);
      && ChosenOk(s'.timer, env.now, lo) && Sooner(s'.timer, s.timer)
      && forall i, j :: 0 <= i < |out| && 0 <= j < |out[i].events| ==> Covers(s'.timer, out[i].events[j], env.now)
  {
    if ws != [] {
      var n := |ws| - 1;
      ThreadTimers(env, s, ws[..n], lo);
      var (s1, p) := ScanThreads(env, s, ws[..n]);
      EventTimers(env, s1.(any := s1.any || ws[n].cancelreq), ws[n].sigpending, n, ws[n].events, lo);
      var (s', out) := ScanThreads(env, s, ws);
      forall i, j | 0 <= i < |out| && 0 <= j < |out[i].events| ensures Covers(s'.timer, out[i].events[j], env.now) {
        if i < n { assert out[i] == p[i]; }
      }
    }
  }

  /** The delay given to a blocking select is not negative, and it is there and ends no later than
      the deadline of any timer or event function that is still pending. */
  lemma {:induction false} DelayIsSound(turn: Turn, conds: Conds, ws: seq<Waiter>, pipe: nat, lo: int)
    requires InWindow(turn.env.now, lo)
    requires forall i, j :: 0 <= i < |ws| && 0 <= j < |ws[i].events| ==> TimeOk(ws[i].events[j].kind, turn.env.now, lo)
    ensures var (s, out) := ScanThreads(turn.env, Start(conds, turn.pending), ws);
      var now, delay := turn.env.now, Question(s, s.any, turn.env.now, pipe).delay;
      && (delay.Some? ==> Total(delay.value) >= 0 && InRange(delay.value))
      && forall i, j :: (0 <= i < |out| && 0 <= j < |out[i].events| && out[i].events[j].status == Pending &&
                         Deadline(out[i].events[j].kind, now).Some?) ==>
             delay.Some? && Total(delay.value) <= Total(Deadline(out[i].events[j].kind, now).value) - Total(now)
  {
    var start := Start(conds, turn.pending);
    ThreadTimers(turn.env, start, ws, lo);
    var (s, out) := ScanThreads(turn.env, start, ws);
    if s.timer.Some? {
      DifferenceTotal(s.timer.value.value, turn.env.now);
    }
    forall i, j | 0 <= i < |out| && 0 <= j < |out[i].events| && out[i].events[j].status == Pending &&
                  Deadline(out[i].events[j].kind, turn.env.now).Some?
      ensures DueBy(s.timer, Deadline(out[i].events[j].kind, turn.env.now).value) &&
              Total(turn.env.now) <= Total(Deadline(out[i].events[j].kind, turn.env.now).value)
    {
      assert Covers(s.timer, out[i].events[j], turn.env.now);
    }
  }

  /** The chosen timer is the deadline of the event that it names. */
  predicate TimerIs(t: NextTimer, events: seq<Event>, now: Time) {
    t.event < |events| && events[t.event].status == Pending &&
    Deadline(events[t.event].kind, now) == Some(t.value) && t.isFunc == events[t.event].kind.Func?
  }

  lemma {:induction false} RingTimer(env: Env, s: Scan, sigpending: set<nat>, i: nat, events: seq<Event>)
    ensures var r := ScanEvents(env, s, sigpending, i, events);
      r.scan.timer == s.timer ||
      (r.scan.timer.Some? && r.scan.timer.value.thread == i && TimerIs(r.scan.timer.value, r.events, env.now))
  {
    hide Compare, Sum, Seen;
    if events != [] {
      RingTimer(env, s, sigpending, i, events[..|events| - 1]);
    }
  }

  lemma {:induction false} ChosenTimer(env: Env, s: Scan, ws: seq<Waiter>)
    requires s.timer.None?
    ensures var (s', out) := ScanThreads(env, s, ws);
      s'.timer.Some? ==> s'.timer.value.thread < |ws| &&
                         TimerIs(s'.timer.value, out[s'.timer.value.thread].events, env.now)
  {
    hide ScanEvents, TimerIs;
    if ws != [] {
      var n := |ws| - 1;
      ChosenTimer(env, s, ws[..n]);
      var s1 := ScanThreads(env, s, ws[..n]).0;
      RingTimer(env, s1.(any := s1.any || ws[n].cancelreq), ws[n].sigpending, n, ws[n].events);
    }
  }

  /** An event that is still pending after the first pass and is a matter of time. */
  predicate Timed(ws: seq<Waiter>, i: int, j: int, now: Time) {
    && 0 <= i < |ws| && 0 <= j < |ws[i].events|
    && ws[i].events[j].status == Pending && Deadline(ws[i].events[j].kind, now).Some?
  }

  /** The time that is left until it is due. */
  function Left(ws: seq<Waiter>, i: int, j: int, now: Time): int
    requires Timed(ws, i, j, now)
  {
    Total(Deadline(ws[i].events[j].kind, now).value) - Total(now)
  }

  /** The delay of select(2): zero while polling; in a wait exactly the time to the first
      deadline of all that are pending, and no limit exactly when there is none. */
  lemma {:induction false} DelayExactly(turn: Turn, conds: Conds, ws: seq<Waiter>, dopoll: bool, pipe: nat, lo: int)
    requires InWindow(turn.env.now, lo)
    requires forall i, j :: 0 <= i < |ws| && 0 <= j < |ws[i].events| ==> TimeOk(ws[i].events[j].kind, turn.env.now, lo)
    ensures var (s, out) := ScanThreads(turn.env, Start(conds, turn.pending), ws);
      var now, delay := turn.env.now, RoundAsk(turn, conds, ws, dopoll, pipe).delay;
      && (dopoll || s.any ==> delay == Some(ZERO))
      && (!dopoll && !s.any ==>
            && (delay.None? <==> forall i, j :: !Timed(out, i, j, now))
            && (delay.Some? ==> exists i, j :: Timed(out, i, j, now) && Total(delay.value) == Left(out, i, j, now))
            && forall i, j :: Timed(out, i, j, now) ==> delay.Some? && Total(delay.value) <= Left(out, i, j, now))
  {
    hide ScanThreads;
    var start, now := Start(conds, turn.pending), turn.env.now;
    ChosenTimer(turn.env, start, ws);
    ThreadTimers(turn.env, start, ws, lo);
    var (s, out) := ScanThreads(turn.env, start, ws);
    if s.timer.Some? {
      DifferenceTotal(s.timer.value.value, now);
      assert Timed(out, s.timer.value.thread, s.timer.value.event, now);
    }
    forall i, j | Timed(out, i, j, now) ensures DueBy(s.timer, Deadline(out[i].events[j].kind, now).value) {
      assert Covers(s.timer, out[i].events[j], now);
    }
  }

  /** No timer is over before its time: if it is over after a round, its time was past at the start of
      the round, or the wait has lasted as long as was asked for and its time is past then. */
  lemma {:induction false} NeverEarly(turn: Turn, conds: Conds, ws: seq<Waiter>, dopoll: bool, pipe: nat, lo: int,
                                      i: nat, j: nat)
    requires InWindow(turn.env.now, lo) && i < |ws| && j < |ws[i].events|
    requires ws[i].events[j].status == Pending && ws[i].events[j].kind.Timer? && InWindow(ws[i].events[j].kind.tv, lo)
    ensures var after := RunRound(turn, conds, ws, dopoll, pipe).waiters[i];
      var now, delay := turn.env.now, RoundAsk(turn, conds, ws, dopoll, pipe).delay;
      && j < |after.events|
      && (after.events[j].status != Pending ==>
            || Total(ws[i].events[j].kind.tv) <= Total(now)
            || (turn.answer.rc == 0 && delay.Some? &&
                Total(ws[i].events[j].kind.tv) == Total(now) + Total(delay.value)))
  {
    hide ScanThreads, RunRound;
    var start := Start(conds, turn.pending);
    TimerRound(turn, conds, ws, dopoll, pipe, i, j);
    TimerStatus(turn, conds, ws, dopoll, pipe, i, j);
    ChosenTimer(turn.env, start, ws);
    ScanKeepsKinds(turn.env, start, ws);
    var s := ScanThreads(turn.env, start, ws).0;
    CompareOrder(ws[i].events[j].kind.tv, turn.env.now);
    if s.timer.Some? { DifferenceTotal(ws[i].events[j].kind.tv, turn.env.now); }
  }

  lemma {:induction false} TimerStatus(turn: Turn, conds: Conds, ws: seq<Waiter>, dopoll: bool, pipe: nat,
                                       i: nat, j: nat)
    requires i < |ws| && j < |ws[i].events| && ws[i].events[j].status == Pending && ws[i].events[j].kind.Timer?
    ensures var after := RunRound(turn, conds, ws, dopoll, pipe).waiters[i];
      j < |after.events| ==> after.events[j].status != Failed
  {
    hide ScanThreads, DeliverThreads, ScanEvents, DeliverEvents, Compare, Deliver, RunRound;
    var start := Start(conds, turn.pending);
    var s1 := ScanThreadsAt(turn.env, start, ws, i);
    var s2, sigs := ScanEventsAt(turn.env, s1, ws[i].sigpending, i, ws[i].events, j);
    TimerOfThreads(turn.env, start, ws);
    RoundLeaves(turn, conds, ws, dopoll, pipe, i, j);
  }

  /** A round is repeated exactly when the wait has timed out and what was due first is an event function
      that has to be asked again. */
  lemma {:induction false} RepeatExactly(turn: Turn, conds: Conds, ws: seq<Waiter>, dopoll: bool, pipe: nat)
    ensures var (s, out) := ScanThreads(turn.env, Start(conds, turn.pending), ws);
      RunRound(turn, conds, ws, dopoll, pipe).repeat <==>
        && !dopoll && !s.any && turn.answer.rc == 0 && s.timer.Some?
        && s.timer.value.thread < |out| && s.timer.value.event < |out[s.timer.value.thread].events|
        && out[s.timer.value.thread].events[s.timer.value.event].kind.Func?
  {
    hide ScanThreads, DeliverThreads, Expire, Adjust;
    ChosenTimer(turn.env, Start(conds, turn.pending), ws);
  }

  // ---------------------------------------------------------------------------------------
  // Of several timers that are due at once the first one is chosen

  /** A time in the window whose microseconds are less than a second. */
  predicate Normal(t: Time, lo: int) { InWindow(t, lo) && t.usec < MICROS }

  predicate NormalKind(kind: Kind, now: Time, lo: int) {
    Deadline(kind, now).Some? ==> Normal(Deadline(kind, now).value, lo)
  }

  predicate Before(i: int, j: int, t: NextTimer) { i < t.thread || (i == t.thread && j < t.event) }

  /** The chosen timer is due no later than this event, and earlier if this event comes first. */
  predicate Precedes(timer: Option<NextTimer>, i: int, j: int, ev: Event, now: Time) {
    ev.status == Pending && Deadline(ev.kind, now).Some? ==>
      && DueBy(timer, Deadline(ev.kind, now).value)
      && (Before(i, j, timer.value) ==> Total(timer.value.value) < Total(Deadline(ev.kind, now).value))
  }

  /** The choice stays, or falls on something that is due strictly earlier. */
  predicate Improves(a: Option<NextTimer>, b: Option<NextTimer>, lo: int) {
    && (b.Some? ==> Normal(b.value.value, lo))
    && (a == b || (b.Some? && (a.Some? ==> Total(b.value.value) < Total(a.value.value))))
  }

  lemma {:induction false} CheckFirst(env: Env, s: Scan, sigpending: set<nat>, i: nat, j: nat, kind: Kind, lo: int)
    requires NormalKind(kind, env.now, lo) && (s.timer.Some? ==> Normal(s.timer.value.value, lo))
    requires s.timer.Some? ==> !(s.timer.value.thread > i || (s.timer.value.thread == i && s.timer.value.event >= j))
    ensures var c := Check(env, s, sigpending, i, j, kind);
      && Improves(s.timer, c.scan.timer, lo)
      && (c.scan.timer != s.timer ==> c.scan.timer.value.thread == i && c.scan.timer.value.event == j)
      && (!c.occurred ==> Precedes(c.scan.timer, i, j, Event(kind, Pending), env.now))
  {
    if s.timer.Some? && Deadline(kind, env.now).Some? {
      CompareOrder(Deadline(kind, env.now).value, s.timer.value.value);
    }
  }

  lemma {:induction false} RingFirst(env: Env, s: Scan, sigpending: set<nat>, i: nat, events: seq<Event>, lo: int)
    requires forall j :: 0 <= j < |events| ==> NormalKind(events[j].kind, env.now, lo)
    requires s.timer.Some? ==> Normal(s.timer.value.value, lo) && s.timer.value.thread < i
    ensures var r := ScanEvents(env, s, sigpending, i, events);
      && Improves(s.timer, r.scan.timer, lo)
      && (r.scan.timer != s.timer ==> r.scan.timer.value.thread == i && r.scan.timer.value.event < |events|)
      && forall j :: 0 <= j < |events| ==> Precedes(r.scan.timer, i, j, r.events[j], env.now)
  {
    hide Check, Deadline;
    if events != [] {
      var n := |events| - 1;
      RingFirst(env, s, sigpending, i, events[..n], lo);
      var q, r := ScanEvents(env, s, sigpending, i, events[..n]), ScanEvents(env, s, sigpending, i, events);
      CheckFirst(env, q.scan, q.sigpending, i, n, events[n].kind, lo);
      forall j | 0 <= j < n ensures Precedes(r.scan.timer, i, j, r.events[j], env.now) {
        assert r.events[j] == q.events[j];
      }
    }
  }

  lemma {:induction false} AllFirst(env: Env, s: Scan, ws: seq<Waiter>, lo: int)
    requires s.timer.None?
    requires forall i, j :: 0 <= i < |ws| && 0 <= j < |ws[i].events| ==> NormalKind(ws[i].events[j].kind, env.now, lo)
    ensures var (s', out) := ScanThreads(env, s, ws);
      && (s'.timer.Some? ==> Normal(s'.timer.value.value, lo) && s'.timer.value.thread < |ws|)
      && forall i, j :: 0 <= i < |out| && 0 <= j < |out[i].events| ==>
           Precedes(s'.timer, i, j, out[i].events[j], env.now)
  {
    hide ScanEvents, Precedes, NormalKind;
    if ws != [] {
      var n := |ws| - 1;
      AllFirst(env, s, ws[..n], lo);
      var (s1, p) := ScanThreads(env, s, ws[..n]);
      RingFirst(env, s1.(any := s1.any || ws[n].cancelreq), ws[n].sigpending, n, ws[n].events, lo);
      var (s', out) := ScanThreads(env, s, ws);
      forall i, j | 0 <= i < |out| && 0 <= j < |out[i].events|
        ensures Precedes(s'.timer, i, j, out[i].events[j], env.now)
      {
        if i < n {
          assert out[i] == p[i];
          StillPrecedes(s1.timer, s'.timer, i, j, out[i].events[j], env.now, n, lo);
        }
      }
    }
  }

  lemma {:induction false} StillPrecedes(a: Option<NextTimer>, b: Option<NextTimer>, i: nat, j: nat, ev: Event,
                                         now: Time, n: nat, lo: int)
    requires Precedes(a, i, j, ev, now) && i < n && Improves(a, b, lo)
    ensures Precedes(b, i, j, ev, now)
  {
  }

  /** Of all that are pending and a matter of time the manager waits for the one that is due first, and of
      several that are due at once for the first one in the queue. */
  lemma {:induction false} FirstDue(turn: Turn, conds: Conds, ws: seq<Waiter>, lo: int, i: nat, j: nat)
    requires forall i, j :: 0 <= i < |ws| && 0 <= j < |ws[i].events| ==>
               NormalKind(ws[i].events[j].kind, turn.env.now, lo)
    ensures var (s, out) := ScanThreads(turn.env, Start(conds, turn.pending), ws);
      Timed(out, i, j, turn.env.now) ==>
        && s.timer.Some? && Timed(out, s.timer.value.thread, s.timer.value.event, turn.env.now)
        && var first := Left(out, s.timer.value.thread, s.timer.value.event, turn.env.now);
        && first <= Left(out, i, j, turn.env.now)
        && (Before(i, j, s.timer.value) ==> first < Left(out, i, j, turn.env.now))
  {
    hide ScanThreads;
    var start := Start(conds, turn.pending);
    ChosenTimer(turn.env, start, ws);
    AllFirst(turn.env, start, ws, lo);
    var (s, out) := ScanThreads(turn.env, start, ws);
    if Timed(out, i, j, turn.env.now) {
      assert Precedes(s.timer, i, j, out[i].events[j], turn.env.now);
    }
  }
}
