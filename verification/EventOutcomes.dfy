/** What a round of the event manager decides about a single event, whatever else waits beside it:
    exactly when it has occurred afterwards, and to whom a pending signal goes. */
module EventOutcomes {
  import opened TimeArith
  import opened EventManager

  // ---------------------------------------------------------------------------------------
  // Events that depend on the state of the process only

  predicate Plain(kind: Kind) { kind.Msg? || kind.Mutex? || kind.Tid? || kind.Func? }

  /** What such an event waits for. */
  predicate Holds(env: Env, kind: Kind) {
    match kind
    case Msg(port) => port in env.arrived
    case Mutex(m) => m !in env.locked
    case Tid(None, _) => env.anyDead
    case Tid(Some(t), goal) => t in env.states && env.states[t] == goal
    case Func(f, _) => f in env.holds
    case _ => false
  }

  lemma {:induction false} CheckPlain(env: Env, s: Scan, sigs: set<nat>, i: nat, j: nat, kind: Kind)
    requires Plain(kind)
    ensures Check(env, s, sigs, i, j, kind).occurred == Holds(env, kind)
  {
  }

  lemma {:induction false} DeliverPlain(f: Found, l: Late, ev: Event)
    requires Plain(ev.kind) || ev.kind.Timer?
    ensures Deliver(f, l, ev) == (l, ev)
  {
  }

  /** The state in which the round leaves the events before they are delivered. */
  function BeforeDelivery(turn: Turn, conds: Conds, ws: seq<Waiter>, dopoll: bool): (r: seq<Waiter>)
    ensures |r| == |ws|
  {
    var (s, ws1) := ScanThreads(turn.env, Start(conds, turn.pending), ws);
    var elapsed := Elapsed(turn.answer, dopoll || s.any, s.timer);
    TimerOfThreads(turn.env, Start(conds, turn.pending), ws);
    if elapsed && !s.timer.value.isFunc then Expire(ws1, s.timer.value.thread, s.timer.value.event) else ws1
  }

  /** Events that the second pass does not touch come out of the round as they were before it. */
  lemma {:induction false} RoundLeaves(turn: Turn, conds: Conds, ws: seq<Waiter>, dopoll: bool, pipe: nat,
                                       i: nat, j: nat)
    requires i < |ws| && j < |BeforeDelivery(turn, conds, ws, dopoll)[i].events|
    requires Plain(BeforeDelivery(turn, conds, ws, dopoll)[i].events[j].kind) ||
             BeforeDelivery(turn, conds, ws, dopoll)[i].events[j].kind.Timer?
    ensures var r := RunRound(turn, conds, ws, dopoll, pipe).waiters[i];
      j < |r.events| && r.events[j] == BeforeDelivery(turn, conds, ws, dopoll)[i].events[j]
  {
    hide ScanThreads, DeliverThreads, ScanEvents, DeliverEvents, Deliver, Plain;
    var start := Start(conds, turn.pending);
    var (s, ws1) := ScanThreads(turn.env, start, ws);
    var ws2 := BeforeDelivery(turn, conds, ws, dopoll);
    var f, l := Adjust(turn.answer, dopoll || s.any, pipe), Late(s.conds, turn.answer.raised);
    var l1 := DeliverThreadsAt(f, l, ws2, i);
    var l2 := DeliverEventsAt(f, l1, ws2[i].events, j);
    DeliverPlain(f, l2, ws2[i].events[j]);
  }

  /** A wait for a message, a mutex, a thread or a function is over after a round exactly when what
      it waits for is the case. */
  lemma {:induction false} PlainRound(turn: Turn, conds: Conds, ws: seq<Waiter>, dopoll: bool, pipe: nat,
                                      i: nat, j: nat)
    requires i < |ws| && j < |ws[i].events| && ws[i].events[j].status == Pending && Plain(ws[i].events[j].kind)
    ensures var r := RunRound(turn, conds, ws, dopoll, pipe).waiters[i];
      && j < |r.events|
      && r.events[j] == ws[i].events[j].(status := if Holds(turn.env, ws[i].events[j].kind) then Occurred else Pending)
  {
    hide ScanThreads, DeliverThreads, ScanEvents, DeliverEvents, Check, Holds, Deliver, RunRound;
    var start := Start(conds, turn.pending);
    var s1 := ScanThreadsAt(turn.env, start, ws, i);
    var s2, sigs := ScanEventsAt(turn.env, s1, ws[i].sigpending, i, ws[i].events, j);
    CheckPlain(turn.env, s2, sigs, i, j, ws[i].events[j].kind);
    TimerOfThreads(turn.env, start, ws);
    RoundLeaves(turn, conds, ws, dopoll, pipe, i, j);
  }

  /** A timer is over after a round exactly when its time was past at the start, or when the
      blocking select(2) timed out and it was the next one due. */
  lemma {:induction false} TimerRound(turn: Turn, conds: Conds, ws: seq<Waiter>, dopoll: bool, pipe: nat,
                                      i: nat, j: nat)
    requires i < |ws| && j < |ws[i].events| && ws[i].events[j].status == Pending && ws[i].events[j].kind.Timer?
    ensures var r := RunRound(turn, conds, ws, dopoll, pipe).waiters[i];
      var s := ScanThreads(turn.env, Start(conds, turn.pending), ws).0;
      && j < |r.events| && r.events[j].kind == ws[i].events[j].kind
      && (r.events[j].status == Occurred <==>
            || Compare(ws[i].events[j].kind.tv, turn.env.now) < 0
            || (!dopoll && !s.any && turn.answer.rc == 0 && s.timer.Some? && !s.timer.value.isFunc &&
                s.timer.value.thread == i && s.timer.value.event == j))
  {
    hide ScanThreads, DeliverThreads, ScanEvents, DeliverEvents, Compare, Deliver, RunRound;
    var start := Start(conds, turn.pending);
    var s1 := ScanThreadsAt(turn.env, start, ws, i);
    var s2, sigs := ScanEventsAt(turn.env, s1, ws[i].sigpending, i, ws[i].events, j);
    TimerOfThreads(turn.env, start, ws);
    RoundLeaves(turn, conds, ws, dopoll, pipe, i, j);
  }

  // ---------------------------------------------------------------------------------------
  // Signals

  /** The signals that the pending events of a ring wait for. */
  function Sought(events: seq<Event>): set<nat> {
    if events == [] then {}
    else
      var ev := events[|events| - 1];
      Sought(events[..|events| - 1]) + if ev.status == Pending && ev.kind.Sigs? then Seen(ev.kind.sigs) else {}
  }

  function AllSought(ws: seq<Waiter>): set<nat> {
    if ws == [] then {} else AllSought(ws[..|ws| - 1]) + Sought(ws[|ws| - 1].events)
  }

  lemma {:induction false} CheckSignals(env: Env, s: Scan, sigs: set<nat>, i: nat, j: nat, kind: Kind)
    ensures var c := Check(env, s, sigs, i, j, kind);
      var used := if kind.Sigs? then Seen(kind.sigs) else {};
      && c.scan.pending == s.pending - used && c.sigpending == sigs - used
      && (kind.Sigs? ==> (c.occurred <==> Seen(kind.sigs) * (sigs + s.pending) != {}))
  {
  }

  lemma {:induction false} ScanSignals(env: Env, s: Scan, sigs: set<nat>, i: nat, events: seq<Event>)
    ensures var r := ScanEvents(env, s, sigs, i, events);
      r.scan.pending == s.pending - Sought(events) && r.sigpending == sigs - Sought(events)
  {
    hide Check;
    if events != [] {
      var j := |events| - 1;
      ScanSignals(env, s, sigs, i, events[..j]);
      var r := ScanEvents(env, s, sigs, i, events[..j]);
      CheckSignals(env, r.scan, r.sigpending, i, j, events[j].kind);
    }
  }

  lemma {:induction false} ScanAllSignals(env: Env, s: Scan, ws: seq<Waiter>)
    ensures ScanThreads(env, s, ws).0.pending == s.pending - AllSought(ws)
  {
    hide ScanEvents;
    if ws != [] {
      var i := |ws| - 1;
      ScanAllSignals(env, s, ws[..i]);
      var s1 := ScanThreads(env, s, ws[..i]).0;
      ScanSignals(env, s1.(any := s1.any || ws[i].cancelreq), ws[i].sigpending, i, ws[i].events);
    }
  }

  lemma {:induction false} EventAt(env: Env, s: Scan, sigs: set<nat>, i: nat, events: seq<Event>, j: nat)
    requires j < |events| && events[j].status == Pending
    ensures var r := ScanEvents(env, s, sigs, i, events[..j]);
      ScanEvents(env, s, sigs, i, events).events[j] ==
        events[j].(status :=
          if Check(env, r.scan, r.sigpending, i, j, events[j].kind).occurred then Occurred else Pending)
    decreases |events|
  {
    hide Check;
    var n := |events| - 1;
    if j < n {
      EventAt(env, s, sigs, i, events[..n], j);
      assert events[..n][..j] == events[..j];
    }
  }

  lemma {:induction false} ThreadAt(env: Env, s: Scan, ws: seq<Waiter>, i: nat)
    requires i < |ws|
    ensures var s1 := ScanThreads(env, s, ws[..i]).0;
      ScanThreads(env, s, ws).1[i].events ==
        ScanEvents(env, s1.(any := s1.any || ws[i].cancelreq), ws[i].sigpending, i, ws[i].events).events
    decreases |ws|
  {
    hide ScanEvents;
    var n := |ws| - 1;
    if i < n {
      ThreadAt(env, s, ws[..n], i);
      assert ws[..n][..i] == ws[..i];
    }
  }

  /** A wait for signals is over after the first pass exactly when one of those seen is pending for the
      thread and not sought by an earlier event of its ring, or pending for the process and not
      sought by any earlier event: each pending signal goes to the first who seeks it, once. */
  lemma {:induction false} SignalRound(env: Env, conds: Conds, pending: set<nat>, ws: seq<Waiter>, i: nat, j: nat)
    requires i < |ws| && j < |ws[i].events| && ws[i].events[j].status == Pending && ws[i].events[j].kind.Sigs?
    ensures var sigs, own := Seen(ws[i].events[j].kind.sigs), Sought(ws[i].events[..j]);
      var events := ScanThreads(env, Start(conds, pending), ws).1[i].events;
      && j < |events|
      && (events[j].status == Occurred <==>
            sigs * (ws[i].sigpending - own) != {} || sigs * (pending - AllSought(ws[..i]) - own) != {})
    ensures ScanThreads(env, Start(conds, pending), ws).0.pending == pending - AllSought(ws)
  {
    hide ScanThreads, ScanEvents, Check, Sought, AllSought;
    var start, ev := Start(conds, pending), ws[i].events[j];
    ScanAllSignals(env, start, ws);
    ScanAllSignals(env, start, ws[..i]);
    ThreadAt(env, start, ws, i);
    var s1 := ScanThreads(env, start, ws[..i]).0;
    var s2 := s1.(any := s1.any || ws[i].cancelreq);
    EventAt(env, s2, ws[i].sigpending, i, ws[i].events, j);
    ScanSignals(env, s2, ws[i].sigpending, i, ws[i].events[..j]);
    var r := ScanEvents(env, s2, ws[i].sigpending, i, ws[i].events[..j]);
    CheckSignals(env, r.scan, r.sigpending, i, j, ev.kind);
  }

  /** The first event of a ring that seeks a signal. */
  lemma {:induction false} FirstSeeker(events: seq<Event>, sig: nat) returns (j: nat)
    requires sig in Sought(events)
    ensures j < |events| && events[j].status == Pending && events[j].kind.Sigs? && sig in Seen(events[j].kind.sigs)
    ensures sig !in Sought(events[..j])
  {
    var n := |events| - 1;
    if sig in Sought(events[..n]) {
      j := FirstSeeker(events[..n], sig);
      assert events[..n][..j] == events[..j];
    } else {
      j := n;
    }
  }

  lemma {:induction false} SoughtAt(events: seq<Event>, j: nat)
    requires j < |events| && events[j].status == Pending && events[j].kind.Sigs?
    ensures Seen(events[j].kind.sigs) <= Sought(events)
  {
    if j < |events| - 1 {
      SoughtAt(events[..|events| - 1], j);
    }
  }

  /** A signal that is pending for a thread wakes it if any of its events seeks it. */
  lemma {:induction false} PendingSignalWakes(turn: Turn, conds: Conds, ws: seq<Waiter>, dopoll: bool, pipe: nat,
                                              i: nat, sig: nat)
    requires i < |ws| && sig in ws[i].sigpending && sig in Sought(ws[i].events)
    ensures Wakes(RunRound(turn, conds, ws, dopoll, pipe).waiters[i])
  {
    hide ScanThreads, DeliverThreads, Sought, AllSought, Adjust;
    var j := FirstSeeker(ws[i].events, sig);
    SignalRound(turn.env, conds, turn.pending, ws, i, j);
    assert sig in Seen(ws[i].events[j].kind.sigs) * (ws[i].sigpending - Sought(ws[i].events[..j]));
    var (s, ws1) := ScanThreads(turn.env, Start(conds, turn.pending), ws);
    assert Wakes(ws1[i]);
    var poll := dopoll || s.any;
    TimerOfThreads(turn.env, Start(conds, turn.pending), ws);
    var ws2 := if Elapsed(turn.answer, poll, s.timer) && !s.timer.value.isFunc
               then Expire(ws1, s.timer.value.thread, s.timer.value.event) else ws1;
    assert ws2[i].events[j].status != Pending;
    DeliverKeepsWakes(Adjust(turn.answer, poll, pipe), Late(s.conds, turn.answer.raised), ws2, i);
  }

  // ---------------------------------------------------------------------------------------
  // Signals that the event manager does not look at

  /** The same threads, with one more signal pending for the i-th. */
  function WithSig(ws: seq<Waiter>, i: nat, sig: nat): seq<Waiter>
    requires i < |ws|
  {
    ws[i := ws[i].(sigpending := ws[i].sigpending + {sig})]
  }

  lemma {:induction false} UnseenEvents(env: Env, s: Scan, sigs: set<nat>, i: nat, events: seq<Event>, sig: nat)
    requires !(1 <= sig < NSIG)
    ensures var r := ScanEvents(env, s, sigs, i, events);
      ScanEvents(env, s, sigs + {sig}, i, events) == r.(sigpending := r.sigpending + {sig})
  {
    hide Check;
    if events != [] {
      var j := |events| - 1;
      UnseenEvents(env, s, sigs, i, events[..j], sig);
      var r := ScanEvents(env, s, sigs, i, events[..j]);
      UnseenCheck(env, r.scan, r.sigpending, i, j, events[j].kind, sig);
    }
  }

  lemma {:induction false} UnseenCheck(env: Env, s: Scan, sigs: set<nat>, i: nat, j: nat, kind: Kind, sig: nat)
    requires !(1 <= sig < NSIG)
    ensures var c := Check(env, s, sigs, i, j, kind);
      Check(env, s, sigs + {sig}, i, j, kind) == c.(sigpending := c.sigpending + {sig})
  {
    if kind.Sigs? {
      var seen := Seen(kind.sigs);
      assert seen * (sigs + {sig}) == seen * sigs;
      assert sigs + {sig} - seen == sigs - seen + {sig};
    }
  }

  lemma {:induction false} UnseenThreads(env: Env, s: Scan, ws: seq<Waiter>, i: nat, sig: nat)
    requires i < |ws| && !(1 <= sig < NSIG)
    ensures var (s', out) := ScanThreads(env, s, ws);
      ScanThreads(env, s, WithSig(ws, i, sig)) == (s', WithSig(out, i, sig))
  {
    hide ScanEvents;
    var n, ws' := |ws| - 1, WithSig(ws, i, sig);
    if i < n {
      UnseenThreads(env, s, ws[..n], i, sig);
      assert ws'[..n] == WithSig(ws[..n], i, sig);
    } else {
      assert ws'[..n] == ws[..n];
      var s1 := ScanThreads(env, s, ws[..n]).0;
      UnseenEvents(env, s1.(any := s1.any || ws[n].cancelreq), ws[n].sigpending, n, ws[n].events, sig);
    }
    assert ScanThreads(env, s, ws').1 == WithSig(ScanThreads(env, s, ws).1, i, sig);
  }

  lemma {:induction false} UnseenDelivery(f: Found, l: Late, ws: seq<Waiter>, i: nat, sig: nat)
    requires i < |ws|
    ensures var (l', out) := DeliverThreads(f, l, ws);
      DeliverThreads(f, l, WithSig(ws, i, sig)) == (l', WithSig(out, i, sig))
  {
    hide DeliverEvents;
    var n, ws' := |ws| - 1, WithSig(ws, i, sig);
    if i < n {
      UnseenDelivery(f, l, ws[..n], i, sig);
      assert ws'[..n] == WithSig(ws[..n], i, sig);
    } else {
      assert ws'[..n] == ws[..n];
    }
    assert DeliverThreads(f, l, ws').1 == WithSig(DeliverThreads(f, l, ws).1, i, sig);
  }

  /** A signal from NSIG on changes nothing in a round except that it stays pending. */
  lemma {:induction false} UnseenRound(turn: Turn, conds: Conds, ws: seq<Waiter>, dopoll: bool, pipe: nat,
                                       i: nat, sig: nat)
    requires i < |ws| && !(1 <= sig < NSIG)
    ensures var r := RunRound(turn, conds, ws, dopoll, pipe);
      RunRound(turn, conds, WithSig(ws, i, sig), dopoll, pipe) == r.(waiters := WithSig(r.waiters, i, sig))
  {
    hide ScanThreads, DeliverThreads, Adjust;
    var start := Start(conds, turn.pending);
    UnseenThreads(turn.env, start, ws, i, sig);
    TimerOfThreads(turn.env, start, ws);
    TimerOfThreads(turn.env, start, WithSig(ws, i, sig));
    var (s, ws1) := ScanThreads(turn.env, start, ws);
    var poll := dopoll || s.any;
    var ws2 := BeforeDelivery(turn, conds, ws, dopoll);
    assert BeforeDelivery(turn, conds, WithSig(ws, i, sig), dopoll) == WithSig(ws2, i, sig);
    UnseenDelivery(Adjust(turn.answer, poll, pipe), Late(s.conds, turn.answer.raised), ws2, i, sig);
  }

  /** Signal 32 is pending for a thread that waits for it, and a quiet round leaves it waiting. */
  lemma {:induction false} LastSignalUnseen()
    ensures var turn := Turn(Env(ZERO, {}, {}, map[], false, {}), {}, Answer(0, {}, {}, {}, {}));
      !Wakes(RunRound(turn, map[], [Waiter(1, false, {32}, [Event(Sigs({32}), Pending)])], true, 0).waiters[0])
  {
    var turn := Turn(Env(ZERO, {}, {}, map[], false, {}), {}, Answer(0, {}, {}, {}, {}));
    var ring, start := [Event(Sigs({32}), Pending)], Start(map[], {});
    var ws := [Waiter(1, false, {32}, ring)];
    assert ring[..0] == [] && ws[..0] == [];
    assert Seen({32}) == {};
    var s := start.(any := start.any || false);
    var c := Check(turn.env, s, {32}, 0, 0, Sigs({32}));
    assert !c.occurred;
    assert ScanEvents(turn.env, s, {32}, 0, ring).events == ring;
    var ws1 := ScanThreads(turn.env, start, ws).1;
    assert ws1[0].events == ring;
    var f, l := Adjust(turn.answer, true, 0), Late(ScanThreads(turn.env, start, ws).0.conds, {});
    assert DeliverEvents(f, l, ring).events == ring;
    assert ws1[..0] == [];
    assert DeliverThreads(f, l, ws1).1[0].events == ring;
  }

  // ---------------------------------------------------------------------------------------
  // What the first pass finds out for the manager

  /** The first pass marked this event. */
  predicate NewlyOccurred(before: Event, after: Event) { before.status == Pending && after.status == Occurred }

  lemma {:induction false} AnyInRing(env: Env, s: Scan, sigs: set<nat>, i: nat, events: seq<Event>)
    ensures var r := ScanEvents(env, s, sigs, i, events);
      r.scan.any <==> s.any || exists j :: 0 <= j < |events| && NewlyOccurred(events[j], r.events[j])
  {
    hide Check;
    if events != [] {
      var n := |events| - 1;
      AnyInRing(env, s, sigs, i, events[..n]);
      var q, r := ScanEvents(env, s, sigs, i, events[..n]), ScanEvents(env, s, sigs, i, events);
      assert forall j :: 0 <= j < n ==> r.events[j] == q.events[j] && events[..n][j] == events[j];
      CheckKeepsAny(env, q.scan, q.sigpending, i, n, events[n].kind);
      if NewlyOccurred(events[n], r.events[n]) { assert r.scan.any; }
    }
  }

  lemma {:induction false} CheckKeepsAny(env: Env, s: Scan, sigs: set<nat>, i: nat, j: nat, kind: Kind)
    ensures Check(env, s, sigs, i, j, kind).scan.any == s.any
  {
  }

  predicate Stirs(before: Waiter, after: Waiter) {
    before.cancelreq ||
      exists j :: 0 <= j < |before.events| && j < |after.events| && NewlyOccurred(before.events[j], after.events[j])
  }

  /** The manager knows after the first pass that it need not wait exactly when some event has occurred
      or some thread is to be cancelled. */
  lemma {:induction false} AnyExactly(env: Env, s: Scan, ws: seq<Waiter>)
    ensures var (s', out) := ScanThreads(env, s, ws);
      s'.any <==> s.any || exists i :: 0 <= i < |ws| && Stirs(ws[i], out[i])
  {
    hide ScanEvents;
    if ws != [] {
      var n := |ws| - 1;
      AnyExactly(env, s, ws[..n]);
      var (s1, p) := ScanThreads(env, s, ws[..n]);
      var (s', out) := ScanThreads(env, s, ws);
      assert forall i :: 0 <= i < n ==> out[i] == p[i] && ws[..n][i] == ws[i];
      AnyInRing(env, s1.(any := s1.any || ws[n].cancelreq), ws[n].sigpending, n, ws[n].events);
      if Stirs(ws[n], out[n]) { assert s'.any; }
    }
  }

  /** How many pending events of a ring, or of all rings, seek a signal. */
  function Seekers(events: seq<Event>, sig: nat): nat {
    if events == [] then 0
    else
      var ev := events[|events| - 1];
      Seekers(events[..|events| - 1], sig) +
        if ev.status == Pending && ev.kind.Sigs? && sig in Seen(ev.kind.sigs) then 1 else 0
  }

  function AllSeekers(ws: seq<Waiter>, sig: nat): nat {
    if ws == [] then 0 else AllSeekers(ws[..|ws| - 1], sig) + Seekers(ws[|ws| - 1].events, sig)
  }

  /** n more events seek sig: it is caught if it was, or if it is not pending for the process, or if one
      of the seekers uses up what is pending and another is left. */
  predicate CatchGrows(s: Scan, s': Scan, sig: nat, n: nat) {
    && (sig in s'.pending <==> sig in s.pending && n == 0)
    && (sig in s'.catch <==> sig in s.catch || n > (if sig in s.pending then 1 else 0))
  }

  lemma {:induction false} CatchInRing(env: Env, s: Scan, sigs: set<nat>, i: nat, events: seq<Event>, sig: nat)
    ensures CatchGrows(s, ScanEvents(env, s, sigs, i, events).scan, sig, Seekers(events, sig))
  {
    hide Check;
    if events != [] {
      var n := |events| - 1;
      CatchInRing(env, s, sigs, i, events[..n], sig);
      var q := ScanEvents(env, s, sigs, i, events[..n]);
      CheckCatches(env, q.scan, q.sigpending, i, n, events[n].kind, sig);
    }
  }

  lemma {:induction false} CheckCatches(env: Env, s: Scan, sigs: set<nat>, i: nat, j: nat, kind: Kind, sig: nat)
    ensures CatchGrows(s, Check(env, s, sigs, i, j, kind).scan, sig,
                       if kind.Sigs? && sig in Seen(kind.sigs) then 1 else 0)
  {
  }

  /** A signal is caught during select(2) exactly when more events seek it than the pending one serves. */
  lemma {:induction false} CatchExactly(env: Env, s: Scan, ws: seq<Waiter>, sig: nat)
    ensures CatchGrows(s, ScanThreads(env, s, ws).0, sig, AllSeekers(ws, sig))
  {
    hide ScanEvents, Seekers;
    if ws != [] {
      var n := |ws| - 1;
      CatchExactly(env, s, ws[..n], sig);
      var s1 := ScanThreads(env, s, ws[..n]).0;
      CatchInRing(env, s1.(any := s1.any || ws[n].cancelreq), ws[n].sigpending, n, ws[n].events, sig);
    }
  }

  // ---------------------------------------------------------------------------------------
  // Signals raised during select(2)

  lemma {:induction false} DeliverSignals(f: Found, l: Late, events: seq<Event>)
    ensures DeliverEvents(f, l, events).late.raised == l.raised - Sought(events)
  {
    hide Deliver;
    if events != [] {
      var n := |events| - 1;
      DeliverSignals(f, l, events[..n]);
      DeliverRaises(f, DeliverEvents(f, l, events[..n]).late, events[n]);
    }
  }

  lemma {:induction false} DeliverRaises(f: Found, l: Late, ev: Event)
    ensures Deliver(f, l, ev).0.raised ==
              l.raised - if ev.status == Pending && ev.kind.Sigs? then Seen(ev.kind.sigs) else {}
  {
    if ev.status == Pending && ev.kind.Sigs? && Seen(ev.kind.sigs) * l.raised == {} {
      assert forall x :: x in l.raised && x in Seen(ev.kind.sigs) ==> x in Seen(ev.kind.sigs) * l.raised;
    }
  }

  lemma {:induction false} DeliverAllSignals(f: Found, l: Late, ws: seq<Waiter>)
    ensures DeliverThreads(f, l, ws).0.raised == l.raised - AllSought(ws)
  {
    hide DeliverEvents, Sought;
    if ws != [] {
      var n := |ws| - 1;
      DeliverAllSignals(f, l, ws[..n]);
      DeliverSignals(f, DeliverThreads(f, l, ws[..n]).0, ws[n].events);
    }
  }

  lemma {:induction false} DeliveredAt(f: Found, l: Late, events: seq<Event>, j: nat)
    requires j < |events|
    ensures DeliverEvents(f, l, events).events[j] == Deliver(f, DeliverEvents(f, l, events[..j]).late, events[j]).1
    decreases |events|
  {
    hide Deliver;
    var n := |events| - 1;
    if j < n {
      DeliveredAt(f, l, events[..n], j);
      assert events[..n][..j] == events[..j];
    }
  }

  lemma {:induction false} DeliveredRing(f: Found, l: Late, ws: seq<Waiter>, i: nat)
    requires i < |ws|
    ensures DeliverThreads(f, l, ws).1[i].events ==
              DeliverEvents(f, DeliverThreads(f, l, ws[..i]).0, ws[i].events).events
    decreases |ws|
  {
    hide DeliverEvents;
    var n := |ws| - 1;
    if i < n {
      DeliveredRing(f, l, ws[..n], i);
      assert ws[..n][..i] == ws[..i];
    }
  }

  /** A wait for signals that is still on in the second pass is over after it exactly when one of those
      seen was raised and is not sought by an earlier event: each raised signal goes to the first who
      seeks it, once. */
  lemma {:induction false} RaisedExactly(f: Found, l: Late, ws: seq<Waiter>, i: nat, j: nat)
    requires i < |ws| && j < |ws[i].events| && ws[i].events[j].status == Pending && ws[i].events[j].kind.Sigs?
    ensures var events := DeliverThreads(f, l, ws).1[i].events;
      && j < |events|
      && (events[j].status == Occurred <==>
            Seen(ws[i].events[j].kind.sigs) * (l.raised - AllSought(ws[..i]) - Sought(ws[i].events[..j])) != {})
      && (events[j].status != Occurred ==> events[j] == ws[i].events[j])
  {
    hide DeliverThreads, DeliverEvents, Sought, AllSought;
    DeliverAllSignals(f, l, ws[..i]);
    DeliveredRing(f, l, ws, i);
    var l1 := DeliverThreads(f, l, ws[..i]).0;
    DeliverSignals(f, l1, ws[i].events[..j]);
    DeliveredAt(f, l1, ws[i].events, j);
  }

  lemma {:induction false} FirstOfAll(ws: seq<Waiter>, sig: nat) returns (i: nat, j: nat)
    requires sig in AllSought(ws)
    ensures i < |ws| && j < |ws[i].events| && ws[i].events[j].status == Pending && ws[i].events[j].kind.Sigs?
    ensures sig in Seen(ws[i].events[j].kind.sigs)
    ensures sig !in AllSought(ws[..i]) && sig !in Sought(ws[i].events[..j])
  {
    hide Sought;
    var n := |ws| - 1;
    if sig in AllSought(ws[..n]) {
      i, j := FirstOfAll(ws[..n], sig);
      assert ws[..n][..i] == ws[..i];
    } else {
      i := n;
      j := FirstSeeker(ws[n].events, sig);
    }
  }

  lemma {:induction false} QuietRing(env: Env, s: Scan, sigs: set<nat>, i: nat, events: seq<Event>)
    requires !ScanEvents(env, s, sigs, i, events).scan.any
    ensures !s.any && ScanEvents(env, s, sigs, i, events).events == events
  {
    hide Check;
    if events != [] {
      var n := |events| - 1;
      var q := ScanEvents(env, s, sigs, i, events[..n]);
      CheckKeepsAny(env, q.scan, q.sigpending, i, n, events[n].kind);
      QuietRing(env, s, sigs, i, events[..n]);
      assert events == events[..n] + [events[n]];
    }
  }

  /** While the manager waits, a signal that some event seeks can be raised, through the signal pipe that
      it always asks for, and the first event that seeks it is then over. */
  lemma {:induction false} CaughtSignalWakes(env: Env, pending: set<nat>, conds: Conds, ws: seq<Waiter>, pipe: nat,
                                             sig: nat) returns (i: nat, j: nat)
    requires sig in AllSought(ws) && sig !in pending && !ScanThreads(env, Start(conds, pending), ws).0.any
    ensures var turn := Turn(env, pending, Answer(1, {pipe}, {}, {}, {sig}));
      && HonestTurn(turn, conds, ws, false, pipe)
      && i < |ws| && j < |ws[i].events| && ws[i].events[j].kind.Sigs? && sig in ws[i].events[j].kind.sigs
      && sig !in AllSought(ws[..i]) && sig !in Sought(ws[i].events[..j])
      && var after := RunRound(turn, conds, ws, false, pipe).waiters[i];
      j < |after.events| && NewlyOccurred(ws[i].events[j], after.events[j])
  {
    hide ScanThreads, DeliverThreads, AllSought, Sought, AllSeekers;
    var start, turn := Start(conds, pending), Turn(env, pending, Answer(1, {pipe}, {}, {}, {sig}));
    var (s, out) := ScanThreads(env, start, ws);
    CatchExactly(env, start, ws, sig);
    SomeSeeker(ws, sig);
    TimerOfThreads(env, start, ws);
    QuietThreads(env, start, ws);
    i, j := FirstOfAll(ws, sig);
    RaisedExactly(Adjust(turn.answer, s.any, pipe), Late(s.conds, {sig}), out, i, j);
    assert sig in Seen(ws[i].events[j].kind.sigs) * ({sig} - AllSought(ws[..i]) - Sought(ws[i].events[..j]));
    SameSought(out, ws, i);
  }

  lemma {:induction false} SomeSeeker(ws: seq<Waiter>, sig: nat)
    ensures sig in AllSought(ws) <==> AllSeekers(ws, sig) > 0
  {
    if ws != [] {
      SomeSeeker(ws[..|ws| - 1], sig);
      RingSeeker(ws[|ws| - 1].events, sig);
    }
  }

  lemma {:induction false} RingSeeker(events: seq<Event>, sig: nat)
    ensures sig in Sought(events) <==> Seekers(events, sig) > 0
  {
    if events != [] {
      RingSeeker(events[..|events| - 1], sig);
    }
  }

  /** A first pass in which nothing occurs leaves the rings as they are. */
  lemma {:induction false} QuietThreads(env: Env, s: Scan, ws: seq<Waiter>)
    requires !ScanThreads(env, s, ws).0.any
    ensures forall i :: 0 <= i < |ws| ==> ScanThreads(env, s, ws).1[i].events == ws[i].events
  {
    hide ScanEvents;
    if ws != [] {
      var n := |ws| - 1;
      var s1 := ScanThreads(env, s, ws[..n]).0;
      QuietRing(env, s1.(any := s1.any || ws[n].cancelreq), ws[n].sigpending, n, ws[n].events);
      QuietThreads(env, s, ws[..n]);
    }
  }

  lemma {:induction false} SameSought(a: seq<Waiter>, b: seq<Waiter>, n: nat)
    requires |a| == |b| && n <= |a| && forall i :: 0 <= i < |a| ==> a[i].events == b[i].events
    ensures AllSought(a[..n]) == AllSought(b[..n])
  {
    hide Sought;
    if n > 0 {
      SameSought(a, b, n - 1);
      assert a[..n][..n - 1] == a[..n - 1] && b[..n][..n - 1] == b[..n - 1];
    }
  }
}
