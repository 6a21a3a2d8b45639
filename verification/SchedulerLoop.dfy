/** The scheduler as it runs: global queues that are changed in place, the loops of the event manager
    over the waiting threads and their events, and the calls that move threads between queues.
    Every method is proved to do what the functions of module Scheduler say, so that everything
    proved about those holds for this code. */
module SchedulerLoop {
  import opened PriorityOrder
  import opened PriorityFacts
  import opened EventManager
  import opened Scheduler
  import Partition
  import opened Runs

  // ---------------------------------------------------------------------------------------
  // The passes over the waiting queue

  lemma {:induction false} ScanEventsNext(env: Env, s: Scan, sigs: set<nat>, i: nat, events: seq<Event>, j: nat)
    requires j < |events|
    ensures var r := ScanEvents(env, s, sigs, i, events[..j]);
      ScanEvents(env, s, sigs, i, events[..j + 1]) ==
        if events[j].status != Pending then r.(events := r.events + [events[j]])
        else
          var c := Check(env, r.scan, r.sigpending, i, j, events[j].kind);
          Scanned(c.scan.(any := c.scan.any || c.occurred), c.sigpending,
                  r.events + [events[j].(status := if c.occurred then Occurred else Pending)])
  {
    hide Check;
    assert events[..j + 1][..j] == events[..j];
  }

  /** The first pass over the events of the i-th waiting thread. */
  method ScanRing(env: Env, s0: Scan, sigs0: set<nat>, i: nat, ring: seq<Event>)
    returns (s: Scan, sigs: set<nat>, events: seq<Event>)
    ensures Scanned(s, sigs, events) == ScanEvents(env, s0, sigs0, i, ring)
  {
    hide Check, ScanEvents;
    s, sigs, events := s0, sigs0, [];
    NoEvents(env, s0, sigs0, i);
    assert ring[..0] == [];
    for j := 0 to |ring|
      invariant Scanned(s, sigs, events) == ScanEvents(env, s0, sigs0, i, ring[..j])
    {
      ScanEventsNext(env, s0, sigs0, i, ring, j);
      var ev := ring[j];
      if ev.status == Pending {
        var c := Check(env, s, sigs, i, j, ev.kind);
        s, sigs := c.scan, c.sigpending;
        if c.occurred {
          ev := ev.(status := Occurred);
          s := s.(any := true);
        }
      }
      events := events + [ev];
    }
    assert ring[..|ring|] == ring;
  }

  lemma {:induction false} NoEvents(env: Env, s: Scan, sigs: set<nat>, i: nat)
    ensures ScanEvents(env, s, sigs, i, []) == Scanned(s, sigs, [])
  {
  }

  lemma {:induction false} ScanThreadsNext(env: Env, s: Scan, ws: seq<Waiter>, i: nat)
    requires i < |ws|
    ensures var (s1, out) := ScanThreads(env, s, ws[..i]);
      var r := ScanEvents(env, s1.(any := s1.any || ws[i].cancelreq), ws[i].sigpending, i, ws[i].events);
      ScanThreads(env, s, ws[..i + 1]) == (r.scan, out + [ws[i].(sigpending := r.sigpending, events := r.events)])
  {
    hide ScanEvents;
    assert ws[..i + 1][..i] == ws[..i];
  }

  /** The first pass over the waiting queue. */
  method FirstPass(env: Env, conds: Conds, pending: set<nat>, waiting: seq<Waiter>) returns (s: Scan, ws: seq<Waiter>)
    ensures (s, ws) == ScanThreads(env, Start(conds, pending), waiting)
  {
    hide ScanThreads, ScanEvents;
    s, ws := Start(conds, pending), [];
    NoThreads(env, s);
    assert waiting[..0] == [];
    for i := 0 to |waiting|
      invariant (s, ws) == ScanThreads(env, Start(conds, pending), waiting[..i])
    {
      ScanThreadsNext(env, Start(conds, pending), waiting, i);
      var w := waiting[i];
      if w.cancelreq {
        s := s.(any := true);
      }
      var sigs, events;
      s, sigs, events := ScanRing(env, s, w.sigpending, i, w.events);
      ws := ws + [w.(sigpending := sigs, events := events)];
    }
    assert waiting[..|waiting|] == waiting;
  }

  lemma {:induction false} NoThreads(env: Env, s: Scan)
    ensures ScanThreads(env, s, []) == (s, [])
  {
  }

  lemma {:induction false} DeliverEventsNext(f: Found, l: Late, events: seq<Event>, j: nat)
    requires j < |events|
    ensures var r := DeliverEvents(f, l, events[..j]);
      var (l', ev) := Deliver(f, r.late, events[j]);
      DeliverEvents(f, l, events[..j + 1]) == Delivered(l', r.events + [ev])
  {
    hide Deliver;
    assert events[..j + 1][..j] == events[..j];
  }

  /** The second pass over the events of one waiting thread. */
  method DeliverRing(f: Found, l0: Late, ring: seq<Event>) returns (l: Late, events: seq<Event>, any: bool)
    ensures Delivered(l, events) == DeliverEvents(f, l0, ring)
    ensures any == SomeOccurred(events)
  {
    hide Deliver, DeliverEvents;
    l, events, any := l0, [], false;
    NoDelivery(f, l0);
    assert ring[..0] == [];
    for j := 0 to |ring|
      invariant Delivered(l, events) == DeliverEvents(f, l0, ring[..j])
      invariant any == SomeOccurred(events)
    {
      DeliverEventsNext(f, l0, ring, j);
      var (l', ev) := Deliver(f, l, ring[j]);
      ghost var before := events;
      l, events := l', events + [ev];
      assert forall k :: 0 <= k < |before| ==> events[k] == before[k];
      assert events[|before|] == ev;
      if ev.status != Pending {
        any := true;
      }
    }
    assert ring[..|ring|] == ring;
  }

  lemma {:induction false} NoDelivery(f: Found, l: Late)
    ensures DeliverEvents(f, l, []) == Delivered(l, [])
  {
  }

  lemma {:induction false} DeliverThreadsNext(f: Found, l: Late, ws: seq<Waiter>, i: nat)
    requires i < |ws|
    ensures var (l1, out) := DeliverThreads(f, l, ws[..i]);
      var r := DeliverEvents(f, l1, ws[i].events);
      DeliverThreads(f, l, ws[..i + 1]) == (r.late, out + [ws[i].(events := r.events)])
  {
    hide DeliverEvents;
    assert ws[..i + 1][..i] == ws[..i];
  }

  lemma {:induction false} DeliverPrefix(f: Found, l: Late, ws: seq<Waiter>, i: nat)
    requires i <= |ws|
    ensures DeliverThreads(f, l, ws[..i]).1 == DeliverThreads(f, l, ws).1[..i]
    decreases |ws| - i
  {
    hide DeliverEvents, DeliverThreads;
    if i == |ws| {
      assert ws[..i] == ws;
    } else {
      DeliverPrefix(f, l, ws, i + 1);
      DeliverThreadsNext(f, l, ws, i);
    }
  }

  ghost predicate Apart(q: Queue) {
    forall i, j :: 0 <= i < j < |q| ==> q[i].thread != q[j].thread
  }

  lemma {:induction false} KeepOnly(q: Queue, woken: set<nat>, j: nat) returns (k: nat)
    requires j < |Keep(q, woken)|
    ensures k < |q| && q[k] == Keep(q, woken)[j]
  {
    var p := q[..|q| - 1];
    if j < |Keep(p, woken)| {
      k := KeepOnly(p, woken, j);
    } else {
      k := |q| - 1;
    }
  }

  /** Deleting the thread that the walk is at. */
  lemma {:induction false} DeleteVisited(q: Queue, woken: set<nat>, i: nat)
    requires Apart(q) && i < |q|
    ensures Delete(Keep(q[..i], woken) + q[i..], q[i].thread) == Keep(q[..i], woken) + q[i + 1..]
  {
    var kept := Keep(q[..i], woken);
    var s := kept + q[i..];
    forall j | 0 <= j < |kept| ensures s[j].thread != q[i].thread {
      var k := KeepOnly(q[..i], woken, j);
    }
    FirstIndex(s, q[i].thread, |kept|);
    assert s[..|kept|] == kept && s[|kept| + 1..] == q[i + 1..];
  }

  /** Whether the i-th thread is woken is decided when the walk is at it. */
  lemma {:induction false} WokenAt(ws: seq<Waiter>, q: Queue, i: nat)
    requires Apart(q) && |ws| == |q| && i < |q| && forall k :: 0 <= k < |q| ==> ws[k].tid == q[k].thread
    ensures q[i].thread in WokenSet(ws) <==> Wakes(ws[i])
  {
    hide Wakes;
  }

  lemma {:induction false} DeliverTids(f: Found, l: Late, ws: seq<Waiter>, k: nat)
    requires k < |ws|
    ensures DeliverThreads(f, l, ws).1[k].tid == ws[k].tid &&
            DeliverThreads(f, l, ws).1[k].sigpending == ws[k].sigpending
    ensures DeliverThreads(f, l, ws).1[k].cancelreq == ws[k].cancelreq
  {
    hide DeliverEvents, DeliverThreads;
    var l' := DeliverThreadsAt(f, l, ws, k);
  }

  lemma {:induction false} StoreNext(tcbs: map<nat, Tcb>, out: seq<Waiter>, w: Waiter)
    ensures Store(tcbs, out + [w]) ==
      var r := Store(tcbs, out);
      if w.tid !in r then r
      else r[w.tid := r[w.tid].(state := if Wakes(w) then Ready else r[w.tid].state,
                                sigpending := w.sigpending, events := w.events)]
  {
    hide Wakes;
    assert (out + [w])[..|out|] == out;
  }

  /** The waiting queue and its threads fit together. */
  ghost predicate Fits(m: Machine, ws: seq<Waiter>) {
    Apart(m.wq) && |ws| == |m.wq| && forall k :: 0 <= k < |ws| ==> ws[k].tid == m.wq[k].thread
  }

  ghost function WillWake(f: Found, l0: Late, ws: seq<Waiter>): set<nat> {
    WokenSet(DeliverThreads(f, l0, ws).1)
  }

  /** The second pass, before it visits the i-th of the threads that waited in m. */
  ghost predicate Walking(m: Machine, f: Found, l0: Late, ws: seq<Waiter>, i: nat,
                          l: Late, out: seq<Waiter>, tcbs: map<nat, Tcb>, wq: Queue, rq: Queue)
    requires Fits(m, ws) && i <= |ws|
  {
    && (l, out) == DeliverThreads(f, l0, ws[..i])
    && tcbs == Store(m.tcbs, out)
    && wq == Keep(m.wq[..i], WillWake(f, l0, ws)) + m.wq[i..]
    && rq == Wake(m.rq, m.wq[..i], WillWake(f, l0, ws), Base(m))
  }

  function PrioIn(tcbs: map<nat, Tcb>, t: nat): int {
    if t in tcbs then tcbs[t].prio else PRIO_STD
  }

  lemma {:induction false} PrioStays(m: Machine, out: seq<Waiter>, t: nat)
    ensures PrioIn(Store(m.tcbs, out), t) == BaseOf(Base(m), t)
  {
    hide Store;
    Partition.StoreStates(m.tcbs, out, t);
  }

  lemma {:induction false} VisitDecides(m: Machine, f: Found, l0: Late, ws: seq<Waiter>, i: nat, w: Waiter)
    requires Fits(m, ws) && i < |ws|
    requires w == ws[i].(events := DeliverEvents(f, DeliverThreads(f, l0, ws[..i]).0, ws[i].events).events)
    ensures ws[i].tid in WillWake(f, l0, ws) <==> Wakes(w)
  {
    hide DeliverEvents, DeliverThreads, Wakes, WokenSet;
    var final := DeliverThreads(f, l0, ws).1;
    forall k | 0 <= k < |ws| ensures final[k].tid == m.wq[k].thread { DeliverTids(f, l0, ws, k); }
    DeliverPrefix(f, l0, ws, i + 1);
    DeliverThreadsNext(f, l0, ws, i);
    assert final[i] == w;
    WokenAt(final, m.wq, i);
  }

  lemma {:induction false} WalkOn(m: Machine, f: Found, l0: Late, ws: seq<Waiter>, i: nat,
                                  l: Late, out: seq<Waiter>, tcbs: map<nat, Tcb>, wq: Queue, rq: Queue,
                                  l': Late, w: Waiter)
    requires Fits(m, ws) && i < |ws| && Walking(m, f, l0, ws, i, l, out, tcbs, wq, rq)
    requires w == ws[i].(events := w.events) && Delivered(l', w.events) == DeliverEvents(f, l, ws[i].events)
    ensures var tcbs' := if w.tid !in tcbs then tcbs
                         else tcbs[w.tid := tcbs[w.tid].(state := if Wakes(w) then Ready else tcbs[w.tid].state,
                                                         sigpending := w.sigpending, events := w.events)];
      Walking(m, f, l0, ws, i + 1, l', out + [w], tcbs',
              if Wakes(w) then Delete(wq, w.tid) else wq,
              if Wakes(w) then Insert(rq, PrioIn(tcbs, w.tid) + 1, w.tid) else rq)
    ensures |Keep(m.wq[..i + 1], WillWake(f, l0, ws))| ==
            |Keep(m.wq[..i], WillWake(f, l0, ws))| + if Wakes(w) then 0 else 1
  {
    hide DeliverEvents, DeliverThreads, Wakes, WokenSet, Insert, Delete, Keep, Wake, Store, WillWake, Base;
    VisitDecides(m, f, l0, ws, i, w);
    DeliverThreadsNext(f, l0, ws, i);
    StoreNext(m.tcbs, out, w);
    PrioStays(m, out, w.tid);
    KeepWakeNext(m.wq, i, WillWake(f, l0, ws), m.rq, Base(m));
    DeleteVisited(m.wq, WillWake(f, l0, ws), i);
    assert Keep(m.wq[..i], WillWake(f, l0, ws)) + m.wq[i..] ==
           (Keep(m.wq[..i], WillWake(f, l0, ws)) + [m.wq[i]]) + m.wq[i + 1..];
  }

  lemma {:induction false} WalkStart(m: Machine, f: Found, l0: Late, ws: seq<Waiter>)
    requires Fits(m, ws)
    ensures Walking(m, f, l0, ws, 0, l0, [], m.tcbs, m.wq, m.rq)
    ensures |Keep(m.wq[..0], WillWake(f, l0, ws))| == 0
  {
    hide DeliverEvents, WillWake;
    assert ws[..0] == [] && m.wq[..0] == [] && m.wq[0..] == m.wq;
  }

  lemma {:induction false} WalkPlace(m: Machine, f: Found, l0: Late, ws: seq<Waiter>, i: nat,
                                     l: Late, out: seq<Waiter>, tcbs: map<nat, Tcb>, wq: Queue, rq: Queue)
    requires Fits(m, ws) && i < |ws| && Walking(m, f, l0, ws, i, l, out, tcbs, wq, rq)
    ensures var k := |Keep(m.wq[..i], WillWake(f, l0, ws))|; k < |wq| && wq[k].thread == ws[i].tid
  {
    hide DeliverEvents, DeliverThreads, WillWake, Keep, Wake, Store;
  }

  lemma {:induction false} WakesMeans(w: Waiter, any: bool)
    requires any == SomeOccurred(w.events)
    ensures any || w.cancelreq <==> Wakes(w)
  {
  }

  lemma {:induction false} WalkEnd(m: Machine, f: Found, l0: Late, ws: seq<Waiter>,
                                   l: Late, out: seq<Waiter>, tcbs: map<nat, Tcb>, wq: Queue, rq: Queue, repeat: bool)
    requires Fits(m, ws) && Walking(m, f, l0, ws, |ws|, l, out, tcbs, wq, rq)
    ensures m.(tcbs := tcbs, wq := wq, rq := rq, conds := l.conds) ==
      Settle(m, Round(DeliverThreads(f, l0, ws).0.conds, DeliverThreads(f, l0, ws).1, repeat))
  {
    hide DeliverEvents, DeliverThreads, Keep, Wake, Store, WokenSet, Base;
    assert ws[..|ws|] == ws && m.wq[..|ws|] == m.wq && m.wq[|ws|..] == [];
  }

  lemma {:induction false} OnceApart(q: Queue)
    requires forall t :: t in Bag(q) ==> Bag(q)[t] == 1
    ensures Apart(q)
  {
    forall i, j | 0 <= i < j < |q| ensures q[i].thread != q[j].thread {
      var s := Threads(q);
      assert s == s[..i] + [s[i]] + s[i + 1..j] + [s[j]] + s[j + 1..];
      assert s[i] in Bag(q);
    }
  }

  lemma {:induction false} SoundApart(m: Machine, held: set<nat>)
    requires Partition.Sound(m, held)
    ensures Apart(m.wq) && Apart(m.nq)
  {
    hide Bag, Apart, Descending;
    forall t | t in Bag(m.wq) ensures Bag(m.wq)[t] == 1 { assert Partition.Places(m, t) <= 1; }
    forall t | t in Bag(m.nq) ensures Bag(m.nq)[t] == 1 { assert Partition.Places(m, t) <= 1; }
    OnceApart(m.wq);
    OnceApart(m.nq);
  }

  /** The rings of the waiting threads after the first pass, and after an elapsed timer. */
  lemma {:induction false} ScanFits(m: Machine, env: Env, s: Scan, ws: seq<Waiter>)
    requires Fits(m, ws)
    ensures Fits(m, ScanThreads(env, s, ws).1)
  {
    hide ScanThreads, ScanEvents;
    var r := ScanThreads(env, s, ws).1;
    forall k | 0 <= k < |ws| ensures r[k].tid == m.wq[k].thread {
      var s' := ScanThreadsAt(env, s, ws, k);
    }
  }

  /** How a context switch ends. */
  datatype Ended = Dispatched | StillAsleep | NoThreads

  class Pth {
    var tcbs: map<nat, Tcb>
    var nq: Queue
    var rq: Queue
    var wq: Queue
    var sq: Queue
    var dq: Queue
    var current: nat
    var favournew: bool
    var conds: Conds
    var pipe: nat
    ghost var spawned: nat
    ghost var freed: nat

    ghost function View(): Machine
      reads this
    {
      Machine(tcbs, nq, rq, wq, sq, dq, current, favournew, conds, pipe, spawned, freed)
    }

    /** The second pass: late handling of every ring, and out of the waiting queue with those that
        wake up, while walking along it. */
    method SecondPass(f: Found, l0: Late, ws: seq<Waiter>, ghost repeat: bool)
      requires Fits(View(), ws)
      modifies this`tcbs, this`wq, this`rq, this`conds
      ensures View() == Settle(old(View()),
                        Round(DeliverThreads(f, l0, ws).0.conds, DeliverThreads(f, l0, ws).1, repeat))
    {
      hide DeliverEvents, DeliverThreads, Wakes, WokenSet, Insert, Delete, Keep, Wake, Store, WillWake, Base, Walking;
      ghost var m := View();
      WalkStart(m, f, l0, ws);
      var l, i, k := l0, 0, 0;
      ghost var out: seq<Waiter> := [];
      while i < |ws|
        invariant i <= |ws| && Walking(m, f, l0, ws, i, l, out, tcbs, wq, rq)
        invariant k == |Keep(m.wq[..i], WillWake(f, l0, ws))|
        invariant View() == m.(tcbs := tcbs, wq := wq, rq := rq)
      {
        WalkPlace(m, f, l0, ws, i, l, out, tcbs, wq, rq);
        var t := wq[k].thread;
        var l', events, any := DeliverRing(f, l, ws[i].events);
        var w := ws[i].(events := events);
        WalkOn(m, f, l0, ws, i, l, out, tcbs, wq, rq, l', w);
        WakesMeans(w, any);
        var prio := PrioIn(tcbs, t);
        var wakes := any || w.cancelreq;
        if t in tcbs {
          tcbs := tcbs[t := tcbs[t].(state := if wakes then Ready else tcbs[t].state,
                                     sigpending := w.sigpending, events := events)];
        }
        if wakes {
          wq := Delete(wq, t);
          rq := Insert(rq, prio + 1, t);
        } else {
          k := k + 1;
        }
        l, i := l', i + 1;
        out := out + [w];
      }
      conds := l.conds;
      WalkEnd(m, f, l0, ws, l, out, tcbs, wq, rq, repeat);
    }

    /** The waiting queue as the event manager walks it. */
    method Collect() returns (ws: seq<Waiter>)
      ensures ws == Waiters(View())
    {
      ws := [];
      for i := 0 to |wq|
        invariant ws == Waiters(View())[..i]
      {
        var t := wq[i].thread;
        var b := if t in tcbs then tcbs[t] else NOBODY;
        ws := ws + [Waiter(t, b.cancelreq, b.sigpending, b.events)];
      }
    }

    /** One round of the event manager: both passes around one select(2), whose answer is `turn`. */
    method ManageOnce(turn: Turn, dopoll: bool) returns (repeat: bool)
      requires Apart(wq)
      modifies this`tcbs, this`wq, this`rq, this`conds
      ensures var r := RunRound(turn, old(conds), Waiters(old(View())), dopoll, pipe);
        View() == Settle(old(View()), r) && repeat == r.repeat
    {
      hide ScanThreads, ScanEvents, DeliverThreads, DeliverEvents, Settle, Waiters, Apart, Expire, Adjust;
      var waiting := Collect();
      var s, ws := FirstPass(turn.env, conds, turn.pending, waiting);
      TimerOfThreads(turn.env, Start(conds, turn.pending), waiting);
      ScanFits(View(), turn.env, Start(conds, turn.pending), waiting);
      var poll := dopoll || s.any;
      repeat := false;
      if !poll && turn.answer.rc == 0 && s.timer.Some? {
        if s.timer.value.isFunc {
          repeat := true;
        } else {
          ExpireFits(View(), ws, s.timer.value.thread, s.timer.value.event);
          ws := Expire(ws, s.timer.value.thread, s.timer.value.event);
        }
      }
      SecondPass(Adjust(turn.answer, poll, pipe), Late(s.conds, turn.answer.raised), ws, repeat);
    }

    /** The event manager: rounds go on while an event function has to be asked again.  When the
        turns run out first, it is still asleep in select(2). */
    method Manage(turns: seq<Turn>, dopoll: bool) returns (done: bool)
      requires Partition.Sound(View(), {})
      modifies this`tcbs, this`wq, this`rq, this`conds
      ensures done <==> Rounds(old(View()), turns, dopoll).Some?
      ensures done ==> View() == Rounds(old(View()), turns, dopoll).value
    {
      hide RunRound, Settle, Waiters, Partition.Sound, Apart;
      var k := 0;
      done := false;
      assert turns[0..] == turns;
      while k < |turns|
        invariant 0 <= k <= |turns| && !done && Partition.Sound(View(), {})
        invariant Rounds(old(View()), turns, dopoll) == Rounds(View(), turns[k..], dopoll)
      {
        SoundApart(View(), {});
        Partition.RoundKeeps(View(), turns[k], dopoll);
        assert turns[k..][0] == turns[k] && turns[k..][1..] == turns[k + 1..];
        var repeat := ManageOnce(turns[k], dopoll);
        k := k + 1;
        if !repeat {
          done := true;
          return;
        }
      }
    }

    /** Moves the new threads to the ready queue, the last one first. */
    method DrainNew()
      requires Apart(nq)
      modifies this`tcbs, this`nq, this`rq
      ensures View() == Drain(old(View()))
    {
      hide Insert, Drain, Delete;
      while nq != []
        invariant Apart(nq) && Drain(View()) == Drain(old(View()))
        decreases |nq|
      {
        var t := nq[|nq| - 1].thread;
        DeleteTail(nq);
        DrainNext(View());
        var b := if t in tcbs then tcbs[t] else NOBODY;
        nq := Delete(nq, t);
        tcbs := tcbs[t := b.(state := Ready)];
        if favournew {
          rq := Insert(rq, FavoritePrio(rq), t);
        } else {
          rq := Insert(rq, PRIO_STD, t);
        }
      }
      DrainNext(View());
    }

    /** Takes the next thread to run off the ready queue, if there is one. */
    method DispatchNext() returns (ok: bool)
      modifies this`rq, this`current
      ensures ok <==> Dispatch(old(View())).Running?
      ensures ok ==> View() == Dispatch(old(View())).machine
    {
      ok := rq != [];
      if ok {
        current, rq := rq[0].thread, rq[1..];
      }
    }

    /** Kicks out a thread: it is freed, or kept for whoever joins it. */
    method Kick(t: nat)
      modifies this`tcbs, this`dq, this`freed
      ensures View() == Bury(old(View()), t)
    {
      hide Insert;
      var b := Lookup(t);
      if !b.joinable {
        tcbs := tcbs - {t};
        freed := freed + 1;
      } else {
        tcbs := tcbs[t := b.(state := Dead)];
        dq := Insert(dq, PRIO_STD, t);
      }
    }

    /** What the scheduler does with the thread that ran. */
    method PutAway(c: Cause)
      modifies this
      ensures View() == Place(old(View()), c)
    {
      hide Insert, Increase;
      var t := current;
      var b := if t in tcbs then tcbs[t] else NOBODY;
      match c {
        case Exit =>
          Kick(t);
          rq := Increase(rq);
        case Wait(events) =>
          tcbs := tcbs[t := b.(state := Waiting, events := AsPending(events))];
          wq := Insert(wq, b.prio, t);
          rq := Increase(rq);
        case Yield =>
          rq := Increase(rq);
          rq := Insert(rq, b.prio, t);
      }
    }

    /** One turn of the endless loop, from the switch into the scheduler to the switch out of it. */
    method Turnaround(c: Cause, turns: seq<Turn>) returns (e: Ended)
      requires Partition.Inv(View())
      modifies this
      ensures match Resched(old(View()), c, turns)
              case Running(m) => e == Dispatched && View() == m && Partition.Inv(m)
              case Asleep => e == StillAsleep
              case Aborted => e == NoThreads
    {
      hide Partition.Inv, Partition.Sound, Place, Rounds, Drain, Dispatch, Apart;
      Partition.PlaceKeeps(View(), c);
      Partition.ReschedKeeps(View(), c, turns);
      PutAway(c);
      var poll := rq != [] || nq != [];
      Partition.RoundsKeep(View(), turns, poll);
      var done := Manage(turns, poll);
      if !done {
        return StillAsleep;
      }
      SoundApart(View(), {});
      DrainNew();
      DispatchEnds(View());
      var ok := DispatchNext();
      return if ok then Dispatched else NoThreads;
    }

    // -------------------------------------------------------------------------------------
    // The calls of the running thread

    function Lookup(t: nat): Tcb
      reads this
    {
      if t in tcbs then tcbs[t] else NOBODY
    }

    method Spawn(t: nat, a: Attr)
      modifies this`tcbs, this`nq, this`spawned
      ensures View() == Scheduler.Spawn(old(View()), t, a)
    {
      hide Insert;
      tcbs := tcbs[t := Tcb(a.prio, New, a.joinable, false, a.cancelEnable, a.cancelAsync, {}, [])];
      nq := Insert(nq, a.prio, t);
      spawned := spawned + 1;
    }

    /** Takes t out of the queue that its state names, if it is there. */
    method Unqueue(t: nat, s: State) returns (found: bool)
      modifies this`nq, this`rq, this`wq, this`dq
      ensures found == Queued(QueueOf(old(View()), s), t)
      ensures View() == if found then WithQueue(old(View()), s, Delete(QueueOf(old(View()), s), t)) else old(View())
    {
      hide Delete, IndexOf;
      found := false;
      match s {
        case New => if Queued(nq, t) { nq, found := Delete(nq, t), true; }
        case Ready => if Queued(rq, t) { rq, found := Delete(rq, t), true; }
        case Waiting => if Queued(wq, t) { wq, found := Delete(wq, t), true; }
        case Dead => if Queued(dq, t) { dq, found := Delete(dq, t), true; }
      }
    }

    method Suspend(h: Handle) returns (r: Reply)
      modifies this
      ensures (View(), r) == Scheduler.Suspend(old(View()), h)
    {
      hide Insert, Delete, IndexOf;
      if h == Null { return Err(EINVAL); }
      if h == Sched || h.id == current { return Err(EPERM); }
      var s := Lookup(h.id).state;
      if s == Dead { return Err(EPERM); }
      var found := Unqueue(h.id, s);
      if !found { return Err(ESRCH); }
      sq := Insert(sq, PRIO_STD, h.id);
      return Ok;
    }

    method Resume(h: Handle) returns (r: Reply)
      modifies this
      ensures (View(), r) == Scheduler.Resume(old(View()), h)
    {
      hide Insert, Delete, IndexOf;
      if h == Null { return Err(EINVAL); }
      if h == Sched || h.id == current { return Err(EPERM); }
      if !Queued(sq, h.id) { return Err(EPERM); }
      sq := Delete(sq, h.id);
      match Lookup(h.id).state {
        case New => nq := Insert(nq, PRIO_STD, h.id);
        case Ready => rq := Insert(rq, PRIO_STD, h.id);
        case Waiting => wq := Insert(wq, PRIO_STD, h.id);
        case Dead =>
      }
      return Ok;
    }

    method Cancel(h: Handle) returns (r: Reply)
      modifies this
      ensures (View(), r) == Scheduler.Cancel(old(View()), h)
    {
      hide Insert, Delete, IndexOf, Bury;
      if h == Null { return Err(EINVAL); }
      if h == Sched { return Ok; }
      if h.id == current { return Err(EINVAL); }
      var b := Lookup(h.id);
      if b.state == Dead { return Err(EPERM); }
      tcbs := tcbs[h.id := b.(cancelreq := true)];
      if b.cancelEnable && b.cancelAsync {
        var found := Unqueue(h.id, b.state);
        if !found { return Err(ESRCH); }
        Kick(h.id);
      }
      return Ok;
    }

    /** The part of joining that needs no wait any more. */
    method Reap(tid: Option<nat>) returns (r: Reply)
      modifies this
      ensures (View(), r) == JoinDead(old(View()), tid)
    {
      hide Delete;
      var t := tid;
      if t.None? && dq != [] {
        t := Some(dq[0].thread);
      }
      if t.None? || Lookup(t.value).state != Dead {
        return Err(EIO);
      }
      dq := Delete(dq, t.value);
      tcbs := tcbs - {t.value};
      freed := freed + 1;
      return Ok;
    }

    /** Joining, up to the point where it returns or waits. */
    method Join(tid: Option<nat>) returns (plan: JoinPlan)
      modifies this
      ensures (View(), plan) == Scheduler.Join(old(View()), tid)
    {
      hide Delete, JoinDead;
      if tid == Some(current) { return Refuse(EDEADLK); }
      if tid.Some? && !Lookup(tid.value).joinable { return Refuse(EINVAL); }
      if |nq| + |rq| + 1 + |wq| + |sq| + |dq| == 1 { return Refuse(EDEADLK); }
      var t := tid;
      if t.None? && dq != [] {
        t := Some(dq[0].thread);
      }
      if t.None? || Lookup(t.value).state != Dead {
        return WaitFirst(t);
      }
      var r := Reap(t);
      return JoinAtOnce(t);
    }

    /** Raises a signal, up to the directed yield. */
    method Raise(h: Handle, sig: int, ignored: bool) returns (r: Reply)
      modifies this`tcbs
      ensures (View(), r) == Scheduler.Raise(old(View()), h, sig, ignored)
    {
      if h == Null || h == Thread(current) || sig < 0 || sig > NSIG {
        return Err(EINVAL);
      }
      if sig == 0 {
        var found := h.Thread? && (Queued(nq, h.id) || Queued(rq, h.id) || Queued(wq, h.id) || Queued(sq, h.id) ||
                                   Queued(dq, h.id));
        return if found then Ok else Err(ESRCH);
      }
      if !ignored && h.Thread? {
        var b := Lookup(h.id);
        tcbs := tcbs[h.id := b.(sigpending := b.sigpending + {sig})];
      }
      return Ok;
    }

    /** Sets an attribute of a thread that exists. */
    method SetAttr(t: nat, x: Setting)
      modifies this`tcbs
      ensures View() == Put(old(View()), t, WithSetting(Look(old(View()), t), x))
    {
      var b := Lookup(t);
      match x {
        case SetPrio(prio) => b := b.(prio := prio);
        case SetJoinable(joinable) => b := b.(joinable := joinable);
        case SetCancel(enable, async) => b := b.(cancelEnable := enable, cancelAsync := async);
      }
      tcbs := tcbs[t := b];
    }

    method Abort(h: Handle) returns (r: Reply)
      modifies this
      ensures (View(), r) == Scheduler.Abort(old(View()), h)
    {
      hide Insert, Delete, IndexOf, Scheduler.Cancel;
      if h == Null { return Err(EINVAL); }
      if h == Sched { return Err(ESRCH); }
      if h.id == current { return Err(EINVAL); }
      var b := Lookup(h.id);
      if b.state == Dead && b.joinable {
        if |nq| + |rq| + 1 + |wq| + |sq| + |dq| == 1 { return Err(EDEADLK); }
        r := Reap(Some(h.id));
      } else {
        tcbs := tcbs[h.id := b.(joinable := false, cancelEnable := true, cancelAsync := true)];
        r := Cancel(h);
      }
    }

    /** The choice of a directed yield. */
    method FavourThread(to: nat) returns (r: Reply)
      modifies this`nq, this`rq
      ensures (View(), r) == Favour(old(View()), to)
    {
      hide Favorite, IndexOf;
      match Lookup(to).state {
        case New =>
          if !Queued(nq, to) { return Err(EINVAL); }
          nq := Favorite(nq, to);
        case Ready =>
          if !Queued(rq, to) { return Err(EINVAL); }
          rq := Favorite(rq, to);
        case _ => return Err(EINVAL);
      }
      return Ok;
    }

    /** One step of a run, whatever it is. */
    method Perform(step: Step) returns (e: Ended)
      requires Partition.Inv(View()) && Legal(View(), step)
      modifies this
      ensures e != NoThreads
      ensures e == Dispatched ==> Partition.Inv(View())
      ensures Apply(old(View()), step) == if e == Dispatched then Running(View()) else Asleep
    {
      hide Partition.Inv, Scheduler.Spawn, Scheduler.Suspend, Scheduler.Resume, Scheduler.Cancel, Scheduler.Abort,
        Scheduler.Join, JoinDead, Favour, Resched, HonestSwitch, QueueOf, WithQueue;
      StepKeeps(View(), step);
      e := Dispatched;
      var reply: Reply;
      match step {
        case SpawnStep(t, a) => Spawn(t, a);
        case SuspendStep(h) => reply := Suspend(h);
        case ResumeStep(h) => reply := Resume(h);
        case CancelStep(h) => reply := Cancel(h);
        case AbortStep(h) => reply := Abort(h);
        case JoinStep(tid) => var plan := Join(tid);
        case ReapStep(tid) => reply := Reap(tid);
        case AttrStep(t, x) => SetAttr(t, x);
        case RaiseStep(h, sig, ignored) => reply := Raise(h, sig, ignored);
        case CancelStateStep(enable, async) =>
          tcbs := tcbs[current := Lookup(current).(cancelEnable := enable, cancelAsync := async)];
        case NotifyStep(c, f) => conds := conds[c := f];
        case FavournewStep(on) => favournew := on;
        case YieldToStep(to, turns) =>
          Partition.FavourKeeps(View(), to);
          FavourRefused(View(), to);
          reply := FavourThread(to);
          if reply == Ok {
            e := Turnaround(Yield, turns);
          }
        case SwitchStep(c, turns) => e := Turnaround(c, turns);
      }
    }
  }

  lemma {:induction false} DrainNext(m: Machine)
    ensures m.nq == [] ==> Drain(m) == m
    ensures m.nq != [] ==>
      var t := m.nq[|m.nq| - 1].thread;
      var p := if m.favournew then FavoritePrio(m.rq) else PRIO_STD;
      Drain(m) == Drain(Put(m, t, Look(m, t).(state := Ready)).(nq := m.nq[..|m.nq| - 1], rq := Insert(m.rq, p, t)))
  {
    hide Insert;
  }

  lemma {:induction false} FavourRefused(m: Machine, to: nat)
    ensures Favour(m, to).1 != Ok ==> Favour(m, to).0 == m
  {
  }

  lemma {:induction false} DispatchEnds(m: Machine)
    ensures Dispatch(m).Running? || Dispatch(m).Aborted?
  {
  }

  lemma {:induction false} DeleteTail(q: Queue)
    requires Apart(q) && q != []
    ensures Delete(q, q[|q| - 1].thread) == q[..|q| - 1]
  {
    FirstIndex(q, q[|q| - 1].thread, |q| - 1);
    assert q[|q|..] == [];
  }

  lemma {:induction false} ExpireFits(m: Machine, ws: seq<Waiter>, i: nat, j: nat)
    requires Fits(m, ws) && i < |ws| && j < |ws[i].events|
    ensures Fits(m, Expire(ws, i, j))
  {
  }
}
