/** The pass steps of the synchronization protocols are rounds of the event manager: for any waiting
    queue that holds the waiting threads of a protocol, whatever else waits beside them, a round
    marks whom the pass step marks and leaves the flags that the pass step leaves. */
module Passes {
  import opened EventManager
  import opened EventProperties
  import opened EventOutcomes
  import opened Marking
  import M = Mutexes
  import B = Barriers
  import WaitQueue

  /** The thread waits for an event of this kind, perhaps along with others. */
  predicate Awaits(w: Waiter, k: Kind) { w.events != [] && w.events[0] == Event(k, Pending) }

  /** No thread twice, and the events for condition c are pending and first in their rings. */
  ghost predicate Shape(ws: seq<Waiter>, c: nat) {
    && (forall i, j :: 0 <= i < j < |ws| ==> ws[i].tid != ws[j].tid)
    && (forall i, j :: 0 <= i < |ws| && 0 <= j < |ws[i].events| && ws[i].events[j].kind == Cond(c) ==>
          j == 0 && ws[i].events[j].status == Pending)
  }

  function WaitingFor(ws: seq<Waiter>, c: nat): set<nat> {
    set i | 0 <= i < |ws| && Awaits(ws[i], Cond(c)) :: ws[i].tid
  }

  predicate Over(before: Waiter, after: Waiter) {
    before.events != [] && after.events != [] && after.events[0].status == Occurred
  }

  /** Those whose wait for condition c is over. */
  function Woken(ws: seq<Waiter>, ws': seq<Waiter>, c: nat): set<nat>
    requires |ws| == |ws'|
  {
    set i | 0 <= i < |ws| && Awaits(ws[i], Cond(c)) && Over(ws[i], ws'[i]) :: ws[i].tid
  }

  // ---------------------------------------------------------------------------------------
  // From counts to sets

  lemma {:induction false} RingCounts(before: seq<Event>, after: seq<Event>, c: nat)
    requires |before| == |after|
    requires forall j :: 0 <= j < |before| && before[j].kind == Cond(c) ==> j == 0 && before[j].status == Pending
    ensures WaitingOn(before, c) == if before != [] && before[0] == Event(Cond(c), Pending) then 1 else 0
    ensures Marks(before, after, c) ==
      if before != [] && before[0] == Event(Cond(c), Pending) && after[0].status == Occurred then 1 else 0
  {
    if before != [] {
      var n := |before| - 1;
      RingCounts(before[..n], after[..n], c);
    }
  }

  lemma {:induction false} LastSets(ws: seq<Waiter>, ws': seq<Waiter>, c: nat)
    requires Shape(ws, c) && |ws| == |ws'| > 0
    ensures var n := |ws| - 1;
      var p, p', t := ws[..n], ws'[..n], ws[n].tid;
      && t !in WaitingFor(p, c) && t !in Woken(p, p', c)
      && WaitingFor(ws, c) == WaitingFor(p, c) + (if Awaits(ws[n], Cond(c)) then {t} else {})
      && Woken(ws, ws', c) == Woken(p, p', c) + if Awaits(ws[n], Cond(c)) && Over(ws[n], ws'[n]) then {t} else {}
  {
    hide Awaits, Over;
  }

  lemma {:induction false} QueueCounts(ws: seq<Waiter>, ws': seq<Waiter>, c: nat)
    requires Shape(ws, c) && SameShape(ws, ws')
    ensures AllWaitingOn(ws, c) == |WaitingFor(ws, c)| && AllMarks(ws, ws', c) == |Woken(ws, ws', c)|
  {
    hide Awaits, Over, WaitingFor, Woken, WaitingOn, Marks, Shape;
    if ws == [] {
      NoneWaits(c);
    } else {
      var n := |ws| - 1;
      ShorterShape(ws, c);
      QueueCounts(ws[..n], ws'[..n], c);
      LastCounts(ws, ws', c);
      LastSets(ws, ws', c);
    }
  }

  lemma {:induction false} NoneWaits(c: nat)
    ensures WaitingFor([], c) == {} && Woken([], [], c) == {}
  {
  }

  lemma {:induction false} ShorterShape(ws: seq<Waiter>, c: nat)
    requires Shape(ws, c) && ws != []
    ensures Shape(ws[..|ws| - 1], c)
  {
  }

  lemma {:induction false} LastCounts(ws: seq<Waiter>, ws': seq<Waiter>, c: nat)
    requires Shape(ws, c) && SameShape(ws, ws') && ws != []
    ensures var w, w' := ws[|ws| - 1], ws'[|ws| - 1];
      && |w.events| == |w'.events|
      && WaitingOn(w.events, c) == (if Awaits(w, Cond(c)) then 1 else 0)
      && Marks(w.events, w'.events, c) == if Awaits(w, Cond(c)) && Over(w, w') then 1 else 0
  {
    RingCounts(ws[|ws| - 1].events, ws'[|ws| - 1].events, c);
  }

  lemma {:induction false} Same(a: set<nat>, b: set<nat>)
    requires a <= b && |a| == |b|
    ensures a == b
  {
    assert |b - a| == 0;
  }

  lemma {:induction false} Single(a: set<nat>, t: nat)
    requires |a| == 1 && t in a
    ensures a == {t}
  {
    assert |a - {t}| == 0;
  }

  /** What a round does for condition c: it chooses as a pass does, and leaves the same flags. */
  lemma {:induction false} CondPass(turn: Turn, conds: Conds, ws: seq<Waiter>, dopoll: bool, pipe: nat, c: nat)
    returns (who: nat)
    requires Shape(ws, c)
    ensures var r := RunRound(turn, conds, ws, dopoll, pipe);
      && Woken(ws, r.waiters, c) == Chosen(Flags(conds, c), WaitingFor(ws, c), who)
      && Flags(r.conds, c) == FlagsAfter(Flags(conds, c), WaitingFor(ws, c), who)
    ensures who in WaitingFor(ws, c) || WaitingFor(ws, c) == {}
  {
    hide RunRound, AllMarks, AllWaitingOn, Woken, WaitingFor;
    var r, f := RunRound(turn, conds, ws, dopoll, pipe), Flags(conds, c);
    CondRound(turn, conds, ws, dopoll, pipe, c);
    QueueCounts(ws, r.waiters, c);
    var woken, waiting := Woken(ws, r.waiters, c), WaitingFor(ws, c);
    WokenWaited(ws, r.waiters, c);
    NobodyServed(ws, c);
    who := 0;
    if woken != {} {
      who :| who in woken;
    } else if waiting != {} {
      who :| who in waiting;
    }
    if f.signaled && f.broadcast {
      Same(woken, waiting);
    } else if |woken| == 1 {
      Single(woken, who);
    }
  }

  lemma {:induction false} WokenWaited(ws: seq<Waiter>, ws': seq<Waiter>, c: nat)
    requires |ws| == |ws'|
    ensures Woken(ws, ws', c) <= WaitingFor(ws, c)
  {
  }

  lemma {:induction false} NobodyServed(ws: seq<Waiter>, c: nat)
    requires Shape(ws, c)
    ensures !SomeThreadServed(ws, c)
  {
  }

  /** What a round does for a thread that waits for mutex m. */
  lemma {:induction false} LockPass(turn: Turn, conds: Conds, ws: seq<Waiter>, dopoll: bool, pipe: nat, i: nat, m: nat)
    requires i < |ws| && Awaits(ws[i], Mutex(m))
    ensures Over(ws[i], RunRound(turn, conds, ws, dopoll, pipe).waiters[i]) <==> m !in turn.env.locked
  {
    hide RunRound;
    PlainRound(turn, conds, ws, dopoll, pipe, i, 0);
  }

  // ---------------------------------------------------------------------------------------
  // The protocols

  /** The queue holds exactly these threads for the condition, and these for the mutex. */
  ghost predicate Holds(ws: seq<Waiter>, c: nat, m: nat, sleepers: set<nat>, lockers: set<nat>) {
    && Shape(ws, c)
    && WaitingFor(ws, c) == sleepers
    && (forall i :: 0 <= i < |ws| && Awaits(ws[i], Mutex(m)) ==> ws[i].tid in lockers)
    && (forall t :: t in lockers ==> exists i :: 0 <= i < |ws| && ws[i].tid == t && Awaits(ws[i], Mutex(m)))
  }

  /** Thread t has left the waiting queue through its wait for c or m. */
  ghost predicate Released(ws: seq<Waiter>, ws': seq<Waiter>, c: nat, m: nat, t: nat)
    requires |ws| == |ws'|
  {
    t in Woken(ws, ws', c) ||
      exists i :: 0 <= i < |ws| && ws[i].tid == t && Awaits(ws[i], Mutex(m)) && Over(ws[i], ws'[i])
  }

  lemma {:induction false} RoundReleases(turn: Turn, conds: Conds, ws: seq<Waiter>, dopoll: bool, pipe: nat,
                                         c: nat, m: nat, sleepers: set<nat>, lockers: set<nat>) returns (who: nat)
    requires Holds(ws, c, m, sleepers, lockers)
    ensures who in sleepers || sleepers == {}
    ensures var r := RunRound(turn, conds, ws, dopoll, pipe);
      && Flags(r.conds, c) == FlagsAfter(Flags(conds, c), sleepers, who)
      && forall t: nat :: Released(ws, r.waiters, c, m, t) <==>
           t in Chosen(Flags(conds, c), sleepers, who) || (t in lockers && m !in turn.env.locked)
  {
    hide RunRound, Woken, WaitingFor, Awaits, Over, Chosen, FlagsAfter, Shape;
    who := CondPass(turn, conds, ws, dopoll, pipe, c);
    var r := RunRound(turn, conds, ws, dopoll, pipe);
    forall i | 0 <= i < |ws| && Awaits(ws[i], Mutex(m))
      ensures Over(ws[i], r.waiters[i]) <==> m !in turn.env.locked
    {
      LockPass(turn, conds, ws, dopoll, pipe, i, m);
    }
  }

  lemma {:induction false} ChosenSleep(f: CondFlags, sleepers: set<nat>, who: nat)
    ensures Chosen(f, sleepers, who) <= sleepers
  {
  }

  /** A pass of the barrier protocol is a round. */
  lemma {:induction false} BarrierPassIsRound(s: B.Barrier, c: nat, m: nat,
                                              turn: Turn, conds: Conds, ws: seq<Waiter>, dopoll: bool, pipe: nat)
    returns (who: nat)
    requires Holds(ws, c, m, B.Sleepers(s), B.Lockers(s) - s.marked)
    requires Flags(conds, c) == s.cond && (m in turn.env.locked <==> s.mutex.locked)
    ensures B.Legal(s, B.PassStep(who))
    ensures var r, s' := RunRound(turn, conds, ws, dopoll, pipe), B.Pass(s, who);
      && Flags(r.conds, c) == s'.cond
      && forall t: nat :: Released(ws, r.waiters, c, m, t) <==> t in s'.marked && t !in s.marked
  {
    hide RunRound, Released, Holds, Chosen, FlagsAfter;
    who := RoundReleases(turn, conds, ws, dopoll, pipe, c, m, B.Sleepers(s), B.Lockers(s) - s.marked);
    ChosenSleep(s.cond, B.Sleepers(s), who);
  }

  /** The queue holds exactly the threads of the mutex protocol that wait there, each for its mutex, and
      for nothing else unless it has an extra event. */
  ghost predicate HoldsLockers(ws: seq<Waiter>, w: M.World) {
    && (forall i, j :: 0 <= i < j < |ws| ==> ws[i].tid != ws[j].tid)
    && (forall i, m :: 0 <= i < |ws| && Awaits(ws[i], Mutex(m)) ==>
          && M.InQueue(w, ws[i].tid) && w.pcs[ws[i].tid].m == m
          && (!w.pcs[ws[i].tid].extra ==> |ws[i].events| == 1 && !ws[i].cancelreq))
    && (forall t :: M.InQueue(w, t) ==>
          exists i :: 0 <= i < |ws| && ws[i].tid == t && Awaits(ws[i], Mutex(w.pcs[t].m)))
  }

  /** What a round does to a thread that waits for a mutex: its wait is over, it leaves for another
      reason, or it stays. */
  lemma {:induction false} LockerLeaves(turn: Turn, conds: Conds, ws: seq<Waiter>, dopoll: bool, pipe: nat,
                                        i: nat, m: nat)
    requires i < |ws| && Awaits(ws[i], Mutex(m))
    ensures var w := RunRound(turn, conds, ws, dopoll, pipe).waiters[i];
      && (Over(ws[i], w) <==> m !in turn.env.locked)
      && (Over(ws[i], w) ==> Wakes(w))
      && (Wakes(w) && |ws[i].events| == 1 && !ws[i].cancelreq ==> Over(ws[i], w))
  {
    hide RunRound;
    LockPass(turn, conds, ws, dopoll, pipe, i, m);
    PlainRound(turn, conds, ws, dopoll, pipe, i, 0);
    WaitQueue.RoundShape(turn, conds, ws, dopoll, pipe, i);
  }

  /** A pass of the mutex protocol is a round: it marks exactly those whose wait is over, and exactly
      those have left besides whom their extra event takes out of the queue. */
  lemma {:induction false} MutexPassIsRound(w: M.World, turn: Turn, conds: Conds, ws: seq<Waiter>, dopoll: bool,
                                            pipe: nat) returns (extras: set<nat>)
    requires HoldsLockers(ws, w)
    requires forall m :: m in w.mutexes ==> (m in turn.env.locked <==> w.mutexes[m].locked)
    ensures M.Legal(w, M.PassStep(extras))
    ensures var ws', w' := RunRound(turn, conds, ws, dopoll, pipe).waiters, M.Pass(w, extras);
      forall i, m :: 0 <= i < |ws| && Awaits(ws[i], Mutex(m)) ==>
        && (ws[i].tid in w'.marked <==> Over(ws[i], ws'[i]))
        && (ws[i].tid in w'.left <==> Wakes(ws'[i]) && !Over(ws[i], ws'[i]))
        && (M.InQueue(w', ws[i].tid) <==> !Wakes(ws'[i]))
    ensures var w' := M.Pass(w, extras);
      forall t: nat :: !M.InQueue(w, t) ==> (t in w'.marked <==> t in w.marked) && (t in w'.left <==> t in w.left)
  {
    hide RunRound, Awaits, Over, Wakes;
    var ws' := RunRound(turn, conds, ws, dopoll, pipe).waiters;
    extras := set i | 0 <= i < |ws| && M.InQueue(w, ws[i].tid) && Awaits(ws[i], Mutex(w.pcs[ws[i].tid].m)) &&
                      Wakes(ws'[i]) && !Over(ws[i], ws'[i]) :: ws[i].tid;
    forall i, m | 0 <= i < |ws| && Awaits(ws[i], Mutex(m))
      ensures Over(ws[i], ws'[i]) <==> m !in turn.env.locked
      ensures Over(ws[i], ws'[i]) ==> Wakes(ws'[i])
      ensures Wakes(ws'[i]) && |ws[i].events| == 1 && !ws[i].cancelreq ==> Over(ws[i], ws'[i])
    {
      LockerLeaves(turn, conds, ws, dopoll, pipe, i, m);
    }
  }
}
