/** Event rings on the heap: events are linked in a circle, concatenation splices whole rings behind
    the first event, and isolation takes one event out again. */
module EventRings {
  import opened EventManager
  import opened Cycles

  class EventNode {
    var ev_next: EventNode?
    var ev_prev: EventNode?
    var ev_status: Status

    /** A new event is a ring of its own. */
    constructor ()
      ensures Cyclic([this]) && ev_status == Pending
    {
      ev_next, ev_prev, ev_status := this, this, Pending;
    }
  }

  /** The events of s are linked from the first to the last. */
  ghost predicate Chained(s: seq<EventNode>)
    reads s`ev_next, s`ev_prev
  {
    && (forall i {:trigger s[i].ev_next} :: 0 <= i < |s| - 1 ==> s[i].ev_next == s[i + 1])
    && (forall i {:trigger s[i].ev_prev} :: 1 <= i < |s| ==> s[i].ev_prev == s[i - 1])
  }

  /** They form a circle: the ring that starts at s[0]. */
  ghost predicate Cyclic(s: seq<EventNode>)
    reads s`ev_next, s`ev_prev
  {
    s != [] && Chained(s) && s[|s| - 1].ev_next == s[0] && s[0].ev_prev == s[|s| - 1]
  }

  ghost predicate Apart(a: seq<EventNode>, b: seq<EventNode>) {
    forall i, j :: 0 <= i < |a| && 0 <= j < |b| ==> a[i] != b[j]
  }

  ghost predicate IsRing(s: seq<EventNode>)
    reads s`ev_next, s`ev_prev
  {
    Distinct(s) && Cyclic(s)
  }

  ghost predicate Within(s: seq<EventNode>, all: set<EventNode>) {
    forall i :: 0 <= i < |s| ==> s[i] in all
  }

  /** Rings without common events, made of events from `all`. */
  ghost predicate Rings(rings: seq<seq<EventNode>>, all: set<EventNode>)
    reads all`ev_next, all`ev_prev
  {
    && (forall i :: 0 <= i < |rings| ==> Within(rings[i], all) && IsRing(rings[i]))
    && (forall i, j :: 0 <= i < j < |rings| ==> Apart(rings[i], rings[j]))
  }

  ghost function Flat(rings: seq<seq<EventNode>>): seq<EventNode> {
    if rings == [] then [] else Flat(rings[..|rings| - 1]) + rings[|rings| - 1]
  }

  lemma {:induction false} ChainedJoin(a: seq<EventNode>, b: seq<EventNode>)
    requires a != [] && b != [] && Chained(a) && Chained(b)
    requires a[|a| - 1].ev_next == b[0] && b[0].ev_prev == a[|a| - 1]
    ensures Chained(a + b)
  {
    var s := a + b;
    forall i | 0 <= i < |s| - 1 ensures s[i].ev_next == s[i + 1] {
      if i < |a| - 1 { assert a[i].ev_next == a[i + 1]; }
      if i >= |a| { assert b[i - |a|].ev_next == b[i - |a| + 1]; }
    }
    forall i | 1 <= i < |s| ensures s[i].ev_prev == s[i - 1] {
      if i < |a| { assert a[i].ev_prev == a[i - 1]; }
      if i > |a| { assert b[i - |a|].ev_prev == b[i - |a| - 1]; }
    }
  }

  /** Links the ring r behind the end of an open chain; the chain then ends with the last event of r. */
  method Attach(evc: EventNode, evn: EventNode, ghost done: seq<EventNode>, ghost r: seq<EventNode>)
    returns (evt: EventNode)
    requires done != [] && Distinct(done) && Chained(done) && evc == done[|done| - 1]
    requires IsRing(r) && evn == r[0] && Apart(done, r)
    modifies evc`ev_next, evn`ev_prev
    ensures Chained(done + r) && Distinct(done + r) && evt == r[|r| - 1]
  {
    evc.ev_next := evn;
    evt := evn.ev_prev;
    evn.ev_prev := evc;
    ChainedJoin(done, r);
  }

  /** The rest of an opened ring: everything behind the first event. */
  ghost predicate Opened(s: seq<EventNode>)
    requires s != []
    reads s`ev_next, s`ev_prev
  {
    && Distinct(s) && Chained(s[1..])
    && (|s| > 1 ==> s[|s| - 1].ev_next == s[0] && s[0].ev_prev == s[|s| - 1])
  }

  /** Links the end of the chain back to what followed the first event. */
  method Close(evc: EventNode, evl: EventNode, ghost done: seq<EventNode>, ghost s: seq<EventNode>)
    requires done != [] && Distinct(done) && Chained(done) && evc == done[|done| - 1]
    requires s != [] && Opened(s) && done[0] == s[0] && Apart(done, s[1..]) && evl == s[if |s| == 1 then 0 else 1]
    modifies evc`ev_next, evl`ev_prev
    ensures IsRing(done + s[1..])
  {
    evc.ev_next := evl;
    evl.ev_prev := evc;
    if |s| > 1 {
      assert forall i :: 0 <= i < |s| - 1 ==> s[1..][i] == s[i + 1];
      ChainedJoin(done, s[1..]);
    } else {
      assert done + s[1..] == done;
    }
  }

  /** Splices the rings of the arguments, in their order, between the first event and the rest of
      its ring.  The result is one ring of all the events. */
  method Concat(evf: EventNode?, args: seq<EventNode>,
                ghost s: seq<EventNode>, ghost rings: seq<seq<EventNode>>, ghost all: set<EventNode>)
    returns (r: EventNode?)
    requires evf != null ==> s != [] && evf == s[0] && Rings([s] + rings, all)
    requires |args| == |rings| && forall i :: 0 <= i < |args| ==> rings[i] != [] && args[i] == rings[i][0]
    modifies all`ev_next, all`ev_prev
    ensures r == evf
    ensures evf == null ==> unchanged(all)
    ensures evf != null ==> IsRing([s[0]] + Flat(rings) + s[1..])
  {
    if evf == null {
      return null;
    }
    hide Distinct;
    Parts(s, rings, all);
    var evc: EventNode, evl: EventNode := evf, evf.ev_next;
    ghost var done := [s[0]];
    var k := 0;
    while k < |args|
      invariant 0 <= k <= |args| && done == [s[0]] + Flat(rings[..k])
      invariant Within(done, all) && Distinct(done) && Chained(done) && evc == done[|done| - 1]
      invariant forall j :: k <= j < |rings| ==> IsRing(rings[j]) && Apart(done, rings[j])
      invariant Opened(s) && Apart(done, s[1..])
    {
      evc := Attach(evc, args[k], done, rings[k]);
      done := done + rings[k];
      k := k + 1;
      assert rings[..k][..k - 1] == rings[..k - 1];
    }
    assert rings[..k] == rings;
    Close(evc, evl, done, s);
    return evf;
  }

  lemma {:induction false} Parts(s: seq<EventNode>, rings: seq<seq<EventNode>>, all: set<EventNode>)
    requires Rings([s] + rings, all)
    ensures IsRing(s) && Opened(s) && Within(s, all) && Distinct([s[0]])
    ensures s[0].ev_next == s[if |s| == 1 then 0 else 1]
    ensures forall j :: 0 <= j < |rings| ==> IsRing(rings[j]) && Within(rings[j], all) && Apart(s, rings[j])
    ensures forall i, j :: 0 <= i < j < |rings| ==> Apart(rings[i], rings[j])
  {
    var parts := [s] + rings;
    assert parts[0] == s;
    forall j | 0 <= j < |rings| ensures IsRing(rings[j]) && Within(rings[j], all) && Apart(s, rings[j]) {
      assert parts[j + 1] == rings[j];
    }
    forall i, j | 0 <= i < j < |rings| ensures Apart(rings[i], rings[j]) {
      assert parts[i + 1] == rings[i] && parts[j + 1] == rings[j];
    }
    assert s[1..] == [] || s[1..][0] == s[1];
    assert forall i :: 0 <= i < |s| - 1 ==> s[1..][i] == s[i + 1];
  }

  /** Takes the event out of its ring and hands back what is left, from the next event on. */
  method Isolate(ev: EventNode?, ghost s: seq<EventNode>) returns (ring: EventNode?)
    requires ev != null ==> IsRing(s) && ev == s[0]
    modifies s`ev_next, s`ev_prev
    ensures ev == null ==> ring == null && unchanged(s)
    ensures ev != null ==> IsRing([ev])
    ensures ev != null && |s| == 1 ==> ring == null
    ensures ev != null && |s| > 1 ==> ring == s[1] && IsRing(s[1..])
  {
    if ev == null {
      return null;
    }
    ring := null;
    assert |s| > 1 ==> s[0].ev_next == s[1] && s[|s| - 1].ev_next == s[0];
    if !(ev.ev_next == ev && ev.ev_prev == ev) {
      ring := ev.ev_next;
      ev.ev_prev.ev_next := ev.ev_next;
      ev.ev_next.ev_prev := ev.ev_prev;
      ev.ev_prev := ev;
      ev.ev_next := ev;
      ghost var t := s[1..];
      assert forall i :: 0 <= i < |t| ==> t[i] == s[i + 1];
      assert Chained(t);
    }
  }

  /** Concatenating a single event with any ring and isolating it again, as the waits with an extra
      event do, leaves every link of both as it was. */
  method ConcatIsolate(ev: EventNode, extra: EventNode, ghost r: seq<EventNode>, ghost all: set<EventNode>)
    returns (ring: EventNode?)
    requires IsRing([ev]) && IsRing(r) && extra == r[0] && Apart([ev], r) && ev in all && Within(r, all)
    modifies all`ev_next, all`ev_prev
    ensures ring == extra && IsRing([ev]) && IsRing(r)
    ensures ev.ev_next == old(ev.ev_next) && ev.ev_prev == old(ev.ev_prev)
    ensures forall i :: 0 <= i < |r| ==> r[i].ev_next == old(r[i].ev_next) && r[i].ev_prev == old(r[i].ev_prev)
  {
    hide Distinct;
    ghost var whole := [ev] + r;
    assert Flat([r]) == r by { assert [r][..0] == []; }
    assert [ev] + Flat([r]) + [ev][1..] == whole;
    Determined(r);
    var c := Concat(ev, [extra], [ev], [r], all);
    assert whole[1..] == r;
    ring := Isolate(ev, whole);
    Determined(r);
  }

  /** The links of a ring are determined by the order of its events. */
  lemma {:induction false} Determined(r: seq<EventNode>)
    requires IsRing(r)
    ensures forall i :: 0 <= i < |r| ==>
      r[i].ev_next == r[Succ(i, |r|)] && r[i].ev_prev == r[Pred(i, |r|)]
  {
  }

  /** PTH_MODE_CHAIN: a new event goes in front of ch, that is behind the last event of its ring. */
  method ChainIn(ev: EventNode, ch: EventNode, ghost s: seq<EventNode>)
    requires IsRing(s) && ch == s[0] && ev !in s
    modifies ev`ev_next, ev`ev_prev, s`ev_next, s`ev_prev
    ensures IsRing(s + [ev])
  {
    ev.ev_prev := ch.ev_prev;
    ev.ev_next := ch;
    ev.ev_prev.ev_next := ev;
    ev.ev_next.ev_prev := ev;
    ChainedJoin(s, [ev]);
  }

  /** The first loop of pth_wait: every event of the ring is pending again. */
  method MarkPending(evRing: EventNode, ghost s: seq<EventNode>)
    requires IsRing(s) && evRing == s[0]
    modifies s`ev_status
    ensures forall i :: 0 <= i < |s| ==> s[i].ev_status == Pending
  {
    var ev: EventNode := evRing;
    ghost var k := 0;
    while true
      invariant 0 <= k < |s| && ev == s[k]
      invariant forall i :: 0 <= i < k ==> s[i].ev_status == Pending
      decreases |s| - k
    {
      ev.ev_status := Pending;
      assert s[k].ev_next == if k + 1 < |s| then s[k + 1] else s[0];
      ev := ev.ev_next;
      if ev == evRing {
        break;
      }
      k := k + 1;
    }
  }

  ghost function NonPending(s: seq<EventNode>): nat
    reads s`ev_status
  {
    if s == [] then 0 else NonPending(s[..|s| - 1]) + if s[|s| - 1].ev_status == Pending then 0 else 1
  }

  /** The second loop of pth_wait. */
  method CountNonPending(evRing: EventNode, ghost s: seq<EventNode>) returns (nonpending: nat)
    requires IsRing(s) && evRing == s[0]
    ensures nonpending == NonPending(s)
  {
    var ev: EventNode := evRing;
    ghost var k := 0;
    nonpending := 0;
    while true
      invariant 0 <= k < |s| && ev == s[k] && nonpending == NonPending(s[..k])
      decreases |s| - k
    {
      assert s[..k + 1][..k] == s[..k];
      if ev.ev_status != Pending {
        nonpending := nonpending + 1;
      }
      assert s[k].ev_next == if k + 1 < |s| then s[k + 1] else s[0];
      ev := ev.ev_next;
      if ev == evRing {
        assert s[..k + 1] == s;
        break;
      }
      k := k + 1;
    }
  }

  /** A wait returns a positive number exactly when some event is not pending any more. */
  lemma {:induction false} NonPendingSome(s: seq<EventNode>)
    ensures NonPending(s) > 0 <==> exists i :: 0 <= i < |s| && s[i].ev_status != Pending
  {
    if s != [] {
      var t := s[..|s| - 1];
      NonPendingSome(t);
      if exists i :: 0 <= i < |s| && s[i].ev_status != Pending {
        var i :| 0 <= i < |s| && s[i].ev_status != Pending;
        assert i < |t| ==> t[i].ev_status != Pending;
      }
    }
  }
}
