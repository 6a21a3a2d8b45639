/** Message ports: a port is a queue of messages, kept in a ring; a message carries the port to
    which the reply goes.  On the heap a message is a ring node whose data is its reply port. */
module Messages {
  import opened EventManager
  import opened Rings

  // ---------------------------------------------------------------------------------------
  // Ports on the heap

  class Port {
    const queue: Ring<Port?>

    constructor ()
      ensures fresh(queue) && queue.Valid() && queue.nodes == []
    {
      queue := new Ring<Port?>();
    }
  }

  type Message = Node<Port?>

  /** The messages of s that go back to port p, in order. */
  ghost function Replies(s: seq<Message>, p: Port): seq<Message> {
    if s == [] then []
    else Replies(s[..|s| - 1], p) + if s[|s| - 1].data == p then [s[|s| - 1]] else []
  }

  ghost predicate Apart(a: seq<Message>, b: seq<Message>) {
    forall i, j :: 0 <= i < |a| && 0 <= j < |b| ==> a[i] != b[j]
  }

  ghost predicate Within(a: seq<Message>, all: set<Message>) {
    forall i :: 0 <= i < |a| ==> a[i] in all
  }

  ghost function Queues(ports: set<Port>): set<Ring<Port?>> {
    set p | p in ports :: p.queue
  }

  /** A message is on at most one port, once. */
  ghost predicate Sorted(ports: set<Port>, all: set<Message>)
    reads Queues(ports), all
  {
    && (forall p :: p in ports ==> Within(p.queue.nodes, all) && p.queue.Valid())
    && (forall p, q :: p in ports && q in ports && p != q ==> p.queue != q.queue && Apart(p.queue.nodes, q.queue.nodes))
  }

  ghost predicate OnNoPort(m: Message, ports: set<Port>)
    reads Queues(ports)
  {
    forall p :: p in ports ==> m !in p.queue.nodes
  }

  method Put(mp: Port?, m: Node?<Port?>, ghost ports: set<Port>, ghost all: set<Message>) returns (ok: bool)
    requires Sorted(ports, all) && (mp != null ==> mp in ports) && (m != null ==> m in all && OnNoPort(m, ports))
    modifies Queues(ports), all
    ensures Sorted(ports, all) && ok == (mp != null)
    ensures forall p :: p in ports ==>
              p.queue.nodes == old(p.queue.nodes) + if p == mp && m != null then [m] else []
  {
    if mp == null {
      return false;
    }
    mp.queue.Append(m);
    return true;
  }

  method Get(mp: Port?, ghost ports: set<Port>, ghost all: set<Message>) returns (m: Node?<Port?>)
    requires Sorted(ports, all) && (mp != null ==> mp in ports)
    modifies Queues(ports), all
    ensures Sorted(ports, all)
    ensures m == if mp == null || old(mp.queue.nodes) == [] then null else old(mp.queue.nodes)[0]
    ensures m != null ==> m in all && OnNoPort(m, ports) && mp.queue.nodes == old(mp.queue.nodes)[1..]
    ensures forall p :: p in ports && (m == null || p != mp) ==> p.queue.nodes == old(p.queue.nodes)
  {
    if mp == null {
      return null;
    }
    m := mp.queue.Pop();
  }

  method Reply(m: Node?<Port?>, ghost ports: set<Port>, ghost all: set<Message>) returns (ok: bool)
    requires Sorted(ports, all)
    requires m != null ==> m in all && OnNoPort(m, ports) && (m.data == null || m.data in ports)
    modifies Queues(ports), all
    ensures Sorted(ports, all) && ok == (m != null && m.data != null)
    ensures forall p :: p in ports ==>
              p.queue.nodes == old(p.queue.nodes) + if m != null && m.data == p then [m] else []
  {
    if m == null {
      return false;
    }
    ok := Put(m.data, m, ports, all);
  }

  lemma {:induction false} RepliesNext(s: seq<Message>, p: Port, k: nat)
    requires k < |s|
    ensures Replies(s[..k + 1], p) == Replies(s[..k], p) + if s[k].data == p then [s[k]] else []
  {
    assert s[..k + 1][..k] == s[..k];
  }

  lemma {:induction false} NoReplies(ports: set<Port>)
    ensures forall p :: p in ports ==> Replies([], p) == []
  {
  }

  /** The loop of pth_msgport_destroy: every pending message is appended to its reply port, in
      order, and those without a reply port are gone.  It ends because none of them replies to the
      port itself. */
  method Drain(mp: Port, ghost ports: set<Port>, ghost all: set<Message>)
    requires Sorted(ports, all) && mp in ports
    requires forall i :: 0 <= i < |mp.queue.nodes| ==>
               var r := mp.queue.nodes[i].data; r != mp && (r == null || r in ports)
    modifies Queues(ports), all
    ensures Sorted(ports, all)
    ensures forall p :: p in ports ==>
              p.queue.nodes == if p == mp then [] else old(p.queue.nodes) + Replies(old(mp.queue.nodes), p)
  {
    hide Sorted, OnNoPort, Replies;
    ghost var s, k := mp.queue.nodes, 0;
    NoReplies(ports);
    var m := Get(mp, ports, all);
    while m != null
      invariant Sorted(ports, all)
      invariant m == null ==> mp.queue.nodes == [] && k == |s|
      invariant m != null ==> k < |s| && m == s[k] && mp.queue.nodes == s[k + 1..] && m in all && OnNoPort(m, ports)
      invariant forall p :: p in ports && p != mp ==> p.queue.nodes == old(p.queue.nodes) + Replies(s[..k], p)
      decreases |s| - k
    {
      var ok := Reply(m, ports, all);
      forall p | p in ports
        ensures Replies(s[..k + 1], p) == Replies(s[..k], p) + if s[k].data == p then [s[k]] else []
      {
        RepliesNext(s, p, k);
      }
      m := Get(mp, ports, all);
      k := k + 1;
    }
    assert s[..k] == s;
  }

  // ---------------------------------------------------------------------------------------
  // A queue as a value

  datatype Op<T> = PutOp(m: T) | GetOp

  function After<T>(q: seq<T>, ops: seq<Op<T>>): seq<T> {
    if ops == [] then q
    else
      var r, op := After(q, ops[..|ops| - 1]), ops[|ops| - 1];
      if op.PutOp? then r + [op.m] else if r == [] then r else r[1..]
  }

  /** What the gets return. */
  function Gets<T>(q: seq<T>, ops: seq<Op<T>>): seq<T> {
    if ops == [] then []
    else
      var r := After(q, ops[..|ops| - 1]);
      Gets(q, ops[..|ops| - 1]) + if ops[|ops| - 1].GetOp? && r != [] then [r[0]] else []
  }

  function Puts<T>(ops: seq<Op<T>>): seq<T> {
    if ops == [] then []
    else Puts(ops[..|ops| - 1]) + if ops[|ops| - 1].PutOp? then [ops[|ops| - 1].m] else []
  }

  /** First in, first out, over every history: what came out and what is left is what was there and
      what was put. */
  lemma {:induction false} Fifo<T>(q: seq<T>, ops: seq<Op<T>>)
    ensures Gets(q, ops) + After(q, ops) == q + Puts(ops)
  {
    if ops != [] {
      var p, op := ops[..|ops| - 1], ops[|ops| - 1];
      Fifo(q, p);
      var r := After(q, p);
      if op.PutOp? {
        assert Gets(q, p) + (r + [op.m]) == (Gets(q, p) + r) + [op.m];
        assert (q + Puts(p)) + [op.m] == q + (Puts(p) + [op.m]);
      } else if r != [] {
        assert r == [r[0]] + r[1..];
        assert (Gets(q, p) + [r[0]]) + r[1..] == Gets(q, p) + r;
      }
    }
  }

  // ---------------------------------------------------------------------------------------
  // Any history of several ports

  datatype PortOp = PutTo(p: Port, m: Message) | GetFrom(p: Port)

  /** The part of a history that concerns port p. */
  ghost function OpsAt(ops: seq<PortOp>, p: Port): seq<Op<Message>> {
    if ops == [] then []
    else
      var op := ops[|ops| - 1];
      OpsAt(ops[..|ops| - 1], p) +
        if op.p != p then [] else if op.PutTo? then [PutOp(op.m)] else [GetOp]
  }

  /** What was got from port p. */
  ghost function GotAt(got: seq<(Port, Message)>, p: Port): seq<Message> {
    if got == [] then []
    else GotAt(got[..|got| - 1], p) + if got[|got| - 1].0 == p then [got[|got| - 1].1] else []
  }

  lemma {:induction false} OpsNext(ops: seq<PortOp>, k: nat, p: Port, q: seq<Message>)
    requires k < |ops|
    ensures var before, op := OpsAt(ops[..k], p), ops[k];
      && After(q, OpsAt(ops[..k + 1], p)) ==
           (var r := After(q, before);
            if op.p != p then r else if op.PutTo? then r + [op.m] else if r == [] then r else r[1..])
      && Gets(q, OpsAt(ops[..k + 1], p)) ==
           Gets(q, before) +
             if op.p == p && op.GetFrom? && After(q, before) != [] then [After(q, before)[0]] else []
  {
    assert ops[..k + 1][..k] == ops[..k];
    var before, all := OpsAt(ops[..k], p), OpsAt(ops[..k + 1], p);
    if ops[k].p == p {
      assert all[..|all| - 1] == before;
    } else {
      assert all == before;
    }
  }

  /** A message is put only while it is on no port. */
  ghost predicate Possible(ops: seq<PortOp>, start: map<Port, seq<Message>>, all: set<Message>) {
    forall k :: 0 <= k < |ops| ==>
      && ops[k].p in start
      && (ops[k].PutTo? ==> ops[k].m in all)
      && (ops[k].PutTo? ==> forall p :: p in start ==> ops[k].m !in After(start[p], OpsAt(ops[..k], p)))
  }

  ghost function Contents(ports: set<Port>): map<Port, seq<Message>>
    reads Queues(ports)
  {
    map p | p in ports :: p.queue.nodes
  }

  ghost predicate Replayed(ports: set<Port>, start: map<Port, seq<Message>>, ops: seq<PortOp>, k: nat,
                           got: seq<(Port, Message)>)
    requires k <= |ops| && start.Keys == ports
    reads Queues(ports)
  {
    forall p :: p in ports ==>
      && p.queue.nodes == After(start[p], OpsAt(ops[..k], p))
      && GotAt(got, p) == Gets(start[p], OpsAt(ops[..k], p))
  }

  lemma {:induction false} GotNext(got: seq<(Port, Message)>, x: (Port, Message), p: Port)
    ensures GotAt(got + [x], p) == GotAt(got, p) + if x.0 == p then [x.1] else []
  {
    assert (got + [x])[..|got|] == got;
  }

  /** Does any possible sequence of puts and gets on any ports: each port holds and hands out what a
      queue of its own would. */
  method Replay(ops: seq<PortOp>, ghost ports: set<Port>, ghost all: set<Message>) returns (got: seq<(Port, Message)>)
    requires Sorted(ports, all) && Possible(ops, Contents(ports), all)
    modifies Queues(ports), all
    ensures Sorted(ports, all)
    ensures forall p :: p in ports ==>
      && p.queue.nodes == After(old(p.queue.nodes), OpsAt(ops, p))
      && GotAt(got, p) == Gets(old(p.queue.nodes), OpsAt(ops, p))
      && GotAt(got, p) + p.queue.nodes == old(p.queue.nodes) + Puts(OpsAt(ops, p))
  {
    hide Sorted, OpsAt, After, Gets, GotAt, Puts;
    ghost var start := Contents(ports);
    got := [];
    ReplayStart(ports, ops);
    var k := 0;
    while k < |ops|
      invariant 0 <= k <= |ops| && Sorted(ports, all) && Replayed(ports, start, ops, k, got)
    {
      got := ReplayStep(ops, k, got, start, ports, all);
      k := k + 1;
    }
    assert ops[..k] == ops;
    forall p | p in ports ensures GotAt(got, p) + p.queue.nodes == start[p] + Puts(OpsAt(ops, p)) {
      Fifo(start[p], OpsAt(ops, p));
    }
  }

  lemma {:induction false} ReplayStart(ports: set<Port>, ops: seq<PortOp>)
    ensures Replayed(ports, Contents(ports), ops, 0, [])
  {
    assert ops[..0] == [];
  }

  method ReplayStep(ops: seq<PortOp>, k: nat, got: seq<(Port, Message)>, ghost start: map<Port, seq<Message>>,
                    ghost ports: set<Port>, ghost all: set<Message>) returns (got': seq<(Port, Message)>)
    requires k < |ops| && start.Keys == ports && Sorted(ports, all) && Possible(ops, start, all)
    requires Replayed(ports, start, ops, k, got)
    modifies Queues(ports), all
    ensures Sorted(ports, all) && Replayed(ports, start, ops, k + 1, got')
  {
    hide Sorted, OpsAt, After, Gets, GotAt;
    got' := got;
    forall p | p in ports
      ensures After(start[p], OpsAt(ops[..k + 1], p)) ==
        (var r := p.queue.nodes;
         if ops[k].p != p then r else if ops[k].PutTo? then r + [ops[k].m] else if r == [] then r else r[1..])
      ensures Gets(start[p], OpsAt(ops[..k + 1], p)) ==
        GotAt(got, p) + if ops[k].p == p && ops[k].GetFrom? && p.queue.nodes != [] then [p.queue.nodes[0]] else []
    {
      OpsNext(ops, k, p, start[p]);
    }
    match ops[k] {
      case PutTo(p, m) => var ok := Put(p, m, ports, all);
      case GetFrom(p) =>
        var m := Get(p, ports, all);
        if m != null {
          forall q | q in ports ensures GotAt(got + [(p, m)], q) == GotAt(got, q) + if p == q then [m] else [] {
            GotNext(got, (p, m), q);
          }
          got' := got + [(p, m)];
        }
    }
  }

  // ---------------------------------------------------------------------------------------
  // When draining a port ends

  /** A message as a value: its reply port, if any. */
  datatype Mail = Mail(id: nat, reply: Option<nat>)

  type Ports = map<nat, seq<Mail>>

  function Box(ps: Ports, p: nat): seq<Mail> {
    if p in ps then ps[p] else []
  }

  /** One turn of the drain loop. */
  function Turn(ps: Ports, mp: nat): Ports {
    var q := Box(ps, mp);
    if q == [] then ps
    else
      var ps1 := ps[mp := q[1..]];
      if q[0].reply.None? then ps1 else ps1[q[0].reply.value := Box(ps1, q[0].reply.value) + [q[0]]]
  }

  function Turns(ps: Ports, mp: nat, k: nat): Ports {
    if k == 0 then ps else Turn(Turns(ps, mp, k - 1), mp)
  }

  ghost predicate RepliesHere(q: seq<Mail>, mp: nat) {
    exists i :: 0 <= i < |q| && q[i].reply == Some(mp)
  }

  function Returned(q: seq<Mail>, p: nat): seq<Mail> {
    if q == [] then [] else Returned(q[..|q| - 1], p) + if q[|q| - 1].reply == Some(p) then [q[|q| - 1]] else []
  }

  lemma {:induction false} TurnBox(ps: Ports, mp: nat, p: nat)
    requires Box(ps, mp) != []
    ensures var q := Box(ps, mp);
      Box(Turn(ps, mp), p) == (if p == mp then q[1..] else Box(ps, p)) + if q[0].reply == Some(p) then [q[0]] else []
  {
  }

  lemma {:induction false} DrainedSoFar(ps: Ports, mp: nat, k: nat, p: nat)
    requires !RepliesHere(Box(ps, mp), mp) && k <= |Box(ps, mp)|
    ensures Box(Turns(ps, mp, k), p) ==
      if p == mp then Box(ps, mp)[k..] else Box(ps, p) + Returned(Box(ps, mp)[..k], p)
  {
    hide Turn, Box;
    var q := Box(ps, mp);
    if k == 0 {
      assert q[..0] == [] && q[0..] == q;
    } else {
      DrainedSoFar(ps, mp, k - 1, p);
      DrainedSoFar(ps, mp, k - 1, mp);
      TurnBox(Turns(ps, mp, k - 1), mp, p);
      ReturnedNext(q, p, k - 1);
      assert q[k - 1..][1..] == q[k..] && q[k - 1..][0] == q[k - 1];
    }
  }

  lemma {:induction false} ReturnedNext(q: seq<Mail>, p: nat, k: nat)
    requires k < |q|
    ensures Returned(q[..k + 1], p) == Returned(q[..k], p) + if q[k].reply == Some(p) then [q[k]] else []
  {
    assert q[..k + 1][..k] == q[..k];
  }

  lemma {:induction false} NeverEmpties(ps: Ports, mp: nat, k: nat)
    requires RepliesHere(Box(ps, mp), mp)
    ensures RepliesHere(Box(Turns(ps, mp, k), mp), mp)
  {
    if k > 0 {
      NeverEmpties(ps, mp, k - 1);
      var q := Box(Turns(ps, mp, k - 1), mp);
      var q' := Box(Turns(ps, mp, k), mp);
      var i :| 0 <= i < |q| && q[i].reply == Some(mp);
      if i == 0 {
        assert q'[|q'| - 1] == q[0];
      } else {
        assert q'[i - 1] == q[i];
      }
    }
  }

  /** Destroying a port terminates exactly when no pending message replies to the port itself; then
      each message is at the end of its reply port, in order. */
  lemma {:induction false} DrainTerminates(ps: Ports, mp: nat)
    ensures (exists k: nat :: Box(Turns(ps, mp, k), mp) == []) <==> !RepliesHere(Box(ps, mp), mp)
    ensures !RepliesHere(Box(ps, mp), mp) ==>
      forall p: nat :: Box(Turns(ps, mp, |Box(ps, mp)|), p) ==
                       if p == mp then [] else Box(ps, p) + Returned(Box(ps, mp), p)
  {
    var q := Box(ps, mp);
    if RepliesHere(q, mp) {
      forall k: nat ensures Box(Turns(ps, mp, k), mp) != [] {
        NeverEmpties(ps, mp, k);
      }
    } else {
      assert q[..|q|] == q && q[|q|..] == [];
      forall p: nat ensures Box(Turns(ps, mp, |q|), p) == if p == mp then [] else Box(ps, p) + Returned(q, p) {
        DrainedSoFar(ps, mp, |q|, p);
      }
      DrainedSoFar(ps, mp, |q|, mp);
    }
  }

  /** A port whose only message replies to the port itself is never drained. */
  lemma {:induction false} SelfReply(k: nat)
    ensures Box(Turns(map[0 := [Mail(7, Some(0))]], 0, k), 0) == [Mail(7, Some(0))]
  {
    hide Turn, Box;
    var ps: Ports, m := map[0 := [Mail(7, Some(0))]], Mail(7, Some(0));
    if k == 0 {
      OneBox(m);
    } else {
      SelfReply(k - 1);
      TurnBox(Turns(ps, 0, k - 1), 0, 0);
      assert [m][1..] + [m] == [m];
    }
  }

  lemma {:induction false} OneBox(m: Mail)
    ensures Box(map[0 := [m]], 0) == [m]
  {
  }
}
