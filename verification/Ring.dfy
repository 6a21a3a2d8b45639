/** The ring of src/pth_ring.c: doubly linked nodes in a circle and a hook on the first of them.
    A ring stands for the sequence of its nodes from the hook on. */
module Rings {
  import opened Cycles

  /** A ring node; `data` stands for the structure that the node is embedded in. */
  class Node<T> {
    var rn_next: Node?<T>
    var rn_prev: Node?<T>
    const data: T

    constructor (data: T)
      ensures this.data == data
    {
      rn_next, rn_prev := null, null;
      this.data := data;
    }
  }

  /** Each node points at its neighbours in both directions. */
  ghost predicate Linked<T>(s: seq<Node<T>>)
    reads s`rn_next, s`rn_prev
  {
    && (forall i {:trigger s[i].rn_next} :: 0 <= i < |s| ==> s[i].rn_next == s[Succ(i, |s|)])
    && (forall i {:trigger s[i].rn_prev} :: 0 <= i < |s| ==> s[i].rn_prev == s[Pred(i, |s|)])
  }

  lemma {:induction false} NextInsert<T>(s: seq<Node<T>>, k: nat, n: Node<T>, i: nat)
    requires k <= |s| && s != [] && n.rn_next == s[if k == |s| then 0 else k] && i <= |s|
    requires forall i {:trigger s[i].rn_next} :: 0 <= i < |s| ==>
               s[i].rn_next == if i == Pred(k, |s|) then n else s[Succ(i, |s|)]
    ensures InsertAt(s, k, n)[i].rn_next == InsertAt(s, k, n)[Succ(i, |s| + 1)]
  {
    if i != k { assert s[if i < k then i else i - 1].rn_next == InsertAt(s, k, n)[Succ(i, |s| + 1)]; }
  }

  lemma {:induction false} PrevInsert<T>(s: seq<Node<T>>, k: nat, n: Node<T>, i: nat)
    requires k <= |s| && s != [] && n.rn_prev == s[Pred(k, |s|)] && i <= |s|
    requires forall i {:trigger s[i].rn_prev} :: 0 <= i < |s| ==>
               s[i].rn_prev == if i == k || i == k - |s| then n else s[Pred(i, |s|)]
    ensures InsertAt(s, k, n)[i].rn_prev == InsertAt(s, k, n)[Pred(i, |s| + 1)]
  {
    if i != k { assert s[if i < k then i else i - 1].rn_prev == InsertAt(s, k, n)[Pred(i, |s| + 1)]; }
  }

  lemma {:induction false} LinkedInsert<T>(s: seq<Node<T>>, k: nat, n: Node<T>)
    requires k <= |s| && s != []
    requires n.rn_prev == s[Pred(k, |s|)] && n.rn_next == s[if k == |s| then 0 else k]
    requires forall i {:trigger s[i].rn_next} :: 0 <= i < |s| ==>
               s[i].rn_next == if i == Pred(k, |s|) then n else s[Succ(i, |s|)]
    requires forall i {:trigger s[i].rn_prev} :: 0 <= i < |s| ==>
               s[i].rn_prev == if i == k || i == k - |s| then n else s[Pred(i, |s|)]
    ensures Linked(InsertAt(s, k, n))
  {
    var r := InsertAt(s, k, n);
    forall i | 0 <= i < |r| ensures r[i].rn_next == r[Succ(i, |r|)] { NextInsert(s, k, n, i); }
    forall i | 0 <= i < |r| ensures r[i].rn_prev == r[Pred(i, |r|)] { PrevInsert(s, k, n, i); }
  }

  /** Only the node of a ring of one points at itself. */
  lemma {:induction false} Alone<T>(s: seq<Node<T>>, k: nat)
    requires k < |s| && Distinct(s) && Linked(s)
    ensures s[k].rn_next == s[Succ(k, |s|)] && s[k].rn_prev == s[Pred(k, |s|)]
    ensures s[k].rn_next == s[k] <==> |s| == 1
    ensures Linked<T>([]) && (k > 0 ==> s[0] != s[k])
  {
  }

  lemma {:induction false} LinkedRemove<T>(s: seq<Node<T>>, k: nat)
    requires k < |s| && |s| > 1
    requires forall i {:trigger s[i].rn_next} :: 0 <= i < |s| && i != k ==>
               s[i].rn_next == if i == Pred(k, |s|) then s[Succ(k, |s|)] else s[Succ(i, |s|)]
    requires forall i {:trigger s[i].rn_prev} :: 0 <= i < |s| && i != k ==>
               s[i].rn_prev == if i == Succ(k, |s|) then s[Pred(k, |s|)] else s[Pred(i, |s|)]
    ensures Linked(RemoveAt(s, k))
  {
    var r := RemoveAt(s, k);
    forall i | 0 <= i < |r| ensures r[i].rn_next == r[Succ(i, |r|)] {
      assert s[if i < k then i else i + 1].rn_next == r[Succ(i, |r|)];
    }
    forall i | 0 <= i < |r| ensures r[i].rn_prev == r[Pred(i, |r|)] {
      assert s[if i < k then i else i + 1].rn_prev == r[Pred(i, |r|)];
    }
  }

  /** The link assignments that put n between two neighbours. */
  method LinkIn<T>(n: Node<T>, before: Node<T>, behind: Node<T>, ghost s: seq<Node<T>>, ghost k: nat)
    requires k <= |s| && s != [] && Distinct(s) && n !in s && Linked(s)
    requires before == s[Pred(k, |s|)] && behind == s[if k == |s| then 0 else k]
    modifies before`rn_next, behind`rn_prev, n`rn_next, n`rn_prev
    ensures Linked(InsertAt(s, k, n))
  {
    n.rn_prev := before;
    n.rn_next := behind;
    n.rn_prev.rn_next := n;
    n.rn_next.rn_prev := n;
    LinkedInsert(s, k, n);
  }

  /** The link assignments that close the gap around n. */
  method LinkOut<T>(n: Node<T>, ghost s: seq<Node<T>>, ghost k: nat)
    requires k < |s| && |s| > 1 && s[k] == n && Distinct(s) && Linked(s)
    modifies s`rn_next, s`rn_prev
    ensures Linked(RemoveAt(s, k))
    ensures n.rn_next == old(n.rn_next) && n.rn_prev == old(n.rn_prev)
  {
    n.rn_prev.rn_next := n.rn_next;
    n.rn_next.rn_prev := n.rn_prev;
    LinkedRemove(s, k);
  }

  /** A node alone is its own neighbour. */
  method LinkAlone<T>(n: Node<T>)
    modifies n`rn_next, n`rn_prev
    ensures Linked([n])
  {
    n.rn_next := n;
    n.rn_prev := n;
  }

  class Ring<T> {
    var r_hook: Node?<T>
    var r_nodes: int
    ghost var nodes: seq<Node<T>>

    ghost predicate Valid()
      reads this, nodes
    {
      && r_nodes == |nodes|
      && r_hook == (if nodes == [] then null else nodes[0])
      && Distinct(nodes)
      && Linked(nodes)
    }

    constructor ()
      ensures Valid() && nodes == []
    {
      r_hook, r_nodes := null, 0;
      nodes := [];
    }

    function First(): (n: Node?<T>)
      reads this, nodes
      requires Valid()
      ensures n == if nodes == [] then null else nodes[0]
    {
      r_hook
    }

    function Last(): (n: Node?<T>)
      reads this, nodes
      requires Valid()
      ensures n == if nodes == [] then null else nodes[|nodes| - 1]
    {
      if r_hook == null then null else assert nodes[0].rn_prev == nodes[Pred(0, |nodes|)]; r_hook.rn_prev
    }

    /** The node behind rn, or null behind the last one. */
    function Next(rn: Node?<T>, ghost k: nat): (n: Node?<T>)
      reads this, nodes, rn
      requires Valid() && (rn != null ==> k < |nodes| && nodes[k] == rn)
      ensures n == if rn == null || k + 1 == |nodes| then null else nodes[k + 1]
    {
      if rn == null then null
      else assert nodes[k].rn_next == nodes[Succ(k, |nodes|)]; if rn.rn_next == r_hook then null else rn.rn_next
    }

    /** The node in front of rn, or null in front of the first one. */
    function Prev(rn: Node?<T>, ghost k: nat): (n: Node?<T>)
      reads this, nodes, rn
      requires Valid() && (rn != null ==> k < |nodes| && nodes[k] == rn)
      ensures n == if rn == null || k == 0 then null else nodes[k - 1]
    {
      if rn == null then null
      else
        assert nodes[k].rn_prev == nodes[Pred(k, |nodes|)] && nodes[0].rn_prev == nodes[Pred(0, |nodes|)];
        if rn.rn_prev == r_hook.rn_prev then null else rn.rn_prev
    }

    method InsertAfter(rn1: Node?<T>, rn2: Node?<T>, ghost k: nat)
      requires Valid() && (rn1 != null ==> k < |nodes| && nodes[k] == rn1) && (rn2 != null ==> rn2 !in nodes)
      modifies this, nodes, rn2
      ensures Valid()
      ensures nodes == if rn1 == null || rn2 == null then old(nodes) else InsertAt(old(nodes), k + 1, rn2)
    {
      if rn1 == null || rn2 == null {
        return;
      }
      assert nodes[k].rn_next == nodes[Succ(k, |nodes|)];
      LinkIn(rn2, rn1, rn1.rn_next, nodes, k + 1);
      Count(k + 1, rn2);
    }

    /** Before the first node of a circle is behind its last one: the hook does not move. */
    method InsertBefore(rn1: Node?<T>, rn2: Node?<T>, ghost k: nat)
      requires Valid() && (rn1 != null ==> k < |nodes| && nodes[k] == rn1) && (rn2 != null ==> rn2 !in nodes)
      modifies this, nodes, rn2
      ensures Valid()
      ensures nodes == if rn1 == null || rn2 == null then old(nodes)
                       else InsertAt(old(nodes), if k == 0 then |old(nodes)| else k, rn2)
    {
      if rn1 == null || rn2 == null {
        return;
      }
      assert nodes[k].rn_prev == nodes[Pred(k, |nodes|)];
      ghost var j := if k == 0 then |nodes| else k;
      LinkIn(rn2, rn1.rn_prev, rn1, nodes, j);
      Count(j, rn2);
    }

    method Delete(rn: Node?<T>, ghost k: nat)
      requires Valid() && (rn != null ==> k < |nodes| && nodes[k] == rn)
      modifies this, nodes
      ensures Valid()
      ensures nodes == if rn == null then old(nodes) else RemoveAt(old(nodes), k)
      ensures rn != null ==> rn !in nodes && rn.rn_next == old(rn.rn_next)
    {
      hide Linked, Distinct;
      if rn == null {
        return;
      }
      Alone(nodes, k);
      if r_hook == rn && rn.rn_prev == rn && rn.rn_next == rn {
        r_hook := null;
      } else {
        if r_hook == rn {
          r_hook := rn.rn_next;
        }
        LinkOut(rn, nodes, k);
      }
      r_nodes := r_nodes - 1;
      DistinctRemove(nodes, k);
      nodes := RemoveAt(nodes, k);
    }

    method Prepend(rn: Node?<T>)
      requires Valid() && (rn != null ==> rn !in nodes)
      modifies this, nodes, rn
      ensures Valid()
      ensures nodes == if rn == null then old(nodes) else [rn] + old(nodes)
    {
      if rn == null {
        return;
      }
      if r_hook == null {
        LinkAlone(rn);
      } else {
        assert nodes[0].rn_prev == nodes[Pred(0, |nodes|)];
        LinkIn(rn, r_hook.rn_prev, r_hook, nodes, 0);
      }
      r_hook := rn;
      Count(0, rn);
    }

    method Append(rn: Node?<T>)
      requires Valid() && (rn != null ==> rn !in nodes)
      modifies this, nodes, rn
      ensures Valid()
      ensures nodes == if rn == null then old(nodes) else old(nodes) + [rn]
    {
      if rn == null {
        return;
      }
      if r_hook == null {
        r_hook := rn;
        LinkAlone(rn);
      } else {
        assert nodes[0].rn_prev == nodes[Pred(0, |nodes|)];
        LinkIn(rn, r_hook.rn_prev, r_hook, nodes, |nodes|);
      }
      Count(|nodes|, rn);
    }

    /** Counts a node that was just linked in at position k. */
    method Count(ghost k: nat, ghost rn: Node<T>)
      requires k <= |nodes| && rn !in nodes && Distinct(nodes) && r_nodes == |nodes|
      requires Linked(InsertAt(nodes, k, rn)) && r_hook == InsertAt(nodes, k, rn)[0]
      modifies this`r_nodes, this`nodes
      ensures Valid() && nodes == InsertAt(old(nodes), k, rn)
    {
      hide Linked;
      r_nodes := r_nodes + 1;
      DistinctInsert(nodes, k, rn);
      nodes := InsertAt(nodes, k, rn);
    }

    method Pop() returns (rn: Node?<T>)
      requires Valid()
      modifies this, nodes
      ensures Valid()
      ensures rn == if old(nodes) == [] then null else old(nodes)[0]
      ensures nodes == if old(nodes) == [] then [] else old(nodes)[1..]
      ensures rn != null ==> rn !in nodes
    {
      rn := First();
      if rn != null {
        Delete(rn, 0);
      }
    }

    method Dequeue() returns (rn: Node?<T>)
      requires Valid()
      modifies this, nodes
      ensures Valid()
      ensures rn == if old(nodes) == [] then null else old(nodes)[|old(nodes)| - 1]
      ensures nodes == if old(nodes) == [] then [] else old(nodes)[..|old(nodes)| - 1]
      ensures rn != null ==> rn !in nodes
    {
      rn := Last();
      if rn != null {
        Delete(rn, |nodes| - 1);
      }
    }

    /** Moves a node to the front and keeps the order of the others. */
    method Favorite(rn: Node<T>, ghost k: nat) returns (ok: bool)
      requires Valid() && (nodes != [] ==> k < |nodes| && nodes[k] == rn)
      modifies this, nodes
      ensures Valid() && ok == (old(nodes) != [])
      ensures nodes == if ok then [rn] + RemoveAt(old(nodes), k) else []
    {
      if r_hook == null {
        return false;
      }
      if r_hook == rn {
        assert k == 0;
        return true;
      }
      Delete(rn, k);
      Prepend(rn);
      return true;
    }

    method Contains(rns: Node?<T>) returns (found: bool)
      requires Valid()
      ensures found <==> rns in nodes
    {
      found := false;
      if rns == null {
        return;
      }
      var rn := r_hook;
      if rn == null {
        return;
      }
      ghost var k := 0;
      while true
        invariant 0 <= k < |nodes| && rn == nodes[k] && !found
        invariant forall i :: 0 <= i < k ==> nodes[i] != rns
        decreases |nodes| - k
      {
        if rn == rns {
          found := true;
          break;
        }
        assert nodes[k].rn_next == nodes[Succ(k, |nodes|)];
        rn := rn.rn_next;
        if rn == r_hook {
          break;
        }
        k := k + 1;
      }
    }
  }
}
