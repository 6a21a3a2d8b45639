/** The plain meaning of a thread priority queue: a sequence of (thread, absolute priority)
    entries in descending priority, first come first served among equals.  The linked,
    delta-coded ring of module PriorityQueue refines these functions; the scheduler uses them directly. */
module PriorityOrder {

  datatype Entry<T> = Entry(thread: T, prio: int)

  const PRIO_MAX: int := 5
  const PRIO_STD: int := 0
  const PRIO_MIN: int := -5

  ghost predicate Descending<T>(q: seq<Entry<T>>) {
    forall i, j :: 0 <= i < j < |q| ==> q[i].prio >= q[j].prio
  }

  /** The threads of a queue, in order. */
  function Threads<T>(q: seq<Entry<T>>): (r: seq<T>)
    ensures |r| == |q|
    ensures forall i :: 0 <= i < |q| ==> r[i] == q[i].thread
  {
    seq(|q|, i requires 0 <= i < |q| => q[i].thread)
  }

  /** The number of leading entries that a newcomer of priority p has to stay behind. */
  function Rank<T>(q: seq<Entry<T>>, p: int): (k: nat)
    ensures k <= |q|
    ensures forall i :: 0 <= i < k ==> q[i].prio >= p
    ensures k < |q| ==> q[k].prio < p
  {
    if q == [] || q[0].prio < p then 0 else 1 + Rank(q[1..], p)
  }

  function Insert<T>(q: seq<Entry<T>>, p: int, t: T): (r: seq<Entry<T>>) {
    var k := Rank(q, p);
    q[..k] + [Entry(t, p)] + q[k..]
  }

  /** The index of thread t, or |q| when it is not queued. */
  function IndexOf<T(==)>(q: seq<Entry<T>>, t: T): (k: nat)
    ensures k <= |q|
    ensures k < |q| ==> q[k].thread == t
    ensures forall i :: 0 <= i < k ==> q[i].thread != t
  {
    if q == [] || q[0].thread == t then 0 else 1 + IndexOf(q[1..], t)
  }

  predicate Queued<T(==)>(q: seq<Entry<T>>, t: T) {
    IndexOf(q, t) < |q|
  }

  function PrioOf<T(==)>(q: seq<Entry<T>>, t: T): int
    requires Queued(q, t)
  {
    q[IndexOf(q, t)].prio
  }

  function Delete<T(==)>(q: seq<Entry<T>>, t: T): (r: seq<Entry<T>>) {
    var k := IndexOf(q, t);
    if k == |q| then q else q[..k] + q[k + 1..]
  }

  function FavoritePrio<T>(q: seq<Entry<T>>): int {
    if q == [] then PRIO_MAX else q[0].prio + 1
  }

  function Favorite<T(==)>(q: seq<Entry<T>>, t: T): (r: seq<Entry<T>>) {
    if |q| <= 1 then q
    else
      var rest := Delete(q, t);
      Insert(rest, FavoritePrio(rest), t)
  }

  function Increase<T>(q: seq<Entry<T>>): (r: seq<Entry<T>>)
    ensures |r| == |q|
    ensures forall i :: 0 <= i < |q| ==> r[i] == Entry(q[i].thread, q[i].prio + 1)
  {
    seq(|q|, i requires 0 <= i < |q| => Entry(q[i].thread, q[i].prio + 1))
  }

  /** What is left of a waiting queue when the threads in `woken` leave it. */
  function Keep<T(==)>(q: seq<Entry<T>>, woken: set<T>): (r: seq<Entry<T>>)
  {
    if q == [] then []
    else
      var r, last := Keep(q[..|q| - 1], woken), q[|q| - 1];
      if last.thread in woken then r else r + [last]
  }

  function BaseOf<T(==)>(base: map<T, int>, t: T): int {
    if t in base then base[t] else PRIO_STD
  }

  /** A ready queue after the woken threads of a waiting queue were inserted in walking order,
      each one step above its base priority. */
  function Wake<T(==)>(ready: seq<Entry<T>>, q: seq<Entry<T>>, woken: set<T>, base: map<T, int>): (r: seq<Entry<T>>) {
    if q == [] then ready
    else
      var last := q[|q| - 1].thread;
      var r := Wake(ready, q[..|q| - 1], woken, base);
      if last in woken then Insert(r, BaseOf(base, last) + 1, last) else r
  }
}
