/** Counting the threads that stand at a certain place of their program. */
module Counting {

  function Those<T>(pcs: map<nat, T>, p: T -> bool): set<nat> {
    set t | t in pcs && p(pcs[t])
  }

  function Many<T>(pcs: map<nat, T>, p: T -> bool): nat {
    |Those(pcs, p)|
  }

  lemma {:induction false} ThoseUpdate<T>(pcs: map<nat, T>, t: nat, pc: T, p: T -> bool)
    ensures Those(pcs, p) - {t} == Those(pcs[t := pc], p) - {t}
    ensures t in Those(pcs, p) <==> t in pcs && p(pcs[t])
    ensures t in Those(pcs[t := pc], p) <==> p(pc)
  {
  }

  lemma {:induction false} CardWithout(a: set<nat>, t: nat)
    ensures |a| == |a - {t}| + if t in a then 1 else 0
  {
  }

  /** One thread moves. */
  lemma {:induction false} ManyUpdate<T>(pcs: map<nat, T>, t: nat, pc: T, p: T -> bool)
    ensures Many(pcs[t := pc], p) ==
      Many(pcs, p) - (if t in pcs && p(pcs[t]) then 1 else 0) + (if p(pc) then 1 else 0)
  {
    hide Those;
    ThoseUpdate(pcs, t, pc, p);
    CardWithout(Those(pcs, p), t);
    CardWithout(Those(pcs[t := pc], p), t);
  }

  lemma {:induction false} Somebody<T>(pcs: map<nat, T>, p: T -> bool)
    ensures Many(pcs, p) > 0 <==> exists t :: t in pcs && p(pcs[t])
  {
    if Many(pcs, p) > 0 {
      var t :| t in Those(pcs, p);
    }
    if exists t :: t in pcs && p(pcs[t]) {
      var t :| t in pcs && p(pcs[t]);
      assert t in Those(pcs, p);
    }
  }
}
