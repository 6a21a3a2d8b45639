/** The file descriptor set helpers of src/pth_util.c: sets are bit arrays, input sets may be missing,
    and only descriptors below nfd count. */
module FdSets {
  import opened EventManager

  /** The set that a bit array stands for, if there is one. */
  ghost function Members(a: array?<bool>): Option<set<nat>>
    reads a
  {
    if a == null then None else Some(set k | 0 <= k < a.Length && a[k])
  }

  ghost function SetOf(a: array<bool>): set<nat>
    reads a
  {
    set k | 0 <= k < a.Length && a[k]
  }

  /** Missing, or long enough for nfd descriptors. */
  predicate Covers(a: array?<bool>, nfd: int) { a != null ==> nfd <= a.Length }

  // ---------------------------------------------------------------------------------------
  // One descriptor of one set

  lemma {:induction false} BelowNext(s: Option<set<nat>>, k: nat)
    ensures Below(s, k + 1) == Below(s, k) + if s.Some? && k in s.value then {k} else {}
    ensures k !in Below(s, k)
  {
  }

  lemma {:induction false} HitsNext(s: Option<set<nat>>, k: nat, found: set<nat>)
    ensures |Hits(s, k + 1, found)| == |Hits(s, k, found)| + if s.Some? && k in s.value && k in found then 1 else 0
  {
    hide Below;
    BelowNext(s, k);
    var a, b := Hits(s, k, found), Hits(s, k + 1, found);
    if s.Some? && k in s.value && k in found {
      assert b == a + {k};
    } else {
      assert b == a;
    }
  }

  lemma {:induction false} BelowNothing(s: Option<set<nat>>, nfd: int)
    requires nfd <= 0
    ensures Below(s, nfd) == {}
  {
  }

  /** Brings the merge of one set from s to s + 1. */
  method MergeAt(s: nat, i: array?<bool>, o: array<bool>, ghost was: set<nat>)
    requires Covers(i, s + 1) && s < o.Length && i != o && SetOf(o) == was + Below(Members(i), s)
    modifies o
    ensures SetOf(o) == was + Below(Members(i), s + 1)
  {
    hide Below;
    BelowNext(Members(i), s);
    ghost var before := SetOf(o);
    if i != null {
      if i[s] {
        o[s] := true;
        assert SetOf(o) == before + {s};
      }
    }
  }

  /** Brings the selection of one set from s to s + 1. */
  method SelectAt(s: nat, i: array?<bool>, o: array<bool>, n: nat, ghost was: Option<set<nat>>) returns (n': nat)
    requires Covers(i, s + 1) && s < o.Length && i != o && Members(i) == Project(was, s, SetOf(o))
    modifies i
    ensures Members(i) == Project(was, s + 1, SetOf(o))
    ensures n' == n + |Hits(was, s + 1, SetOf(o))| - |Hits(was, s, SetOf(o))|
  {
    hide Below, Hits;
    HitsNext(was, s, SetOf(o));
    n' := n;
    ghost var f := SetOf(o);
    if i == null {
      assert was.None?;
    } else {
      assert was.Some? && (s in Members(i).value <==> s in was.value);
      assert forall k :: k in Members(i).value <==> k in was.value && (k < s ==> k in f);
    }
    if i != null && i[s] {
      if !o[s] {
        i[s] := false;
      } else {
        n' := n' + 1;
      }
    }
    if i != null {
      assert Members(i).value == Project(was, s + 1, f).value;
    }
  }

  // ---------------------------------------------------------------------------------------
  // The loops

  /** Adds what the inputs hold below nfd to the outputs. */
  method Merge(nfd: int, i1: array?<bool>, o1: array<bool>, i2: array?<bool>, o2: array<bool>,
               i3: array?<bool>, o3: array<bool>)
    requires Covers(i1, nfd) && Covers(i2, nfd) && Covers(i3, nfd)
    requires nfd <= o1.Length && nfd <= o2.Length && nfd <= o3.Length
    requires o1 != o2 && o1 != o3 && o2 != o3 && {i1, i2, i3} !! {o1, o2, o3}
    modifies o1, o2, o3
    ensures SetOf(o1) == old(SetOf(o1)) + Below(Members(i1), nfd)
    ensures SetOf(o2) == old(SetOf(o2)) + Below(Members(i2), nfd)
    ensures SetOf(o3) == old(SetOf(o3)) + Below(Members(i3), nfd)
  {
    hide Below, SetOf, Members;
    ghost var m1, m2, m3 := Members(i1), Members(i2), Members(i3);
    ghost var w1, w2, w3 := SetOf(o1), SetOf(o2), SetOf(o3);
    var s := 0;
    BelowNothing(m1, 0);
    BelowNothing(m2, 0);
    BelowNothing(m3, 0);
    while s < nfd
      invariant 0 <= s && (s <= nfd || s == 0)
      invariant Members(i1) == m1 && Members(i2) == m2 && Members(i3) == m3
      invariant SetOf(o1) == w1 + Below(m1, s)
      invariant SetOf(o2) == w2 + Below(m2, s)
      invariant SetOf(o3) == w3 + Below(m3, s)
    {
      MergeAt(s, i1, o1, w1);
      MergeAt(s, i2, o2, w2);
      MergeAt(s, i3, o3, w3);
      s := s + 1;
    }
    if nfd < 0 {
      BelowNothing(m1, nfd);
      BelowNothing(m2, nfd);
      BelowNothing(m3, nfd);
    }
  }

  /** Nothing below s is in both sets. */
  ghost predicate Clean(i: array?<bool>, o: array<bool>, s: int)
    requires Covers(i, s) && s <= o.Length
    reads i, o
  {
    i != null ==> forall k :: 0 <= k < s ==> !(i[k] && o[k])
  }

  lemma {:induction false} CleanMeans(i: array?<bool>, o: array<bool>, s: int, nfd: int)
    requires Covers(i, nfd) && nfd <= o.Length && s <= nfd
    ensures Clean(i, o, nfd) ==> |Hits(Members(i), nfd, SetOf(o))| == 0
    ensures i != null && 0 <= s < nfd && i[s] && o[s] ==> |Hits(Members(i), nfd, SetOf(o))| > 0
  {
    if Clean(i, o, nfd) {
      assert Hits(Members(i), nfd, SetOf(o)) == {};
    }
    if i != null && 0 <= s < nfd && i[s] && o[s] {
      assert s in Hits(Members(i), nfd, SetOf(o));
    }
  }

  /** Has any descriptor of the inputs occurred? */
  method Test(nfd: int, i1: array?<bool>, o1: array<bool>, i2: array?<bool>, o2: array<bool>,
              i3: array?<bool>, o3: array<bool>) returns (any: bool)
    requires Covers(i1, nfd) && Covers(i2, nfd) && Covers(i3, nfd)
    requires nfd <= o1.Length && nfd <= o2.Length && nfd <= o3.Length
    ensures any <==> |Hits(Members(i1), nfd, SetOf(o1))| + |Hits(Members(i2), nfd, SetOf(o2))| +
                     |Hits(Members(i3), nfd, SetOf(o3))| > 0
  {
    hide Hits, Members, SetOf;
    var s := 0;
    while s < nfd
      invariant 0 <= s && (s <= nfd || s == 0)
      invariant nfd > 0 ==> Clean(i1, o1, s) && Clean(i2, o2, s) && Clean(i3, o3, s)
    {
      CleanMeans(i1, o1, s, nfd);
      CleanMeans(i2, o2, s, nfd);
      CleanMeans(i3, o3, s, nfd);
      if i1 != null {
        if i1[s] && o1[s] {
          return true;
        }
      }
      if i2 != null {
        if i2[s] && o2[s] {
          return true;
        }
      }
      if i3 != null {
        if i3[s] && o3[s] {
          return true;
        }
      }
      s := s + 1;
    }
    CleanMeans(i1, o1, nfd, nfd);
    CleanMeans(i2, o2, nfd, nfd);
    CleanMeans(i3, o3, nfd, nfd);
    return false;
  }

  /** Takes out of the inputs what has not occurred, and counts what is left. */
  method Select(nfd: int, i1: array?<bool>, o1: array<bool>, i2: array?<bool>, o2: array<bool>,
                i3: array?<bool>, o3: array<bool>) returns (n: nat)
    requires Covers(i1, nfd) && Covers(i2, nfd) && Covers(i3, nfd)
    requires nfd <= o1.Length && nfd <= o2.Length && nfd <= o3.Length
    requires {i1, i2, i3} !! {o1, o2, o3}
    requires i1 != null ==> i1 != i2 && i1 != i3
    requires i2 != null ==> i2 != i3
    modifies i1, i2, i3
    ensures Members(i1) == Project(old(Members(i1)), nfd, SetOf(o1))
    ensures Members(i2) == Project(old(Members(i2)), nfd, SetOf(o2))
    ensures Members(i3) == Project(old(Members(i3)), nfd, SetOf(o3))
    ensures n == |Hits(old(Members(i1)), nfd, SetOf(o1))| + |Hits(old(Members(i2)), nfd, SetOf(o2))| +
                 |Hits(old(Members(i3)), nfd, SetOf(o3))|
  {
    hide Hits, SetOf, Members, Project;
    ghost var w1, w2, w3 := Members(i1), Members(i2), Members(i3);
    ghost var f1, f2, f3 := SetOf(o1), SetOf(o2), SetOf(o3);
    n := 0;
    var s := 0;
    NothingYet(w1, 0, f1);
    NothingYet(w2, 0, f2);
    NothingYet(w3, 0, f3);
    while s < nfd
      invariant 0 <= s && (s <= nfd || s == 0)
      invariant SetOf(o1) == f1 && SetOf(o2) == f2 && SetOf(o3) == f3
      invariant Members(i1) == Project(w1, s, f1)
      invariant Members(i2) == Project(w2, s, f2)
      invariant Members(i3) == Project(w3, s, f3)
      invariant n == |Hits(w1, s, f1)| + |Hits(w2, s, f2)| + |Hits(w3, s, f3)|
    {
      n := SelectAt(s, i1, o1, n, w1);
      n := SelectAt(s, i2, o2, n, w2);
      n := SelectAt(s, i3, o3, n, w3);
      s := s + 1;
    }
    if nfd < 0 {
      NothingYet(w1, nfd, f1);
      NothingYet(w2, nfd, f2);
      NothingYet(w3, nfd, f3);
    }
  }

  lemma {:induction false} NothingYet(was: Option<set<nat>>, nfd: int, found: set<nat>)
    requires nfd <= 0
    ensures Project(was, nfd, found) == was && Hits(was, nfd, found) == {}
  {
    if was.Some? {
      assert Project(was, nfd, found).value == was.value;
    }
  }
}
