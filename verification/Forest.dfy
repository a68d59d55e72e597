/**
  The process tree inside a process table: subtrees, the order in which removePcb frees
  them, and what is left when a set of processes has been taken out of the table.
*/
module Forest {
  import opened Seqs
  import opened Types
  import opened Procs

  /**
    Children lists and p_parent fields agree, and a child is always younger than its
    parent: it has the greater p_pid. So the children lists have no cycle.
  */
  ghost predicate Tree(v: Procs) {
    && (forall q :: q in v.kids ==> q < |v.pcb| && NoDup(v.kids[q]) && 0 <= v.pcb[q].pid < v.nextPid)
    && (forall q, c :: q in v.kids && c in v.kids[q] ==>
          IsParent(v.pcb, q, c) && c in v.kids && v.pcb[q].pid < v.pcb[c].pid)
    && (forall q, c :: IsParent(v.pcb, q, c) ==> q in v.kids && c in v.kids[q])
  }

  /** Fields that the tree does not look at. */
  ghost predicate SameFamily(pcb: seq<Pcb>, pcb': seq<Pcb>) {
    && |pcb'| == |pcb|
    && forall i :: 0 <= i < |pcb| ==> pcb'[i].parent == pcb[i].parent && pcb'[i].pid == pcb[i].pid
  }

  lemma TreeFrame(t: Procs, w: Procs)
    requires Tree(t) && w.kids == t.kids && w.nextPid == t.nextPid && SameFamily(t.pcb, w.pcb)
    ensures Tree(w)
  {
    assert forall q, c :: IsParent(w.pcb, q, c) <==> IsParent(t.pcb, q, c);
    forall q, c | IsParent(w.pcb, q, c)
      ensures q in w.kids && c in w.kids[q]
    {
      assert IsParent(t.pcb, q, c);
    }
  }

  /** p and all its descendants, children before parents and elder siblings first. */
  ghost function PostOrder(v: Procs, p: nat): seq<nat>
    requires Tree(v) && p in v.kids
    decreases v.nextPid - v.pcb[p].pid
  {
    PostForest(v, v.kids[p], v.pcb[p].pid) + [p]
  }

  /** The same for several siblings, all with a pid above lo. */
  ghost function PostForest(v: Procs, cs: seq<nat>, lo: int): seq<nat>
    requires Tree(v) && lo < v.nextPid
    requires forall c :: c in cs ==> c in v.kids && lo < v.pcb[c].pid
    decreases v.nextPid - lo, |cs|
  {
    if cs == [] then [] else PostOrder(v, cs[0]) + PostForest(v, cs[1..], lo)
  }

  /** Do the p_parent fields lead from x up to a? */
  ghost predicate Under(v: Procs, a: nat, x: nat)
    requires Tree(v) && x in v.kids
    decreases v.pcb[x].pid
  {
    || x == a
    || (v.pcb[x].parent.Some?
        && (assert IsParent(v.pcb, v.pcb[x].parent.value, x); Under(v, a, v.pcb[x].parent.value)))
  }

  lemma {:induction false} UnderPid(v: Procs, a: nat, x: nat)
    requires Tree(v) && x in v.kids && Under(v, a, x)
    ensures a in v.kids && v.pcb[a].pid <= v.pcb[x].pid
    ensures a != x ==> v.pcb[a].pid < v.pcb[x].pid
    decreases v.pcb[x].pid
  {
    if x != a {
      var q := v.pcb[x].parent.value;
      assert IsParent(v.pcb, q, x);
      UnderPid(v, a, q);
    }
  }

  lemma {:induction false} UnderTrans(v: Procs, a: nat, b: nat, x: nat)
    requires Tree(v) && x in v.kids && b in v.kids && Under(v, a, b) && Under(v, b, x)
    ensures Under(v, a, x)
    decreases v.pcb[x].pid
  {
    if x != b {
      var q := v.pcb[x].parent.value;
      assert IsParent(v.pcb, q, x);
      UnderTrans(v, a, b, q);
    }
  }

  /** Two ancestors of the same process are on one line. */
  lemma {:induction false} UnderLine(v: Procs, a: nat, b: nat, x: nat)
    requires Tree(v) && x in v.kids && Under(v, a, x) && Under(v, b, x)
    ensures a in v.kids && b in v.kids && (Under(v, a, b) || Under(v, b, a))
    decreases v.pcb[x].pid
  {
    UnderPid(v, a, x);
    UnderPid(v, b, x);
    if x != a && x != b {
      var q := v.pcb[x].parent.value;
      assert IsParent(v.pcb, q, x);
      UnderLine(v, a, b, q);
    }
  }

  /** The first step of the way down from p to x. */
  lemma {:induction false} ChildOnPath(v: Procs, p: nat, x: nat) returns (c: nat)
    requires Tree(v) && x in v.kids && Under(v, p, x) && x != p
    ensures p in v.kids && c in v.kids[p] && Under(v, c, x)
    decreases v.pcb[x].pid
  {
    var q := v.pcb[x].parent.value;
    assert IsParent(v.pcb, q, x);
    if q == p {
      c := x;
    } else {
      c := ChildOnPath(v, p, q);
      assert IsParent(v.pcb, p, c);
    }
  }

  lemma {:induction false} ForestHas(v: Procs, cs: seq<nat>, lo: int, x: nat)
    requires Tree(v) && lo < v.nextPid
    requires forall c :: c in cs ==> c in v.kids && lo < v.pcb[c].pid
    ensures x in PostForest(v, cs, lo) <==> exists c :: c in cs && x in PostOrder(v, c)
    decreases |cs|
  {
    if cs != [] {
      ForestHas(v, cs[1..], lo, x);
      if x in PostForest(v, cs[1..], lo) {
        var c :| c in cs[1..] && x in PostOrder(v, c);
        assert c in cs;
      }
      if c :| c in cs && x in PostOrder(v, c) {
        assert c == cs[0] || c in cs[1..];
      }
    } else {
      assert PostForest(v, cs, lo) == [];
    }
  }

  /** PostOrder lists exactly the descendants. */
  lemma {:induction false} SubtreeMember(v: Procs, p: nat, x: nat)
    requires Tree(v) && p in v.kids
    ensures x in PostOrder(v, p) <==> x in v.kids && Under(v, p, x)
    decreases v.nextPid - v.pcb[p].pid
  {
    ForestHas(v, v.kids[p], v.pcb[p].pid, x);
    if x in PostForest(v, v.kids[p], v.pcb[p].pid) {
      var c :| c in v.kids[p] && x in PostOrder(v, c);
      SubtreeMember(v, c, x);
      assert IsParent(v.pcb, p, c) && Under(v, p, c);
      UnderTrans(v, p, c, x);
    }
    if x in v.kids && Under(v, p, x) && x != p {
      var c := ChildOnPath(v, p, x);
      SubtreeMember(v, c, x);
    }
  }

  /** The subtrees of two siblings have no process in common, and their parent is in neither. */
  lemma SiblingsApart(v: Procs, p: nat, c: nat, d: nat, x: nat)
    requires Tree(v) && p in v.kids && c in v.kids[p] && d in v.kids[p] && c != d
    ensures !(x in PostOrder(v, c) && x in PostOrder(v, d))
  {
    if x in PostOrder(v, c) && x in PostOrder(v, d) {
      SubtreeMember(v, c, x);
      SubtreeMember(v, d, x);
      UnderLine(v, c, d, x);
      var e, f := if Under(v, c, d) then c else d, if Under(v, c, d) then d else c;
      assert IsParent(v.pcb, p, f) && Under(v, e, p);
      UnderPid(v, e, p);
      assert false;
    }
  }

  lemma ParentApart(v: Procs, p: nat, c: nat)
    requires Tree(v) && p in v.kids && c in v.kids[p]
    ensures p !in PostOrder(v, c)
  {
    SubtreeMember(v, c, p);
    if p in PostOrder(v, c) {
      UnderPid(v, c, p);
    }
  }

  lemma {:induction false} PostForestNoDup(v: Procs, p: nat, cs: seq<nat>, lo: int)
    requires Tree(v) && p in v.kids && lo == v.pcb[p].pid
    requires NoDup(cs) && forall c :: c in cs ==> c in v.kids[p]
    ensures NoDup(PostForest(v, cs, lo))
    decreases v.nextPid - lo, |cs|
  {
    if cs != [] {
      PostOrderNoDup(v, cs[0]);
      PostForestNoDup(v, p, cs[1..], lo);
      forall x | x in PostOrder(v, cs[0])
        ensures x !in PostForest(v, cs[1..], lo)
      {
        ForestHas(v, cs[1..], lo, x);
        if x in PostForest(v, cs[1..], lo) {
          var d :| d in cs[1..] && x in PostOrder(v, d);
          SiblingsApart(v, p, cs[0], d, x);
        }
      }
      NoDupAppend(PostOrder(v, cs[0]), PostForest(v, cs[1..], lo));
    }
  }

  /** Nobody is freed twice. */
  lemma {:induction false} PostOrderNoDup(v: Procs, p: nat)
    requires Tree(v) && p in v.kids
    ensures NoDup(PostOrder(v, p))
    decreases v.nextPid - v.pcb[p].pid
  {
    var lo := v.pcb[p].pid;
    PostForestNoDup(v, p, v.kids[p], lo);
    ForestHas(v, v.kids[p], lo, p);
    if p in PostForest(v, v.kids[p], lo) {
      var c :| c in v.kids[p] && p in PostOrder(v, c);
      ParentApart(v, p, c);
    }
    NoDupAppend(PostForest(v, v.kids[p], lo), [p]);
  }

  /** A subtree depends only on the children lists and pids of its own processes. */
  lemma {:induction false} PostOrderFrame(v: Procs, w: Procs, p: nat)
    requires Tree(v) && Tree(w) && p in v.kids && v.nextPid == w.nextPid
    requires forall x :: x in PostOrder(v, p) ==> SameNode(v, w, x)
    ensures p in w.kids && PostOrder(w, p) == PostOrder(v, p)
    decreases v.nextPid - v.pcb[p].pid
  {
    assert p in PostOrder(v, p) && SameNode(v, w, p);
    forall x | x in PostForest(v, v.kids[p], v.pcb[p].pid)
      ensures SameNode(v, w, x)
    {
      assert x in PostOrder(v, p);
    }
    PostForestFrame(v, w, v.kids[p], v.pcb[p].pid);
  }

  ghost predicate SameNode(v: Procs, w: Procs, x: nat) {
    && x in v.kids && x in w.kids && w.kids[x] == v.kids[x]
    && x < |v.pcb| && x < |w.pcb| && w.pcb[x].pid == v.pcb[x].pid
  }

  lemma {:induction false} PostForestFrame(v: Procs, w: Procs, cs: seq<nat>, lo: int)
    requires Tree(v) && Tree(w) && lo < v.nextPid && v.nextPid == w.nextPid
    requires forall c :: c in cs ==> c in v.kids && lo < v.pcb[c].pid
    requires forall c :: c in cs ==> c in w.kids && lo < w.pcb[c].pid
    requires forall x :: x in PostForest(v, cs, lo) ==> SameNode(v, w, x)
    ensures PostForest(w, cs, lo) == PostForest(v, cs, lo)
    decreases v.nextPid - lo, |cs|
  {
    if cs != [] {
      assert PostForest(v, cs, lo) == PostOrder(v, cs[0]) + PostForest(v, cs[1..], lo);
      PostOrderFrame(v, w, cs[0]);
      PostForestFrame(v, w, cs[1..], lo);
    }
  }

  /** The queues do not matter. */
  lemma PostOrderSame(v: Procs, w: Procs, p: nat)
    requires Tree(v) && p in v.kids
    requires w.kids == v.kids && w.pcb == v.pcb && w.nextPid == v.nextPid
    ensures Tree(w) && PostOrder(w, p) == PostOrder(v, p)
  {
    forall x | x in PostOrder(v, p)
      ensures SameNode(v, w, x)
    {
      SubtreeMember(v, p, x);
    }
    PostOrderFrame(v, w, p);
  }

  lemma {:induction false} PostForestAppend(v: Procs, cs: seq<nat>, lo: int, c: nat)
    requires Tree(v) && lo < v.nextPid
    requires forall d :: d in cs + [c] ==> d in v.kids && lo < v.pcb[d].pid
    ensures c in v.kids && forall d :: d in cs ==> d in v.kids && lo < v.pcb[d].pid
    ensures PostForest(v, cs + [c], lo) == PostForest(v, cs, lo) + PostOrder(v, c)
    decreases |cs|
  {
    assert c in cs + [c];
    assert forall d :: d in cs ==> d in cs + [c];
    if cs == [] {
      assert cs + [c] == [c];
      assert PostForest(v, [], lo) == [];
      assert PostForest(v, [c], lo) == PostOrder(v, c) + PostForest(v, [c][1..], lo);
    } else {
      assert (cs + [c])[1..] == cs[1..] + [c];
      PostForestAppend(v, cs[1..], lo, c);
    }
  }
}
