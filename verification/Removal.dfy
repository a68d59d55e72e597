/**
  Taking processes out of the table: what removePcb does to the queues and to the tree
  (phase2/exceptions.c:48-60), as a function of the set of processes that die.
*/
module Removal {
  import opened Seqs
  import opened Types
  import opened Procs
  import opened Forest

  /** x is allocated and not free. */
  ghost predicate InUse(v: Procs, x: nat) {
    x in v.kids && x !in v.free
  }

  /**
    The queues: nobody is in two of them or twice in one, only PCBs in use are ready or
    blocked, and the p_semAdd of a blocked process is the key it is blocked on.
  */
  ghost predicate Places(v: Procs) {
    && NoDup(v.free) && NoDup(v.ready)
    && (forall x :: x in v.free ==> FreeIn(v, x))
    && (forall x :: x in v.ready ==> InUse(v, x))
    && (forall k :: k in v.blocked ==> v.blocked[k] != [] && NoDup(v.blocked[k]))
    && (forall k, x :: k in v.blocked && x in v.blocked[k] ==> BlockedIn(v, k, x))
  }

  /** A free PCB has neither parent nor children. */
  ghost predicate FreeIn(v: Procs, x: nat) {
    x < |v.pcb| && v.pcb[x].parent == None && (x in v.kids ==> v.kids[x] == [])
  }

  ghost predicate BlockedIn(v: Procs, k: Key, x: nat) {
    InUse(v, x) && x !in v.ready && x < |v.pcb| && v.pcb[x].semAdd == Some(k)
  }

  ghost predicate Wf(v: Procs) {
    Tree(v) && Places(v)
  }

  /** pcb with the processes of dead made parentless. */
  ghost function Orphan(pcb: seq<Pcb>, dead: set<nat>): seq<Pcb> {
    seq(|pcb|, i requires 0 <= i < |pcb| => if i in dead then pcb[i].(parent := None) else pcb[i])
  }

  ghost function WithoutKids(kids: map<nat, seq<nat>>, dead: set<nat>): map<nat, seq<nat>> {
    map q | q in kids :: Minus(kids[q], dead)
  }

  /** v without the processes of dead: they are in no queue and in nobody's family. */
  ghost function Without(v: Procs, dead: set<nat>): Procs {
    v.(ready := Minus(v.ready, dead), blocked := Purge(v.blocked, dead),
       kids := WithoutKids(v.kids, dead), pcb := Orphan(v.pcb, dead))
  }

  /** removePcb(p): p and its descendants leave every queue and go, in post-order, to the free list. */
  ghost function Kill(v: Procs, p: nat): Procs
    requires Tree(v) && p in v.kids
  {
    var gone := PostOrder(v, p);
    Without(v, Elems(gone)).(free := v.free + gone)
  }

  lemma PurgeTwice(b: Queues, c: set<nat>, d: set<nat>)
    ensures Purge(Purge(b, c), d) == Purge(b, c + d)
  {
    forall k | k in b
      ensures Minus(Minus(b[k], c), d) == Minus(b[k], c + d)
    {
      MinusTwice(b[k], c, d);
    }
  }

  lemma WithoutTwice(v: Procs, c: set<nat>, d: set<nat>)
    ensures Without(Without(v, c), d) == Without(v, c + d)
  {
    MinusTwice(v.ready, c, d);
    PurgeTwice(v.blocked, c, d);
    assert Orphan(Orphan(v.pcb, c), d) == Orphan(v.pcb, c + d);
    forall q | q in v.kids
      ensures Minus(Minus(v.kids[q], c), d) == Minus(v.kids[q], c + d)
    {
      MinusTwice(v.kids[q], c, d);
    }
    assert WithoutKids(WithoutKids(v.kids, c), d) == WithoutKids(v.kids, c + d);
  }

  lemma OrphanParent(pcb: seq<Pcb>, dead: set<nat>)
    ensures forall q, c :: IsParent(Orphan(pcb, dead), q, c) <==> IsParent(pcb, q, c) && c !in dead
    ensures |Orphan(pcb, dead)| == |pcb|
    ensures forall i :: 0 <= i < |pcb| ==> Orphan(pcb, dead)[i].pid == pcb[i].pid
  {
  }

  lemma ParentInTable(pcb: seq<Pcb>)
    ensures forall q: nat, c: nat :: IsParent(pcb, q, c) ==> c < |pcb|
  {
  }

  lemma WithoutTree(v: Procs, dead: set<nat>)
    requires Tree(v)
    ensures Tree(Without(v, dead))
  {
    hide Orphan, IsParent, Purge, Minus;
    OrphanParent(v.pcb, dead);
    ParentInTable(v.pcb);
    var w := Without(v, dead);
    forall q, c | q in w.kids && c in w.kids[q]
      ensures IsParent(w.pcb, q, c) && c in w.kids && w.pcb[q].pid < w.pcb[c].pid
    {
      assert c in v.kids[q] && IsParent(v.pcb, q, c);
    }
    forall q, c | IsParent(w.pcb, q, c)
      ensures q in w.kids && c in w.kids[q]
    {
      assert IsParent(v.pcb, q, c);
    }
  }

  lemma WithoutWf(v: Procs, dead: set<nat>)
    requires Wf(v)
    ensures Wf(Without(v, dead))
  {
    WithoutTree(v, dead);
    var w := Without(v, dead);
    forall x | x in w.free
      ensures FreeIn(w, x)
    {
      assert FreeIn(v, x);
    }
    forall k, x | k in w.blocked && x in w.blocked[k]
      ensures BlockedIn(w, k, x)
    {
      assert BlockedIn(v, k, x);
    }
  }

  lemma WithoutSubtree(v: Procs, dead: set<nat>, c: nat)
    requires Tree(v) && c in v.kids
    requires forall x :: x in PostOrder(v, c) ==> x !in dead
    ensures Tree(Without(v, dead)) && PostOrder(Without(v, dead), c) == PostOrder(v, c)
  {
    WithoutTree(v, dead);
    var w := Without(v, dead);
    forall x | x in PostOrder(v, c)
      ensures SameNode(v, w, x)
    {
      SubtreeMember(v, c, x);
      forall y | y in v.kids[x]
        ensures y !in dead
      {
        assert IsParent(v.pcb, x, y) && Under(v, x, y);
        UnderTrans(v, c, x, y);
        SubtreeMember(v, c, y);
      }
      MinusNone(v.kids[x], dead);
    }
    PostOrderFrame(v, w, c);
  }

  /** removeChild(p): the eldest child leaves p's list. */
  ghost function Cut(v: Procs, p: nat): Procs
    requires p in v.kids && v.kids[p] != [] && v.kids[p][0] < |v.pcb|
  {
    var c := v.kids[p][0];
    v.(kids := v.kids[p := v.kids[p][1..]], pcb := v.pcb[c := v.pcb[c].(parent := None)])
  }

  lemma CutTree(v: Procs, p: nat)
    requires Tree(v) && p in v.kids && v.kids[p] != []
    ensures v.kids[p][0] in v.kids[p] && v.kids[p][0] < |v.pcb|
    ensures Tree(Cut(v, p))
  {
    var c := v.kids[p][0];
    assert c in v.kids[p] && IsParent(v.pcb, p, c);
    MinusFirst(v.kids[p]);
    var w := Cut(v, p);
    forall q, d | q in w.kids && d in w.kids[q]
      ensures IsParent(w.pcb, q, d) && d in w.kids && w.pcb[q].pid < w.pcb[d].pid
    {
      assert IsParent(v.pcb, q, d);
    }
    forall q, d | IsParent(w.pcb, q, d)
      ensures q in w.kids && d in w.kids[q]
    {
      assert IsParent(v.pcb, q, d);
    }
  }

  lemma CutPlaces(v: Procs, p: nat)
    requires Wf(v) && p in v.kids && v.kids[p] != []
    ensures v.kids[p][0] in v.kids[p] && v.kids[p][0] < |v.pcb|
    ensures Places(Cut(v, p))
  {
    CutTree(v, p);
    var w := Cut(v, p);
    forall x | x in w.free
      ensures FreeIn(w, x)
    {
      assert FreeIn(v, x);
    }
    forall k, x | k in w.blocked && x in w.blocked[k]
      ensures BlockedIn(w, k, x)
    {
      assert BlockedIn(v, k, x);
    }
  }

  lemma CutPostOrder(v: Procs, p: nat)
    requires Tree(v) && p in v.kids && v.kids[p] != []
    ensures
      var c := v.kids[p][0];
      && c in v.kids && c in v.kids[p] && c < |v.pcb| && Tree(Cut(v, p)) && c in Cut(v, p).kids
      && PostOrder(Cut(v, p), c) == PostOrder(v, c)
  {
    CutTree(v, p);
    var c, w := v.kids[p][0], Cut(v, p);
    assert c in v.kids;
    ParentApart(v, p, c);
    forall x | x in PostOrder(v, c)
      ensures SameNode(v, w, x)
    {
      SubtreeMember(v, c, x);
    }
    PostOrderFrame(v, w, c);
  }

  lemma CutWithout(v: Procs, p: nat, dead: set<nat>)
    requires p in v.kids && v.kids[p] != [] && v.kids[p][0] < |v.pcb| && v.kids[p][0] in dead
    ensures Without(Cut(v, p), dead) == Without(v, dead)
  {
    var w := Cut(v, p);
    assert Orphan(w.pcb, dead) == Orphan(v.pcb, dead);
    assert WithoutKids(w.kids, dead) == WithoutKids(v.kids, dead);
  }

  /** Killing the child that was just cut off is killing it where it stood. */
  lemma CutKill(v: Procs, p: nat)
    requires Wf(v) && p in v.kids && v.kids[p] != []
    ensures
      var c := v.kids[p][0];
      && c in v.kids && c in v.kids[p] && c < |v.pcb|
      && Wf(Cut(v, p)) && c in Cut(v, p).kids
      && Kill(Cut(v, p), c) == Kill(v, c)
  {
    assert Tree(v);
    hide Without, Tree, Places;
    CutPlaces(v, p);
    CutPostOrder(v, p);
    var c := v.kids[p][0];
    assert c in PostOrder(v, c);
    CutWithout(v, p, Elems(PostOrder(v, c)));
  }

  /** The subtrees of the first i children of p. */
  ghost function Gone(v: Procs, p: nat, i: nat): seq<nat>
    requires Tree(v) && p in v.kids && i <= |v.kids[p]|
  {
    PostForest(v, v.kids[p][..i], v.pcb[p].pid)
  }

  lemma GoneMember(v: Procs, p: nat, i: nat, x: nat)
    requires Tree(v) && p in v.kids && i <= |v.kids[p]|
    ensures x in Gone(v, p, i) <==> exists j :: 0 <= j < i && InSubtree(v, p, j, x)
  {
    ForestHas(v, v.kids[p][..i], v.pcb[p].pid, x);
    if x in Gone(v, p, i) {
      var c :| c in v.kids[p][..i] && x in PostOrder(v, c);
      var j :| 0 <= j < i && v.kids[p][j] == c;
      assert InSubtree(v, p, j, x);
    }
    if j :| 0 <= j < i && InSubtree(v, p, j, x) {
      assert v.kids[p][j] in v.kids[p][..i];
    }
  }

  /** x is the j-th child of p, or under it. */
  ghost predicate InSubtree(v: Procs, p: nat, j: nat, x: nat)
    requires Tree(v) && p in v.kids
  {
    j < |v.kids[p]| && v.kids[p][j] in v.kids[p] && x in PostOrder(v, v.kids[p][j])
  }

  /** A process under one in use is in use: free PCBs have no family. */
  lemma SubtreeInUse(v: Procs, p: nat, x: nat)
    requires Wf(v) && InUse(v, p) && x in PostOrder(v, p)
    ensures InUse(v, x) && x < |v.pcb|
  {
    SubtreeMember(v, p, x);
    if x in v.free {
      assert FreeIn(v, x);
    }
  }

  /** While the loop of removePcb(p) is about to take child i. */
  lemma BeforeChild(v: Procs, p: nat, i: nat, x: nat)
    requires Wf(v) && InUse(v, p) && i <= |v.kids[p]|
    ensures x in Gone(v, p, i) ==> x != p && InUse(v, x) && x < |v.pcb|
    ensures forall y :: x in Gone(v, p, i) && x in v.kids && y in v.kids[x] ==> y in Gone(v, p, i)
    ensures forall j :: i <= j && InSubtree(v, p, j, x) ==> x !in Gone(v, p, i) && x != p
  {
    GoneMember(v, p, i, x);
    if x in Gone(v, p, i) {
      var j :| 0 <= j < i && InSubtree(v, p, j, x);
      var c := v.kids[p][j];
      ParentApart(v, p, c);
      SubtreeMember(v, p, c);
      assert IsParent(v.pcb, p, c) && Under(v, p, c);
      SubtreeInUse(v, p, c);
      SubtreeInUse(v, c, x);
      SubtreeMember(v, c, x);
      forall y | y in v.kids[x]
        ensures y in Gone(v, p, i)
      {
        assert IsParent(v.pcb, x, y) && Under(v, x, y);
        UnderTrans(v, c, x, y);
        SubtreeMember(v, c, y);
        GoneMember(v, p, i, y);
        assert InSubtree(v, p, j, y);
      }
    }
    forall j | i <= j && InSubtree(v, p, j, x)
      ensures x !in Gone(v, p, i) && x != p
    {
      ParentApart(v, p, v.kids[p][j]);
      if x in Gone(v, p, i) {
        var h :| 0 <= h < i && InSubtree(v, p, h, x);
        SiblingsApart(v, p, v.kids[p][h], v.kids[p][j], x);
      }
    }
  }

  /** The table when removePcb(p) has finished with the first i children of p. */
  ghost function Partial(v: Procs, p: nat, i: nat): Procs
    requires Tree(v) && p in v.kids && i <= |v.kids[p]|
  {
    Without(v, {p} + Elems(Gone(v, p, i))).(free := v.free + Gone(v, p, i))
  }

  lemma PartialKids(v: Procs, p: nat, i: nat)
    requires Wf(v) && InUse(v, p) && i <= |v.kids[p]|
    ensures p in Partial(v, p, i).kids && Partial(v, p, i).kids[p] == v.kids[p][i..]
  {
    var cs, dead := v.kids[p], {p} + Elems(Gone(v, p, i));
    forall j | 0 <= j < |cs|
      ensures cs[j] in dead <==> j < i
    {
      assert IsParent(v.pcb, p, cs[j]);
      assert cs[j] in PostOrder(v, cs[j]) && InSubtree(v, p, j, cs[j]);
      BeforeChild(v, p, i, cs[j]);
      GoneMember(v, p, i, cs[j]);
    }
    assert cs == cs[..i] + cs[i..];
    MinusAppend(cs[..i], cs[i..], dead);
    MinusAll(cs[..i], dead);
    MinusNone(cs[i..], dead);
  }

  lemma PartialWf(v: Procs, p: nat, i: nat)
    requires Wf(v) && InUse(v, p) && i <= |v.kids[p]|
    ensures Wf(Partial(v, p, i)) && InUse(Partial(v, p, i), p)
  {
    var gone := Gone(v, p, i);
    var dead := {p} + Elems(gone);
    WithoutWf(v, dead);
    PostForestNoDup(v, p, v.kids[p][..i], v.pcb[p].pid);
    forall x | x in gone
      ensures x !in v.free && FreeIn(Without(v, dead), x) && x != p
    {
      BeforeChild(v, p, i, x);
      MinusAll(v.kids[x], dead);
    }
    ManyFreedWf(Without(v, dead), gone, p);
  }

  lemma ManyFreedWf(u: Procs, gone: seq<nat>, p: nat)
    requires Wf(u) && NoDup(gone) && InUse(u, p)
    requires forall x :: x in gone ==> x !in u.free && FreeIn(u, x) && x != p
    requires forall x :: x in gone ==> x !in u.ready && !Queued(u.blocked, x)
    ensures Wf(u.(free := u.free + gone)) && InUse(u.(free := u.free + gone), p)
  {
    var w := u.(free := u.free + gone);
    TreeFrame(u, w);
    NoDupAppend(u.free, gone);
    forall x | x in w.free
      ensures FreeIn(w, x)
    {
      assert FreeIn(u, x);
    }
    forall k, x | k in w.blocked && x in w.blocked[k]
      ensures BlockedIn(w, k, x)
    {
      assert BlockedIn(u, k, x);
    }
  }

  lemma PartialSubtree(v: Procs, p: nat, i: nat)
    requires Wf(v) && InUse(v, p) && i < |v.kids[p]|
    ensures
      var w, c := Partial(v, p, i), v.kids[p][i];
      Tree(w) && c in v.kids && c in w.kids && PostOrder(w, c) == PostOrder(v, c)
  {
    var w, c := Partial(v, p, i), v.kids[p][i];
    var dead := {p} + Elems(Gone(v, p, i));
    assert IsParent(v.pcb, p, c);
    forall x | x in PostOrder(v, c)
      ensures x !in dead
    {
      assert InSubtree(v, p, i, x);
      BeforeChild(v, p, i, x);
    }
    WithoutSubtree(v, dead, c);
    PostOrderSame(Without(v, dead), w, c);
  }

  lemma GoneNext(v: Procs, p: nat, i: nat)
    requires Tree(v) && p in v.kids && i < |v.kids[p]|
    ensures v.kids[p][i] in v.kids[p]
    ensures Gone(v, p, i + 1) == Gone(v, p, i) + PostOrder(v, v.kids[p][i])
  {
    assert v.kids[p][..i + 1] == v.kids[p][..i] + [v.kids[p][i]];
    PostForestAppend(v, v.kids[p][..i], v.pcb[p].pid, v.kids[p][i]);
  }

  lemma PartialKill(v: Procs, p: nat, i: nat)
    requires Wf(v) && InUse(v, p) && i < |v.kids[p]|
    ensures Tree(Partial(v, p, i)) && v.kids[p][i] in Partial(v, p, i).kids
    ensures Kill(Partial(v, p, i), v.kids[p][i]) == Partial(v, p, i + 1)
  {
    hide Without, PostForest;
    PartialSubtree(v, p, i);
    GoneNext(v, p, i);
    KillLater(v, {p} + Elems(Gone(v, p, i)), Gone(v, p, i), PostOrder(v, v.kids[p][i]));
    assert {p} + Elems(Gone(v, p, i + 1)) ==
      {p} + Elems(Gone(v, p, i)) + Elems(PostOrder(v, v.kids[p][i]));
  }

  lemma KillLater(v: Procs, dead: set<nat>, gone: seq<nat>, sub: seq<nat>)
    ensures
      var w := Without(v, dead).(free := v.free + gone);
      Without(w, Elems(sub)).(free := w.free + sub)
        == Without(v, dead + Elems(sub)).(free := v.free + (gone + sub))
  {
    WithoutTwice(v, dead, Elems(sub));
    WithoutFree(Without(v, dead), v.free + gone, Elems(sub));
    assert v.free + gone + sub == v.free + (gone + sub);
  }

  lemma WithoutFree(v: Procs, free: seq<nat>, dead: set<nat>)
    ensures Without(v.(free := free), dead) == Without(v, dead).(free := free)
  {
  }

  /** One round of the loop: cut the next child off and kill it. */
  lemma PartialNext(v: Procs, p: nat, i: nat)
    requires Wf(v) && InUse(v, p) && i < |v.kids[p]|
    ensures
      var w, c := Partial(v, p, i), v.kids[p][i];
      && p in w.kids && w.kids[p] != [] && w.kids[p][0] == c && c < |w.pcb|
      && Wf(Cut(w, p)) && InUse(Cut(w, p), c)
      && Kill(Cut(w, p), c) == Partial(v, p, i + 1)
      && Cut(w, p).nextPid == v.nextPid && c < |Cut(w, p).pcb| && Cut(w, p).pcb[c].pid > v.pcb[p].pid
  {
    var w, c := Partial(v, p, i), v.kids[p][i];
    assert IsParent(v.pcb, p, c);
    PartialWf(v, p, i);
    PartialKids(v, p, i);
    PartialKill(v, p, i);
    CutKill(w, p);
    assert IsParent(w.pcb, p, c) && Under(w, p, c);
    SubtreeMember(w, p, c);
    SubtreeInUse(w, p, c);
  }

  /** When there are no more children, only freeing p is left. */
  lemma PartialEnd(v: Procs, p: nat)
    requires Wf(v) && InUse(v, p)
    ensures
      var w := Partial(v, p, |v.kids[p]|);
      && w.(free := w.free + [p]) == Kill(v, p)
      && p < |w.pcb| && w.pcb[p].parent == None && p in w.kids && w.kids[p] == []
      && p !in w.free && p !in w.ready && !Queued(w.blocked, p)
  {
    hide Minus, Under;
    var n := |v.kids[p]|;
    var w, gone := Partial(v, p, n), Gone(v, p, n);
    PartialWf(v, p, n);
    PartialKids(v, p, n);
    assert v.kids[p][..n] == v.kids[p];
    assert PostOrder(v, p) == gone + [p];
    assert Elems(gone + [p]) == {p} + Elems(gone);
    assert v.free + gone + [p] == v.free + (gone + [p]);
    assert forall k :: k in w.blocked ==> p !in w.blocked[k];
  }

  /** outChild(p) */
  ghost function Leave(v: Procs, p: nat): (w: Procs)
    requires p < |v.pcb|
    requires v.pcb[p].parent.Some? ==> v.pcb[p].parent.value in v.kids
    ensures w == v.(kids := w.kids, pcb := w.pcb)
    ensures |w.pcb| == |v.pcb| && w.pcb[p].semAdd == v.pcb[p].semAdd
  {
    var parent := v.pcb[p].parent;
    v.(kids := if parent == None then v.kids else v.kids[parent.value := Minus(v.kids[parent.value], {p})],
       pcb := v.pcb[p := v.pcb[p].(parent := None)])
  }

  /** outChild, outBlocked when p_semAdd is set, and outProcQ on the ready queue. */
  ghost function Detach(v: Procs, p: nat): Procs
    requires p < |v.pcb|
    requires v.pcb[p].parent.Some? ==> v.pcb[p].parent.value in v.kids
  {
    Leave(v, p).(blocked := if v.pcb[p].semAdd == None then v.blocked else Purge(v.blocked, {p}),
                 ready := Minus(v.ready, {p}))
  }

  /** The test of p_semAdd loses nothing: a process without it is not blocked. */
  lemma DetachIs(v: Procs, p: nat)
    requires Wf(v) && InUse(v, p)
    ensures p < |v.pcb| && (v.pcb[p].parent.Some? ==> v.pcb[p].parent.value in v.kids)
    ensures Detach(v, p) == Partial(v, p, 0)
  {
    assert Gone(v, p, 0) == [];
    assert {p} + Elems(Gone(v, p, 0)) == {p};
    assert v.free + Gone(v, p, 0) == v.free;
    if v.pcb[p].parent.Some? {
      assert IsParent(v.pcb, v.pcb[p].parent.value, p);
    }
    forall q | q in v.kids && v.pcb[p].parent != Some(q)
      ensures Minus(v.kids[q], {p}) == v.kids[q]
    {
      assert !IsParent(v.pcb, q, p);
      MinusNone(v.kids[q], {p});
    }
    assert Detach(v, p).kids == WithoutKids(v.kids, {p});
    assert Detach(v, p).pcb == Orphan(v.pcb, {p});
    if v.pcb[p].semAdd == None {
      forall k, x | k in v.blocked && x in v.blocked[k]
        ensures x !in {p}
      {
        assert BlockedIn(v, k, x);
      }
      PurgeNone(v.blocked, {p});
    }
  }

  lemma KillWf(v: Procs, p: nat)
    requires Wf(v) && InUse(v, p)
    ensures Wf(Kill(v, p))
  {
    var n := |v.kids[p]|;
    PartialWf(v, p, n);
    PartialEnd(v, p);
    FreedWf(Partial(v, p, n), p);
  }

  lemma FreedWf(w: Procs, p: nat)
    requires Wf(w) && p !in w.free && FreeIn(w, p)
    requires p !in w.ready && !Queued(w.blocked, p)
    ensures Wf(w.(free := w.free + [p]))
  {
    var u := w.(free := w.free + [p]);
    TreeFrame(w, u);
    NoDupAppend(w.free, [p]);
    forall x | x in u.free
      ensures FreeIn(u, x)
    {
      assert x in w.free ==> FreeIn(w, x);
    }
    forall k, x | k in u.blocked && x in u.blocked[k]
      ensures BlockedIn(u, k, x)
    {
      assert BlockedIn(w, k, x);
    }
  }

  /** The processes that wait on some semaphore. */
  ghost function BlockedSet(t: Procs): set<nat> {
    set x | x in t.kids && Queued(t.blocked, x)
  }

  /** How many processes wait. */
  ghost function Waiters(t: Procs): nat {
    |BlockedSet(t)|
  }

  /** How many processes removePcb(p) takes, and how many of them wait. */
  ghost function Victims(t: Procs, p: nat): nat
    requires Tree(t) && p in t.kids
  {
    |PostOrder(t, p)|
  }

  ghost function WaitingVictims(t: Procs, p: nat): nat
    requires Tree(t) && p in t.kids
  {
    |BlockedSet(t) * Elems(PostOrder(t, p))|
  }

  lemma QueuedInUse(t: Procs)
    requires Wf(t)
    ensures forall y :: Queued(t.blocked, y) <==> y in BlockedSet(t)
  {
    forall y | Queued(t.blocked, y)
      ensures y in t.kids
    {
      var k :| k in t.blocked && y in t.blocked[k];
      assert BlockedIn(t, k, y);
    }
  }

  /** The waiters of b that survive. */
  lemma PurgeQueued(b: Queues, dead: set<nat>, x: nat)
    ensures Queued(Purge(b, dead), x) <==> Queued(b, x) && x !in dead
  {
    if Queued(b, x) && x !in dead {
      var k :| k in b && x in b[k];
      assert x in Purge(b, dead)[k];
    }
  }

  lemma WithoutBlocked(t: Procs, dead: set<nat>)
    ensures BlockedSet(Without(t, dead)) == BlockedSet(t) - dead
    ensures |BlockedSet(Without(t, dead))| == |BlockedSet(t)| - |BlockedSet(t) * dead|
  {
    forall x
      ensures Queued(Purge(t.blocked, dead), x) <==> Queued(t.blocked, x) && x !in dead
    {
      PurgeQueued(t.blocked, dead, x);
    }
    var b := BlockedSet(t);
    assert BlockedSet(Without(t, dead)) == b - dead;
    assert b == (b - dead) + b * dead;
  }

  /** How many waiters are lost when one process, or a whole subtree, leaves the table. */
  lemma DetachBlocked(v: Procs, p: nat)
    requires Wf(v) && InUse(v, p)
    ensures Waiters(Partial(v, p, 0)) == Waiters(v) - (if Queued(v.blocked, p) then 1 else 0)
    ensures |Partial(v, p, 0).free| == |v.free|
    ensures Tree(v) && p in v.kids && p < |v.pcb| && v.pcb[p].pid < v.nextPid
  {
    assert Gone(v, p, 0) == [];
    assert {p} + Elems(Gone(v, p, 0)) == {p};
    WithoutBlocked(v, {p});
    QueuedInUse(v);
    assert BlockedSet(Partial(v, p, 0)) == BlockedSet(Without(v, {p}));
    if Queued(v.blocked, p) {
      assert BlockedSet(v) * {p} == {p};
    } else {
      assert BlockedSet(v) * {p} == {};
    }
  }

  lemma KillBlocked(v: Procs, p: nat)
    requires Wf(v) && InUse(v, p)
    ensures Tree(v) && p in v.kids
    ensures Waiters(Kill(v, p)) == Waiters(v) - WaitingVictims(v, p)
    ensures |Kill(v, p).free| == |v.free| + Victims(v, p)
  {
    var gone := Elems(PostOrder(v, p));
    WithoutBlocked(v, gone);
    assert BlockedSet(Kill(v, p)) == BlockedSet(Without(v, gone));
  }

  lemma CutBlocked(v: Procs, p: nat)
    requires p in v.kids && v.kids[p] != [] && v.kids[p][0] < |v.pcb|
    ensures Waiters(Cut(v, p)) == Waiters(v) && Cut(v, p).free == v.free
  {
    assert BlockedSet(Cut(v, p)) == BlockedSet(v);
  }

  lemma EndBlocked(v: Procs, p: nat)
    ensures Waiters(v.(free := v.free + [p])) == Waiters(v)
  {
    assert BlockedSet(v.(free := v.free + [p])) == BlockedSet(v);
  }
}
