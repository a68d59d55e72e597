/** The table of process control blocks, its queues and its process tree (phase1/pcb.c). */
module Pcbs {
  import opened Listx
  import opened Seqs
  import opened Types
  import opened Procs

  /** What the PCB table means: the queues, the children lists, and the other fields. */
  datatype PcbView = PcbView(queues: map<Queue, seq<nat>>, kids: map<nat, seq<nat>>, pcb: seq<Pcb>, nextPid: int)

  /** The p_parent fields and the children lists tell the same story. */
  ghost predicate Family(kids: map<nat, seq<nat>>, pcb: seq<Pcb>) {
    && (forall q :: q in kids ==> q < |pcb|)
    && (forall q, c :: q in kids && c in kids[q] ==> IsParent(pcb, q, c))
    && (forall q, c :: IsParent(pcb, q, c) ==> q in kids && c in kids[q])
  }

  /** Only PCBs of the table are queued, and a free one is in nobody's family. */
  ghost predicate Coherent(v: PcbView) {
    && FreeQ in v.queues
    && (forall h :: h in v.queues ==> InTable(v.queues[h], v.pcb))
    && Family(v.kids, v.pcb)
    && (forall x :: x in v.queues[FreeQ] ==> Unrelated(v, x))
  }

  ghost predicate InTable(s: seq<nat>, pcb: seq<Pcb>) {
    forall x :: x in s ==> x < |pcb|
  }

  /** x has neither parent nor children. */
  ghost predicate Unrelated(v: PcbView, x: nat) {
    x < |v.pcb| && v.pcb[x].parent == None && (x in v.kids ==> v.kids[x] == [])
  }

  lemma FamilyAdd(kids: map<nat, seq<nat>>, pcb: seq<Pcb>, q: nat, p: nat)
    requires Family(kids, pcb) && q in kids && p < |pcb| && pcb[p].parent == None
    ensures Family(kids[q := kids[q] + [p]], pcb[p := pcb[p].(parent := Some(q))])
    ensures forall g :: g in kids ==> p !in kids[g]
  {
    var pcb' := pcb[p := pcb[p].(parent := Some(q))];
    assert forall g :: !IsParent(pcb, g, p);
    assert forall g, c :: c != p ==> IsParent(pcb', g, c) == IsParent(pcb, g, c);
    assert forall g :: IsParent(pcb', g, p) <==> g == q;
  }

  lemma FamilyRemove(kids: map<nat, seq<nat>>, pcb: seq<Pcb>, q: nat, p: nat)
    requires Family(kids, pcb) && IsParent(pcb, q, p)
    ensures q in kids && p in kids[q]
    ensures Family(kids[q := Minus(kids[q], {p})], pcb[p := pcb[p].(parent := None)])
  {
    var pcb' := pcb[p := pcb[p].(parent := None)];
    assert forall g, c :: c != p ==> IsParent(pcb', g, c) == IsParent(pcb, g, c);
    assert forall g :: !IsParent(pcb', g, p);
    assert forall g :: IsParent(pcb, g, p) <==> g == q;
  }

  lemma FamilySame(kids: map<nat, seq<nat>>, pcb: seq<Pcb>, pcb': seq<Pcb>)
    requires Family(kids, pcb) && |pcb'| == |pcb|
    requires forall x :: 0 <= x < |pcb| ==> pcb'[x].parent == pcb[x].parent
    ensures Family(kids, pcb')
  {
    assert forall g, c :: IsParent(pcb', g, c) == IsParent(pcb, g, c);
  }

  /** Fresh fields for an unrelated PCB. */
  lemma FamilyReset(kids: map<nat, seq<nat>>, pcb: seq<Pcb>, p: nat, b: Pcb)
    requires Family(kids, pcb) && p < |pcb| && pcb[p].parent == None && b.parent == None
    requires p in kids ==> kids[p] == []
    ensures Family(kids[p := []], pcb[p := b])
    ensures forall g :: g in kids ==> p !in kids[g]
  {
    var pcb', kids' := pcb[p := b], kids[p := []];
    assert forall g :: !IsParent(pcb, g, p);
    assert forall g, c :: IsParent(pcb', g, c) == IsParent(pcb, g, c);
    assert forall c :: !IsParent(pcb, p, c);
    assert forall g :: g in kids && g != p ==> kids'[g] == kids[g];
  }

  /** What allocPcb leaves behind. */
  ghost function Alloc(v: PcbView, junk: Context): PcbView
    requires FreeQ in v.queues && v.queues[FreeQ] != [] && v.queues[FreeQ][0] < |v.pcb|
  {
    var p := v.queues[FreeQ][0];
    PcbView(v.queues[FreeQ := v.queues[FreeQ][1..]],
            v.kids[p := []],
            v.pcb[p := Pcb(None, junk, 0, None, 0, v.nextPid)],
            v.nextPid + 1)
  }

  lemma AllocCoherent(v: PcbView, junk: Context)
    requires Coherent(v) && v.queues[FreeQ] != [] && NoDup(v.queues[FreeQ])
    ensures v.queues[FreeQ][0] < |v.pcb|
    ensures Coherent(Alloc(v, junk))
    ensures Loose(v.kids, v.queues[FreeQ][0])
  {
    var p := v.queues[FreeQ][0];
    assert p in v.queues[FreeQ] && Unrelated(v, p);
    FamilyReset(v.kids, v.pcb, p, Pcb(None, junk, 0, None, 0, v.nextPid));
    var v' := Alloc(v, junk);
    forall x | x in v'.queues[FreeQ]
      ensures Unrelated(v', x)
    {
      assert x in v.queues[FreeQ] && Unrelated(v, x);
    }
  }

  class PcbTable {
    const plist: Rings<Queue>
    const psib: Rings<nat>
    var pcb: seq<Pcb>
    var nextPid: int
    ghost var queues: map<Queue, seq<nat>>
    ghost var kids: map<nat, seq<nat>>

    ghost function View(): PcbView
      reads this
    {
      PcbView(queues, kids, pcb, nextPid)
    }

    ghost predicate Valid()
      reads this, plist, psib
    {
      && plist as object != psib && plist.Valid() && psib.Valid()
      && queues == plist.rings && kids == psib.rings
      && Coherent(View())
    }

    lemma QueuesDisjoint()
      requires Valid()
      ensures forall g, h, x :: g in queues && h in queues && x in queues[g] && x in queues[h] ==> g == h
    {
    }

    constructor (maxproc: nat)
      ensures Valid() && fresh(this) && fresh(plist) && fresh(psib)
      ensures View() == PcbView(map[FreeQ := Range(0, maxproc)], map[], seq(maxproc, _ => BLANK), 1)
    {
      plist := new Rings<Queue>();
      psib := new Rings<nat>();
      pcb := seq(maxproc, _ => BLANK);
      nextPid := 1;
      new;
      InitPcbs(maxproc);
      queues, kids := plist.rings, psib.rings;
    }

    /** initPcbs: every PCB of the table, in order, on the free list. */
    method InitPcbs(maxproc: nat)
      requires plist.Valid() && plist.rings == map[]
      modifies plist
      ensures plist.Valid() && plist.rings == map[FreeQ := Range(0, maxproc)]
    {
      plist.InitHead(FreeQ);
      var i := 0;
      while i < maxproc
        invariant 0 <= i <= maxproc && plist.Valid()
        invariant plist.rings == map[FreeQ := Range(0, i)]
      {
        plist.InitNode(i);
        plist.AddTail(i, FreeQ);
        RangeNext(0, i);
        i := i + 1;
      }
    }

    /** freePcb: p goes to the end of the free list. */
    method FreePcb(p: nat)
      requires Valid() && p < |pcb| && Loose(queues, p)
      requires pcb[p].parent == None && (p in kids ==> kids[p] == [])
      modifies this`queues, plist
      ensures Valid()
      ensures View() == old(View()).(queues := old(queues)[FreeQ := old(queues)[FreeQ] + [p]])
    {
      hide Listx.Linked;
      plist.AddTail(p, FreeQ);
      queues := plist.rings;
    }

    /** allocPcb: the first free PCB, wiped, with a new pid; junk is the uninitialised local state. */
    method AllocPcb(junk: Context) returns (r: Option<nat>)
      requires Valid()
      modifies this, plist, psib
      ensures Valid()
      ensures r == if old(queues)[FreeQ] == [] then None else Some(old(queues)[FreeQ][0])
      ensures r.Some? ==> r.value < |old(pcb)|
      ensures View() == if r == None then old(View()) else old(Alloc(View(), junk))
    {
      hide Listx.Linked;
      var none := plist.Empty(FreeQ);
      if none {
        return None;
      }
      ghost var free := queues[FreeQ];
      var node := plist.First(FreeQ);
      var p := node.id;
      assert p == free[0] && free[0] in free;
      AllocCoherent(View(), junk);
      hide Coherent, Rings.Valid;
      plist.Del(p, FreeQ);
      queues := plist.rings;
      MinusFirst(free);
      plist.InitNode(p);
      psib.InitHead(p);
      kids := psib.rings;
      psib.InitNode(p);
      pcb := pcb[p := Pcb(None, junk, 0, None, 0, nextPid)];
      nextPid := nextPid + 1;
      return Some(p);
    }

    /** An assignment to fields of p other than p_parent. */
    method Store(p: nat, b: Pcb)
      requires Valid() && p < |pcb| && b.parent == pcb[p].parent
      modifies this`pcb
      ensures Valid() && View() == old(View()).(pcb := old(pcb)[p := b])
    {
      FamilySame(kids, pcb, pcb[p := b]);
      pcb := pcb[p := b];
    }

    /** mkEmptyProcQ */
    method MkEmptyProcQ(h: Queue)
      requires Valid() && (h in queues ==> queues[h] == [])
      modifies this`queues, plist
      ensures Valid() && View() == old(View()).(queues := old(queues)[h := []])
    {
      plist.InitHead(h);
      queues := plist.rings;
    }

    /** emptyProcQ */
    method EmptyProcQ(h: Queue) returns (b: bool)
      requires Valid() && h in queues
      ensures b <==> queues[h] == []
    {
      b := plist.Empty(h);
    }

    /** insertProcQ: p becomes the last of queue h. */
    method InsertProcQ(h: Queue, p: nat)
      requires Valid() && h in queues && p < |pcb| && Loose(queues, p)
      requires h != FreeQ
      modifies this`queues, plist
      ensures Valid()
      ensures View() == old(View()).(queues := old(queues)[h := old(queues)[h] + [p]])
    {
      plist.AddTail(p, h);
      queues := plist.rings;
    }

    /** headProcQ */
    method HeadProcQ(h: Queue) returns (r: Option<nat>)
      requires Valid() && h in queues
      ensures r == if queues[h] == [] then None else Some(queues[h][0])
    {
      var none := plist.Empty(h);
      if none {
        return None;
      }
      var node := plist.First(h);
      return Some(node.id);
    }

    /** removeProcQ: the first of queue h leaves it. */
    method RemoveProcQ(h: Queue) returns (r: Option<nat>)
      requires Valid() && h in queues
      modifies this`queues, plist
      ensures Valid()
      ensures r == if old(queues)[h] == [] then None else Some(old(queues)[h][0])
      ensures r == None ==> View() == old(View())
      ensures r.Some? ==> View() == old(View()).(queues := old(queues)[h := old(queues)[h][1..]])
    {
      r := HeadProcQ(h);
      if r.Some? {
        ghost var s := queues[h];
        plist.Del(r.value, h);
        queues := plist.rings;
        MinusFirst(s);
      }
    }

    /** outProcQ: p leaves queue h if, and only if, it is there. */
    method OutProcQ(h: Queue, p: nat) returns (r: Option<nat>)
      requires Valid() && h in queues
      modifies this`queues, plist
      ensures Valid()
      ensures r == if p in old(queues)[h] then Some(p) else None
      ensures r == None ==> View() == old(View())
      ensures View() == old(View()).(queues := old(queues)[h := Minus(old(queues)[h], {p})])
    {
      hide Listx.Linked;
      ghost var s := queues[h];
      var pos := plist.First(h);
      ghost var i := 0;
      while pos != Head(h)
        invariant 0 <= i <= |s| && pos == At(h, s, i)
        invariant forall j :: 0 <= j < i ==> s[j] != p
        invariant Valid() && View() == old(View())
        decreases |s| - i
      {
        if pos.id == p {
          plist.Del(p, h);
          queues := plist.rings;
          return Some(p);
        }
        pos := plist.Advance(pos, h, i);
        i := i + 1;
      }
      MinusNone(s, {p});
      return None;
    }

    /** emptyChild */
    method EmptyChild(p: nat) returns (b: bool)
      requires Valid() && p in kids
      ensures b <==> kids[p] == []
    {
      b := psib.Empty(p);
    }

    /** insertChild: p becomes the youngest child of q. */
    method InsertChild(q: nat, p: nat)
      requires Valid() && q in kids && p < |pcb| && pcb[p].parent == None
      requires p !in queues[FreeQ] && q !in queues[FreeQ]
      modifies this`pcb, this`kids, psib
      ensures Valid()
      ensures View() == old(View()).(kids := old(kids)[q := old(kids)[q] + [p]],
                                     pcb := old(pcb)[p := old(pcb)[p].(parent := Some(q))])
    {
      FamilyAdd(kids, pcb, q, p);
      pcb := pcb[p := pcb[p].(parent := Some(q))];
      psib.AddTail(p, q);
      kids := psib.rings;
    }

    /** removeChild: the eldest child of p leaves the tree. */
    method RemoveChild(p: nat) returns (r: Option<nat>)
      requires Valid() && p in kids
      modifies this`pcb, this`kids, psib
      ensures Valid()
      ensures r == if old(kids)[p] == [] then None else Some(old(kids)[p][0])
      ensures r == None ==> View() == old(View())
      ensures r.Some? ==>
        r.value < |old(pcb)| &&
        View() == old(View()).(kids := old(kids)[p := old(kids)[p][1..]],
                                  pcb := old(pcb)[r.value := old(pcb)[r.value].(parent := None)])
    {
      var none := EmptyChild(p);
      if none {
        return None;
      }
      ghost var s := kids[p];
      var node := psib.First(p);
      var c := node.id;
      assert c == s[0] && c in s && IsParent(pcb, p, c);
      FamilyRemove(kids, pcb, p, c);
      psib.Del(c, p);
      kids := psib.rings;
      MinusFirst(s);
      pcb := pcb[c := pcb[c].(parent := None)];
      return Some(c);
    }

    /** outChild: p leaves its parent's list of children; nothing happens when it has no parent. */
    method OutChild(p: nat) returns (r: Option<nat>)
      requires Valid() && p < |pcb|
      modifies this`pcb, this`kids, psib
      ensures Valid()
      ensures r == if old(pcb)[p].parent == None then None else Some(p)
      ensures r == None ==> View() == old(View())
      ensures r.Some? ==>
        var q := old(pcb)[p].parent.value;
        && q in old(kids)
        && View() == old(View()).(kids := old(kids)[q := Minus(old(kids)[q], {p})],
                                  pcb := old(pcb)[p := old(pcb)[p].(parent := None)])
    {
      if pcb[p].parent == None {
        return None;
      }
      ghost var q := pcb[p].parent.value;
      FamilyRemove(kids, pcb, q, p);
      psib.Del(p, q);
      kids := psib.rings;
      pcb := pcb[p := pcb[p].(parent := None)];
      return Some(p);
    }
  }
}
