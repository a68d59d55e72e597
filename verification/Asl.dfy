/** The active semaphore list (phase1/asl.c). */
module Asl {
  import opened Listx
  import opened Seqs
  import opened Types
  import opened Procs
  import Pcbs

  /** The sentinels of rings over s_link: semdFree_h and semd_h. */
  datatype SemList = FreeSems | ActiveSems

  /**
    The descriptor table as a value: the two lists of descriptors, the keys, the queues, and
    the descriptor that holds each key in use.
  */
  datatype AslView = AslView(sems: map<SemList, seq<nat>>, skey: seq<Option<Key>>,
                             queues: map<Queue, seq<nat>>, desc: map<Key, nat>)

  /** Descriptor d is active, and k is its key. */
  ghost predicate Holds(v: AslView, d: nat, k: Key) {
    && ActiveSems in v.sems && d in v.sems[ActiveSems]
    && d < |v.skey| && v.skey[d] == Some(k)
    && SemQ(d) in v.queues
  }

  /**
    Every descriptor is on exactly one of the two lists. The active ones have distinct keys
    and, odd possibly excepted, non-empty queues; the free ones have no queue.
  */
  ghost predicate Sound(v: AslView, odd: int) {
    && v.sems.Keys == {FreeSems, ActiveSems}
    && NoDup(v.sems[FreeSems]) && NoDup(v.sems[ActiveSems])
    && (forall d :: d in v.sems[FreeSems] ==> d < |v.skey| && d !in v.sems[ActiveSems])
    && (forall d :: 0 <= d < |v.skey| ==> d in v.sems[FreeSems] || d in v.sems[ActiveSems])
    && (forall k :: k in v.desc ==> Holds(v, v.desc[k], k))
    && (forall d :: d in v.sems[ActiveSems] ==>
          d < |v.skey| && v.skey[d].Some? && v.skey[d].value in v.desc && v.desc[v.skey[d].value] == d)
    && (forall d :: d in v.sems[ActiveSems] && d != odd ==> SemQ(d) in v.queues && v.queues[SemQ(d)] != [])
    && (forall d: nat :: SemQ(d) in v.queues && v.queues[SemQ(d)] != [] ==> d in v.sems[ActiveSems])
  }

  ghost function QueueOf(queues: map<Queue, seq<nat>>, h: Queue): seq<nat> {
    if h in queues then queues[h] else []
  }

  /** The map from keys to queues that the descriptors stand for. */
  ghost function Blocked(v: AslView): Queues {
    map k | k in v.desc :: QueueOf(v.queues, SemQ(v.desc[k]))
  }

  /** The active descriptors are as many as the keys in use, so the pool holds all the others. */
  lemma PoolSize(v: AslView)
    requires Sound(v, -1)
    ensures |v.sems[FreeSems]| + |Blocked(v)| == |v.skey|
  {
    var free, active := v.sems[FreeSems], v.sems[ActiveSems];
    CardElems(free);
    CardElems(active);
    var all := Range(0, |v.skey|);
    CardElems(all);
    assert Elems(all) == Elems(free) + Elems(active);
    assert Elems(free) !! Elems(active);
    CardImage(v.desc, Elems(active));
    assert Blocked(v).Keys == v.desc.Keys;
  }

  lemma PoolEmpty(v: AslView)
    requires Sound(v, -1)
    ensures v.sems[FreeSems] == [] <==> |Blocked(v)| == |v.skey|
  {
    PoolSize(v);
  }

  /** An injective map has as many keys as values. */
  lemma {:induction false} CardImage(m: map<Key, nat>, s: set<nat>)
    requires forall k :: k in m ==> m[k] in s
    requires forall d :: d in s ==> exists k :: k in m && m[k] == d
    requires forall j, k :: j in m && k in m && m[j] == m[k] ==> j == k
    ensures |m.Keys| == |s|
    decreases |s|
  {
    if s == {} {
      assert m.Keys == {};
    } else {
      var d :| d in s;
      var k :| k in m && m[k] == d;
      var rest := m - {k};
      forall e | e in s - {d}
        ensures exists j :: j in rest && rest[j] == e
      {
        var j :| j in m && m[j] == e;
        assert j in rest && rest[j] == e;
      }
      CardImage(rest, s - {d});
      assert m.Keys == rest.Keys + {k};
    }
  }

  lemma SoundLists(v: AslView, odd: int)
    requires Sound(v, odd)
    ensures v.sems.Keys == {FreeSems, ActiveSems}
  {
  }

  lemma SoundAt(v: AslView, d: nat)
    requires Sound(v, -1)
    ensures Sound(v, d)
  {
  }

  lemma SoundQueues(v: AslView)
    requires Sound(v, -1)
    ensures forall k :: k in v.desc ==>
      SemQ(v.desc[k]) in v.queues && v.desc[k] in v.sems[ActiveSems] && Blocked(v)[k] != []
    ensures forall j, k :: j in v.desc && k in v.desc && v.desc[j] == v.desc[k] ==> j == k
    ensures forall d :: d in v.sems[ActiveSems] ==>
      d < |v.skey| && v.skey[d].Some? && v.skey[d].value in v.desc && v.desc[v.skey[d].value] == d
  {
    forall k | k in v.desc
      ensures SemQ(v.desc[k]) in v.queues && v.desc[k] in v.sems[ActiveSems] && Blocked(v)[k] != []
    {
      KeyHeld(v, -1, k);
    }
    assert forall k :: k in v.desc ==> Holds(v, v.desc[k], k);
  }

  /** The free list and the ready queue are no concern of the descriptors. */
  lemma SoundOther(v: AslView, h: Queue, s: seq<nat>)
    requires Sound(v, -1) && !h.SemQ?
    ensures Sound(v.(queues := v.queues[h := s]), -1)
    ensures Blocked(v.(queues := v.queues[h := s])) == Blocked(v)
  {
    var w := v.(queues := v.queues[h := s]);
    forall k | k in v.desc
      ensures Holds(w, v.desc[k], k)
    {
      assert Holds(v, v.desc[k], k);
    }
  }

  /** Whoever is neither free nor ready nor blocked is in no queue at all. */
  lemma NowhereLoose(v: AslView, x: nat)
    requires Sound(v, -1)
    requires x !in QueueOf(v.queues, FreeQ) && x !in QueueOf(v.queues, ReadyQ) && !Queued(Blocked(v), x)
    ensures Loose(v.queues, x)
  {
    forall h | h in v.queues
      ensures x !in v.queues[h]
    {
      if h.SemQ? && v.queues[h] != [] {
        var d := h.descriptor;
        assert d in v.sems[ActiveSems];
        var k := v.skey[d].value;
        assert k in Blocked(v) && Blocked(v)[k] == v.queues[h];
      }
    }
  }

  /** With its queue filled, the odd descriptor is no longer odd. */
  lemma SoundFilled(v: AslView, k: Key)
    requires k in v.desc && Sound(v, v.desc[k])
    ensures QueueOf(v.queues, SemQ(v.desc[k])) != [] ==> Sound(v, -1)
    ensures Blocked(v) == Blocked(v)[k := QueueOf(v.queues, SemQ(v.desc[k]))]
  {
  }

  lemma KeyHeld(v: AslView, odd: int, k: Key)
    requires Sound(v, odd) && k in v.desc
    ensures Holds(v, v.desc[k], k) && v.desc[k] in v.sems[ActiveSems]
    ensures odd == -1 ==> v.queues[SemQ(v.desc[k])] != [] && Blocked(v)[k] != []
  {
    assert Holds(v, v.desc[k], k);
  }

  /** The queue of k becomes s, possibly empty. */
  lemma SoundPut(v: AslView, odd: int, k: Key, s: seq<nat>)
    requires Sound(v, odd) && k in v.desc && (odd == -1 || odd == v.desc[k])
    ensures
      var d := v.desc[k];
      var v' := v.(queues := v.queues[SemQ(d) := s]);
      && Sound(v', d) && (s != [] ==> Sound(v', -1))
      && Blocked(v') == Blocked(v)[k := s]
  {
    var d := v.desc[k];
    var v' := v.(queues := v.queues[SemQ(d) := s]);
    assert Holds(v, d, k);
    forall j | j in v.desc
      ensures Holds(v', v.desc[j], j)
    {
      assert Holds(v, v.desc[j], j);
    }
  }

  /** The first descriptor of the pool becomes active, with key k and an empty queue. */
  ghost function Taken(v: AslView, k: Key): AslView
    requires FreeSems in v.sems && ActiveSems in v.sems
    requires v.sems[FreeSems] != [] && v.sems[FreeSems][0] < |v.skey|
  {
    var d := v.sems[FreeSems][0];
    AslView(v.sems[FreeSems := v.sems[FreeSems][1..]][ActiveSems := v.sems[ActiveSems] + [d]],
            v.skey[d := Some(k)], v.queues[SemQ(d) := []], v.desc[k := d])
  }

  lemma SoundTake(v: AslView, k: Key)
    requires Sound(v, -1) && k !in v.desc && v.sems[FreeSems] != []
    ensures v.sems.Keys == {FreeSems, ActiveSems} && NoDup(v.sems[FreeSems])
    ensures
      var d := v.sems[FreeSems][0];
      && d < |v.skey| && QueueOf(v.queues, SemQ(d)) == []
      && Sound(Taken(v, k), d)
  {
    var d := v.sems[FreeSems][0];
    assert d in v.sems[FreeSems];
    MinusFirst(v.sems[FreeSems]);
    TakenBlocked(v, k);
    var v' := Taken(v, k);
    forall j | j in v'.desc
      ensures Holds(v', v'.desc[j], j)
    {
      if j != k {
        assert Holds(v, v.desc[j], j);
      }
    }
  }

  lemma TakenBlocked(v: AslView, k: Key)
    requires Sound(v, -1) && k !in v.desc && v.sems[FreeSems] != []
    ensures v.sems[FreeSems][0] < |v.skey|
    ensures forall j :: j in v.desc ==> v.desc[j] != v.sems[FreeSems][0]
    ensures Blocked(Taken(v, k)) == Blocked(v)[k := []]
  {
    var d := v.sems[FreeSems][0];
    assert d in v.sems[FreeSems];
    forall j | j in v.desc
      ensures v.desc[j] != d
    {
      assert Holds(v, v.desc[j], j);
    }
  }

  /** An active descriptor whose queue became empty goes back to the pool. */
  ghost function Released(v: AslView, k: Key): AslView
    requires FreeSems in v.sems && ActiveSems in v.sems && k in v.desc
  {
    var d := v.desc[k];
    v.(sems := v.sems[ActiveSems := Minus(v.sems[ActiveSems], {d})][FreeSems := v.sems[FreeSems] + [d]],
       desc := v.desc - {k})
  }

  lemma SoundRelease(v: AslView, k: Key)
    requires k in v.desc && Sound(v, v.desc[k])
    requires QueueOf(v.queues, SemQ(v.desc[k])) == []
    ensures Sound(Released(v, k), -1) && Blocked(Released(v, k)) == Blocked(v) - {k}
    ensures v.desc[k] in v.sems[ActiveSems] && v.desc[k] !in v.sems[FreeSems]
  {
    var d := v.desc[k];
    var v' := Released(v, k);
    assert Holds(v, d, k);
    forall j | j in v'.desc
      ensures Holds(v', v'.desc[j], j)
    {
      assert Holds(v, v.desc[j], j);
    }
    NoDupAppend(v.sems[FreeSems], [d]);
  }

  /** p leaves the queue of k. */
  lemma WaiterLeaves(v: AslView, k: Key, p: nat)
    requires Sound(v, -1) && k in v.desc && WaitsOn(v.queues, v.desc[k], p)
    requires forall g, h :: g in v.queues && h in v.queues && p in v.queues[g] && p in v.queues[h] ==> g == h
    ensures Queued(Blocked(v), p) && SemQ(v.desc[k]) in v.queues
    ensures
      var s := Minus(v.queues[SemQ(v.desc[k])], {p});
      var v' := v.(queues := v.queues[SemQ(v.desc[k]) := s]);
      Sound(v', v.desc[k]) && SetQueue(Blocked(v'), k, s) == Purge(Blocked(v), {p})
  {
    hide Sound;
    SoundQueues(v);
    var b, s := Blocked(v), Minus(v.queues[SemQ(v.desc[k])], {p});
    assert b[k] == v.queues[SemQ(v.desc[k])];
    SoundPut(v, -1, k, s);
    SetQueueAfter(b, k, s);
    PurgeOne(b, k, p);
  }

  ghost predicate WaitsOn(queues: map<Queue, seq<nat>>, d: nat, p: nat) {
    p in QueueOf(queues, SemQ(d))
  }

  lemma NoneQueued(v: AslView, p: nat)
    requires Sound(v, -1)
    requires forall j :: 0 <= j < |v.sems[ActiveSems]| ==> !WaitsOn(v.queues, v.sems[ActiveSems][j], p)
    ensures !Queued(Blocked(v), p) && Purge(Blocked(v), {p}) == Blocked(v)
  {
    forall k | k in Blocked(v)
      ensures p !in Blocked(v)[k] && Blocked(v)[k] != []
    {
      KeyHeld(v, -1, k);
      var j :| 0 <= j < |v.sems[ActiveSems]| && v.sems[ActiveSems][j] == v.desc[k];
      assert !WaitsOn(v.queues, v.sems[ActiveSems][j], p);
    }
    PurgeNone(Blocked(v), {p});
  }

  class SemaphoreList {
    const table: Pcbs.PcbTable
    const slink: Rings<SemList>
    var skey: seq<Option<Key>>
    ghost var desc: map<Key, nat>

    ghost function Sems(): AslView
      reads this, slink, table
    {
      AslView(slink.rings, skey, table.queues, desc)
    }

    ghost predicate Apart()
      reads this
    {
      && slink as object != table && slink as object != table.plist && slink as object != table.psib
      && this as object != table && this as object != table.plist && this as object != table.psib
    }

    ghost predicate Valid()
      reads this, slink, table, table.plist, table.psib
    {
      Apart() && table.Valid() && slink.Valid() && Sound(Sems(), -1)
    }

    /** The process table that the structures of phase 1 stand for. */
    ghost function View(): Procs
      reads this, slink, table
    {
      Procs(QueueOf(table.queues, FreeQ), QueueOf(table.queues, ReadyQ), Blocked(Sems()),
            table.kids, table.pcb, table.nextPid)
    }

    /** initASL: every descriptor of the table, in order, on the free list. */
    constructor (table: Pcbs.PcbTable, maxproc: nat)
      requires table.Valid() && table.queues.Keys == {FreeQ}
      ensures Valid() && this.table == table && fresh(this) && fresh(slink)
      ensures |skey| == maxproc && desc == map[]
    {
      this.table := table;
      slink := new Rings<SemList>();
      skey := seq(maxproc, _ => None);
      desc := map[];
      new;
      FillPool(maxproc);
      assert forall d :: SemQ(d) !in table.queues.Keys;
    }

    method FillPool(maxproc: nat)
      requires slink.Valid() && slink.rings == map[]
      modifies slink
      ensures slink.Valid() && slink.rings == map[FreeSems := Range(0, maxproc), ActiveSems := []]
    {
      hide Listx.Linked;
      slink.InitHead(FreeSems);
      slink.InitHead(ActiveSems);
      var i := 0;
      while i < maxproc
        invariant 0 <= i <= maxproc && slink.Valid()
        invariant slink.rings == map[FreeSems := Range(0, i), ActiveSems := []]
      {
        RangeNext(0, i);
        slink.AddTail(i, FreeSems);
        i := i + 1;
      }
    }

    /** findSem: the active descriptor with key k. */
    method FindSem(k: Key) returns (r: Option<nat>)
      requires slink.Valid() && Sound(Sems(), -1)
      ensures r == if k in desc then Some(desc[k]) else None
    {
      hide Rings.Valid;
      ghost var active := slink.rings[ActiveSems];
      var pos := slink.First(ActiveSems);
      ghost var i := 0;
      while pos != Head(ActiveSems)
        invariant 0 <= i <= |active| && pos == At(ActiveSems, active, i)
        invariant forall j :: 0 <= j < i ==> active[j] in active && skey[active[j]] != Some(k)
        decreases |active| - i
      {
        assert active[i] in active;
        if skey[pos.id] == Some(k) {
          return Some(pos.id);
        }
        pos := slink.Advance(pos, ActiveSems, i);
        i := i + 1;
      }
      if k in desc {
        KeyHeld(Sems(), -1, k);
      }
      return None;
    }

    /** The pool's first descriptor leaves semdFree_h for the end of semd_h. */
    method MoveFirst() returns (d: nat)
      requires slink.Valid() && slink.rings.Keys == {FreeSems, ActiveSems} && slink.rings[FreeSems] != []
      modifies slink
      ensures slink.Valid() && d == old(slink.rings)[FreeSems][0]
      ensures slink.rings == old(slink.rings)[FreeSems := old(slink.rings)[FreeSems][1..]]
                                             [ActiveSems := old(slink.rings)[ActiveSems] + [d]]
    {
      ghost var free := slink.rings[FreeSems];
      assert NoDup(free);
      MinusFirst(free);
      hide Rings.Valid;
      var node := slink.First(FreeSems);
      d := node.id;
      assert free[0] in free;
      slink.Del(d, FreeSems);
      slink.InitNode(d);
      slink.AddTail(d, ActiveSems);
    }

    /** The pool's first descriptor, made active for k with an empty queue. */
    method TakeSem(k: Key) returns (d: nat)
      requires Valid() && k !in desc && slink.rings[FreeSems] != []
      modifies this, slink, table`queues, table.plist
      ensures Apart() && table.Valid() && slink.Valid()
      ensures FreeSems in old(slink.rings) && d == old(slink.rings)[FreeSems][0] && d < old(|skey|)
      ensures Sems() == Taken(old(Sems()), k) && Sound(Sems(), d)
    {
      hide Sound, Pcbs.PcbTable.Valid, Rings.Valid;
      SoundTake(Sems(), k);
      d := MoveFirst();
      skey := skey[d := Some(k)];
      table.MkEmptyProcQ(SemQ(d));
      desc := desc[k := d];
    }

    /** The descriptor of k: the active one, or else the pool's first; None when the pool is empty. */
    method GetSem(k: Key) returns (r: Option<nat>)
      requires Valid()
      modifies this, slink, table`queues, table.plist
      ensures Apart() && table.Valid() && slink.Valid() && |skey| == old(|skey|)
      ensures r == None <==> k !in old(View()).blocked && old(slink.rings)[FreeSems] == []
      ensures r == None ==> Sems() == old(Sems())
      ensures old(table.queues).Keys <= table.queues.Keys
      ensures r.Some? ==> Sound(Sems(), r.value) && k in desc && desc[k] == r.value
      ensures r.Some? ==>
        var s := Waiting(old(View()).blocked, k);
        && table.queues == old(table.queues)[SemQ(r.value) := s]
        && QueueOf(old(table.queues), SemQ(r.value)) == s
        && Blocked(Sems()) == old(View()).blocked[k := s]
    {
      hide Sound, Pcbs.PcbTable.Valid, Rings.Valid;
      SoundLists(Sems(), -1);
      assert k in desc <==> k in View().blocked;
      r := FindSem(k);
      if r == None {
        var none := slink.Empty(FreeSems);
        if !none {
          TakenBlocked(Sems(), k);
          SoundTake(Sems(), k);
          hide Blocked;
          var d := TakeSem(k);
          r := Some(d);
        }
      } else {
        KeyHeld(Sems(), -1, k);
        SoundAt(Sems(), r.value);
      }
    }

    /** insertBlocked: p waits on k, unless k is new and the pool is empty. */
    method InsertBlocked(k: Key, p: nat) returns (full: bool)
      requires Valid() && p < |table.pcb| && Loose(table.queues, p)
      modifies this, slink, table`pcb, table`queues, table.plist
      ensures Valid() && |skey| == old(|skey|)
      ensures old(table.queues).Keys <= table.queues.Keys
      ensures full <==> k !in old(View()).blocked && |old(View()).blocked| == |skey|
      ensures full ==> View() == old(View()) && Sems() == old(Sems())
      ensures !full ==> View() == Park(old(View()), k, p)
    {
      hide Sound, Pcbs.PcbTable.Valid, Rings.Valid, Blocked;
      SoundLists(Sems(), -1);
      PoolEmpty(Sems());
      var found := GetSem(k);
      if found == None {
        return true;
      }
      var d := found.value;
      table.Store(p, table.pcb[p].(semAdd := Some(k)));
      ghost var s := table.queues[SemQ(d)] + [p];
      SoundPut(Sems(), d, k, s);
      UpdateTwice(old(View()).blocked, k, table.queues[SemQ(d)], s);
      table.InsertProcQ(SemQ(d), p);
      assert Blocked(Sems()) == old(View()).blocked[k := s];
      return false;
    }

    /** freeSemIfEmpty: descriptor d goes back to the pool if nobody waits on it any more. */
    method FreeSemIfEmpty(d: nat, ghost k: Key)
      requires Apart() && table.Valid() && slink.Valid() && Sound(Sems(), d)
      requires k in desc && d == desc[k] && SemQ(d) in table.queues
      modifies this`desc, slink
      ensures Valid()
      ensures View() == old(View()).(blocked := SetQueue(old(View()).blocked, k, table.queues[SemQ(d)]))
    {
      hide Sound, Pcbs.PcbTable.Valid, Rings.Valid, Blocked;
      SoundLists(Sems(), d);
      SoundFilled(Sems(), k);
      var none := table.EmptyProcQ(SemQ(d));
      if none {
        SoundRelease(Sems(), k);
        slink.Del(d, ActiveSems);
        slink.AddTail(d, FreeSems);
        desc := desc - {k};
      }
    }

    /** removeBlocked: the longest waiter on k, if any, stops waiting. */
    method RemoveBlocked(k: Key) returns (r: Option<nat>)
      requires Valid()
      modifies this`desc, slink, table`queues, table.plist
      ensures Valid()
      ensures old(table.queues).Keys <= table.queues.Keys
      ensures r == None <==> k !in old(View()).blocked
      ensures r == None ==> View() == old(View())
      ensures r.Some? ==>
        var b := old(View()).blocked;
        && b[k] != [] && r == Some(b[k][0])
        && View() == old(View()).(blocked := SetQueue(b, k, b[k][1..]))
    {
      hide Sound, Pcbs.PcbTable.Valid, Rings.Valid;
      assert k in desc <==> k in View().blocked;
      var found := FindSem(k);
      if found == None {
        return None;
      }
      var d := found.value;
      KeyHeld(Sems(), -1, k);
      ghost var b, s := View().blocked, table.queues[SemQ(d)];
      assert k in b && b[k] == s && s != [];
      SoundPut(Sems(), -1, k, s[1..]);
      SetQueueAfter(b, k, s[1..]);
      hide SetQueue, Blocked;
      r := table.RemoveProcQ(SemQ(d));
      FreeSemIfEmpty(d, k);
    }

    /** headBlocked: the longest waiter on k. */
    method HeadBlocked(k: Key) returns (r: Option<nat>)
      requires Valid()
      ensures r == if k in View().blocked then Some(View().blocked[k][0]) else None
    {
      hide Sound, Pcbs.PcbTable.Valid, Rings.Valid;
      var found := FindSem(k);
      if found == None {
        return None;
      }
      KeyHeld(Sems(), -1, k);
      r := table.HeadProcQ(SemQ(found.value));
    }

    /** One round of the loop of outBlocked: p leaves the queue of active descriptor d, if it is there. */
    method OutOne(d: nat, p: nat) returns (out: Option<nat>)
      requires Valid() && ActiveSems in slink.rings && d in slink.rings[ActiveSems]
      modifies this`desc, slink, table`queues, table.plist
      ensures Valid()
      ensures old(table.queues).Keys <= table.queues.Keys
      ensures out == if old(WaitsOn(table.queues, d, p)) then Some(p) else None
      ensures out == None ==> View() == old(View()) && Sems() == old(Sems())
      ensures out.Some? ==>
        Queued(old(View()).blocked, p) && View() == old(View()).(blocked := Purge(old(View()).blocked, {p}))
    {
      hide Sound, Pcbs.PcbTable.Valid, Rings.Valid, Blocked, Purge, Queued, SetQueue;
      SoundQueues(Sems());
      table.QueuesDisjoint();
      ghost var v := Sems();
      out := table.OutProcQ(SemQ(d), p);
      if out != None {
        WaiterLeaves(v, skey[d].value, p);
        FreeSemIfEmpty(d, skey[d].value);
      }
    }

    /** outBlocked: p stops waiting, whatever it waits on. */
    method OutBlocked(p: nat) returns (r: Option<nat>)
      requires Valid()
      modifies this`desc, slink, table`queues, table.plist
      ensures Valid()
      ensures old(table.queues).Keys <= table.queues.Keys
      ensures r == if Queued(old(View()).blocked, p) then Some(p) else None
      ensures View() == old(View()).(blocked := Purge(old(View()).blocked, {p}))
    {
      hide Sound, Pcbs.PcbTable.Valid, Rings.Valid, Blocked, Purge, Queued;
      SoundLists(Sems(), -1);
      ghost var active := slink.rings[ActiveSems];
      var pos := slink.First(ActiveSems);
      ghost var i := 0;
      while pos != Head(ActiveSems)
        invariant 0 <= i <= |active| && pos == At(ActiveSems, active, i)
        invariant Valid() && View() == old(View()) && Sems() == old(Sems())
        invariant forall j :: 0 <= j < i ==> !WaitsOn(table.queues, active[j], p)
        decreases |active| - i
      {
        assert active[i] in active;
        r := OutOne(pos.id, p);
        if r != None {
          return r;
        }
        pos := slink.Advance(pos, ActiveSems, i);
        i := i + 1;
      }
      NoneQueued(Sems(), p);
      return None;
    }
  }
}
