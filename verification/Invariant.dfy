/** Every step keeps the kernel's invariant. */
module Invariant {
  import opened Seqs
  import opened Types
  import opened Procs
  import opened Forest
  import opened Removal
  import opened Devices
  import opened State

  lemma ParkWf(t: Procs, k: Key, x: nat, b: Pcb)
    requires Wf(t) && Unqueued(t, x) && x < |t.pcb|
    requires b.parent == t.pcb[x].parent && b.pid == t.pcb[x].pid && b.semAdd == Some(k)
    ensures
      var w := t.(blocked := t.blocked[k := Waiting(t.blocked, k) + [x]], pcb := t.pcb[x := b]);
      Wf(w) && BlockedSet(w) == BlockedSet(t) + {x} && x !in BlockedSet(t)
  {
    var w := t.(blocked := t.blocked[k := Waiting(t.blocked, k) + [x]], pcb := t.pcb[x := b]);
    TreeFrame(t, w);
    assert forall j :: j in t.blocked ==> x !in t.blocked[j];
    NoDupAppend(Waiting(t.blocked, k), [x]);
    forall y | y in w.free
      ensures FreeIn(w, y)
    {
      assert FreeIn(t, y);
    }
    forall j, y | j in w.blocked && y in w.blocked[j]
      ensures BlockedIn(w, j, y)
    {
      if y != x {
        assert j in t.blocked && y in t.blocked[j];
        assert BlockedIn(t, j, y);
      }
    }
    forall y
      ensures Queued(w.blocked, y) <==> Queued(t.blocked, y) || y == x
    {
      if y == x {
        assert x in w.blocked[k];
      } else if Queued(t.blocked, y) {
        var j :| j in t.blocked && y in t.blocked[j];
        assert y in w.blocked[j];
      }
    }
  }

  lemma WakeWf(t: Procs, k: Key)
    requires Wf(t) && k in t.blocked && t.blocked[k] != []
    ensures
      var q := t.blocked[k];
      var w := t.(blocked := SetQueue(t.blocked, k, q[1..]), ready := t.ready + [q[0]]);
      && q[0] in q && BlockedIn(t, k, q[0]) && Wf(w)
      && BlockedSet(w) == BlockedSet(t) - {q[0]} && q[0] in BlockedSet(t)
  {
    var q := t.blocked[k];
    var x := q[0];
    var w := t.(blocked := SetQueue(t.blocked, k, q[1..]), ready := t.ready + [x]);
    assert x in q && BlockedIn(t, k, x);
    MinusFirst(q);
    TreeFrame(t, w);
    NoDupAppend(t.ready, [x]);
    forall y | y in w.free
      ensures FreeIn(w, y)
    {
      assert FreeIn(t, y);
    }
    forall j, y | j in w.blocked && y in w.blocked[j]
      ensures BlockedIn(w, j, y) && y != x
    {
      assert BlockedIn(t, j, y);
    }
    forall y
      ensures Queued(w.blocked, y) <==> Queued(t.blocked, y) && y != x
    {
      if Queued(t.blocked, y) && y != x {
        var j :| j in t.blocked && y in t.blocked[j];
        assert y in w.blocked[j];
      }
    }
    assert Queued(t.blocked, x);
  }

  /** Only x changed its queue, and x is on no CPU any more. */
  ghost predicate OnlyMoved(s: KState, w: KState, x: nat) {
    && w.current == s.current && w.onCpu <= s.onCpu
    && w.t.free == s.t.free && w.t.kids == s.t.kids && SameFamily(s.t.pcb, w.t.pcb)
    && (forall y :: y != x ==> (y in w.t.ready <==> y in s.t.ready))
    && (forall y :: y != x ==> (Queued(w.t.blocked, y) <==> Queued(s.t.blocked, y)))
    && !IsBoot(s, x)
    && (forall c :: c in w.onCpu && c < |w.current| ==> w.current[c] != x)
  }

  lemma OthersStay(s: KState, w: KState, x: nat)
    requires Cpus(s) && Boots(s) && Rooted(s) && OnlyMoved(s, w, x)
    ensures Cpus(w) && Boots(w) && Rooted(w)
  {
    forall c | c in w.onCpu
      ensures Running(w, c)
    {
      assert Running(s, c);
    }
    forall b: nat | IsBoot(w, b)
      ensures Placeholder(w.t, b)
    {
      assert IsBoot(s, b) && Placeholder(s.t, b);
    }
    forall y: nat | Live(w, y) && y != 0
      ensures HasParent(w.t, y)
    {
      assert Live(s, y) && HasParent(s.t, y);
    }
  }

  lemma QueuedFromSet(t: Procs, w: Procs, x: nat, adds: bool)
    requires Wf(t) && Wf(w) && w.kids == t.kids
    requires BlockedSet(w) == if adds then BlockedSet(t) + {x} else BlockedSet(t) - {x}
    ensures forall y :: y != x ==> (Queued(w.blocked, y) <==> Queued(t.blocked, y))
  {
    QueuedInUse(t);
    QueuedInUse(w);
    forall y | y != x
      ensures Queued(w.blocked, y) <==> Queued(t.blocked, y)
    {
      assert y in BlockedSet(w) <==> y in BlockedSet(t);
    }
  }

  lemma InvBlock(s: KState, c: nat, k: Key, r: Request, exc: Context, now: int)
    requires Inv(s) && c in s.onCpu
    requires match r case ByIo(a) => k == Device(CommandIndex(a)) case ByClock => k == CLOCK case _ => true
    ensures c < |s.current| && s.current[c] < |s.t.pcb|
    ensures Inv(Block(s, c, k, r, exc, now))
  {
    hide Tree, NoDup, PostOrder;
    assert Running(s, c);
    var x, w := s.current[c], Block(s, c, k, r, exc, now);
    assert w.t.pcb == s.t.pcb[x := w.t.pcb[x]];
    ParkWf(s.t, k, x, w.t.pcb[x]);
    QueuedFromSet(s.t, w.t, x, true);
    assert OnlyMoved(s, w, x);
    OthersStay(s, w, x);
    BlockFits(s, w, x, k, r);
  }

  lemma BlockFits(s: KState, w: KState, x: nat, k: Key, r: Request)
    requires Reasons(s) && !Queued(s.t.blocked, x)
    requires match r case ByIo(a) => k == Device(CommandIndex(a)) case ByClock => k == CLOCK case _ => true
    requires w.t.blocked == s.t.blocked[k := Waiting(s.t.blocked, k) + [x]] && w.why == s.why[x := r]
    ensures Reasons(w)
  {
    forall j, y | j in w.t.blocked && y in w.t.blocked[j]
      ensures Fits(w, y, j)
    {
      if y == x {
        assert j in s.t.blocked && x in s.t.blocked[j] ==> Queued(s.t.blocked, x);
      } else {
        assert j in s.t.blocked && y in s.t.blocked[j] && Fits(s, y, j);
      }
    }
  }

  lemma InvWake(s: KState, k: Key)
    requires Inv(s) && k in s.t.blocked
    ensures s.t.blocked[k] != [] && Inv(Wake(s, k))
  {
    WakeWf(s.t, k);
    var x, w := s.t.blocked[k][0], Wake(s, k);
    QueuedFromSet(s.t, w.t, x, false);
    assert Queued(s.t.blocked, x);
    assert !IsBoot(s, x) by {
      assert IsBoot(s, x) ==> Placeholder(s.t, x);
    }
    forall d | d in w.onCpu
      ensures d < |w.current| && w.current[d] != x
    {
      assert Running(s, d);
    }
    assert OnlyMoved(s, w, x);
    OthersStay(s, w, x);
    forall j, y | j in w.t.blocked && y in w.t.blocked[j]
      ensures Fits(w, y, j)
    {
      assert j in s.t.blocked && y in s.t.blocked[j] && Fits(s, y, j);
    }
  }

  lemma InvP(s: KState, c: nat, k: Key, r: Request, exc: Context, now: int)
    requires Inv(s) && c in s.onCpu
    requires match r case ByIo(a) => k == Device(CommandIndex(a)) case ByClock => k == CLOCK case _ => true
    ensures c < |s.current| && s.current[c] < |s.t.pcb| && (k in s.t.blocked ==> s.t.blocked[k] != [])
    ensures Inv(P(s, c, k, r, exc, now)) && Inv(V(s, c, k, r, exc, now))
  {
    hide Inv, Block, Wake;
    InvBlock(s, c, k, r, exc, now);
    if k in s.t.blocked {
      InvWake(s, k);
    }
    InvSem(s, s.sem[k := 0]);
    InvSem(s, s.sem[k := 1]);
  }

  lemma InvSem(s: KState, sem: map<Key, int>)
    requires Inv(s)
    ensures Inv(s.(sem := sem))
  {
    var w := s.(sem := sem);
    forall c | c in w.onCpu
      ensures Running(w, c)
    {
      assert Running(s, c);
    }
    forall b: nat | IsBoot(w, b)
      ensures Placeholder(w.t, b)
    {
      assert IsBoot(s, b);
    }
    forall y: nat | Live(w, y) && y != 0
      ensures HasParent(w.t, y)
    {
      assert Live(s, y);
    }
    forall j, y | j in w.t.blocked && y in w.t.blocked[j]
      ensures Fits(w, y, j)
    {
      assert Fits(s, y, j);
    }
  }

  /** Saved states and times do not matter. */
  lemma InvPcb(s: KState, pcb: seq<Pcb>)
    requires Inv(s) && SameFamily(s.t.pcb, pcb)
    requires forall i :: 0 <= i < |pcb| ==> pcb[i].semAdd == s.t.pcb[i].semAdd
    ensures Inv(s.(t := s.t.(pcb := pcb)))
  {
    var w := s.(t := s.t.(pcb := pcb));
    TreeFrame(s.t, w.t);
    forall x | x in w.t.free
      ensures FreeIn(w.t, x)
    {
      assert FreeIn(s.t, x);
    }
    forall k, x | k in w.t.blocked && x in w.t.blocked[k]
      ensures BlockedIn(w.t, k, x) && Fits(w, x, k)
    {
      assert BlockedIn(s.t, k, x) && Fits(s, x, k);
    }
    forall c | c in w.onCpu
      ensures Running(w, c)
    {
      assert Running(s, c);
    }
    forall b: nat | IsBoot(w, b)
      ensures Placeholder(w.t, b)
    {
      assert IsBoot(s, b) && Placeholder(s.t, b);
    }
    forall y: nat | Live(w, y) && y != 0
      ensures HasParent(w.t, y)
    {
      assert Live(s, y) && HasParent(s.t, y);
    }
  }

  /** A process in no queue becomes the last ready one, and its CPU lets it go. */
  lemma InvReady(s: KState, c: nat)
    requires Inv(s) && c in s.onCpu
    ensures c < |s.current|
    ensures Inv(s.(t := s.t.(ready := s.t.ready + [s.current[c]]), onCpu := s.onCpu - {c}))
  {
    assert Running(s, c);
    var x := s.current[c];
    var w := s.(t := s.t.(ready := s.t.ready + [x]), onCpu := s.onCpu - {c});
    TreeFrame(s.t, w.t);
    NoDupAppend(s.t.ready, [x]);
    assert forall y :: y in w.t.free ==> FreeIn(s.t, y);
    forall k, y | k in w.t.blocked && y in w.t.blocked[k]
      ensures BlockedIn(w.t, k, y) && Fits(w, y, k)
    {
      assert BlockedIn(s.t, k, y) && Fits(s, y, k) && Queued(s.t.blocked, y);
    }
    assert OnlyMoved(s, w, x);
    OthersStay(s, w, x);
  }

  lemma InvIdle(s: KState, c: nat)
    requires Inv(s)
    ensures Inv(s.(onCpu := s.onCpu - {c}))
  {
    var w := s.(onCpu := s.onCpu - {c});
    forall d | d in w.onCpu
      ensures Running(w, d)
    {
      assert Running(s, d);
    }
    assert forall b: nat :: IsBoot(w, b) ==> IsBoot(s, b);
    assert forall y: nat :: Live(w, y) ==> Live(s, y);
    forall k, y | k in w.t.blocked && y in w.t.blocked[k]
      ensures Fits(w, y, k)
    {
      assert Fits(s, y, k);
    }
  }

  /** Draining the clock is waking its waiters one by one. */
  lemma TickStep(s: KState)
    requires Inv(s) && CLOCK in s.t.blocked
    ensures s.t.blocked[CLOCK] != [] && Tick(s) == Tick(Wake(s, CLOCK))
    ensures |Waiting(Wake(s, CLOCK).t.blocked, CLOCK)| < |Waiting(s.t.blocked, CLOCK)|
  {
    var q := s.t.blocked[CLOCK];
    var w := Wake(s, CLOCK);
    assert Waiting(w.t.blocked, CLOCK) == q[1..];
    assert s.t.ready + q == w.t.ready + q[1..];
    assert w.t.blocked - {CLOCK} == s.t.blocked - {CLOCK};
  }

  lemma {:induction false} InvTick(s: KState)
    requires Inv(s)
    ensures Inv(Tick(s))
    decreases |Waiting(s.t.blocked, CLOCK)|
  {
    if CLOCK in s.t.blocked {
      TickStep(s);
      InvWake(s, CLOCK);
      InvTick(Wake(s, CLOCK));
    } else {
      TickDone(s);
    }
  }

  lemma TickDone(s: KState)
    requires CLOCK !in s.t.blocked
    ensures Tick(s) == s
  {
    assert s.t.blocked - {CLOCK} == s.t.blocked;
    assert s.t.ready + [] == s.t.ready;
  }

  lemma InvIrq(s: KState, c: nat, line: int, dev: int, tx: int, rx: int)
    requires Inv(s) && 3 <= line && 0 <= dev
    ensures forall k :: k in s.t.blocked ==> s.t.blocked[k] != [] && s.t.blocked[k][0] < |s.t.pcb|
    ensures Inv(Irq(s, c, line, dev, tx, rx))
  {
    Heads(s.t);
    var k := IrqKey(s, line, dev);
    if k in s.t.blocked {
      InvWake(s, k);
      var w := Wake(s, k);
      InvSem(w, w.sem[k := 0]);
      InvPcb(w.(sem := w.sem[k := 0]), Irq(s, c, line, dev, tx, rx).t.pcb);
    } else {
      InvIdle(s, c);
    }
  }

  lemma InvPreempt(s: KState, c: nat, exc: Context, now: int)
    requires Inv(s) && c in s.onCpu
    ensures c < |s.current| && s.current[c] < |s.t.pcb| && Inv(Preempt(s, c, exc, now))
  {
    assert Running(s, c);
    var w := Preempt(s, c, exc, now);
    InvPcb(s, w.t.pcb);
    InvReady(s.(t := s.t.(pcb := w.t.pcb)), c);
  }

  lemma HeadWf(t: Procs)
    requires Wf(t) && t.ready != []
    ensures
      var x, w := t.ready[0], t.(ready := t.ready[1..]);
      Wf(w) && Unqueued(w, x) && x in t.ready && x < |t.pcb| && BlockedSet(w) == BlockedSet(t)
  {
    var x, w := t.ready[0], t.(ready := t.ready[1..]);
    Heads(t);
    MinusFirst(t.ready);
    assert x in t.ready;
    TreeFrame(t, w);
    assert forall y :: y in w.free ==> FreeIn(t, y);
    forall k, y | k in w.blocked && y in w.blocked[k]
      ensures BlockedIn(w, k, y) && y != x
    {
      assert BlockedIn(t, k, y);
    }
  }

  lemma InvRun(s: KState, c: nat, now: int)
    requires Inv(s) && c < |s.current| && c !in s.onCpu
    ensures Inv(Run(s, c, now))
  {
    if s.t.ready != [] {
      HeadWf(s.t);
      var x, w := s.t.ready[0], Run(s, c, now);
      MinusFirst(s.t.ready);
      hide Wf;
      forall b: nat | IsBoot(w, b)
        ensures Placeholder(w.t, b) && b != x
      {
        assert IsBoot(s, b) && Placeholder(s.t, b);
      }
      forall d | d in w.onCpu
        ensures Running(w, d) && (d != c ==> w.current[d] != x)
      {
        if d != c {
          assert Running(s, d);
        }
      }
      assert forall y: nat :: Live(w, y) ==> Live(s, y);
      forall k, y | k in w.t.blocked && y in w.t.blocked[k]
        ensures Fits(w, y, k)
      {
        assert Fits(s, y, k);
      }
    }
  }

  /** While anybody lives, process 0 does, and everybody descends from it. */
  lemma {:induction false} FromRoot(s: KState, x: nat)
    requires Inv(s) && Live(s, x)
    ensures Live(s, 0) && Under(s.t, 0, x)
    decreases s.t.pcb[x].pid
  {
    if x != 0 {
      LiveParent(s, x);
      var q := s.t.pcb[x].parent.value;
      assert IsParent(s.t.pcb, q, x);
      FromRoot(s, q);
    }
  }

  lemma SpawnTree(t: Procs, q: nat, x: nat, b: Pcb)
    requires Wf(t) && q in t.kids && q !in t.free && t.free != [] && x == t.free[0]
    requires x < |t.pcb| && b.parent == Some(q) && b.pid == t.nextPid
    ensures Tree(t.(kids := t.kids[x := []][q := t.kids[q] + [x]], pcb := t.pcb[x := b], nextPid := t.nextPid + 1))
  {
    assert x in t.free && FreeIn(t, x);
    var w := t.(kids := t.kids[x := []][q := t.kids[q] + [x]], pcb := t.pcb[x := b], nextPid := t.nextPid + 1);
    assert forall g :: !IsParent(t.pcb, g, x);
    NoDupAppend(t.kids[q], [x]);
    forall g, d | g in w.kids && d in w.kids[g]
      ensures IsParent(w.pcb, g, d) && d in w.kids && w.pcb[g].pid < w.pcb[d].pid
    {
      if d != x {
        assert d in t.kids[g] && IsParent(t.pcb, g, d);
      } else {
        assert g == q;
      }
    }
    forall g, d | IsParent(w.pcb, g, d)
      ensures g in w.kids && d in w.kids[g]
    {
      assert d != x ==> IsParent(t.pcb, g, d);
    }
  }

  lemma SpawnWf(t: Procs, q: nat, b: Pcb)
    requires Wf(t) && InUse(t, q) && t.free != [] && t.free[0] < |t.pcb|
    requires b.parent == Some(q) && b.pid == t.nextPid
    ensures
      var x := t.free[0];
      var w := Procs(t.free[1..], t.ready + [x], t.blocked, t.kids[x := []][q := t.kids[q] + [x]],
                     t.pcb[x := b], t.nextPid + 1);
      Wf(w)
  {
    var x := t.free[0];
    var w := Procs(t.free[1..], t.ready + [x], t.blocked, t.kids[x := []][q := t.kids[q] + [x]],
                   t.pcb[x := b], t.nextPid + 1);
    assert x in t.free && FreeIn(t, x);
    SpawnTree(t, q, x, b);
    TreeFrame(t.(kids := w.kids, pcb := w.pcb, nextPid := w.nextPid), w);
    hide Tree;
    MinusFirst(t.free);
    assert x !in t.ready by {
      assert x in t.ready ==> InUse(t, x);
    }
    NoDupAppend(t.ready, [x]);
    forall y | y in w.free
      ensures FreeIn(w, y)
    {
      assert FreeIn(t, y);
    }
    forall k, y | k in w.blocked && y in w.blocked[k]
      ensures BlockedIn(w, k, y)
    {
      assert BlockedIn(t, k, y);
    }
  }

  lemma SpawnPlaces(s: KState, c: nat, a1: Context, a3: int)
    requires Inv(s) && c in s.onCpu && s.t.free != []
    ensures c < |s.current| && s.current[c] in s.t.kids && s.current[c] !in s.t.free && s.t.free[0] < |s.t.pcb|
    ensures Wf(Spawn(s, c, a1, a3).t)
    ensures BlockedSet(Spawn(s, c, a1, a3).t) == BlockedSet(s.t)
  {
    hide Wf;
    Heads(s.t);
    CurrentParts(s, c);
    var w := Spawn(s, c, a1, a3);
    SpawnWf(s.t, s.current[c], w.t.pcb[s.t.free[0]]);
    QueuedInUse(s.t);
    QueuedInUse(w.t);
  }

  lemma InvSpawn(s: KState, c: nat, a1: Context, a3: int)
    requires Inv(s) && c in s.onCpu && s.t.free != []
    ensures c < |s.current| && s.current[c] in s.t.kids && s.t.free[0] < |s.t.pcb|
    ensures Inv(Spawn(s, c, a1, a3))
  {
    hide Tree, BlockedIn, Queued, PostOrder, NoDup;
    SpawnPlaces(s, c, a1, a3);
    assert Running(s, c);
    var x, w := s.t.free[0], Spawn(s, c, a1, a3);
    assert x in s.t.free && FreeIn(s.t, x);
    FromRoot(s, s.current[c]);
    forall d | d in w.onCpu
      ensures Running(w, d)
    {
      assert Running(s, d);
    }
    forall b: nat | IsBoot(w, b)
      ensures Placeholder(w.t, b)
    {
      assert IsBoot(s, b) && Placeholder(s.t, b);
    }
    forall y: nat | Live(w, y) && y != 0
      ensures HasParent(w.t, y)
    {
      if y != x {
        assert s.t.free == [x] + s.t.free[1..];
        assert Live(s, y) && HasParent(s.t, y);
      }
    }
    forall y: nat | y < |w.t.pcb|
      ensures y in w.t.free || y in w.t.kids
    {
      assert s.t.free == [x] + s.t.free[1..];
    }
    forall k, y | k in w.t.blocked && y in w.t.blocked[k]
      ensures Fits(w, y, k)
    {
      assert Fits(s, y, k);
    }
  }

  /** The placeholders are in nobody's subtree but their own. */
  lemma BootApart(s: KState, v: nat, b: nat)
    requires Inv(s) && Live(s, v) && IsBoot(s, b)
    ensures b !in PostOrder(s.t, v)
  {
    assert Placeholder(s.t, b);
    SubtreeMember(s.t, v, b);
  }

  lemma RemoveBlocked(s: KState, v: nat)
    requires Inv(s) && Live(s, v)
    ensures Wf(Kill(s.t, v)) && BlockedSet(Kill(s.t, v)) == BlockedSet(s.t) - Elems(PostOrder(s.t, v))
    ensures Remove(s, v).softBlockCount == Waiters(Remove(s, v).t)
  {
    KillWf(s.t, v);
    var gone := Elems(PostOrder(s.t, v));
    WithoutBlocked(s.t, gone);
    assert BlockedSet(Kill(s.t, v)) == BlockedSet(Without(s.t, gone));
  }

  /** Whoever is not in the subtree keeps its place and its parent. */
  lemma Survivors(t: Procs, v: nat)
    requires Wf(t) && InUse(t, v)
    ensures Tree(t) && v in t.kids
    ensures Kill(t, v).kids.Keys == t.kids.Keys && |Kill(t, v).pcb| == |t.pcb|
    ensures Kill(t, v).free == t.free + PostOrder(t, v)
    ensures forall y :: y in Kill(t, v).ready <==> y in t.ready && y !in PostOrder(t, v)
    ensures forall y :: Queued(Kill(t, v).blocked, y) <==> Queued(t.blocked, y) && y !in PostOrder(t, v)
    ensures forall y: nat :: y < |t.pcb| && y !in PostOrder(t, v) ==> Kill(t, v).pcb[y] == t.pcb[y]
    ensures forall y: nat :: y < |t.pcb| && t.pcb[y].parent == None ==> Kill(t, v).pcb[y].parent == None
    ensures forall y :: y in t.kids && t.kids[y] == [] ==> Kill(t, v).kids[y] == []
    ensures forall k, y :: k in Kill(t, v).blocked && y in Kill(t, v).blocked[k] ==> k in t.blocked && y in t.blocked[k]
  {
    hide Wf, Tree, Minus;
    WfTree(t);
    var gone := Elems(PostOrder(t, v));
    hide PostOrder;
    forall y
      ensures Queued(Kill(t, v).blocked, y) <==> Queued(t.blocked, y) && y !in PostOrder(t, v)
    {
      PurgeQueued(t.blocked, gone, y);
    }
    MinusNone([], gone);
  }

  lemma WfTree(t: Procs)
    requires Wf(t)
    ensures Tree(t)
  {
  }

  /** removePcb keeps the invariant exactly when no other CPU runs a victim. */
  lemma InvRemove(s: KState, c: nat, v: nat)
    requires Inv(s) && Live(s, v)
    ensures Inv(Remove(s, v).(onCpu := s.onCpu - {c})) <==> HeldByNoOther(s, c, v)
  {
    if HeldByNoOther(s, c, v) {
      RemoveKeepsInv(s, c, v);
    } else {
      var d :| d in s.onCpu && d != c && s.current[d] in PostOrder(s.t, v);
      RunsFreed(s, c, v, d);
    }
  }

  /** A CPU that runs a victim goes on running a free PCB. */
  lemma RunsFreed(s: KState, c: nat, v: nat, d: nat)
    requires Inv(s) && Live(s, v) && d in s.onCpu && d != c && s.current[d] in PostOrder(s.t, v)
    ensures
      var w := Remove(s, v).(onCpu := s.onCpu - {c});
      && d in w.onCpu && d < |w.current| && w.current[d] in w.t.free && !Inv(w)
  {
    hide Kill, PostOrder, Wf, Tree, Queued, Victims, WaitingVictims, Waiters;
    Survivors(s.t, v);
    assert Running(s, d);
    var w := Remove(s, v).(onCpu := s.onCpu - {c});
    assert d in w.onCpu && !Running(w, d);
  }

  lemma RemoveKeepsInv(s: KState, c: nat, v: nat)
    requires Inv(s) && Live(s, v) && HeldByNoOther(s, c, v)
    ensures Inv(Remove(s, v).(onCpu := s.onCpu - {c}))
  {
    hide Kill, PostOrder, Wf, Tree, Queued, Victims, WaitingVictims, Waiters;
    Survivors(s.t, v);
    RemoveBlocked(s, v);
    forall b: nat | IsBoot(s, b)
      ensures Placeholder(s.t, b) && b !in PostOrder(s.t, v)
    {
      BootApart(s, v, b);
    }
    var w := Remove(s, v).(onCpu := s.onCpu - {c});
    forall d | d in w.onCpu
      ensures Running(w, d)
    {
      assert Running(s, d);
    }
    forall b: nat | IsBoot(w, b)
      ensures Placeholder(w.t, b)
    {
      assert IsBoot(s, b) && Placeholder(s.t, b);
    }
    forall y: nat | Live(w, y) && y != 0
      ensures HasParent(w.t, y)
    {
      assert Live(s, y) && HasParent(s.t, y);
    }
    forall k, y | k in w.t.blocked && y in w.t.blocked[k]
      ensures Fits(w, y, k)
    {
      assert Fits(s, y, k);
    }
    VictimsCount(s.t, v);
  }

  lemma VictimsCount(t: Procs, v: nat)
    requires Tree(t) && v in t.kids
    ensures Victims(t, v) == |PostOrder(t, v)|
  {
  }

  /** The invariant of the kernel is kept by every step. */
  lemma StepKeepsInv(s: KState, e: Event)
    requires Inv(s) && Enabled(s, e)
    ensures Inv(Step(s, e))
  {
    hide Inv;
    match e
    case Create(c, a1, a3) => InvSpawn(s, c, a1, a3);
    case Terminate(c, v) => InvRemove(s, c, v);
    case Passeren(c, k, exc, now) => InvP(s, c, k, ByP, exc, now);
    case Verhogen(c, k, exc, now) => InvP(s, c, k, ByV, exc, now);
    case DoIo(c, a, exc, now) => InvP(s, c, Device(CommandIndex(a)), ByIo(a), exc, now);
    case ClockWait(c, exc, now) => InvP(s, c, CLOCK, ByClock, exc, now);
    case ClockTick => InvTick(s);
    case DeviceIrq(c, line, dev, tx, rx) => InvIrq(s, c, line, dev, tx, rx);
    case EndSlice(c, exc, now) => InvPreempt(s, c, exc, now);
    case Dispatch(c, now) => InvRun(s, c, now);
  }

  /** The first waiters of the queues, one for every semaphore in use. */
  ghost function QueueHeads(b: Queues): set<nat>
    requires forall k :: k in b ==> b[k] != []
  {
    set k | k in b :: b[k][0]
  }

  lemma {:induction false} HeadsCount(b: Queues)
    requires forall k :: k in b ==> b[k] != []
    requires forall j, k, x :: j in b && k in b && x in b[j] && x in b[k] ==> j == k
    ensures |QueueHeads(b)| == |b|
    decreases |b|
  {
    if b == map[] {
      assert QueueHeads(b) == {};
    } else {
      var k :| k in b;
      var c := b - {k};
      HeadsCount(c);
      assert b[k][0] in b[k];
      forall j | j in c
        ensures b[j][0] != b[k][0]
      {
        assert b[j][0] in b[j];
      }
      forall x
        ensures x in QueueHeads(b) <==> x in QueueHeads(c) + {b[k][0]}
      {
        if j :| j in b && b[j][0] == x && j != k {
          assert j in c && c[j][0] == x;
        }
        if j :| j in c && c[j][0] == x {
          assert j in b && b[j][0] == x;
        }
      }
      assert QueueHeads(b) == QueueHeads(c) + {b[k][0]};
      assert b.Keys == c.Keys + {k};
    }
  }

  /**
    There are as many descriptors as PCBs, and every descriptor in use has a waiter. So
    insertBlocked finds a descriptor for any process that is not already waiting.
  */
  lemma DescriptorsSuffice(t: Procs, x: nat)
    requires Wf(t) && x < |t.pcb| && !Queued(t.blocked, x)
    ensures |t.blocked| < |t.pcb|
  {
    QueuedInUse(t);
    forall j, k, y | j in t.blocked && k in t.blocked && y in t.blocked[j] && y in t.blocked[k]
      ensures j == k
    {
      assert BlockedIn(t, j, y) && BlockedIn(t, k, y);
    }
    HeadsCount(t.blocked);
    forall y | y in QueueHeads(t.blocked)
      ensures y < |t.pcb| && y != x
    {
      var k :| k in t.blocked && t.blocked[k][0] == y;
      assert y in t.blocked[k] && BlockedIn(t, k, y);
    }
    assert x !in QueueHeads(t.blocked);
    Pigeonhole(QueueHeads(t.blocked), |t.pcb|);
  }

  /** What blockPcb needs to know of its process, and how its assignments add up. */
  lemma BlockParts(s: KState, c: nat, k: Key, r: Request, exc: Context, now: int)
    requires Inv(s) && c in s.onCpu
    ensures c < |s.current|
    ensures
      var x := s.current[c];
      && x < |s.t.pcb| && x !in s.t.free && x !in s.t.ready && !Queued(s.t.blocked, x)
      && |s.t.blocked| < |s.t.pcb|
      && x < |Park(s.t, k, x).pcb|
    ensures
      var x, t := s.current[c], Park(s.t, k, s.current[c]);
      Block(s, c, k, r, exc, now).t
        == t.(ready := Minus(t.ready, {x}), pcb := t.pcb[x := Saved(t.pcb[x], Past(exc), now - s.sliceStart)])
  {
    assert Running(s, c);
    DescriptorsSuffice(s.t, s.current[c]);
    MinusNone(s.t.ready, {s.current[c]});
  }

  /**
    What blockPcb saves: the state past the four bytes of the system call, on 32 bits, the time
    used, and the semaphore. The rest of the PCB stays.
  */
  lemma BlockSaves(s: KState, c: nat, k: Key, r: Request, exc: Context, now: int)
    requires c < |s.current| && s.current[c] < |s.t.pcb|
    ensures
      var x, w := s.current[c], Block(s, c, k, r, exc, now);
      && x < |w.t.pcb|
      && var b, ctx := s.t.pcb[x], w.t.pcb[x].ctx;
      && 0 <= ctx.pc < 0x1_0000_0000 && (ctx.pc - exc.pc) % 0x1_0000_0000 == 4
      && ctx.a0 == exc.a0 && ctx.rest == exc.rest
      && w.t.pcb[x] == b.(ctx := ctx, time := b.time + (now - s.sliceStart), semAdd := Some(k))
      && w.t.pcb == s.t.pcb[x := w.t.pcb[x]]
  {
  }

  /** The waiter that is woken is then in no queue, so it can become ready. */
  lemma WakeParts(t: Procs, k: Key)
    requires Wf(t) && k in t.blocked
    ensures
      var q := t.blocked[k];
      && q != [] && q[0] < |t.pcb| && q[0] !in t.free && q[0] !in t.ready
      && !Queued(SetQueue(t.blocked, k, q[1..]), q[0])
  {
    WakeWf(t, k);
    var x := t.blocked[k][0];
    assert BlockedIn(t, k, x);
    var b := SetQueue(t.blocked, k, t.blocked[k][1..]);
    MinusFirst(t.blocked[k]);
    forall j | j in b
      ensures x !in b[j]
    {
      assert x in t.blocked[j] ==> BlockedIn(t, j, x);
    }
  }

  lemma WakeSize(s: KState)
    requires Wf(s.t)
    ensures forall k :: k in s.t.blocked ==>
      s.t.blocked[k] != [] && s.t.blocked[k][0] < |s.t.pcb| && |Wake(s, k).t.pcb| == |s.t.pcb|
  {
    Heads(s.t);
  }

  /** The same for a process that its CPU gives up. */
  lemma CurrentParts(s: KState, c: nat)
    requires Inv(s) && c in s.onCpu
    ensures c < |s.current|
    ensures
      var x := s.current[c];
      && x < |s.t.pcb| && InUse(s.t, x) && x !in s.t.free && x !in s.t.ready && !Queued(s.t.blocked, x)
  {
    assert Running(s, c);
  }

  lemma ParametersP(s: KState, c: nat, k: Key)
    requires Inv(s) && c in s.onCpu
    ensures Wf(s.t) && c < |s.current| && s.current[c] < |s.t.pcb|
    ensures k in s.t.blocked ==> s.t.blocked[k] != []
  {
    CurrentParts(s, c);
  }

  /** The caller stays on its CPU exactly when it is not blocked. */
  lemma OnCpuP(s: KState, c: nat, k: Key, r: Request, exc: Context, now: int)
    requires Inv(s) && c in s.onCpu
    ensures c < |s.current| && s.current[c] < |s.t.pcb| && (k in s.t.blocked ==> s.t.blocked[k] != [])
    ensures c in P(s, c, k, r, exc, now).onCpu <==> Val(s, k) > 0
    ensures c in V(s, c, k, r, exc, now).onCpu <==> Val(s, k) < 1
  {
    ParametersP(s, c, k);
  }

  lemma TerminateParts(s: KState, c: nat, v: nat)
    requires Inv(s) && Live(s, v) && c in s.onCpu
    ensures Wf(s.t) && InUse(s.t, v) && Tree(s.t) && v in s.t.kids
    ensures Enabled(s, Terminate(c, v)) <==> HeldByNoOther(s, c, v)
    ensures Inv(Remove(s, v).(onCpu := s.onCpu - {c})) <==> HeldByNoOther(s, c, v)
    ensures HeldByNoOther(s, c, v) ==> Step(s, Terminate(c, v)) == Remove(s, v).(onCpu := s.onCpu - {c})
  {
    InvRemove(s, c, v);
  }

  lemma CallerLives(s: KState, c: nat)
    requires Inv(s) && c in s.onCpu
    ensures c < |s.current| && Live(s, s.current[c])
  {
    assert Running(s, c);
  }

  lemma InvWf(s: KState)
    requires Inv(s)
    ensures Wf(s.t)
  {
  }

  /** The table after allocPcb. */
  ghost function AllocTable(t: Procs, junk: Context): Procs
    requires t.free != [] && t.free[0] < |t.pcb|
  {
    var x := t.free[0];
    t.(free := t.free[1..], kids := t.kids[x := []],
       pcb := t.pcb[x := Pcb(None, junk, 0, None, 0, t.nextPid)], nextPid := t.nextPid + 1)
  }

  /** The table after insertChild(q, x). */
  ghost function Adopt(t: Procs, q: nat, x: nat): (w: Procs)
    requires q in t.kids && x < |t.pcb|
    ensures w == t.(kids := w.kids, pcb := w.pcb) && |w.pcb| == |t.pcb|
  {
    t.(kids := t.kids[q := t.kids[q] + [x]], pcb := t.pcb[x := t.pcb[x].(parent := Some(q))])
  }

  /** What createProcess needs at each of its steps, and how they add up. */
  lemma SpawnParts(s: KState, c: nat, a1: Context, a3: int, junk: Context)
    requires Inv(s) && c in s.onCpu && s.t.free != []
    ensures c < |s.current| && s.current[c] in s.t.kids && s.t.free[0] < |s.t.pcb|
    ensures
      var q, x, t := s.current[c], s.t.free[0], AllocTable(s.t, junk);
      && q in t.kids && q !in t.free && x !in t.free && x < |t.pcb| && t.pcb[x].parent == None
      && x !in t.ready && !Queued(t.blocked, x)
      && var u := Adopt(t, q, x);
         var w := u.(ready := u.ready + [x]);
         && x < |w.pcb|
         && w.(pcb := w.pcb[x := w.pcb[x].(ctx := a1, support := a3)]) == Spawn(s, c, a1, a3).t
         && w.pcb[x].pid == s.t.nextPid
  {
    CurrentParts(s, c);
    Heads(s.t);
    MinusFirst(s.t.free);
    var q, x, t := s.current[c], s.t.free[0], AllocTable(s.t, junk);
    assert x in s.t.free;
    assert x !in s.t.ready by {
      assert x in s.t.ready ==> InUse(s.t, x);
    }
    QueuedInUse(s.t);
    forall k | k in s.t.blocked
      ensures x !in s.t.blocked[k]
    {
      assert x in s.t.blocked[k] ==> BlockedIn(s.t, k, x);
    }
    var u := Adopt(t, q, x);
    var w := u.(ready := u.ready + [x]);
    assert w.(pcb := w.pcb[x := w.pcb[x].(ctx := a1, support := a3)]).pcb == Spawn(s, c, a1, a3).t.pcb;
  }

  lemma ReadyHead(s: KState, c: nat, now: int)
    requires Inv(s) && c < |s.current|
    ensures s.t.ready != [] ==> s.t.ready[0] < |s.t.pcb|
  {
    Heads(s.t);
  }

  lemma TimeOnCpu(s: KState, c: nat, now: int)
    requires c in s.onCpu && c < |s.current| && s.current[c] < |s.t.pcb|
    ensures CpuTime(s, s.current[c], now) == s.t.pcb[s.current[c]].time + (now - s.sliceStart)
  {
    assert OnCpu(s, c, s.current[c]);
  }

  /** The parent of a running process is alive; only process 0 has none. */
  lemma ParentLives(s: KState, c: nat)
    requires Inv(s) && c in s.onCpu
    ensures c < |s.current| && s.current[c] < |s.t.pcb|
    ensures
      var q := s.t.pcb[s.current[c]].parent;
      if q == None then s.current[c] == 0 else q.value < |s.t.pcb| && Live(s, q.value)
  {
    assert Running(s, c);
    LiveParent(s, s.current[c]);
  }

  lemma LiveParent(s: KState, x: nat)
    requires Inv(s) && Live(s, x)
    ensures x < |s.t.pcb|
    ensures s.t.pcb[x].parent == None ==> x == 0
    ensures s.t.pcb[x].parent.Some? ==> s.t.pcb[x].parent.value < |s.t.pcb| && Live(s, s.t.pcb[x].parent.value)
  {
    assert x != 0 ==> HasParent(s.t, x);
    if s.t.pcb[x].parent.Some? {
      var q := s.t.pcb[x].parent.value;
      assert IsParent(s.t.pcb, q, x);
      assert q !in s.t.free by {
        assert q in s.t.free ==> FreeIn(s.t, q);
      }
      assert !IsBoot(s, q) by {
        assert IsBoot(s, q) ==> Placeholder(s.t, q);
      }
    }
  }

  /** The invariant holds when main enters the scheduler. */
  lemma BootInv(m: Machine)
    requires m.ncpu < m.maxproc
    ensures Inv(Boot(m))
  {
    var s := Boot(m);
    var t := s.t;
    forall i | 0 <= i < m.maxproc
      ensures t.pcb[i].parent == None && (i <= m.ncpu ==> t.pcb[i].pid == i + 1)
    {
      if i == 0 {
        assert t.pcb[i] == BootPcb(m.first, i);
      } else if i <= m.ncpu {
        assert t.pcb[i] == BootPcb(m.junk, i);
      } else {
        assert t.pcb[i] == BLANK;
      }
    }
    assert BlockedSet(t) == {};
    assert Tree(t);
    forall b: nat | IsBoot(s, b)
      ensures Placeholder(t, b)
    {
    }
    forall x: nat | x in t.free
      ensures FreeIn(t, x)
    {
    }
  }

  /**
    When the scheduler halts everybody is dead: nobody waits, no semaphore is in use, and all
    PCBs but the placeholders are free.
  */
  lemma HaltIsClean(s: KState)
    requires Inv(s)
    ensures s.processCount == 0 <==> forall x :: !Live(s, x)
    ensures s.processCount == 0 ==>
      && s.t.ready == [] && s.t.blocked == map[] && s.softBlockCount == 0 && s.onCpu == {}
      && |s.t.free| == |s.t.pcb| - |s.current|
  {
    LiveCount(s);
    if s.processCount == 0 {
      assert LiveSet(s) == {};
      assert forall x :: Live(s, x) ==> x in LiveSet(s);
      NobodyLeft(s);
    } else {
      var x :| x in LiveSet(s);
    }
  }

  ghost function LiveSet(s: KState): set<nat> {
    set x | x in s.t.kids && Live(s, x)
  }

  /** processCount counts the live processes. */
  lemma LiveCount(s: KState)
    requires Inv(s)
    ensures s.processCount == |LiveSet(s)|
  {
    hide Wf, Tree, Queued, Waiters;
    var all, boots, free := Range(0, |s.t.pcb|), Range(1, |s.current| + 1), s.t.free;
    CardElems(all);
    CardElems(boots);
    InvWf(s);
    FreeDistinct(s.t);
    CardElems(free);
    forall x
      ensures x in Elems(all) <==> x in LiveSet(s) || x in Elems(boots) || x in Elems(free)
      ensures x in Elems(boots) ==> x !in LiveSet(s) && x !in Elems(free)
    {
      assert IsBoot(s, x) ==> Placeholder(s.t, x);
    }
    hide Inv, Live;
    assert Elems(all) == LiveSet(s) + Elems(boots) + Elems(free);
    assert LiveSet(s) !! Elems(free);
  }

  lemma FreeDistinct(t: Procs)
    requires Wf(t)
    ensures NoDup(t.free) && (forall x :: x in t.free ==> x < |t.pcb|) && (forall x :: x in t.kids ==> x < |t.pcb|)
  {
    assert forall x :: x in t.free ==> FreeIn(t, x);
  }

  lemma NobodyLeft(s: KState)
    requires Inv(s) && forall x :: !Live(s, x)
    ensures s.t.ready == [] && s.t.blocked == map[] && s.onCpu == {} && s.softBlockCount == 0
  {
    if s.t.ready != [] {
      var x := s.t.ready[0];
      assert x in s.t.ready;
      assert IsBoot(s, x) ==> Placeholder(s.t, x);
      assert Live(s, x);
    }
    if k :| k in s.t.blocked {
      var x := s.t.blocked[k][0];
      assert x in s.t.blocked[k] && BlockedIn(s.t, k, x) && Queued(s.t.blocked, x);
      assert IsBoot(s, x) ==> Placeholder(s.t, x);
      assert Live(s, x);
    }
    assert forall c :: c in s.onCpu ==> Running(s, c);
    assert s.t.blocked == map[];
    assert BlockedSet(s.t) == {};
  }
}
