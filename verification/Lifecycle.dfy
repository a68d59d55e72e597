/** Birth and death of processes: the tree of the living, and what is left at the end. */
module Lifecycle {
  import opened Seqs
  import opened Types
  import opened Procs
  import opened Forest
  import opened Removal
  import opened Devices
  import opened State
  import opened Invariant
  import opened Runs
  import opened Places

  /** The live processes are exactly the tree rooted at the first process. */
  lemma LiveIsTheTree(s: KState, x: nat)
    requires Inv(s)
    ensures Tree(s.t)
    ensures Live(s, x) <==> Live(s, 0) && x in PostOrder(s.t, 0)
  {
    InvWf(s);
    if Live(s, x) {
      FromRoot(s, x);
      SubtreeMember(s.t, 0, x);
    }
    if Live(s, 0) && x in PostOrder(s.t, 0) {
      SubtreeInUse(s.t, 0, x);
      if IsBoot(s, x) {
        BootApart(s, 0, x);
      }
    }
  }

  /** Killing the first process kills everybody, and brings processCount to 0. */
  lemma KillingTheRoot(s: KState, c: nat)
    requires Inv(s) && Enabled(s, Terminate(c, 0))
    ensures
      var w := Step(s, Terminate(c, 0));
      && w.processCount == 0 && w.softBlockCount == 0 && (forall x :: !Live(w, x))
      && w.t.ready == [] && w.t.blocked == map[] && |w.t.free| == |w.t.pcb| - |w.current|
  {
    hide Inv, Kill, Wf, Tree, PostOrder, Queued, Victims, WaitingVictims;
    var w := Step(s, Terminate(c, 0));
    StepKeepsInv(s, Terminate(c, 0));
    InvWf(s);
    Survivors(s.t, 0);
    forall x
      ensures !Live(w, x)
    {
      LiveIsTheTree(s, x);
    }
    HaltIsClean(w);
  }

  /** Which PCBs a step takes into use, and which it frees. */
  lemma UseAfter(s: KState, e: Event)
    requires Inv(s) && Enabled(s, e)
    ensures |Step(s, e).current| == |s.current|
    ensures
      var t, w := s.t, Step(s, e).t;
      if e.Create? then t.free != [] && w.free == t.free[1..] && w.kids.Keys == t.kids.Keys + {t.free[0]}
      else if e.Terminate? then w.kids.Keys == t.kids.Keys && w.free == t.free + PostOrder(t, e.victim)
      else w.kids.Keys == t.kids.Keys && w.free == t.free
  {
    hide Inv, Wf, Tree, PostOrder, Purge, Without, Queued;
    InvWf(s);
    match e
    case Terminate(_, v) => Survivors(s.t, v);
    case Create(c, _, _) => CurrentParts(s, c);
    case Passeren(c, k, _, _) => ParametersP(s, c, k);
    case Verhogen(c, k, _, _) => ParametersP(s, c, k);
    case DoIo(c, a, _, _) => ParametersP(s, c, Device(CommandIndex(a)));
    case ClockWait(c, _, _) => ParametersP(s, c, CLOCK);
    case EndSlice(c, _, _) => CurrentParts(s, c);
    case _ => Heads(s.t);
  }

  lemma SameSize(s: KState, e: Event)
    requires Inv(s) && Enabled(s, e)
    ensures |Step(s, e).t.pcb| == |s.t.pcb|
  {
    hide Inv;
    match e
    case Passeren(c, k, _, _) => ParametersP(s, c, k);
    case Verhogen(c, k, _, _) => ParametersP(s, c, k);
    case DoIo(c, a, _, _) => ParametersP(s, c, Device(CommandIndex(a)));
    case ClockWait(c, _, _) => ParametersP(s, c, CLOCK);
    case Create(c, _, _) => CurrentParts(s, c); InvWf(s); Heads(s.t);
    case EndSlice(c, _, _) => CurrentParts(s, c);
    case Terminate(_, v) => InvWf(s); KillSize(s.t, v);
    case _ => InvWf(s); Heads(s.t);
  }

  lemma KillSize(t: Procs, v: nat)
    requires Tree(t) && v in t.kids
    ensures |Kill(t, v).pcb| == |t.pcb|
  {
  }

  /** Only the process just created is new. */
  lemma UsersAfter(s: KState, e: Event, x: nat)
    requires Inv(s) && Enabled(s, e) && x < |s.t.pcb| && (!Live(s, x) || Kills(s, e, x))
    ensures |Step(s, e).t.pcb| == |s.t.pcb|
    ensures Live(Step(s, e), x) ==> e.Create? && x == s.t.free[0]
  {
    SameSize(s, e);
    UseAfter(s, e);
    InvWf(s);
    hide Inv, Wf, Step, Enabled, PostOrder;
    if Kills(s, e, x) {
      assert x in Elems(PostOrder(s.t, e.victim));
    }
  }

  lemma StaysLive(s: KState, e: Event, x: nat)
    requires Inv(s) && Enabled(s, e) && Live(s, x) && !Kills(s, e, x)
    ensures Live(Step(s, e), x) && x < |s.t.pcb|
  {
    hide Inv, Step, Enabled, PostOrder;
    UseAfter(s, e);
    LiveParent(s, x);
  }

  /** y comes before x in s. */
  ghost predicate Before(s: seq<nat>, y: nat, x: nat) {
    exists i, j :: 0 <= i < j < |s| && s[i] == y && s[j] == x
  }

  /** Descendants are freed before their ancestors. */
  lemma {:induction false} ChildrenFirst(v: Procs, p: nat, x: nat, y: nat)
    requires Tree(v) && p in v.kids && x in v.kids && y in v.kids
    requires Under(v, p, x) && Under(v, x, y) && x != y
    ensures Before(PostOrder(v, p), y, x)
    decreases v.nextPid - v.pcb[p].pid
  {
    var cs, lo := v.kids[p], v.pcb[p].pid;
    var whole := PostOrder(v, p);
    if x == p {
      SubtreeMember(v, p, y);
      var i :| 0 <= i < |whole| && whole[i] == y;
      assert whole[|whole| - 1] == p && i < |whole| - 1;
    } else {
      var c := ChildOnPath(v, p, x);
      ChildrenFirst(v, c, x, y);
      ForestBefore(v, cs, lo, c, y, x);
      var below := PostForest(v, cs, lo);
      var i, j :| 0 <= i < j < |below| && below[i] == y && below[j] == x;
      assert whole[i] == y && whole[j] == x;
    }
  }

  lemma {:induction false} ForestBefore(v: Procs, cs: seq<nat>, lo: int, c: nat, y: nat, x: nat)
    requires Tree(v) && lo < v.nextPid
    requires forall d :: d in cs ==> d in v.kids && lo < v.pcb[d].pid
    requires c in cs && Before(PostOrder(v, c), y, x)
    ensures Before(PostForest(v, cs, lo), y, x)
    decreases |cs|
  {
    var head, tail := PostOrder(v, cs[0]), PostForest(v, cs[1..], lo);
    assert PostForest(v, cs, lo) == head + tail;
    if c == cs[0] {
      var i, j :| 0 <= i < j < |head| && head[i] == y && head[j] == x;
      assert (head + tail)[i] == y && (head + tail)[j] == x;
    } else {
      ForestBefore(v, cs[1..], lo, c, y, x);
      var i, j :| 0 <= i < j < |tail| && tail[i] == y && tail[j] == x;
      assert (head + tail)[|head| + i] == y && (head + tail)[|head| + j] == x;
    }
  }

  /** The lengths of the queues of the keys in ks, added up. */
  function TotalLength(b: Queues, ks: seq<Key>): nat {
    if ks == [] then 0 else |Waiting(b, ks[0])| + TotalLength(b, ks[1..])
  }

  /** softBlockCount is the total length of all semaphore queues, however they are listed. */
  lemma SoftBlockCountIsTotalLength(s: KState, ks: seq<Key>)
    requires Inv(s) && NoDup(ks) && Elems(ks) == s.t.blocked.Keys
    ensures s.softBlockCount == TotalLength(s.t.blocked, ks)
  {
    InvWf(s);
    QueuedInUse(s.t);
    AllWaiters(s.t, ks);
    forall x
      ensures x in WaitersOn(s.t.blocked, ks) <==> x in BlockedSet(s.t)
    {
      if x in BlockedSet(s.t) {
        var k :| k in s.t.blocked && x in s.t.blocked[k];
        assert k in Elems(ks);
        WaiterListed(s.t.blocked, ks, k, x);
      }
      if x in WaitersOn(s.t.blocked, ks) {
        var k := ListedWaiter(s.t.blocked, ks, x);
        assert Queued(s.t.blocked, x);
      }
    }
    assert WaitersOn(s.t.blocked, ks) == BlockedSet(s.t);
  }

  function WaitersOn(b: Queues, ks: seq<Key>): set<nat> {
    if ks == [] then {} else Elems(Waiting(b, ks[0])) + WaitersOn(b, ks[1..])
  }

  lemma {:induction false} WaiterListed(b: Queues, ks: seq<Key>, k: Key, x: nat)
    requires k in ks && x in Waiting(b, k)
    ensures x in WaitersOn(b, ks)
  {
    if k != ks[0] {
      WaiterListed(b, ks[1..], k, x);
    }
  }

  lemma {:induction false} ListedWaiter(b: Queues, ks: seq<Key>, x: nat) returns (k: Key)
    requires x in WaitersOn(b, ks)
    ensures k in ks && k in b && x in b[k]
  {
    if x in Waiting(b, ks[0]) {
      k := ks[0];
    } else {
      k := ListedWaiter(b, ks[1..], x);
    }
  }

  lemma OneQueue(t: Procs, j: Key, k: Key, x: nat)
    requires Wf(t) && x in Waiting(t.blocked, j) && x in Waiting(t.blocked, k)
    ensures j == k
  {
    assert BlockedIn(t, j, x) && BlockedIn(t, k, x);
  }

  lemma {:induction false} AllWaiters(t: Procs, ks: seq<Key>)
    requires Wf(t) && NoDup(ks)
    ensures |WaitersOn(t.blocked, ks)| == TotalLength(t.blocked, ks)
  {
    if ks != [] {
      var q, rest := Waiting(t.blocked, ks[0]), WaitersOn(t.blocked, ks[1..]);
      AllWaiters(t, ks[1..]);
      CardElems(q);
      forall x | x in Elems(q)
        ensures x !in rest
      {
        if x in rest {
          var k := ListedWaiter(t.blocked, ks[1..], x);
          OneQueue(t, k, ks[0], x);
        }
      }
    }
  }

  /** Nobody is lost at boot, nor later unless a step that Keeps excludes is taken. */
  lemma BootCovered(m: Machine)
    requires m.ncpu < m.maxproc
    ensures Covered(Start(m))
  {
    var s := Start(m);
    assert 0 in s.t.ready;
    forall x: nat | Live(s, x)
      ensures x == 0
    {
      assert x <= m.ncpu;
    }
  }

  ghost predicate AllKeep(s: KState, es: seq<Event>)
    requires Inv(s) && Legal(s, es)
    decreases |es|
  {
    es != [] ==> Keeps(s, es[0]) && (StepKeepsInv(s, es[0]); AllKeep(Step(s, es[0]), es[1..]))
  }

  /** Along a run that starts covered, everybody is somewhere in every state exactly if every step keeps its caller. */
  ghost predicate AlwaysCovered(s: KState, es: seq<Event>)
    requires Inv(s) && Legal(s, es)
    decreases |es|
  {
    Covered(s) && (es != [] ==> (StepKeepsInv(s, es[0]); AlwaysCovered(Step(s, es[0]), es[1..])))
  }

  lemma {:induction false} NobodyIsLost(s: KState, es: seq<Event>)
    requires Inv(s) && Legal(s, es) && Covered(s)
    ensures AlwaysCovered(s, es) <==> AllKeep(s, es)
    decreases |es|
  {
    if es != [] {
      StepKeepsInv(s, es[0]);
      StepCovers(s, es[0]);
      hide Inv, Step, Enabled, Keeps, Covered;
      if Covered(Step(s, es[0])) {
        NobodyIsLost(Step(s, es[0]), es[1..]);
      }
    }
  }

  /** Whoever is lost is lost for ever: nothing but death changes its lot. */
  lemma {:induction false} LostForever(s: KState, es: seq<Event>, x: nat)
    requires Inv(s) && Legal(s, es) && Lost(s, x) && Spared(s, es, x)
    ensures Lost(Exec(s, es), x)
    decreases |es|
  {
    if es != [] {
      hide Inv, Enabled, Step, Lost, Kills;
      StepKeepsInv(s, es[0]);
      LostStep(s, es[0], x);
      LostForever(Step(s, es[0]), es[1..], x);
    }
  }

  /** The first process gets the only CPU. */
  lemma FirstDispatched(m: Machine)
    requires m.maxproc == 3 && m.ncpu == 1
    ensures
      var s := Start(m);
      && Enabled(s, Dispatch(0, 0))
      && var w := Step(s, Dispatch(0, 0));
      && w.current == [0] && w.onCpu == {0} && w.processCount == 1
      && w.t.free == [2] && w.t.ready == [] && w.t.blocked == map[] && w.t.kids == map[0 := [], 1 := []]
      && |w.t.pcb| == 3
  {
    hide Inv, Zeroed;
  }

  /** It creates a child. */
  lemma ChildCreated(s: KState, a1: Context, a3: int)
    requires Inv(s) && s.current == [0] && s.onCpu == {0} && s.processCount == 1 && |s.t.pcb| == 3
    requires s.t.free == [2] && s.t.ready == [] && s.t.blocked == map[] && s.t.kids == map[0 := [], 1 := []]
    ensures
      var e := Create(0, a1, a3);
      && Enabled(s, e)
      && var w := Step(s, e);
      && w.current == [0] && w.onCpu == {0} && w.processCount == 2 && |w.t.pcb| == 3
      && w.t.free == [] && w.t.ready == [2] && w.t.blocked == map[] && w.t.kids == map[0 := [2], 1 := [], 2 := []]
  {
    hide Inv;
  }

  /** Nobody is ready, waits, or runs. */
  ghost predicate Stuck(s: KState) {
    s.t.ready == [] && s.t.blocked == map[] && s.onCpu == {}
  }

  /** No interrupt or scheduler round ever changes such a state: the machine idles for ever. */
  lemma {:induction false} StuckForever(s: KState, es: seq<Event>)
    requires Inv(s) && Legal(s, es) && Stuck(s)
    ensures Exec(s, es) == s
    decreases |es|
  {
    if es != [] {
      StuckStep(s, es[0]);
      hide Inv, Enabled, Step, Stuck;
      StepKeepsInv(s, es[0]);
      StuckForever(s, es[1..]);
    }
  }

  lemma StuckStep(s: KState, e: Event)
    requires Inv(s) && Enabled(s, e) && Stuck(s)
    ensures Step(s, e) == s
  {
    if e.ClockTick? {
      TickDone(s);
    }
  }

  lemma LeafAlone(t: Procs, x: nat)
    requires Tree(t) && x in t.kids && t.kids[x] == []
    ensures PostOrder(t, x) == [x] && Victims(t, x) == 1
  {
  }

  lemma NobodyWaits(t: Procs, v: nat)
    requires Tree(t) && v in t.kids && t.blocked == map[]
    ensures Kill(t, v).blocked == map[]
  {
    hide Tree, PostOrder;
    PurgeNone(t.blocked, Elems(PostOrder(t, v)));
  }

  lemma FirstIn(s: seq<nat>)
    ensures s != [] ==> s[0] in s
  {
  }

  /** It terminates the child, and is never heard of again. */
  lemma CallerLost(s: KState)
    requires Inv(s) && s.current == [0] && s.onCpu == {0} && s.processCount == 2 && |s.t.pcb| == 3
    requires s.t.free == [] && s.t.ready == [2] && s.t.blocked == map[] && s.t.kids == map[0 := [2], 1 := [], 2 := []]
    ensures
      var e := Terminate(0, 2);
      && Enabled(s, e)
      && var w := Step(s, e);
      Lost(w, 0) && Stuck(w) && w.processCount == 1
  {
    hide Wf, Tree, PostOrder, Kill, Victims, WaitingVictims;
    InvWf(s);
    LeafAlone(s.t, 2);
    hide Inv;
    Survivors(s.t, 2);
    var w := Kill(s.t, 2);
    FirstIn(w.ready);
    NobodyWaits(s.t, 2);
  }

  /**
    Losing a process takes no more than this: a parent that terminates its child is in no queue
    and on no CPU afterwards, so the machine idles for ever with one live process.
  */
  lemma LostExample(m: Machine, a1: Context, a3: int)
    requires m.maxproc == 3 && m.ncpu == 1
    ensures
      var s := Start(m);
      var es := [Dispatch(0, 0)] + ([Create(0, a1, a3)] + [Terminate(0, 2)]);
      && Legal(s, es) && !AllKeep(s, es)
      && var w := Exec(s, es);
      Lost(w, 0) && Stuck(w) && w.processCount == 1
  {
    hide Inv, Zeroed, Start, Step, Enabled, Live, Placed, Keeps, Covered, AlwaysCovered, AllKeep, Legal, Exec;
    var s := Start(m);
    var d, c, e := Dispatch(0, 0), Create(0, a1, a3), Terminate(0, 2);
    FirstDispatched(m);
    StepKeepsInv(s, d);
    var a := Step(s, d);
    ChildCreated(a, a1, a3);
    StepKeepsInv(a, c);
    var b := Step(a, c);
    CallerLost(b);
    ExecOne(b, e);
    ExecCons(a, c, [e]);
    ExecCons(s, d, [c] + [e]);
    BootCovered(m);
    NobodyIsLost(s, [d] + ([c] + [e]));
    NotCovered(Step(b, e), 0);
    if AlwaysCovered(s, [d] + ([c] + [e])) {
      CoveredAtEnd(s, [d] + ([c] + [e]));
    }
  }

  /** Who is always covered is covered at the end. */
  lemma {:induction false} CoveredAtEnd(s: KState, es: seq<Event>)
    requires Inv(s) && Legal(s, es) && AlwaysCovered(s, es)
    ensures Covered(Exec(s, es))
    decreases |es|
  {
    if es != [] {
      hide Inv, Enabled, Step, Covered;
      StepKeepsInv(s, es[0]);
      CoveredAtEnd(Step(s, es[0]), es[1..]);
    }
  }

  lemma NotCovered(s: KState, x: nat)
    requires Live(s, x) && !Placed(s, x)
    ensures !Covered(s)
  {
  }

  /** On two CPUs: one runs the first process, and the other the child that it creates. */
  lemma ChildRuns(m: Machine, a1: Context, a3: int)
    requires m.maxproc == 4 && m.ncpu == 2
    ensures
      var s := Start(m);
      && Enabled(s, Dispatch(0, 0))
      && var a := Step(s, Dispatch(0, 0));
      && Inv(a) && Enabled(a, Create(0, a1, a3))
      && var b := Step(a, Create(0, a1, a3));
      && Inv(b) && Enabled(b, Dispatch(1, 0))
      && var w := Step(b, Dispatch(1, 0));
      w.current == [0, 3] && w.onCpu == {0, 1} && w.t.free == [] && 3 in w.t.kids
  {
    hide Inv, Zeroed;
    var s := Start(m);
    StepKeepsInv(s, Dispatch(0, 0));
    var a := Step(s, Dispatch(0, 0));
    assert a.t.free == [3] && a.t.ready == [] && a.current == [0, 2] && a.onCpu == {0};
    StepKeepsInv(a, Create(0, a1, a3));
    var b := Step(a, Create(0, a1, a3));
    assert b.t.ready == [3] && b.t.free == [];
  }

  /**
    removePcb does not look at the other CPUs: a run from boot after which the first process can
    terminate a child that the second CPU runs, and that CPU goes on running a free PCB.
  */
  lemma FreedWhileRunning(m: Machine, a1: Context, a3: int)
    requires m.maxproc == 4 && m.ncpu == 2
    ensures
      var es := [Dispatch(0, 0)] + ([Create(0, a1, a3)] + [Dispatch(1, 0)]);
      && Legal(Start(m), es)
      && var s := Exec(Start(m), es);
      && Inv(s) && 0 in s.onCpu && Live(s, 3) && !HeldByNoOther(s, 0, 3)
      && var w := Remove(s, 3).(onCpu := s.onCpu - {0});
      3 in w.t.free && OnCpu(w, 1, 3)
  {
    hide Inv, Zeroed, Start, Step, Enabled, PostOrder, Kill, Legal, Exec;
    var s := Start(m);
    var d, e, f := Dispatch(0, 0), Create(0, a1, a3), Dispatch(1, 0);
    ChildRuns(m, a1, a3);
    var a := Step(s, d);
    var b := Step(a, e);
    ExecOne(b, f);
    ExecCons(a, e, [f]);
    ExecCons(s, d, [e] + [f]);
    var w := Step(b, f);
    RootOfSubtree(w, 3);
    RunsFreed(w, 0, 3, 1);
  }

  lemma RootOfSubtree(s: KState, v: nat)
    requires Inv(s) && Live(s, v)
    ensures v in PostOrder(s.t, v)
  {
    InvWf(s);
    SubtreeMember(s.t, v, v);
  }
}
