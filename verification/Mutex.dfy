/** Mutual exclusion by a semaphore that starts at 1 (phase2/p2test.c:118-127). */
module Mutex {
  import opened Seqs
  import opened Types
  import opened Procs
  import opened Forest
  import opened Removal
  import opened Devices
  import opened State
  import opened Invariant
  import opened Runs
  import opened Semaphores

  /** The process that calls. */
  ghost function Caller(s: KState, e: Event): nat
    requires Inv(s) && Enabled(s, e) && (e.Passeren? || e.Verhogen?)
  {
    CurrentParts(s, e.c);
    s.current[e.c]
  }

  /**
    The processes inside the section guarded by k after step e: a completed P lets a process in,
    also when it was waiting and a V hands the semaphore over; a V lets it out, and so does death.
  */
  ghost function Inside(s: KState, e: Event, k: Key, inside: set<nat>): set<nat>
    requires Inv(s) && Enabled(s, e)
  {
    var q := Waiting(s.t.blocked, k);
    match e
    case Passeren(_, j, _, _) => if j == k && Val(s, k) > 0 then inside + {Caller(s, e)} else inside
    case Verhogen(_, j, _, _) =>
      if j != k then inside
      else inside - {Caller(s, e)} + (if Val(s, k) < 1 && q != [] then {q[0]} else {})
    case Terminate(_, v) => inside - Elems(PostOrder(s.t, v))
    case _ => inside
  }

  /** Sections are bracketed: P only from outside, V only from inside. */
  ghost predicate Bracketed(s: KState, e: Event, k: Key, inside: set<nat>)
    requires Inv(s) && Enabled(s, e)
  {
    && (e.Passeren? && e.key == k ==> Caller(s, e) !in inside)
    && (e.Verhogen? && e.key == k ==> Caller(s, e) in inside)
  }

  /** At most one process is inside; nobody is while the semaphore is 1, and then nobody waits. */
  ghost predicate Exclusive(s: KState, k: Key, inside: set<nat>) {
    && k.User? && Binary(s, k)
    && (Val(s, k) == 1 ==> inside == {} && Waiting(s.t.blocked, k) == [])
    && (forall x, y :: x in inside && y in inside ==> x == y)
    && (forall x :: x in inside ==> InUse(s.t, x) && x !in Waiting(s.t.blocked, k))
  }

  lemma ExclusiveBlocks(s: KState, w: KState, k: Key, inside: set<nat>, c: nat, j: Key, r: Request)
    requires Exclusive(s, k, inside) && Binary(w, k) && SameUse(s, w) && Blocks(s, w, c, j, r, k)
    requires j == k ==> s.current[c] !in inside && Val(s, k) != 1
    ensures Exclusive(w, k, inside)
  {
    hide Binary;
  }

  lemma ExclusiveWakesOther(s: KState, w: KState, k: Key, inside: set<nat>, j: Key)
    requires Exclusive(s, k, inside) && Binary(w, k) && SameUse(s, w) && Wakes(s, w, j, k) && j != k
    ensures Exclusive(w, k, inside)
  {
    hide Binary, InUse;
    ExclusiveOther(s, w, k, inside);
  }

  lemma ExclusiveStoresOther(s: KState, w: KState, k: Key, inside: set<nat>, j: Key, v: int)
    requires Exclusive(s, k, inside) && Binary(w, k) && SameUse(s, w) && Stores(s, w, j, v, k) && j != k
    ensures Exclusive(w, k, inside)
  {
    hide Binary, InUse;
    ExclusiveOther(s, w, k, inside);
  }

  lemma ExclusiveOther(s: KState, w: KState, k: Key, inside: set<nat>)
    requires Exclusive(s, k, inside) && Binary(w, k) && Val(w, k) == Val(s, k)
    requires Waiting(w.t.blocked, k) == Waiting(s.t.blocked, k)
    requires forall x :: x in inside && InUse(s.t, x) ==> InUse(w.t, x)
    ensures Exclusive(w, k, inside)
  {
    hide Binary;
  }

  /** The semaphore is handed to its longest waiter. */
  lemma ExclusiveHandOff(s: KState, w: KState, k: Key, inside: set<nat>)
    requires Exclusive(s, k, inside) && Binary(w, k) && SameUse(s, w) && Wakes(s, w, k, k)
    requires NoDup(Waiting(s.t.blocked, k)) && forall x :: x in Waiting(s.t.blocked, k) ==> InUse(s.t, x)
    ensures Exclusive(w, k, {Waiting(s.t.blocked, k)[0]})
  {
    hide Binary, Waiting;
    var q := Waiting(s.t.blocked, k);
    assert q[0] in q;
    MinusFirst(q);
  }

  /** The semaphore is taken by x, or given back. */
  lemma ExclusiveStores(s: KState, w: KState, k: Key, inside: set<nat>, v: int, x: nat)
    requires Exclusive(s, k, inside) && Binary(w, k) && SameUse(s, w) && Stores(s, w, k, v, k)
    requires InUse(s.t, x)
    ensures v == 0 ==> Exclusive(w, k, {x})
    ensures v == 1 ==> Exclusive(w, k, {})
  {
    hide Binary, InUse;
  }

  lemma ExclusiveFacts(s: KState, k: Key, inside: set<nat>)
    requires Exclusive(s, k, inside)
    ensures k.User? && Binary(s, k) && (Val(s, k) == 0 || Val(s, k) == 1)
    ensures Val(s, k) == 1 ==> inside == {} && Waiting(s.t.blocked, k) == []
    ensures forall x :: x in inside ==> inside == {x}
  {
    forall x | x in inside
      ensures inside == {x}
    {
    }
  }

  /** What changes for the processes inside, in terms of the caller. */
  lemma InsideOperation(s: KState, e: Event, k: Key, inside: set<nat>)
    requires Inv(s) && Enabled(s, e) && (PKey(e).Some? || e.Verhogen?)
    requires Exclusive(s, k, inside) && Bracketed(s, e, k, inside)
    ensures e.c < |s.current|
    ensures
      var x, next, q := s.current[e.c], Inside(s, e, k, inside), Waiting(s.t.blocked, k);
      && (PKey(e).Some? && PKey(e) != Some(k) ==> next == inside)
      && (PKey(e) == Some(k) ==> x !in inside && next == if Val(s, k) == 1 then {x} else inside)
      && (e.Verhogen? && e.key != k ==> next == inside)
      && (e.Verhogen? && e.key == k ==> Val(s, k) == 0 && next == if q == [] then {} else {q[0]})
  {
    hide Inv, Binary, Waiting, CommandIndex;
    CurrentParts(s, e.c);
    ExclusiveFacts(s, k, inside);
  }

  lemma PKeeps(s: KState, e: Event, k: Key, inside: set<nat>)
    requires Inv(s) && Enabled(s, e) && Exclusive(s, k, inside) && Bracketed(s, e, k, inside)
    requires PKey(e).Some?
    ensures Exclusive(Step(s, e), k, Inside(s, e, k, inside))
  {
    hide Inv, Enabled, Step, Binary, InUse, Blocks, Wakes, Stores, SameUse, Exclusive, Bracketed, Inside, Waiting;
    StepBinary(s, e, k, inside);
    InsideOperation(s, e, k, inside);
    OperationEffect(s, e, k);
    var w, j, x := Step(s, e), PKey(e).value, s.current[e.c];
    if Val(s, j) <= 0 {
      var r :| Blocks(s, w, e.c, j, r, k);
      ExclusiveBlocks(s, w, k, inside, e.c, j, r);
    } else if Waiting(s.t.blocked, j) != [] {
      ExclusiveWakesOther(s, w, k, inside, j);
    } else if j != k {
      ExclusiveStoresOther(s, w, k, inside, j, 0);
    } else {
      ExclusiveStores(s, w, k, inside, 0, x);
    }
  }

  lemma VKeeps(s: KState, e: Event, k: Key, inside: set<nat>)
    requires Inv(s) && Enabled(s, e) && Exclusive(s, k, inside) && Bracketed(s, e, k, inside)
    requires e.Verhogen?
    ensures Exclusive(Step(s, e), k, Inside(s, e, k, inside))
  {
    hide Inv, Enabled, Step, Binary, InUse, Blocks, Wakes, Stores, SameUse, Exclusive, Bracketed, Inside, PKey, Waiting;
    StepBinary(s, e, k, inside);
    InsideOperation(s, e, k, inside);
    OperationEffect(s, e, k);
    QueueFacts(s, k);
    var w, j, x := Step(s, e), e.key, s.current[e.c];
    if Val(s, j) >= 1 {
      var r :| Blocks(s, w, e.c, j, r, k);
      ExclusiveBlocks(s, w, k, inside, e.c, j, r);
    } else if Waiting(s.t.blocked, j) != [] {
      if j == k {
        ExclusiveHandOff(s, w, k, inside);
      } else {
        ExclusiveWakesOther(s, w, k, inside, j);
      }
    } else if j == k {
      ExclusiveStores(s, w, k, inside, 1, x);
    } else {
      ExclusiveStoresOther(s, w, k, inside, j, 1);
    }
  }

  lemma StepBinary(s: KState, e: Event, k: Key, inside: set<nat>)
    requires Inv(s) && Enabled(s, e) && Exclusive(s, k, inside)
    ensures Binary(Step(s, e), k) && (Val(s, k) == 0 || Val(s, k) == 1)
    ensures Val(s, k) == 1 ==> Waiting(s.t.blocked, k) == []
  {
    hide Inv, Enabled, Step, Binary, Waiting, Done;
    ExclusiveFacts(s, k, inside);
    StepBalance(s, e, k);
  }

  lemma BinaryKinds(s: KState, k: Key)
    requires Binary(s, k)
    ensures Val(s, k) == 0 || Val(s, k) == 1
  {
  }

  /** Waiters are in use, and nobody waits twice. */
  lemma QueueFacts(s: KState, k: Key)
    requires Inv(s)
    ensures NoDup(Waiting(s.t.blocked, k))
    ensures forall x :: x in Waiting(s.t.blocked, k) ==> InUse(s.t, x)
  {
    forall x | x in Waiting(s.t.blocked, k)
      ensures InUse(s.t, x)
    {
      assert BlockedIn(s.t, k, x);
    }
  }

  lemma RemoveKeeps(s: KState, e: Event, k: Key, inside: set<nat>)
    requires Inv(s) && Enabled(s, e) && Exclusive(s, k, inside) && e.Terminate?
    ensures Exclusive(Step(s, e), k, Inside(s, e, k, inside))
  {
    hide Inv, Binary, Kill, Wf, Tree, PostOrder, Queued, Victims, WaitingVictims;
    StepBalance(s, e, k);
    InvWf(s);
    Survivors(s.t, e.victim);
    BinaryKinds(s, k);
    RemoveBinary(s, e.c, e.victim, k);
    EmptyStays(s.t.blocked, Step(s, e).t.blocked, k);
  }

  lemma EmptyStays(b: Queues, c: Queues, k: Key)
    requires forall x :: x in Waiting(c, k) ==> x in Waiting(b, k)
    ensures Waiting(b, k) == [] ==> Waiting(c, k) == []
  {
    if Waiting(c, k) != [] {
      assert Waiting(c, k)[0] in Waiting(c, k);
    }
  }

  lemma OthersKeep(s: KState, e: Event, k: Key, inside: set<nat>)
    requires Inv(s) && Enabled(s, e) && Exclusive(s, k, inside)
    requires PKey(e) == None && !e.Verhogen? && !e.Terminate?
    ensures Exclusive(Step(s, e), k, Inside(s, e, k, inside))
  {
    hide Inv, Binary, Done;
    StepBalance(s, e, k);
    OthersEffect(s, e, k);
    ExclusiveOther(s, Step(s, e), k, inside);
  }

  lemma OthersEffect(s: KState, e: Event, k: Key)
    requires Inv(s) && Enabled(s, e) && k.User?
    requires PKey(e) == None && !e.Verhogen? && !e.Terminate?
    ensures Val(Step(s, e), k) == Val(s, k) && Waiting(Step(s, e).t.blocked, k) == Waiting(s.t.blocked, k)
    ensures forall x :: InUse(s.t, x) ==> InUse(Step(s, e).t, x)
  {
    hide Inv, Wf, Queued;
    InvWf(s);
    match e
    case Create(c, a1, a3) => CurrentParts(s, c);
    case EndSlice(c, _, _) => CurrentParts(s, c);
    case DeviceIrq(c, line, dev, _, _) => Heads(s.t);
    case _ =>
  }

  /** One step of bracketed processes keeps the section exclusive. */
  lemma StepExclusive(s: KState, e: Event, k: Key, inside: set<nat>)
    requires Inv(s) && Enabled(s, e) && Exclusive(s, k, inside) && Bracketed(s, e, k, inside)
    ensures Exclusive(Step(s, e), k, Inside(s, e, k, inside))
    ensures e.Verhogen? && e.key == k ==> e.c in Step(s, e).onCpu
  {
    hide Inv, Exclusive, Bracketed, Inside;
    if PKey(e).Some? {
      PKeeps(s, e, k, inside);
    } else if e.Verhogen? {
      VKeeps(s, e, k, inside);
      VGoesOn(s, e, k, inside);
    } else if e.Terminate? {
      RemoveKeeps(s, e, k, inside);
    } else {
      OthersKeep(s, e, k, inside);
    }
  }

  /** A V by a process inside never blocks it. */
  lemma VGoesOn(s: KState, e: Event, k: Key, inside: set<nat>)
    requires Inv(s) && Enabled(s, e) && Exclusive(s, k, inside) && Bracketed(s, e, k, inside)
    requires e.Verhogen?
    ensures e.key == k ==> e.c in Step(s, e).onCpu
  {
    hide Inv, Exclusive, Bracketed, V;
    OnCpuP(s, e.c, e.key, ByV, e.exc, e.now);
    if e.key == k {
      ValueInside(s, e, k, inside);
    }
  }

  lemma ValueInside(s: KState, e: Event, k: Key, inside: set<nat>)
    requires Inv(s) && Enabled(s, e) && Exclusive(s, k, inside) && Bracketed(s, e, k, inside)
    requires e.Verhogen? && e.key == k
    ensures Val(s, k) == 0
  {
    hide Inv;
    BinaryKinds(s, k);
  }

  /** Who is inside after a run. */
  ghost function InsideAfter(s: KState, es: seq<Event>, k: Key, inside: set<nat>): set<nat>
    requires Inv(s) && Legal(s, es)
    decreases |es|
  {
    if es == [] then inside
    else
      StepKeepsInv(s, es[0]);
      InsideAfter(Step(s, es[0]), es[1..], k, Inside(s, es[0], k, inside))
  }

  ghost predicate AllBracketed(s: KState, es: seq<Event>, k: Key, inside: set<nat>)
    requires Inv(s) && Legal(s, es)
    decreases |es|
  {
    es != [] ==>
      && Bracketed(s, es[0], k, inside)
      && (StepKeepsInv(s, es[0]); AllBracketed(Step(s, es[0]), es[1..], k, Inside(s, es[0], k, inside)))
  }

  /** No V on k in the run blocks its caller. */
  ghost predicate VsGoOn(s: KState, es: seq<Event>, k: Key)
    requires Inv(s) && Legal(s, es)
    decreases |es|
  {
    es != [] ==>
      && (es[0].Verhogen? && es[0].key == k ==> es[0].c in Step(s, es[0]).onCpu)
      && (StepKeepsInv(s, es[0]); VsGoOn(Step(s, es[0]), es[1..], k))
  }

  /**
    Mutual exclusion: if processes bracket their sections with P and V on k, never more than
    one is inside, whoever is handed the semaphore and whoever is killed, and no V ever blocks.
  */
  lemma {:induction false} MutualExclusion(s: KState, es: seq<Event>, k: Key, inside: set<nat>)
    requires Inv(s) && Legal(s, es) && Exclusive(s, k, inside) && AllBracketed(s, es, k, inside)
    ensures Exclusive(Exec(s, es), k, InsideAfter(s, es, k, inside))
    ensures |InsideAfter(s, es, k, inside)| <= 1
    ensures VsGoOn(s, es, k)
    decreases |es|
  {
    if es != [] {
      StepKeepsInv(s, es[0]);
      StepExclusive(s, es[0], k, inside);
      MutualExclusion(Step(s, es[0]), es[1..], k, Inside(s, es[0], k, inside));
    } else {
      AtMostOne(inside);
    }
  }

  lemma AtMostOne(a: set<nat>)
    requires forall x, y :: x in a && y in a ==> x == y
    ensures |a| <= 1
  {
    if a != {} {
      var x :| x in a;
      assert a == {x};
    }
  }

  /** A user semaphore with value 1 and no waiters guards an empty section. */
  lemma StartsExclusive(s: KState, k: Key)
    requires k.User? && Val(s, k) == 1 && k !in s.t.blocked
    ensures Exclusive(s, k, {})
  {
  }

  /** In particular from boot, if the semaphore's word is 1 in the memory of the machine. */
  lemma MutexFromBoot(m: Machine, es: seq<Event>, k: Key)
    requires Reaches(m, es) && k.User? && k in m.memory && m.memory[k] == 1
    requires AllBracketed(Start(m), es, k, {})
    ensures
      && |InsideAfter(Start(m), es, k, {})| <= 1
      && Exclusive(After(m, es), k, InsideAfter(Start(m), es, k, {}))
      && VsGoOn(Start(m), es, k)
  {
    ZeroedUser(m.memory, PSEUDO_CLOCK_SEM + 1, k);
    StartsExclusive(Start(m), k);
    MutualExclusion(Start(m), es, k, {});
  }
}
