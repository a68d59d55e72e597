/** What holds of one semaphore over every run. */
module Semaphores {
  import opened Types
  import opened Procs
  import opened Forest
  import opened Removal
  import opened Devices
  import opened State
  import opened Invariant
  import opened Runs

  /** Completed operations on one semaphore. An interrupt that wakes a waiter counts as a V. */
  datatype Tally = Tally(p: nat, v: nat)

  function Plus(a: Tally, b: Tally): Tally {
    Tally(a.p + b.p, a.v + b.v)
  }

  /** The blocked operations that are completed when the processes of q are woken. */
  function Finished(why: map<nat, Request>, q: seq<nat>): Tally {
    if q == [] then Tally(0, 0)
    else Plus(if q[0] in why && why[q[0]] == ByV then Tally(0, 1) else Tally(1, 0), Finished(why, q[1..]))
  }

  /** The key on which a step does a P, if it does one. */
  function PKey(e: Event): Option<Key> {
    match e
    case Passeren(_, k, _, _) => Some(k)
    case DoIo(_, a, _, _) => Some(Device(CommandIndex(a)))
    case ClockWait(_, _, _) => Some(CLOCK)
    case _ => None
  }

  /** The operations on k that a step completes. */
  ghost function Done(s: KState, e: Event, k: Key): Tally
    requires Inv(s) && Enabled(s, e)
  {
    var q := Waiting(s.t.blocked, k);
    var first := Finished(s.why, if q == [] then [] else [q[0]]);
    if PKey(e) == Some(k) then
      if Val(s, k) <= 0 then Tally(0, 0) else Plus(Tally(1, 0), first)
    else if e.Verhogen? && e.key == k then
      if Val(s, k) >= 1 then Tally(0, 0) else Plus(Tally(0, 1), first)
    else if e.DeviceIrq? && IrqKey(s, e.line, e.dev) == k && q != [] then
      Plus(Tally(0, 1), first)
    else if e.ClockTick? && k == CLOCK then
      Plus(Tally(0, |q|), Finished(s.why, q))
    else
      Tally(0, 0)
  }

  /** All waiters on k are blocked in a V if its value is positive, and none is otherwise. */
  ghost predicate SameKind(s: KState, k: Key) {
    forall x :: x in Waiting(s.t.blocked, k) ==> KindIs(s, x, Val(s, k) >= 1)
  }

  ghost predicate KindIs(s: KState, x: nat, v: bool) {
    x in s.why && (s.why[x] == ByV <==> v)
  }

  /** A binary semaphore; the kernel's own ones are never positive. */
  ghost predicate Binary(s: KState, k: Key) {
    && (Val(s, k) == 0 || Val(s, k) == 1) && SameKind(s, k)
    && (k.Device? ==> Val(s, k) == 0)
  }

  /** PASSEREN and VERHOGEN are used on the processes' own semaphores only. */
  predicate OwnKeys(e: Event) {
    e.Passeren? || e.Verhogen? ==> e.key.User?
  }

  /** A step that is allowed to touch semaphore k. */
  predicate Fair(e: Event, k: Key) {
    k.User? || OwnKeys(e)
  }

  lemma WaitingBlock(s: KState, c: nat, k: Key, r: Request, exc: Context, now: int, j: Key)
    requires Inv(s) && c in s.onCpu
    ensures c < |s.current| && s.current[c] < |s.t.pcb|
    ensures
      var w := Block(s, c, k, r, exc, now);
      && Val(w, j) == Val(s, j)
      && Waiting(w.t.blocked, j) == Waiting(s.t.blocked, j) + (if j == k then [s.current[c]] else [])
      && w.why == s.why[s.current[c] := r] && s.current[c] !in Waiting(s.t.blocked, j)
  {
    CurrentParts(s, c);
    assert Waiting(s.t.blocked, j) + [] == Waiting(s.t.blocked, j);
  }

  lemma WaitingWake(s: KState, k: Key, j: Key)
    requires Inv(s) && k in s.t.blocked
    ensures s.t.blocked[k] != []
    ensures
      var w := Wake(s, k);
      && Val(w, j) == Val(s, j) && w.why == s.why && s.t.blocked[k][0] in w.t.ready
      && Waiting(w.t.blocked, j) == (if j == k then s.t.blocked[k][1..] else Waiting(s.t.blocked, j))
  {
    InvWf(s);
  }

  /** What waking the longest waiter completes. */
  lemma FirstKind(s: KState, k: Key)
    requires SameKind(s, k)
    ensures
      var q := Waiting(s.t.blocked, k);
      q != [] ==> Finished(s.why, [q[0]]) == if Val(s, k) >= 1 then Tally(0, 1) else Tally(1, 0)
  {
    var q := Waiting(s.t.blocked, k);
    if q != [] {
      assert q[0] in q && KindIs(s, q[0], Val(s, k) >= 1);
      assert [q[0]][1..] == [];
    }
  }

  /** What a P or V that blocks, wakes or stores does to semaphore j. */
  ghost predicate Blocks(s: KState, w: KState, c: nat, k: Key, r: Request, j: Key) {
    && c < |s.current| && s.current[c] !in Waiting(s.t.blocked, j)
    && Val(w, j) == Val(s, j) && w.why == s.why[s.current[c] := r]
    && Waiting(w.t.blocked, j) == Waiting(s.t.blocked, j) + (if j == k then [s.current[c]] else [])
  }

  ghost predicate Wakes(s: KState, w: KState, k: Key, j: Key) {
    && Waiting(s.t.blocked, k) != [] && Waiting(s.t.blocked, k)[0] in w.t.ready
    && Val(w, j) == Val(s, j) && w.why == s.why
    && Waiting(w.t.blocked, j) == if j == k then Waiting(s.t.blocked, k)[1..] else Waiting(s.t.blocked, j)
  }

  ghost predicate Stores(s: KState, w: KState, k: Key, v: int, j: Key) {
    && Waiting(s.t.blocked, k) == [] && Val(w, j) == (if j == k then v else Val(s, j)) && w.why == s.why
    && Waiting(w.t.blocked, j) == Waiting(s.t.blocked, j)
  }

  lemma PEffect(s: KState, c: nat, k: Key, r: Request, exc: Context, now: int, j: Key)
    requires Inv(s) && c in s.onCpu
    ensures c < |s.current| && s.current[c] < |s.t.pcb| && (k in s.t.blocked ==> s.t.blocked[k] != [])
    ensures
      var w := P(s, c, k, r, exc, now);
      if Val(s, k) <= 0 then Blocks(s, w, c, k, r, j)
      else if Waiting(s.t.blocked, k) != [] then Wakes(s, w, k, j) else Stores(s, w, k, 0, j)
    ensures
      var w := V(s, c, k, r, exc, now);
      if Val(s, k) >= 1 then Blocks(s, w, c, k, r, j)
      else if Waiting(s.t.blocked, k) != [] then Wakes(s, w, k, j) else Stores(s, w, k, 1, j)
  {
    hide Inv, Block, Wake;
    ParametersP(s, c, k);
    WaitingBlock(s, c, k, r, exc, now, j);
    if k in s.t.blocked {
      WaitingWake(s, k, j);
    }
  }

  /** Nobody is created or ends. */
  ghost predicate SameUse(s: KState, w: KState) {
    forall x :: InUse(w.t, x) <==> InUse(s.t, x)
  }

  /** The effect of a P or V step on semaphore k. */
  lemma OperationEffect(s: KState, e: Event, k: Key)
    requires Inv(s) && Enabled(s, e) && (e.Verhogen? || PKey(e).Some?)
    ensures e.c in s.onCpu && e.c < |s.current| && InUse(s.t, s.current[e.c])
    ensures SameUse(s, Step(s, e))
    ensures PKey(e).Some? ==>
      var w, j := Step(s, e), PKey(e).value;
      if Val(s, j) <= 0 then exists r :: Blocks(s, w, e.c, j, r, k)
      else if Waiting(s.t.blocked, j) != [] then Wakes(s, w, j, k) else Stores(s, w, j, 0, k)
    ensures e.Verhogen? ==>
      var w, j := Step(s, e), e.key;
      if Val(s, j) >= 1 then exists r :: Blocks(s, w, e.c, j, r, k)
      else if Waiting(s.t.blocked, j) != [] then Wakes(s, w, j, k) else Stores(s, w, j, 1, k)
  {
    hide Inv, Blocks, Wakes, Stores;
    CurrentParts(s, e.c);
    if e.Verhogen? {
      PEffect(s, e.c, e.key, ByV, e.exc, e.now, k);
    } else {
      var r := if e.Passeren? then ByP else if e.DoIo? then ByIo(e.address) else ByClock;
      PEffect(s, e.c, PKey(e).value, r, e.exc, e.now, k);
    }
  }

  lemma BlocksBinary(s: KState, w: KState, c: nat, k: Key, r: Request, j: Key)
    requires Binary(s, j) && Blocks(s, w, c, k, r, j)
    requires j == k ==> (r == ByV <==> Val(s, k) >= 1)
    ensures Binary(w, j)
  {
    forall x | x in Waiting(w.t.blocked, j)
      ensures KindIs(w, x, Val(w, j) >= 1)
    {
      assert x in Waiting(s.t.blocked, j) ==> KindIs(s, x, Val(s, j) >= 1);
    }
  }

  lemma WakesBinary(s: KState, w: KState, k: Key, j: Key)
    requires Binary(s, j) && Wakes(s, w, k, j)
    ensures Binary(w, j)
  {
    BinaryLess(s, w, j);
  }

  lemma StoresBinary(s: KState, w: KState, k: Key, v: int, j: Key)
    requires Binary(s, j) && Stores(s, w, k, v, j) && (v == 0 || v == 1) && (j == k ==> v == 0 || k.User?)
    ensures Binary(w, j)
  {
    if j != k {
      BinaryLess(s, w, j);
    }
  }

  /** P and V keep a binary semaphore binary, and its value counts the completed operations. */
  lemma PBalance(s: KState, c: nat, k: Key, r: Request, exc: Context, now: int, j: Key)
    requires Inv(s) && c in s.onCpu && Binary(s, j) && r != ByV
    ensures c < |s.current| && s.current[c] < |s.t.pcb| && (k in s.t.blocked ==> s.t.blocked[k] != [])
    ensures
      var w, q := P(s, c, k, r, exc, now), Waiting(s.t.blocked, k);
      var first := Finished(s.why, if q == [] then [] else [q[0]]);
      && Binary(w, j)
      && (j != k || Val(s, k) <= 0 ==> Val(w, j) == Val(s, j))
      && (j == k && Val(s, k) > 0 ==> Val(w, k) == Val(s, k) + first.v - first.p - 1)
  {
    PEffect(s, c, k, r, exc, now, j);
    FirstKind(s, j);
    hide Inv, P, V, SameKind, Finished;
    var w := P(s, c, k, r, exc, now);
    if Val(s, k) <= 0 {
      BlocksBinary(s, w, c, k, r, j);
    } else if Waiting(s.t.blocked, k) != [] {
      WakesBinary(s, w, k, j);
    } else {
      StoresBinary(s, w, k, 0, j);
      NoneFinished(s.why);
    }
  }

  lemma NoneFinished(why: map<nat, Request>)
    ensures Finished(why, []) == Tally(0, 0)
  {
  }

  lemma VBalance(s: KState, c: nat, k: Key, exc: Context, now: int, j: Key)
    requires Inv(s) && c in s.onCpu && Binary(s, j) && (j == k ==> k.User?)
    ensures c < |s.current| && s.current[c] < |s.t.pcb| && (k in s.t.blocked ==> s.t.blocked[k] != [])
    ensures
      var w, q := V(s, c, k, ByV, exc, now), Waiting(s.t.blocked, k);
      var first := Finished(s.why, if q == [] then [] else [q[0]]);
      && Binary(w, j)
      && (j != k || Val(s, k) >= 1 ==> Val(w, j) == Val(s, j))
      && (j == k && Val(s, k) < 1 ==> Val(w, k) == Val(s, k) + first.v - first.p + 1)
  {
    PEffect(s, c, k, ByV, exc, now, j);
    FirstKind(s, j);
    hide Inv, P, V, SameKind, Finished;
    var w := V(s, c, k, ByV, exc, now);
    if Val(s, k) >= 1 {
      BlocksBinary(s, w, c, k, ByV, j);
    } else if Waiting(s.t.blocked, k) != [] {
      WakesBinary(s, w, k, j);
    } else {
      StoresBinary(s, w, k, 1, j);
      NoneFinished(s.why);
    }
  }

  /** An interrupt finishes as many Ps as it stands for Vs. */
  lemma {:induction false} FinishedPs(s: KState, k: Key, q: seq<nat>)
    requires forall x :: x in q ==> KindIs(s, x, false)
    ensures Finished(s.why, q) == Tally(|q|, 0)
  {
    if q != [] {
      assert q[0] in q;
      FinishedPs(s, k, q[1..]);
    }
  }

  /** A step that leaves value and reasons alone, and at most shortens the queue. */
  lemma BinaryLess(s: KState, w: KState, k: Key)
    requires Binary(s, k) && Val(w, k) == Val(s, k)
    requires forall x :: x in Waiting(w.t.blocked, k) ==> x in Waiting(s.t.blocked, k)
    requires forall x :: x in Waiting(w.t.blocked, k) && x in s.why ==> x in w.why && w.why[x] == s.why[x]
    ensures Binary(w, k)
  {
    forall x | x in Waiting(w.t.blocked, k)
      ensures KindIs(w, x, Val(w, k) >= 1)
    {
      assert KindIs(s, x, Val(s, k) >= 1);
    }
  }

  /** What an interrupt does to semaphore k. */
  lemma IrqEffect(s: KState, e: Event, k: Key)
    requires Inv(s) && Enabled(s, e) && e.DeviceIrq?
    ensures
      var w, q := Step(s, e), Waiting(s.t.blocked, k);
      && w.why == s.why
      && (k == IrqKey(s, e.line, e.dev) && q != [] ==> Waiting(w.t.blocked, k) == q[1..] && Val(w, k) == 0)
      && (k != IrqKey(s, e.line, e.dev) || q == [] ==> Waiting(w.t.blocked, k) == q && Val(w, k) == Val(s, k))
  {
    hide Inv;
    InvWf(s);
    Heads(s.t);
    if IrqKey(s, e.line, e.dev) in s.t.blocked {
      WaitingWake(s, IrqKey(s, e.line, e.dev), k);
    }
  }

  lemma IrqBalance(s: KState, e: Event, k: Key)
    requires Inv(s) && Enabled(s, e) && e.DeviceIrq? && Binary(s, k)
    ensures Binary(Step(s, e), k)
    ensures Val(Step(s, e), k) == Val(s, k) + Done(s, e, k).v - Done(s, e, k).p
  {
    hide Inv, Enabled, Step, SameKind, Finished, Waiting, Val;
    FirstKind(s, k);
    IrqEffect(s, e, k);
    assert PKey(e) == None;
    BinaryLess(s, Step(s, e), k);
  }

  lemma TickBalance(s: KState, k: Key)
    requires Inv(s) && Binary(s, k)
    ensures Binary(Tick(s), k) && Val(Tick(s), k) == Val(s, k)
    ensures Val(s, k) == Val(s, k) + Done(s, ClockTick, k).v - Done(s, ClockTick, k).p
  {
    hide Inv, Wf, Enabled;
    BinaryLess(s, Tick(s), k);
    if k == CLOCK {
      ClockKinds(s);
      FinishedPs(s, k, Waiting(s.t.blocked, k));
      hide Finished, SameKind, KindIs;
    }
  }

  lemma ClockKinds(s: KState)
    requires Binary(s, CLOCK)
    ensures forall x :: x in Waiting(s.t.blocked, CLOCK) ==> KindIs(s, x, false)
  {
  }

  lemma RemoveBinary(s: KState, c: nat, v: nat, k: Key)
    requires Inv(s) && Enabled(s, Terminate(c, v)) && Binary(s, k)
    ensures Binary(Step(s, Terminate(c, v)), k)
    ensures Val(Step(s, Terminate(c, v)), k) == Val(s, k)
  {
    hide Kill, Wf, Tree, PostOrder, Queued, Victims, WaitingVictims;
    InvWf(s);
    Survivors(s.t, v);
    BinaryLess(s, Step(s, Terminate(c, v)), k);
  }

  /** The balance of one step. */
  ghost predicate Balanced(s: KState, e: Event, k: Key)
    requires Inv(s) && Enabled(s, e)
  {
    Binary(Step(s, e), k) && Val(Step(s, e), k) == Val(s, k) + Done(s, e, k).v - Done(s, e, k).p
  }

  lemma PStepBalance(s: KState, e: Event, k: Key)
    requires Inv(s) && Enabled(s, e) && Binary(s, k) && PKey(e).Some?
    ensures Balanced(s, e, k)
  {
    hide Inv, Binary, P, Waiting, Finished, CommandIndex;
    var r := if e.Passeren? then ByP else if e.DoIo? then ByIo(e.address) else ByClock;
    PBalance(s, e.c, PKey(e).value, r, e.exc, e.now, k);
  }

  lemma VStepBalance(s: KState, e: Event, k: Key)
    requires Inv(s) && Enabled(s, e) && Binary(s, k) && Fair(e, k) && e.Verhogen?
    ensures Balanced(s, e, k)
  {
    hide Inv, Binary, V, Waiting, Finished;
    VBalance(s, e.c, e.key, e.exc, e.now, k);
  }

  /** Steps that touch no semaphore. */
  lemma QuietBalance(s: KState, e: Event, k: Key)
    requires Inv(s) && Enabled(s, e) && Binary(s, k) && (e.Create? || e.EndSlice? || e.Dispatch?)
    ensures Balanced(s, e, k)
  {
    hide Inv, Binary, CommandIndex;
    if e.Create? {
      InvSpawn(s, e.c, e.a1, e.a3);
    } else if e.EndSlice? {
      InvPreempt(s, e.c, e.exc, e.now);
    }
    BinaryLess(s, Step(s, e), k);
  }

  /**
    One step: the semaphore stays binary, its waiters stay of one kind, and its value changes
    by the Vs completed minus the Ps completed. Killing waiters changes none of this.
  */
  lemma StepBalance(s: KState, e: Event, k: Key)
    requires Inv(s) && Enabled(s, e) && Binary(s, k) && Fair(e, k)
    ensures Binary(Step(s, e), k)
    ensures Val(Step(s, e), k) == Val(s, k) + Done(s, e, k).v - Done(s, e, k).p
  {
    assert Balanced(s, e, k) by {
      hide Inv, Enabled, Step, Done, Binary;
      if PKey(e).Some? {
        PStepBalance(s, e, k);
      } else if e.Verhogen? {
        VStepBalance(s, e, k);
      } else if e.Terminate? {
        RemoveBalance(s, e, k);
      } else if e.ClockTick? {
        TickStepBalance(s, e, k);
      } else if e.DeviceIrq? {
        IrqBalance(s, e, k);
      } else {
        QuietBalance(s, e, k);
      }
    }
  }

  lemma RemoveBalance(s: KState, e: Event, k: Key)
    requires Inv(s) && Enabled(s, e) && Binary(s, k) && e.Terminate?
    ensures Balanced(s, e, k)
  {
    hide Inv, Binary, Step, Kill;
    RemoveBinary(s, e.c, e.victim, k);
  }

  lemma TickStepBalance(s: KState, e: Event, k: Key)
    requires Inv(s) && Enabled(s, e) && Binary(s, k) && e.ClockTick?
    ensures Balanced(s, e, k)
  {
    hide Inv, Binary, Tick;
    TickBalance(s, k);
  }

  /** The operations on k completed in a whole run. */
  ghost function Total(s: KState, es: seq<Event>, k: Key): Tally
    requires Inv(s) && Legal(s, es)
    decreases |es|
  {
    if es == [] then Tally(0, 0)
    else
      StepKeepsInv(s, es[0]);
      Plus(Done(s, es[0], k), Total(Step(s, es[0]), es[1..], k))
  }

  /** Conservation over every run: the value is the initial one, plus completed Vs, minus completed Ps. */
  lemma {:induction false} Conservation(s: KState, es: seq<Event>, k: Key)
    requires Inv(s) && Legal(s, es) && Binary(s, k)
    requires forall e :: e in es ==> Fair(e, k)
    ensures Binary(Exec(s, es), k)
    ensures Val(Exec(s, es), k) == Val(s, k) + Total(s, es, k).v - Total(s, es, k).p
    decreases |es|
  {
    if es != [] {
      StepKeepsInv(s, es[0]);
      StepBalance(s, es[0], k);
      Conservation(Step(s, es[0]), es[1..], k);
    }
  }

  /** In particular from boot, for the kernel's semaphores and for words that are 0 or 1. */
  lemma BootConservation(m: Machine, es: seq<Event>, k: Key)
    requires Reaches(m, es) && (forall e :: e in es ==> Fair(e, k))
    requires if k.Device? then k.index <= 48 else k in m.memory ==> m.memory[k] == 0 || m.memory[k] == 1
    ensures Binary(After(m, es), k)
    ensures Val(Start(m), k) == if k.User? && k in m.memory then m.memory[k] else 0
    ensures Val(After(m, es), k) == Val(Start(m), k) + Total(Start(m), es, k).v - Total(Start(m), es, k).p
  {
    if k.Device? {
      ZeroedAt(m.memory, PSEUDO_CLOCK_SEM + 1, k.index);
    } else {
      ZeroedUser(m.memory, PSEUDO_CLOCK_SEM + 1, k);
    }
    Conservation(Start(m), es, k);
  }

  /** From boot, the semaphores of devices and clock stay 0, so every DOIO and CLOCKWAIT blocks. */
  lemma KernelSemaphoresStayZero(m: Machine, es: seq<Event>, i: nat)
    requires Reaches(m, es) && i <= 48 && (forall e :: e in es ==> OwnKeys(e))
    ensures Val(After(m, es), Device(i)) == 0
  {
    BootConservation(m, es, Device(i));
  }

  lemma {:induction false} ZeroedUser(memory: map<Key, int>, n: nat, k: Key)
    requires k.User?
    ensures k in Zeroed(memory, n) <==> k in memory
    ensures k in memory ==> Zeroed(memory, n)[k] == memory[k]
  {
    if n > 0 {
      ZeroedUser(memory, n - 1, k);
    }
  }

  lemma {:induction false} ZeroedAt(memory: map<Key, int>, n: nat, i: nat)
    requires i < n
    ensures Device(i) in Zeroed(memory, n) && Zeroed(memory, n)[Device(i)] == 0
  {
    if i < n - 1 {
      ZeroedAt(memory, n - 1, i);
    }
  }
}
