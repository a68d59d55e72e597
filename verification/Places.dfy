/** Where every PCB is, and which steps lose a process. */
module Places {
  import opened Types
  import opened Procs
  import opened Forest
  import opened Removal
  import opened Devices
  import opened State
  import opened Invariant

  datatype Place = FreeList | ReadyQueue | WaitsOn(key: Key) | RunsOn(cpu: nat) | Placeholder | Nowhere

  ghost predicate IsAt(s: KState, x: nat, p: Place) {
    match p
    case FreeList => x in s.t.free
    case ReadyQueue => x in s.t.ready
    case WaitsOn(k) => k in s.t.blocked && x in s.t.blocked[k]
    case RunsOn(c) => OnCpu(s, c, x)
    case Placeholder => IsBoot(s, x)
    case Nowhere => Lost(s, x)
  }

  /** x is ready, waits, or runs. */
  ghost predicate Placed(s: KState, x: nat) {
    x in s.t.ready || Queued(s.t.blocked, x) || exists c :: OnCpu(s, c, x)
  }

  /** x is in no queue and on no CPU. */
  ghost predicate Lost(s: KState, x: nat) {
    Live(s, x) && !Placed(s, x)
  }

  /** Every PCB is in exactly one place. */
  lemma OnePlace(s: KState, x: nat) returns (p: Place)
    requires Inv(s) && x < |s.t.pcb|
    ensures IsAt(s, x, p) && forall q :: IsAt(s, x, q) ==> q == p
  {
    assert IsBoot(s, x) ==> State.Placeholder(s.t, x);
    if x in s.t.free {
      p := FreeList;
      assert FreeIn(s.t, x);
    } else if IsBoot(s, x) {
      p := Placeholder;
    } else if x in s.t.ready {
      p := ReadyQueue;
      assert InUse(s.t, x);
    } else if Queued(s.t.blocked, x) {
      var k :| k in s.t.blocked && x in s.t.blocked[k];
      p := WaitsOn(k);
    } else if c :| OnCpu(s, c, x) {
      p := RunsOn(c);
    } else {
      p := Nowhere;
    }
    forall q | IsAt(s, x, q)
      ensures q == p
    {
      AtMostOne(s, x, p, q);
    }
  }

  lemma AtMostOne(s: KState, x: nat, p: Place, q: Place)
    requires Inv(s) && x < |s.t.pcb| && IsAt(s, x, p) && IsAt(s, x, q)
    ensures p == q
  {
    assert IsBoot(s, x) ==> State.Placeholder(s.t, x);
    assert x in s.t.ready ==> InUse(s.t, x);
    if p.WaitsOn? {
      assert BlockedIn(s.t, p.key, x) && Queued(s.t.blocked, x);
    }
    if q.WaitsOn? {
      assert BlockedIn(s.t, q.key, x) && Queued(s.t.blocked, x);
    }
    if p.RunsOn? {
      assert Running(s, p.cpu);
    }
    if q.RunsOn? {
      assert Running(s, q.cpu);
    }
  }

  /** No live process is lost. */
  ghost predicate Covered(s: KState) {
    forall x :: Live(s, x) ==> Placed(s, x)
  }

  /**
    The steps that leave their caller somewhere. TERMPROCESS always ends in the scheduler, so
    its caller must be among the victims; so does a device interrupt that wakes nobody, so the
    CPU it comes to must be idle.
  */
  ghost predicate Keeps(s: KState, e: Event)
    requires Inv(s) && Enabled(s, e)
  {
    match e
    case Terminate(c, v) => Running(s, c) && s.current[c] in PostOrder(s.t, v)
    case DeviceIrq(c, line, dev, _, _) => IrqKey(s, line, dev) in s.t.blocked || c !in s.onCpu
    case _ => true
  }

  lemma PlacedStays(s: KState, w: KState, x: nat, c: nat)
    requires Inv(s) && Covered(s)
    requires w.current == s.current && w.t.kids == s.t.kids && w.t.free == s.t.free
    requires w.onCpu == s.onCpu || (c in s.onCpu && w.onCpu == s.onCpu - {c} && OnCpu(s, c, x))
    requires forall y :: y != x && (y in s.t.ready || Queued(s.t.blocked, y)) ==>
      y in w.t.ready || Queued(w.t.blocked, y)
    requires x in w.t.ready || Queued(w.t.blocked, x)
    ensures Covered(w)
  {
    forall y | Live(w, y)
      ensures Placed(w, y)
    {
      assert Live(s, y) && Placed(s, y);
      if d :| OnCpu(s, d, y) && y != x {
        assert OnCpu(w, d, y);
      }
    }
  }

  lemma CoveredBlock(s: KState, c: nat, k: Key, r: Request, exc: Context, now: int)
    requires Inv(s) && Covered(s) && c in s.onCpu
    ensures c < |s.current| && s.current[c] < |s.t.pcb|
    ensures Covered(Block(s, c, k, r, exc, now))
  {
    CurrentParts(s, c);
    var x, w := s.current[c], Block(s, c, k, r, exc, now);
    assert x in w.t.blocked[k];
    forall y | Queued(s.t.blocked, y)
      ensures Queued(w.t.blocked, y)
    {
      var j :| j in s.t.blocked && y in s.t.blocked[j];
      assert y in w.t.blocked[j];
    }
    PlacedStays(s, w, x, c);
  }

  lemma CoveredWake(s: KState, k: Key)
    requires Inv(s) && Covered(s) && k in s.t.blocked
    ensures s.t.blocked[k] != [] && Covered(Wake(s, k))
  {
    WakeWf(s.t, k);
    var x, w := s.t.blocked[k][0], Wake(s, k);
    QueuedFromSet(s.t, w.t, x, false);
    PlacedStays(s, w, x, 0);
  }

  lemma CoveredP(s: KState, c: nat, k: Key, r: Request, exc: Context, now: int)
    requires Inv(s) && Covered(s) && c in s.onCpu
    ensures c < |s.current| && s.current[c] < |s.t.pcb| && (k in s.t.blocked ==> s.t.blocked[k] != [])
    ensures Covered(P(s, c, k, r, exc, now)) && Covered(V(s, c, k, r, exc, now))
  {
    CoveredBlock(s, c, k, r, exc, now);
    if k in s.t.blocked {
      CoveredWake(s, k);
    }
    CoveredSame(s, s.(sem := s.sem[k := 0]));
    CoveredSame(s, s.(sem := s.sem[k := 1]));
  }

  lemma CoveredSame(s: KState, w: KState)
    requires Covered(s) && w.current == s.current && w.onCpu == s.onCpu
    requires w.t.kids == s.t.kids && w.t.free == s.t.free && w.t.ready == s.t.ready && w.t.blocked == s.t.blocked
    ensures Covered(w)
  {
    forall y | Live(w, y)
      ensures Placed(w, y)
    {
      assert Live(s, y) && Placed(s, y);
      if d :| OnCpu(s, d, y) {
        assert OnCpu(w, d, y);
      }
    }
  }

  lemma {:induction false} CoveredTick(s: KState)
    requires Inv(s) && Covered(s)
    ensures Covered(Tick(s))
    decreases |Waiting(s.t.blocked, CLOCK)|
  {
    if CLOCK in s.t.blocked {
      TickStep(s);
      InvWake(s, CLOCK);
      CoveredWake(s, CLOCK);
      CoveredTick(Wake(s, CLOCK));
    } else {
      TickDone(s);
    }
  }

  lemma CoveredIrq(s: KState, c: nat, line: int, dev: int, tx: int, rx: int)
    requires Inv(s) && Covered(s) && 3 <= line && 0 <= dev
    ensures forall k :: k in s.t.blocked ==> s.t.blocked[k] != [] && s.t.blocked[k][0] < |s.t.pcb|
    ensures Covered(Irq(s, c, line, dev, tx, rx)) <==> IrqKey(s, line, dev) in s.t.blocked || c !in s.onCpu
  {
    Heads(s.t);
    var k, w := IrqKey(s, line, dev), Irq(s, c, line, dev, tx, rx);
    if k in s.t.blocked {
      CoveredWake(s, k);
      CoveredSame(Wake(s, k), w);
    } else if c !in s.onCpu {
      assert s.onCpu - {c} == s.onCpu;
    } else {
      Unplaced(s, w, c);
    }
  }

  /** A CPU that lets its process go without queueing it loses it. */
  lemma Unplaced(s: KState, w: KState, c: nat)
    requires Inv(s) && c in s.onCpu && w.onCpu == s.onCpu - {c} && w.current == s.current
    requires c < |s.current| ==>
      var x := s.current[c];
      && (x in w.t.ready ==> x in s.t.ready) && (Queued(w.t.blocked, x) ==> Queued(s.t.blocked, x))
      && (Live(s, x) ==> Live(w, x))
    ensures !Covered(w)
  {
    assert Running(s, c);
    var x := s.current[c];
    forall d
      ensures !OnCpu(w, d, x)
    {
      assert OnCpu(w, d, x) ==> OnCpu(s, d, x);
    }
    assert Live(w, x) && !Placed(w, x);
  }

  lemma CoveredPreempt(s: KState, c: nat, exc: Context, now: int)
    requires Inv(s) && Covered(s) && c in s.onCpu
    ensures c < |s.current| && s.current[c] < |s.t.pcb| && Covered(Preempt(s, c, exc, now))
  {
    CurrentParts(s, c);
    PlacedStays(s, Preempt(s, c, exc, now), s.current[c], c);
  }

  lemma CoveredRun(s: KState, c: nat, now: int)
    requires Inv(s) && Covered(s) && c < |s.current| && c !in s.onCpu
    ensures Covered(Run(s, c, now))
  {
    if s.t.ready != [] {
      var w := Run(s, c, now);
      assert OnCpu(w, c, s.t.ready[0]);
      forall y | Live(w, y)
        ensures Placed(w, y)
      {
        assert Live(s, y) && Placed(s, y);
        if d :| OnCpu(s, d, y) {
          assert OnCpu(w, d, y);
        }
        assert y in s.t.ready ==> y == s.t.ready[0] || y in w.t.ready;
      }
    }
  }

  lemma CoveredSpawn(s: KState, c: nat, a1: Context, a3: int)
    requires Inv(s) && Covered(s) && c in s.onCpu && s.t.free != []
    ensures c < |s.current| && s.current[c] in s.t.kids && s.t.free[0] < |s.t.pcb|
    ensures Covered(Spawn(s, c, a1, a3))
  {
    SpawnPlaces(s, c, a1, a3);
    var x, w := s.t.free[0], Spawn(s, c, a1, a3);
    assert s.t.free == [x] + s.t.free[1..];
    assert x in w.t.ready;
    forall y | Live(w, y) && y != x
      ensures Placed(w, y)
    {
      assert Live(s, y) && Placed(s, y);
      if d :| OnCpu(s, d, y) {
        assert OnCpu(w, d, y);
      }
    }
  }

  lemma CoveredRemove(s: KState, c: nat, v: nat)
    requires Inv(s) && Covered(s) && Enabled(s, Terminate(c, v))
    ensures Covered(Step(s, Terminate(c, v))) <==> Keeps(s, Terminate(c, v))
  {
    hide Kill, Wf, Tree, PostOrder, Queued, Victims, WaitingVictims;
    Survivors(s.t, v);
    CurrentParts(s, c);
    assert Running(s, c);
    var w := Remove(s, v).(onCpu := s.onCpu - {c});
    if s.current[c] in PostOrder(s.t, v) {
      forall y | Live(w, y)
        ensures Placed(w, y)
      {
        assert Live(s, y) && Placed(s, y);
        if d :| OnCpu(s, d, y) {
          assert OnCpu(w, d, y);
        }
      }
    } else {
      Unplaced(s, w, c);
    }
  }

  /** A step loses nobody exactly when Keeps says so. */
  lemma StepCovers(s: KState, e: Event)
    requires Inv(s) && Covered(s) && Enabled(s, e)
    ensures Covered(Step(s, e)) <==> Keeps(s, e)
  {
    hide Inv, Covered;
    match e
    case Create(c, a1, a3) => CoveredSpawn(s, c, a1, a3);
    case Terminate(c, v) => CoveredRemove(s, c, v);
    case Passeren(c, k, exc, now) => CoveredP(s, c, k, ByP, exc, now);
    case Verhogen(c, k, exc, now) => CoveredP(s, c, k, ByV, exc, now);
    case DoIo(c, a, exc, now) => CoveredP(s, c, Device(CommandIndex(a)), ByIo(a), exc, now);
    case ClockWait(c, exc, now) => CoveredP(s, c, CLOCK, ByClock, exc, now);
    case ClockTick => CoveredTick(s);
    case DeviceIrq(c, line, dev, tx, rx) => CoveredIrq(s, c, line, dev, tx, rx);
    case EndSlice(c, exc, now) => CoveredPreempt(s, c, exc, now);
    case Dispatch(c, now) => CoveredRun(s, c, now);
  }

  lemma LostIsElsewhere(s: KState, x: nat)
    requires Inv(s) && Lost(s, x)
    ensures forall c :: c in s.onCpu ==> c < |s.current| && s.current[c] != x
    ensures forall k :: k in s.t.blocked ==> s.t.blocked[k] != [] && s.t.blocked[k][0] != x
    ensures s.t.ready != [] ==> s.t.ready[0] != x
    ensures x !in s.t.free
  {
    forall c | c in s.onCpu
      ensures c < |s.current| && s.current[c] != x
    {
      CurrentParts(s, c);
      assert OnCpu(s, c, s.current[c]);
    }
    forall k | k in s.t.blocked
      ensures s.t.blocked[k] != [] && s.t.blocked[k][0] != x
    {
      Heads(s.t);
      assert s.t.blocked[k][0] in s.t.blocked[k];
    }
  }

  /** A step that puts no lost process into a queue or on a CPU. */
  lemma StaysLost(s: KState, w: KState, x: nat)
    requires Lost(s, x) && Live(w, x)
    requires x in w.t.ready ==> x in s.t.ready
    requires Queued(w.t.blocked, x) ==> Queued(s.t.blocked, x)
    requires forall c :: OnCpu(w, c, x) ==> OnCpu(s, c, x)
    ensures Lost(w, x)
  {
  }

  lemma LostOperation(s: KState, c: nat, k: Key, r: Request, exc: Context, now: int, x: nat)
    requires Inv(s) && c in s.onCpu && Lost(s, x)
    ensures c < |s.current| && s.current[c] < |s.t.pcb| && (k in s.t.blocked ==> s.t.blocked[k] != [])
    ensures Lost(P(s, c, k, r, exc, now), x) && Lost(V(s, c, k, r, exc, now), x)
  {
    ParametersP(s, c, k);
    LostIsElsewhere(s, x);
    hide Inv, Wf;
    StaysLost(s, Block(s, c, k, r, exc, now), x);
    if k in s.t.blocked {
      LostWake(s, k, x);
    }
    StaysLost(s, s.(sem := s.sem[k := 0]), x);
    StaysLost(s, s.(sem := s.sem[k := 1]), x);
  }

  lemma WakeQueuesNobody(s: KState, k: Key, x: nat)
    requires k in s.t.blocked && s.t.blocked[k] != []
    ensures Queued(Wake(s, k).t.blocked, x) ==> Queued(s.t.blocked, x)
  {
    var b := Wake(s, k).t.blocked;
    if j :| j in b && x in b[j] {
      assert x in s.t.blocked[j];
    }
  }

  lemma LostWake(s: KState, k: Key, x: nat)
    requires Lost(s, x) && k in s.t.blocked && s.t.blocked[k] != [] && s.t.blocked[k][0] != x
    ensures Lost(Wake(s, k), x)
  {
    var w := Wake(s, k);
    WakeQueuesNobody(s, k, x);
    StaysLost(s, w, x);
  }

  lemma LostRemove(s: KState, e: Event, x: nat)
    requires Inv(s) && Enabled(s, e) && e.Terminate? && Lost(s, x) && !Kills(s, e, x)
    ensures Lost(Step(s, e), x)
  {
    hide Kill, Wf, Tree, PostOrder, Queued, Victims, WaitingVictims, Live, InUse;
    TerminateParts(s, e.c, e.victim);
    Survivors(s.t, e.victim);
    hide Inv, Enabled;
    var w := Step(s, e);
    assert x in s.t.kids && Live(w, x) by {
      LiveAfterRemove(s, e, x);
    }
    StaysLost(s, w, x);
  }

  lemma LiveAfterRemove(s: KState, e: Event, x: nat)
    requires Inv(s) && Enabled(s, e) && e.Terminate? && Live(s, x) && !Kills(s, e, x)
    ensures x in s.t.kids && Live(Step(s, e), x)
  {
    hide Kill, Wf, Tree, PostOrder, Queued, Victims, WaitingVictims;
    TerminateParts(s, e.c, e.victim);
    Survivors(s.t, e.victim);
    hide Inv, Enabled;
  }

  lemma LostOther(s: KState, e: Event, x: nat)
    requires Inv(s) && Enabled(s, e) && Lost(s, x)
    requires e.Create? || e.EndSlice? || e.Dispatch? || e.ClockTick? || e.DeviceIrq?
    ensures Lost(Step(s, e), x)
  {
    LostIsElsewhere(s, x);
    InvWf(s);
    Heads(s.t);
    if e.Create? || e.EndSlice? {
      CurrentParts(s, e.c);
    }
    hide Inv, Wf;
    var w := Step(s, e);
    if e.DeviceIrq? && IrqKey(s, e.line, e.dev) in s.t.blocked {
      LostWake(s, IrqKey(s, e.line, e.dev), x);
    } else {
      if e.Create? {
        assert s.t.free[0] in s.t.free && s.t.free == [s.t.free[0]] + s.t.free[1..];
      }
      if e.ClockTick? {
        assert x in Waiting(s.t.blocked, CLOCK) ==> Queued(s.t.blocked, x);
      }
      StaysLost(s, w, x);
    }
  }

  lemma LostStep(s: KState, e: Event, x: nat)
    requires Inv(s) && Enabled(s, e) && Lost(s, x) && !Kills(s, e, x)
    ensures Lost(Step(s, e), x)
  {
    hide Inv, Lost, P, V, CommandIndex, Kills;
    match e
    case Terminate(_, _) => LostRemove(s, e, x);
    case Passeren(c, k, exc, now) => LostOperation(s, c, k, ByP, exc, now, x);
    case Verhogen(c, k, exc, now) => LostOperation(s, c, k, ByV, exc, now, x);
    case DoIo(c, a, exc, now) => LostOperation(s, c, Device(CommandIndex(a)), ByIo(a), exc, now, x);
    case ClockWait(c, exc, now) => LostOperation(s, c, CLOCK, ByClock, exc, now, x);
    case _ => LostOther(s, e, x);
  }
}
