/** The processor state of a process survives everything that happens while it does not run. */
module Contexts {
  import opened Types
  import opened Procs
  import opened Forest
  import opened Removal
  import opened Devices
  import opened State
  import opened Invariant
  import opened Runs
  import opened Fairness

  /** x is ready or waits. */
  ghost predicate Parked(s: KState, x: nat) {
    x < |s.t.pcb| && (x in s.t.ready || Queued(s.t.blocked, x))
  }

  /** Step e answers the request of x: a device interrupt wakes it with a status word. */
  ghost function Answer(s: KState, e: Event, x: nat): Option<int>
    requires Inv(s) && Enabled(s, e)
  {
    if e.DeviceIrq? && Waiting(s.t.blocked, IrqKey(s, e.line, e.dev)) != []
       && Waiting(s.t.blocked, IrqKey(s, e.line, e.dev))[0] == x
    then Some(if IrqKey(s, e.line, e.dev) == Device(DeviceIndex(e.line, e.dev)) then e.tx else e.rx)
    else None
  }

  /** ctx with the answer, if there is one, in the result register. */
  function Resumed(ctx: Context, answer: Option<int>): Context {
    if answer == None then ctx else ctx.(a0 := answer.value)
  }

  /** x is neither killed nor dispatched in the step. */
  ghost predicate LeftAlone(s: KState, e: Event, x: nat)
    requires Inv(s) && Enabled(s, e)
  {
    !Kills(s, e, x) && !Dispatches(s, e, x)
  }

  lemma ParkedFacts(s: KState, x: nat)
    requires Inv(s) && Parked(s, x)
    ensures forall c :: c in s.onCpu ==> c < |s.current| && s.current[c] != x
    ensures x !in s.t.free
    ensures x in s.t.ready ==> !Queued(s.t.blocked, x)
  {
    forall c | c in s.onCpu
      ensures c < |s.current| && s.current[c] != x
    {
      CurrentParts(s, c);
    }
    InvWf(s);
    QueuedInUse(s.t);
    if Queued(s.t.blocked, x) {
      var k :| k in s.t.blocked && x in s.t.blocked[k];
      assert BlockedIn(s.t, k, x);
    } else {
      assert InUse(s.t, x);
    }
  }

  /** The pcb entries that a P or V may write. */
  lemma OperationContext(s: KState, c: nat, k: Key, r: Request, exc: Context, now: int, x: nat)
    requires Inv(s) && c in s.onCpu && Parked(s, x)
    ensures c < |s.current| && s.current[c] < |s.t.pcb| && (k in s.t.blocked ==> s.t.blocked[k] != [])
    ensures
      var w := P(s, c, k, r, exc, now);
      && Parked(w, x) && w.t.pcb[x].ctx == s.t.pcb[x].ctx && (x in s.t.ready ==> x in w.t.ready)
    ensures
      var w := V(s, c, k, r, exc, now);
      && Parked(w, x) && w.t.pcb[x].ctx == s.t.pcb[x].ctx && (x in s.t.ready ==> x in w.t.ready)
  {
    ParametersP(s, c, k);
    ParkedFacts(s, x);
    BlockContext(s, c, k, r, exc, now, x);
    if k in s.t.blocked {
      WakeParked(s, k, x);
    }
  }

  lemma BlockContext(s: KState, c: nat, k: Key, r: Request, exc: Context, now: int, x: nat)
    requires Parked(s, x) && c < |s.current| && s.current[c] < |s.t.pcb| && s.current[c] != x
    ensures
      var w := Block(s, c, k, r, exc, now);
      Parked(w, x) && w.t.pcb[x].ctx == s.t.pcb[x].ctx && w.t.ready == s.t.ready
  {
    var w := Block(s, c, k, r, exc, now);
    if j :| j in s.t.blocked && x in s.t.blocked[j] {
      assert x in w.t.blocked[j];
    }
  }

  lemma WakeParked(s: KState, k: Key, x: nat)
    requires Parked(s, x) && k in s.t.blocked && s.t.blocked[k] != []
    ensures
      var w := Wake(s, k);
      && Parked(w, x) && w.t.pcb == s.t.pcb && (x in s.t.ready ==> x in w.t.ready)
      && (x == s.t.blocked[k][0] ==> x in w.t.ready)
  {
    var w := Wake(s, k);
    assert s.t.blocked[k][0] in w.t.ready;
    if j :| j in s.t.blocked && x in s.t.blocked[j] && x != s.t.blocked[k][0] {
      if j == k {
        assert s.t.blocked[k] == [s.t.blocked[k][0]] + s.t.blocked[k][1..];
      }
      assert j in w.t.blocked && x in w.t.blocked[j];
    }
  }

  /** What a step leaves of a parked process that it leaves alone. */
  ghost predicate Survives(s: KState, e: Event, x: nat)
    requires Inv(s) && Enabled(s, e) && x < |s.t.pcb|
  {
    var w := Step(s, e);
    && Parked(w, x) && w.t.pcb[x].ctx == Resumed(s.t.pcb[x].ctx, Answer(s, e, x))
    && (x in s.t.ready ==> x in w.t.ready && Answer(s, e, x) == None)
    && (Answer(s, e, x).Some? ==> x in w.t.ready)
  }

  lemma OperationSurvives(s: KState, e: Event, x: nat)
    requires Inv(s) && Enabled(s, e) && Parked(s, x)
    requires e.Passeren? || e.Verhogen? || e.DoIo? || e.ClockWait?
    ensures Survives(s, e, x)
  {
    hide Inv, P, V, Parked, CommandIndex;
    match e
    case Passeren(c, k, exc, now) => OperationContext(s, c, k, ByP, exc, now, x);
    case Verhogen(c, k, exc, now) => OperationContext(s, c, k, ByV, exc, now, x);
    case DoIo(c, a, exc, now) => OperationContext(s, c, Device(CommandIndex(a)), ByIo(a), exc, now, x);
    case ClockWait(c, exc, now) => OperationContext(s, c, CLOCK, ByClock, exc, now, x);
  }

  lemma IrqSurvives(s: KState, e: Event, x: nat)
    requires Inv(s) && Enabled(s, e) && Parked(s, x) && e.DeviceIrq?
    ensures Survives(s, e, x)
  {
    hide Inv;
    InvWf(s);
    Heads(s.t);
    ParkedFacts(s, x);
    var k := IrqKey(s, e.line, e.dev);
    if k in s.t.blocked {
      WakeParked(s, k, x);
      assert s.t.blocked[k][0] in s.t.blocked[k];
    }
  }

  lemma TickSurvives(s: KState, x: nat)
    requires Inv(s) && Parked(s, x)
    ensures Survives(s, ClockTick, x)
  {
    hide Inv, Wf;
    var w := Tick(s);
    if j :| j in s.t.blocked && x in s.t.blocked[j] {
      if j == CLOCK {
        assert x in w.t.ready;
      } else {
        assert x in w.t.blocked[j];
      }
    }
  }

  lemma RemoveSurvives(s: KState, e: Event, x: nat)
    requires Inv(s) && Enabled(s, e) && Parked(s, x) && e.Terminate? && !Kills(s, e, x)
    ensures Survives(s, e, x)
  {
    hide Kill, Wf, Tree, PostOrder, Queued, Victims, WaitingVictims;
    Survivors(s.t, e.victim);
    hide Inv;
  }

  lemma OtherSurvives(s: KState, e: Event, x: nat)
    requires Inv(s) && Enabled(s, e) && Parked(s, x) && LeftAlone(s, e, x)
    requires e.Create? || e.EndSlice? || e.Dispatch?
    ensures Survives(s, e, x)
  {
    ParkedFacts(s, x);
    InvWf(s);
    Heads(s.t);
    if !e.Dispatch? {
      CurrentParts(s, e.c);
    }
    hide Inv, Wf;
    if e.Create? {
      assert s.t.free[0] in s.t.free;
    } else if e.Dispatch? && s.t.ready != [] {
      assert s.t.ready == [s.t.ready[0]] + s.t.ready[1..];
    }
  }

  /** A parked process that is left alone stays parked, and its state changes by an answer at most. */
  lemma StepSurvives(s: KState, e: Event, x: nat)
    requires Inv(s) && Enabled(s, e) && Parked(s, x) && LeftAlone(s, e, x)
    ensures Survives(s, e, x)
  {
    hide Inv, Enabled, Step, Parked, Survives;
    if e.Passeren? || e.Verhogen? || e.DoIo? || e.ClockWait? {
      OperationSurvives(s, e, x);
    } else if e.DeviceIrq? {
      IrqSurvives(s, e, x);
    } else if e.ClockTick? {
      TickSurvives(s, x);
    } else if e.Terminate? {
      RemoveSurvives(s, e, x);
    } else {
      OtherSurvives(s, e, x);
    }
  }

  /** Nothing in the run kills or dispatches x. */
  ghost predicate Undisturbed(s: KState, es: seq<Event>, x: nat)
    requires Inv(s) && Legal(s, es)
    decreases |es|
  {
    es != [] ==> LeftAlone(s, es[0], x) && (StepKeepsInv(s, es[0]); Undisturbed(Step(s, es[0]), es[1..], x))
  }

  /** The first answer that x gets in the run. */
  ghost function FirstAnswer(s: KState, es: seq<Event>, x: nat): Option<int>
    requires Inv(s) && Legal(s, es)
    decreases |es|
  {
    if es == [] then None
    else if Answer(s, es[0], x).Some? then Answer(s, es[0], x)
    else
      StepKeepsInv(s, es[0]);
      FirstAnswer(Step(s, es[0]), es[1..], x)
  }

  /** A ready process that is left alone stays ready, and its state does not change at all. */
  lemma {:induction false} ReadyContextKept(s: KState, es: seq<Event>, x: nat)
    requires Inv(s) && Legal(s, es) && Undisturbed(s, es, x) && Parked(s, x) && x in s.t.ready
    ensures x < |Exec(s, es).t.pcb| && x in Exec(s, es).t.ready
    ensures Exec(s, es).t.pcb[x].ctx == s.t.pcb[x].ctx && FirstAnswer(s, es, x) == None
    decreases |es|
  {
    if es != [] {
      StepKeepsInv(s, es[0]);
      StepSurvives(s, es[0], x);
      hide Inv, Enabled, Step;
      ReadyContextKept(Step(s, es[0]), es[1..], x);
    }
  }

  /**
    Whatever others do while x is parked, x is still parked afterwards, and the state it will be
    resumed with is the one that was saved, with a0 set to the first answer if there was one.
  */
  lemma {:induction false} ContextKept(s: KState, es: seq<Event>, x: nat)
    requires Inv(s) && Legal(s, es) && Undisturbed(s, es, x) && Parked(s, x)
    ensures Parked(Exec(s, es), x)
    ensures Exec(s, es).t.pcb[x].ctx == Resumed(s.t.pcb[x].ctx, FirstAnswer(s, es, x))
    decreases |es|
  {
    if es != [] {
      StepKeepsInv(s, es[0]);
      StepSurvives(s, es[0], x);
      hide Inv, Enabled, Step;
      if Answer(s, es[0], x).Some? {
        ReadyContextKept(Step(s, es[0]), es[1..], x);
      } else {
        ContextKept(Step(s, es[0]), es[1..], x);
      }
    }
  }

  /** The process that a step stops or creates, and the state saved for it. */
  ghost function Stopped(s: KState, e: Event): Option<(nat, Context)>
    requires Inv(s) && Enabled(s, e)
  {
    match e
    case Create(_, a1, _) => Some((s.t.free[0], a1))
    case EndSlice(c, exc, _) => CurrentParts(s, c); Some((s.current[c], exc))
    case Passeren(c, k, exc, _) => CurrentParts(s, c); if Val(s, k) <= 0 then Some((s.current[c], Past(exc))) else None
    case Verhogen(c, k, exc, _) => CurrentParts(s, c); if Val(s, k) >= 1 then Some((s.current[c], Past(exc))) else None
    case DoIo(c, a, exc, _) =>
      CurrentParts(s, c); if Val(s, Device(CommandIndex(a))) <= 0 then Some((s.current[c], Past(exc))) else None
    case ClockWait(c, exc, _) =>
      CurrentParts(s, c); if Val(s, CLOCK) <= 0 then Some((s.current[c], Past(exc))) else None
    case _ => None
  }

  lemma StoppedIsParked(s: KState, e: Event)
    requires Inv(s) && Enabled(s, e) && Stopped(s, e).Some?
    ensures
      var (x, ctx) := Stopped(s, e).value;
      Parked(Step(s, e), x) && Step(s, e).t.pcb[x].ctx == ctx
  {
    InvWf(s);
    Heads(s.t);
    CurrentParts(s, e.c);
    hide Inv, Wf, CommandIndex;
    var x := Stopped(s, e).value.0;
    if !e.Create? && !e.EndSlice? {
      var k := match e
        case Passeren(_, k, _, _) => k
        case Verhogen(_, k, _, _) => k
        case DoIo(_, a, _, _) => Device(CommandIndex(a))
        case _ => CLOCK;
      assert x in Step(s, e).t.blocked[k];
    }
  }

  /**
    Whoever blocks is saved past its system call: on 32 bits, the stored program counter is four
    bytes after the one at which the kernel was entered, and nothing else of the state changes.
  */
  lemma SavedPastTheCall(s: KState, e: Event)
    requires Inv(s) && Enabled(s, e)
    requires match e
      case Passeren(_, k, _, _) => Val(s, k) <= 0
      case Verhogen(_, k, _, _) => Val(s, k) >= 1
      case DoIo(_, a, _, _) => Val(s, Device(CommandIndex(a))) <= 0
      case ClockWait(_, _, _) => Val(s, Device(48)) <= 0
      case _ => false
    ensures e.c < |s.current| && s.current[e.c] < |Step(s, e).t.pcb|
    ensures
      var ctx := Step(s, e).t.pcb[s.current[e.c]].ctx;
      && 0 <= ctx.pc < 0x1_0000_0000 && (ctx.pc - e.exc.pc) % 0x1_0000_0000 == 4
      && ctx.a0 == e.exc.a0 && ctx.rest == e.exc.rest
  {
    hide Inv, CommandIndex, Block, Wake, Wf;
    CurrentParts(s, e.c);
    match e
    case Passeren(c, k, exc, now) => BlockSaves(s, c, k, ByP, exc, now);
    case Verhogen(c, k, exc, now) => BlockSaves(s, c, k, ByV, exc, now);
    case DoIo(c, a, exc, now) => BlockSaves(s, c, Device(CommandIndex(a)), ByIo(a), exc, now);
    case ClockWait(c, exc, now) => BlockSaves(s, c, CLOCK, ByClock, exc, now);
  }

  /**
    From stop to resumption: whoever is stopped or created by e, and is dispatched after the run
    es, is resumed with the state saved by e (past the system call if it blocked, as it was if its
    slice ended, the creator's argument if it is new), and a0 is the device's answer if there was one.
  */
  lemma ContextRoundTrip(s: KState, e: Event, es: seq<Event>, d: Event)
    requires Inv(s) && Enabled(s, e) && Stopped(s, e).Some?
    requires Inv(Step(s, e)) && Legal(Step(s, e), es) && Undisturbed(Step(s, e), es, Stopped(s, e).value.0)
    requires Inv(Exec(Step(s, e), es)) && Enabled(Exec(Step(s, e), es), d)
    requires Dispatches(Exec(Step(s, e), es), d, Stopped(s, e).value.0)
    ensures
      var (x, ctx) := Stopped(s, e).value;
      var w := Step(Exec(Step(s, e), es), d);
      && OnCpu(w, d.c, x) && x < |w.t.pcb|
      && w.t.pcb[x].ctx == Resumed(ctx, FirstAnswer(Step(s, e), es, x))
    ensures
      var x := Stopped(s, e).value.0;
      var loaded, answer := Step(Exec(Step(s, e), es), d).t.pcb[x].ctx, FirstAnswer(Step(s, e), es, x);
      if e.Create? then
        && loaded.pc == e.a1.pc && loaded.rest == e.a1.rest
        && loaded.a0 == if answer == None then e.a1.a0 else answer.value
      else
        && (if e.EndSlice? then loaded.pc == e.exc.pc
            else 0 <= loaded.pc < 0x1_0000_0000 && (loaded.pc - e.exc.pc) % 0x1_0000_0000 == 4)
        && loaded.rest == e.exc.rest && loaded.a0 == if answer == None then e.exc.a0 else answer.value
  {
    hide Inv, Stopped, Enabled, Step, Exec, Legal, Undisturbed, FirstAnswer, Dispatches, Parked;
    StoppedIsParked(s, e);
    StoppedState(s, e);
    var x, w := Stopped(s, e).value.0, Step(s, e);
    ContextKept(w, es, x);
    DispatchLoads(Exec(w, es), d, x);
  }

  lemma DispatchLoads(s: KState, d: Event, x: nat)
    requires Inv(s) && Enabled(s, d) && Dispatches(s, d, x) && Parked(s, x)
    ensures x < |s.t.pcb| && OnCpu(Step(s, d), d.c, x) && Step(s, d).t.pcb == s.t.pcb
  {
    hide Inv;
  }

  /** The state saved for who is stopped, in terms of the state in which it called or was interrupted. */
  lemma StoppedState(s: KState, e: Event)
    requires Inv(s) && Enabled(s, e) && Stopped(s, e).Some?
    ensures
      var ctx := Stopped(s, e).value.1;
      if e.Create? then ctx == e.a1
      else if e.EndSlice? then ctx == e.exc
      else
        && (e.Passeren? || e.Verhogen? || e.DoIo? || e.ClockWait?)
        && 0 <= ctx.pc < 0x1_0000_0000 && (ctx.pc - e.exc.pc) % 0x1_0000_0000 == 4
        && ctx.a0 == e.exc.a0 && ctx.rest == e.exc.rest
  {
    hide Inv, CommandIndex;
  }
}
