/**
  Accounting of CPU time on a machine with one CPU, whose clock never goes back
  (phase2/scheduler.c:15-21). The CPUs share sliceStart, so nothing is claimed for more of them.
*/
module CpuTimes {
  import opened Types
  import opened Procs
  import opened Forest
  import opened Removal
  import opened Devices
  import opened State
  import opened Invariant
  import opened Runs
  import opened Places
  import opened Lifecycle

  /** The clock at a step that reads it. */
  function Clock(e: Event, last: int): int {
    match e
    case Passeren(_, _, _, now) => now
    case Verhogen(_, _, _, now) => now
    case DoIo(_, _, _, now) => now
    case ClockWait(_, _, now) => now
    case EndSlice(_, _, now) => now
    case Dispatch(_, now) => now
    case _ => last
  }

  /** One CPU, and the current slice began in the past. */
  ghost predicate Timed(s: KState, now: int) {
    |s.current| == 1 && (s.onCpu != {} ==> s.sliceStart <= now)
  }

  /** On one CPU a process runs exactly when the CPU runs it. */
  lemma OneCpu(s: KState, x: nat, now: int)
    requires Inv(s) && |s.current| == 1 && x < |s.t.pcb|
    ensures s.onCpu == {} || s.onCpu == {0}
    ensures CpuTime(s, x, now) ==
      s.t.pcb[x].time + if s.onCpu == {0} && s.current[0] == x then now - s.sliceStart else 0
  {
    forall c | c in s.onCpu
      ensures c == 0
    {
      CurrentParts(s, c);
    }
    if s.onCpu != {} {
      var c :| c in s.onCpu;
      assert s.onCpu == {0};
    }
    assert OnCpu(s, 0, x) <==> s.onCpu == {0} && s.current[0] == x;
    assert forall c :: OnCpu(s, c, x) ==> c == 0;
  }

  /** What P and V do to the stored time of x: the running process is charged when it blocks. */
  ghost predicate Charges(s: KState, w: KState, x: nat, now: int)
    requires x < |s.t.pcb| && |s.current| == 1
  {
    && |w.t.pcb| == |s.t.pcb| && w.sliceStart == s.sliceStart && w.current == s.current
    && if w.onCpu == s.onCpu then w.t.pcb[x].time == s.t.pcb[x].time
       else w.onCpu == {} && w.t.pcb[x].time == s.t.pcb[x].time + if s.current[0] == x then now - s.sliceStart else 0
  }

  lemma OperationTime(s: KState, c: nat, k: Key, r: Request, exc: Context, now: int, x: nat)
    requires Inv(s) && |s.current| == 1 && c in s.onCpu && x < |s.t.pcb|
    ensures c == 0 && s.onCpu == {0} && s.current[c] < |s.t.pcb| && (k in s.t.blocked ==> s.t.blocked[k] != [])
    ensures Charges(s, P(s, c, k, r, exc, now), x, now) && Charges(s, V(s, c, k, r, exc, now), x, now)
  {
    hide Inv, Wf;
    ParametersP(s, c, k);
    OneCpu(s, x, now);
    assert s.onCpu - {c} == {};
  }

  /** x is the process that runs. */
  ghost predicate RunsNow(s: KState, x: nat)
    requires |s.current| == 1
  {
    s.onCpu == {0} && s.current[0] == x
  }

  /** x is charged for the time since the last reading exactly if it was running, and what is stored never shrinks. */
  ghost predicate Charged(s: KState, e: Event, x: nat, last: int)
    requires Inv(s) && Enabled(s, e) && x < |s.t.pcb| && |s.current| == 1
  {
    && |Step(s, e).t.pcb| == |s.t.pcb|
    && CpuTime(Step(s, e), x, Clock(e, last))
         == CpuTime(s, x, last) + (if RunsNow(s, x) then Clock(e, last) - last else 0)
    && (Timed(s, last) && last <= Clock(e, last) ==> s.t.pcb[x].time <= Step(s, e).t.pcb[x].time)
  }

  lemma ChargedOperation(s: KState, e: Event, x: nat, last: int)
    requires Inv(s) && Enabled(s, e) && x < |s.t.pcb| && |s.current| == 1
    requires e.Passeren? || e.Verhogen? || e.DoIo? || e.ClockWait?
    ensures Charged(s, e, x, last)
  {
    hide Inv, P, V, CommandIndex, CpuTime;
    StepKeepsInv(s, e);
    match e {
      case Passeren(c, k, exc, now) => OperationTime(s, c, k, ByP, exc, now, x);
      case Verhogen(c, k, exc, now) => OperationTime(s, c, k, ByV, exc, now, x);
      case DoIo(c, a, exc, now) => OperationTime(s, c, Device(CommandIndex(a)), ByIo(a), exc, now, x);
      case ClockWait(c, exc, now) => OperationTime(s, c, CLOCK, ByClock, exc, now, x);
    }
    OneCpu(s, x, last);
    OneCpu(Step(s, e), x, e.now);
  }

  lemma ChargedRemove(s: KState, e: Event, x: nat, last: int)
    requires Inv(s) && Enabled(s, e) && Live(s, x) && x < |s.t.pcb| && |s.current| == 1
    requires e.Terminate? && !RunsNow(s, x) && !Kills(s, e, x)
    ensures Charged(s, e, x, last)
  {
    hide Inv, Kill, Wf, Tree, PostOrder, Queued, Victims, WaitingVictims, CpuTime;
    StepKeepsInv(s, e);
    InvWf(s);
    Survivors(s.t, e.victim);
    OneCpu(s, x, last);
    OneCpu(Step(s, e), x, last);
    assert s.onCpu == {0} ==> s.onCpu - {e.c} == {};
  }

  lemma ChargedIrq(s: KState, e: Event, x: nat, last: int)
    requires Inv(s) && Enabled(s, e) && x < |s.t.pcb| && |s.current| == 1
    requires e.DeviceIrq? && (Keeps(s, e) || !RunsNow(s, x))
    ensures Charged(s, e, x, last)
  {
    hide Inv, Wf, CpuTime, IrqKey;
    StepKeepsInv(s, e);
    InvWf(s);
    Heads(s.t);
    assert e.c !in s.onCpu ==> s.onCpu - {e.c} == s.onCpu;
    OneCpu(s, x, last);
    OneCpu(Step(s, e), x, last);
  }

  lemma ChargedOther(s: KState, e: Event, x: nat, last: int)
    requires Inv(s) && Enabled(s, e) && Live(s, x) && x < |s.t.pcb| && |s.current| == 1
    requires e.Create? || e.EndSlice? || e.Dispatch? || e.ClockTick?
    ensures Charged(s, e, x, last)
  {
    hide Inv, Wf, CpuTime;
    StepKeepsInv(s, e);
    InvWf(s);
    Heads(s.t);
    if e.Create? || e.EndSlice? {
      CurrentParts(s, e.c);
    }
    OneCpu(s, x, last);
    OneCpu(Step(s, e), x, Clock(e, last));
    if e.Create? {
      assert s.t.free[0] in s.t.free;
    } else if e.EndSlice? {
      assert s.onCpu - {e.c} == {};
    }
  }

  lemma StepCharges(s: KState, e: Event, x: nat, last: int)
    requires Inv(s) && Enabled(s, e) && Timed(s, last) && (Keeps(s, e) || !RunsNow(s, x))
    requires Live(s, x) && x < |s.t.pcb| && !Kills(s, e, x)
    ensures Charged(s, e, x, last)
  {
    hide Inv, Step, Charged;
    if e.Terminate? {
      ChargedRemove(s, e, x, last);
    } else if e.DeviceIrq? {
      ChargedIrq(s, e, x, last);
    } else if e.Create? || e.EndSlice? || e.Dispatch? || e.ClockTick? {
      ChargedOther(s, e, x, last);
    } else {
      ChargedOperation(s, e, x, last);
    }
  }

  /** A process that its CPU gives up without queueing it is lost, and so is its slice. */
  lemma SliceLost(s: KState, e: Event, x: nat, last: int)
    requires Inv(s) && Enabled(s, e) && Timed(s, last) && !Keeps(s, e) && RunsNow(s, x)
    requires Live(s, x) && x < |s.t.pcb| && !Kills(s, e, x)
    ensures |Step(s, e).t.pcb| == |s.t.pcb| && Lost(Step(s, e), x) && Clock(e, last) == last
    ensures Step(s, e).t.pcb[x].time == s.t.pcb[x].time == CpuTime(Step(s, e), x, last) <= CpuTime(s, x, last)
  {
    StepKeepsInv(s, e);
    CurrentParts(s, 0);
    StaysLive(s, e, x);
    SameMachine(s, e, last);
    OneCpu(s, x, last);
    OneCpu(Step(s, e), x, last);
    if e.Terminate? {
      hide Kill, Wf, Tree, PostOrder, Queued, Victims, WaitingVictims, CpuTime, Live;
      InvWf(s);
      Survivors(s.t, e.victim);
      hide Inv;
      assert s.onCpu - {e.c} == {};
    } else {
      hide Inv, CpuTime, Live;
      assert s.onCpu - {e.c} == {};
    }
  }

  /** What a step does to the CPU time of a process that it does not kill. */
  ghost predicate TimePasses(s: KState, e: Event, x: nat, last: int)
    requires Inv(s) && Enabled(s, e) && x < |s.t.pcb| && |s.current| == 1
  {
    var w, now := Step(s, e), Clock(e, last);
    && |w.t.pcb| == |s.t.pcb| && s.t.pcb[x].time <= w.t.pcb[x].time
    && CpuTime(w, x, now) <= CpuTime(s, x, last) + (if RunsNow(s, x) then now - last else 0)
    && (CpuTime(s, x, last) <= CpuTime(w, x, now) || Lost(w, x))
  }

  lemma StepTime(s: KState, e: Event, x: nat, last: int)
    requires Inv(s) && Enabled(s, e) && Timed(s, last) && last <= Clock(e, last)
    requires Live(s, x) && x < |s.t.pcb| && !Kills(s, e, x)
    ensures TimePasses(s, e, x, last)
  {
    hide Inv, Enabled, Step, CpuTime, Keeps, Lost;
    if Keeps(s, e) || !RunsNow(s, x) {
      StepCharges(s, e, x, last);
    } else {
      SliceLost(s, e, x, last);
    }
  }

  /** The last reading of the clock in a run. */
  function EndTime(es: seq<Event>, last: int): int {
    if es == [] then last else EndTime(es[1..], Clock(es[0], last))
  }

  /** The clock never goes back. */
  predicate Measured(es: seq<Event>, last: int) {
    es != [] ==> last <= Clock(es[0], last) && Measured(es[1..], Clock(es[0], last))
  }

  lemma SameMachine(s: KState, e: Event, last: int)
    requires Inv(s) && Enabled(s, e)
    ensures |Step(s, e).current| == |s.current| && |Step(s, e).t.pcb| == |s.t.pcb|
    ensures Timed(s, last) && last <= Clock(e, last) ==> Timed(Step(s, e), Clock(e, last))
  {
    hide Inv, Enabled, Step;
    UseAfter(s, e);
    SameSize(s, e);
    SliceAfter(s, e);
  }

  /** A new slice begins at a dispatch only. */
  lemma SliceAfter(s: KState, e: Event)
    requires Inv(s) && Enabled(s, e)
    ensures
      var w := Step(s, e);
      || (w.onCpu <= s.onCpu && w.sliceStart == s.sliceStart)
      || (e.Dispatch? && w.sliceStart == e.now)
  {
    hide Inv;
    match e
    case Passeren(c, k, _, _) => ParametersP(s, c, k);
    case Verhogen(c, k, _, _) => ParametersP(s, c, k);
    case DoIo(c, a, _, _) => ParametersP(s, c, Device(CommandIndex(a)));
    case ClockWait(c, _, _) => ParametersP(s, c, CLOCK);
    case Create(c, _, _) => CurrentParts(s, c); InvWf(s); Heads(s.t);
    case EndSlice(c, _, _) => CurrentParts(s, c);
    case Terminate(_, v) =>
    case _ => InvWf(s); Heads(s.t);
  }

  /**
    What GETTIME returns for a process never grows by more than the time that has passed, and
    never decreases: unless the process has been lost, in which case it never calls GETTIME again.
  */
  lemma {:induction false} CpuTimeGrows(s: KState, es: seq<Event>, x: nat, last: int)
    requires Inv(s) && Legal(s, es) && Timed(s, last) && Measured(es, last)
    requires Live(s, x) && Spared(s, es, x)
    ensures x < |s.t.pcb| && x < |Exec(s, es).t.pcb| && Live(Exec(s, es), x) && last <= EndTime(es, last)
    ensures CpuTime(Exec(s, es), x, EndTime(es, last)) <= CpuTime(s, x, last) + (EndTime(es, last) - last)
    ensures Placed(Exec(s, es), x) ==> CpuTime(s, x, last) <= CpuTime(Exec(s, es), x, EndTime(es, last))
    decreases |es|
  {
    LiveParent(s, x);
    if es != [] {
      var e := es[0];
      StepKeepsInv(s, e);
      StaysLive(s, e, x);
      StepTime(s, e, x, last);
      SameMachine(s, e, last);
      var w := Step(s, e);
      hide Inv, Enabled, Step, CpuTime, Kills, Live, Placed;
      CpuTimeGrows(w, es[1..], x, Clock(e, last));
      if Lost(w, x) {
        LostForever(w, es[1..], x);
      }
    }
  }

  /** The CPU time of PCB i at clock now, nothing if it is not live. */
  ghost function Share(s: KState, i: nat, now: int): int
    requires i < |s.t.pcb|
  {
    if Live(s, i) then CpuTime(s, i, now) else 0
  }

  ghost function Shares(s: KState, n: nat, now: int): int
    requires n <= |s.t.pcb|
  {
    if n == 0 then 0 else Shares(s, n - 1, now) + Share(s, n - 1, now)
  }

  /** The sum of p_time over the live processes among the first n PCBs. */
  ghost function Stored(s: KState, n: nat): int
    requires n <= |s.t.pcb|
  {
    if n == 0 then 0 else Stored(s, n - 1) + if Live(s, n - 1) then s.t.pcb[n - 1].time else 0
  }

  /** The slice under way. */
  ghost function Slice(s: KState, now: int): int {
    if s.onCpu != {} then now - s.sliceStart else 0
  }

  lemma {:induction false} SharesAre(s: KState, n: nat, now: int)
    requires Inv(s) && |s.current| == 1 && n <= |s.t.pcb|
    ensures Shares(s, n, now) == Stored(s, n) + if s.onCpu == {0} && s.current[0] < n then now - s.sliceStart else 0
  {
    if n > 0 {
      SharesAre(s, n - 1, now);
      OneCpu(s, n - 1, now);
      if s.onCpu == {0} && s.current[0] == n - 1 {
        assert Running(s, 0);
      }
    }
  }

  /** No live process has been charged a negative time, and all together no more than went by. */
  ghost predicate Budget(s: KState, start: int, now: int) {
    && Shares(s, |s.t.pcb|, now) <= now - start
    && forall x: nat :: x < |s.t.pcb| && Live(s, x) ==> s.t.pcb[x].time >= 0
  }

  /** One share after a step. */
  lemma ShareStep(s: KState, e: Event, x: nat, last: int)
    requires Inv(s) && Enabled(s, e) && Timed(s, last) && last <= Clock(e, last)
    requires x < |s.t.pcb| && (Live(s, x) ==> s.t.pcb[x].time >= 0)
    ensures x < |Step(s, e).t.pcb|
    ensures Live(Step(s, e), x) ==> Step(s, e).t.pcb[x].time >= 0
    ensures Share(Step(s, e), x, Clock(e, last))
      <= Share(s, x, last) + if RunsNow(s, x) then Clock(e, last) - last else 0
  {
    hide Inv, Enabled, Step, CpuTime, Lost;
    StepKeepsInv(s, e);
    SameMachine(s, e, last);
    if Live(s, x) && !Kills(s, e, x) {
      StepTime(s, e, x, last);
      StaysLive(s, e, x);
    } else {
      OneCpu(s, x, last);
      NewShare(s, e, x, last);
    }
  }

  /** Who is not live or is killed has no share; who is created starts with none. */
  lemma NewShare(s: KState, e: Event, x: nat, last: int)
    requires Inv(s) && Enabled(s, e) && |s.current| == 1 && x < |s.t.pcb|
    requires !Live(s, x) || Kills(s, e, x)
    ensures x < |Step(s, e).t.pcb| && Share(Step(s, e), x, Clock(e, last)) == 0
    ensures Live(Step(s, e), x) ==> Step(s, e).t.pcb[x].time == 0
  {
    var w := Step(s, e);
    StepKeepsInv(s, e);
    InvWf(s);
    Heads(s.t);
    SameMachine(s, e, last);
    UsersAfter(s, e, x);
    if e.Create? && x == s.t.free[0] {
      CurrentParts(s, e.c);
      hide Inv, Wf, CpuTime;
      OneCpu(w, x, Clock(e, last));
      assert s.t.free[0] in s.t.free;
    }
  }

  lemma {:induction false} SharesStep(s: KState, e: Event, n: nat, last: int)
    requires Inv(s) && Enabled(s, e) && Timed(s, last) && last <= Clock(e, last)
    requires n <= |s.t.pcb| && forall x: nat :: x < |s.t.pcb| && Live(s, x) ==> s.t.pcb[x].time >= 0
    ensures n <= |Step(s, e).t.pcb|
    ensures Shares(Step(s, e), n, Clock(e, last))
      <= Shares(s, n, last) + if exists x: nat :: x < n && RunsNow(s, x) then Clock(e, last) - last else 0
  {
    hide Inv, Enabled, Step, Share, Timed;
    if n > 0 {
      SharesStep(s, e, n - 1, last);
      ShareStep(s, e, n - 1, last);
    }
  }

  /** CPU time is conserved: no step hands out more than the time that passes. */
  lemma StepKeepsBudget(s: KState, e: Event, start: int, last: int)
    requires Inv(s) && Enabled(s, e) && Timed(s, last) && last <= Clock(e, last)
    requires Budget(s, start, last)
    ensures Budget(Step(s, e), start, Clock(e, last)) && Timed(Step(s, e), Clock(e, last))
  {
    hide Inv, Enabled, Step, Share, Live;
    var w := Step(s, e);
    StepKeepsInv(s, e);
    SameMachine(s, e, last);
    SharesStep(s, e, |s.t.pcb|, last);
    forall x: nat | x < |w.t.pcb|
      ensures Live(w, x) ==> w.t.pcb[x].time >= 0
    {
      ShareStep(s, e, x, last);
    }
  }

  /**
    Over every run from boot at time start: the stored times of all live processes and the slice
    under way add up to at most the time since boot.
  */
  lemma {:induction false} RunKeepsBudget(s: KState, es: seq<Event>, start: int, last: int)
    requires Inv(s) && Legal(s, es) && Timed(s, last) && Measured(es, last) && Budget(s, start, last)
    ensures Budget(Exec(s, es), start, EndTime(es, last)) && Timed(Exec(s, es), EndTime(es, last))
    decreases |es|
  {
    if es != [] {
      var e := es[0];
      StepKeepsInv(s, e);
      StepKeepsBudget(s, e, start, last);
      hide Inv, Enabled, Step, Budget, Timed;
      RunKeepsBudget(Step(s, e), es[1..], start, Clock(e, last));
    }
  }

  lemma CpuTimeConserved(m: Machine, es: seq<Event>, start: int)
    requires Reaches(m, es) && m.ncpu == 1 && Measured(es, start)
    ensures
      var w := After(m, es);
      Stored(w, |w.t.pcb|) + Slice(w, EndTime(es, start)) <= EndTime(es, start) - start
  {
    var s := Start(m);
    NothingAtBoot(m, m.maxproc, start);
    hide Inv, Start;
    RunKeepsBudget(s, es, start, start);
    RunKeepsInv(s, es);
    var w, now := Exec(s, es), EndTime(es, start);
    SharesAre(w, |w.t.pcb|, now);
    RunningInTable(w);
  }

  lemma RunningInTable(w: KState)
    requires Inv(w) && |w.current| == 1
    ensures w.onCpu != {} ==> w.onCpu == {0}
    ensures w.current[0] < |w.t.pcb|
  {
    OneCpu(w, w.current[0], 0);
  }

  lemma {:induction false} NothingAtBoot(m: Machine, n: nat, now: int)
    requires m.ncpu == 1 < m.maxproc && n <= m.maxproc
    ensures |Start(m).t.pcb| == m.maxproc
    ensures Shares(Start(m), n, now) == 0
    ensures forall x: nat :: x < n ==> Start(m).t.pcb[x].time == 0
    ensures Timed(Start(m), now)
  {
    if n > 0 {
      var s := Start(m);
      NothingAtBoot(m, n - 1, now);
      if n == 1 {
        assert s.t.pcb[n - 1] == BootPcb(m.first, 0);
      } else if n == 2 {
        assert s.t.pcb[n - 1] == BootPcb(m.junk, 1);
      } else {
        assert s.t.pcb[n - 1] == BLANK;
      }
      assert CpuTime(s, n - 1, now) == 0;
    }
  }
}
