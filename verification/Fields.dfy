/** What steps do to the other fields of a PCB, above all p_supportStruct: it decides who passes up and who dies. */
module Fields {
  import opened Types
  import opened Procs
  import opened Forest
  import opened Removal
  import opened Devices
  import opened State
  import opened Invariant
  import opened Runs
  import opened Lifecycle

  /** From b to w only the saved state, the time and the semaphore may have changed. */
  ghost predicate SameProcess(b: Pcb, w: Pcb) {
    w.support == b.support && w.pid == b.pid && w.parent == b.parent
  }

  lemma OperationFields(s: KState, c: nat, k: Key, r: Request, exc: Context, now: int, x: nat)
    requires Inv(s) && c in s.onCpu && x < |s.t.pcb|
    ensures c < |s.current| && s.current[c] < |s.t.pcb| && (k in s.t.blocked ==> s.t.blocked[k] != [])
    ensures
      var w := P(s, c, k, r, exc, now);
      x < |w.t.pcb| && SameProcess(s.t.pcb[x], w.t.pcb[x])
    ensures
      var w := V(s, c, k, r, exc, now);
      x < |w.t.pcb| && SameProcess(s.t.pcb[x], w.t.pcb[x])
  {
    hide Inv, Wf, Block, Wake;
    ParametersP(s, c, k);
    BlockSaves(s, c, k, r, exc, now);
    if k in s.t.blocked {
      WakeKeepsPcbs(s, k);
    }
  }

  lemma WakeKeepsPcbs(s: KState, k: Key)
    requires k in s.t.blocked && s.t.blocked[k] != []
    ensures Wake(s, k).t.pcb == s.t.pcb
  {
  }

  lemma OtherFields(s: KState, e: Event, x: nat)
    requires Inv(s) && Enabled(s, e) && Live(s, x) && x < |s.t.pcb| && !Kills(s, e, x)
    requires !e.Passeren? && !e.Verhogen? && !e.DoIo? && !e.ClockWait?
    ensures x < |Step(s, e).t.pcb| && SameProcess(s.t.pcb[x], Step(s, e).t.pcb[x])
  {
    hide Inv, Wf, Tree, PostOrder, Kill, Queued, Victims, WaitingVictims;
    InvWf(s);
    Heads(s.t);
    if e.Terminate? {
      Survivors(s.t, e.victim);
    } else if e.Create? {
      CurrentParts(s, e.c);
      assert s.t.free[0] in s.t.free;
    } else if e.EndSlice? {
      CurrentParts(s, e.c);
    }
  }

  /** No step changes pid, parent or support structure of a live process that it does not kill. */
  lemma StepFields(s: KState, e: Event, x: nat)
    requires Inv(s) && Enabled(s, e) && Live(s, x) && !Kills(s, e, x)
    ensures x < |s.t.pcb| && x < |Step(s, e).t.pcb|
    ensures
      var b, w := s.t.pcb[x], Step(s, e).t.pcb[x];
      w.support == b.support && w.pid == b.pid && w.parent == b.parent
  {
    LiveParent(s, x);
    hide Inv, P, V, CommandIndex, Live, Kills;
    match e
    case Passeren(c, k, exc, now) => OperationFields(s, c, k, ByP, exc, now, x);
    case Verhogen(c, k, exc, now) => OperationFields(s, c, k, ByV, exc, now, x);
    case DoIo(c, a, exc, now) => OperationFields(s, c, Device(CommandIndex(a)), ByIo(a), exc, now, x);
    case ClockWait(c, exc, now) => OperationFields(s, c, CLOCK, ByClock, exc, now, x);
    case _ => OtherFields(s, e, x);
  }

  /** The PCB of a new process. */
  lemma CreatedFields(s: KState, e: Event)
    requires Inv(s) && Enabled(s, e) && e.Create?
    ensures s.t.free != [] && e.c < |s.current| && s.t.free[0] < |Step(s, e).t.pcb|
    ensures Step(s, e).t.pcb[s.t.free[0]] == Pcb(Some(s.current[e.c]), e.a1, 0, None, e.a3, s.t.nextPid)
  {
    CurrentParts(s, e.c);
    InvWf(s);
    Heads(s.t);
    hide Inv, Wf;
  }

  /** The a3 of the last CREATEPROCESS of the run that gave PCB x to a process, or before if there was none. */
  ghost function Granted(s: KState, es: seq<Event>, x: nat, before: int): int
    requires Inv(s) && Legal(s, es)
    decreases |es|
  {
    if es == [] then before
    else
      StepKeepsInv(s, es[0]);
      Granted(Step(s, es[0]), es[1..], x,
              if es[0].Create? && s.t.free[0] == x then es[0].a3 else before)
  }

  /** Whoever lives at the end of a run has the support structure that its creator gave it. */
  lemma {:induction false} SupportKept(s: KState, es: seq<Event>, x: nat, before: int)
    requires Inv(s) && Legal(s, es) && Live(Exec(s, es), x)
    requires Live(s, x) && x < |s.t.pcb| ==> s.t.pcb[x].support == before
    ensures x < |Exec(s, es).t.pcb| && Exec(s, es).t.pcb[x].support == Granted(s, es, x, before)
    decreases |es|
  {
    if es == [] {
      LiveParent(s, x);
    } else {
      var e := es[0];
      StepKeepsInv(s, e);
      SupportStep(s, e, x, before);
      hide Inv, Enabled, Step, Live;
      SupportKept(Step(s, e), es[1..], x, if e.Create? && s.t.free[0] == x then e.a3 else before);
    }
  }

  lemma SupportStep(s: KState, e: Event, x: nat, before: int)
    requires Inv(s) && Enabled(s, e) && (Live(s, x) && x < |s.t.pcb| ==> s.t.pcb[x].support == before)
    ensures e.Create? ==> s.t.free != []
    ensures
      var w := Step(s, e);
      Live(w, x) && x < |w.t.pcb| ==>
        w.t.pcb[x].support == if e.Create? && s.t.free[0] == x then e.a3 else before
  {
    StepKeepsInv(s, e);
    SameSize(s, e);
    if Live(Step(s, e), x) {
      if Live(s, x) && !Kills(s, e, x) {
        StepFields(s, e, x);
        NotFree(s, e, x);
      } else {
        LiveParent(Step(s, e), x);
        UsersAfter(s, e, x);
        CreatedFields(s, e);
      }
    }
  }

  lemma NotFree(s: KState, e: Event, x: nat)
    requires Inv(s) && Enabled(s, e) && Live(s, x)
    ensures e.Create? ==> s.t.free[0] != x
  {
    assert e.Create? ==> s.t.free[0] in s.t.free;
  }

  /**
    From boot: a process that is live after a run was created with the support structure it has, the
    first process with none. So passUpOrDie kills exactly the callers that were created without one.
  */
  lemma SupportIsGranted(m: Machine, es: seq<Event>, x: nat)
    requires Reaches(m, es) && Live(After(m, es), x)
    ensures x < |After(m, es).t.pcb|
    ensures After(m, es).t.pcb[x].support == Granted(Start(m), es, x, 0)
  {
    FirstProcess(m, x);
    SupportKept(Start(m), es, x, 0);
  }

  /** At boot the first process is the only live one: ready, in its initial state, without parent or support. */
  lemma FirstProcess(m: Machine, x: nat)
    requires m.ncpu < m.maxproc
    ensures Live(Start(m), x) <==> x == 0
    ensures Start(m).t.ready == [0] && |Start(m).t.pcb| == m.maxproc
    ensures Start(m).t.pcb[0] == Pcb(None, m.first, 0, None, 0, 1)
    ensures Start(m).processCount == 1 && Start(m).softBlockCount == 0 && Start(m).sliceStart == 0 && Start(m).onCpu == {}
  {
    assert Start(m).t.pcb[0] == BootPcb(m.first, 0);
  }
}
