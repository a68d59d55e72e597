/**
  The kernel as a state machine (phase2). Every block of code run under the global lock is
  one step, and Step says what it does to the state.
*/
module State {
  import opened Seqs
  import opened Types
  import opened Procs
  import opened Forest
  import opened Removal
  import opened Devices

  /** Which system call blocked a process. The kernel does not record it; the proofs do. */
  datatype Request = ByP | ByV | ByIo(address: int) | ByClock

  /**
    t: the process table. sem: the semaphore words (0 where absent). current: currentProcess,
    which keeps a stale pointer when its process blocks or dies. onCpu: the CPUs that really
    run their current process; the kernel does not record this either.
  */
  datatype KState = KState(t: Procs, sem: map<Key, int>, current: seq<nat>, onCpu: set<nat>,
                           processCount: int, softBlockCount: int, sliceStart: int,
                           why: map<nat, Request>)

  /**
    c is the CPU, exc the processor state saved when the kernel was entered, now the clock.
    a1 and a3 are the arguments of CREATEPROCESS, tx and rx the status words of a device.
  */
  datatype Event =
    | Create(c: nat, a1: Context, a3: int)
    | Terminate(c: nat, victim: nat)
    | Passeren(c: nat, key: Key, exc: Context, now: int)
    | Verhogen(c: nat, key: Key, exc: Context, now: int)
    | DoIo(c: nat, address: int, exc: Context, now: int)
    | ClockWait(c: nat, exc: Context, now: int)
    | ClockTick
    | DeviceIrq(c: nat, line: int, dev: int, tx: int, rx: int)
    | EndSlice(c: nat, exc: Context, now: int)
    | Dispatch(c: nat, now: int)

  const CLOCK := Device(PSEUDO_CLOCK_SEM)

  function Val(s: KState, k: Key): int {
    if k in s.sem then s.sem[k] else 0
  }

  /** A 32-bit program counter moved past the system call. */
  function Past(exc: Context): Context {
    exc.(pc := (exc.pc + 4) % 0x1_0000_0000)
  }

  /** The PCB of x after updateProcessCPUTime and saving ctx. */
  function Saved(b: Pcb, ctx: Context, ran: int): Pcb {
    b.(time := b.time + ran, ctx := ctx)
  }

  /** blockPcb, when insertBlocked finds room. */
  ghost function Block(s: KState, c: nat, k: Key, r: Request, exc: Context, now: int): (w: KState)
    requires c < |s.current| && s.current[c] < |s.t.pcb|
    ensures w == s.(t := w.t, onCpu := s.onCpu - {c}, softBlockCount := s.softBlockCount + 1,
                    why := s.why[s.current[c] := r])
  {
    var x := s.current[c];
    var t := Park(s.t, k, x);
    s.(t := t.(pcb := t.pcb[x := Saved(t.pcb[x], Past(exc), now - s.sliceStart)]),
       onCpu := s.onCpu - {c}, softBlockCount := s.softBlockCount + 1, why := s.why[x := r])
  }

  /** The longest waiter on k becomes the last ready process. */
  ghost function Wake(s: KState, k: Key): KState
    requires k in s.t.blocked && s.t.blocked[k] != []
  {
    var q := s.t.blocked[k];
    s.(t := s.t.(blocked := SetQueue(s.t.blocked, k, q[1..]), ready := s.t.ready + [q[0]]),
       softBlockCount := s.softBlockCount - 1)
  }

  /** passeren */
  ghost function P(s: KState, c: nat, k: Key, r: Request, exc: Context, now: int): KState
    requires c < |s.current| && s.current[c] < |s.t.pcb|
    requires k in s.t.blocked ==> s.t.blocked[k] != []
  {
    if Val(s, k) <= 0 then Block(s, c, k, r, exc, now)
    else if k in s.t.blocked then Wake(s, k)
    else s.(sem := s.sem[k := 0])
  }

  /** verhogen */
  ghost function V(s: KState, c: nat, k: Key, r: Request, exc: Context, now: int): KState
    requires c < |s.current| && s.current[c] < |s.t.pcb|
    requires k in s.t.blocked ==> s.t.blocked[k] != []
  {
    if Val(s, k) >= 1 then Block(s, c, k, r, exc, now)
    else if k in s.t.blocked then Wake(s, k)
    else s.(sem := s.sem[k := 1])
  }

  /** createProcess, when there is a free PCB. */
  ghost function Spawn(s: KState, c: nat, a1: Context, a3: int): (w: KState)
    requires c < |s.current| && s.current[c] in s.t.kids
    requires s.t.free != [] && s.t.free[0] < |s.t.pcb|
    ensures w == s.(t := w.t, processCount := s.processCount + 1)
  {
    var q, x := s.current[c], s.t.free[0];
    s.(t := Procs(s.t.free[1..], s.t.ready + [x], s.t.blocked,
                  s.t.kids[x := []][q := s.t.kids[q] + [x]],
                  s.t.pcb[x := Pcb(Some(q), a1, 0, None, a3, s.t.nextPid)], s.t.nextPid + 1),
       processCount := s.processCount + 1)
  }

  /** removePcb, as passUpOrDie and termProcess use it. */
  ghost function Remove(s: KState, victim: nat): KState
    requires Tree(s.t) && victim in s.t.kids
  {
    s.(t := Kill(s.t, victim), processCount := s.processCount - Victims(s.t, victim),
       softBlockCount := s.softBlockCount - WaitingVictims(s.t, victim))
  }

  /** handlePseudoClockInterrupt */
  ghost function Tick(s: KState): KState {
    var q := Waiting(s.t.blocked, CLOCK);
    s.(t := s.t.(blocked := s.t.blocked - {CLOCK}, ready := s.t.ready + q),
       softBlockCount := s.softBlockCount - |q|)
  }

  /** The semaphore whose waiter a device interrupt wakes: a terminal tries its index, then the next one. */
  ghost function IrqKey(s: KState, line: int, dev: int): Key
    requires 3 <= line && 0 <= dev
  {
    var i := DeviceIndex(line, dev);
    if line == TERMINAL_LINE && Device(i) !in s.t.blocked then Device(i + 1) else Device(i)
  }

  /** handleDeviceInterrupt: wake a waiter and give it the device status, or fall into the scheduler. */
  ghost function Irq(s: KState, c: nat, line: int, dev: int, tx: int, rx: int): KState
    requires 3 <= line && 0 <= dev
    requires forall k :: k in s.t.blocked ==> s.t.blocked[k] != [] && s.t.blocked[k][0] < |s.t.pcb|
  {
    var k := IrqKey(s, line, dev);
    if k in s.t.blocked then
      var x := s.t.blocked[k][0];
      var w := Wake(s, k);
      var status := if k == Device(DeviceIndex(line, dev)) then tx else rx;
      w.(sem := w.sem[k := 0], t := w.t.(pcb := w.t.pcb[x := Answered(w.t.pcb[x], status)]))
    else
      s.(onCpu := s.onCpu - {c})
  }

  function Answered(b: Pcb, status: int): Pcb {
    b.(ctx := b.ctx.(a0 := status))
  }

  /** handlePLTInterrupt */
  ghost function Preempt(s: KState, c: nat, exc: Context, now: int): KState
    requires c < |s.current| && s.current[c] < |s.t.pcb|
  {
    var x := s.current[c];
    s.(t := s.t.(pcb := s.t.pcb[x := Saved(s.t.pcb[x], exc, now - s.sliceStart)], ready := s.t.ready + [x]),
       onCpu := s.onCpu - {c})
  }

  /** One round of the scheduler: take the first ready process, if there is one. */
  ghost function Run(s: KState, c: nat, now: int): KState
    requires c < |s.current|
  {
    if s.t.ready == [] then s
    else s.(t := s.t.(ready := s.t.ready[1..]), current := s.current[c := s.t.ready[0]],
            onCpu := s.onCpu + {c}, sliceStart := now)
  }

  /** main allocates PCB 0 for the first process and 1..NCPU as placeholders. */
  ghost predicate IsBoot(s: KState, x: nat) {
    1 <= x <= |s.current|
  }

  ghost predicate Live(s: KState, x: nat) {
    InUse(s.t, x) && !IsBoot(s, x)
  }

  /** x is in use, but in no queue. */
  ghost predicate Unqueued(t: Procs, x: nat) {
    InUse(t, x) && x !in t.ready && !Queued(t.blocked, x)
  }

  ghost predicate Running(s: KState, c: nat) {
    c < |s.current| && Live(s, s.current[c]) && Unqueued(s.t, s.current[c])
  }

  /** A CPU runs a live process that is in no queue, and no two CPUs the same. */
  ghost predicate Cpus(s: KState) {
    && (forall c :: 0 <= c < |s.current| ==> s.current[c] < |s.t.pcb|)
    && (forall c :: c in s.onCpu ==> Running(s, c))
    && (forall c, d :: c in s.onCpu && d in s.onCpu && s.current[c] == s.current[d] ==> c == d)
  }

  /** The placeholders are never free, queued, or in a family. */
  ghost predicate Boots(s: KState) {
    && |s.current| < |s.t.pcb|
    && (forall x: nat :: IsBoot(s, x) ==> Placeholder(s.t, x))
  }

  ghost predicate Placeholder(t: Procs, x: nat) {
    Unqueued(t, x) && t.kids[x] == [] && x < |t.pcb| && t.pcb[x].parent == None
  }

  /** Every PCB is free or in use, and the two counters are exact. */
  ghost predicate Counts(s: KState) {
    && (forall x: nat :: x < |s.t.pcb| ==> x in s.t.free || x in s.t.kids)
    && s.processCount + |s.current| + |s.t.free| == |s.t.pcb|
    && s.softBlockCount == Waiters(s.t)
  }

  /** Only process 0 has no parent. */
  ghost predicate Rooted(s: KState) {
    && (forall x: nat :: Live(s, x) && x != 0 ==> HasParent(s.t, x))
    && (|s.t.pcb| > 0 ==> s.t.pcb[0].parent == None)
  }

  ghost predicate HasParent(t: Procs, x: nat) {
    x < |t.pcb| && t.pcb[x].parent.Some?
  }

  /** The reason a process is blocked fits the semaphore it is blocked on. */
  ghost predicate Reasons(s: KState) {
    forall k, x :: k in s.t.blocked && x in s.t.blocked[k] ==> Fits(s, x, k)
  }

  ghost predicate Fits(s: KState, x: nat, k: Key) {
    x in s.why &&
    match s.why[x]
    case ByIo(a) => k == Device(CommandIndex(a))
    case ByClock => k == CLOCK
    case _ => true
  }

  ghost predicate Inv(s: KState) {
    Wf(s.t) && Cpus(s) && Boots(s) && Counts(s) && Rooted(s) && Reasons(s)
  }

  /** No CPU but c runs a process that dies with v. */
  ghost predicate HeldByNoOther(s: KState, c: nat, v: nat)
    requires Inv(s) && Live(s, v)
  {
    forall d :: d in s.onCpu && d != c ==> s.current[d] !in PostOrder(s.t, v)
  }

  /** What the caller and the hardware guarantee before a step. */
  ghost predicate Enabled(s: KState, e: Event)
    requires Inv(s)
  {
    match e
    case Create(c, _, _) => c in s.onCpu && s.t.free != []
    case Terminate(c, v) => c in s.onCpu && Live(s, v) && HeldByNoOther(s, c, v)
    case DoIo(c, a, _, _) => c in s.onCpu && CommandIndex(a) <= PSEUDO_CLOCK_SEM
    case ClockTick => true
    case DeviceIrq(c, line, dev, _, _) => c < |s.current| && 3 <= line <= 7 && 0 <= dev < 8
    case Dispatch(c, _) => c < |s.current| && c !in s.onCpu
    case _ => e.c in s.onCpu
  }

  /** Does step e kill x? */
  ghost predicate Kills(s: KState, e: Event, x: nat)
    requires Inv(s) && Enabled(s, e)
  {
    e.Terminate? && x in PostOrder(s.t, e.victim)
  }

  ghost function Step(s: KState, e: Event): KState
    requires Inv(s) && Enabled(s, e)
  {
    Heads(s.t);
    match e
    case Create(c, a1, a3) => Spawn(s, c, a1, a3)
    case Terminate(c, v) => Remove(s, v).(onCpu := s.onCpu - {c})
    case Passeren(c, k, exc, now) => P(s, c, k, ByP, exc, now)
    case Verhogen(c, k, exc, now) => V(s, c, k, ByV, exc, now)
    case DoIo(c, a, exc, now) => P(s, c, Device(CommandIndex(a)), ByIo(a), exc, now)
    case ClockWait(c, exc, now) => P(s, c, CLOCK, ByClock, exc, now)
    case ClockTick => Tick(s)
    case DeviceIrq(c, line, dev, tx, rx) => Irq(s, c, line, dev, tx, rx)
    case EndSlice(c, exc, now) => Preempt(s, c, exc, now)
    case Dispatch(c, now) => Run(s, c, now)
  }

  /** The table after boot has allocated the first process and n placeholders. */
  ghost function BootTable(maxproc: nat, n: nat, first: Context, junk: Context): Procs
    requires n < maxproc
  {
    Procs(Range(n + 1, maxproc), [0], map[], NoKids(n + 1),
          seq(maxproc, i => if i == 0 then BootPcb(first, 0) else if i <= n then BootPcb(junk, i) else BLANK), n + 2)
  }

  /** The first n PCBs, all childless. */
  function NoKids(n: nat): (r: map<nat, seq<nat>>)
    ensures forall x: nat :: x in r <==> x < n
    ensures forall x: nat :: x < n ==> r[x] == []
  {
    if n == 0 then map[] else NoKids(n - 1)[n - 1 := []]
  }

  lemma BootFirst(maxproc: nat, first: Context, junk: Context)
    requires 0 < maxproc
    ensures BootTable(maxproc, 0, first, junk)
      == Procs(Range(0, maxproc)[1..], [] + [0], map[], map[0 := []],
               seq(maxproc, _ => BLANK)[0 := Pcb(None, first, 0, None, 0, 1)], 2)
  {
    var t := BootTable(maxproc, 0, first, junk);
    assert t.free == Range(0, maxproc)[1..];
    var pcb := seq(maxproc, _ => BLANK)[0 := Pcb(None, first, 0, None, 0, 1)];
    assert |t.pcb| == |pcb|;
    forall i | 0 <= i < maxproc
      ensures t.pcb[i] == pcb[i]
    {
      if i == 0 {
        assert pcb[0] == Pcb(None, first, 0, None, 0, 1);
        assert t.pcb[0] == BootPcb(first, 0);
      } else {
        assert pcb[i] == BLANK;
        assert t.pcb[i] == BLANK;
      }
    }
    assert t.kids == map[0 := []];
  }

  lemma BootNext(maxproc: nat, n: nat, first: Context, junk: Context)
    requires n + 1 < maxproc
    ensures
      var t, w := BootTable(maxproc, n, first, junk), BootTable(maxproc, n + 1, first, junk);
      && t.free != [] && t.free[0] == n + 1 && n + 1 < |t.pcb|
      && w == t.(free := t.free[1..], kids := t.kids[n + 1 := []],
                 pcb := t.pcb[n + 1 := Pcb(None, junk, 0, None, 0, t.nextPid)], nextPid := t.nextPid + 1)
  {
    var t, w := BootTable(maxproc, n, first, junk), BootTable(maxproc, n + 1, first, junk);
    assert w.pcb == t.pcb[n + 1 := Pcb(None, junk, 0, None, 0, t.nextPid)];
    assert w.free == t.free[1..];
    assert w.kids == t.kids[n + 1 := []];
  }

  function BootPcb(ctx: Context, i: int): Pcb {
    Pcb(None, ctx, 0, None, 0, i + 1)
  }

  /**
    What main starts from: the sizes of the process table and of the machine, the words that
    processes will use as semaphores, the state of the first process, and the uninitialised
    state that main gives to the placeholders.
  */
  datatype Machine = Machine(maxproc: nat, ncpu: nat, memory: map<Key, int>, first: Context, junk: Context)

  /** The state when main has run. */
  ghost function Boot(m: Machine): KState
    requires m.ncpu < m.maxproc
  {
    KState(BootTable(m.maxproc, m.ncpu, m.first, m.junk), Zeroed(m.memory, PSEUDO_CLOCK_SEM + 1),
           Range(1, m.ncpu + 1), {}, 1, 0, 0, map[])
  }

  /** The first n device semaphores set to 0. */
  function Zeroed(memory: map<Key, int>, n: nat): map<Key, int> {
    if n == 0 then memory else Zeroed(memory, n - 1)[Device(n - 1) := 0]
  }

  /** Heads of queues are entries of the table. */
  lemma Heads(t: Procs)
    requires Wf(t)
    ensures forall k :: k in t.blocked ==> t.blocked[k] != [] && t.blocked[k][0] < |t.pcb|
    ensures t.free != [] ==> t.free[0] < |t.pcb|
    ensures t.ready != [] ==> InUse(t, t.ready[0]) && t.ready[0] < |t.pcb|
  {
    forall k | k in t.blocked
      ensures t.blocked[k] != [] && t.blocked[k][0] < |t.pcb|
    {
      assert BlockedIn(t, k, t.blocked[k][0]);
    }
    if t.free != [] {
      assert FreeIn(t, t.free[0]);
    }
    if t.ready != [] {
      assert InUse(t, t.ready[0]);
    }
  }

  /** The CPU time of x at clock now: what is stored, and the current slice if x runs. */
  ghost function CpuTime(s: KState, x: nat, now: int): int
    requires x < |s.t.pcb|
  {
    s.t.pcb[x].time + if exists c :: OnCpu(s, c, x) then now - s.sliceStart else 0
  }

  ghost predicate OnCpu(s: KState, c: nat, x: nat) {
    c in s.onCpu && c < |s.current| && s.current[c] == x
  }
}
