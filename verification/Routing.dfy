/** Which process a device interrupt wakes: addresses, semaphores and requests agree, but for terminals. */
module Routing {
  import opened Types
  import opened Procs
  import opened Forest
  import opened Removal
  import opened Devices
  import opened State
  import opened Invariant
  import opened Runs
  import opened Semaphores

  /** The 16 bytes of command-register addresses that doio takes for one device. */
  predicate InWindow(address: int, line: int, dev: int) {
    RegisterAddress(line, dev) + 4 <= address % 0x1_0000_0000 < RegisterAddress(line, dev) + 4 + DEVREG_SIZE
  }

  predicate IsDevice(line: int, dev: int) {
    3 <= line <= 7 && 0 <= dev < DEVS_PER_LINE
  }

  /** doio turns an address into the index of a device exactly for the addresses of its window. */
  lemma WindowIsIndex(address: int, line: int, dev: int)
    requires IsDevice(line, dev)
    ensures CommandIndex(address) == DeviceIndex(line, dev) <==> InWindow(address, line, dev)
  {
    var m, i := 0x1_0000_0000, DeviceIndex(line, dev);
    var off := (address - 4 - START_DEVREG) % m;
    assert RegisterAddress(line, dev) == START_DEVREG + 16 * i;
    OffsetWraps(address);
    assert CommandIndex(address) == off / 16;
    assert off / 16 == i <==> 16 * i <= off < 16 * i + 16;
  }

  /** The offset of a 32-bit address from the first command register. */
  lemma OffsetWraps(address: int)
    ensures
      var a, off := address % 0x1_0000_0000, (address - 4 - START_DEVREG) % 0x1_0000_0000;
      off == if a >= START_DEVREG + 4 then a - START_DEVREG - 4 else a - START_DEVREG - 4 + 0x1_0000_0000
  {
    var m := 0x1_0000_0000;
    var a, q := address % m, address / m;
    assert address == m * q + a;
    if a >= START_DEVREG + 4 {
      Remainder(address - 4 - START_DEVREG, q, a - START_DEVREG - 4);
    } else {
      Remainder(address - 4 - START_DEVREG, q - 1, a - START_DEVREG - 4 + m);
    }
  }

  lemma Remainder(n: int, q: int, r: int)
    requires n == 0x1_0000_0000 * q + r && 0 <= r < 0x1_0000_0000
    ensures n % 0x1_0000_0000 == r
  {
  }

  /**
    The semaphores of the requests, in numbers. CLOCKWAIT uses number 48. DOIO on the command register
    of device dev of a line, or on the transmitter's or receiver's of a terminal, uses 8 * (line - 3) + dev.
  */
  lemma RequestKeys(e: Event, line: int, dev: int)
    ensures e.ClockWait? ==> PKey(e) == Some(Device(48))
    ensures e.DoIo? && 3 <= line <= 7 && 0 <= dev < 8 ==>
      var first := 0x1000_0054 + 0x80 * (line - 3) + 0x10 * dev;
      var a := e.address % 0x1_0000_0000;
      a == first + 4 || (line == 7 && a == first + 12) ==> PKey(e) == Some(Device(8 * (line - 3) + dev))
  {
    if e.DoIo? && IsDevice(line, dev) {
      WindowIsIndex(e.address, line, dev);
    }
  }

  /** No two devices share a semaphore. */
  lemma OneSemaphoreEach(line: int, dev: int, line': int, dev': int)
    requires IsDevice(line, dev) && IsDevice(line', dev')
    ensures DeviceIndex(line, dev) == DeviceIndex(line', dev') <==> line == line' && dev == dev'
    ensures DeviceIndex(line, dev) < PSEUDO_CLOCK_SEM
  {
  }

  /** Everybody who waits on a semaphore of the kernel asked for it by DOIO or CLOCKWAIT. */
  ghost predicate Official(s: KState, k: Key) {
    k.Device? ==> forall x :: x in Waiting(s.t.blocked, k) ==> AskedKernel(s, x)
  }

  ghost predicate AskedKernel(s: KState, x: nat) {
    x in s.why && (s.why[x].ByIo? || s.why[x].ByClock?)
  }

  lemma OfficialLess(s: KState, w: KState, k: Key)
    requires Official(s, k)
    requires forall x :: x in Waiting(w.t.blocked, k) ==> x in Waiting(s.t.blocked, k)
    requires forall x :: x in Waiting(w.t.blocked, k) && x in s.why ==> x in w.why && w.why[x] == s.why[x]
    ensures Official(w, k)
  {
    if k.Device? {
      forall x | x in Waiting(w.t.blocked, k)
        ensures AskedKernel(w, x)
      {
        assert AskedKernel(s, x);
      }
    }
  }

  lemma OfficialBlocks(s: KState, w: KState, c: nat, j: Key, r: Request, k: Key)
    requires Official(s, k) && Blocks(s, w, c, j, r, k)
    requires j.Device? ==> r.ByIo? || r.ByClock?
    ensures Official(w, k)
  {
    if k.Device? {
      forall x | x in Waiting(w.t.blocked, k)
        ensures AskedKernel(w, x)
      {
        assert x in Waiting(s.t.blocked, k) ==> AskedKernel(s, x);
      }
    }
  }

  /** The request that a P or V step records if it blocks. */
  function Asked(e: Event): Request {
    match e
    case Passeren(_, _, _, _) => ByP
    case DoIo(_, a, _, _) => ByIo(a)
    case ClockWait(_, _, _) => ByClock
    case _ => ByV
  }

  lemma OperationOfficial(s: KState, e: Event, k: Key)
    requires Inv(s) && Enabled(s, e) && OwnKeys(e) && Official(s, k) && (PKey(e).Some? || e.Verhogen?)
    ensures Official(Step(s, e), k)
  {
    hide Inv, P, V, Official, Waiting, Val, Blocks, Wakes, Stores, CommandIndex;
    var j := if e.Verhogen? then e.key else PKey(e).value;
    PEffect(s, e.c, j, Asked(e), e.exc, e.now, k);
    OperationCases(s, Step(s, e), e.c, j, Asked(e), k);
  }

  lemma OperationCases(s: KState, w: KState, c: nat, j: Key, r: Request, k: Key)
    requires Official(s, k) && (j.Device? ==> r.ByIo? || r.ByClock?)
    requires Blocks(s, w, c, j, r, k) || Wakes(s, w, j, k) || Stores(s, w, j, 0, k) || Stores(s, w, j, 1, k)
    ensures Official(w, k)
  {
    hide Official, AskedKernel;
    if Blocks(s, w, c, j, r, k) {
      OfficialBlocks(s, w, c, j, r, k);
    } else {
      OfficialLess(s, w, k);
    }
  }

  lemma RemoveOfficial(s: KState, e: Event, k: Key)
    requires Inv(s) && Enabled(s, e) && e.Terminate? && Official(s, k)
    ensures Official(Step(s, e), k)
  {
    hide Kill, Wf, Tree, PostOrder, Queued, Victims, WaitingVictims, Official;
    InvWf(s);
    Survivors(s.t, e.victim);
    OfficialLess(s, Step(s, e), k);
  }

  lemma QuietOfficial(s: KState, e: Event, k: Key)
    requires Inv(s) && Enabled(s, e) && Official(s, k)
    requires e.Create? || e.EndSlice? || e.Dispatch? || e.ClockTick? || e.DeviceIrq?
    ensures Official(Step(s, e), k)
  {
    hide Inv, Official, Val;
    if e.DeviceIrq? {
      IrqEffect(s, e, k);
    } else if e.Create? || e.EndSlice? {
      CurrentParts(s, e.c);
    }
    OfficialLess(s, Step(s, e), k);
  }

  lemma StepOfficial(s: KState, e: Event, k: Key)
    requires Inv(s) && Enabled(s, e) && OwnKeys(e) && Official(s, k)
    ensures Official(Step(s, e), k)
  {
    hide Inv, Enabled, Step, Official;
    if PKey(e).Some? || e.Verhogen? {
      OperationOfficial(s, e, k);
    } else if e.Terminate? {
      RemoveOfficial(s, e, k);
    } else {
      QuietOfficial(s, e, k);
    }
  }

  lemma {:induction false} RunOfficial(s: KState, es: seq<Event>, k: Key)
    requires Inv(s) && Legal(s, es) && Official(s, k) && (forall e :: e in es ==> OwnKeys(e))
    ensures Official(Exec(s, es), k)
    decreases |es|
  {
    if es != [] {
      hide Inv, Enabled, Step, Official;
      StepKeepsInv(s, es[0]);
      StepOfficial(s, es[0], k);
      RunOfficial(Step(s, es[0]), es[1..], k);
    }
  }

  /** x waits for an answer of the device: it issued DOIO on a command register of that device. */
  ghost predicate Awaits(s: KState, x: nat, line: int, dev: int) {
    x in s.why && s.why[x].ByIo? && InWindow(s.why[x].address, line, dev)
  }

  /** In every run that keeps P and V off the kernel's semaphores, a device's waiters are its issuers. */
  lemma WaitersAreIssuers(s: KState, line: int, dev: int, x: nat)
    requires Inv(s) && IsDevice(line, dev) && Official(s, Device(DeviceIndex(line, dev)))
    requires x in Waiting(s.t.blocked, Device(DeviceIndex(line, dev)))
    ensures Awaits(s, x, line, dev)
  {
    var i := DeviceIndex(line, dev);
    assert Fits(s, x, Device(i)) && AskedKernel(s, x);
    OneSemaphoreEach(line, dev, line, dev);
    if s.why[x].ByIo? {
      WindowIsIndex(s.why[x].address, line, dev);
    }
  }

  /** The first waiter on j, and nobody else, is woken: it becomes the last ready process, with a0 set to status. */
  ghost predicate Delivers(s: KState, w: KState, j: Key, status: int) {
    var q := Waiting(s.t.blocked, j);
    && q != [] && w.t.ready == s.t.ready + [q[0]] && Waiting(w.t.blocked, j) == q[1..]
    && (forall k :: k != j ==> Waiting(w.t.blocked, k) == Waiting(s.t.blocked, k))
    && q[0] < |s.t.pcb| && w.t.pcb == s.t.pcb[q[0] := s.t.pcb[q[0]].(ctx := s.t.pcb[q[0]].ctx.(a0 := status))]
  }

  lemma IrqDelivers(s: KState, e: Event)
    requires Inv(s) && Enabled(s, e) && e.DeviceIrq?
    ensures
      var j := IrqKey(s, e.line, e.dev);
      var status := if j == Device(DeviceIndex(e.line, e.dev)) then e.tx else e.rx;
      if Waiting(s.t.blocked, j) != [] then Delivers(s, Step(s, e), j, status)
      else Step(s, e) == s.(onCpu := s.onCpu - {e.c})
  {
    InvWf(s);
    Heads(s.t);
    hide Inv, Wf;
  }

  /** Where an interrupt goes, whatever the line: a terminal without waiters answers the next terminal's. */
  lemma Route(s: KState, e: Event)
    requires Inv(s) && Enabled(s, e) && e.DeviceIrq?
    ensures
      var i: nat := 8 * (e.line - 3) + e.dev;
      if Waiting(s.t.blocked, Device(i)) != [] then Delivers(s, Step(s, e), Device(i), e.tx)
      else if e.line == 7 && Waiting(s.t.blocked, Device(i + 1)) != [] then
        Delivers(s, Step(s, e), Device(i + 1), e.rx)
      else Step(s, e) == s.(onCpu := s.onCpu - {e.c})
  {
    IrqDelivers(s, e);
    InvWf(s);
    hide Inv, Delivers, Step;
  }

  /**
    From boot, an interrupt of a device that somebody waits for, whatever the line, wakes the
    longest-waiting process of those that issued DOIO on that device's registers, gives it the
    status (a terminal's transmitter status), and leaves the waiters of every other semaphore alone.
  */
  lemma InterruptFindsIssuer(m: Machine, es: seq<Event>, e: Event)
    requires Reaches(m, es) && (forall d :: d in es ==> OwnKeys(d))
    requires Enabled(After(m, es), e) && e.DeviceIrq?
    requires Waiting(After(m, es).t.blocked, Device(DeviceIndex(e.line, e.dev))) != []
    ensures
      var s, k := After(m, es), Device(DeviceIndex(e.line, e.dev));
      && Delivers(s, Step(s, e), k, e.tx)
      && forall x :: x in Waiting(s.t.blocked, k) ==> Awaits(s, x, e.line, e.dev)
  {
    var s, k := After(m, es), Device(DeviceIndex(e.line, e.dev));
    assert Official(Start(m), k);
    RunOfficial(Start(m), es, k);
    Route(s, e);
    hide Inv, Enabled, Step, Delivers, Awaits, Official, Boot;
    forall x | x in Waiting(s.t.blocked, k)
      ensures Awaits(s, x, e.line, e.dev)
    {
      EnabledDevice(s, e);
      WaitersAreIssuers(s, e.line, e.dev, x);
    }
  }

  lemma EnabledDevice(s: KState, e: Event)
    requires Inv(s) && Enabled(s, e) && e.DeviceIrq?
    ensures IsDevice(e.line, e.dev)
  {
  }

  /**
    The register whose word an interrupt puts into a0. A terminal has four: receiver status and
    command, transmitter status and command. Any other device has its status first, its command next.
  */
  ghost function StatusRegister(s: KState, e: Event): int
    requires Inv(s) && Enabled(s, e) && e.DeviceIrq?
  {
    var first := RegisterAddress(e.line, e.dev);
    var own := IrqKey(s, e.line, e.dev) == Device(DeviceIndex(e.line, e.dev));
    if e.line == TERMINAL_LINE && own then first + 8 else first
  }

  /** The addresses that doio takes for index i. */
  lemma IndexBounds(address: int, i: nat)
    requires i < PSEUDO_CLOCK_SEM && CommandIndex(address) == i
    ensures START_DEVREG + 4 + 16 * i <= address % 0x1_0000_0000 < START_DEVREG + 20 + 16 * i
  {
    OffsetWraps(address);
    var off := (address - 4 - START_DEVREG) % 0x1_0000_0000;
    assert off / 16 == i ==> 16 * i <= off < 16 * i + 16;
  }

  /**
    Does DOIO return the status that belongs to the command register it wrote? From boot, whoever is
    woken by an interrupt gets it if and only if it used the command register proper, a terminal's
    transmitter one, of the device that interrupts. Whoever asked a terminal for reception never does.
  */
  lemma AnswerIsRequested(m: Machine, es: seq<Event>, e: Event)
    requires Reaches(m, es) && (forall d :: d in es ==> OwnKeys(d))
    requires Enabled(After(m, es), e) && e.DeviceIrq?
    requires Waiting(After(m, es).t.blocked, IrqKey(After(m, es), e.line, e.dev)) != []
    ensures
      var s := After(m, es);
      var key := IrqKey(s, e.line, e.dev);
      var x, command := Waiting(s.t.blocked, key)[0], if e.line == 7 then 12 else 4;
      && x in s.why && s.why[x].ByIo?
      && var a := s.why[x].address % 0x1_0000_0000;
      && (StatusRegister(s, e) == a - 4 <==>
            key == Device(DeviceIndex(e.line, e.dev)) && a == RegisterAddress(e.line, e.dev) + command)
      && (forall d :: 0 <= d < 8 && a == RegisterAddress(TERMINAL_LINE, d) + 4 ==> StatusRegister(s, e) != a - 4)
  {
    var s := After(m, es);
    var key := IrqKey(s, e.line, e.dev);
    var x := Waiting(s.t.blocked, key)[0];
    assert Official(Start(m), key);
    RunOfficial(Start(m), es, key);
    assert x in Waiting(s.t.blocked, key) && Fits(s, x, key) && AskedKernel(s, x);
    EnabledDevice(s, e);
    hide Inv, Enabled, Reaches, After, Start, Official, CommandIndex;
    IndexBounds(s.why[x].address, key.index);
  }

  /** Exactly when does an interrupt wake a process that waits on another semaphore than its device's? */
  lemma MisroutedWhen(s: KState, e: Event)
    requires Inv(s) && Enabled(s, e) && e.DeviceIrq?
    ensures
      var i: nat := 8 * (e.line - 3) + e.dev;
      (exists k :: k != Device(i) && Waiting(Step(s, e).t.blocked, k) != Waiting(s.t.blocked, k)) <==>
      e.line == 7 && Waiting(s.t.blocked, Device(i)) == [] && Waiting(s.t.blocked, Device(i + 1)) != []
  {
    Route(s, e);
    hide Inv, Enabled, Step;
    var i := DeviceIndex(e.line, e.dev);
    if e.line == TERMINAL_LINE && Waiting(s.t.blocked, Device(i)) == [] && Waiting(s.t.blocked, Device(i + 1)) != [] {
      var q, q' := Waiting(s.t.blocked, Device(i + 1)), Waiting(Step(s, e).t.blocked, Device(i + 1));
      assert |q'| < |q|;
      assert Device(i + 1) != Device(i) && q' != q;
    }
  }

  lemma FirstDispatched(m: Machine)
    requires m.maxproc == 2 && m.ncpu == 1
    ensures
      var s := Start(m);
      && Enabled(s, Dispatch(0, 0))
      && var w := Step(s, Dispatch(0, 0));
      && w.current == [0] && w.onCpu == {0} && w.t.ready == [] && w.t.blocked == map[] && |w.t.pcb| == 2
      && Val(w, Device(33)) == 0
  {
    hide Inv, Zeroed;
    ZeroedAt(m.memory, PSEUDO_CLOCK_SEM + 1, 33);
  }

  lemma FirstBlocked(s: KState, address: int, exc: Context)
    requires Inv(s) && s.current == [0] && s.onCpu == {0} && s.t.ready == [] && s.t.blocked == map[] && |s.t.pcb| == 2
    requires CommandIndex(address) == 33 && Val(s, Device(33)) == 0
    ensures
      var e := DoIo(0, address, exc, 0);
      && Enabled(s, e)
      && var w := Step(s, e);
      && |w.current| == 1 && w.t.ready == [] && w.t.blocked == map[Device(33) := [0]]
      && |w.t.pcb| == 2 && w.t.pcb[0].ctx == Past(exc)
  {
    hide Inv, CommandIndex;
    var w := Step(s, DoIo(0, address, exc, 0));
    assert w == Block(s, 0, Device(33), ByIo(address), exc, 0);
    assert Waiting(s.t.blocked, Device(33)) + [0] == [0];
  }

  lemma FirstAnswered(s: KState, e: Event)
    requires Inv(s) && |s.current| == 1 && s.t.ready == [] && s.t.blocked == map[Device(33) := [0]]
    requires |s.t.pcb| == 2 && e.DeviceIrq? && e.c == 0 && e.line == TERMINAL_LINE && e.dev == 0
    ensures Enabled(s, e)
    ensures
      var w := Step(s, e);
      w.t.ready == [0] && |w.t.pcb| == 2 && w.t.pcb[0].ctx == s.t.pcb[0].ctx.(a0 := e.rx)
  {
    hide Inv, Step;
    Route(s, e);
  }

  /**
    It does happen: the first process asks terminal 1 for a transmission, and an interrupt of
    terminal 0 answers it with the receiver status of terminal 0.
  */
  lemma MisroutedExample(m: Machine, exc: Context, tx: int, rx: int)
    requires m.maxproc == 2 && m.ncpu == 1
    ensures
      var s := Start(m);
      var address := RegisterAddress(TERMINAL_LINE, 1) + 12;
      var es := [Dispatch(0, 0)] + [DoIo(0, address, exc, 0)];
      var e := DeviceIrq(0, TERMINAL_LINE, 0, tx, rx);
      && InWindow(address, TERMINAL_LINE, 1) && Legal(s, es) && Inv(Exec(s, es)) && Enabled(Exec(s, es), e)
      && var w := Step(Exec(s, es), e);
      w.t.ready == [0] && w.t.pcb[0].ctx == Past(exc).(a0 := rx)
  {
    hide Inv, Zeroed, Start, Step, Enabled, Legal, Exec;
    var s, address := Start(m), RegisterAddress(TERMINAL_LINE, 1) + 12;
    var d, io, e := Dispatch(0, 0), DoIo(0, address, exc, 0), DeviceIrq(0, TERMINAL_LINE, 0, tx, rx);
    WindowIsIndex(address, TERMINAL_LINE, 1);
    FirstDispatched(m);
    StepKeepsInv(s, d);
    var a := Step(s, d);
    FirstBlocked(a, address, exc);
    StepKeepsInv(a, io);
    var b := Step(a, io);
    ExecOne(a, io);
    ExecCons(s, d, [io]);
    FirstAnswered(b, e);
  }

  /** From boot, with P and V kept off the kernel's semaphores, DOIO and CLOCKWAIT always block the caller. */
  lemma IoAlwaysBlocks(m: Machine, es: seq<Event>, e: Event)
    requires Reaches(m, es) && (forall d :: d in es ==> OwnKeys(d))
    requires Enabled(After(m, es), e) && (e.DoIo? || e.ClockWait?)
    ensures
      var s, k, w := After(m, es), PKey(e).value, Step(After(m, es), e);
      && e.c in s.onCpu && e.c < |s.current| && e.c !in w.onCpu
      && Waiting(w.t.blocked, k) == Waiting(s.t.blocked, k) + [s.current[e.c]]
      && w.why == s.why[s.current[e.c] := Asked(e)]
  {
    hide Inv, Waiting, P, CommandIndex, Reaches, After;
    var s, k := After(m, es), PKey(e).value;
    KernelSemaphoresStayZero(m, es, k.index);
    PEffect(s, e.c, k, Asked(e), e.exc, e.now, k);
    OnCpuP(s, e.c, k, Asked(e), e.exc, e.now);
  }
}
