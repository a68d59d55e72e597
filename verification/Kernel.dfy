/** The kernel: its global variables and the code that runs under the global lock (phase2). */
module Kernel {
  import opened Listx
  import opened Seqs
  import opened Types
  import opened Procs
  import opened Forest
  import opened Removal
  import opened Devices
  import opened State
  import opened Invariant
  import Asl
  import Pcbs

  class Kernel {
    const table: Pcbs.PcbTable
    const asl: Asl.SemaphoreList
    var sem: map<Key, int>
    var current: seq<nat>
    var processCount: int
    var softBlockCount: int
    var sliceStart: int
    ghost var onCpu: set<nat>
    ghost var why: map<nat, Request>

    /** The process table. */
    ghost function Table(): Procs
      reads asl, asl.slink, asl.table
    {
      asl.View()
    }

    ghost function View(): KState
      reads this, asl, asl.slink, asl.table
    {
      KState(Table(), sem, current, onCpu, processCount, softBlockCount, sliceStart, why)
    }

    /** The structures of phase 1 are in order. */
    ghost predicate Ok()
      reads asl, asl.slink, table, table.plist, table.psib, asl.table, asl.table.plist, asl.table.psib
    {
      && asl.table == table && asl.Valid() && ReadyQ in table.queues && FreeQ in table.queues
      && |asl.skey| == |table.pcb|
    }

    ghost predicate Valid()
      reads this, asl, asl.slink, table, table.plist, table.psib, asl.table, asl.table.plist, asl.table.psib
    {
      Ok() && Inv(View())
    }

    /**
      main: the structures of phase 1, the global variables, the first process and, for every
      CPU, a placeholder in currentProcess. first is the state that test starts in, junk that of
      the placeholders, memory the words of the processes' own semaphores.
    */
    constructor (maxproc: nat, ncpu: nat, memory: map<Key, int>, first: Context, junk: Context)
      requires ncpu < maxproc
      ensures Valid() && View() == Boot(Machine(maxproc, ncpu, memory, first, junk))
    {
      hide Inv, Asl.SemaphoreList.Valid, Asl.SemaphoreList.View, Pcbs.PcbTable.Valid, BootTable, Zeroed, Range;
      BootInv(Machine(maxproc, ncpu, memory, first, junk));
      var pcbs := new Pcbs.PcbTable(maxproc);
      var semaphores := new Asl.SemaphoreList(pcbs, maxproc);
      table, asl := pcbs, semaphores;
      sem, current := memory, [];
      processCount, softBlockCount, sliceStart := 0, 0, 0;
      onCpu, why := {}, map[];
      new;
      Initialize(maxproc, ncpu, first, junk);
    }

    method Initialize(maxproc: nat, ncpu: nat, first: Context, junk: Context)
      requires ncpu < maxproc && current == []
      requires asl.table == table && asl.Valid() && asl.desc == map[] && |asl.skey| == maxproc
      requires table.View() == Pcbs.PcbView(map[FreeQ := Range(0, maxproc)], map[], seq(maxproc, _ => BLANK), 1)
      modifies this`sem, this`current, this`processCount, table, table.plist, table.psib
      ensures Ok() && Table() == BootTable(maxproc, ncpu, first, junk)
      ensures sem == Zeroed(old(sem), PSEUDO_CLOCK_SEM + 1) && current == Range(1, ncpu + 1)
      ensures processCount == old(processCount) + 1
    {
      hide Asl.SemaphoreList.Valid;
      InitReady();
      hide BootTable;
      InitSemaphores(sem);
      InstantiateProcess(maxproc, first, junk);
      Placeholders(maxproc, ncpu, first, junk);
    }

    /** insertProcQ(&readyQueue, x) */
    method ReadyInsert(x: nat)
      requires Ok() && x < |Table().pcb|
      requires x !in Table().free && x !in Table().ready && !Queued(Table().blocked, x)
      modifies table`queues, table.plist
      ensures Ok() && Table() == old(Table()).(ready := old(Table()).ready + [x])
    {
      hide Asl.Sound, Pcbs.PcbTable.Valid, Rings.Valid, Asl.Blocked;
      Asl.NowhereLoose(asl.Sems(), x);
      Asl.SoundOther(asl.Sems(), ReadyQ, table.queues[ReadyQ] + [x]);
      table.InsertProcQ(ReadyQ, x);
    }

    /** outProcQ(&readyQueue, x) */
    method ReadyOut(x: nat)
      requires Ok()
      modifies table`queues, table.plist
      ensures Ok() && Table() == old(Table()).(ready := Minus(old(Table()).ready, {x}))
    {
      hide Asl.Sound, Pcbs.PcbTable.Valid, Rings.Valid, Asl.Blocked;
      Asl.SoundOther(asl.Sems(), ReadyQ, Minus(table.queues[ReadyQ], {x}));
      var out := table.OutProcQ(ReadyQ, x);
    }

    /** removeProcQ(&readyQueue) */
    method ReadyRemove() returns (r: Option<nat>)
      requires Ok()
      modifies table`queues, table.plist
      ensures Ok()
      ensures r == if old(Table()).ready == [] then None else Some(old(Table()).ready[0])
      ensures Table() == if r == None then old(Table()) else old(Table()).(ready := old(Table()).ready[1..])
    {
      hide Asl.Sound, Pcbs.PcbTable.Valid, Rings.Valid, Asl.Blocked;
      ghost var q := table.queues[ReadyQ];
      Asl.SoundOther(asl.Sems(), ReadyQ, if q == [] then q else q[1..]);
      r := table.RemoveProcQ(ReadyQ);
    }

    /** Fields of x other than p_parent. */
    method Store(x: nat, b: Pcb)
      requires Ok() && x < |Table().pcb| && b.parent == Table().pcb[x].parent
      modifies table`pcb
      ensures Ok() && Table() == old(Table()).(pcb := old(Table()).pcb[x := b])
    {
      hide Asl.Sound, Pcbs.PcbTable.Valid, Rings.Valid, Asl.Blocked;
      table.Store(x, b);
    }

    /** allocPcb */
    method Alloc(junk: Context) returns (r: Option<nat>)
      requires Ok()
      modifies table, table.plist, table.psib
      ensures Ok()
      ensures r == if old(Table()).free == [] then None else Some(old(Table()).free[0])
      ensures r == None ==> Table() == old(Table())
      ensures r.Some? ==> r.value < |old(table.pcb)|
      ensures r.Some? ==>
        Table() == old(Table()).(free := old(Table()).free[1..], kids := old(Table()).kids[r.value := []],
                                 pcb := old(Table()).pcb[r.value := Pcb(None, junk, 0, None, 0, old(Table()).nextPid)],
                                 nextPid := old(Table()).nextPid + 1)
    {
      hide Asl.Sound, Pcbs.PcbTable.Valid, Rings.Valid, Asl.Blocked;
      ghost var q := table.queues[FreeQ];
      Asl.SoundOther(asl.Sems(), FreeQ, if q == [] then q else q[1..]);
      r := table.AllocPcb(junk);
    }

    /** INIT_LIST_HEAD(&readyQueue) */
    method InitReady()
      requires asl.table == table && asl.Valid() && FreeQ in table.queues && ReadyQ !in table.queues
      requires |asl.skey| == |table.pcb|
      modifies table`queues, table.plist
      ensures Ok() && Table() == old(Table()).(ready := [])
    {
      hide Asl.Sound, Pcbs.PcbTable.Valid, Rings.Valid, Asl.Blocked;
      Asl.SoundOther(asl.Sems(), ReadyQ, []);
      table.MkEmptyProcQ(ReadyQ);
    }

    method InitSemaphores(memory: map<Key, int>)
      requires sem == memory
      modifies this`sem
      ensures sem == Zeroed(memory, PSEUDO_CLOCK_SEM + 1)
    {
      var i := 0;
      while i < PSEUDO_CLOCK_SEM + 1
        invariant 0 <= i <= PSEUDO_CLOCK_SEM + 1
        invariant sem == Zeroed(memory, i)
      {
        sem := sem[Device(i) := 0];
        i := i + 1;
      }
    }

    /** instantiateProcess */
    method InstantiateProcess(maxproc: nat, first: Context, ghost junk: Context)
      requires Ok() && 0 < maxproc
      requires Table() == Procs(Range(0, maxproc), [], map[], map[], seq(maxproc, _ => BLANK), 1)
      modifies table, table.plist, table.psib, this`processCount
      ensures Ok() && Table() == BootTable(maxproc, 0, first, junk)
      ensures processCount == old(processCount) + 1
    {
      hide Asl.SemaphoreList.Valid, Asl.Blocked;
      var p := Alloc(first);
      ReadyInsert(p.value);
      BootFirst(maxproc, first, junk);
      processCount := processCount + 1;
    }

    /** The loop of main that gives every CPU a placeholder. */
    method Placeholders(maxproc: nat, ncpu: nat, ghost first: Context, junk: Context)
      requires Ok() && ncpu < maxproc && current == []
      requires Table() == BootTable(maxproc, 0, first, junk)
      modifies table, table.plist, table.psib, this`current
      ensures Ok() && Table() == BootTable(maxproc, ncpu, first, junk)
      ensures current == Range(1, ncpu + 1)
    {
      hide Asl.SemaphoreList.Valid, Asl.SemaphoreList.View, BootTable;
      var i := 0;
      while i < ncpu
        invariant 0 <= i <= ncpu && Ok()
        invariant Table() == BootTable(maxproc, i, first, junk)
        invariant current == Range(1, i + 1)
      {
        BootNext(maxproc, i, first, junk);
        var p := Alloc(junk);
        RangeNext(1, i + 1);
        current := current + [p.value];
        i := i + 1;
      }
    }

    /** How many semaphore descriptors are in the pool. */
    ghost function FreeDescriptors(): int
      reads asl.slink
    {
      if Asl.FreeSems in asl.slink.rings then |asl.slink.rings[Asl.FreeSems]| else 0
    }

    /** A descriptor for every semaphore with waiters; the others are in the pool. */
    lemma Descriptors()
      requires Ok()
      ensures FreeDescriptors() + |Table().blocked| == |Table().pcb|
    {
      hide Asl.Sound, Asl.Blocked;
      Asl.SoundLists(asl.Sems(), -1);
      Asl.PoolSize(asl.Sems());
    }

    /** freePcb */
    method Free(p: nat)
      requires Ok() && p < |Table().pcb| && Table().pcb[p].parent == None
      requires p in Table().kids && Table().kids[p] == []
      requires p !in Table().free && p !in Table().ready && !Queued(Table().blocked, p)
      modifies table`queues, table.plist
      ensures Ok() && Table() == old(Table()).(free := old(Table()).free + [p])
    {
      hide Asl.Sound, Pcbs.PcbTable.Valid, Rings.Valid, Asl.Blocked;
      Asl.NowhereLoose(asl.Sems(), p);
      Asl.SoundOther(asl.Sems(), FreeQ, table.queues[FreeQ] + [p]);
      table.FreePcb(p);
    }

    /** The start of removePcb: p leaves its parent, its semaphore and the ready queue. */
    method DetachPcb(p: nat)
      requires Ok() && Wf(Table()) && InUse(Table(), p)
      modifies this`processCount, this`softBlockCount, asl`desc, asl.slink
      modifies table`queues, table`kids, table`pcb, table.plist, table.psib
      ensures Ok() && Table() == Partial(old(Table()), p, 0)
      ensures processCount == old(processCount) - 1
      ensures softBlockCount == old(softBlockCount) - (if Queued(old(Table()).blocked, p) then 1 else 0)
    {
      hide Ok, Wf, Partial, Asl.Blocked, Purge, Leave;
      DetachIs(Table(), p);
      UnsetUnqueued(Table(), p);
      var orphan := OutChild(p);
      processCount := processCount - 1;
      var a := SemAdd(p);
      if a != None {
        var out := OutBlocked(p);
        if out != None {
          softBlockCount := softBlockCount - 1;
        }
      }
      ReadyOut(p);
    }

    /** p->p_semAdd */
    method SemAdd(p: nat) returns (a: Option<Key>)
      requires Ok() && p < |Table().pcb|
      ensures a == Table().pcb[p].semAdd
    {
      a := table.pcb[p].semAdd;
    }

    method OutChild(p: nat) returns (r: Option<nat>)
      requires Ok() && p < |Table().pcb|
      modifies table`kids, table`pcb, table.psib
      ensures Ok()
      ensures old(Table()).pcb[p].parent.Some? ==> old(Table()).pcb[p].parent.value in old(Table()).kids
      ensures Table() == Leave(old(Table()), p)
    {
      hide Asl.Sound, Pcbs.PcbTable.Valid, Rings.Valid, Asl.Blocked;
      r := table.OutChild(p);
    }

    method OutBlocked(p: nat) returns (r: Option<nat>)
      requires Ok()
      modifies asl`desc, asl.slink, table`queues, table.plist
      ensures Ok() && r == if Queued(old(Table()).blocked, p) then Some(p) else None
      ensures Table() == old(Table()).(blocked := Purge(old(Table()).blocked, {p}))
    {
      hide Asl.SemaphoreList.Valid, Asl.Blocked;
      r := asl.OutBlocked(p);
    }

    method RemoveChild(p: nat) returns (r: Option<nat>)
      requires Ok() && p in Table().kids
      modifies table`kids, table`pcb, table.psib
      ensures Ok() && r == if old(Table()).kids[p] == [] then None else Some(old(Table()).kids[p][0])
      ensures r == None ==> Table() == old(Table())
      ensures r.Some? ==> r.value < |old(Table()).pcb| && Table() == Cut(old(Table()), p)
    {
      hide Asl.Sound, Pcbs.PcbTable.Valid, Rings.Valid, Asl.Blocked;
      r := table.RemoveChild(p);
    }

    /** removePcb: p and all its descendants are freed, children before parents. */
    method RemovePcb(p: nat)
      requires Ok() && Wf(Table()) && InUse(Table(), p)
      modifies this`processCount, this`softBlockCount, asl`desc, asl.slink
      modifies table`queues, table`kids, table`pcb, table.plist, table.psib
      ensures Ok() && Table() == Kill(old(Table()), p)
      ensures processCount == old(processCount) - old(Victims(Table(), p))
      ensures softBlockCount == old(softBlockCount) - old(WaitingVictims(Table(), p))
      decreases Table().nextPid - Pid(Table(), p)
    {
      hide Ok, Wf, Tree, Partial, Kill, Cut, PostOrder, Waiters, Victims, WaitingVictims, InUse;
      ghost var t := Table();
      DetachBlocked(t, p);
      KillBlocked(t, p);
      DetachPcb(p);
      ghost var i := 0;
      while true
        invariant Ok() && 0 <= i <= |t.kids[p]| && Table() == Partial(t, p, i)
        invariant processCount + |Table().free| == old(processCount) + |t.free| - 1
        invariant softBlockCount - Waiters(Table()) == old(softBlockCount) - Waiters(t)
        decreases |t.kids[p]| - i
      {
        PartialKids(t, p, i);
        ghost var w := Table();
        var child := RemoveChild(p);
        if child == None {
          break;
        }
        PartialNext(t, p, i);
        CutBlocked(w, p);
        KillBlocked(Table(), child.value);
        RemovePcb(child.value);
        i := i + 1;
      }
      PartialEnd(t, p);
      EndBlocked(Table(), p);
      Free(p);
    }

    method InsertBlocked(k: Key, x: nat) returns (full: bool)
      requires Ok() && x < |Table().pcb|
      requires x !in Table().free && x !in Table().ready && !Queued(Table().blocked, x)
      modifies asl, asl.slink, table`pcb, table`queues, table.plist
      ensures Ok()
      ensures full <==> k !in old(Table()).blocked && |old(Table()).blocked| == |old(Table()).pcb|
      ensures Table() == if full then old(Table()) else Park(old(Table()), k, x)
    {
      hide Asl.Sound, Pcbs.PcbTable.Valid, Rings.Valid, Asl.Blocked;
      Asl.NowhereLoose(asl.Sems(), x);
      hide Asl.SemaphoreList.Valid;
      full := asl.InsertBlocked(k, x);
    }

    /** updateProcessCPUTime, then the assignment of a saved state to p_s. */
    method Save(c: nat, ctx: Context, now: int)
      requires Ok() && c < |current| && current[c] < |Table().pcb|
      modifies table`pcb
      ensures Ok()
      ensures
        var t := old(Table());
        Table() == t.(pcb := t.pcb[current[c] := Saved(t.pcb[current[c]], ctx, now - sliceStart)])
    {
      hide Ok, Asl.Blocked;
      var x := current[c];
      var b := PcbAt(x);
      Store(x, b.(time := b.time + (now - sliceStart)));
      b := PcbAt(x);
      Store(x, b.(ctx := ctx));
    }

    method PcbAt(x: nat) returns (b: Pcb)
      requires Ok() && x < |Table().pcb|
      ensures b == Table().pcb[x]
    {
      b := table.pcb[x];
    }

    /** blockPcb: the current process of CPU c waits on k. */
    method BlockPcb(c: nat, k: Key, ghost r: Request, exc: Context, now: int)
      requires Ok() && Inv(View()) && c in onCpu
      modifies this`softBlockCount, this`onCpu, this`why
      modifies asl, asl.slink, table`pcb, table`queues, table.plist
      ensures c < |current| && old(current[c] < |Table().pcb|)
      ensures Ok() && View() == old(Block(View(), c, k, r, exc, now))
      ensures
        var x := current[c];
        && x < |Table().pcb|
        && var b, ctx := old(Table().pcb[current[c]]), Table().pcb[x].ctx;
        && 0 <= ctx.pc < 0x1_0000_0000 && (ctx.pc - exc.pc) % 0x1_0000_0000 == 4
        && ctx.a0 == exc.a0 && ctx.rest == exc.rest
        && Table().pcb[x] == b.(ctx := ctx, time := b.time + (now - sliceStart), semAdd := Some(k))
    {
      hide Ok, Inv, Queued, Table, Park, Block, Saved, Past, Minus;
      BlockParts(View(), c, k, r, exc, now);
      BlockSaves(View(), c, k, r, exc, now);
      var x := current[c];
      var full := InsertBlocked(k, x);
      assert !full;
      if !full {
        ReadyOut(x);
        Save(c, Past(exc), now);
        softBlockCount := softBlockCount + 1;
        onCpu := onCpu - {c};
        why := why[x := r];
        assert Table() == old(Block(View(), c, k, r, exc, now)).t;
      }
    }

    /** removeBlocked */
    method RemoveBlocked(k: Key) returns (r: Option<nat>)
      requires Ok()
      modifies asl`desc, asl.slink, table`queues, table.plist
      ensures Ok() && (r == None <==> k !in old(Table()).blocked)
      ensures r == None ==> Table() == old(Table())
      ensures r.Some? ==>
        var b := old(Table()).blocked;
        && b[k] != [] && r == Some(b[k][0])
        && Table() == old(Table()).(blocked := SetQueue(b, k, b[k][1..]))
    {
      hide Asl.SemaphoreList.Valid, Asl.Blocked;
      r := asl.RemoveBlocked(k);
    }

    /** headBlocked(k) != NULL */
    method AnyBlocked(k: Key) returns (b: bool)
      requires Ok()
      ensures b <==> k in Table().blocked
    {
      hide Asl.SemaphoreList.Valid, Asl.Blocked;
      var head := asl.HeadBlocked(k);
      b := head != None;
    }

    /** removeBlocked(k) and, unless it gives NULL, insertProcQ on the ready queue and softBlockCount--. */
    method Unblock(k: Key) returns (r: Option<nat>)
      requires Ok() && Wf(Table())
      modifies this`softBlockCount, asl`desc, asl.slink, table`queues, table.plist
      ensures Ok() && (r == None <==> k !in old(Table()).blocked)
      ensures r == None ==> View() == old(View())
      ensures r.Some? ==>
        && old(Table()).blocked[k] != [] && r.value == old(Table()).blocked[k][0]
        && View() == old(Wake(View(), k))
    {
      hide Ok, Wf, Queued, SetQueue, Table;
      if k in Table().blocked {
        WakeParts(Table(), k);
      }
      r := RemoveBlocked(k);
      if r != None {
        ReadyInsert(r.value);
        softBlockCount := softBlockCount - 1;
      }
    }

    /** passeren: true when the caller is blocked. */
    method PasserenOn(c: nat, k: Key, ghost r: Request, exc: Context, now: int) returns (blocked: bool)
      requires Ok() && Inv(View()) && c in onCpu
      modifies this`sem, this`softBlockCount, this`onCpu, this`why
      modifies asl, asl.slink, table`pcb, table`queues, table.plist
      ensures c < |current| && old(current[c] < |Table().pcb|)
      ensures old(k in Table().blocked ==> Table().blocked[k] != [])
      ensures Ok() && View() == old(P(View(), c, k, r, exc, now))
      ensures blocked <==> old(Val(View(), k)) <= 0
    {
      hide Ok, Inv, Wf, Block, Wake, Table;
      ParametersP(View(), c, k);
      var value := if k in sem then sem[k] else 0;
      blocked := false;
      if value <= 0 {
        BlockPcb(c, k, r, exc, now);
        blocked := true;
      } else {
        var waiter := AnyBlocked(k);
        if waiter {
          var woken := Unblock(k);
        } else {
          sem := sem[k := 0];
        }
      }
    }

    /** verhogen: true when the caller is blocked. */
    method VerhogenOn(c: nat, k: Key, ghost r: Request, exc: Context, now: int) returns (blocked: bool)
      requires Ok() && Inv(View()) && c in onCpu
      modifies this`sem, this`softBlockCount, this`onCpu, this`why
      modifies asl, asl.slink, table`pcb, table`queues, table.plist
      ensures c < |current| && old(current[c] < |Table().pcb|)
      ensures old(k in Table().blocked ==> Table().blocked[k] != [])
      ensures Ok() && View() == old(V(View(), c, k, r, exc, now))
      ensures blocked <==> old(Val(View(), k)) >= 1
    {
      hide Ok, Inv, Wf, Block, Wake, Table;
      ParametersP(View(), c, k);
      var value := if k in sem then sem[k] else 0;
      blocked := false;
      if value >= 1 {
        BlockPcb(c, k, r, exc, now);
        blocked := true;
      } else {
        var waiter := AnyBlocked(k);
        if waiter {
          var woken := Unblock(k);
        } else {
          sem := sem[k := 1];
        }
      }
    }

    /** PASSEREN */
    method Passeren(c: nat, k: Key, exc: Context, now: int) returns (blocked: bool)
      requires Valid() && Enabled(View(), Event.Passeren(c, k, exc, now))
      modifies this`sem, this`softBlockCount, this`onCpu, this`why
      modifies asl, asl.slink, table`pcb, table`queues, table.plist
      ensures Valid() && View() == old(Step(View(), Event.Passeren(c, k, exc, now)))
      ensures blocked <==> c !in onCpu
    {
      hide Ok, Inv, P, Table;
      ghost var s := View();
      InvP(s, c, k, ByP, exc, now);
      OnCpuP(s, c, k, ByP, exc, now);
      blocked := PasserenOn(c, k, ByP, exc, now);
    }

    /** VERHOGEN */
    method Verhogen(c: nat, k: Key, exc: Context, now: int) returns (blocked: bool)
      requires Valid() && Enabled(View(), Event.Verhogen(c, k, exc, now))
      modifies this`sem, this`softBlockCount, this`onCpu, this`why
      modifies asl, asl.slink, table`pcb, table`queues, table.plist
      ensures Valid() && View() == old(Step(View(), Event.Verhogen(c, k, exc, now)))
      ensures blocked <==> c !in onCpu
    {
      hide Ok, Inv, V, Table;
      ghost var s := View();
      InvP(s, c, k, ByV, exc, now);
      OnCpuP(s, c, k, ByV, exc, now);
      blocked := VerhogenOn(c, k, ByV, exc, now);
    }

    /** DOIO, up to the write of the device's command register. */
    method DoIo(c: nat, address: int, exc: Context, now: int) returns (blocked: bool)
      requires Valid() && Enabled(View(), Event.DoIo(c, address, exc, now))
      modifies this`sem, this`softBlockCount, this`onCpu, this`why
      modifies asl, asl.slink, table`pcb, table`queues, table.plist
      ensures Valid() && View() == old(Step(View(), Event.DoIo(c, address, exc, now)))
      ensures blocked <==> c !in onCpu
    {
      hide Ok, Inv, P, Table;
      ghost var s := View();
      var k := Device(CommandIndex(address));
      InvP(s, c, k, ByIo(address), exc, now);
      OnCpuP(s, c, k, ByIo(address), exc, now);
      blocked := PasserenOn(c, k, ByIo(address), exc, now);
    }

    /** CLOCKWAIT */
    method ClockWait(c: nat, exc: Context, now: int) returns (blocked: bool)
      requires Valid() && Enabled(View(), Event.ClockWait(c, exc, now))
      modifies this`sem, this`softBlockCount, this`onCpu, this`why
      modifies asl, asl.slink, table`pcb, table`queues, table.plist
      ensures Valid() && View() == old(Step(View(), Event.ClockWait(c, exc, now)))
      ensures blocked <==> c !in onCpu
    {
      hide Ok, Inv, P, Table;
      ghost var s := View();
      InvP(s, c, CLOCK, ByClock, exc, now);
      OnCpuP(s, c, CLOCK, ByClock, exc, now);
      blocked := PasserenOn(c, CLOCK, ByClock, exc, now);
    }

    /**
      TERMPROCESS: None stands for the null argument, which means the caller itself. The invariant
      survives exactly when no other CPU runs a victim, which the code does not check.
    */
    method TermProcess(c: nat, a1: Option<nat>)
      requires Valid() && c in onCpu && c < |current|
      requires a1 != None ==> Live(View(), a1.value)
      modifies this`processCount, this`softBlockCount, this`onCpu, asl`desc, asl.slink
      modifies table`queues, table`kids, table`pcb, table.plist, table.psib
      ensures
        var victim := if a1 == None then old(current[c]) else a1.value;
        && old(Live(View(), victim)) && old(Tree(Table()) && victim in Table().kids)
        && Ok() && View() == old(Remove(View(), victim).(onCpu := onCpu - {c}))
        && (Valid() <==> old(HeldByNoOther(View(), c, victim)))
        && (old(HeldByNoOther(View(), c, victim)) ==>
              old(Enabled(View(), Event.Terminate(c, victim)))
              && View() == old(Step(View(), Event.Terminate(c, victim))))
    {
      hide Ok, Inv, Wf, Tree, InUse, Enabled, Step, Kill, Victims, WaitingVictims, Table, Live, HeldByNoOther;
      CallerLives(View(), c);
      var victim := if a1 == None then current[c] else a1.value;
      TerminateParts(View(), c, victim);
      RemovePcb(victim);
      onCpu := onCpu - {c};
    }

    /** handlePLTInterrupt: the time slice of CPU c is over. */
    method HandlePlt(c: nat, exc: Context, now: int)
      requires Valid() && Enabled(View(), EndSlice(c, exc, now))
      modifies this`onCpu, table`pcb, table`queues, table.plist
      ensures Valid() && View() == old(Step(View(), EndSlice(c, exc, now)))
      ensures c < |current| && old(current[c] < |Table().pcb|)
      ensures
        var x, t := current[c], old(Table());
        Table().pcb == t.pcb[x := t.pcb[x].(ctx := exc, time := t.pcb[x].time + (now - sliceStart))]
    {
      hide Ok, Inv, Table, Queued;
      CurrentParts(View(), c);
      InvPreempt(View(), c, exc, now);
      Save(c, exc, now);
      ReadyInsert(current[c]);
      onCpu := onCpu - {c};
    }

    /** handlePseudoClockInterrupt: everybody who waits for the clock becomes ready. */
    method HandlePseudoClock()
      requires Valid() && Enabled(View(), ClockTick)
      modifies this`softBlockCount, asl`desc, asl.slink, table`queues, table.plist
      ensures Valid() && View() == old(Step(View(), ClockTick))
    {
      hide Ok, Inv, Wf, Wake, Table, Tick;
      ghost var s := View();
      while true
        invariant Ok() && Inv(View()) && Tick(View()) == Tick(s)
        decreases |Waiting(View().t.blocked, CLOCK)|
      {
        ghost var w := View();
        InvWf(w);
        var unblocked := Unblock(CLOCK);
        if unblocked == None {
          break;
        }
        TickStep(w);
        InvWake(w, CLOCK);
      }
      TickDone(View());
    }

    method InsertChild(q: nat, x: nat)
      requires Ok() && q in Table().kids && x < |Table().pcb| && Table().pcb[x].parent == None
      requires x !in Table().free && q !in Table().free
      modifies table`kids, table`pcb, table.psib
      ensures Ok() && Table() == Adopt(old(Table()), q, x)
    {
      hide Asl.Sound, Pcbs.PcbTable.Valid, Rings.Valid, Asl.Blocked;
      table.InsertChild(q, x);
    }

    /** CREATEPROCESS when there is a free PCB; the result is what the caller finds in a0. */
    method CreateProcess(c: nat, a1: Context, a3: int, junk: Context) returns (pid: int)
      requires Valid() && Enabled(View(), Event.Create(c, a1, a3))
      modifies this`processCount, table, table.plist, table.psib
      ensures Valid() && View() == old(Step(View(), Event.Create(c, a1, a3)))
      ensures pid == old(Table()).nextPid
    {
      hide Ok, Inv, Table, Spawn, Adopt, Queued;
      SpawnParts(View(), c, a1, a3, junk);
      InvSpawn(View(), c, a1, a3);
      var q := current[c];
      var new_p := Alloc(junk);
      var x := new_p.value;
      InsertChild(q, x);
      ReadyInsert(x);
      processCount := processCount + 1;
      var b := PcbAt(x);
      Store(x, b.(ctx := a1, support := a3));
      pid := b.pid;
    }

    /**
      scheduler, one round: the state to load, if there is a ready process; whether the machine
      halts, otherwise. When it halts everything has been given back.
    */
    method Schedule(c: nat, now: int) returns (loaded: Option<Context>, halted: bool)
      requires Valid() && Enabled(View(), Event.Dispatch(c, now))
      modifies this`current, this`onCpu, this`sliceStart, table`queues, table.plist
      ensures Valid() && View() == old(Step(View(), Event.Dispatch(c, now)))
      ensures loaded == None <==> old(Table()).ready == []
      ensures c < |current| && (loaded.Some? ==> current[c] < |Table().pcb|)
      ensures loaded.Some? ==> loaded.value == Table().pcb[current[c]].ctx
      ensures halted <==> loaded == None && processCount == 0
      ensures halted ==>
        && Table().blocked == map[] && |Table().free| == |Table().pcb| - |current|
        && FreeDescriptors() == |Table().pcb|
    {
      hide Ok, Inv, Table;
      HaltIsClean(View());
      Descriptors();
      ReadyHead(View(), c, now);
      InvRun(View(), c, now);
      loaded, halted := None, false;
      var next := ReadyRemove();
      if next != None {
        current := current[c := next.value];
        sliceStart := now;
        onCpu := onCpu + {c};
        var b := PcbAt(next.value);
        return Some(b.ctx), false;
      }
      halted := processCount == 0;
    }

    /**
      handleDeviceInterrupt for device dev of the given line, whose status words are tx and rx
      (tx alone for a device that is not a terminal). True when somebody was woken.
    */
    method HandleDevice(c: nat, line: int, dev: int, tx: int, rx: int) returns (woken: bool)
      requires 3 <= line <= 7 && 0 <= dev < 8
      requires Valid() && Enabled(View(), DeviceIrq(c, line, dev, tx, rx))
      modifies this`sem, this`softBlockCount, this`onCpu, asl`desc, asl.slink
      modifies table`pcb, table`queues, table.plist
      ensures Valid() && View() == old(Step(View(), DeviceIrq(c, line, dev, tx, rx)))
      ensures woken <==> old(IrqKey(View(), line, dev) in Table().blocked)
    {
      hide Ok, Inv, Wf, Wake, Table;
      ghost var s := View();
      InvIrq(s, c, line, dev, tx, rx);
      InvWf(s);
      WakeSize(s);
      var index := DeviceIndex(line, dev);
      var status := tx;
      if line == TERMINAL_LINE {
        var transmBlocked := AnyBlocked(Device(index));
        if !transmBlocked {
          index, status := index + 1, rx;
        }
      }
      var unblocked := Unblock(Device(index));
      woken := unblocked != None;
      if woken {
        sem := sem[Device(index) := 0];
        Reply(unblocked.value, status);
      } else {
        onCpu := onCpu - {c};
      }
    }

    /**
      handleDeviceInterrupt: the lowest pending device of the line is served; nothing happens when
      none is pending. tx and rx are the status words of the line's devices.
    */
    method HandleDeviceInterrupt(c: nat, line: int, bitmap: bv32, tx: seq<int>, rx: seq<int>) returns (dev: int)
      requires Valid() && c < |current| && 3 <= line <= 7 && |tx| == |rx| == 8
      modifies this`sem, this`softBlockCount, this`onCpu, asl`desc, asl.slink
      modifies table`pcb, table`queues, table.plist
      ensures -1 <= dev < 8
      ensures dev == 0 <==> bitmap % 2 == 1
      ensures dev == 1 <==> bitmap % 4 == 2
      ensures dev == 2 <==> bitmap % 8 == 4
      ensures dev == 3 <==> bitmap % 16 == 8
      ensures dev == 4 <==> bitmap % 32 == 16
      ensures dev == 5 <==> bitmap % 64 == 32
      ensures dev == 6 <==> bitmap % 128 == 64
      ensures dev == 7 <==> bitmap % 256 == 128
      ensures dev == -1 <==> bitmap % 256 == 0
      ensures Valid() && (dev < 0 ==> View() == old(View()))
      ensures dev >= 0 ==>
        var e := DeviceIrq(c, line, dev, tx[dev], rx[dev]);
        old(Enabled(View(), e)) && View() == old(Step(View(), e))
    {
      hide Inv, Ok, Step, Table;
      dev := FirstPending(bitmap);
      if dev >= 0 {
        var woken := HandleDevice(c, line, dev, tx[dev], rx[dev]);
      }
    }

    /** unblocked->p_s.reg_a0 = status */
    method Reply(x: nat, status: int)
      requires Ok() && x < |Table().pcb|
      modifies table`pcb
      ensures Ok() && Table() == old(Table()).(pcb := old(Table()).pcb[x := Answered(old(Table()).pcb[x], status)])
    {
      hide Ok, Table;
      var b := PcbAt(x);
      Store(x, b.(ctx := b.ctx.(a0 := status)));
    }

    /** GETTIME */
    method GetTime(c: nat, now: int) returns (time: int)
      requires Valid() && c in onCpu
      ensures c < |current| && time == CpuTime(View(), current[c], now)
    {
      hide Ok, Inv, Table;
      CurrentParts(View(), c);
      TimeOnCpu(View(), c, now);
      var b := PcbAt(current[c]);
      time := b.time + (now - sliceStart);
    }

    /** GETPROCESSID: the caller's pid, or its parent's, 0 when it has none. */
    method GetProcessId(c: nat, parent: bool) returns (pid: int)
      requires Valid() && c in onCpu
      ensures c < |current| && current[c] < |Table().pcb|
      ensures !parent ==> pid == Table().pcb[current[c]].pid
      ensures parent ==>
        var q := Table().pcb[current[c]].parent;
        if q == None then pid == 0 && current[c] == 0
        else q.value < |Table().pcb| && pid == Table().pcb[q.value].pid && Live(View(), q.value)
    {
      hide Ok, Inv, Table;
      CurrentParts(View(), c);
      ParentLives(View(), c);
      var b := PcbAt(current[c]);
      if !parent {
        return b.pid;
      }
      if b.parent == None {
        return 0;
      }
      var q := PcbAt(b.parent.value);
      pid := q.pid;
    }

    /** passUpOrDie: without a support structure the current process is killed. */
    method PassUpOrDie(c: nat) returns (dead: bool)
      requires Valid() && c in onCpu && c < |current|
      modifies this`processCount, this`softBlockCount, this`onCpu, asl`desc, asl.slink
      modifies table`queues, table`kids, table`pcb, table.plist, table.psib
      ensures old(Live(View(), current[c]) && current[c] < |Table().pcb| && Tree(Table()))
      ensures dead <==> old(Table().pcb[current[c]].support == 0)
      ensures !dead ==> Valid() && View() == old(View())
      ensures dead ==>
        && Ok() && View() == old(Remove(View(), current[c]).(onCpu := onCpu - {c}))
        && (Valid() <==> old(HeldByNoOther(View(), c, current[c])))
    {
      hide Ok, Inv, Table, Wf, Tree, Live, HeldByNoOther;
      CurrentParts(View(), c);
      CallerLives(View(), c);
      TerminateParts(View(), c, current[c]);
      var b := PcbAt(current[c]);
      dead := b.support == 0;
      if dead {
        TermProcess(c, None);
      }
    }
  }

  ghost function Pid(t: Procs, p: nat): int {
    if p < |t.pcb| then t.pcb[p].pid else 0
  }

  lemma UnsetUnqueued(t: Procs, p: nat)
    requires Wf(t) && p < |t.pcb|
    ensures t.pcb[p].semAdd == None ==> !Queued(t.blocked, p)
  {
    if Queued(t.blocked, p) {
      var k :| k in t.blocked && p in t.blocked[k];
      assert BlockedIn(t, k, p);
    }
  }
}
