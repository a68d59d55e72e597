/** The values stored in kernel structures (headers/types.h). */
module Types {

  datatype Option<+T> = None | Some(value: T)

  /**
    The address of a semaphore: entry index of deviceSemaphores (48 is the pseudo-clock),
    or a word of a process's own memory.
  */
  datatype Key = Device(index: nat) | User(address: int)

  /** A processor state: program counter, return-value register, and all the rest. */
  datatype Context = Context(pc: int, a0: int, rest: seq<int>)

  /** pcb_t without its three list cells. A pointer to a pcb is its index in pcbFree_table. */
  datatype Pcb = Pcb(parent: Option<nat>, ctx: Context, time: int, semAdd: Option<Key>, support: int, pid: int)

  /** The sentinels of rings over p_list: pcbFree_h, readyQueue, and s_procq of a descriptor. */
  datatype Queue = FreeQ | ReadyQ | SemQ(descriptor: nat)

  const BLANK := Pcb(None, Context(0, 0, []), 0, None, 0, 0)
}
