/**
  The process table as a value: what is left of phase 1 when the links and the pool of
  semaphore descriptors are forgotten. Blocked processes are a map from semaphore address
  to non-empty queue.
*/
module Procs {
  import opened Seqs
  import opened Types

  type Queues = map<Key, seq<nat>>

  datatype Procs = Procs(free: seq<nat>, ready: seq<nat>, blocked: Queues,
                         kids: map<nat, seq<nat>>, pcb: seq<Pcb>, nextPid: int)

  /** Does the p_parent field of c point to q? */
  ghost predicate IsParent(pcb: seq<Pcb>, q: nat, c: nat) {
    c < |pcb| && pcb[c].parent == Some(q)
  }

  /** The processes waiting on k, longest wait first. */
  function Waiting(b: Queues, k: Key): seq<nat> {
    if k in b then b[k] else []
  }

  /** b with queue s for k; an empty queue is no queue. */
  function SetQueue(b: Queues, k: Key, s: seq<nat>): Queues {
    if s == [] then b - {k} else b[k := s]
  }

  lemma UpdateTwice(b: Queues, k: Key, s: seq<nat>, t: seq<nat>)
    ensures b[k := s][k := t] == b[k := t]
  {
  }

  lemma SetQueueAfter(b: Queues, k: Key, s: seq<nat>)
    ensures SetQueue(b[k := s], k, s) == SetQueue(b, k, s)
  {
  }

  /** The queues without the processes of dead. */
  function Purge(b: Queues, dead: set<nat>): Queues {
    map k | k in b && Minus(b[k], dead) != [] :: Minus(b[k], dead)
  }

  /** Does p wait on some semaphore? */
  ghost predicate Queued(b: Queues, p: nat) {
    exists k :: k in b && p in b[k]
  }

  /** p waits on k: last of its queue, and its p_semAdd says so. */
  function Park(v: Procs, k: Key, p: nat): Procs
    requires p < |v.pcb|
  {
    v.(blocked := v.blocked[k := Waiting(v.blocked, k) + [p]],
       pcb := v.pcb[p := v.pcb[p].(semAdd := Some(k))])
  }

  lemma PurgeOne(b: Queues, k: Key, p: nat)
    requires k in b
    requires forall g :: g in b ==> b[g] != []
    requires forall g :: g in b && g != k ==> p !in b[g]
    ensures Purge(b, {p}) == SetQueue(b, k, Minus(b[k], {p}))
  {
    hide Minus;
    forall g | g in b && g != k
      ensures Minus(b[g], {p}) == b[g]
    {
      MinusNone(b[g], {p});
    }
  }

  lemma PurgeNone(b: Queues, dead: set<nat>)
    requires forall g :: g in b ==> b[g] != []
    requires forall g, x :: g in b && x in b[g] ==> x !in dead
    ensures Purge(b, dead) == b
  {
    forall g | g in b
      ensures Minus(b[g], dead) == b[g]
    {
      MinusNone(b[g], dead);
    }
  }
}
