/** First come, first served: nobody is overtaken without bound. */
module Fairness {
  import opened Seqs
  import opened Types
  import opened Procs
  import opened Forest
  import opened Removal
  import opened Devices
  import opened State
  import opened Invariant
  import opened Runs
  import opened Semaphores

  /** Does step e give a CPU to x? */
  ghost predicate Dispatches(s: KState, e: Event, x: nat) {
    e.Dispatch? && s.t.ready != [] && s.t.ready[0] == x
  }

  /** At some point of the run x is dispatched or killed. */
  ghost predicate Served(s: KState, es: seq<Event>, x: nat)
    requires Inv(s) && Legal(s, es)
    decreases |es|
  {
    && es != []
    && (|| Dispatches(s, es[0], x) || Kills(s, es[0], x)
        || (StepKeepsInv(s, es[0]); Served(Step(s, es[0]), es[1..], x)))
  }

  function Count(es: seq<Event>, p: Event -> bool): nat {
    if es == [] then 0 else (if p(es[0]) then 1 else 0) + Count(es[1..], p)
  }

  /** Position j of s is at most at position j of what is left after a removal. */
  lemma {:induction false} MinusIndex(s: seq<nat>, dead: set<nat>, j: nat) returns (i: nat)
    requires j < |s| && s[j] !in dead
    ensures i <= j && i < |Minus(s, dead)| && Minus(s, dead)[i] == s[j]
  {
    if j == 0 {
      i := 0;
    } else {
      i := MinusIndex(s[1..], dead, j - 1);
      if s[0] !in dead {
        i := i + 1;
      }
    }
  }

  /** What a step does to the ready queue. */
  lemma ReadyStep(s: KState, e: Event)
    requires Inv(s) && Enabled(s, e)
    ensures
      var r, r' := s.t.ready, Step(s, e).t.ready;
      if e.Dispatch? then r' == if r == [] then [] else r[1..]
      else if e.Terminate? then r' == Minus(r, Elems(PostOrder(s.t, e.victim)))
      else |r| <= |r'| && r == r'[..|r|]
  {
    match e
    case Create(c, _, _) => CurrentParts(s, c);
    case Passeren(c, k, _, _) => ParametersP(s, c, k);
    case Verhogen(c, k, _, _) => ParametersP(s, c, k);
    case DoIo(c, a, _, _) => ParametersP(s, c, Device(CommandIndex(a)));
    case ClockWait(c, _, _) => ParametersP(s, c, CLOCK);
    case EndSlice(c, _, _) => CurrentParts(s, c);
    case _ => Heads(s.t);
  }

  predicate IsDispatch(e: Event) {
    e.Dispatch?
  }

  /**
    Bounded overtaking in the ready queue: a process at position j is dispatched, or killed,
    by the (j + 1)-th dispatch, whatever is enqueued meanwhile.
  */
  lemma {:induction false} ReadyIsServed(s: KState, es: seq<Event>, j: nat)
    requires Inv(s) && Legal(s, es)
    requires j < |s.t.ready| && Count(es, IsDispatch) > j
    ensures Served(s, es, s.t.ready[j])
    decreases |es|
  {
    var x, e := s.t.ready[j], es[0];
    StepKeepsInv(s, e);
    ReadyStep(s, e);
    var w := Step(s, e);
    hide Inv, Step, Enabled, PostOrder;
    if Kills(s, e, x) || Dispatches(s, e, x) {
    } else if e.Dispatch? {
      ReadyIsServed(w, es[1..], j - 1);
    } else if e.Terminate? {
      var i := MinusIndex(s.t.ready, Elems(PostOrder(s.t, e.victim)), j);
      ReadyIsServed(w, es[1..], i);
    } else {
      assert w.t.ready[j] == w.t.ready[..|s.t.ready|][j];
      ReadyIsServed(w, es[1..], j);
    }
  }

  /** The process that blocks on k in step e, if one does. */
  ghost function Arrival(s: KState, e: Event, k: Key): seq<nat>
    requires Inv(s) && Enabled(s, e)
  {
    if (PKey(e) == Some(k) && Val(s, k) <= 0) || (e.Verhogen? && e.key == k && Val(s, k) >= 1)
    then CurrentParts(s, e.c); [s.current[e.c]]
    else []
  }

  /**
    The opposite operation: the one that wakes who waits on k. A P does when k is positive, a V when
    it is not, an interrupt when it looks at k, and a tick when k is the clock.
  */
  ghost predicate Releases(s: KState, e: Event, k: Key)
    requires Inv(s) && Enabled(s, e)
  {
    || (PKey(e) == Some(k) && Val(s, k) > 0)
    || (e.Verhogen? && e.key == k && Val(s, k) < 1)
    || (e.ClockTick? && k == CLOCK)
    || (e.DeviceIrq? && IrqKey(s, e.line, e.dev) == k)
  }

  /** The waiters on k after a step: the dead are gone, the first (at a tick, all) woken, or one has joined. */
  ghost predicate QueueMoves(s: KState, e: Event, k: Key)
    requires Inv(s) && Enabled(s, e)
  {
    var w := Step(s, e);
    var q, q' := Waiting(s.t.blocked, k), Waiting(w.t.blocked, k);
    if e.Terminate? then q' == Minus(q, Elems(PostOrder(s.t, e.victim)))
    else if !Releases(s, e, k) then q' == q + Arrival(s, e, k)
    else if e.ClockTick? then q' == [] && forall x :: x in q ==> x in w.t.ready
    else if q == [] then q' == []
    else q' == q[1..] && q[0] in w.t.ready
  }

  lemma OperationMoves(s: KState, e: Event, k: Key)
    requires Inv(s) && Enabled(s, e) && (PKey(e).Some? || e.Verhogen?)
    ensures QueueMoves(s, e, k)
  {
    hide Inv, Enabled, Step, SameUse, Waiting, Val, CommandIndex;
    OperationEffect(s, e, k);
    var w, q, j := Step(s, e), Waiting(s.t.blocked, k), if e.Verhogen? then e.key else PKey(e).value;
    assert q + [] == q;
    var blocks := if e.Verhogen? then Val(s, j) >= 1 else Val(s, j) <= 0;
    if blocks {
      var r :| Blocks(s, w, e.c, j, r, k);
    }
  }

  lemma IrqMoves(s: KState, e: Event, k: Key)
    requires Inv(s) && Enabled(s, e) && e.DeviceIrq?
    ensures QueueMoves(s, e, k)
  {
    hide Inv;
    InvWf(s);
    Heads(s.t);
    var j := IrqKey(s, e.line, e.dev);
    if j in s.t.blocked {
      WaitingWake(s, j, k);
    }
    assert Waiting(s.t.blocked, k) + [] == Waiting(s.t.blocked, k);
  }

  lemma QuietMoves(s: KState, e: Event, k: Key)
    requires Inv(s) && Enabled(s, e) && (e.Create? || e.EndSlice? || e.Dispatch? || e.ClockTick?)
    ensures QueueMoves(s, e, k)
  {
    hide Inv, Wf, Queued, PostOrder;
    InvWf(s);
    Heads(s.t);
    if e.Create? || e.EndSlice? {
      CurrentParts(s, e.c);
    }
    assert Waiting(s.t.blocked, k) + [] == Waiting(s.t.blocked, k);
  }

  lemma RemoveMoves(s: KState, e: Event, k: Key)
    requires Inv(s) && Enabled(s, e) && e.Terminate?
    ensures QueueMoves(s, e, k)
  {
    InvWf(s);
    hide Inv;
  }

  lemma StepMoves(s: KState, e: Event, k: Key)
    requires Inv(s) && Enabled(s, e)
    ensures QueueMoves(s, e, k)
  {
    hide Inv, Enabled, QueueMoves;
    if PKey(e).Some? || e.Verhogen? {
      OperationMoves(s, e, k);
    } else if e.Terminate? {
      RemoveMoves(s, e, k);
    } else if e.DeviceIrq? {
      IrqMoves(s, e, k);
    } else {
      QuietMoves(s, e, k);
    }
  }

  /** At some point of the run x stops waiting on k: it is made ready, or killed. */
  ghost predicate StopsWaiting(s: KState, es: seq<Event>, k: Key, x: nat)
    requires Inv(s) && Legal(s, es)
    decreases |es|
  {
    && es != []
    && (|| Kills(s, es[0], x) || Woken(s, es[0], k, x)
        || (StepKeepsInv(s, es[0]); StopsWaiting(Step(s, es[0]), es[1..], k, x)))
  }

  ghost predicate Woken(s: KState, e: Event, k: Key, x: nat)
    requires Inv(s) && Enabled(s, e)
  {
    x in Waiting(s.t.blocked, k) && x in Step(s, e).t.ready
  }

  /** A waiter that a step leaves waiting does not fall back, and an opposite operation brings it forward. */
  lemma WaiterStep(s: KState, e: Event, k: Key, j: nat) returns (i: nat)
    requires Inv(s) && Enabled(s, e) && j < |Waiting(s.t.blocked, k)|
    requires !Kills(s, e, Waiting(s.t.blocked, k)[j]) && !Woken(s, e, k, Waiting(s.t.blocked, k)[j])
    ensures i <= j && (Releases(s, e, k) ==> i < j)
    ensures
      var q, q' := Waiting(s.t.blocked, k), Waiting(Step(s, e).t.blocked, k);
      i < |q'| && q'[i] == q[j]
  {
    StepMoves(s, e, k);
    TerminateReleasesNone(s, e, k);
    hide Inv, Step, Enabled, PostOrder, Waiting, Releases, Arrival;
    var q := Waiting(s.t.blocked, k);
    i := j;
    if e.Terminate? {
      i := MinusIndex(q, Elems(PostOrder(s.t, e.victim)), j);
    } else if Releases(s, e, k) {
      assert q[j] in q;
      i := j - 1;
    }
  }

  lemma TerminateReleasesNone(s: KState, e: Event, k: Key)
    requires Inv(s) && Enabled(s, e)
    ensures e.Terminate? ==> !Releases(s, e, k)
  {
  }

  /** How many steps of the run are opposite operations on k when they happen. */
  ghost function Releasing(s: KState, es: seq<Event>, k: Key): nat
    requires Inv(s) && Legal(s, es)
    decreases |es|
  {
    if es == [] then 0
    else
      StepKeepsInv(s, es[0]);
      (if Releases(s, es[0], k) then 1 else 0) + Releasing(Step(s, es[0]), es[1..], k)
  }

  /**
    Bounded overtaking in a semaphore's queue, whatever the semaphore's value and whoever uses it:
    a waiter at position j is woken, or killed, by the (j + 1)-th opposite operation, whoever joins
    the queue meanwhile.
  */
  lemma {:induction false} WaiterIsWoken(s: KState, es: seq<Event>, k: Key, j: nat)
    requires Inv(s) && Legal(s, es) && j < |Waiting(s.t.blocked, k)| && Releasing(s, es, k) > j
    ensures StopsWaiting(s, es, k, Waiting(s.t.blocked, k)[j])
    decreases |es|
  {
    hide Inv, Enabled, Step, Releases, Waiting, Kills, Woken;
    var e, x := es[0], Waiting(s.t.blocked, k)[j];
    StepKeepsInv(s, e);
    if !Kills(s, e, x) && !Woken(s, e, k, x) {
      var i := WaiterStep(s, e, k, j);
      WaiterIsWoken(Step(s, e), es[1..], k, i);
    }
  }

  /**
    The opposite operation as the caller sees it: a P when the semaphore is positive; otherwise a V,
    an interrupt of that device, a tick of the clock.
  */
  predicate Opposite(e: Event, k: Key, positive: bool) {
    if positive then PKey(e) == Some(k)
    else
      || (e.Verhogen? && e.key == k)
      || (e.ClockTick? && k == CLOCK)
      || (e.DeviceIrq? && 3 <= e.line && 0 <= e.dev && Device(DeviceIndex(e.line, e.dev)) == k)
  }

  /** While anybody waits the value stays, so the opposite operation is always the same one. */
  lemma OppositeStep(s: KState, e: Event, k: Key)
    requires Inv(s) && Enabled(s, e) && Waiting(s.t.blocked, k) != [] && (k.Device? ==> Val(s, k) == 0)
    ensures Opposite(e, k, Val(s, k) >= 1) ==> Releases(s, e, k)
    ensures Val(Step(s, e), k) == Val(s, k)
  {
    hide Inv, Kill, PostOrder, CommandIndex;
    if PKey(e).Some? || e.Verhogen? {
      hide Step, Enabled, SameUse;
      OperationEffect(s, e, k);
    } else if e.DeviceIrq? {
      hide Step;
      IrqEffect(s, e, k);
    } else if e.Create? || e.EndSlice? {
      CurrentParts(s, e.c);
    }
  }

  /** The same, counting the operations that are opposite at the beginning of the run. */
  lemma {:induction false} WaiterIsWokenByCount(s: KState, es: seq<Event>, k: Key, j: nat)
    requires Inv(s) && Legal(s, es) && j < |Waiting(s.t.blocked, k)| && (k.Device? ==> Val(s, k) == 0)
    requires Count(es, e => Opposite(e, k, Val(s, k) >= 1)) > j
    ensures StopsWaiting(s, es, k, Waiting(s.t.blocked, k)[j])
    decreases |es|
  {
    hide Inv, Enabled, Step, Releases, Opposite, Waiting, Val, Kills, Woken;
    var e, x := es[0], Waiting(s.t.blocked, k)[j];
    StepKeepsInv(s, e);
    OppositeStep(s, e, k);
    if !Kills(s, e, x) && !Woken(s, e, k, x) {
      var i := WaiterStep(s, e, k, j);
      WaiterIsWokenByCount(Step(s, e), es[1..], k, i);
    }
  }

  /** a is what is left of b when some elements are dropped. */
  ghost predicate Subsequence(a: seq<nat>, b: seq<nat>) {
    a == [] || (b != [] && ((a[0] == b[0] && Subsequence(a[1..], b[1..])) || Subsequence(a, b[1..])))
  }

  lemma {:induction false} SubsequenceSelf(a: seq<nat>)
    ensures Subsequence(a, a)
  {
    if a != [] {
      SubsequenceSelf(a[1..]);
    }
  }

  lemma {:induction false} SubsequenceTail(a: seq<nat>, b: seq<nat>)
    requires Subsequence(a, b) && a != []
    ensures Subsequence(a[1..], b)
  {
    if a[0] == b[0] && Subsequence(a[1..], b[1..]) {
      if a[1..] != [] {
        assert Subsequence(a[1..], b[1..]);
      }
    } else {
      SubsequenceTail(a, b[1..]);
    }
  }

  lemma {:induction false} SubsequenceTrans(a: seq<nat>, b: seq<nat>, c: seq<nat>)
    requires Subsequence(a, b) && Subsequence(b, c)
    ensures Subsequence(a, c)
    decreases |b| + |c|
  {
    if a != [] {
      if b[0] == c[0] && Subsequence(b[1..], c[1..]) {
        if a[0] == b[0] && Subsequence(a[1..], b[1..]) {
          SubsequenceTrans(a[1..], b[1..], c[1..]);
        } else {
          SubsequenceTrans(a, b[1..], c[1..]);
        }
      } else {
        SubsequenceTrans(a, b, c[1..]);
      }
    }
  }

  lemma {:induction false} SubsequenceAppend(a: seq<nat>, b: seq<nat>, c: seq<nat>)
    requires Subsequence(a, b)
    ensures Subsequence(a + c, b + c)
    decreases |b|
  {
    if b == [] {
      SubsequenceSelf(c);
      assert a + c == c && b + c == c;
    } else {
      assert (b + c)[1..] == b[1..] + c;
      if a != [] && a[0] == b[0] && Subsequence(a[1..], b[1..]) {
        assert (a + c)[1..] == a[1..] + c;
        SubsequenceAppend(a[1..], b[1..], c);
      } else {
        SubsequenceAppend(a, b[1..], c);
      }
    }
  }

  lemma {:induction false} MinusSubsequence(s: seq<nat>, dead: set<nat>)
    ensures Subsequence(Minus(s, dead), s)
  {
    if s != [] {
      MinusSubsequence(s[1..], dead);
    }
  }

  lemma FifoStep(s: KState, e: Event, k: Key)
    requires Inv(s) && Enabled(s, e)
    ensures Subsequence(Waiting(Step(s, e).t.blocked, k), Waiting(s.t.blocked, k) + Arrival(s, e, k))
  {
    StepMoves(s, e, k);
    NoArrival(s, e, k);
    hide Inv, Enabled, Step, Waiting, Subsequence, Minus, PostOrder, Releases, Arrival;
    var q, n := Waiting(s.t.blocked, k), Arrival(s, e, k);
    SubsequenceSelf(q + n);
    if e.Terminate? {
      MinusSubsequence(q, Elems(PostOrder(s.t, e.victim)));
      assert q + n == q;
    } else if Releases(s, e, k) {
      assert q + n == q;
      NoneIsSubsequence(q);
      if q != [] {
        SubsequenceTail(q, q);
      }
    }
  }

  lemma NoArrival(s: KState, e: Event, k: Key)
    requires Inv(s) && Enabled(s, e)
    ensures e.Terminate? || Releases(s, e, k) ==> Arrival(s, e, k) == []
  {
    hide Inv;
  }

  lemma NoneIsSubsequence(b: seq<nat>)
    ensures Subsequence([], b)
  {
  }

  /** The processes that block on k in a run, in the order in which they do. */
  ghost function Arrivals(s: KState, es: seq<Event>, k: Key): seq<nat>
    requires Inv(s) && Legal(s, es)
    decreases |es|
  {
    if es == [] then []
    else
      StepKeepsInv(s, es[0]);
      Arrival(s, es[0], k) + Arrivals(Step(s, es[0]), es[1..], k)
  }

  /**
    A semaphore's queue is first-in, first-out over every run: who waits at the end stands in
    the order of arrival, after whoever waited before.
  */
  lemma {:induction false} QueueIsFifo(s: KState, es: seq<Event>, k: Key)
    requires Inv(s) && Legal(s, es)
    ensures Subsequence(Waiting(Exec(s, es).t.blocked, k), Waiting(s.t.blocked, k) + Arrivals(s, es, k))
    decreases |es|
  {
    hide Inv, Enabled, Step, Waiting, Subsequence, Arrival;
    var q := Waiting(s.t.blocked, k);
    if es == [] {
      assert q + [] == q;
      SubsequenceSelf(q);
    } else {
      var e := es[0];
      StepKeepsInv(s, e);
      FifoStep(s, e, k);
      QueueIsFifo(Step(s, e), es[1..], k);
      Chain(q, Arrival(s, e, k), Waiting(Step(s, e).t.blocked, k), Arrivals(Step(s, e), es[1..], k),
            Waiting(Exec(s, es).t.blocked, k));
    }
  }

  lemma Chain(q: seq<nat>, n: seq<nat>, q': seq<nat>, r: seq<nat>, last: seq<nat>)
    requires Subsequence(q', q + n) && Subsequence(last, q' + r)
    ensures Subsequence(last, q + (n + r))
  {
    hide Subsequence;
    SubsequenceAppend(q', q + n, r);
    SubsequenceTrans(last, q' + r, q + n + r);
    assert q + n + r == q + (n + r);
  }
}
