/** Runs of the kernel: any finite sequence of steps that the callers and the hardware allow. */
module Runs {
  import opened State
  import opened Invariant

  ghost predicate Legal(s: KState, es: seq<Event>)
    requires Inv(s)
    decreases |es|
  {
    es != [] ==> Enabled(s, es[0]) && (StepKeepsInv(s, es[0]); Legal(Step(s, es[0]), es[1..]))
  }

  ghost function Exec(s: KState, es: seq<Event>): KState
    requires Inv(s) && Legal(s, es)
    decreases |es|
  {
    if es == [] then s
    else
      StepKeepsInv(s, es[0]);
      Exec(Step(s, es[0]), es[1..])
  }

  /** The invariant holds in every state that a run can reach. */
  lemma {:induction false} RunKeepsInv(s: KState, es: seq<Event>)
    requires Inv(s) && Legal(s, es)
    ensures Inv(Exec(s, es))
    decreases |es|
  {
    if es != [] {
      StepKeepsInv(s, es[0]);
      RunKeepsInv(Step(s, es[0]), es[1..]);
    }
  }

  /** The state from which every run of the machine starts. */
  ghost function Start(m: Machine): (s: KState)
    requires m.ncpu < m.maxproc
    ensures Inv(s)
  {
    BootInv(m);
    Boot(m)
  }

  /** es is a run from boot. */
  ghost predicate Reaches(m: Machine, es: seq<Event>) {
    m.ncpu < m.maxproc && Legal(Start(m), es)
  }

  /** The state that it reaches; in particular, the invariant holds in every reachable state. */
  ghost function After(m: Machine, es: seq<Event>): (s: KState)
    requires Reaches(m, es)
    ensures Inv(s)
  {
    RunKeepsInv(Start(m), es);
    Exec(Start(m), es)
  }

  lemma ExecOne(s: KState, e: Event)
    requires Inv(s) && Enabled(s, e)
    ensures Inv(Step(s, e)) && Legal(s, [e]) && Exec(s, [e]) == Step(s, e)
  {
    hide Inv, Enabled, Step;
    StepKeepsInv(s, e);
    assert Legal(Step(s, e), []);
    assert [e][1..] == [];
  }

  lemma ExecCons(s: KState, e: Event, es: seq<Event>)
    requires Inv(s) && Enabled(s, e) && Inv(Step(s, e)) && Legal(Step(s, e), es)
    ensures Legal(s, [e] + es) && Exec(s, [e] + es) == Exec(Step(s, e), es)
  {
    hide Inv, Enabled, Step;
    assert ([e] + es)[1..] == es;
  }

  /** x is not killed in the run. */
  ghost predicate Spared(s: KState, es: seq<Event>, x: nat)
    requires Inv(s) && Legal(s, es)
    decreases |es|
  {
    es != [] ==> !Kills(s, es[0], x) && (StepKeepsInv(s, es[0]); Spared(Step(s, es[0]), es[1..], x))
  }
}
