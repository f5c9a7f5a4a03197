/** Why the queue drains: every step taken without a new loss uses up a finite amount of work. */
module Draining {
  import opened Common
  import opened Delivery

  function Length(s: State, m: nat): nat
    requires m < |s.events|
  {
    |Effects(s.events[m])|
  }

  /** Steps a waiting message can still cause: a delivery, its effects, its verdict, and maybe all that again. */
  function ReadyCost(length: nat, redelivered: bool): nat { if redelivered then length + 2 else 2 * (length + 2) }

  function AttemptCost(s: State, a: Attempt): nat
    requires a.m < |s.events| && a.done <= Length(s, a.m)
  {
    Length(s, a.m) - a.done + 1 + if Current(s, a) && !a.redelivered then ReadyCost(Length(s, a.m), true) else 0
  }

  function ReadyCostOf(s: State, m: nat): nat
    requires m < |s.events|
  {
    if m in s.ready then ReadyCost(Length(s, m), s.ready[m]) else 0
  }

  function RunningCostOf(s: State, t: nat): nat {
    if t in s.running && s.running[t].m < |s.events| && s.running[t].done <= Length(s, s.running[t].m)
    then AttemptCost(s, s.running[t]) else 0
  }

  function ReadyCosts(s: State): seq<nat> { seq(|s.events|, (m: nat) requires m < |s.events| => ReadyCostOf(s, m)) }

  function RunningCosts(s: State): seq<nat> { seq(s.nextTag, (t: nat) => RunningCostOf(s, t)) }

  function Work(s: State): nat { Sum(ReadyCosts(s)) + Sum(RunningCosts(s)) }

  /** The steps of handling what is already there. */
  predicate Internal(e: Step) { e.Deliver? || e.Do? || e.Return? || e.Throw? }

  lemma WorkDeliver(s: State, m: nat)
    requires Conserved(s) && Enabled(s, Deliver(m))
    ensures Work(Next(s, Deliver(m))) < Work(s)
  {
    var s' := Next(s, Deliver(m));
    var ready, running := ReadyCosts(s), RunningCosts(s);
    var cost := AttemptCost(s', s'.running[s.nextTag]);
    assert ReadyCosts(s') == ready[m := 0];
    SumUpdate(ready, m, 0);
    assert RunningCostOf(s', s.nextTag) == cost;
    assert forall u: nat :: u != s.nextTag ==> RunningCostOf(s', u) == RunningCostOf(s, u);
    assert RunningCosts(s') == running + [cost];
    SumAppend(running, cost);
  }

  lemma WorkDo(s: State, t: nat)
    requires Conserved(s) && Enabled(s, Do(t))
    ensures Work(Next(s, Do(t))) < Work(s)
  {
    var s' := Next(s, Do(t));
    var running := RunningCosts(s);
    assert ReadyCosts(s') == ReadyCosts(s);
    assert RunningCostOf(s', t) == RunningCostOf(s, t) - 1;
    assert forall u: nat :: u != t ==> RunningCostOf(s', u) == RunningCostOf(s, u);
    assert RunningCosts(s') == running[t := running[t] - 1];
    SumUpdate(running, t, running[t] - 1);
  }

  lemma RunningCostsSettle(s: State, t: nat, succeeded: bool)
    requires Conserved(s) && t in s.running
    ensures RunningCosts(Settle(s, t, succeeded)) == RunningCosts(s)[t := 0]
  {
    var s' := Settle(s, t, succeeded);
    assert forall u: nat :: u != t ==> RunningCostOf(s', u) == RunningCostOf(s, u);
  }

  lemma WorkSettle(s: State, t: nat, succeeded: bool)
    requires Conserved(s) && t in s.running
    ensures Work(Settle(s, t, succeeded)) < Work(s)
  {
    var s' := Settle(s, t, succeeded);
    var a := s.running[t];
    var ready, running := ReadyCosts(s), RunningCosts(s);
    if Current(s, a) { UnackedMember(s, t); assert Places(s, a.m) == 1; }
    RunningCostsSettle(s, t, succeeded);
    SumUpdate(running, t, 0);
    if Current(s, a) && !succeeded && !a.redelivered {
      assert ReadyCosts(s') == ready[a.m := ReadyCost(Length(s, a.m), true)];
      SumUpdate(ready, a.m, ReadyCost(Length(s, a.m), true));
    } else {
      assert ReadyCosts(s') == ready;
    }
  }

  lemma InternalStepUsesWork(s: State, e: Step)
    requires Conserved(s) && Enabled(s, e) && Internal(e)
    ensures Work(Next(s, e)) < Work(s)
  {
    match e
    case Deliver(m) => WorkDeliver(s, m);
    case Do(t) => WorkDo(s, t);
    case Return(t) => WorkSettle(s, t, true);
    case Throw(t) => WorkSettle(s, t, false);
  }

  /** A stretch of a run without publishes and losses is no longer than the work at its start. */
  lemma {:induction false} DrainsWithinWork(states: seq<State>, steps: seq<Step>, i: nat, j: nat)
    requires IsRun(states, steps) && i <= j < |states|
    requires forall k {:trigger steps[k]} :: i <= k < j ==> Internal(steps[k])
    ensures (j - i) + Work(states[j]) <= Work(states[i])
  {
    if i < j {
      DrainsWithinWork(states, steps, i, j - 1);
      RunCounted(states, steps, j - 1);
      InternalStepUsesWork(states[j - 1], steps[j - 1]);
    }
  }

  lemma RunningStep(s: State, t: nat) returns (e: Step)
    requires Conserved(s) && t in s.running
    ensures Internal(e) && Enabled(s, e)
  {
    if HasWork(s, s.running[t]) {
      e := Do(t);
    } else {
      e := if s.events[s.running[t].m].Malformed? then Throw(t) else Return(t);
    }
  }

  /** Nor can it get stuck: with the channel up, some step is possible until all is settled. */
  lemma NoStepLeftMeansSettled(s: State)
    requires Conserved(s) && s.up
    requires forall e: Step :: Internal(e) ==> !Enabled(s, e)
    ensures s.ready == map[] && s.running == map[]
    ensures forall m: nat :: m < |s.events| ==> (m in s.handled) != (m in s.dropped)
  {
    if m :| m in s.ready { assert Enabled(s, Deliver(m)) && Internal(Deliver(m)); }
    if t :| t in s.running {
      var e := RunningStep(s, t);
    }
    forall m: nat | m < |s.events|
      ensures (m in s.handled) != (m in s.dropped)
    {
      assert Places(s, m) == 1;
    }
  }
}
