/** What the e-mail handlers have done to the outside world, under any redelivery. */
module HandlerTraces {
  import opened Common
  import opened Delivery

  // ---------------------------------------------------------------------------
  // Every attempt carries out a prefix of its handler's effects
  // ---------------------------------------------------------------------------

  /** The attempts at message m that have carried out exactly p effects. */
  ghost function AtPoint(s: State, m: nat, p: nat): set<nat> {
    set t | t in s.running && s.running[t].m == m && s.running[t].done == p
  }

  /** Effect p has happened at least as often as effect p + 1, counting those about to reach p + 1. */
  ghost predicate Stair(s: State, m: nat, p: nat) {
    s.log[Did(m, p)] >= s.log[Did(m, p + 1)] + |AtPoint(s, m, p + 1)|
  }

  ghost predicate Staircase(s: State) { forall m: nat, p: nat :: Stair(s, m, p) }

  ghost predicate PrefixDone(s: State) {
    && (forall t, p: nat :: t in s.running && p < s.running[t].done ==> s.log[Did(s.running[t].m, p)] >= 1)
    && (forall m, p: nat :: m in s.handled && m < |s.events| && p < |Effects(s.events[m])| ==> s.log[Did(m, p)] >= 1)
    && (forall m :: m in s.handled && m < |s.events| ==> !s.events[m].Malformed?)
    && (forall x :: x in s.log && x.Did? ==> x.m < |s.events| && x.p < |Effects(s.events[x.m])|)
  }

  /** The attempt climbs from its step to the next. */
  lemma AtPointAfterDo(s: State, t: nat, m: nat, q: nat)
    requires Enabled(s, Do(t))
    ensures var a, before, after := s.running[t], AtPoint(s, m, q), AtPoint(Next(s, Do(t)), m, q);
            if m == a.m && q == a.done then t in before && after == before - {t}
            else if m == a.m && q == a.done + 1 then t !in before && after == before + {t}
            else after == before
  {
    var s' := Next(s, Do(t));
    assert forall u :: u in s.running && u != t ==> s'.running[u] == s.running[u];
  }

  lemma StairDo(s: State, t: nat, m: nat, p: nat)
    requires Stair(s, m, p) && Enabled(s, Do(t))
    ensures Stair(Next(s, Do(t)), m, p)
  {
    AtPointAfterDo(s, t, m, p + 1);
  }

  lemma StaircaseStep(s: State, e: Step)
    requires Conserved(s) && Staircase(s) && Enabled(s, e)
    ensures Staircase(Next(s, e))
  {
    var s' := Next(s, e);
    forall m: nat, p: nat
      ensures Stair(s', m, p)
    {
      assert Stair(s, m, p);
      if e.Do? {
        StairDo(s, e.t, m, p);
      } else {
        assert s'.log[Did(m, p)] == s.log[Did(m, p)] && s'.log[Did(m, p + 1)] == s.log[Did(m, p + 1)];
        SubsetSize(AtPoint(s', m, p + 1), AtPoint(s, m, p + 1));
      }
    }
  }

  lemma PrefixDoneDo(s: State, t: nat)
    requires Conserved(s) && PrefixDone(s) && Enabled(s, Do(t))
    ensures PrefixDone(Next(s, Do(t)))
  {
  }

  lemma PrefixDoneSettle(s: State, t: nat, succeeded: bool)
    requires Conserved(s) && PrefixDone(s) && t in s.running
    requires succeeded ==> Enabled(s, Return(t))
    ensures PrefixDone(Settle(s, t, succeeded))
  {
  }

  lemma PrefixDoneStep(s: State, e: Step)
    requires Conserved(s) && PrefixDone(s) && Enabled(s, e)
    ensures PrefixDone(Next(s, e))
  {
    match e
    case Do(t) => PrefixDoneDo(s, t);
    case Return(t) => PrefixDoneSettle(s, t, true);
    case Throw(t) => PrefixDoneSettle(s, t, false);
    case _ =>
  }

  lemma {:induction false} RunTraces(states: seq<State>, steps: seq<Step>, i: nat)
    requires IsRun(states, steps) && i < |states|
    ensures Conserved(states[i]) && Staircase(states[i]) && PrefixDone(states[i])
  {
    if i > 0 {
      RunTraces(states, steps, i - 1);
      ConservedStep(states[i - 1], steps[i - 1]);
      StaircaseStep(states[i - 1], steps[i - 1]);
      PrefixDoneStep(states[i - 1], steps[i - 1]);
    }
  }

  lemma {:induction false} Descending(s: State, m: nat, p: nat, q: nat)
    requires Staircase(s) && p <= q
    ensures s.log[Did(m, p)] >= s.log[Did(m, q)]
    decreases q
  {
    if p < q {
      assert Stair(s, m, q - 1);
      Descending(s, m, p, q - 1);
    }
  }

  /**
   * Whatever is redelivered, in every prefix of every run: counted over all attempts, no effect of a
   * message happened more often than an earlier effect of it, and a handled message had every effect.
   */
  lemma EffectsDescend(states: seq<State>, steps: seq<Step>, i: nat, m: nat, p: nat, q: nat)
    requires IsRun(states, steps) && i < |states| && m < |states[i].events|
    requires p <= q < |Effects(states[i].events[m])|
    ensures states[i].log[Did(m, p)] >= states[i].log[Did(m, q)]
    ensures m in states[i].handled ==> states[i].log[Did(m, q)] >= 1
    ensures states[i].log[Did(m, p)] <= states[i].log[Delivered(m)]
  {
    RunTraces(states, steps, i);
    Descending(states[i], m, p, q);
    RunAttemptsBounded(states, steps, i, m, p);
  }

  /** Confirmation first: a reminder is never scheduled more often than the confirmation was sent. */
  lemma RemindersFollowConfirmations(states: seq<State>, steps: seq<Step>, i: nat, m: nat)
    requires IsRun(states, steps) && i < |states| && m < |states[i].events| && states[i].events[m].ItineraryCreated?
    ensures var e := states[i].events[m];
            && Effects(e)[0].Confirmation? && MailsOwner(e.ownerEmail, Effects(e)[0].to)
            && Effects(e)[1] == Reminder(e.startDate)
    ensures states[i].log[Did(m, 1)] <= states[i].log[Did(m, 0)]
    ensures m in states[i].handled ==> states[i].log[Did(m, 1)] >= 1
  {
    OwnerResolved(states[i].events[m].ownerEmail);
    EffectsDescend(states, steps, i, m, 0, 1);
  }

  /** Share mails go out down the recipient list: nobody is mailed more often than someone before them. */
  lemma ShareMailsDescend(states: seq<State>, steps: seq<Step>, i: nat, m: nat, p: nat, q: nat)
    requires IsRun(states, steps) && i < |states| && m < |states[i].events| && states[i].events[m].ItineraryShared?
    requires p <= q < |states[i].events[m].recipients|
    ensures Effects(states[i].events[m])[q] == ShareNotice(states[i].events[m].recipients[q])
    ensures states[i].log[Did(m, p)] >= states[i].log[Did(m, q)]
    ensures m in states[i].handled ==> states[i].log[Did(m, q)] >= 1
  {
    EffectsDescend(states, steps, i, m, p, q);
  }

  /** A malformed message is never handled and has no effect; it can only end up dropped. */
  lemma MalformedHasNoEffect(states: seq<State>, steps: seq<Step>, i: nat, m: nat, p: nat)
    requires IsRun(states, steps) && i < |states| && m < |states[i].events| && states[i].events[m].Malformed?
    ensures m !in states[i].handled && states[i].log[Did(m, p)] == 0
  {
    RunTraces(states, steps, i);
    assert Did(m, p) !in states[i].log;
  }

  // ---------------------------------------------------------------------------
  // No attempt repeats an effect
  // ---------------------------------------------------------------------------

  /** The attempts at message m that have not yet carried out effect p. */
  ghost function Before(s: State, m: nat, p: nat): set<nat> {
    set t | t in s.running && s.running[t].m == m && s.running[t].done <= p
  }

  /** Each delivery contributes at most one occurrence of effect p, and those still before it none. */
  ghost predicate OncePerDelivery(s: State, m: nat, p: nat) {
    s.log[Did(m, p)] + |Before(s, m, p)| <= s.log[Delivered(m)]
  }

  lemma OncePerDeliveryDo(s: State, t: nat, m: nat, p: nat)
    requires OncePerDelivery(s, m, p) && Enabled(s, Do(t))
    ensures OncePerDelivery(Next(s, Do(t)), m, p)
  {
    var s' := Next(s, Do(t));
    if s.running[t].m == m && s.running[t].done == p {
      assert t in Before(s, m, p);
      assert Before(s', m, p) == Before(s, m, p) - {t};
    } else {
      assert Before(s', m, p) == Before(s, m, p);
    }
  }

  lemma OncePerDeliveryDeliver(s: State, n: nat, m: nat, p: nat)
    requires OncePerDelivery(s, m, p) && Enabled(s, Deliver(n)) && s.nextTag !in s.running
    ensures OncePerDelivery(Next(s, Deliver(n)), m, p)
  {
    var s' := Next(s, Deliver(n));
    if n == m {
      assert Before(s', m, p) == Before(s, m, p) + {s.nextTag};
    } else {
      assert Before(s', m, p) == Before(s, m, p);
    }
  }

  lemma OncePerDeliveryStep(s: State, e: Step, m: nat, p: nat)
    requires Conserved(s) && OncePerDelivery(s, m, p) && Enabled(s, e)
    ensures OncePerDelivery(Next(s, e), m, p)
  {
    match e
    case Do(t) => OncePerDeliveryDo(s, t, m, p);
    case Deliver(n) => OncePerDeliveryDeliver(s, n, m, p);
    case _ =>
      var s' := Next(s, e);
      assert s'.log[Did(m, p)] == s.log[Did(m, p)] && s'.log[Delivered(m)] == s.log[Delivered(m)];
      SubsetSize(Before(s', m, p), Before(s, m, p));
  }

  lemma {:induction false} RunAttemptsBounded(states: seq<State>, steps: seq<Step>, i: nat, m: nat, p: nat)
    requires IsRun(states, steps) && i < |states|
    ensures Conserved(states[i]) && OncePerDelivery(states[i], m, p)
    ensures states[i].log[Did(m, p)] <= states[i].log[Delivered(m)]
  {
    if i > 0 {
      RunAttemptsBounded(states, steps, i - 1, m, p);
      ConservedStep(states[i - 1], steps[i - 1]);
      OncePerDeliveryStep(states[i - 1], steps[i - 1], m, p);
    }
  }
}
