/**
 * consume() of packages/shared/src/adapters/broker.ts: what ends up in the registry, told from the calls
 * and replies of a run alone.
 */
module SupervisorRegistry {
  import opened Common
  import opened Supervisor
  import opened SupervisorProofs

  /** The registration that the call numbered i was made with, among the first n events. */
  ghost function CalledWith(states: seq<State>, events: seq<Event>, n: nat, i: nat): Option<Registration>
    requires n <= |events| <= |states|
  {
    if n == 0 then None
    else if events[n - 1].ConsumeCall? && states[n - 1].channel.Some? && states[n - 1].nextId == i
    then Some(events[n - 1].r)
    else CalledWith(states, events, n - 1, i)
  }

  /** The registrations of the calls that were answered in the first n events, in the order of the replies. */
  ghost function Answered(states: seq<State>, events: seq<Event>, n: nat): seq<Option<Registration>>
    requires n <= |events| <= |states|
  {
    if n == 0 then []
    else Answered(states, events, n - 1) +
         if events[n - 1].ConsumeReply? then [CalledWith(states, events, n - 1, events[n - 1].i)] else []
  }

  /** Every pending call is still about the registration and on the channel it was made with. */
  ghost predicate OwnRegistrations(states: seq<State>, events: seq<Event>, n: nat)
    requires n <= |events| < |states|
  {
    forall i :: i in states[n].consuming ==> CalledWith(states, events, n, i) == Some(states[n].consuming[i].1)
  }

  /** How a step changes the pending calls. */
  lemma ConsumingStep(s: State, e: Event)
    requires Enabled(s, e)
    ensures Next(s, e).consuming ==
              if e.ConsumeCall? && s.channel.Some? then s.consuming[s.nextId := (s.channel.value, e.r)]
              else if e.ConsumeReply? || e.ConsumeReject? then s.consuming - {e.i}
              else s.consuming
  {
    if e.Reply? {
      ReplyKeepsConsuming(s, e.a);
    } else if e.CloseCall? || e.ChannelClosed? {
      CloseKeepsConsuming(s, e);
    } else if e.Lost? || e.ConnectFail? || e.Released? {
      LossKeepsConsuming(s, e);
    }
  }

  lemma LossKeepsConsuming(s: State, e: Event)
    requires Enabled(s, e) && (e.Lost? || e.ConnectFail? || e.Released?)
    ensures Next(s, e).consuming == s.consuming
  {
  }

  lemma ReplayKeepsConsuming(s: State, a: nat, i: nat)
    requires a in s.attempts
    ensures ReplayFrom(s, a, i).consuming == s.consuming
  {
  }

  lemma ReplyKeepsConsuming(s: State, a: nat)
    requires Enabled(s, Reply(a))
    ensures Next(s, Reply(a)).consuming == s.consuming
  {
    var stage := s.attempts[a].stage;
    if stage.Replaying? && stage.next < |s.consumers| {
      ReplayKeepsConsuming(StartConsumer(s, a, s.consumers[stage.next]), a, stage.next + 1);
    } else {
      ReplayKeepsConsuming(s, a, 0);
    }
  }

  lemma CloseKeepsConsuming(s: State, e: Event)
    requires Enabled(s, e) && (e.CloseCall? || e.ChannelClosed?)
    ensures Next(s, e).consuming == s.consuming && s.nextId <= Next(s, e).nextId
  {
    if e.CloseCall? {
      CloseFrame(s.(shutDown := true,
                    timers := if s.reconnectTimer.Some? then s.timers - {s.reconnectTimer.value} else s.timers,
                    reconnectTimer := None), None);
    } else {
      CloseFrame(ChannelGone(s, s.closers[e.i].c), Some(e.i));
    }
  }

  lemma RunConsuming(states: seq<State>, events: seq<Event>, n: nat)
    requires IsRun(states, events) && n < |events|
    ensures var s, e := states[n], events[n];
            && Enabled(s, e) && KeysBelow(s.consuming, s.nextId)
            && states[n + 1].consuming ==
                 (if e.ConsumeCall? && s.channel.Some? then s.consuming[s.nextId := (s.channel.value, e.r)]
                  else if e.ConsumeReply? || e.ConsumeReject? then s.consuming - {e.i}
                  else s.consuming)
  {
    RunSound(states, events, n);
    assert Enabled(states[n], events[n]) && states[n + 1] == Next(states[n], events[n]);
    ConsumingStep(states[n], events[n]);
  }

  lemma CalledNext(states: seq<State>, events: seq<Event>, n: nat, i: nat)
    requires n < |events| <= |states|
    ensures CalledWith(states, events, n + 1, i) ==
              if events[n].ConsumeCall? && states[n].channel.Some? && states[n].nextId == i then Some(events[n].r)
              else CalledWith(states, events, n, i)
  {
  }

  lemma OwnStep(states: seq<State>, events: seq<Event>, n: nat)
    requires IsRun(states, events) && n < |events| && OwnRegistrations(states, events, n)
    ensures OwnRegistrations(states, events, n + 1)
  {
    RunConsuming(states, events, n);
    var after := states[n + 1];
    forall i | i in after.consuming
      ensures CalledWith(states, events, n + 1, i) == Some(after.consuming[i].1)
    {
      CalledNext(states, events, n, i);
    }
  }

  lemma {:induction false} RunOwn(states: seq<State>, events: seq<Event>, n: nat)
    requires IsRun(states, events) && n <= |events|
    ensures OwnRegistrations(states, events, n)
  {
    if n > 0 {
      RunOwn(states, events, n - 1);
      OwnStep(states, events, n - 1);
    }
  }

  lemma ReplyRegisters(s: State, i: nat)
    requires Enabled(s, ConsumeReply(i))
    ensures var (c, r) := s.consuming[i];
            var s' := Next(s, ConsumeReply(i));
            && s'.consumers == s.consumers + [r]
            && c in s.live && c in s'.live && s'.live[c] == s.live[c] + [r]
  {
  }

  /**
   * Whatever happens: the registry is the sequence of the registrations that the answered calls were
   * made with, in the order of the replies.
   */
  lemma {:induction false} RegistryIsAnswered(states: seq<State>, events: seq<Event>, n: nat)
    requires IsRun(states, events) && n <= |events|
    ensures |Answered(states, events, n)| == |states[n].consumers|
    ensures forall k :: 0 <= k < |states[n].consumers| ==>
              Answered(states, events, n)[k] == Some(states[n].consumers[k])
  {
    if n > 0 {
      var s, e := states[n - 1], events[n - 1];
      RegistryIsAnswered(states, events, n - 1);
      assert Enabled(s, e) && states[n] == Next(s, e);
      RegistryGrowth(s, e);
      if e.ConsumeReply? {
        RunOwn(states, events, n - 1);
        ReplyRegisters(s, e.i);
      }
    }
  }

  /** Call i is still about registration r on channel c, if it is pending at all. */
  predicate Pending(s: State, i: nat, c: nat, r: Registration) {
    i < s.nextId && (i in s.consuming ==> s.consuming[i] == (c, r))
  }

  lemma PendingStep(states: seq<State>, events: seq<Event>, n: nat, i: nat, c: nat, r: Registration)
    requires IsRun(states, events) && n < |events| && Pending(states[n], i, c, r)
    ensures Pending(states[n + 1], i, c, r)
  {
    RunConsuming(states, events, n);
    IdsGrow(states, events, n);
  }

  lemma {:induction false} CallKept(states: seq<State>, events: seq<Event>, j: nat, k: nat)
    requires IsRun(states, events) && j < k <= |events|
    requires events[j].ConsumeCall? && states[j].channel.Some?
    ensures Pending(states[k], states[j].nextId, states[j].channel.value, events[j].r)
  {
    if j + 1 < k {
      CallKept(states, events, j, k - 1);
      PendingStep(states, events, k - 1, states[j].nextId, states[j].channel.value, events[j].r);
    } else {
      RunConsuming(states, events, j);
      CallDraws(states, events, j);
    }
  }

  lemma IdsGrow(states: seq<State>, events: seq<Event>, n: nat)
    requires IsRun(states, events) && n < |events|
    ensures states[n].nextId <= states[n + 1].nextId
  {
    assert Enabled(states[n], events[n]) && states[n + 1] == Next(states[n], events[n]);
    IdsGrowStep(states[n], events[n]);
  }

  lemma ReplayKeepsIds(s: State, a: nat, i: nat)
    requires a in s.attempts
    ensures ReplayFrom(s, a, i).nextId == s.nextId
  {
  }

  lemma IdsGrowStep(s: State, e: Event)
    requires Enabled(s, e)
    ensures s.nextId <= Next(s, e).nextId
  {
    if e.Reply? {
      var stage := s.attempts[e.a].stage;
      if stage.Replaying? && stage.next < |s.consumers| {
        ReplayKeepsIds(StartConsumer(s, e.a, s.consumers[stage.next]), e.a, stage.next + 1);
      } else {
        ReplayKeepsIds(s, e.a, 0);
      }
    } else if e.CloseCall? || e.ChannelClosed? {
      CloseKeepsConsuming(s, e);
    }
  }

  lemma CallDraws(states: seq<State>, events: seq<Event>, j: nat)
    requires IsRun(states, events) && j < |events| && events[j].ConsumeCall? && states[j].channel.Some?
    ensures states[j + 1].nextId == states[j].nextId + 1
  {
    assert Enabled(states[j], events[j]) && states[j + 1] == Next(states[j], events[j]);
  }

  /** A call of consume() that is answered registers, and starts on its own channel, what it was called with. */
  lemma ConsumeRegistersOwn(states: seq<State>, events: seq<Event>, j: nat, k: nat, r: Registration, c: nat)
    requires IsRun(states, events) && j < k < |events|
    requires events[j] == ConsumeCall(r) && states[j].channel == Some(c)
    requires events[k] == ConsumeReply(states[j].nextId)
    ensures states[k + 1].consumers == states[k].consumers + [r]
    ensures c in states[k].live && c in states[k + 1].live && states[k + 1].live[c] == states[k].live[c] + [r]
  {
    CallKept(states, events, j, k);
    assert Enabled(states[k], events[k]) && states[k + 1] == Next(states[k], events[k]);
    ReplyRegisters(states[k], states[j].nextId);
  }
}
