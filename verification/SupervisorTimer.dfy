/**
 * The comment on reconnectTimer in packages/shared/src/adapters/broker.ts, "non-null exactly when one
 * reconnect is scheduled": when it is true, and a run in which it is not.
 */
module SupervisorTimer {
  import opened Common
  import opened Supervisor
  import opened SupervisorProofs

  /** reconnectTimer is set exactly when one timer is armed, and then refers to that one. */
  ghost predicate ExactlyOneScheduled(s: State) {
    if s.reconnectTimer.Some? then s.timers.Keys == {s.reconnectTimer.value} else s.timers == map[]
  }

  /** A reconnect attempt fails, and so backs off without looking, while a timer is armed already. */
  predicate SecondSchedule(s: State, e: Event)
    requires Enabled(s, e)
  {
    (e.ConnectFail? || e.Released?) && !s.attempts[e.a].initial && s.timers != map[]
  }

  lemma FailKeepsTimers(s: State, a: nat)
    requires a in s.attempts && ExactlyOneScheduled(s) && KeysBelow(s.timers, s.nextId)
    ensures ExactlyOneScheduled(Fail(s, a)) <==> s.attempts[a].initial || s.timers == map[]
  {
    var s' := Fail(s, a);
    if !s.attempts[a].initial {
      assert s'.timers.Keys == s.timers.Keys + {s.nextId};
      if s.timers != map[] {
        var t :| t in s.timers;
        assert t in s'.timers && t != s.nextId;
      }
    }
  }

  lemma LossKeepsTimers(s: State, c: nat)
    requires ExactlyOneScheduled(s) && Enabled(s, Lost(c))
    ensures ExactlyOneScheduled(Next(s, Lost(c)))
  {
    var s' := Next(s, Lost(c));
    if !s.shutDown && !s.establishing && s.reconnectTimer.None? { assert s'.timers.Keys == {s.nextId}; }
  }

  lemma CloseKeepsTimers(s: State)
    requires ExactlyOneScheduled(s) && Enabled(s, CloseCall)
    ensures ExactlyOneScheduled(Next(s, CloseCall))
  {
    var s1 := s.(shutDown := true,
                 timers := if s.reconnectTimer.Some? then s.timers - {s.reconnectTimer.value} else s.timers,
                 reconnectTimer := None);
    assert s1.timers == map[];
    CloseFrame(s1, None);
  }

  lemma OthersKeepTimers(s: State, e: Event)
    requires ExactlyOneScheduled(s) && Enabled(s, e)
    requires e.ConnectOk? || e.Discarded? || e.SetupError? || e.TimerFires? || e.ConsumeCall? || e.ConsumeReply?
             || e.ConsumeReject? || e.ConnectionClosed?
    ensures ExactlyOneScheduled(Next(s, e))
  {
    if e.TimerFires? { assert Next(s, e).timers == map[]; }
  }

  lemma ChannelKeepsTimers(s: State, i: nat)
    requires ExactlyOneScheduled(s) && Enabled(s, ChannelClosed(i))
    ensures ExactlyOneScheduled(Next(s, ChannelClosed(i)))
  {
    CloseFrame(ChannelGone(s, s.closers[i].c), Some(i));
  }

  lemma ReplyKeepsTimers(s: State, a: nat)
    requires ExactlyOneScheduled(s) && Enabled(s, Reply(a))
    ensures ExactlyOneScheduled(Next(s, Reply(a)))
  {
    var stage := s.attempts[a].stage;
    if stage.Replaying? && stage.next < |s.consumers| {
      ReplayFrame(StartConsumer(s, a, s.consumers[stage.next]), a, stage.next + 1);
    } else if !stage.Replaying? {
      ReplayFrame(s, a, 0);
    }
  }

  lemma ExactStep(s: State, e: Event)
    requires KeysBelow(s.timers, s.nextId) && ExactlyOneScheduled(s) && Enabled(s, e)
    ensures ExactlyOneScheduled(Next(s, e)) <==> !SecondSchedule(s, e)
  {
    match e
    case ConnectFail(a) => FailKeepsTimers(s.(establishing := false), a);
    case Released(a) => FailKeepsTimers(s.(live := s.live - {a}), a);
    case Lost(c) => LossKeepsTimers(s, c);
    case CloseCall => CloseKeepsTimers(s);
    case ChannelClosed(i) => ChannelKeepsTimers(s, i);
    case Reply(a) => ReplyKeepsTimers(s, a);
    case _ => OthersKeepTimers(s, e);
  }

  lemma {:induction false} ExactSoFar(states: seq<State>, events: seq<Event>, n: nat)
    requires IsRun(states, events) && n < |states|
    requires forall i {:trigger events[i]} :: 0 <= i < |events| ==> !SecondSchedule(states[i], events[i])
    ensures ExactlyOneScheduled(states[n])
  {
    if n > 0 {
      ExactSoFar(states, events, n - 1);
      RunSound(states, events, n - 1);
      ExactStep(states[n - 1], events[n - 1]);
    }
  }

  /**
   * Exactly when the comment is true of a run: no attempt fails while a timer is armed. The
   * scheduleReconnect() of the catch block does not ask; the one of onConnectionGone() does.
   */
  lemma ExactIffNoSecondSchedule(states: seq<State>, events: seq<Event>)
    requires IsRun(states, events)
    ensures (forall i :: 0 <= i < |states| ==> ExactlyOneScheduled(states[i])) <==>
            (forall i {:trigger events[i]} :: 0 <= i < |events| ==> !SecondSchedule(states[i], events[i]))
  {
    if forall i :: 0 <= i < |states| ==> ExactlyOneScheduled(states[i]) {
      forall i {:trigger events[i]} | 0 <= i < |events|
        ensures !SecondSchedule(states[i], events[i])
      {
        RunSound(states, events, i);
        ExactStep(states[i], events[i]);
        assert ExactlyOneScheduled(states[i + 1]);
      }
    }
    if forall i {:trigger events[i]} :: 0 <= i < |events| ==> !SecondSchedule(states[i], events[i]) {
      forall i | 0 <= i < |states| ensures ExactlyOneScheduled(states[i]) { ExactSoFar(states, events, i); }
    }
  }

  /** Quiet teardowns are enough, though not necessary. */
  lemma QuietIsExact(states: seq<State>, events: seq<Event>, i: nat)
    requires IsRun(states, events) && QuietTeardown(states, events) && i < |states|
    ensures ExactlyOneScheduled(states[i])
  {
    RunSingle(states, events, i);
    var s := states[i];
    if s.reconnectTimer.Some? {
      assert s.timers.Keys == {s.reconnectTimer.value};
    } else {
      assert s.timers == map[];
    }
  }

  /** A reconnect attempt of a broker that came up and lost its connection, in its catch block. */
  function HalfOpen(): State {
    State(None, None, [], false, None, 1, false,
          Returned, map[2 := Attempt(false, Releasing)], map[], map[], map[], map[2 := []], {}, 3)
  }

  lemma HalfOpenReached() returns (states: seq<State>, events: seq<Event>)
    ensures IsRun(states, events) && states[|events|] == HalfOpen()
  {
    states, events := RetryReached();
    var s5 := Next(Retry(), ConnectOk(2));
    RunExtends(states, events, ConnectOk(2));
    states, events := states + [s5], events + [ConnectOk(2)];
    assert s5.attempts == map[2 := Attempt(false, Preparing)];
    RunExtends(states, events, SetupError(2));
    states, events := states + [Next(s5, SetupError(2))], events + [SetupError(2)];
  }

  /**
   * A reconnect attempt whose setup fails and whose teardown says 'close' arms two timers, and the
   * older one is referred to by nothing: close() can no longer disarm it.
   */
  lemma TwoTimers() returns (states: seq<State>, events: seq<Event>)
    ensures IsRun(states, events)
    ensures var last := states[|events|];
            && last.timers.Keys == {3, 4} && last.reconnectTimer == Some(4) && !ExactlyOneScheduled(last)
            && Enabled(last, CloseCall) && Next(last, CloseCall).timers.Keys == {3}
  {
    states, events := HalfOpenReached();
    var s7 := Next(HalfOpen(), Lost(2));
    RunExtends(states, events, Lost(2));
    states, events := states + [s7], events + [Lost(2)];
    assert s7.timers.Keys == {3} && s7.nextId == 4;
    RunExtends(states, events, Released(2));
    states, events := states + [Next(s7, Released(2))], events + [Released(2)];
  }

  /** A loud teardown alone does not make the comment wrong: here the caller's rejection arms nothing. */
  lemma LoudYetExact() returns (states: seq<State>, events: seq<Event>)
    ensures IsRun(states, events) && !QuietTeardown(states, events)
    ensures forall i :: 0 <= i < |states| ==> ExactlyOneScheduled(states[i])
  {
    var s1 := Next(Init(), ConnectOk(0));
    var s2 := Next(s1, SetupError(0));
    var s3 := Next(s2, Lost(0));
    states := [Init(), s1, s2, s3];
    events := [ConnectOk(0), SetupError(0), Lost(0)];
    assert TeardownCloses(states[2], events[2]);
    assert s3.timers.Keys == {1};
  }
}
