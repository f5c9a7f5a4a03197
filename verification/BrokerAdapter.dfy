/**
 * The closure of createBroker(), packages/shared/src/adapters/broker.ts: one method per stretch of
 * code between two awaits, and the event loop that calls them. The ghost fields record the run of
 * Supervisor's machine that the calls so far amount to.
 */
module BrokerAdapter {
  import opened Common
  import opened Supervisor
  import opened SupervisorProofs
  import opened SupervisorShutdown
  import opened SupervisorTimer
  import opened SupervisorRegistry

  // ---------------------------------------------------------------------------
  // What a run says about its last step
  // ---------------------------------------------------------------------------

  ghost predicate EndsWith(states: seq<State>, events: seq<Event>, e: Event) {
    IsRun(states, events) && events != [] && events[|events| - 1] == e
  }

  lemma AfterLoss(states: seq<State>, events: seq<Event>, c: nat)
    requires EndsWith(states, events, Lost(c))
    ensures var s := states[|events|];
            && (!s.shutDown && !s.startup.Rejected? ==> s.timers != map[] || s.attempts != map[])
            && (QuietTeardown(states, events) ==> ExactlyOneScheduled(s) && (s.timers == map[] || s.attempts == map[]))
  {
    RunSound(states, events, |events|);
    assert states[|events|] == Next(states[|events| - 1], Lost(c));
    if QuietTeardown(states, events) {
      QuietIsExact(states, events, |events|);
      SingleSupervisor(states, events, |events|);
    }
  }

  lemma AfterTimer(states: seq<State>, events: seq<Event>, t: nat)
    requires EndsWith(states, events, TimerFires(t)) && QuietTeardown(states, events)
    ensures var before, s := states[|events| - 1], states[|events|];
            s.attempts.Keys == {before.nextId} && s.timers == map[] && s.channel.None? && s.live == map[]
  {
    RunSingle(states, events, |events| - 1);
    RunSingle(states, events, |events|);
    var before, s := states[|events| - 1], states[|events|];
    assert s == Next(before, TimerFires(t)) && before.attempts == map[];
    assert before.nextId in s.attempts;
    assert forall c :: c in s.live ==> c in before.live;
    assert before.nextId !in s.live;
  }

  lemma AfterReply(states: seq<State>, events: seq<Event>, a: nat)
    requires EndsWith(states, events, Reply(a)) && QuietTeardown(states, events)
    ensures var s := states[|events|];
            if a in s.attempts then
              && a in s.live && s.attempts[a].stage.Replaying? && s.attempts[a].stage.next < |s.consumers|
              && s.live[a] == s.consumers[..s.attempts[a].stage.next]
            else
              && s.channel == Some(a) && s.reconnectAttempt == 0
              && (s.closers == map[] ==> s.live == map[a := s.consumers])
  {
    var before := states[|events| - 1];
    RunReplayed(states, events, |events|);
    assert states[|events|] == Next(before, Reply(a));
    ReplyEnds(before, a);
    if a !in states[|events|].attempts && states[|events|].closers == map[] {
      ReplayExactness(states, events, |events|);
    }
  }

  /** A setup reply leads to the next registration or to an install. */
  lemma ReplyEnds(s: State, a: nat)
    requires Enabled(s, Reply(a))
    ensures var s' := Next(s, Reply(a));
            && (a in s'.attempts ==> s'.attempts[a].stage.Replaying? && a in s'.live)
            && (a !in s'.attempts ==> s'.channel == Some(a) && s'.reconnectAttempt == 0)
  {
    match s.attempts[a].stage
    case Preparing =>
    case Replaying(i) =>
  }

  /** No attempt, channel or connection is left, and no timer but the one reconnectTimer names. */
  ghost predicate LeftAlone(s: State) {
    s.attempts == map[] && s.channel.None? && s.live == map[] && ExactlyOneScheduled(s)
  }

  lemma FailureLeaves(s: State, e: Event)
    requires Single(s) && Enabled(s, e) && (e.ConnectFail? || e.Released?)
    ensures var s' := Next(s, e);
            && s'.attempts == map[] && s'.channel.None? && s'.live == map[]
            && (s.attempts[e.a].initial ==> s'.timers == map[])
  {
    var s', a := Next(s, e), e.a;
    assert s.timers == map[];
    assert s'.attempts.Keys == s.attempts.Keys - {a};
    assert forall c :: c in s'.live ==> c in s.live && c != a;
  }

  /** A failed establish() rejects its caller or leaves a retry, and nothing else. */
  lemma AfterFailure(states: seq<State>, events: seq<Event>, e: Event)
    requires EndsWith(states, events, e) && (e.ConnectFail? || e.Released?)
    ensures var before, s := states[|events| - 1], states[|events|];
            && (if before.attempts[e.a].initial then s.startup.Rejected? else before.nextId in s.timers)
            && (ExactlyOneScheduled(before) ==>
                  (ExactlyOneScheduled(s) <==> before.attempts[e.a].initial || before.timers == map[]))
            && (QuietTeardown(states, events) ==> LeftAlone(s) && (before.attempts[e.a].initial ==> s.timers == map[]))
  {
    var before := states[|events| - 1];
    RunSound(states, events, |events| - 1);
    assert Enabled(before, e) && states[|events|] == Next(before, e);
    if ExactlyOneScheduled(before) { ExactStep(before, e); }
    if QuietTeardown(states, events) {
      QuietIsExact(states, events, |events|);
      RunSingle(states, events, |events| - 1);
      FailureLeaves(before, e);
    }
  }

  lemma AfterSetupError(states: seq<State>, events: seq<Event>, a: nat)
    requires EndsWith(states, events, SetupError(a)) && QuietTeardown(states, events)
    ensures var s := states[|events|];
            Enabled(s, Lost(a)) && !s.shutDown ==> !OneSupervisor(Next(s, Lost(a)))
  {
    RunSingle(states, events, |events|);
    var s := states[|events|];
    assert s == Next(states[|events| - 1], SetupError(a));
    if Enabled(s, Lost(a)) && !s.shutDown { LoudTeardownDuplicates(s, Lost(a)); }
  }

  lemma AfterConsumeReply(states: seq<State>, events: seq<Event>, i: nat)
    requires EndsWith(states, events, ConsumeReply(i)) && QuietTeardown(states, events)
    ensures var s := states[|events|];
            s.closers == map[] ==> s.channel.Some? && s.live == map[s.channel.value := s.consumers]
  {
    var before, s := states[|events| - 1], states[|events|];
    RunSingle(states, events, |events| - 1);
    assert s == Next(before, ConsumeReply(i)) && s.channel == before.channel;
    assert before.channel == Some(before.consuming[i].0);
    if s.closers == map[] { ReplayExactness(states, events, |events|); }
  }

  lemma AfterClose(states: seq<State>, events: seq<Event>)
    requires EndsWith(states, events, CloseCall) && QuietTeardown(states, events)
    ensures var before, s := states[|events| - 1], states[|events|];
            s.timers == map[] && (before.attempts == map[] ==> Closing(s))
  {
    var before := states[|events| - 1];
    QuietIsExact(states, events, |events| - 1);
    assert Enabled(before, CloseCall) && states[|events|] == Next(before, CloseCall);
    CloseKeepsTimers(before);
    CloseForgetsTimer(before);
    if before.attempts == map[] { CloseBegins(before); }
  }

  lemma CloseForgetsTimer(s: State)
    requires Enabled(s, CloseCall)
    ensures Next(s, CloseCall).reconnectTimer.None?
  {
  }

  lemma ChannelEnds(s: State, i: nat)
    requires Enabled(s, ChannelClosed(i))
    ensures var c, s' := s.closers[i].c, Next(s, ChannelClosed(i));
            !ChannelOpen(s', c) && (c in s'.live ==> s'.live[c] == [])
  {
    var s1 := ChannelGone(s, s.closers[i].c);
    assert AfterChannel(s1, Some(i)).live == s1.live && AfterChannel(s1, Some(i)).closedChannels == s1.closedChannels;
  }

  lemma AfterCloseStep(states: seq<State>, events: seq<Event>, e: Event)
    requires EndsWith(states, events, e) && (e.ChannelClosed? || e.ConnectionClosed?)
    ensures Closing(states[|events| - 1]) ==> Closing(states[|events|])
  {
    var before := states[|events| - 1];
    RunSound(states, events, |events| - 1);
    assert Enabled(before, e) && states[|events|] == Next(before, e);
    if Closing(before) { ClosingStep(before, e); }
  }

  // ---------------------------------------------------------------------------
  // The broker
  // ---------------------------------------------------------------------------

  class Broker {
    // the closure variables
    var connection: Option<nat>
    var channel: Option<nat>
    var consumers: seq<Registration>
    var establishing: bool
    var reconnectTimer: Option<nat>
    var reconnectAttempt: nat
    var shutDown: bool
    // the suspended calls, the event loop and the network
    var startup: Startup
    var attempts: map<nat, Attempt>
    var consuming: map<nat, (nat, Registration)>
    var closers: map<nat, Closer>
    var timers: map<nat, nat>
    var live: map<nat, seq<Registration>>
    var closedChannels: set<nat>
    var nextId: nat
    // the run so far
    ghost var states: seq<State>
    ghost var events: seq<Event>

    ghost function Abs(): State
      reads this
    {
      State(connection, channel, consumers, establishing, reconnectTimer, reconnectAttempt, shutDown,
            startup, attempts, consuming, closers, timers, live, closedChannels, nextId)
    }

    ghost predicate Valid()
      reads this
    {
      IsRun(states, events) && Abs() == states[|events|]
    }

    /** The call was step e of the run. */
    twostate predicate Took(e: Event)
      reads this
    {
      Valid() && events == old(events) + [e] && states == old(states) + [Abs()]
    }

    ghost predicate Quiet()
      requires Valid()
      reads this
    {
      QuietTeardown(states, events)
    }

    ghost method Record(e: Event)
      requires Valid() && Enabled(Abs(), e)
      modifies this`states, this`events
      ensures EndsWith(states, events, e) && events == old(events) + [e]
      ensures states == old(states) + [Next(Abs(), e)]
    {
      RunExtends(states, events, e);
      states, events := states + [Next(Abs(), e)], events + [e];
    }

    /** What holds after any calls whatsoever, read off the fields. */
    lemma Kept()
      requires Valid()
      ensures !shutDown && !startup.Rejected? && channel.None? ==> timers != map[] || attempts != map[]
      ensures Quiet() ==> OneSupervisor(Abs()) && ExactlyOneScheduled(Abs())
      ensures Quiet() && channel.Some? && closers == map[] ==> live == map[channel.value := consumers]
      ensures Backoffs(states, events, |events|) == Delays(reconnectAttempt)
      ensures |Answered(states, events, |events|)| == |consumers|
      ensures forall k :: 0 <= k < |consumers| ==> Answered(states, events, |events|)[k] == Some(consumers[k])
    {
      RunSound(states, events, |events|);
      AttemptCountsBackoffs(states, events, |events|);
      RegistryIsAnswered(states, events, |events|);
      if Quiet() {
        SingleSupervisor(states, events, |events|);
        QuietIsExact(states, events, |events|);
        if channel.Some? && closers == map[] { ReplayExactness(states, events, |events|); }
      }
    }

    /** createBroker up to the await inside its establish(true). */
    constructor ()
      ensures Valid() && events == []
    {
      connection, channel, consumers := None, None, [];
      establishing, reconnectTimer, reconnectAttempt, shutDown := true, None, 0, false;
      startup, attempts := Pending, map[0 := Attempt(true, Connecting)];
      consuming, closers, timers, live, closedChannels, nextId := map[], map[], map[], map[], {}, 1;
      states, events := [Init()], [];
    }

    method ScheduleReconnect()
      modifies this
      ensures states == old(states) && events == old(events)
      ensures Abs() == Schedule(old(Abs()))
    {
      var delay := Min(RECONNECT_BASE_MS * Pow2(reconnectAttempt), RECONNECT_MAX_MS);
      reconnectAttempt := reconnectAttempt + 1;
      timers := timers[nextId := delay];
      reconnectTimer := Some(nextId);
      nextId := nextId + 1;
    }

    method OnConnectionGone()
      modifies this
      ensures states == old(states) && events == old(events)
      ensures Abs() == Gone(old(Abs()))
    {
      connection := None;
      channel := None;
      if shutDown || establishing || reconnectTimer.Some? { return; }
      ScheduleReconnect();
    }

    /** The reconnect timer's callback: the start of establish(false). */
    method FireTimer(t: nat)
      requires Valid() && Enabled(Abs(), TimerFires(t))
      modifies this
      ensures Took(TimerFires(t))
      ensures Quiet() ==> attempts.Keys == {old(nextId)} && timers == map[] && channel.None? && live == map[]
    {
      Record(TimerFires(t));
      timers := timers - {t};
      reconnectTimer := None;
      establishing := true;
      attempts := attempts[nextId := Attempt(false, Connecting)];
      nextId := nextId + 1;
      assert Abs() == states[|events|];
      if Quiet() { AfterTimer(states, events, t); }
    }

    /** A supervised connection emits 'close'. */
    method LoseConnection(c: nat)
      requires Valid() && Enabled(Abs(), Lost(c))
      modifies this
      ensures Took(Lost(c))
      ensures !shutDown && !startup.Rejected? ==> timers != map[] || attempts != map[]
      ensures Quiet() ==> ExactlyOneScheduled(Abs()) && (timers == map[] || attempts == map[])
    {
      Record(Lost(c));
      AfterLoss(states, events, c);
      live := live - {c};
      OnConnectionGone();
    }

    /** establish() behind `await amqp.connect`. */
    method ResumeConnected(a: nat)
      requires Valid() && Enabled(Abs(), ConnectOk(a))
      modifies this
      ensures Took(ConnectOk(a))
      ensures if shutDown then ThrownAway(Abs(), a) && live == old(live) else a in live
    {
      Record(ConnectOk(a));
      RunSound(states, events, |events| - 1);
      if shutDown {
        attempts := attempts[a := attempts[a].(stage := Discarding)];
        return;
      }
      live := live[a := []];
      attempts := attempts[a := attempts[a].(stage := Preparing)];
    }

    method ResumeDiscarded(a: nat)
      requires Valid() && Enabled(Abs(), Discarded(a))
      modifies this
      ensures Took(Discarded(a))
      ensures a !in attempts && timers == old(timers) && channel == old(channel)
    {
      Record(Discarded(a));
      establishing := false;
      attempts := attempts - {a};
    }

    /** startConsumer(), when the broker has agreed */
    method RunConsumer(c: nat, r: Registration)
      requires c in live
      modifies this`live
      ensures Abs() == StartConsumer(old(Abs()), c, r)
    {
      live := live[c := live[c] + [r]];
    }

    /** The end of establish()'s try block. */
    method InstallChannel(a: nat)
      requires a in attempts
      modifies this`connection, this`channel, this`establishing, this`reconnectAttempt, this`startup, this`attempts
      ensures connection == channel == Some(a) && !establishing && reconnectAttempt == 0
      ensures startup == if old(attempts)[a].initial then Returned else old(startup)
      ensures attempts == old(attempts) - {a}
    {
      connection, channel := Some(a), Some(a);
      establishing, reconnectAttempt := false, 0;
      startup := if attempts[a].initial then Returned else startup;
      attempts := attempts - {a};
    }

    /** establish(), up to its next await or to its end: replay consumer i, or install. */
    method ReplayOrInstall(a: nat, i: nat)
      requires a in attempts
      modifies this
      ensures states == old(states) && events == old(events)
      ensures Abs() == ReplayFrom(old(Abs()), a, i)
    {
      if i < |consumers| {
        attempts := attempts[a := attempts[a].(stage := Replaying(i))];
      } else {
        InstallChannel(a);
      }
    }

    method ReplayNext(a: nat)
      requires Enabled(Abs(), Reply(a))
      modifies this
      ensures states == old(states) && events == old(events)
      ensures Abs() == SetupReply(old(Abs()), a)
    {
      var next := 0;
      if attempts[a].stage.Replaying? {
        next := attempts[a].stage.next;
        if next < |consumers| { RunConsumer(a, consumers[next]); }
        next := next + 1;
      }
      ReplayOrInstall(a, next);
    }

    /** establish() behind a setup step that succeeded. */
    method ResumeSetup(a: nat)
      requires Valid() && Enabled(Abs(), Reply(a))
      modifies this
      ensures Took(Reply(a))
      ensures if a in attempts then attempts[a].stage.Replaying? && a in live
              else channel == Some(a) && reconnectAttempt == 0
      ensures Quiet() && a in attempts ==>
                attempts[a].stage.next < |consumers| && live[a] == consumers[..attempts[a].stage.next]
      ensures Quiet() && a !in attempts && closers == map[] ==> live == map[a := consumers]
    {
      ReplyEnds(Abs(), a);
      Record(Reply(a));
      ReplayNext(a);
      assert Abs() == states[|events|];
      if Quiet() { AfterReply(states, events, a); }
    }

    /** The end of establish()'s catch block. */
    method GiveUp(a: nat)
      requires a in attempts
      modifies this
      ensures states == old(states) && events == old(events)
      ensures Abs() == Fail(old(Abs()), a)
    {
      var initial := attempts[a].initial;
      attempts := attempts - {a};
      if initial {
        startup := Rejected;
        return;
      }
      ScheduleReconnect();
    }

    /** The catch block when amqp.connect itself rejected: there is no connection to release. */
    method CatchConnect(a: nat)
      requires Valid() && Enabled(Abs(), ConnectFail(a))
      modifies this
      ensures Took(ConnectFail(a))
      ensures if old(attempts)[a].initial then startup.Rejected? else old(nextId) in timers
      ensures ExactlyOneScheduled(old(Abs())) ==>
                (ExactlyOneScheduled(Abs()) <==> old(attempts)[a].initial || old(timers) == map[])
      ensures Quiet() ==> LeftAlone(Abs()) && (old(attempts)[a].initial ==> timers == map[])
    {
      Record(ConnectFail(a));
      AfterFailure(states, events, ConnectFail(a));
      establishing := false;
      GiveUp(a);
    }

    /** The catch block up to `await pendingConnection.close()`. */
    method CatchSetup(a: nat)
      requires Valid() && Enabled(Abs(), SetupError(a))
      modifies this
      ensures Took(SetupError(a))
      ensures Quiet() && Enabled(Abs(), Lost(a)) && !shutDown ==> !OneSupervisor(Next(Abs(), Lost(a)))
    {
      Record(SetupError(a));
      if QuietTeardown(states, events) { AfterSetupError(states, events, a); }
      establishing := false;
      attempts := attempts[a := attempts[a].(stage := Releasing)];
    }

    method ResumeReleased(a: nat)
      requires Valid() && Enabled(Abs(), Released(a))
      modifies this
      ensures Took(Released(a))
      ensures if old(attempts)[a].initial then startup.Rejected? else old(nextId) in timers
      ensures ExactlyOneScheduled(old(Abs())) ==>
                (ExactlyOneScheduled(Abs()) <==> old(attempts)[a].initial || old(timers) == map[])
      ensures Quiet() ==> LeftAlone(Abs()) && (old(attempts)[a].initial ==> timers == map[])
    {
      Record(Released(a));
      live := live - {a};
      GiveUp(a);
      assert Abs() == states[|events|];
      AfterFailure(states, events, Released(a));
    }

    /** consume() up to its await; ok is false when it throws. */
    method Consume(r: Registration) returns (ok: bool)
      requires Valid() && Enabled(Abs(), ConsumeCall(r))
      modifies this
      ensures Took(ConsumeCall(r))
      ensures !ok ==> Abs() == old(Abs())
      ensures consumers == old(consumers) && live == old(live)
      ensures ok == old(channel).Some?
      ensures ok ==> consuming == old(consuming)[old(nextId) := (old(channel).value, r)]
    {
      if channel.None? { RefusedConsume(Abs(), r); }
      Record(ConsumeCall(r));
      if channel.None? { return false; }
      consuming := consuming[nextId := (channel.value, r)];
      nextId := nextId + 1;
      return true;
    }

    method ResumeConsume(i: nat)
      requires Valid() && Enabled(Abs(), ConsumeReply(i))
      modifies this
      ensures Took(ConsumeReply(i))
      ensures consumers == old(consumers) + [old(consuming)[i].1]
      ensures Quiet() && closers == map[] ==> channel.Some? && live == map[channel.value := consumers]
    {
      Record(ConsumeReply(i));
      var (c, r) := consuming[i];
      live := live[c := live[c] + [r]];
      consumers := consumers + [r];
      consuming := consuming - {i};
      assert Abs() == states[|events|];
      if Quiet() { AfterConsumeReply(states, events, i); }
    }

    /** consume() behind a startConsumer() that rejected: nothing is registered. */
    method RejectConsume(i: nat)
      requires Valid() && Enabled(Abs(), ConsumeReject(i))
      modifies this
      ensures Took(ConsumeReject(i))
      ensures consumers == old(consumers) && live == old(live)
    {
      Record(ConsumeReject(i));
      consuming := consuming - {i};
    }

    /** close(), from the connection on. */
    method CloseConnection(call: Option<nat>)
      modifies this
      ensures states == old(states) && events == old(events)
      ensures Abs() == AfterChannel(old(Abs()), call)
    {
      if connection.Some? {
        var i := nextId;
        if call.Some? { i := call.value; } else { nextId := nextId + 1; }
        closers := closers[i := ClosingConnection(connection.value)];
        return;
      }
      if call.Some? { closers := closers - {call.value}; }
      connection := None;
      channel := None;
    }

    /** The first lines of close(). */
    method ShutDown()
      modifies this`shutDown, this`timers, this`reconnectTimer
      ensures Abs() == old(Abs()).(
                shutDown := true,
                timers := if old(reconnectTimer).Some? then old(timers) - {old(reconnectTimer).value} else old(timers),
                reconnectTimer := None)
    {
      shutDown := true;
      if reconnectTimer.Some? {
        timers := timers - {reconnectTimer.value};
        reconnectTimer := None;
      }
    }

    /** close() up to its first await, or to its end when there is nothing to close. */
    method Close()
      requires Valid() && Enabled(Abs(), CloseCall)
      modifies this
      ensures Took(CloseCall)
      ensures Quiet() ==> timers == map[] && (old(attempts) == map[] ==> Closing(Abs()))
    {
      Record(CloseCall);
      ShutDown();
      if channel.Some? {
        closers := closers[nextId := ClosingChannel(channel.value)];
        nextId := nextId + 1;
      } else {
        CloseConnection(None);
      }
      assert Abs() == states[|events|];
      if Quiet() { AfterClose(states, events); }
    }

    /** channel.close() has settled. */
    method EndConsumers(c: nat)
      modifies this`live, this`closedChannels
      ensures live == (if c in old(live) then old(live)[c := []] else old(live))
      ensures closedChannels == old(closedChannels) + {c}
    {
      if c in live { live := live[c := []]; }
      closedChannels := closedChannels + {c};
    }

    method GoOnClosing(i: nat)
      requires i in closers
      modifies this
      ensures states == old(states) && events == old(events)
      ensures Abs() == AfterChannel(ChannelGone(old(Abs()), old(closers)[i].c), Some(i))
    {
      EndConsumers(closers[i].c);
      CloseConnection(Some(i));
    }

    /** close() behind `await channel.close()`. */
    method ResumeClose(i: nat)
      requires Valid() && Enabled(Abs(), ChannelClosed(i))
      modifies this
      ensures Took(ChannelClosed(i))
      ensures Closing(old(Abs())) ==> Closing(Abs())
      ensures i in closers || (channel.None? && connection.None?)
      ensures var c := old(closers)[i].c; !ChannelOpen(Abs(), c) && (c in live ==> live[c] == [])
    {
      ChannelEnds(Abs(), i);
      Record(ChannelClosed(i));
      GoOnClosing(i);
      assert Abs() == states[|events|];
      AfterCloseStep(states, events, ChannelClosed(i));
    }

    /** The last lines of close(). */
    method Disconnect(i: nat)
      requires i in closers
      modifies this`live, this`closers, this`connection, this`channel
      ensures live == old(live) - {old(closers)[i].c} && closers == old(closers) - {i}
      ensures connection == None && channel == None
    {
      live := live - {closers[i].c};
      closers := closers - {i};
      connection := None;
      channel := None;
    }

    /** close() behind `await connection.close()`. */
    method FinishClose(i: nat)
      requires Valid() && Enabled(Abs(), ConnectionClosed(i))
      modifies this
      ensures Took(ConnectionClosed(i))
      ensures Closing(old(Abs())) ==> Closing(Abs())
      ensures i in closers || (channel.None? && connection.None?)
    {
      Record(ConnectionClosed(i));
      Disconnect(i);
      assert Abs() == states[|events|];
      AfterCloseStep(states, events, ConnectionClosed(i));
    }

    /** The event loop: every event that can happen has its code, and the code takes exactly its step. */
    method Handle(e: Event)
      requires Valid() && Enabled(Abs(), e)
      modifies this
      ensures Took(e)
    {
      match e
      case ConnectOk(a) => ResumeConnected(a);
      case ConnectFail(a) => CatchConnect(a);
      case Discarded(a) => ResumeDiscarded(a);
      case Reply(a) => ResumeSetup(a);
      case SetupError(a) => CatchSetup(a);
      case Released(a) => ResumeReleased(a);
      case TimerFires(t) => FireTimer(t);
      case Lost(c) => LoseConnection(c);
      case ConsumeCall(r) => var _ := Consume(r);
      case ConsumeReply(i) => ResumeConsume(i);
      case ConsumeReject(i) => RejectConsume(i);
      case CloseCall => Close();
      case ChannelClosed(i) => ResumeClose(i);
      case ConnectionClosed(i) => FinishClose(i);
    }
  }
}
