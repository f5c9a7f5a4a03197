/**
 * createBroker() against its own first establish(true), packages/shared/src/adapters/broker.ts: when a
 * rejection leaves nothing behind.
 */
module SupervisorStartup {
  import opened Supervisor
  import opened SupervisorProofs

  /** Attempt 0, and no other, is createBroker's own; until it ends nobody can have called close(). */
  ghost predicate StartupOk(s: State) {
    && 0 < s.nextId
    && (forall a :: a in s.attempts ==> (s.attempts[a].initial <==> a == 0))
    && (s.startup.Pending? <==> 0 in s.attempts)
    && (s.startup.Pending? ==> !s.shutDown)
  }

  lemma StartupReplay(s: State, a: nat, i: nat)
    requires StartupOk(s) && a in s.attempts
    ensures StartupOk(ReplayFrom(s, a, i))
  {
  }

  lemma StartupReply(s: State, a: nat)
    requires StartupOk(s) && Enabled(s, Reply(a))
    ensures StartupOk(Next(s, Reply(a)))
  {
    var stage := s.attempts[a].stage;
    if stage.Replaying? && stage.next < |s.consumers| {
      StartupReplay(StartConsumer(s, a, s.consumers[stage.next]), a, stage.next + 1);
    } else {
      StartupReplay(s, a, 0);
    }
  }

  lemma StartupFails(s: State, e: Event)
    requires StartupOk(s) && Enabled(s, e) && (e.ConnectFail? || e.Released?)
    ensures StartupOk(Next(s, e))
  {
  }

  lemma StartupLoses(s: State, e: Event)
    requires StartupOk(s) && Enabled(s, e) && (e.Discarded? || e.Lost?)
    requires e.Discarded? ==> s.shutDown
    ensures StartupOk(Next(s, e))
  {
  }

  lemma StartupCloseCall(s: State)
    requires StartupOk(s) && Enabled(s, CloseCall)
    ensures StartupOk(Next(s, CloseCall))
  {
  }

  lemma StartupCloses(s: State, e: Event)
    requires StartupOk(s) && Enabled(s, e) && (e.ChannelClosed? || e.ConnectionClosed?)
    ensures StartupOk(Next(s, e))
  {
  }

  lemma StartupStep(s: State, e: Event)
    requires StartupOk(s) && Enabled(s, e) && (e.Discarded? ==> s.shutDown)
    ensures StartupOk(Next(s, e))
  {
    match e
    case Reply(a) => StartupReply(s, a);
    case ConnectFail(_) => StartupFails(s, e);
    case Released(_) => StartupFails(s, e);
    case Discarded(_) => StartupLoses(s, e);
    case Lost(_) => StartupLoses(s, e);
    case CloseCall => StartupCloseCall(s);
    case ChannelClosed(_) => StartupCloses(s, e);
    case ConnectionClosed(_) => StartupCloses(s, e);
    case _ =>
  }

  lemma {:induction false} RunStartup(states: seq<State>, events: seq<Event>, n: nat)
    requires IsRun(states, events) && n < |states|
    ensures Sound(states[n]) && StartupOk(states[n])
  {
    RunSound(states, events, n);
    if n > 0 {
      RunStartup(states, events, n - 1);
      StartupStep(states[n - 1], events[n - 1]);
    }
  }

  /** createBroker's attempt is in its catch block, and somebody else has taken up the connection. */
  ghost predicate Overtaken(s: State) {
    && 0 in s.attempts && s.attempts[0].stage.Releasing?
    && (s.timers != map[] || s.channel.Some? || exists a :: a in s.attempts && a != 0)
  }

  /** A loud teardown during the startup is what lets somebody else in. */
  lemma TeardownOvertakes(s: State, e: Event)
    requires Single(s) && StartupOk(s) && s.startup.Pending? && Enabled(s, e) && TeardownCloses(s, e)
    ensures Overtaken(Next(s, e))
  {
    assert e.c == 0;
    assert s.nextId in Next(s, e).timers;
  }

  lemma OvertakenReply(s: State, a: nat)
    requires Overtaken(s) && Enabled(s, Reply(a))
    ensures Overtaken(Next(s, Reply(a)))
  {
    var stage := s.attempts[a].stage;
    if stage.Replaying? && stage.next < |s.consumers| {
      var s1 := StartConsumer(s, a, s.consumers[stage.next]);
      assert a in s1.attempts && a != 0;
      OvertakenReplay(s1, a, stage.next + 1);
    } else {
      OvertakenReplay(s, a, 0);
    }
  }

  lemma OvertakenReplay(s: State, a: nat, i: nat)
    requires 0 in s.attempts && s.attempts[0].stage.Releasing? && a in s.attempts && a != 0
    ensures Overtaken(ReplayFrom(s, a, i))
  {
    var s' := ReplayFrom(s, a, i);
    if i < |s.consumers| { assert a in s'.attempts; }
  }

  lemma OvertakenLoss(s: State, c: nat)
    requires Sound(s) && Overtaken(s) && !s.shutDown && Enabled(s, Lost(c))
    ensures Overtaken(Next(s, Lost(c)))
  {
    var s' := Next(s, Lost(c));
    if s.establishing {
      var a :| a in s.attempts && InTry(s.attempts[a].stage);
      assert a in s'.attempts && a != 0;
    } else if s.reconnectTimer.Some? {
      assert s.reconnectTimer.value in s'.timers;
    } else {
      assert s.nextId in s'.timers;
    }
  }

  lemma OvertakenFailure(s: State, e: Event)
    requires StartupOk(s) && Overtaken(s) && Enabled(s, e) && (e.ConnectFail? || e.Released?) && e.a != 0
    ensures Overtaken(Next(s, e))
  {
    assert s.nextId in Next(s, e).timers;
  }

  lemma OvertakenOther(s: State, e: Event)
    requires Sound(s) && StartupOk(s) && Overtaken(s) && Enabled(s, e) && !s.shutDown
    requires e.ConnectOk? || e.SetupError? || e.TimerFires? || e.ConsumeCall? || e.ConsumeReply? || e.ConsumeReject?
    ensures Overtaken(Next(s, e))
  {
    var s' := Next(s, e);
    if e.TimerFires? {
      assert s.nextId in s'.attempts && s.nextId != 0;
    } else if s.timers == map[] && s.channel.None? {
      var a :| a in s.attempts && a != 0;
      assert a in s'.attempts;
    }
  }

  lemma OvertakenStep(s: State, e: Event)
    requires Sound(s) && StartupOk(s) && Overtaken(s) && Enabled(s, e) && Next(s, e).startup.Pending?
    ensures Overtaken(Next(s, e))
  {
    assert s.startup.Pending? && !s.shutDown && s.closers == map[];
    match e
    case Reply(a) => OvertakenReply(s, a);
    case Lost(c) => OvertakenLoss(s, c);
    case ConnectFail(_) => OvertakenFailure(s, e);
    case Released(_) => OvertakenFailure(s, e);
    case ChannelClosed(_) =>
    case ConnectionClosed(_) =>
    case CloseCall =>
    case Discarded(_) =>
    case _ => OvertakenOther(s, e);
  }

  /** No half-open connection has said 'close' during its teardown in the first n steps. */
  ghost predicate QuietSoFar(states: seq<State>, events: seq<Event>, n: nat)
    requires n <= |events| <= |states|
  {
    forall k {:trigger events[k]} :: 0 <= k < n ==> !TeardownCloses(states[k], events[k])
  }

  lemma PendingStep(s: State, e: Event)
    requires Sound(s) && StartupOk(s) && s.startup.Pending? && Enabled(s, e) && Next(s, e).startup.Pending?
    requires Single(s) || Overtaken(s)
    ensures Overtaken(s) ==> Overtaken(Next(s, e))
    ensures Single(s) ==> if TeardownCloses(s, e) then Overtaken(Next(s, e)) else Single(Next(s, e))
  {
    if Overtaken(s) { OvertakenStep(s, e); }
    if Single(s) {
      if TeardownCloses(s, e) { TeardownOvertakes(s, e); } else { SingleStep(s, e); }
    }
  }

  lemma PendingRunStep(states: seq<State>, events: seq<Event>, n: nat)
    requires IsRun(states, events) && n < |events| && states[n + 1].startup.Pending?
    ensures states[n].startup.Pending?
    ensures Overtaken(states[n]) ==> Overtaken(states[n + 1])
    ensures Single(states[n]) ==>
              if TeardownCloses(states[n], events[n]) then Overtaken(states[n + 1]) else Single(states[n + 1])
  {
    RunStartup(states, events, n);
    RunStartup(states, events, n + 1);
    assert Enabled(states[n], events[n]) && states[n + 1] == Next(states[n], events[n]);
    StillPending(states[n], events[n]);
    if Single(states[n]) || Overtaken(states[n]) { PendingStep(states[n], events[n]); }
  }

  lemma {:induction false} WhilePending(states: seq<State>, events: seq<Event>, n: nat)
    requires IsRun(states, events) && n <= |events| && states[n].startup.Pending?
    ensures if QuietSoFar(states, events, n) then Single(states[n]) else Overtaken(states[n])
  {
    if n == 0 {
      RunStartup(states, events, 0);
    } else {
      PendingRunStep(states, events, n - 1);
      WhilePending(states, events, n - 1);
    }
  }

  lemma StillPending(s: State, e: Event)
    requires Enabled(s, e) && StartupOk(s) && StartupOk(Next(s, e)) && Next(s, e).startup.Pending?
    ensures s.startup.Pending?
  {
    if e.Reply? { ReplyDropsAttempts(s, e.a); }
  }

  lemma ReplyDropsAttempts(s: State, a: nat)
    requires Enabled(s, Reply(a))
    ensures Next(s, Reply(a)).attempts.Keys <= s.attempts.Keys
  {
    var stage := s.attempts[a].stage;
    if stage.Replaying? && stage.next < |s.consumers| {
      var s1 := StartConsumer(s, a, s.consumers[stage.next]);
      assert ReplayFrom(s1, a, stage.next + 1).attempts.Keys <= s.attempts.Keys;
    } else {
      assert ReplayFrom(s, a, 0).attempts.Keys <= s.attempts.Keys;
    }
  }

  lemma RejectedBy(s: State, e: Event)
    requires StartupOk(s) && s.startup.Pending? && Enabled(s, e) && Next(s, e).startup.Rejected?
    ensures e == ConnectFail(0) || e == Released(0)
  {
  }

  /** Nothing armed, installed or in flight. */
  predicate NothingLeft(s: State) { s.timers == map[] && s.channel.None? && s.attempts == map[] }

  lemma CleanRejection(s: State, e: Event)
    requires Single(s) && Enabled(s, e) && (e == ConnectFail(0) || e == Released(0)) && s.attempts[0].initial
    ensures NothingLeft(Next(s, e)) && Next(s, e).live == map[]
  {
    var s' := Next(s, e);
    assert s.timers == map[];
    assert s'.attempts.Keys == s.attempts.Keys - {0};
    assert forall c :: c in s'.live ==> c in s.live && c != 0;
  }

  lemma UncleanRejection(s: State, e: Event)
    requires Overtaken(s) && Enabled(s, e) && (e == ConnectFail(0) || e == Released(0)) && s.attempts[0].initial
    ensures !NothingLeft(Next(s, e))
  {
    if s.timers == map[] && s.channel.None? {
      var a :| a in s.attempts && a != 0;
      assert a in Next(s, e).attempts;
    }
  }

  /**
   * Exactly when a createBroker that rejects leaves nothing behind: no half-open connection has said
   * 'close' during its teardown until then. In that case no connection is left either.
   */
  lemma RejectionCleanIff(states: seq<State>, events: seq<Event>, n: nat)
    requires IsRun(states, events) && n < |events|
    requires states[n].startup.Pending? && states[n + 1].startup.Rejected?
    ensures NothingLeft(states[n + 1]) <==> QuietSoFar(states, events, n)
    ensures QuietSoFar(states, events, n) ==> states[n + 1].live == map[]
  {
    RunStartup(states, events, n);
    assert Enabled(states[n], events[n]) && states[n + 1] == Next(states[n], events[n]);
    RejectedBy(states[n], events[n]);
    WhilePending(states, events, n);
    if QuietSoFar(states, events, n) {
      CleanRejection(states[n], events[n]);
    } else {
      UncleanRejection(states[n], events[n]);
    }
  }
}
