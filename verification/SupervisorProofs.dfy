/** What every run of the supervised connection keeps. */
module SupervisorProofs {
  import opened Common
  import opened Supervisor

  // ---------------------------------------------------------------------------
  // In every run: the reconnect loop never dies silently
  // ---------------------------------------------------------------------------

  ghost predicate KeysBelow<V>(m: map<nat, V>, n: nat) { forall k :: k in m ==> k < n }

  ghost predicate IdsFresh(s: State) {
    && KeysBelow(s.attempts, s.nextId)
    && KeysBelow(s.timers, s.nextId)
    && KeysBelow(s.live, s.nextId)
    && KeysBelow(s.closers, s.nextId)
    && KeysBelow(s.consuming, s.nextId)
  }

  ghost predicate Trying(s: State) { exists a :: a in s.attempts && InTry(s.attempts[a].stage) }

  /** With no channel, somebody is still working on getting one back. */
  ghost predicate NotSilentlyDead(s: State) {
    !s.shutDown && !s.startup.Rejected? && s.channel.None? ==> s.timers != map[] || s.attempts != map[]
  }

  ghost predicate Sound(s: State) {
    && IdsFresh(s)
    && s.connection == s.channel
    && (s.establishing ==> Trying(s))
    && (s.reconnectTimer.Some? ==> s.reconnectTimer.value in s.timers)
    && (s.channel.Some? ==> s.channel.value in s.live && s.channel.value !in s.attempts)
    && (forall a :: a in s.attempts && s.attempts[a].stage.Replaying? ==> s.attempts[a].stage.next < |s.consumers|)
    && (forall a :: a in s.attempts && s.attempts[a].stage.Discarding? ==> s.shutDown)
    && (forall a :: a in s.attempts && (s.attempts[a].stage.Connecting? || s.attempts[a].stage.Discarding?) ==>
          a !in s.live)
    && (forall i :: i in s.consuming ==> s.consuming[i].0 !in s.attempts && s.consuming[i].0 < s.nextId)
    && (s.closers != map[] ==> s.shutDown)
    && NotSilentlyDead(s)
  }

  lemma StillTrying(s: State, s': State, a: nat)
    requires s.attempts == s'.attempts || s'.attempts == s.attempts - {a}
    requires a in s.attempts ==> s.attempts[a].stage.Releasing?
    requires Trying(s)
    ensures Trying(s')
  {
    var b :| b in s.attempts && InTry(s.attempts[b].stage);
    assert b in s'.attempts && InTry(s'.attempts[b].stage);
  }

  lemma SoundConnect(s: State, a: nat)
    requires Sound(s) && Enabled(s, ConnectOk(a))
    ensures Sound(Next(s, ConnectOk(a)))
  {
    var s' := Next(s, ConnectOk(a));
    assert a in s'.attempts && InTry(s'.attempts[a].stage);
  }

  lemma SoundInstall(s: State, a: nat)
    requires Sound(s) && a in s.attempts && PastCheck(s.attempts[a].stage) && a in s.live
    ensures Sound(Install(s, a))
  {
  }

  lemma SoundNextReplay(s: State, a: nat, i: nat)
    requires Sound(s) && a in s.attempts && PastCheck(s.attempts[a].stage) && a in s.live
    requires i < |s.consumers|
    ensures Sound(SetStage(s, a, Replaying(i)))
  {
    var s' := SetStage(s, a, Replaying(i));
    assert InTry(s'.attempts[a].stage);
  }

  lemma SoundStartConsumer(s: State, a: nat, r: Registration)
    requires Sound(s) && a in s.live
    ensures Sound(StartConsumer(s, a, r))
  {
    if s.establishing { StillTrying(s, StartConsumer(s, a, r), s.nextId); }
  }

  lemma SoundReplayFrom(s: State, a: nat, i: nat)
    requires Sound(s) && a in s.attempts && PastCheck(s.attempts[a].stage) && a in s.live
    ensures Sound(ReplayFrom(s, a, i))
  {
    if i < |s.consumers| { SoundNextReplay(s, a, i); } else { SoundInstall(s, a); }
  }

  lemma SoundReplayed(s: State, a: nat, i: nat)
    requires Sound(s) && a in s.attempts && s.attempts[a].stage == Replaying(i) && a in s.live && i < |s.consumers|
    ensures Sound(ReplayFrom(StartConsumer(s, a, s.consumers[i]), a, i + 1))
  {
    SoundStartConsumer(s, a, s.consumers[i]);
    SoundReplayFrom(StartConsumer(s, a, s.consumers[i]), a, i + 1);
  }

  lemma SoundReply(s: State, a: nat)
    requires Sound(s) && Enabled(s, Reply(a))
    ensures Sound(Next(s, Reply(a)))
  {
    if s.attempts[a].stage.Replaying? {
      SoundReplayed(s, a, s.attempts[a].stage.next);
    } else {
      SoundReplayFrom(s, a, 0);
    }
  }

  /** A failing establish() has cleared establishing, unless some other call has set it since. */
  lemma SoundFail(s: State, a: nat)
    requires Sound(s) && a in s.attempts && (s.establishing ==> s.attempts[a].stage.Releasing?)
    ensures Sound(Fail(s, a))
  {
    var s1 := s.(attempts := s.attempts - {a});
    if s.establishing { StillTrying(s, s1.(startup := Rejected), a); }
    assert Sound(s1.(startup := Rejected));
    if !s.attempts[a].initial { SoundSchedule(s1); }
  }

  /** Arming a timer makes up for whatever else has stopped working on the connection. */
  lemma SoundSchedule(s: State)
    requires Sound(s.(startup := Rejected))
    ensures Sound(Schedule(s))
  {
    assert s.nextId in Schedule(s).timers;
    if s.establishing { StillTrying(s.(startup := Rejected), Schedule(s), s.nextId); }
  }

  lemma SoundFailure(s: State, e: Event)
    requires Sound(s) && Enabled(s, e) && (e.ConnectFail? || e.Released? || e.SetupError? || e.Discarded?)
    ensures Sound(Next(s, e))
  {
    match e
    case ConnectFail(a) => SoundFail(s.(establishing := false), a);
    case Released(a) =>
      var s1 := s.(live := s.live - {a});
      assert Sound(s1) by { if s.establishing { StillTrying(s, s1, a); } }
      SoundFail(s1, a);
    case SetupError(a) => assert a in Next(s, e).attempts;
    case Discarded(a) =>
  }

  lemma SoundTimer(s: State, t: nat)
    requires Sound(s) && Enabled(s, TimerFires(t))
    ensures Sound(Next(s, TimerFires(t)))
  {
    var s' := Next(s, TimerFires(t));
    assert s.nextId in s'.attempts && InTry(s'.attempts[s.nextId].stage);
  }

  lemma SoundLost(s: State, c: nat)
    requires Sound(s) && Enabled(s, Lost(c))
    ensures Sound(Next(s, Lost(c)))
  {
    var s' := Next(s, Lost(c));
    if s.establishing { StillTrying(s, s', s.nextId); }
    if s.reconnectTimer.None? && !s.establishing && !s.shutDown { assert s.nextId in s'.timers; }
  }

  lemma SoundConsume(s: State, e: Event)
    requires Sound(s) && Enabled(s, e) && (e.ConsumeCall? || e.ConsumeReply? || e.ConsumeReject?)
    ensures Sound(Next(s, e))
  {
    if s.establishing { StillTrying(s, Next(s, e), s.nextId); }
  }

  lemma SoundCloseCall(s: State)
    requires Sound(s) && Enabled(s, CloseCall)
    ensures Sound(Next(s, CloseCall))
  {
    if s.establishing { StillTrying(s, Next(s, CloseCall), s.nextId); }
  }

  lemma SoundClose(s: State, e: Event)
    requires Sound(s) && Enabled(s, e) && (e.ChannelClosed? || e.ConnectionClosed?)
    ensures Sound(Next(s, e))
  {
    if s.establishing { StillTrying(s, Next(s, e), s.nextId); }
  }

  lemma SoundStep(s: State, e: Event)
    requires Sound(s) && Enabled(s, e)
    ensures Sound(Next(s, e))
  {
    match e
    case ConnectOk(a) => SoundConnect(s, a);
    case Reply(a) => SoundReply(s, a);
    case TimerFires(t) => SoundTimer(s, t);
    case Lost(c) => SoundLost(s, c);
    case ConnectFail(_) => SoundFailure(s, e);
    case Released(_) => SoundFailure(s, e);
    case SetupError(_) => SoundFailure(s, e);
    case Discarded(_) => SoundFailure(s, e);
    case ConsumeCall(_) => SoundConsume(s, e);
    case ConsumeReply(_) => SoundConsume(s, e);
    case ConsumeReject(_) => SoundConsume(s, e);
    case CloseCall => SoundCloseCall(s);
    case _ => SoundClose(s, e);
  }

  lemma {:induction false} RunSound(states: seq<State>, events: seq<Event>, i: nat)
    requires IsRun(states, events) && i < |states|
    ensures Sound(states[i])
  {
    if i == 0 {
      assert 0 in Init().attempts && InTry(Init().attempts[0].stage);
    } else {
      RunSound(states, events, i - 1);
      SoundStep(states[i - 1], events[i - 1]);
    }
  }

  /**
   * No silent death: whatever is lost, times out or fails, and in whatever order, a broker that was
   * neither closed nor refused at startup and that has no channel has a timer armed or an
   * establish() in flight.
   */
  lemma NoSilentDeath(states: seq<State>, events: seq<Event>, i: nat)
    requires IsRun(states, events) && i < |states|
    requires !states[i].shutDown && !states[i].startup.Rejected? && states[i].channel.None?
    ensures states[i].timers != map[] || states[i].attempts != map[]
  {
    RunSound(states, events, i);
  }

  // ---------------------------------------------------------------------------
  // With quiet teardowns: one supervisor
  // ---------------------------------------------------------------------------

  /** At most one of {live channel, armed timer, establish() in flight}, and at most one of each. */
  ghost predicate OneSupervisor(s: State) {
    && (s.channel.Some? ==> s.timers == map[] && s.attempts == map[])
    && (s.timers != map[] ==> s.attempts == map[])
    && (forall t, u :: t in s.timers && u in s.timers ==> t == u)
    && (forall a, b :: a in s.attempts && b in s.attempts ==> a == b)
  }

  ghost predicate Single(s: State) {
    && Sound(s)
    && OneSupervisor(s)
    && (forall t :: t in s.timers ==> s.reconnectTimer == Some(t))
    && (forall a :: a in s.attempts ==> (s.establishing <==> InTry(s.attempts[a].stage)))
    && (forall c :: c in s.live ==> s.channel == Some(c) || c in s.attempts)
    && (s.closers != map[] ==> s.attempts == map[] && s.timers == map[])
    && (forall i :: i in s.closers && s.channel.Some? ==> s.closers[i].c == s.channel.value)
  }

  lemma SingleSetup(s: State, e: Event)
    requires Single(s) && Enabled(s, e) && (e.ConnectOk? || e.SetupError?)
    ensures Single(Next(s, e))
  {
    SoundStep(s, e);
  }

  lemma SingleReplayFrom(s: State, a: nat, i: nat)
    requires Single(s) && a in s.attempts && PastCheck(s.attempts[a].stage) && a in s.live
    requires Sound(ReplayFrom(s, a, i))
    ensures Single(ReplayFrom(s, a, i))
  {
    var s' := ReplayFrom(s, a, i);
    if a !in s'.attempts { assert s'.attempts == map[]; }
  }

  lemma SingleReply(s: State, a: nat)
    requires Single(s) && Enabled(s, Reply(a))
    ensures Single(Next(s, Reply(a)))
  {
    SoundReply(s, a);
    match s.attempts[a].stage
    case Preparing => SingleReplayFrom(s, a, 0);
    case Replaying(i) =>
      var s1 := StartConsumer(s, a, s.consumers[i]);
      SoundStartConsumer(s, a, s.consumers[i]);
      assert Single(s1);
      SingleReplayFrom(s1, a, i + 1);
  }

  lemma SingleFailure(s: State, e: Event)
    requires Single(s) && Enabled(s, e) && (e.ConnectFail? || e.Discarded? || e.Released?)
    ensures Single(Next(s, e))
  {
    SoundFailure(s, e);
    assert Next(s, e).attempts == map[];
  }

  lemma SingleTimer(s: State, t: nat)
    requires Single(s) && Enabled(s, TimerFires(t))
    ensures Single(Next(s, TimerFires(t)))
  {
    SoundStep(s, TimerFires(t));
    assert Next(s, TimerFires(t)).timers == map[];
  }

  lemma SingleLost(s: State, c: nat)
    requires Single(s) && Enabled(s, Lost(c)) && !TeardownCloses(s, Lost(c))
    ensures Single(Next(s, Lost(c)))
  {
    SoundStep(s, Lost(c));
  }

  lemma SingleConsume(s: State, e: Event)
    requires Single(s) && Enabled(s, e) && (e.ConsumeCall? || e.ConsumeReply? || e.ConsumeReject?)
    ensures Single(Next(s, e))
  {
    SoundStep(s, e);
  }

  lemma SingleClose(s: State, e: Event)
    requires Single(s) && Enabled(s, e) && (e.CloseCall? || e.ChannelClosed? || e.ConnectionClosed?)
    ensures Single(Next(s, e))
  {
    SoundStep(s, e);
    if e.CloseCall? { assert Next(s, e).timers == map[]; }
  }

  lemma SingleStep(s: State, e: Event)
    requires Single(s) && Enabled(s, e) && !TeardownCloses(s, e)
    ensures Single(Next(s, e))
  {
    match e
    case ConnectOk(_) => SingleSetup(s, e);
    case Reply(a) => SingleReply(s, a);
    case SetupError(_) => SingleSetup(s, e);
    case ConnectFail(_) => SingleFailure(s, e);
    case Discarded(_) => SingleFailure(s, e);
    case Released(_) => SingleFailure(s, e);
    case TimerFires(t) => SingleTimer(s, t);
    case Lost(c) => SingleLost(s, c);
    case ConsumeCall(_) => SingleConsume(s, e);
    case ConsumeReply(_) => SingleConsume(s, e);
    case ConsumeReject(_) => SingleConsume(s, e);
    case _ => SingleClose(s, e);
  }

  lemma {:induction false} RunSingle(states: seq<State>, events: seq<Event>, i: nat)
    requires IsRun(states, events) && QuietTeardown(states, events) && i < |states|
    ensures Single(states[i])
  {
    if i == 0 {
      RunSound(states, events, 0);
    } else {
      RunSingle(states, events, i - 1);
      SingleStep(states[i - 1], events[i - 1]);
    }
  }

  /** The guards really dedupe reconnect loops, and the timer variable names the armed timer exactly. */
  lemma SingleSupervisor(states: seq<State>, events: seq<Event>, i: nat)
    requires IsRun(states, events) && QuietTeardown(states, events) && i < |states|
    ensures OneSupervisor(states[i])
    ensures states[i].reconnectTimer.Some? <==> |states[i].timers| == 1
  {
    RunSingle(states, events, i);
    var s := states[i];
    if s.reconnectTimer.Some? {
      assert s.timers.Keys == {s.reconnectTimer.value};
      assert |s.timers.Keys| == 1;
    } else {
      assert s.timers == map[];
    }
  }

  /** A teardown that raises 'close' leaves a timer armed beside the establish() still in its catch block. */
  lemma LoudTeardownDuplicates(s: State, e: Event)
    requires Single(s) && Enabled(s, e) && TeardownCloses(s, e)
    ensures !OneSupervisor(Next(s, e))
  {
    assert s.nextId in Next(s, e).timers && e.c in Next(s, e).attempts;
  }

  lemma QuietIfStillSingle(s: State, e: Event)
    requires Single(s) && Enabled(s, e) && OneSupervisor(Next(s, e))
    ensures !TeardownCloses(s, e) && Single(Next(s, e))
  {
    if TeardownCloses(s, e) { LoudTeardownDuplicates(s, e); }
    SingleStep(s, e);
  }

  lemma {:induction false} SingleSoFar(states: seq<State>, events: seq<Event>, n: nat)
    requires IsRun(states, events) && n < |states|
    requires forall i :: 0 <= i < |states| ==> OneSupervisor(states[i])
    ensures Single(states[n])
  {
    if n == 0 {
      RunSound(states, events, 0);
    } else {
      SingleSoFar(states, events, n - 1);
      QuietIfStillSingle(states[n - 1], events[n - 1]);
    }
  }

  /** Exactly when supervision stays single: no half-open connection says 'close' while it is torn down. */
  lemma SingleIffQuiet(states: seq<State>, events: seq<Event>)
    requires IsRun(states, events)
    ensures (forall i :: 0 <= i < |states| ==> OneSupervisor(states[i])) <==> QuietTeardown(states, events)
  {
    if forall i :: 0 <= i < |states| ==> OneSupervisor(states[i]) {
      forall i {:trigger events[i]} | 0 <= i < |events|
        ensures !TeardownCloses(states[i], events[i])
      {
        SingleSoFar(states, events, i);
        QuietIfStillSingle(states[i], events[i]);
      }
    }
    if QuietTeardown(states, events) {
      forall i | 0 <= i < |states|
        ensures OneSupervisor(states[i])
      {
        RunSingle(states, events, i);
      }
    }
  }

  /**
   * It does happen: when the very first setup fails and its teardown says 'close', createBroker
   * rejects and yet leaves a reconnect timer armed.
   */
  lemma LoudTeardownAtStartup() returns (states: seq<State>, events: seq<Event>)
    ensures IsRun(states, events) && !QuietTeardown(states, events)
    ensures var last := states[|events|]; last.startup.Rejected? && last.timers != map[]
  {
    var s0 := Init();
    var s1 := Next(s0, ConnectOk(0));
    var s2 := Next(s1, SetupError(0));
    var s3 := Next(s2, Lost(0));
    var s4 := Next(s3, Released(0));
    states := [s0, s1, s2, s3, s4];
    events := [ConnectOk(0), SetupError(0), Lost(0), Released(0)];
    assert TeardownCloses(states[2], events[2]);
    assert 1 in s4.timers;
  }

  // ---------------------------------------------------------------------------
  // With quiet teardowns: the replay is exact
  // ---------------------------------------------------------------------------

  /** What the server runs on a connection, in terms of the registry. */
  ghost predicate Replayed(s: State) {
    && (s.channel.Some? && s.closers == map[] ==>
          s.channel.value in s.live && s.live[s.channel.value] == s.consumers)
    && (forall a :: a in s.attempts && a in s.live && s.attempts[a].stage.Preparing? ==> s.live[a] == [])
    && (forall a :: a in s.attempts && a in s.live && s.attempts[a].stage.Replaying? ==>
          s.attempts[a].stage.next < |s.consumers| && s.live[a] == s.consumers[..s.attempts[a].stage.next])
  }

  lemma ReplayedReply(s: State, a: nat)
    requires Single(s) && Replayed(s) && Enabled(s, Reply(a))
    ensures Replayed(Next(s, Reply(a)))
  {
    var s' := Next(s, Reply(a));
    match s.attempts[a].stage
    case Preparing =>
    case Replaying(i) =>
      assert s'.live[a] == s.consumers[..i] + [s.consumers[i]] == s.consumers[..i + 1];
      if a !in s'.attempts { assert s.consumers[..i + 1] == s.consumers; }
  }

  lemma ReplayedStep(s: State, e: Event)
    requires Single(s) && Replayed(s) && Enabled(s, e) && !TeardownCloses(s, e)
    ensures Replayed(Next(s, e))
  {
    match e
    case Reply(a) => ReplayedReply(s, a);
    case ConsumeReply(i) =>
      assert s.channel == Some(s.consuming[i].0);
    case ChannelClosed(i) =>
      if Next(s, e).closers == map[] { assert i !in Next(s, e).closers; }
    case ConnectOk(_) =>
    case ConnectFail(_) => ReplayedFail(s, e);
    case Released(_) => ReplayedFail(s, e);
    case _ => ReplayedOther(s, e);
  }

  lemma ReplayedFail(s: State, e: Event)
    requires Single(s) && Replayed(s) && Enabled(s, e) && (e.ConnectFail? || e.Released?)
    ensures Replayed(Next(s, e))
  {
  }

  lemma ReplayedOther(s: State, e: Event)
    requires Single(s) && Replayed(s) && Enabled(s, e) && !TeardownCloses(s, e)
    requires !e.Reply? && !e.ConsumeReply? && !e.ChannelClosed? && !e.ConnectOk? && !e.ConnectFail? && !e.Released?
    ensures Replayed(Next(s, e))
  {
  }

  lemma {:induction false} RunReplayed(states: seq<State>, events: seq<Event>, i: nat)
    requires IsRun(states, events) && QuietTeardown(states, events) && i < |states|
    ensures Replayed(states[i])
  {
    if i > 0 {
      RunReplayed(states, events, i - 1);
      RunSingle(states, events, i - 1);
      ReplayedStep(states[i - 1], events[i - 1]);
    }
  }

  /**
   * Replay exactness: after any number of losses, the consumers running on the channel are the
   * registry, in order and each once, as long as no close() is under way. And no consumer runs on
   * any other connection except the one a replay in flight is filling.
   */
  lemma ReplayExactness(states: seq<State>, events: seq<Event>, i: nat)
    requires IsRun(states, events) && QuietTeardown(states, events) && i < |states|
    requires states[i].channel.Some? && states[i].closers == map[]
    ensures states[i].live == map[states[i].channel.value := states[i].consumers]
  {
    RunReplayed(states, events, i);
    RunSingle(states, events, i);
    assert states[i].live.Keys == {states[i].channel.value};
  }

  lemma ReplayFrame(s: State, a: nat, i: nat)
    requires a in s.attempts
    ensures var s' := ReplayFrom(s, a, i);
            s'.consumers == s.consumers && s'.timers == s.timers && s'.reconnectTimer == s.reconnectTimer
  {
  }

  /** What close() leaves alone. */
  lemma CloseFrame(s: State, call: Option<nat>)
    ensures var s' := AfterChannel(s, call);
            && s'.consumers == s.consumers && s'.timers == s.timers && s'.reconnectTimer == s.reconnectTimer
            && s'.reconnectAttempt == s.reconnectAttempt && s'.consuming == s.consuming && s.nextId <= s'.nextId
  {
    if s.connection.None? {
      assert AfterChannel(s, call) == s.(connection := None, channel := None, closers := AfterChannel(s, call).closers);
    }
  }

  lemma RegistryKeptReply(s: State, a: nat)
    requires Enabled(s, Reply(a))
    ensures Next(s, Reply(a)).consumers == s.consumers
  {
    var stage := s.attempts[a].stage;
    if stage.Replaying? && stage.next < |s.consumers| {
      ReplayFrame(StartConsumer(s, a, s.consumers[stage.next]), a, stage.next + 1);
    } else {
      ReplayFrame(s, a, 0);
    }
  }

  lemma RegistryKeptClose(s: State)
    requires Enabled(s, CloseCall)
    ensures Next(s, CloseCall).consumers == s.consumers
  {
    CloseFrame(s.(shutDown := true,
                  timers := if s.reconnectTimer.Some? then s.timers - {s.reconnectTimer.value} else s.timers,
                  reconnectTimer := None), None);
  }

  lemma RegistryKeptChannel(s: State, i: nat)
    requires Enabled(s, ChannelClosed(i))
    ensures Next(s, ChannelClosed(i)).consumers == s.consumers
  {
    CloseFrame(ChannelGone(s, s.closers[i].c), Some(i));
  }

  /** The registry only ever grows, and only by a consume() whose consumer did start. */
  lemma RegistryGrowth(s: State, e: Event)
    requires Enabled(s, e)
    ensures s.consumers <= Next(s, e).consumers
    ensures Next(s, e).consumers != s.consumers <==> e.ConsumeReply?
  {
    if e.ConsumeReply? {
      assert Next(s, e).consumers == s.consumers + [s.consuming[e.i].1];
    } else if e.Reply? {
      RegistryKeptReply(s, e.a);
    } else if e.CloseCall? {
      RegistryKeptClose(s);
    } else if e.ChannelClosed? {
      RegistryKeptChannel(s, e.i);
    } else {
      assert Next(s, e).consumers == s.consumers;
    }
  }

  /** A consume() without a channel throws and leaves everything as it was. */
  lemma RefusedConsume(s: State, r: Registration)
    requires Enabled(s, ConsumeCall(r)) && s.channel.None?
    ensures Next(s, ConsumeCall(r)) == s
  {
  }

  // ---------------------------------------------------------------------------
  // Building runs
  // ---------------------------------------------------------------------------

  lemma RunExtends(states: seq<State>, events: seq<Event>, e: Event)
    requires IsRun(states, events) && Enabled(states[|events|], e)
    ensures IsRun(states + [Next(states[|events|], e)], events + [e])
  {
  }

  lemma QuietExtends(states: seq<State>, events: seq<Event>, e: Event)
    requires IsRun(states, events) && QuietTeardown(states, events)
    requires Enabled(states[|events|], e) && !TeardownCloses(states[|events|], e)
    ensures QuietTeardown(states + [Next(states[|events|], e)], events + [e])
  {
  }

  /** A broker without consumers that has just come up. */
  function Up(): State {
    State(Some(0), Some(0), [], false, None, 0, false,
          Returned, map[], map[], map[], map[], map[0 := []], {}, 1)
  }

  /** The same after a loss, when its first reconnect attempt has begun. */
  function Retry(): State {
    State(None, None, [], true, None, 1, false,
          Returned, map[2 := Attempt(false, Connecting)], map[], map[], map[], map[], {}, 3)
  }

  lemma UpReached() returns (states: seq<State>, events: seq<Event>)
    ensures IsRun(states, events) && QuietTeardown(states, events) && states[|events|] == Up()
  {
    var s1 := Next(Init(), ConnectOk(0));
    states, events := [Init(), s1, Next(s1, Reply(0))], [ConnectOk(0), Reply(0)];
  }

  lemma RetryReached() returns (states: seq<State>, events: seq<Event>)
    ensures IsRun(states, events) && QuietTeardown(states, events) && states[|events|] == Retry()
  {
    states, events := UpReached();
    var s3 := Next(Up(), Lost(0));
    RunExtends(states, events, Lost(0));
    QuietExtends(states, events, Lost(0));
    states, events := states + [s3], events + [Lost(0)];
    RunExtends(states, events, TimerFires(1));
    QuietExtends(states, events, TimerFires(1));
    states, events := states + [Next(s3, TimerFires(1))], events + [TimerFires(1)];
  }
}
