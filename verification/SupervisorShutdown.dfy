/** close() against establish() calls still in flight, and the backoff between attempts. */
module SupervisorShutdown {
  import opened Common
  import opened Supervisor
  import opened SupervisorProofs
  import opened SupervisorTimer

  // ---------------------------------------------------------------------------
  // Installs after close()
  // ---------------------------------------------------------------------------

  /** Event e is the last setup reply of attempt e.a: it installs a channel. */
  predicate Installs(s: State, e: Event)
    requires Enabled(s, e)
  {
    e.Reply? && e.a !in Next(s, e).attempts
  }

  /** The attempts that were beyond their only look at shutDown. */
  function Committed(s: State): set<nat> { set a | a in s.attempts && PastCheck(s.attempts[a].stage) }

  lemma ReplyUsesUp(s: State, e: Event)
    requires Enabled(s, e) && s.shutDown && e.Reply?
    ensures Next(s, e).shutDown
    ensures e.a in Committed(s) && Committed(Next(s, e)) <= Committed(s)
    ensures Installs(s, e) ==> Committed(Next(s, e)) <= Committed(s) - {e.a}
  {
    match s.attempts[e.a].stage
    case Preparing =>
    case Replaying(i) =>
  }

  /** After shutdown no attempt joins the committed ones, and an install uses one of them up. */
  lemma CommittedShrinks(s: State, e: Event)
    requires Enabled(s, e) && s.shutDown
    ensures Next(s, e).shutDown
    ensures Committed(Next(s, e)) <= Committed(s)
    ensures Installs(s, e) ==> e.a in Committed(s) && Committed(Next(s, e)) <= Committed(s) - {e.a}
  {
    match e
    case Reply(_) => ReplyUsesUp(s, e);
    case Lost(_) =>
    case ConnectOk(_) =>
    case _ =>
  }

  lemma {:induction false} CommittedOverRun(states: seq<State>, events: seq<Event>, i: nat, j: nat)
    requires IsRun(states, events) && i <= j < |states| && states[i].shutDown
    ensures states[j].shutDown && Committed(states[j]) <= Committed(states[i])
  {
    if i < j {
      CommittedOverRun(states, events, i, j - 1);
      CommittedShrinks(states[j - 1], events[j - 1]);
    }
  }

  /** After close(), an attempt that had not yet passed its post-connect check never installs. */
  lemma OnlyCommittedInstall(states: seq<State>, events: seq<Event>, i: nat, j: nat)
    requires IsRun(states, events) && i <= j < |events| && states[i].shutDown
    requires Installs(states[j], events[j])
    ensures events[j].a in states[i].attempts && PastCheck(states[i].attempts[events[j].a].stage)
  {
    CommittedOverRun(states, events, i, j);
    CommittedShrinks(states[j], events[j]);
  }

  ghost function InstallCount(states: seq<State>, events: seq<Event>, i: nat): nat
    requires IsRun(states, events) && i <= |events|
    decreases |events| - i
  {
    if i == |events| then 0
    else (if Installs(states[i], events[i]) then 1 else 0) + InstallCount(states, events, i + 1)
  }

  lemma {:induction false} InstallsBounded(states: seq<State>, events: seq<Event>, i: nat)
    requires IsRun(states, events) && i <= |events| && states[i].shutDown
    ensures InstallCount(states, events, i) <= |Committed(states[i])|
    decreases |events| - i
  {
    if i < |events| {
      CommittedShrinks(states[i], events[i]);
      InstallsBounded(states, events, i + 1);
      if Installs(states[i], events[i]) {
        SubsetSize(Committed(states[i + 1]), Committed(states[i]) - {events[i].a});
      } else {
        SubsetSize(Committed(states[i + 1]), Committed(states[i]));
      }
    }
  }

  /** With quiet teardowns, at most one install follows close(), however long the run goes on. */
  lemma AtMostOneInstallAfterClose(states: seq<State>, events: seq<Event>, i: nat)
    requires IsRun(states, events) && QuietTeardown(states, events) && i <= |events| && states[i].shutDown
    ensures InstallCount(states, events, i) <= 1
  {
    RunSingle(states, events, i);
    InstallsBounded(states, events, i);
    var c := Committed(states[i]);
    if c != {} {
      var a :| a in c;
      assert c == {a};
    }
  }

  /** The loop is over: nothing is installed, armed or on its way, except a connection being thrown away. */
  ghost predicate Ended(s: State) {
    && s.shutDown && s.channel.None? && s.timers == map[]
    && forall a :: a in s.attempts ==> s.attempts[a].stage.Discarding?
  }

  lemma EndedStep(s: State, e: Event)
    requires Enabled(s, e) && Ended(s) && Sound(s)
    ensures Ended(Next(s, e)) && Next(s, e).attempts.Keys <= s.attempts.Keys
  {
  }

  /**
   * After close(), a connect that still succeeds is closed again and ends the reconnect loop for
   * good: from then on there is never a channel, a timer or another attempt.
   */
  lemma {:induction false} LateConnectEndsLoop(states: seq<State>, events: seq<Event>, i: nat, j: nat)
    requires IsRun(states, events) && QuietTeardown(states, events) && i < j < |states|
    requires states[i].shutDown && events[i].ConnectOk?
    ensures Ended(states[j]) && states[j].attempts.Keys <= {events[i].a}
  {
    if i + 1 == j {
      RunSingle(states, events, i);
      assert forall b :: b in states[i].attempts ==> b == events[i].a;
    } else {
      LateConnectEndsLoop(states, events, i, j - 1);
      RunSound(states, events, j - 1);
      EndedStep(states[j - 1], events[j - 1]);
    }
  }

  /** After a close(): attempt a has gone, or its connection is being thrown away. */
  ghost predicate ThrownAway(s: State, a: nat) {
    s.shutDown && a < s.nextId && (a in s.attempts ==> s.attempts[a].stage.Discarding?)
  }

  lemma ThrownAwayReply(s: State, b: nat, a: nat)
    requires Enabled(s, Reply(b)) && ThrownAway(s, a)
    ensures ThrownAway(Next(s, Reply(b)), a)
  {
    var stage := s.attempts[b].stage;
    if stage.Replaying? && stage.next < |s.consumers| {
      var s1 := StartConsumer(s, b, s.consumers[stage.next]);
      assert ThrownAway(s1, a) && ThrownAway(ReplayFrom(s1, b, stage.next + 1), a);
    } else {
      assert ThrownAway(ReplayFrom(s, b, 0), a);
    }
  }

  lemma ThrownAwayClose(s: State, e: Event, a: nat)
    requires Enabled(s, e) && ThrownAway(s, a) && (e.CloseCall? || e.ChannelClosed?)
    ensures ThrownAway(Next(s, e), a)
  {
  }

  lemma ThrownAwayStep(s: State, e: Event, a: nat)
    requires Enabled(s, e) && ThrownAway(s, a)
    ensures ThrownAway(Next(s, e), a)
    ensures e.Reply? ==> e.a != a
  {
    if e.Reply? {
      ThrownAwayReply(s, e.a, a);
    } else if e.CloseCall? || e.ChannelClosed? {
      ThrownAwayClose(s, e, a);
    }
  }

  /**
   * Whatever teardowns do: a connect that succeeds after close() is thrown away, never installs a
   * channel, and its attempt ends without scheduling another.
   */
  lemma {:induction false} LateConnectDiscarded(states: seq<State>, events: seq<Event>, i: nat, j: nat)
    requires IsRun(states, events) && i < j < |states|
    requires states[i].shutDown && events[i].ConnectOk?
    ensures ThrownAway(states[j], events[i].a)
    ensures j < |events| && Installs(states[j], events[j]) ==> events[j].a != events[i].a
    ensures j < |events| && events[j] == Discarded(events[i].a) ==>
              events[i].a !in states[j + 1].attempts && states[j + 1].timers == states[j].timers
  {
    if i + 1 == j {
      RunSound(states, events, i);
    } else {
      LateConnectDiscarded(states, events, i, j - 1);
      ThrownAwayStep(states[j - 1], events[j - 1], events[i].a);
    }
    if j < |events| { ThrownAwayStep(states[j], events[j], events[i].a); }
  }

  // ---------------------------------------------------------------------------
  // A finished close()
  // ---------------------------------------------------------------------------

  /** Shut down for good: nothing installed, armed or in flight. */
  predicate Over(s: State) { s.shutDown && s.channel.None? && s.timers == map[] && s.attempts == map[] }

  /** The same, but for the channel that a close() still in progress is about to drop. */
  ghost predicate Closing(s: State) {
    s.shutDown && s.timers == map[] && s.attempts == map[] && (s.channel.Some? ==> s.closers != map[])
  }

  lemma ClosingCloses(s: State, e: Event)
    requires Sound(s) && Closing(s) && Enabled(s, e) && (e.CloseCall? || e.ChannelClosed? || e.ConnectionClosed?)
    ensures Closing(Next(s, e))
  {
    var s' := Next(s, e);
    if e.CloseCall? && s.channel.Some? { assert s.nextId in s'.closers; }
    if e.ChannelClosed? && s.connection.Some? { assert e.i in s'.closers; }
  }

  lemma ClosingStep(s: State, e: Event)
    requires Sound(s) && Closing(s) && Enabled(s, e)
    ensures Closing(Next(s, e))
  {
    if e.CloseCall? || e.ChannelClosed? || e.ConnectionClosed? { ClosingCloses(s, e); }
  }

  lemma CloseBegins(s: State)
    requires ExactlyOneScheduled(s) && Enabled(s, CloseCall) && s.attempts == map[]
    ensures Closing(Next(s, CloseCall))
  {
    var s' := Next(s, CloseCall);
    assert s'.timers == map[];
    if s.channel.Some? { assert s.nextId in s'.closers; }
  }

  /**
   * In any run: a close() called with no establish() in flight, while reconnectTimer names the only
   * armed timer, is final; once it is over there is never a timer, an attempt or a channel again.
   */
  lemma {:induction false} CloseIsFinal(states: seq<State>, events: seq<Event>, i: nat, j: nat)
    requires IsRun(states, events) && i < j < |states|
    requires events[i].CloseCall? && states[i].attempts == map[] && ExactlyOneScheduled(states[i])
    ensures Closing(states[j])
    ensures states[j].closers == map[] ==> Over(states[j])
  {
    if i + 1 == j {
      CloseBegins(states[i]);
    } else {
      CloseIsFinal(states, events, i, j - 1);
      RunSound(states, events, j - 1);
      ClosingStep(states[j - 1], events[j - 1]);
    }
  }

  /**
   * Exactly when the reconnect loop does not fight a deliberate shutdown: with quiet teardowns, from
   * the end of the first close() on there is never a timer, an attempt or a channel, if and only if
   * no establish() is in flight when close() is called.
   */
  lemma CloseIsFinalIff(states: seq<State>, events: seq<Event>, i: nat)
    requires IsRun(states, events) && QuietTeardown(states, events) && i < |events|
    requires events[i].CloseCall? && !states[i].shutDown
    ensures (forall j :: i < j < |states| && states[j].closers == map[] ==> Over(states[j])) <==>
            states[i].attempts == map[]
  {
    RunSingle(states, events, i);
    var s := states[i];
    if s.attempts != map[] {
      assert states[i + 1].closers == map[] && states[i + 1].attempts == s.attempts;
    } else {
      forall j | i < j < |states| && states[j].closers == map[]
        ensures Over(states[j])
      {
        QuietIsExact(states, events, i);
        CloseIsFinal(states, events, i, j);
      }
    }
  }

  /** An attempt past its check when close() is called leaves a live channel behind. */
  lemma ChannelAfterClose() returns (states: seq<State>, events: seq<Event>)
    ensures IsRun(states, events) && QuietTeardown(states, events)
    ensures var last := states[|events|];
            last.shutDown && last.closers == map[] && last.channel.Some? && last.channel.value in last.live
  {
    states, events := RetryReached();
    var s5 := Next(Retry(), ConnectOk(2));
    RunExtends(states, events, ConnectOk(2));
    QuietExtends(states, events, ConnectOk(2));
    states, events := states + [s5], events + [ConnectOk(2)];
    var s6 := Next(s5, CloseCall);
    RunExtends(states, events, CloseCall);
    QuietExtends(states, events, CloseCall);
    states, events := states + [s6], events + [CloseCall];
    assert s6 == State(None, None, [], true, None, 1, true,
                       Returned, map[2 := Attempt(false, Preparing)], map[], map[], map[], map[2 := []], {}, 3);
    RunExtends(states, events, Reply(2));
    QuietExtends(states, events, Reply(2));
    states, events := states + [Next(s6, Reply(2))], events + [Reply(2)];
  }

  // ---------------------------------------------------------------------------
  // Backoff
  // ---------------------------------------------------------------------------

  /** The delay of the reconnect a step schedules, if it schedules one: nextId names no older timer. */
  function Scheduled(s: State, e: Event): seq<nat>
    requires Enabled(s, e)
  {
    if s.nextId in Next(s, e).timers then [Next(s, e).timers[s.nextId]] else []
  }

  /** The delays scheduled since the last install, over the first n events of a run. */
  ghost function Backoffs(states: seq<State>, events: seq<Event>, n: nat): seq<nat>
    requires IsRun(states, events) && n <= |events|
  {
    if n == 0 then []
    else if Installs(states[n - 1], events[n - 1]) then []
    else Backoffs(states, events, n - 1) + Scheduled(states[n - 1], events[n - 1])
  }

  function Delays(n: nat): seq<nat> { seq(n, (k: nat) => Delay(k)) }

  lemma DelaysExtend(n: nat)
    ensures Delays(n + 1) == Delays(n) + [Delay(n)]
  {
  }

  /** Only these three may schedule. */
  predicate MaySchedule(e: Event) { e.Lost? || e.ConnectFail? || e.Released? }

  lemma ScheduleStep(s: State, e: Event)
    requires Enabled(s, e) && KeysBelow(s.timers, s.nextId) && MaySchedule(e)
    ensures || (Scheduled(s, e) == [] && Next(s, e).reconnectAttempt == s.reconnectAttempt)
            || (Scheduled(s, e) == [Delay(s.reconnectAttempt)] && Next(s, e).reconnectAttempt == s.reconnectAttempt + 1)
  {
    match e
    case Lost(_) =>
    case ConnectFail(_) =>
    case Released(_) =>
  }

  lemma ReplyStep(s: State, e: Event)
    requires Enabled(s, e) && KeysBelow(s.timers, s.nextId) && e.Reply?
    ensures Installs(s, e) ==> Next(s, e).reconnectAttempt == 0
    ensures !Installs(s, e) ==> Scheduled(s, e) == [] && Next(s, e).reconnectAttempt == s.reconnectAttempt
  {
    match s.attempts[e.a].stage
    case Preparing =>
    case Replaying(i) =>
  }

  lemma CloseCallStep(s: State)
    requires Enabled(s, CloseCall) && KeysBelow(s.timers, s.nextId)
    ensures Scheduled(s, CloseCall) == [] && Next(s, CloseCall).reconnectAttempt == s.reconnectAttempt
  {
    CloseFrame(s.(shutDown := true,
                  timers := if s.reconnectTimer.Some? then s.timers - {s.reconnectTimer.value} else s.timers,
                  reconnectTimer := None), None);
  }

  lemma ChannelClosedStep(s: State, i: nat)
    requires Enabled(s, ChannelClosed(i)) && KeysBelow(s.timers, s.nextId)
    ensures Scheduled(s, ChannelClosed(i)) == [] && Next(s, ChannelClosed(i)).reconnectAttempt == s.reconnectAttempt
  {
    CloseFrame(ChannelGone(s, s.closers[i].c), Some(i));
  }

  lemma OtherStep(s: State, e: Event)
    requires Enabled(s, e) && KeysBelow(s.timers, s.nextId) && !MaySchedule(e) && !e.Reply?
    ensures Scheduled(s, e) == [] && Next(s, e).reconnectAttempt == s.reconnectAttempt
  {
    if e.CloseCall? {
      CloseCallStep(s);
    } else if e.ChannelClosed? {
      ChannelClosedStep(s, e.i);
    }
  }

  lemma BackoffStep(s: State, e: Event)
    requires Enabled(s, e) && Sound(s)
    ensures Installs(s, e) ==> Next(s, e).reconnectAttempt == 0
    ensures !Installs(s, e) ==> Delays(s.reconnectAttempt) + Scheduled(s, e) == Delays(Next(s, e).reconnectAttempt)
  {
    DelaysExtend(s.reconnectAttempt);
    if MaySchedule(e) { ScheduleStep(s, e); } else if e.Reply? { ReplyStep(s, e); } else { OtherStep(s, e); }
  }

  /**
   * reconnectAttempt always equals the number of reconnects scheduled since the last install, and
   * their delays are Delay(0), Delay(1), ... in that order.
   */
  lemma {:induction false} AttemptCountsBackoffs(states: seq<State>, events: seq<Event>, n: nat)
    requires IsRun(states, events) && n <= |events|
    ensures Backoffs(states, events, n) == Delays(states[n].reconnectAttempt)
  {
    if n > 0 {
      AttemptCountsBackoffs(states, events, n - 1);
      RunSound(states, events, n - 1);
      BackoffStep(states[n - 1], events[n - 1]);
      assert states[n] == Next(states[n - 1], events[n - 1]);
    }
  }

  lemma {:induction false} Pow2Grows(a: nat, b: nat)
    requires a <= b
    ensures 1 <= Pow2(a) <= Pow2(b)
    decreases b
  {
    if a < b { Pow2Grows(a, b - 1); } else if a > 0 { Pow2Grows(a - 1, a - 1); }
  }

  /** Within an outage the delays never shrink and never exceed 30 s. */
  lemma BackoffBounded(a: nat, b: nat)
    requires a <= b
    ensures 1000 <= Delay(a) <= Delay(b) <= 30000
  {
    Pow2Grows(a, b);
  }

  /** Waiting time before the n-th attempt of an outage: doubling up to 31 s, then 30 s steps. */
  lemma {:induction false} TotalBackoff(n: nat)
    ensures Sum(Delays(n)) == if n <= 5 then 1000 * (Pow2(n) - 1) else 31000 + 30000 * (n - 5)
  {
    if n > 0 {
      TotalBackoff(n - 1);
      assert Delays(n)[..n - 1] == Delays(n - 1);
      assert Pow2(5) == 32;
      if n <= 5 { Pow2Grows(n - 1, 4); assert Pow2(4) == 16; } else { Pow2Grows(5, n - 1); }
    }
  }

  /** What the outage has cost so far, read off the closure variable alone. */
  lemma OutageWaitingTime(states: seq<State>, events: seq<Event>, n: nat)
    requires IsRun(states, events) && n <= |events|
    ensures var k := states[n].reconnectAttempt;
            Sum(Backoffs(states, events, n)) == if k <= 5 then 1000 * (Pow2(k) - 1) else 31000 + 30000 * (k - 5)
  {
    AttemptCountsBackoffs(states, events, n);
    TotalBackoff(states[n].reconnectAttempt);
  }
}
