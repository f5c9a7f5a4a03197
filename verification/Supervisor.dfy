/**
 * The supervised RabbitMQ connection of packages/shared/src/adapters/broker.ts as a step machine.
 *
 * One event is one uninterrupted stretch of JavaScript: the code between two awaits, a timer
 * callback or a 'close' callback. Anything may happen between two events, so a run is any sequence
 * of enabled events.
 *
 * A connection is named by the number of the establish() call that opened it.
 */
module Supervisor {
  import opened Common

  const RECONNECT_BASE_MS: nat := 1000
  const RECONNECT_MAX_MS: nat := 30000

  type Registration(!new, ==, 0)

  /** Where an establish() call is suspended. */
  datatype Stage =
    | Connecting              // amqp.connect is pending
    | Discarding              // connected after close(): the fresh connection is being closed again
    | Preparing               // createChannel and the topology asserts are pending
    | Replaying(next: nat)    // startConsumer(consumers[next]) is pending
    | Releasing               // in the catch block: closing the half-open connection

  datatype Attempt = Attempt(initial: bool, stage: Stage)

  datatype Startup = Pending | Returned | Rejected

  /** What a suspended close() waits for: the channel, or the connection, it found when it got there. */
  datatype Closer = ClosingChannel(c: nat) | ClosingConnection(c: nat)

  datatype State = State(
    // the closure variables
    connection: Option<nat>,
    channel: Option<nat>,
    consumers: seq<Registration>,
    establishing: bool,
    reconnectTimer: Option<nat>,
    reconnectAttempt: nat,
    shutDown: bool,
    // suspended calls
    startup: Startup,                          // createBroker itself
    attempts: map<nat, Attempt>,               // establish()
    consuming: map<nat, (nat, Registration)>,  // consume(), with the connection it captured
    closers: map<nat, Closer>,                 // close()
    // the event loop and the network
    timers: map<nat, nat>,                     // armed timers and their delays
    live: map<nat, seq<Registration>>,         // open supervised connections and the consumers on them
    closedChannels: set<nat>,                  // connections whose channel close() has closed
    nextId: nat)

  datatype Event =
    | ConnectOk(a: nat)       // amqp.connect resolves
    | ConnectFail(a: nat)     // amqp.connect rejects
    | Discarded(a: nat)       // the close of a connection opened after shutdown settles
    | Reply(a: nat)           // the pending setup step succeeds
    | SetupError(a: nat)      // the pending setup step rejects
    | Released(a: nat)        // the teardown in the catch block settles
    | TimerFires(t: nat)
    | Lost(c: nat)            // connection c emits 'close'
    | ConsumeCall(r: Registration)
    | ConsumeReply(i: nat)
    | ConsumeReject(i: nat)
    | CloseCall
    | ChannelClosed(i: nat)
    | ConnectionClosed(i: nat)

  /** createBroker has just called establish(true). */
  function Init(): State {
    State(None, None, [], true, None, 0, false,
          Pending, map[0 := Attempt(true, Connecting)], map[], map[], map[], map[], {}, 1)
  }

  predicate InTry(stage: Stage) { !stage.Releasing? }

  /** The attempt is beyond the one place where establish() looks at shutDown. */
  predicate PastCheck(stage: Stage) { stage.Preparing? || stage.Replaying? }

  predicate ChannelOpen(s: State, c: nat) { c in s.live && c !in s.closedChannels }

  predicate Enabled(s: State, e: Event) {
    match e
    case ConnectOk(a) => a in s.attempts && s.attempts[a].stage.Connecting?
    case ConnectFail(a) => a in s.attempts && s.attempts[a].stage.Connecting?
    case Discarded(a) => a in s.attempts && s.attempts[a].stage.Discarding?
    case Reply(a) => a in s.attempts && a in s.live && PastCheck(s.attempts[a].stage)
    case SetupError(a) => a in s.attempts && PastCheck(s.attempts[a].stage)
    case Released(a) => a in s.attempts && s.attempts[a].stage.Releasing?
    case TimerFires(t) => t in s.timers
    case Lost(c) => c in s.live
    case ConsumeCall(_) => s.startup.Returned?
    case ConsumeReply(i) => i in s.consuming && ChannelOpen(s, s.consuming[i].0)
    case ConsumeReject(i) => i in s.consuming && !ChannelOpen(s, s.consuming[i].0)
    case CloseCall => s.startup.Returned?
    case ChannelClosed(i) => i in s.closers && s.closers[i].ClosingChannel?
    case ConnectionClosed(i) => i in s.closers && s.closers[i].ClosingConnection?
  }

  function Min(a: nat, b: nat): nat { if a < b then a else b }

  function Pow2(n: nat): nat { if n == 0 then 1 else 2 * Pow2(n - 1) }

  function Delay(attempt: nat): nat { Min(RECONNECT_BASE_MS * Pow2(attempt), RECONNECT_MAX_MS) }

  /** scheduleReconnect(): arms a timer and forgets whatever timer was referenced before. */
  function Schedule(s: State): State {
    s.(reconnectAttempt := s.reconnectAttempt + 1,
       timers := s.timers[s.nextId := Delay(s.reconnectAttempt)],
       reconnectTimer := Some(s.nextId),
       nextId := s.nextId + 1)
  }

  /** onConnectionGone(). */
  function Gone(s: State): State {
    var s' := s.(connection := None, channel := None);
    if s.shutDown || s.establishing || s.reconnectTimer.Some? then s' else Schedule(s')
  }

  /** The end of a failed establish(): throw to createBroker's caller, or back off. */
  function Fail(s: State, a: nat): State
    requires a in s.attempts
  {
    var s' := s.(attempts := s.attempts - {a});
    if s.attempts[a].initial then s'.(startup := Rejected) else Schedule(s')
  }

  /** The last setup reply and the install behind it. */
  function Install(s: State, a: nat): State
    requires a in s.attempts
  {
    s.(connection := Some(a), channel := Some(a), establishing := false, reconnectAttempt := 0,
       startup := if s.attempts[a].initial then Returned else s.startup,
       attempts := s.attempts - {a})
  }

  function SetStage(s: State, a: nat, stage: Stage): State
    requires a in s.attempts
  {
    s.(attempts := s.attempts[a := s.attempts[a].(stage := stage)])
  }

  /** Continue the replay loop at registration i, or install when none is left. */
  function ReplayFrom(s: State, a: nat, i: nat): State
    requires a in s.attempts
  {
    if i < |s.consumers| then SetStage(s, a, Replaying(i)) else Install(s, a)
  }

  function StartConsumer(s: State, c: nat, r: Registration): State
    requires c in s.live
  {
    s.(live := s.live[c := s.live[c] + [r]])
  }

  function SetupReply(s: State, a: nat): State
    requires Enabled(s, Reply(a))
  {
    match s.attempts[a].stage
    case Replaying(i) =>
      if i < |s.consumers| then ReplayFrom(StartConsumer(s, a, s.consumers[i]), a, i + 1)
      else Install(s, a)
    case _ => ReplayFrom(s, a, 0)
  }

  /** The last two assignments of close(). */
  function Disconnected(s: State): State { s.(connection := None, channel := None) }

  /** close() up to its first await. */
  function BeginClose(s: State): State {
    var s1 := s.(shutDown := true,
                 timers := if s.reconnectTimer.Some? then s.timers - {s.reconnectTimer.value} else s.timers,
                 reconnectTimer := None);
    if s.channel.Some?
    then s1.(closers := s1.closers[s1.nextId := ClosingChannel(s.channel.value)], nextId := s1.nextId + 1)
    else AfterChannel(s1, None)
  }

  /** close() once the channel is out of the way; call is its key when it had been suspended. */
  function AfterChannel(s: State, call: Option<nat>): State {
    if s.connection.None? then Disconnected(if call.Some? then s.(closers := s.closers - {call.value}) else s)
    else if call.Some? then s.(closers := s.closers[call.value := ClosingConnection(s.connection.value)])
    else s.(closers := s.closers[s.nextId := ClosingConnection(s.connection.value)], nextId := s.nextId + 1)
  }

  /** The channel of connection c is closed, and with it the consumers on it are gone. */
  function ChannelGone(s: State, c: nat): State {
    s.(live := if c in s.live then s.live[c := []] else s.live, closedChannels := s.closedChannels + {c})
  }

  function Next(s: State, e: Event): State
    requires Enabled(s, e)
  {
    match e
    case ConnectOk(a) =>
      if s.shutDown then SetStage(s, a, Discarding)
      else SetStage(s.(live := s.live[a := []]), a, Preparing)
    case ConnectFail(a) => Fail(s.(establishing := false), a)
    case Discarded(a) => s.(establishing := false, attempts := s.attempts - {a})
    case Reply(a) => SetupReply(s, a)
    case SetupError(a) => SetStage(s.(establishing := false), a, Releasing)
    case Released(a) => Fail(s.(live := s.live - {a}), a)
    case TimerFires(t) =>
      s.(timers := s.timers - {t}, reconnectTimer := None, establishing := true,
         attempts := s.attempts[s.nextId := Attempt(false, Connecting)], nextId := s.nextId + 1)
    case Lost(c) => Gone(s.(live := s.live - {c}))
    case ConsumeCall(r) =>
      if s.channel.None? then s
      else s.(consuming := s.consuming[s.nextId := (s.channel.value, r)], nextId := s.nextId + 1)
    case ConsumeReply(i) =>
      var (c, r) := s.consuming[i];
      StartConsumer(s, c, r).(consumers := s.consumers + [r], consuming := s.consuming - {i})
    case ConsumeReject(i) => s.(consuming := s.consuming - {i})
    case CloseCall => BeginClose(s)
    case ChannelClosed(i) => AfterChannel(ChannelGone(s, s.closers[i].c), Some(i))
    case ConnectionClosed(i) =>
      // its 'close' event finds shutDown set and does no more than Disconnected
      Disconnected(s.(live := s.live - {s.closers[i].c}, closers := s.closers - {i}))
  }

  // ---------------------------------------------------------------------------
  // Runs
  // ---------------------------------------------------------------------------

  /** states[i] --events[i]--> states[i+1], starting at createBroker's first establish(true). */
  ghost predicate IsRun(states: seq<State>, events: seq<Event>) {
    && |states| == |events| + 1
    && states[0] == Init()
    && forall i {:trigger events[i]} :: 0 <= i < |events| ==>
         Enabled(states[i], events[i]) && states[i + 1] == Next(states[i], events[i])
  }

  /** The teardown of a half-open connection raises a 'close' event, and no close() preceded it. */
  predicate TeardownCloses(s: State, e: Event) {
    e.Lost? && e.c in s.attempts && s.attempts[e.c].stage.Releasing? && !s.shutDown
  }

  /** No teardown of a half-open connection does so anywhere in the run. */
  ghost predicate QuietTeardown(states: seq<State>, events: seq<Event>)
    requires |states| == |events| + 1
  {
    forall i {:trigger events[i]} :: 0 <= i < |events| ==> !TeardownCloses(states[i], events[i])
  }
}
