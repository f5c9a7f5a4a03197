/**
 * Delivery of event messages to the e-mail handlers: the consumer callback of
 * packages/shared/src/adapters/broker.ts over the handlers of services/email-service/src/handlers.ts.
 *
 * A message is named by its position in `events`. A delivery is a numbered attempt to handle it;
 * the attempt carries out the handler's outside effects one by one. Attempts outlive the connection
 * that delivered them, and the queue may hand out ready messages in any order.
 */
module Delivery {
  import opened Common

  /** What a message asks for; ownerEmail is whatever string the publisher put there, if any. */
  datatype Event =
    | ItineraryCreated(ownerEmail: Option<string>, startDate: string)
    | ItineraryShared(recipients: seq<string>)
    | GroupInvited(email: string)
    | ReminderDue(ownerEmail: Option<string>)
    | Unrouted    // a routing key under itinerary.* or group.* that no handler claims
    | Malformed   // not JSON, or refused by the event schema

  /** One outside effect of a handler. */
  datatype Effect =
    | Confirmation(to: string)
    | Reminder(startDate: string)
    | ShareNotice(to: string)
    | Invitation(to: string)
    | DueNotice(to: string)

  const OWNER_EMAIL_FALLBACK := "owner@smart-itinerary.local"

  /** EMAIL_PATTERN: one '@' with something before it and a dot inside what follows it, and no white space. */
  predicate LooksLikeAddress(s: string) {
    exists i, j ::
      && 0 < i < j - 1 < |s| - 2 && s[i] == '@' && s[j] == '.'
      && forall k :: 0 <= k < |s| && k != i ==> s[k] != '@' && !IsSpace(s[k])
  }

  /** resolveOwnerEmail */
  function ResolveOwnerEmail(ownerEmail: Option<string>): string {
    if ownerEmail.Some? && LooksLikeAddress(ownerEmail.value) then ownerEmail.value else OWNER_EMAIL_FALLBACK
  }

  /** A part of an address: not empty, free of '@' and white space. */
  predicate AddressPart(s: string) { s != "" && forall k :: 0 <= k < |s| ==> s[k] != '@' && !IsSpace(s[k]) }

  ghost predicate IsAddress(s: string) {
    exists local, host, tld ::
      AddressPart(local) && AddressPart(host) && AddressPart(tld) && s == local + "@" + host + "." + tld
  }

  /** The pattern accepts exactly what can be split into such parts around an '@' and a later dot. */
  lemma AddressIff(s: string)
    ensures LooksLikeAddress(s) <==> IsAddress(s)
  {
    if LooksLikeAddress(s) {
      var i, j :| 0 < i < j - 1 < |s| - 2 && s[i] == '@' && s[j] == '.'
                  && forall k :: 0 <= k < |s| && k != i ==> s[k] != '@' && !IsSpace(s[k]);
      assert s == s[..i] + "@" + s[i + 1..j] + "." + s[j + 1..];
      assert AddressPart(s[..i]) && AddressPart(s[i + 1..j]) && AddressPart(s[j + 1..]);
    }
    if local, host, tld :|
      AddressPart(local) && AddressPart(host) && AddressPart(tld) && s == local + "@" + host + "." + tld
    {
      SplitAddress(s, local, host, tld);
    }
  }

  lemma SplitAddress(s: string, local: string, host: string, tld: string)
    requires AddressPart(local) && AddressPart(host) && AddressPart(tld) && s == local + "@" + host + "." + tld
    ensures LooksLikeAddress(s)
  {
    var i, j := |local|, |local| + 1 + |host|;
    assert s[i] == '@' && s[j] == '.';
    forall k | 0 <= k < |s| && k != i
      ensures s[k] != '@' && !IsSpace(s[k])
    {
      if k < i {
        assert s[k] == local[k];
      } else if k < j {
        assert s[k] == host[k - i - 1];
      } else if k > j {
        assert s[k] == tld[k - j - 1];
      }
    }
  }

  /** Who gets the owner's mail: the address the event carries, or the fallback when that is none. */
  ghost predicate MailsOwner(ownerEmail: Option<string>, to: string) {
    if ownerEmail.Some? && IsAddress(ownerEmail.value) then to == ownerEmail.value
    else to == "owner@smart-itinerary.local"
  }

  lemma OwnerResolved(ownerEmail: Option<string>)
    ensures MailsOwner(ownerEmail, ResolveOwnerEmail(ownerEmail))
  {
    if ownerEmail.Some? { AddressIff(ownerEmail.value); }
  }

  /** The effects of one successful handler call, in order. */
  function Effects(e: Event): seq<Effect> {
    match e
    case ItineraryCreated(owner, startDate) => [Confirmation(ResolveOwnerEmail(owner)), Reminder(startDate)]
    case ItineraryShared(recipients) =>
      seq(|recipients|, (i: nat) requires i < |recipients| => ShareNotice(recipients[i]))
    case GroupInvited(email) => [Invitation(email)]
    case ReminderDue(owner) => [DueNotice(ResolveOwnerEmail(owner))]
    case Unrouted => []
    case Malformed => []
  }

  datatype Verdict = Ack | Requeue | DropAsPoison

  /** What the consumer callback tells the queue once the handler is done. */
  function Judge(succeeded: bool, redelivered: bool): Verdict {
    if succeeded then Ack else if !redelivered then Requeue else DropAsPoison
  }

  /** A delivery being handled: message, redelivered flag, connection epoch, effects done so far. */
  datatype Attempt = Attempt(m: nat, redelivered: bool, epoch: nat, done: nat)

  /** What a run did to message m. */
  datatype Entry =
    | Delivered(m: nat)
    | Requeued(m: nat)
    | CaughtUnacked(m: nat)     // a connection loss found it delivered and not yet acknowledged
    | Did(m: nat, p: nat)       // effect number p was carried out

  datatype State = State(
    events: seq<Event>,
    ready: map<nat, bool>,      // messages waiting in the queue, with their redelivered flag
    running: map<nat, Attempt>, // handler calls in progress
    handled: set<nat>,
    dropped: set<nat>,
    epoch: nat,
    up: bool,
    nextTag: nat,
    log: multiset<Entry>)

  datatype Step =
    | Publish(e: Event)
    | Deliver(m: nat)
    | Do(t: nat)        // the next effect of attempt t succeeds
    | Return(t: nat)    // the handler of attempt t returns
    | Throw(t: nat)     // parsing, or the next effect, fails
    | Lose              // the connection goes
    | Crash             // the whole process goes
    | Reconnect

  function Init(): State { State([], map[], map[], {}, {}, 0, false, 0, multiset{}) }

  predicate HasWork(s: State, a: Attempt)
    requires a.m < |s.events|
  {
    a.done < |Effects(s.events[a.m])|
  }

  predicate Enabled(s: State, e: Step) {
    match e
    case Publish(_) => true
    case Deliver(m) => s.up && m in s.ready
    case Do(t) => t in s.running && s.running[t].m < |s.events| && HasWork(s, s.running[t])
    case Return(t) =>
      t in s.running && s.running[t].m < |s.events| && !HasWork(s, s.running[t]) && !s.events[s.running[t].m].Malformed?
    case Throw(t) =>
      t in s.running && s.running[t].m < |s.events| && (HasWork(s, s.running[t]) || s.events[s.running[t].m].Malformed?)
    case Lose => s.up
    case Crash => true
    case Reconnect => !s.up
  }

  /** The attempt's channel is the current one, so its ack or nack reaches the queue. */
  predicate Current(s: State, a: Attempt) { s.up && a.epoch == s.epoch }

  /** The messages delivered on the current channel and not acknowledged. */
  function Unacked(s: State): set<nat> { set t | t in s.running && Current(s, s.running[t]) :: s.running[t].m }

  /** safeAck: the verdict takes effect on a live channel and is swallowed on a dead one. */
  function Settle(s: State, t: nat, succeeded: bool): State
    requires t in s.running
  {
    var a := s.running[t];
    var s' := s.(running := s.running - {t});
    if !Current(s, a) then s'
    else
      match Judge(succeeded, a.redelivered)
      case Ack => s'.(handled := s.handled + {a.m})
      case Requeue => s'.(ready := s.ready[a.m := true], log := s.log + multiset{Requeued(a.m)})
      case DropAsPoison => s'.(dropped := s.dropped + {a.m})
  }

  /** The channel dies: whatever it had delivered and not acknowledged is ready again, flagged redelivered. */
  function LoseChannel(s: State): State {
    s.(ready := map m | m in s.ready.Keys + Unacked(s) :: if m in Unacked(s) then true else s.ready[m],
       epoch := s.epoch + 1,
       up := false,
       log := s.log + multiset(set m | m in Unacked(s) :: CaughtUnacked(m)))
  }

  function Next(s: State, e: Step): State
    requires Enabled(s, e)
  {
    match e
    case Publish(ev) => s.(events := s.events + [ev], ready := s.ready[|s.events| := false])
    case Deliver(m) =>
      s.(ready := s.ready - {m},
         running := s.running[s.nextTag := Attempt(m, s.ready[m], s.epoch, 0)],
         nextTag := s.nextTag + 1,
         log := s.log + multiset{Delivered(m)})
    case Do(t) =>
      var a := s.running[t];
      s.(running := s.running[t := a.(done := a.done + 1)], log := s.log + multiset{Did(a.m, a.done)})
    case Return(t) => Settle(s, t, true)
    case Throw(t) => Settle(s, t, false)
    case Lose => LoseChannel(s)
    case Crash => LoseChannel(s).(running := map[])
    case Reconnect => s.(up := true)
  }

  ghost predicate IsRun(states: seq<State>, steps: seq<Step>) {
    && |states| == |steps| + 1
    && states[0] == Init()
    && forall i {:trigger steps[i]} :: 0 <= i < |steps| ==>
         Enabled(states[i], steps[i]) && states[i + 1] == Next(states[i], steps[i])
  }

  // ---------------------------------------------------------------------------
  // Conservation and the delivery count
  // ---------------------------------------------------------------------------

  predicate Settled(s: State, m: nat) { m in s.handled || m in s.dropped }

  /** The four places a message can be in. */
  function Places(s: State, m: nat): nat {
    One(m in s.ready) + One(m in Unacked(s)) + One(m in s.handled) + One(m in s.dropped)
  }

  ghost predicate Conserved(s: State) {
    && (forall t :: t in s.running ==> t < s.nextTag && s.running[t].m < |s.events| && s.running[t].epoch <= s.epoch)
    && (forall t :: t in s.running ==> s.running[t].done <= |Effects(s.events[s.running[t].m])|)
    && (!s.up ==> forall t :: t in s.running ==> s.running[t].epoch < s.epoch)
    && (forall t, u | t in s.running && u in s.running && Current(s, s.running[t]) && Current(s, s.running[u]) ::
          s.running[t].m == s.running[u].m ==> t == u)
    && (forall m :: m in s.ready || m in s.handled || m in s.dropped ==> m < |s.events|)
    && (forall m: nat :: m < |s.events| ==> Places(s, m) == 1)
  }

  lemma UnackedMember(s: State, t: nat)
    requires t in s.running && Current(s, s.running[t])
    ensures s.running[t].m in Unacked(s)
  {
  }

  lemma UnackedAfterSettle(s: State, t: nat, succeeded: bool)
    requires Conserved(s) && t in s.running
    ensures Unacked(Settle(s, t, succeeded)) ==
            if Current(s, s.running[t]) then Unacked(s) - {s.running[t].m} else Unacked(s)
  {
    var s' := Settle(s, t, succeeded);
    forall m | m in Unacked(s) && (Current(s, s.running[t]) ==> m != s.running[t].m)
      ensures m in Unacked(s')
    {
      var u :| u in s.running && Current(s, s.running[u]) && s.running[u].m == m;
      assert u in s'.running && s'.running[u] == s.running[u];
    }
  }

  lemma ConservedSettle(s: State, t: nat, succeeded: bool)
    requires Conserved(s) && t in s.running
    ensures Conserved(Settle(s, t, succeeded))
  {
    UnackedAfterSettle(s, t, succeeded);
    if Current(s, s.running[t]) { UnackedMember(s, t); }
    var s' := Settle(s, t, succeeded);
    forall m: nat | m < |s'.events|
      ensures Places(s', m) == 1
    {
      assert Places(s, m) == 1;
    }
  }

  lemma UnackedAfterDeliver(s: State, m: nat)
    requires Conserved(s) && Enabled(s, Deliver(m))
    ensures Unacked(Next(s, Deliver(m))) == Unacked(s) + {m}
  {
    var s' := Next(s, Deliver(m));
    forall n | n in Unacked(s) + {m}
      ensures n in Unacked(s')
    {
      if n == m {
        UnackedMember(s', s.nextTag);
      } else {
        var u :| u in s.running && Current(s, s.running[u]) && s.running[u].m == n;
        assert s'.running[u] == s.running[u];
      }
    }
  }

  lemma ConservedDeliver(s: State, m: nat)
    requires Conserved(s) && Enabled(s, Deliver(m))
    ensures Conserved(Next(s, Deliver(m)))
    ensures Unacked(Next(s, Deliver(m))) == Unacked(s) + {m}
  {
    var s' := Next(s, Deliver(m));
    UnackedAfterDeliver(s, m);
    assert Places(s, m) == 1;
    forall n: nat | n < |s'.events|
      ensures Places(s', n) == 1
    {
      assert Places(s, n) == 1;
    }
    forall t | t in s.running && Current(s, s.running[t]) ensures s.running[t].m != m { UnackedMember(s, t); }
  }

  lemma ConservedDo(s: State, t: nat)
    requires Conserved(s) && Enabled(s, Do(t))
    ensures Conserved(Next(s, Do(t)))
    ensures Unacked(Next(s, Do(t))) == Unacked(s)
  {
    var s' := Next(s, Do(t));
    forall n | n in Unacked(s)
      ensures n in Unacked(s')
    {
      var u :| u in s.running && Current(s, s.running[u]) && s.running[u].m == n;
      assert u in s'.running && s'.running[u].m == n && Current(s', s'.running[u]);
    }
    forall m: nat | m < |s'.events|
      ensures Places(s', m) == 1
    {
      assert Places(s, m) == 1;
    }
  }

  lemma ConservedLose(s: State)
    requires Conserved(s)
    ensures Conserved(LoseChannel(s)) && Unacked(LoseChannel(s)) == {}
    ensures Conserved(LoseChannel(s).(running := map[])) && Unacked(LoseChannel(s).(running := map[])) == {}
  {
    var s' := LoseChannel(s);
    forall m: nat | m < |s'.events|
      ensures Places(s', m) == 1 && Places(s'.(running := map[]), m) == 1
    {
      assert Places(s, m) == 1;
      assert m !in Unacked(s') && m !in Unacked(s'.(running := map[]));
    }
  }

  lemma ConservedStep(s: State, e: Step)
    requires Conserved(s) && Enabled(s, e)
    ensures Conserved(Next(s, e))
  {
    match e
    case Deliver(m) => ConservedDeliver(s, m);
    case Do(t) => ConservedDo(s, t);
    case Return(t) => ConservedSettle(s, t, true);
    case Throw(t) => ConservedSettle(s, t, false);
    case Lose => ConservedLose(s);
    case Crash => ConservedLose(s);
    case Reconnect => QuietStep(s, e);
    case Publish(_) => QuietStep(s, e);
  }

  lemma QuietStep(s: State, e: Step)
    requires Conserved(s) && Enabled(s, e) && (e.Reconnect? || e.Publish?)
    ensures Conserved(Next(s, e)) && Unacked(Next(s, e)) == Unacked(s)
  {
    var s' := Next(s, e);
    assert Unacked(s') == Unacked(s) by {
      forall m | m in Unacked(s) ensures m in Unacked(s') {
        var u :| u in s.running && Current(s, s.running[u]) && s.running[u].m == m;
        assert s'.running[u] == s.running[u];
      }
    }
    forall m: nat | m < |s'.events|
      ensures Places(s', m) == 1
    {
      if m < |s.events| { assert Places(s, m) == 1; }
    }
  }

  /** How often m was delivered, exactly. */
  ghost predicate Counted(s: State, m: nat) {
    && s.log[Delivered(m)] == s.log[Requeued(m)] + s.log[CaughtUnacked(m)] + One(m in Unacked(s) || Settled(s, m))
    && s.log[Requeued(m)] <= 1
    && (m in s.ready ==> (s.ready[m] <==> s.log[Requeued(m)] + s.log[CaughtUnacked(m)] > 0))
    && (forall t :: t in s.running && Current(s, s.running[t]) && s.running[t].m == m ==>
          (s.running[t].redelivered <==> s.log[Requeued(m)] + s.log[CaughtUnacked(m)] > 0))
    && (m in s.dropped ==> s.log[Requeued(m)] + s.log[CaughtUnacked(m)] > 0)
  }

  ghost predicate AllCounted(s: State) {
    && (forall m: nat :: m < |s.events| ==> Counted(s, m))
    && (forall x :: x in s.log ==> x.m < |s.events|)
  }

  lemma CountedSettle(s: State, t: nat, succeeded: bool)
    requires Conserved(s) && AllCounted(s) && t in s.running
    ensures AllCounted(Settle(s, t, succeeded))
  {
    var s' := Settle(s, t, succeeded);
    var a := s.running[t];
    UnackedAfterSettle(s, t, succeeded);
    if Current(s, a) { UnackedMember(s, t); }
    forall m: nat | m < |s'.events|
      ensures Counted(s', m)
    {
      assert Counted(s, m) && Places(s, m) == 1;
    }
  }

  lemma CountedDeliver(s: State, m: nat)
    requires Conserved(s) && AllCounted(s) && Enabled(s, Deliver(m))
    ensures AllCounted(Next(s, Deliver(m)))
  {
    var s' := Next(s, Deliver(m));
    ConservedDeliver(s, m);
    assert Counted(s, m) && Places(s, m) == 1;
    forall n: nat | n < |s'.events|
      ensures Counted(s', n)
    {
      assert Counted(s, n);
      forall t | t in s'.running && Current(s', s'.running[t]) && s'.running[t].m == n
        ensures s'.running[t].redelivered <==> s'.log[Requeued(n)] + s'.log[CaughtUnacked(n)] > 0
      {
        if t != s.nextTag { assert s'.running[t] == s.running[t]; }
      }
    }
  }

  lemma CountedLose(s: State)
    requires Conserved(s) && AllCounted(s)
    ensures AllCounted(LoseChannel(s)) && AllCounted(LoseChannel(s).(running := map[]))
  {
    var s' := LoseChannel(s);
    ConservedLose(s);
    forall m: nat | m < |s'.events|
      ensures Counted(s', m) && Counted(s'.(running := map[]), m)
    {
      assert Counted(s, m) && Places(s, m) == 1;
      assert s'.log[CaughtUnacked(m)] == s.log[CaughtUnacked(m)] + One(m in Unacked(s));
    }
  }

  lemma CountedDo(s: State, t: nat)
    requires Conserved(s) && AllCounted(s) && Enabled(s, Do(t))
    ensures AllCounted(Next(s, Do(t)))
  {
    ConservedDo(s, t);
    var s' := Next(s, Do(t));
    forall m: nat | m < |s'.events| ensures Counted(s', m) { assert Counted(s, m); }
  }

  lemma CountedQuiet(s: State, e: Step)
    requires Conserved(s) && AllCounted(s) && Enabled(s, e) && (e.Reconnect? || e.Publish?)
    ensures AllCounted(Next(s, e))
  {
    QuietStep(s, e);
    var s' := Next(s, e);
    forall m: nat | m < |s'.events|
      ensures Counted(s', m)
    {
      if m < |s.events| { assert Counted(s, m); }
    }
  }

  lemma CountedStep(s: State, e: Step)
    requires Conserved(s) && AllCounted(s) && Enabled(s, e)
    ensures AllCounted(Next(s, e))
  {
    match e
    case Deliver(m) => CountedDeliver(s, m);
    case Do(t) => CountedDo(s, t);
    case Return(t) => CountedSettle(s, t, true);
    case Throw(t) => CountedSettle(s, t, false);
    case Lose => CountedLose(s);
    case Crash => CountedLose(s);
    case Reconnect => CountedQuiet(s, e);
    case Publish(_) => CountedQuiet(s, e);
  }

  lemma {:induction false} RunCounted(states: seq<State>, steps: seq<Step>, i: nat)
    requires IsRun(states, steps) && i < |states|
    ensures Conserved(states[i]) && AllCounted(states[i])
  {
    if i > 0 {
      RunCounted(states, steps, i - 1);
      ConservedStep(states[i - 1], steps[i - 1]);
      CountedStep(states[i - 1], steps[i - 1]);
    }
  }

  /**
   * No message is ever lost or duplicated by the queue: at every moment of every run it is in
   * exactly one of ready, unacked, handled and dropped, and when unacked exactly one live delivery
   * holds it.
   */
  lemma MessagesConserved(states: seq<State>, steps: seq<Step>, i: nat, m: nat)
    requires IsRun(states, steps) && i < |states| && m < |states[i].events|
    ensures Places(states[i], m) == 1
    ensures var s := states[i];
            forall t, u | t in s.running && u in s.running && Current(s, s.running[t]) && Current(s, s.running[u]) ::
              s.running[t].m == s.running[u].m == m ==> t == u
  {
    RunCounted(states, steps, i);
  }

  /**
   * The deliveries of a message, counted exactly: one per requeue and one per connection loss that
   * caught it unacked, and the last one. So at most 2 + L with L such losses, and a dropped message
   * had a second chance.
   */
  lemma DeliveriesBounded(states: seq<State>, steps: seq<Step>, i: nat, m: nat)
    requires IsRun(states, steps) && i < |states| && m < |states[i].events|
    ensures states[i].log[Delivered(m)] ==
              states[i].log[Requeued(m)] + states[i].log[CaughtUnacked(m)] + One(m !in states[i].ready)
    ensures states[i].log[Delivered(m)] <= 2 + states[i].log[CaughtUnacked(m)]
    ensures m in states[i].dropped ==> states[i].log[Delivered(m)] >= 2
  {
    RunCounted(states, steps, i);
    assert Counted(states[i], m) && Places(states[i], m) == 1;
  }

  /** The handler of a redelivery of m fails while its channel is up. */
  predicate Poisons(s: State, e: Step, m: nat) {
    && e.Throw? && e.t in s.running
    && s.running[e.t].m == m && s.running[e.t].redelivered && Current(s, s.running[e.t])
  }

  lemma DroppedStep(s: State, e: Step, m: nat)
    requires Enabled(s, e)
    ensures m in Next(s, e).dropped <==> m in s.dropped || Poisons(s, e, m)
  {
  }

  ghost predicate PoisonedBefore(states: seq<State>, steps: seq<Step>, i: nat, m: nat)
    requires i <= |steps| <= |states|
  {
    exists k :: 0 <= k < i && Poisons(states[k], steps[k], m)
  }

  lemma PoisonedNext(states: seq<State>, steps: seq<Step>, i: nat, m: nat)
    requires i < |steps| <= |states|
    ensures PoisonedBefore(states, steps, i + 1, m) <==>
              PoisonedBefore(states, steps, i, m) || Poisons(states[i], steps[i], m)
  {
  }

  lemma RunStep(states: seq<State>, steps: seq<Step>, i: nat)
    requires IsRun(states, steps) && i < |steps|
    ensures Enabled(states[i], steps[i]) && states[i + 1] == Next(states[i], steps[i])
  {
  }

  lemma DroppedRunStep(states: seq<State>, steps: seq<Step>, i: nat, m: nat)
    requires IsRun(states, steps) && i < |steps|
    ensures m in states[i + 1].dropped <==> m in states[i].dropped || Poisons(states[i], steps[i], m)
  {
    RunStep(states, steps, i);
    DroppedStep(states[i], steps[i], m);
  }

  /** Exactly which messages a run has dropped: those that a redelivery's handler failed on. */
  lemma {:induction false} DroppedIff(states: seq<State>, steps: seq<Step>, i: nat, m: nat)
    requires IsRun(states, steps) && i < |states|
    ensures m in states[i].dropped <==> PoisonedBefore(states, steps, i, m)
  {
    if i == 0 {
      assert states[0].dropped == {} && !PoisonedBefore(states, steps, 0, m);
    } else {
      DroppedIff(states, steps, i - 1, m);
      DroppedRunStep(states, steps, i - 1, m);
      PoisonedNext(states, steps, i - 1, m);
    }
  }

  /** An ack or nack on a dead channel changes nothing in the queue. */
  lemma StaleVerdictIgnored(s: State, e: Step)
    requires Enabled(s, e) && (e.Return? || e.Throw?) && !Current(s, s.running[e.t])
    ensures Next(s, e) == s.(running := s.running - {e.t})
  {
  }

  /** Whatever t has become, it was delivered on a connection that is gone. */
  predicate FromThePast(s: State, t: nat) { t < s.nextTag && (t in s.running ==> s.running[t].epoch < s.epoch) }

  lemma PastStep(s: State, e: Step, t: nat)
    requires Enabled(s, e) && FromThePast(s, t)
    ensures FromThePast(Next(s, e), t)
  {
  }

  lemma {:induction false} PastSince(states: seq<State>, steps: seq<Step>, k: nat, j: nat, t: nat)
    requires IsRun(states, steps) && k < j < |states| && steps[k].Lose? && t in states[k].running
    ensures FromThePast(states[j], t)
  {
    if k + 1 == j {
      RunCounted(states, steps, k);
      RunStep(states, steps, k);
    } else {
      PastSince(states, steps, k, j - 1, t);
      RunStep(states, steps, j - 1);
      PastStep(states[j - 1], steps[j - 1], t);
    }
  }

  /** However late a handler comes back after a loss that caught it, its ack or nack changes nothing in the queue. */
  lemma LostVerdictIgnored(states: seq<State>, steps: seq<Step>, k: nat, j: nat, t: nat)
    requires IsRun(states, steps) && k < j < |steps| && steps[k].Lose? && t in states[k].running
    requires steps[j] == Return(t) || steps[j] == Throw(t)
    ensures states[j + 1] == states[j].(running := states[j].running - {t})
  {
    PastSince(states, steps, k, j, t);
    RunStep(states, steps, j);
    StaleVerdictIgnored(states[j], steps[j]);
  }

  lemma {:induction false} EndedForGood(states: seq<State>, steps: seq<Step>, k: nat, j: nat, t: nat)
    requires IsRun(states, steps) && k <= j < |states| && t < states[k].nextTag && t !in states[k].running
    ensures t < states[j].nextTag && t !in states[j].running
  {
    if k < j {
      EndedForGood(states, steps, k, j - 1, t);
      RunStep(states, steps, j - 1);
      EndedStep(states[j - 1], steps[j - 1], t);
    }
  }

  lemma EndedStep(s: State, e: Step, t: nat)
    requires Enabled(s, e) && t < s.nextTag && t !in s.running
    ensures t < Next(s, e).nextTag && t !in Next(s, e).running
  {
  }

  /** A crash of the process ends every handler call for good. */
  lemma CrashEndsCalls(states: seq<State>, steps: seq<Step>, k: nat, j: nat, t: nat)
    requires IsRun(states, steps) && k < j < |states| && steps[k].Crash? && t in states[k].running
    ensures t !in states[j].running
  {
    RunCounted(states, steps, k);
    RunStep(states, steps, k);
    EndedForGood(states, steps, k + 1, j, t);
  }
}
