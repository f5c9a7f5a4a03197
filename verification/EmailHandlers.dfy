/** The handlers of services/email-service/src/handlers.ts and the callback that drives them. */
module EmailHandlers {
  import opened Delivery

  /** The SMTP server and the broker as the handlers see them: each request is accepted or refused. */
  class Outside {
    var done: seq<Effect>     // accepted requests, in order
    var answers: seq<bool>    // the coming answers; beyond their end every request is accepted

    constructor (answers: seq<bool>)
      ensures done == [] && this.answers == answers
    {
      done, this.answers := [], answers;
    }

    method Request(effect: Effect) returns (ok: bool)
      modifies this
      ensures ok == (old(answers) == [] || old(answers)[0])
      ensures done == old(done) + if ok then [effect] else []
      ensures answers == if old(answers) == [] then [] else old(answers)[1..]
    {
      ok := answers == [] || answers[0];
      if ok { done := done + [effect]; }
      if answers != [] { answers := answers[1..]; }
    }
  }

  predicate Refused(answers: seq<bool>, i: nat) { i < |answers| && !answers[i] }

  function Rest(answers: seq<bool>, n: nat): seq<bool> { if n <= |answers| then answers[n..] else [] }

  /**
   * A handler call on e added the effects of e up to the first refusal, and returned normally just
   * when that was all.
   */
  ghost predicate Performed(before: seq<Effect>, after: seq<Effect>, answers: seq<bool>, e: Event, n: nat, ok: bool) {
    && n <= |Effects(e)|
    && after == before + Effects(e)[..n]
    && (forall i :: 0 <= i < n ==> !Refused(answers, i))
    && (n < |Effects(e)| ==> Refused(answers, n))
    && (ok <==> n == |Effects(e)| && !e.Malformed?)
  }

  method HandleItineraryCreated(out: Outside, e: Event) returns (n: nat, ok: bool)
    requires e.ItineraryCreated?
    modifies out
    ensures n >= 1 ==> |out.done| > |old(out.done)| && out.done[|old(out.done)|].Confirmation?
                       && MailsOwner(e.ownerEmail, out.done[|old(out.done)|].to)
    ensures n >= 2 ==> |out.done| > |old(out.done)| + 1 && out.done[|old(out.done)| + 1] == Reminder(e.startDate)
    ensures Performed(old(out.done), out.done, old(out.answers), e, n, ok)
  {
    OwnerResolved(e.ownerEmail);
    ok := out.Request(Confirmation(ResolveOwnerEmail(e.ownerEmail)));
    if !ok { return 0, false; }
    ok := out.Request(Reminder(e.startDate));
    n := if ok then 2 else 1;
  }

  method HandleReminderDue(out: Outside, e: Event) returns (n: nat, ok: bool)
    requires e.ReminderDue?
    modifies out
    ensures n >= 1 ==> |out.done| > |old(out.done)| && out.done[|old(out.done)|].DueNotice?
                       && MailsOwner(e.ownerEmail, out.done[|old(out.done)|].to)
    ensures Performed(old(out.done), out.done, old(out.answers), e, n, ok)
  {
    OwnerResolved(e.ownerEmail);
    ok := out.Request(DueNotice(ResolveOwnerEmail(e.ownerEmail)));
    n := if ok then 1 else 0;
  }

  /** One mail per recipient, one after the other, until the first refusal. */
  method HandleItineraryShared(out: Outside, e: Event) returns (n: nat, ok: bool)
    requires e.ItineraryShared?
    modifies out
    ensures |out.done| == |old(out.done)| + n && n <= |e.recipients|
    ensures forall i :: 0 <= i < n ==> out.done[|old(out.done)| + i] == ShareNotice(e.recipients[i])
    ensures Performed(old(out.done), out.done, old(out.answers), e, n, ok)
  {
    n := 0;
    while n < |e.recipients|
      invariant n <= |e.recipients|
      invariant out.done == old(out.done) + Effects(e)[..n] && out.answers == Rest(old(out.answers), n)
      invariant forall i :: 0 <= i < n ==> !Refused(old(out.answers), i)
    {
      ok := out.Request(ShareNotice(e.recipients[n]));
      if !ok { return; }
      n := n + 1;
    }
    ok := true;
  }

  method HandleGroupInvited(out: Outside, e: Event) returns (n: nat, ok: bool)
    requires e.GroupInvited?
    modifies out
    ensures n >= 1 ==> |out.done| > |old(out.done)| && out.done[|old(out.done)|] == Invitation(e.email)
    ensures Performed(old(out.done), out.done, old(out.answers), e, n, ok)
  {
    ok := out.Request(Invitation(e.email));
    n := if ok then 1 else 0;
  }

  /** Parsing, routing and handling: what the consumer callback awaits. */
  method Dispatch(out: Outside, e: Event) returns (n: nat, ok: bool)
    modifies out
    ensures e.Unrouted? ==> ok && out.done == old(out.done)
    ensures e.Malformed? ==> !ok && out.done == old(out.done)
    ensures Performed(old(out.done), out.done, old(out.answers), e, n, ok)
  {
    match e
    case ItineraryCreated(_, _) => n, ok := HandleItineraryCreated(out, e);
    case ItineraryShared(_) => n, ok := HandleItineraryShared(out, e);
    case GroupInvited(_) => n, ok := HandleGroupInvited(out, e);
    case ReminderDue(_) => n, ok := HandleReminderDue(out, e);
    case Unrouted => n, ok := 0, true;
    case Malformed => n, ok := 0, false;
  }

  /** The state after n further effects of attempt t. */
  ghost function DoneTimes(s: State, t: nat, n: nat): State
    requires t in s.running && s.running[t].m < |s.events|
    requires s.running[t].done + n <= |Effects(s.events[s.running[t].m])|
    ensures var a := s.running[t];
            && t in DoneTimes(s, t, n).running
            && DoneTimes(s, t, n).running[t] == a.(done := a.done + n)
            && DoneTimes(s, t, n).events == s.events
    decreases n
  {
    if n == 0 then s else Next(DoneTimes(s, t, n - 1), Do(t))
  }

  /**
   * The whole callback: parse, handle, acknowledge. Its verdict and effects are exactly those of
   * the Do steps and the Return or Throw step of the delivery machine.
   */
  method OnMessage(out: Outside, ghost s: State, ghost t: nat, e: Event, redelivered: bool)
    returns (verdict: Verdict, n: nat, ghost s': State)
    requires t in s.running && s.running[t].done == 0 && s.running[t].redelivered == redelivered
    requires s.running[t].m < |s.events| && s.events[s.running[t].m] == e
    modifies out
    ensures Performed(old(out.done), out.done, old(out.answers), e, n, verdict == Ack)
    ensures verdict == Judge(n == |Effects(e)| && !e.Malformed?, redelivered)
    ensures Enabled(DoneTimes(s, t, n), if verdict == Ack then Return(t) else Throw(t))
    ensures s' == Next(DoneTimes(s, t, n), if verdict == Ack then Return(t) else Throw(t))
  {
    var ok;
    n, ok := Dispatch(out, e);
    verdict := if ok then Ack else if !redelivered then Requeue else DropAsPoison;
    s' := Next(DoneTimes(s, t, n), if ok then Return(t) else Throw(t));
  }
}
