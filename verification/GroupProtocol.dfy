/**
 * Interleaved group requests: the handlers of services/tools-service/src/routes/groups.routes.ts and
 * shares.routes.ts, suspended between any two of their SQL statements. Generated ids and tokens are
 * fresh.
 */
module GroupProtocol {
  import opened Common
  import opened ToolsTables

  /** A request, by the statement it is about to send, or its answer. */
  datatype Req =
    | InviteRead(sub: User, g: Gid, email: string, known: bool)   // known: the group existed when the call came in
    | InviteCheck(sub: User, g: Gid, email: string, known: bool)
    | InviteInsert(sub: User, g: Gid, email: string, known: bool)
    | InviteReread(sub: User, g: Gid, email: string, known: bool) // row stored, event published
    | InviteDone(sub: User, g: Gid, email: string, known: bool, status: nat)
    | JoinUpdate(token: Token, user: User)
    | JoinReread(token: Token, joined: Gid)
    | JoinDone(token: Token, status: nat, group: Option<Gid>)
    | DeleteRun(sub: User, g: Gid)
    | DeleteDone(g: Gid, status: nat)
    | ShareRead(sub: User, claim: Option<string>, itinerary: ItineraryId, target: Option<Gid>)
    | ShareInsert(sub: User, itinerary: ItineraryId, target: Option<Gid>)
    | ShareDone(shareToken: Option<Token>, status: nat)

  datatype Sys = Sys(
    t: Tools,
    reqs: map<nat, Req>,
    // history
    seeded: set<(Gid, string)>,   // memberships present at the start
    everGroups: set<Gid>,
    issued: set<Token>)

  datatype Step =
    | CreateGroup(g: Gid, name: string, owner: User)
    | Call(id: nat, req: Req)
    | Advance(id: nat, token: Token)   // token: what the generator returns, where the step draws one

  predicate Starting(s: Sys, r: Req) {
    || (r.InviteRead? && (r.known <==> r.g in s.t.groups))
    || r.JoinUpdate? || r.DeleteRun? || r.ShareRead?
  }

  predicate Answered(r: Req) { r.InviteDone? || r.JoinDone? || r.DeleteDone? || r.ShareDone? }

  predicate Enabled(s: Sys, e: Step) {
    match e
    case CreateGroup(g, _, _) => g !in s.everGroups
    case Call(id, r) => id !in s.reqs && Starting(s, r)
    case Advance(id, token) =>
      && id in s.reqs && !Answered(s.reqs[id])
      && (s.reqs[id].InviteInsert? || s.reqs[id].ShareInsert? ==> token !in s.issued)
  }

  /** One statement of request r and the code up to the next. */
  function Execute(t: Tools, r: Req, token: Token): (Tools, Req)
    requires !Answered(r)
  {
    match r
    case InviteRead(sub, g, email, known) =>
      if g !in t.groups then (t, InviteDone(sub, g, email, known, 404))
      else if t.groups[g].owner != sub then (t, InviteDone(sub, g, email, known, 403))
      else (t, InviteCheck(sub, g, email, known))
    case InviteCheck(sub, g, email, known) =>
      if HasEmail(t, g, email) then (t, InviteDone(sub, g, email, known, 409))
      else (t, InviteInsert(sub, g, email, known))
    case InviteInsert(sub, g, email, known) =>
      (match InsertInvited(t, g, email, token)
       case Inserted(t') => (t', InviteReread(sub, g, email, known))
       case UniqueViolation => (t, InviteDone(sub, g, email, known, 409))
       case ForeignKeyViolation => (t, InviteDone(sub, g, email, known, 500)))
    case InviteReread(sub, g, email, known) => (t, InviteDone(sub, g, email, known, 201))
    case JoinUpdate(tok, user) =>
      var i := Holder(t.members, tok, t.nextMember);
      if i.Some? && i.value in t.members then (JoinRow(t, i.value, user), JoinReread(tok, t.members[i.value].parent))
      else (t, JoinDone(tok, 404, None))
    case JoinReread(tok, g) => (t, JoinDone(tok, 200, Some(g)))
    case DeleteRun(sub, g) =>
      if g in t.groups && t.groups[g].owner == sub then (DeleteGroup(t, g), DeleteDone(g, 200))
      else (t, DeleteDone(g, 404))
    case ShareRead(sub, claim, itinerary, target) =>
      if target.None? then (t, ShareInsert(sub, itinerary, target))
      else if target.value !in t.groups || !MayShareTo(GetGroupDto(t, target.value).value, sub, claim)
      then (t, ShareDone(None, 404))
      else (t, ShareInsert(sub, itinerary, target))
    case ShareInsert(sub, itinerary, target) =>
      if target.Some? && target.value !in t.groups then (t, ShareDone(None, 500))   // foreign key
      else (InsertShare(t, token, Share(itinerary, target, sub)), ShareDone(Some(token), 201))
  }

  /** Statements a request still has to send at most. */
  function Remaining(r: Req): nat {
    match r
    case InviteRead(_, _, _, _) => 4
    case InviteCheck(_, _, _, _) => 3
    case InviteInsert(_, _, _, _) => 2
    case InviteReread(_, _, _, _) => 1
    case JoinUpdate(_, _) => 2
    case JoinReread(_, _) => 1
    case DeleteRun(_, _) => 1
    case ShareRead(_, _, _, _) => 2
    case ShareInsert(_, _, _) => 1
    case _ => 0
  }

  /** The request handled from here to its answer with nobody in between. */
  function Alone(t: Tools, r: Req, token: Token): (Tools, Req)
    ensures Answered(Alone(t, r, token).1)
    decreases Remaining(r)
  {
    if Answered(r) then (t, r) else var (t', r') := Execute(t, r, token); Alone(t', r', token)
  }

  function Next(s: Sys, e: Step): Sys
    requires Enabled(s, e)
  {
    match e
    case CreateGroup(g, name, owner) => s.(t := InsertGroup(s.t, g, name, owner), everGroups := s.everGroups + {g})
    case Call(id, r) => s.(reqs := s.reqs[id := r])
    case Advance(id, token) =>
      var (t', r') := Execute(s.t, s.reqs[id], token);
      s.(t := t', reqs := s.reqs[id := r'],
         issued := if s.reqs[id].InviteInsert? || s.reqs[id].ShareInsert? then s.issued + {token} else s.issued)
  }

  ghost predicate IsInit(s: Sys) {
    && Constraints(s.t) && s.reqs == map[]
    && s.everGroups == s.t.groups.Keys
    && (forall i :: i in s.t.members && s.t.members[i].val.token.Some? ==> s.t.members[i].val.token.value in s.issued)
    && s.t.shares.Keys <= s.issued
    && s.seeded == set i | i in s.t.members :: (s.t.members[i].parent, s.t.members[i].val.email)
  }

  ghost predicate IsRun(states: seq<Sys>, steps: seq<Step>) {
    && |states| == |steps| + 1
    && IsInit(states[0])
    && forall i {:trigger steps[i]} :: 0 <= i < |steps| ==>
         Enabled(states[i], steps[i]) && states[i + 1] == Next(states[i], steps[i])
  }

  // ---------------------------------------------------------------------------
  // The invariant
  // ---------------------------------------------------------------------------

  /** The request has stored the membership (g, email). */
  predicate Won(r: Req, g: Gid, email: string) {
    (r.InviteReread? || (r.InviteDone? && r.status == 201)) && r.g == g && r.email == email
  }

  function Winners(s: Sys, g: Gid, email: string): set<nat> { set id | id in s.reqs && Won(s.reqs[id], g, email) }

  predicate JoinWon(r: Req, token: Token) { (r.JoinReread? || (r.JoinDone? && r.status == 200)) && r.token == token }

  predicate TokenHeld(t: Tools, token: Token) { exists i :: i in t.members && t.members[i].val.token == Some(token) }

  predicate IsInvite(r: Req) { r.InviteRead? || r.InviteCheck? || r.InviteInsert? || r.InviteReread? || r.InviteDone? }

  ghost predicate ReqOk(s: Sys, r: Req) {
    && (IsInvite(r) && r.known ==> r.g in s.everGroups)
    && (r.InviteCheck? || r.InviteInsert? || r.InviteReread? ==>
          r.g in s.everGroups && (r.g in s.t.groups ==> s.t.groups[r.g].owner == r.sub))
    && (r.InviteDone? ==>
          && r.status in {201, 403, 404, 409, 500}
          && (r.status == 201 || r.status == 409 ==> r.g in s.everGroups)
          && (r.status == 409 && r.g in s.t.groups ==> HasEmail(s.t, r.g, r.email))
          && (r.status == 500 ==> r.g in s.everGroups && r.g !in s.t.groups)
          && (r.status == 404 && r.known ==> r.g !in s.t.groups)
          && (r.status == 403 ==> r.g in s.everGroups && (r.g in s.t.groups ==> s.t.groups[r.g].owner != r.sub)))
    && (r.JoinReread? || (r.JoinDone? && r.status == 200) ==> r.token in s.issued && !TokenHeld(s.t, r.token))
  }

  ghost predicate Inv(s: Sys) {
    && Constraints(s.t)
    && s.t.groups.Keys <= s.everGroups
    && (forall i :: i in s.t.members && s.t.members[i].val.token.Some? ==> s.t.members[i].val.token.value in s.issued)
    && s.t.shares.Keys <= s.issued
    && (forall p :: p in s.seeded ==> p.0 in s.everGroups)
    && (forall id :: id in s.reqs ==> ReqOk(s, s.reqs[id]))
    && (forall g, email :: g in s.t.groups ==>
          |Winners(s, g, email)| + One((g, email) in s.seeded) == One(HasEmail(s.t, g, email)))
    && (forall a, b, token :: a in s.reqs && b in s.reqs && JoinWon(s.reqs[a], token) && JoinWon(s.reqs[b], token) ==>
          a == b)
  }
}
