/** The route handlers of the tools service, one request at a time, as code. */
module ToolsService {
  import opened Common
  import opened ChildTables
  import opened ToolsTables
  import opened GroupProtocol
  import opened GroupProofs

  datatype Outcome<T> = Ok(value: T) | Err(status: nat)

  /** The first occurrence of every address, in order: [...new Set(s)]. */
  function Dedupe(s: seq<string>): seq<string> {
    if s == [] then []
    else var d := Dedupe(s[..|s| - 1]); if s[|s| - 1] in d then d else d + [s[|s| - 1]]
  }

  lemma {:induction false} DedupeSet(s: seq<string>)
    ensures forall e :: e in Dedupe(s) <==> e in s
    ensures forall i, j :: 0 <= i < j < |Dedupe(s)| ==> Dedupe(s)[i] != Dedupe(s)[j]
  {
    if s != [] { DedupeSet(s[..|s| - 1]); assert s == s[..|s| - 1] + [s[|s| - 1]]; }
  }

  /** The list keeps every address where it occurs first, in order: from[i] is the place of the i-th. */
  lemma {:induction false} DedupeOrder(s: seq<string>) returns (from: seq<nat>)
    ensures |from| == |Dedupe(s)|
    ensures forall i :: 0 <= i < |from| ==> from[i] < |s| && s[from[i]] == Dedupe(s)[i] && s[from[i]] !in s[..from[i]]
    ensures forall i, j :: 0 <= i < j < |from| ==> from[i] < from[j]
  {
    from := [];
    if s != [] {
      var n := |s| - 1;
      from := DedupeOrder(s[..n]);
      assert forall k :: 0 <= k < n ==> s[..n][..k] == s[..k];
      DedupeSet(s[..n]);
      if s[n] !in Dedupe(s[..n]) { from := from + [n]; }
    }
  }

  /** SELECT email FROM group_members WHERE group_id = g AND status = 'joined' */
  function JoinedEmails(rows: seq<(nat, Member)>): seq<string> {
    if rows == [] then []
    else JoinedEmails(rows[..|rows| - 1]) +
         if rows[|rows| - 1].1.status.Joined? then [rows[|rows| - 1].1.email] else []
  }

  lemma {:induction false} JoinedEmailsExact(rows: seq<(nat, Member)>, email: string)
    ensures email in JoinedEmails(rows) <==>
              exists j :: 0 <= j < |rows| && rows[j].1.status.Joined? && rows[j].1.email == email
  {
    if rows != [] { JoinedEmailsExact(rows[..|rows| - 1], email); }
  }

  // ---------------------------------------------------------------------------
  // Requests handled alone, in closed form
  // ---------------------------------------------------------------------------

  lemma AloneEnds(t: Tools, r: Req, token: Token)
    requires !Answered(r) && Answered(Execute(t, r, token).1)
    ensures Alone(t, r, token) == Execute(t, r, token)
  {
  }

  lemma InviteAlone(t: Tools, sub: User, g: Gid, email: string, known: bool, token: Token)
    ensures var done := (status: nat) => InviteDone(sub, g, email, known, status);
            Alone(t, InviteRead(sub, g, email, known), token) ==
              if g !in t.groups then (t, done(404))
              else if t.groups[g].owner != sub then (t, done(403))
              else if HasEmail(t, g, email) then (t, done(409))
              else (InsertInvited(t, g, email, token).t, done(201))
  {
    if g !in t.groups || t.groups[g].owner != sub {
      AloneEnds(t, InviteRead(sub, g, email, known), token);
    } else {
      var r1 := InviteCheck(sub, g, email, known);
      assert Alone(t, InviteRead(sub, g, email, known), token) == Alone(t, r1, token);
      if HasEmail(t, g, email) {
        AloneEnds(t, r1, token);
      } else {
        var r2 := InviteInsert(sub, g, email, known);
        assert Alone(t, r1, token) == Alone(t, r2, token);
        var t' := InsertInvited(t, g, email, token).t;
        var r3 := InviteReread(sub, g, email, known);
        assert Alone(t, r2, token) == Alone(t', r3, token);
        AloneEnds(t', r3, token);
      }
    }
  }

  lemma JoinAlone(t: Tools, user: User, k: Token, token: Token)
    ensures Alone(t, JoinUpdate(k, user), token) ==
              var i := Holder(t.members, k, t.nextMember);
              if i.Some? && i.value in t.members
              then (JoinRow(t, i.value, user), JoinDone(k, 200, Some(t.members[i.value].parent)))
              else (t, JoinDone(k, 404, None))
  {
    var i := Holder(t.members, k, t.nextMember);
    if i.Some? && i.value in t.members {
      var r1 := JoinReread(k, t.members[i.value].parent);
      assert Alone(t, JoinUpdate(k, user), token) == Alone(JoinRow(t, i.value, user), r1, token);
      AloneEnds(JoinRow(t, i.value, user), r1, token);
    } else {
      AloneEnds(t, JoinUpdate(k, user), token);
    }
  }

  lemma ShareAlone(t: Tools, sub: User, claim: Option<string>, itinerary: ItineraryId, target: Option<Gid>,
                   token: Token)
    ensures Alone(t, ShareRead(sub, claim, itinerary, target), token) ==
              if target.Some?
                 && (target.value !in t.groups || !MayShareTo(GetGroupDto(t, target.value).value, sub, claim))
              then (t, ShareDone(None, 404))
              else (InsertShare(t, token, ToolsTables.Share(itinerary, target, sub)), ShareDone(Some(token), 201))
  {
    var r1 := ShareInsert(sub, itinerary, target);
    if Execute(t, ShareRead(sub, claim, itinerary, target), token).1 == r1 {
      assert Alone(t, ShareRead(sub, claim, itinerary, target), token) == Alone(t, r1, token);
      AloneEnds(t, r1, token);
    } else {
      AloneEnds(t, ShareRead(sub, claim, itinerary, target), token);
    }
  }

  predicate HasJoined(t: Tools, g: Gid, email: string) {
    SomeMember(t, g, (m: Member) => m.status.Joined? && m.email == email)
  }

  /** [...new Set([...explicit, ...joined])] */
  lemma RecipientsUnion(t: Tools, g: Gid, explicit: seq<string>, email: string)
    requires Constraints(t)
    ensures email in Dedupe(explicit + JoinedEmails(MembersOf(t, g))) <==> email in explicit || HasJoined(t, g, email)
  {
    var rows := MembersOf(t, g);
    DedupeSet(explicit + JoinedEmails(rows));
    JoinedEmailsExact(rows, email);
    SelectExact(t.members, g, t.nextMember);
    if j :| 0 <= j < |rows| && rows[j].1.status.Joined? && rows[j].1.email == email {
      assert (rows[j].0, rows[j].1) in rows;
      assert t.members[rows[j].0].val == rows[j].1;
    }
    if i :|
      i in t.members && t.members[i].parent == g && t.members[i].val.status.Joined? && t.members[i].val.email == email {
      assert (i, t.members[i].val) in rows;
      var j :| 0 <= j < |rows| && rows[j] == (i, t.members[i].val);
    }
  }

  // ---------------------------------------------------------------------------
  // The handlers
  // ---------------------------------------------------------------------------

  /** What a failed INSERT is answered: 23505 becomes 409, anything else 500. */
  function InsertStatus(insert: InsertResult): nat {
    match insert
    case Inserted(_) => 201
    case UniqueViolation => 409
    case ForeignKeyViolation => 500
  }

  predicate IsMember(t: Tools, g: Gid, email: string) {
    exists i :: i in t.members && t.members[i].parent == g && t.members[i].val.email == email
  }

  /** What deleting group g leaves of a share. */
  predicate SharesWithout(before: Share, after: Share, g: Gid) {
    && after.itinerary == before.itinerary && after.createdBy == before.createdBy
    && after.group == if before.group == Some(g) then None else before.group
  }

  class Service {
    var t: Tools
    var notified: seq<(Token, seq<string>)>   // itinerary.shared events: token and recipients

    ghost predicate Valid()
      reads this
    {
      Constraints(t)
    }

    constructor ()
      ensures Valid() && t == Tools(map[], map[], 0, map[]) && notified == []
    {
      t, notified := Tools(map[], map[], 0, map[]), [];
    }

    /** POST /:id/invites, with the token the generator returns. */
    method Invite(sub: User, g: Gid, email: string, token: Token) returns (r: Outcome<GroupDto>)
      requires Valid() && !TokenHeld(t, token)
      modifies this`t
      ensures Valid()
      ensures var (t', answer) := Alone(old(t), InviteRead(sub, g, email, g in old(t).groups), token);
              t == t' &&
              if answer.status == 201 then g in t.groups && r == Ok(GetGroupDto(t, g).value)
              else r == Err(answer.status)
      ensures r.Err? ==> t == old(t)
      ensures if g !in old(t).groups then r == Err(404)
              else if old(t).groups[g].owner != sub then r == Err(403)
              else if IsMember(old(t), g, email) then r == Err(409)
              else r.Ok?
      ensures r.Ok? ==>
                && old(t).nextMember !in old(t).members
                && t.members == old(t).members[old(t).nextMember := Row(g, Member(email, None, Invited, Some(token)))]
                && t.groups == old(t).groups && t.shares == old(t).shares
    {
      InviteAlone(t, sub, g, email, g in t.groups, token);
      var group := GetGroupDto(t, g);
      if group.None? { return Err(404); }
      if group.value.owner != sub { return Err(403); }
      if HasEmail(t, g, email) { return Err(409); }
      var insert := InsertInvited(t, g, email, token);
      var status := InsertStatus(insert);
      if !insert.Inserted? { return Err(status); }
      InsertFacts(t, g, email, token);
      t := insert.t;
      return Ok(GetGroupDto(t, g).value);
    }

    /** POST /join */
    method Join(sub: User, token: Token) returns (r: Outcome<GroupDto>)
      requires Valid()
      modifies this`t
      ensures Valid()
      ensures var (t', answer) := Alone(old(t), JoinUpdate(token, sub), token);
              && t == t' && answer.JoinDone?
              && if answer.status == 200
                 then answer.group.Some? && answer.group.value in t.groups
                      && r == Ok(GetGroupDto(t, answer.group.value).value)
                 else r == Err(answer.status)
      ensures r.Err? ==> r == Err(404) && t == old(t) && !TokenHeld(old(t), token)
      ensures forall i :: i in old(t).members && old(t).members[i].val.token == Some(token) ==>
                && r.Ok? && r.value.id == old(t).members[i].parent
                && t.members == old(t).members[i := Row(old(t).members[i].parent,
                                                        Member(old(t).members[i].val.email, Some(sub), Joined, None))]
      ensures t.groups == old(t).groups && t.shares == old(t).shares
    {
      JoinAlone(t, sub, token, token);
      HolderExact(t.members, token, t.nextMember);
      var i := Holder(t.members, token, t.nextMember);
      if i.None? { return Err(404); }
      var g := t.members[i.value].parent;
      JoinFacts(t, i.value, sub);
      t := JoinRow(t, i.value, sub);
      return Ok(GetGroupDto(t, g).value);
    }

    /** DELETE /:id */
    method Delete(sub: User, g: Gid) returns (status: nat)
      requires Valid()
      modifies this`t
      ensures Valid()
      ensures forall token: Token :: (t, DeleteDone(g, status)) == Alone(old(t), DeleteRun(sub, g), token)
      ensures status == if g in old(t).groups && old(t).groups[g].owner == sub then 200 else 404
      ensures status == 404 ==> t == old(t)
      ensures status == 200 ==>
                && t.groups == old(t).groups - {g} && t.shares.Keys == old(t).shares.Keys
                && (forall i :: i in t.members <==> i in old(t).members && old(t).members[i].parent != g)
                && (forall i :: i in t.members ==> t.members[i] == old(t).members[i])
                && (forall k :: k in t.shares ==> SharesWithout(old(t).shares[k], t.shares[k], g))
    {
      if g !in t.groups || t.groups[g].owner != sub { return 404; }
      DeleteFacts(t, g);
      t := DeleteGroup(t, g);
      return 200;
    }

    /** POST /shares: an event to the explicit recipients and the group's joined members, each once. */
    method Share(sub: User, claim: Option<string>, itinerary: ItineraryId, target: Option<Gid>,
                 explicit: seq<string>, token: Token) returns (r: Outcome<Token>)
      requires Valid()
      modifies this
      ensures Valid()
      ensures var (t', answer) := Alone(old(t), ShareRead(sub, claim, itinerary, target), token);
              t == t' && if answer.status == 201 then r == Ok(token) else r == Err(answer.status)
      ensures r.Err? ==> r == Err(404) && t == old(t)
      ensures r.Ok? <==>
                target.Some? ==>
                  && target.value in old(t).groups
                  && MayShareTo(GetGroupDto(old(t), target.value).value, sub, claim)
      ensures r.Ok? ==>
                && t.shares == old(t).shares[token := ToolsTables.Share(itinerary, target, sub)]
                && t.groups == old(t).groups && t.members == old(t).members
      ensures notified == old(notified) +
                if r.Err? then []
                else if target.None? then [(token, explicit)]
                else [(token, Dedupe(explicit + JoinedEmails(MembersOf(old(t), target.value))))]
    {
      ShareAlone(t, sub, claim, itinerary, target, token);
      var recipients := explicit;
      if target.Some? {
        var group := GetGroupDto(t, target.value);
        if group.None? { return Err(404); }
        if !MayShareTo(group.value, sub, claim) { return Err(404); }
        recipients := Dedupe(recipients + JoinedEmails(MembersOf(t, target.value)));
      }
      t := InsertShare(t, token, ToolsTables.Share(itinerary, target, sub));
      notified := notified + [(token, recipients)];
      return Ok(token);
    }
  }
}
