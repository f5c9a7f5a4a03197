/** What every interleaving of group requests keeps. */
module GroupProofs {
  import opened Common
  import opened ChildTables
  import opened ToolsTables
  import opened GroupProtocol

  /** What a step may do to the facts other requests rely on. */
  ghost predicate Evolves(s: Sys, s': Sys) {
    && s.everGroups <= s'.everGroups && s.issued <= s'.issued
    && (forall g :: g in s.everGroups && g in s'.t.groups ==> g in s.t.groups && s.t.groups[g] == s'.t.groups[g])
    && (forall g, email :: HasEmail(s.t, g, email) && g in s'.t.groups ==> HasEmail(s'.t, g, email))
    && (forall k :: k in s.issued && TokenHeld(s'.t, k) ==> TokenHeld(s.t, k))
  }

  lemma ReqStable(s: Sys, s': Sys, r: Req)
    requires ReqOk(s, r) && Evolves(s, s')
    ensures ReqOk(s', r)
  {
  }

  // ---------------------------------------------------------------------------
  // Statements on the tables
  // ---------------------------------------------------------------------------

  /** The row facts shared by all statements that keep the groups: nobody loses a membership. */
  lemma InsertFacts(t: Tools, g: Gid, email: string, token: Token)
    requires Constraints(t) && InsertInvited(t, g, email, token).Inserted? && !TokenHeld(t, token)
    ensures var t' := InsertInvited(t, g, email, token).t;
            && Constraints(t') && t'.groups == t.groups && t'.shares == t.shares
            && (forall h, e :: HasEmail(t', h, e) <==> HasEmail(t, h, e) || (h == g && e == email))
            && (forall k :: TokenHeld(t', k) <==> TokenHeld(t, k) || k == token)
  {
    var t' := InsertInvited(t, g, email, token).t;
    assert t'.members[t.nextMember] == Row(g, Member(email, None, Invited, Some(token)));
    forall h, e
      ensures HasEmail(t', h, e) <==> HasEmail(t, h, e) || (h == g && e == email)
    {
      if i :| i in t.members && t.members[i].parent == h && t.members[i].val.email == e {
        assert t'.members[i] == t.members[i];
      }
    }
    forall k
      ensures TokenHeld(t', k) <==> TokenHeld(t, k) || k == token
    {
      if i :| i in t.members && t.members[i].val.token == Some(k) { assert t'.members[i] == t.members[i]; }
    }
  }

  lemma JoinFacts(t: Tools, i: nat, user: User)
    requires Constraints(t) && i in t.members && t.members[i].val.token.Some?
    ensures var t' := JoinRow(t, i, user);
            && Constraints(t') && t'.groups == t.groups && t'.shares == t.shares
            && (forall h, e :: HasEmail(t', h, e) <==> HasEmail(t, h, e))
            && (forall k :: TokenHeld(t', k) <==> TokenHeld(t, k) && Some(k) != t.members[i].val.token)
  {
    var t' := JoinRow(t, i, user);
    forall h, e
      ensures HasEmail(t', h, e) <==> HasEmail(t, h, e)
    {
      if j :| j in t.members && t.members[j].parent == h && t.members[j].val.email == e {
        assert t'.members[j].parent == h && t'.members[j].val.email == e;
      }
    }
    forall k
      ensures TokenHeld(t', k) <==> TokenHeld(t, k) && Some(k) != t.members[i].val.token
    {
      if j :| j in t.members && t.members[j].val.token == Some(k) && j != i { assert t'.members[j] == t.members[j]; }
    }
  }

  lemma DeleteFacts(t: Tools, g: Gid)
    requires Constraints(t)
    ensures var t' := DeleteGroup(t, g);
            && Constraints(t') && t'.groups == t.groups - {g} && t'.shares.Keys == t.shares.Keys
            && (forall h, e :: HasEmail(t', h, e) <==> HasEmail(t, h, e) && h != g)
            && (forall k :: TokenHeld(t', k) ==> TokenHeld(t, k))
  {
    var t' := DeleteGroup(t, g);
    forall h, e
      ensures HasEmail(t', h, e) <==> HasEmail(t, h, e) && h != g
    {
      if h != g {
        if i :| i in t.members && t.members[i].parent == h && t.members[i].val.email == e {
          assert t'.members[i] == t.members[i];
        }
      }
    }
  }

  // ---------------------------------------------------------------------------
  // Steps
  // ---------------------------------------------------------------------------

  /** s' is a proper successor of s as far as tables and issued tokens go. */
  ghost predicate Succeeds(s: Sys, s': Sys) {
    && Constraints(s'.t) && Evolves(s, s')
    && s'.t.groups.Keys <= s.t.groups.Keys
    && (forall i :: i in s'.t.members && s'.t.members[i].val.token.Some? ==>
          s'.t.members[i].val.token.value in s'.issued)
    && s'.t.shares.Keys <= s'.issued
  }

  lemma InsertSucceeds(s: Sys, id: nat, token: Token)
    requires Inv(s) && Enabled(s, Advance(id, token)) && s.reqs[id].InviteInsert?
    ensures Succeeds(s, Next(s, Advance(id, token)))
  {
    var r := s.reqs[id];
    if InsertInvited(s.t, r.g, r.email, token).Inserted? { InsertFacts(s.t, r.g, r.email, token); }
  }

  lemma JoinSucceeds(s: Sys, id: nat, token: Token)
    requires Inv(s) && Enabled(s, Advance(id, token)) && s.reqs[id].JoinUpdate?
    ensures Succeeds(s, Next(s, Advance(id, token)))
  {
    var r := s.reqs[id];
    HolderExact(s.t.members, r.token, s.t.nextMember);
    var i := Holder(s.t.members, r.token, s.t.nextMember);
    if i.Some? { JoinFacts(s.t, i.value, r.user); }
  }

  lemma DeleteSucceeds(s: Sys, id: nat, token: Token)
    requires Inv(s) && Enabled(s, Advance(id, token)) && s.reqs[id].DeleteRun?
    ensures Succeeds(s, Next(s, Advance(id, token)))
  {
    DeleteFacts(s.t, s.reqs[id].g);
  }

  /** Whichever statement a request sends. */
  lemma ExecuteFacts(s: Sys, id: nat, token: Token)
    requires Inv(s) && Enabled(s, Advance(id, token))
    ensures Succeeds(s, Next(s, Advance(id, token)))
  {
    var s' := Next(s, Advance(id, token));
    var r := s.reqs[id];
    if r.InviteInsert? {
      InsertSucceeds(s, id, token);
    } else if r.JoinUpdate? {
      JoinSucceeds(s, id, token);
    } else if r.DeleteRun? {
      DeleteSucceeds(s, id, token);
    } else if !r.ShareInsert? {
      assert s'.t == s.t;
    }
  }

  /** The answer a request moves to is right when it is given. */
  lemma OwnReqOk(s: Sys, id: nat, token: Token)
    requires Inv(s) && Enabled(s, Advance(id, token))
    ensures ReqOk(Next(s, Advance(id, token)), Next(s, Advance(id, token)).reqs[id])
  {
    ExecuteFacts(s, id, token);
    var r := s.reqs[id];
    assert ReqOk(s, r);
    match r
    case InviteInsert(_, g, email, _) =>
      if InsertInvited(s.t, g, email, token).Inserted? { InsertFacts(s.t, g, email, token); }
    case JoinUpdate(tok, user) =>
      HolderExact(s.t.members, tok, s.t.nextMember);
      var i := Holder(s.t.members, tok, s.t.nextMember);
      if i.Some? { JoinFacts(s.t, i.value, user); }
    case _ =>
  }

  /** Only an accepted insert makes a winner. */
  lemma WinnerInserts(s: Sys, id: nat, token: Token, g: Gid, email: string)
    requires Enabled(s, Advance(id, token))
    requires Won(Next(s, Advance(id, token)).reqs[id], g, email) && !Won(s.reqs[id], g, email)
    ensures s.reqs[id].InviteInsert? && s.reqs[id].g == g && s.reqs[id].email == email
    ensures InsertInvited(s.t, g, email, token).Inserted?
    ensures Next(s, Advance(id, token)).t == InsertInvited(s.t, g, email, token).t
  {
  }

  lemma OneMoreWinner(s: Sys, id: nat, token: Token, g: Gid, email: string)
    requires Inv(s) && Enabled(s, Advance(id, token))
    requires Won(Next(s, Advance(id, token)).reqs[id], g, email) && !Won(s.reqs[id], g, email)
    ensures Winners(Next(s, Advance(id, token)), g, email) == Winners(s, g, email) + {id}
    ensures s.reqs[id].InviteInsert? && !HasEmail(s.t, g, email) && HasEmail(Next(s, Advance(id, token)).t, g, email)
  {
    WinnerInserts(s, id, token, g, email);
    InsertFacts(s.t, g, email, token);
  }

  lemma WinnersStep(s: Sys, id: nat, token: Token, g: Gid, email: string)
    requires Inv(s) && Enabled(s, Advance(id, token)) && g in Next(s, Advance(id, token)).t.groups
    ensures var s' := Next(s, Advance(id, token));
            |Winners(s', g, email)| + One((g, email) in s.seeded) == One(HasEmail(s'.t, g, email))
  {
    var s' := Next(s, Advance(id, token));
    ExecuteFacts(s, id, token);
    assert g in s.t.groups;
    assert |Winners(s, g, email)| + One((g, email) in s.seeded) == One(HasEmail(s.t, g, email));
    if Won(s'.reqs[id], g, email) && !Won(s.reqs[id], g, email) {
      OneMoreWinner(s, id, token, g, email);
    } else {
      assert Winners(s', g, email) == Winners(s, g, email);
      SameMembership(s, id, token, g, email);
    }
  }

  lemma SameMembership(s: Sys, id: nat, token: Token, g: Gid, email: string)
    requires Inv(s) && Enabled(s, Advance(id, token)) && g in Next(s, Advance(id, token)).t.groups
    requires !(s.reqs[id].InviteInsert? && Next(s, Advance(id, token)).reqs[id].InviteReread?
               && s.reqs[id].g == g && s.reqs[id].email == email)
    ensures HasEmail(Next(s, Advance(id, token)).t, g, email) <==> HasEmail(s.t, g, email)
  {
    match s.reqs[id]
    case InviteInsert(_, h, e, _) =>
      if InsertInvited(s.t, h, e, token).Inserted? { InsertFacts(s.t, h, e, token); }
    case JoinUpdate(tok, user) =>
      HolderExact(s.t.members, tok, s.t.nextMember);
      var i := Holder(s.t.members, tok, s.t.nextMember);
      if i.Some? { JoinFacts(s.t, i.value, user); }
    case DeleteRun(_, h) => DeleteFacts(s.t, h);
    case _ =>
  }

  lemma JoinWonStep(s: Sys, id: nat, token: Token, other: nat, tok: Token)
    requires Inv(s) && Enabled(s, Advance(id, token)) && other in s.reqs && other != id
    requires JoinWon(Next(s, Advance(id, token)).reqs[id], tok)
    ensures !JoinWon(s.reqs[other], tok)
  {
    if JoinWon(s.reqs[other], tok) {
      assert ReqOk(s, s.reqs[other]);
      assert !JoinWon(s.reqs[id], tok);
      HolderExact(s.t.members, tok, s.t.nextMember);
    }
  }

  lemma InvAdvance(s: Sys, id: nat, token: Token)
    requires Inv(s) && Enabled(s, Advance(id, token))
    ensures Inv(Next(s, Advance(id, token)))
  {
    var s' := Next(s, Advance(id, token));
    ExecuteFacts(s, id, token);
    OwnReqOk(s, id, token);
    forall q | q in s'.reqs && q != id ensures ReqOk(s', s'.reqs[q]) { ReqStable(s, s', s.reqs[q]); }
    forall g, email | g in s'.t.groups
      ensures |Winners(s', g, email)| + One((g, email) in s'.seeded) == One(HasEmail(s'.t, g, email))
    {
      WinnersStep(s, id, token, g, email);
    }
    forall a, b, tok | a in s'.reqs && b in s'.reqs && JoinWon(s'.reqs[a], tok) && JoinWon(s'.reqs[b], tok)
      ensures a == b
    {
      if a == id && b != id { JoinWonStep(s, id, token, b, tok); }
      if b == id && a != id { JoinWonStep(s, id, token, a, tok); }
    }
  }

  lemma InvCreate(s: Sys, g: Gid, name: string, owner: User)
    requires Inv(s) && Enabled(s, CreateGroup(g, name, owner))
    ensures Inv(Next(s, CreateGroup(g, name, owner)))
  {
    var s' := Next(s, CreateGroup(g, name, owner));
    assert forall h, e :: HasEmail(s'.t, h, e) <==> HasEmail(s.t, h, e);
    forall q | q in s'.reqs ensures ReqOk(s', s'.reqs[q]) { ReqStable(s, s', s.reqs[q]); }
    forall h, e | h in s'.t.groups
      ensures |Winners(s', h, e)| + One((h, e) in s'.seeded) == One(HasEmail(s'.t, h, e))
    {
      assert Winners(s', h, e) == Winners(s, h, e);
      if h == g {
        forall id | id in s.reqs ensures !Won(s.reqs[id], g, e) { assert ReqOk(s, s.reqs[id]); }
        assert Winners(s, g, e) == {};
      }
    }
  }

  lemma InvCall(s: Sys, id: nat, r: Req)
    requires Inv(s) && Enabled(s, Call(id, r))
    ensures Inv(Next(s, Call(id, r)))
  {
    var s' := Next(s, Call(id, r));
    forall q | q in s'.reqs && q != id ensures ReqOk(s', s'.reqs[q]) { ReqStable(s, s', s.reqs[q]); }
    forall g, email | g in s'.t.groups
      ensures |Winners(s', g, email)| + One((g, email) in s'.seeded) == One(HasEmail(s'.t, g, email))
    {
      assert Winners(s', g, email) == Winners(s, g, email);
    }
  }

  lemma InvStep(s: Sys, e: Step)
    requires Inv(s) && Enabled(s, e)
    ensures Inv(Next(s, e))
  {
    match e
    case CreateGroup(g, name, owner) => InvCreate(s, g, name, owner);
    case Call(id, r) => InvCall(s, id, r);
    case Advance(id, token) => InvAdvance(s, id, token);
  }

  lemma InvInit(s: Sys)
    requires IsInit(s)
    ensures Inv(s)
  {
    forall g, email | g in s.t.groups
      ensures |Winners(s, g, email)| + One((g, email) in s.seeded) == One(HasEmail(s.t, g, email))
    {
      assert Winners(s, g, email) == {};
      if HasEmail(s.t, g, email) {
        var i :| i in s.t.members && s.t.members[i].parent == g && s.t.members[i].val.email == email;
        assert (s.t.members[i].parent, s.t.members[i].val.email) in s.seeded;
      }
    }
  }

  lemma {:induction false} RunInv(states: seq<Sys>, steps: seq<Step>, i: nat)
    requires IsRun(states, steps) && i < |states|
    ensures Inv(states[i])
  {
    if i == 0 {
      InvInit(states[0]);
    } else {
      RunInv(states, steps, i - 1);
      InvStep(states[i - 1], steps[i - 1]);
    }
  }

  // ---------------------------------------------------------------------------
  // Results
  // ---------------------------------------------------------------------------

  /** The invites of the owner for one e-mail in one group that have been answered, with that answer. */
  function Answers(s: Sys, g: Gid, email: string, status: nat): set<nat> {
    set id | id in s.reqs && s.reqs[id].InviteDone? && s.reqs[id].g == g && s.reqs[id].email == email
          && s.reqs[id].status == status
  }

  /** The membership rows keep their constraints, and a member is 'invited' exactly while its token is unused. */
  lemma MembershipsSound(states: seq<Sys>, steps: seq<Step>, i: nat)
    requires IsRun(states, steps) && i < |states|
    ensures Constraints(states[i].t)
  {
    RunInv(states, steps, i);
  }

  /** Whatever joins race, each token lets at most one of them in. */
  lemma TokenJoinsOnce(states: seq<Sys>, steps: seq<Step>, i: nat, a: nat, b: nat, token: Token)
    requires IsRun(states, steps) && i < |states| && a in states[i].reqs && b in states[i].reqs
    requires JoinWon(states[i].reqs[a], token) && JoinWon(states[i].reqs[b], token)
    ensures a == b && !TokenHeld(states[i].t, token)
  {
    RunInv(states, steps, i);
    assert ReqOk(states[i], states[i].reqs[a]);
  }

  /**
   * Racing invites for one e-mail, while the group lives: every answer the owner gets is 201 or 409,
   * and as soon as there is an answer and no winner is still on its way to answering, exactly one
   * invite was answered 201, or none when the e-mail was a member from the start.
   */
  lemma RacingInvites(states: seq<Sys>, steps: seq<Step>, i: nat, g: Gid, email: string, id: nat)
    requires IsRun(states, steps) && i < |states| && g in states[i].t.groups && id in states[i].reqs
    requires var r := states[i].reqs[id];
             r.InviteDone? && r.g == g && r.email == email && r.known && r.sub == states[i].t.groups[g].owner
    ensures states[i].reqs[id].status in {201, 409}
    ensures HasEmail(states[i].t, g, email)
    ensures |Answers(states[i], g, email, 201)| <= 1
    ensures (forall q :: q in states[i].reqs && states[i].reqs[q].InviteReread? ==>
               states[i].reqs[q].g != g || states[i].reqs[q].email != email) ==>
            |Answers(states[i], g, email, 201)| == One((g, email) !in states[i].seeded)
  {
    RunInv(states, steps, i);
    var s := states[i];
    assert ReqOk(s, s.reqs[id]);
    if s.reqs[id].status == 201 {
      assert id in Winners(s, g, email);
      assert |Winners(s, g, email)| > 0;
    }
    SubsetSize(Answers(s, g, email, 201), Winners(s, g, email));
    if forall q :: q in s.reqs && s.reqs[q].InviteReread? ==> s.reqs[q].g != g || s.reqs[q].email != email {
      assert Answers(s, g, email, 201) == Winners(s, g, email);
    }
  }

  // ---------------------------------------------------------------------------
  // Shares outlive groups
  // ---------------------------------------------------------------------------

  ghost predicate ShareKept(s: Sys, s': Sys, token: Token) {
    token in s.t.shares ==>
      && token in s'.t.shares
      && s'.t.shares[token].itinerary == s.t.shares[token].itinerary
      && s'.t.shares[token].createdBy == s.t.shares[token].createdBy
      && s'.t.shares[token].group ==
           (if s.t.shares[token].group.Some? && s.t.shares[token].group.value !in s'.t.groups then None
            else s.t.shares[token].group)
  }

  /** A deleted group never comes back. */
  ghost predicate GoneStay(s: Sys, s': Sys) {
    forall g :: g in s.everGroups && g !in s.t.groups ==> g !in s'.t.groups
  }

  /** Only a delete that goes through touches a share, and then only its group. */
  lemma ShareAfter(t: Tools, r: Req, drawn: Token, k: Token)
    requires !Answered(r) && k in t.shares && (r.ShareInsert? ==> drawn !in t.shares)
    ensures var t' := Execute(t, r, drawn).0;
            && k in t'.shares
            && t'.shares[k] ==
                 if r.DeleteRun? && r.g in t.groups && t.groups[r.g].owner == r.sub && t.shares[k].group == Some(r.g)
                 then t.shares[k].(group := None) else t.shares[k]
  {
  }

  lemma GroupsAfter(t: Tools, r: Req, drawn: Token)
    requires !Answered(r)
    ensures Execute(t, r, drawn).0.groups ==
              if r.DeleteRun? && r.g in t.groups && t.groups[r.g].owner == r.sub then t.groups - {r.g} else t.groups
  {
  }

  lemma ShareStep(s: Sys, e: Step, token: Token)
    requires Inv(s) && Enabled(s, e)
    ensures ShareKept(s, Next(s, e), token) && GoneStay(s, Next(s, e)) && s.everGroups <= Next(s, e).everGroups
  {
    if e.Advance? {
      GroupsAfter(s.t, s.reqs[e.id], e.token);
      if token in s.t.shares { ShareAfter(s.t, s.reqs[e.id], e.token, token); }
    }
  }

  /**
   * Once created, a share token resolves to the same itinerary in every later state, and its group
   * is the original one, or null exactly when that group is gone by then.
   */
  lemma {:induction false} SharesOutliveGroups(states: seq<Sys>, steps: seq<Step>, i: nat, j: nat, token: Token)
    requires IsRun(states, steps) && i <= j < |states|
    ensures ShareKept(states[i], states[j], token)
    ensures states[i].everGroups <= states[j].everGroups
  {
    RunInv(states, steps, i);
    if i < j {
      SharesOutliveGroups(states, steps, i, j - 1, token);
      RunShareStep(states, steps, j - 1, token);
      KeptOn(states[i], states[j - 1], states[j], token);
    }
  }

  lemma RunShareStep(states: seq<Sys>, steps: seq<Step>, j: nat, token: Token)
    requires IsRun(states, steps) && j < |steps|
    ensures var s, s' := states[j], states[j + 1];
            ShareKept(s, s', token) && GoneStay(s, s') && s.everGroups <= s'.everGroups
  {
    RunInv(states, steps, j);
    ShareStep(states[j], steps[j], token);
  }

  lemma KeptOn(a: Sys, b: Sys, c: Sys, token: Token)
    requires Inv(a) && ShareKept(a, b, token) && a.everGroups <= b.everGroups
    requires ShareKept(b, c, token) && GoneStay(b, c)
    ensures ShareKept(a, c, token)
  {
  }
}
