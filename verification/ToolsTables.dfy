/**
 * The tables of db/init/tools-service.sql and the statements of
 * services/tools-service/src/repositories/toolsRepository.ts.
 */
module ToolsTables {
  import opened Common
  import opened ChildTables

  type User(==, !new, 0)
  type Gid(==, !new, 0)
  type Token(==, !new, 0)
  type ItineraryId(==, !new, 0)

  datatype Status = Invited | Joined

  datatype Group = Group(name: string, owner: User)

  datatype Member = Member(email: string, userId: Option<User>, status: Status, token: Option<Token>)

  datatype Share = Share(itinerary: ItineraryId, group: Option<Gid>, createdBy: User)

  datatype Tools = Tools(
    groups: map<Gid, Group>,
    members: Table<Gid, Member>,
    nextMember: nat,
    shares: map<Token, Share>)

  /** The constraints of the DDL, and the meaning of the token column. */
  ghost predicate Constraints(t: Tools) {
    && Below(t.members, t.nextMember)
    && (forall i :: i in t.members ==> t.members[i].parent in t.groups)
    && (forall i, j | i in t.members && j in t.members && t.members[i].parent == t.members[j].parent ::
          t.members[i].val.email == t.members[j].val.email ==> i == j)
    && (forall i, j | i in t.members && j in t.members && t.members[i].val.token.Some? ::
          t.members[i].val.token == t.members[j].val.token ==> i == j)
    && (forall i :: i in t.members ==> (t.members[i].val.status.Invited? <==> t.members[i].val.token.Some?))
    && (forall k :: k in t.shares && t.shares[k].group.Some? ==> t.shares[k].group.value in t.groups)
  }

  // ---------------------------------------------------------------------------
  // Queries
  // ---------------------------------------------------------------------------

  /** The members of g, oldest invite first. */
  function MembersOf(t: Tools, g: Gid): seq<(nat, Member)> { Select(t.members, g, t.nextMember) }

  /** EXISTS (SELECT 1 FROM group_members WHERE group_id = g AND p) */
  predicate SomeMember(t: Tools, g: Gid, p: Member -> bool) {
    exists i :: i in t.members && t.members[i].parent == g && p(t.members[i].val)
  }

  predicate HasEmail(t: Tools, g: Gid, email: string) { SomeMember(t, g, (m: Member) => m.email == email) }

  datatype GroupDto = GroupDto(id: Gid, name: string, owner: User, members: seq<Member>)

  function GetGroupDto(t: Tools, g: Gid): Option<GroupDto> {
    if g in t.groups then Some(GroupDto(g, t.groups[g].name, t.groups[g].owner, Values(MembersOf(t, g)))) else None
  }

  predicate PendingFor(m: Member, email: string) { email != "" && m.email == email && m.status.Invited? }

  /** VISIBLE_TO_PREDICATE; an empty e-mail matches nothing. */
  predicate VisibleTo(t: Tools, g: Gid, user: User, email: string) {
    && g in t.groups
    && (|| t.groups[g].owner == user
        || SomeMember(t, g, (m: Member) => m.userId == Some(user))
        || SomeMember(t, g, (m: Member) => PendingFor(m, email)))
  }

  function FindGroupVisibleTo(t: Tools, g: Gid, user: User, email: string): Option<GroupDto> {
    if VisibleTo(t, g, user, email) then GetGroupDto(t, g) else None
  }

  function ListGroupsVisibleTo(t: Tools, user: User, email: string): set<GroupDto> {
    set g | g in t.groups && VisibleTo(t, g, user, email) ::
      GroupDto(g, t.groups[g].name, t.groups[g].owner, Values(MembersOf(t, g)))
  }

  predicate Matches(m: Member, user: User, email: Option<string>) { m.userId == Some(user) || Some(m.email) == email }

  /** The membership test of the share route; email is the caller's claim, if any. */
  predicate MayShareTo(dto: GroupDto, user: User, email: Option<string>) {
    dto.owner == user || exists m :: m in dto.members && Matches(m, user, email)
  }

  function ClaimsEmail(email: Option<string>): string { if email.Some? then email.value else "" }

  // ---------------------------------------------------------------------------
  // Statements
  // ---------------------------------------------------------------------------

  function InsertGroup(t: Tools, g: Gid, name: string, owner: User): Tools {
    t.(groups := t.groups[g := Group(name, owner)])
  }

  datatype InsertResult = Inserted(t: Tools) | UniqueViolation | ForeignKeyViolation

  function InsertInvited(t: Tools, g: Gid, email: string, token: Token): InsertResult {
    if HasEmail(t, g, email) then UniqueViolation
    else if g !in t.groups then ForeignKeyViolation
    else Inserted(t.(members := t.members[t.nextMember := Row(g, Member(email, None, Invited, Some(token)))],
                     nextMember := t.nextMember + 1))
  }

  /** The row the guarded UPDATE of a join matches, among the keys below n. */
  function Holder(members: Table<Gid, Member>, token: Token, n: nat): Option<nat> {
    if n == 0 then None
    else if n - 1 in members && members[n - 1].val.token == Some(token) && members[n - 1].val.status.Invited?
    then Some(n - 1)
    else Holder(members, token, n - 1)
  }

  function JoinRow(t: Tools, i: nat, user: User): Tools
    requires i in t.members
  {
    var joined := t.members[i].val.(status := Joined, userId := Some(user), token := None);
    t.(members := t.members[i := t.members[i].(val := joined)])
  }

  /** DELETE ... WHERE id = g AND owner_user_id = user; members cascade, shares keep their token. */
  function DeleteGroup(t: Tools, g: Gid): Tools {
    t.(groups := t.groups - {g},
       members := DeleteChildren(t.members, g),
       shares := map k | k in t.shares ::
         if t.shares[k].group == Some(g) then t.shares[k].(group := None) else t.shares[k])
  }

  function InsertShare(t: Tools, token: Token, share: Share): Tools { t.(shares := t.shares[token := share]) }

  // ---------------------------------------------------------------------------
  // Facts about the queries
  // ---------------------------------------------------------------------------

  lemma {:induction false} HolderExact(members: Table<Gid, Member>, token: Token, n: nat)
    ensures var h := Holder(members, token, n);
            if h.Some? then h.value < n && h.value in members
              && members[h.value].val.token == Some(token) && members[h.value].val.status.Invited?
            else forall i: nat :: i < n && i in members ==>
                   members[i].val.token != Some(token) || !members[i].val.status.Invited?
  {
    if n > 0 { HolderExact(members, token, n - 1); }
  }

  /** The member list of a DTO holds exactly the rows of the group. */
  lemma DtoMembers(t: Tools, g: Gid, m: Member)
    requires Constraints(t) && g in t.groups
    ensures m in GetGroupDto(t, g).value.members <==> exists i :: i in t.members && t.members[i] == Row(g, m)
  {
    var rows := MembersOf(t, g);
    var ms := GetGroupDto(t, g).value.members;
    SelectExact(t.members, g, t.nextMember);
    if m in ms {
      var j :| 0 <= j < |ms| && ms[j] == m;
      assert (rows[j].0, rows[j].1) in rows;
      assert t.members[rows[j].0] == Row(g, m);
    }
    if i :| i in t.members && t.members[i] == Row(g, m) {
      assert (i, m) in rows;
      var j :| 0 <= j < |rows| && rows[j] == (i, m);
      assert ms[j] == m;
    }
  }

  /** The detail endpoint answers a group exactly when the list endpoint does, and with the same body. */
  lemma DetailAgreesWithList(t: Tools, g: Gid, user: User, email: string, dto: GroupDto)
    ensures FindGroupVisibleTo(t, g, user, email) == Some(dto) <==>
              dto in ListGroupsVisibleTo(t, user, email) && dto.id == g
  {
  }

  /**
   * Exactly who may share to a group: whoever sees it, and also whoever carries the e-mail address
   * of a member that has already joined (as somebody else).
   */
  lemma MayShareIff(t: Tools, g: Gid, user: User, email: Option<string>)
    requires Constraints(t) && g in t.groups
    ensures MayShareTo(GetGroupDto(t, g).value, user, email) <==>
              || VisibleTo(t, g, user, ClaimsEmail(email))
              || SomeMember(t, g, (m: Member) => CarriesJoinedEmail(m, email))
  {
    MayShareToRows(t, g, user, email);
    if i :| i in t.members && t.members[i].parent == g && Matches(t.members[i].val, user, email) {
      var m := t.members[i].val;
      assert m.userId == Some(user) || PendingFor(m, ClaimsEmail(email)) || CarriesJoinedEmail(m, email);
    }
  }

  /** Told on the rows: the owner, who has joined, and who has a pending invite on a non-empty address see a group. */
  lemma VisibleRows(t: Tools, g: Gid, user: User, email: string)
    requires g in t.groups
    ensures VisibleTo(t, g, user, email) <==>
              || t.groups[g].owner == user
              || exists i :: i in t.members && t.members[i].parent == g
                             && (|| t.members[i].val.userId == Some(user)
                                 || (email != "" && t.members[i].val.email == email
                                     && t.members[i].val.status == Invited))
  {
  }

  /** Told on the rows: the owner and every member by user or address may share to a group. */
  lemma MayShareRows(t: Tools, g: Gid, user: User, email: Option<string>)
    requires Constraints(t) && g in t.groups
    ensures MayShareTo(GetGroupDto(t, g).value, user, email) <==>
              || t.groups[g].owner == user
              || exists i :: i in t.members && t.members[i].parent == g
                             && (t.members[i].val.userId == Some(user) || Some(t.members[i].val.email) == email)
  {
    MayShareToRows(t, g, user, email);
  }

  /** Whatever the list shows, the detail endpoint answers with the same body, and may be shared to. */
  lemma ListedMayShare(t: Tools, user: User, email: Option<string>, dto: GroupDto)
    requires Constraints(t) && dto in ListGroupsVisibleTo(t, user, ClaimsEmail(email))
    ensures FindGroupVisibleTo(t, dto.id, user, ClaimsEmail(email)) == Some(dto)
    ensures MayShareTo(dto, user, email)
    ensures forall other :: other in ListGroupsVisibleTo(t, user, ClaimsEmail(email)) && other.id == dto.id ==>
              other == dto
  {
    DetailAgreesWithList(t, dto.id, user, ClaimsEmail(email), dto);
    MayShareIff(t, dto.id, user, email);
  }

  /** (An empty e-mail claim never makes a group visible.) */
  predicate CarriesJoinedEmail(m: Member, email: Option<string>) {
    Some(m.email) == email && (m.status.Joined? || m.email == "")
  }

  /** Somebody whom the list and detail endpoints keep a group from may share to it nevertheless. */
  lemma MaySharesUnseen(g: Gid, owner: User, joined: User, caller: User, email: string) returns (t: Tools)
    requires owner != caller && joined != caller
    ensures Constraints(t) && g in t.groups
    ensures !VisibleTo(t, g, caller, email) && MayShareTo(GetGroupDto(t, g).value, caller, Some(email))
  {
    t := Tools(map[g := Group("Tokyo Trip Crew", owner)],
               map[0 := Row(g, Member(email, Some(joined), Joined, None))], 1, map[]);
    assert CarriesJoinedEmail(t.members[0].val, Some(email));
    assert SomeMember(t, g, (m: Member) => CarriesJoinedEmail(m, Some(email)));
    MayShareIff(t, g, caller, Some(email));
  }

  lemma MayShareToRows(t: Tools, g: Gid, user: User, email: Option<string>)
    requires Constraints(t) && g in t.groups
    ensures MayShareTo(GetGroupDto(t, g).value, user, email) <==>
              t.groups[g].owner == user || SomeMember(t, g, (m: Member) => Matches(m, user, email))
  {
    var dto := GetGroupDto(t, g).value;
    if m :| m in dto.members && Matches(m, user, email) {
      DtoMembers(t, g, m);
      var i :| i in t.members && t.members[i] == Row(g, m);
      assert t.members[i].val == m;
    }
    if i :| i in t.members && t.members[i].parent == g && Matches(t.members[i].val, user, email) {
      DtoMembers(t, g, t.members[i].val);
      assert t.members[i] == Row(g, t.members[i].val);
    }
  }
}
