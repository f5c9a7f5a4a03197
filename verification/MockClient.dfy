/** The in-memory tools client of packages/api-client/src/mock/mockClient.ts. */
module MockClient {
  import opened Common
  import opened ToolsTables
  import opened ToolsService

  /** Ids and tokens are the numbers behind "g-1", "mock-invite-token-1", "mock-share-token-1" and "101". */
  datatype MockMember = MockMember(email: string, status: Status, userId: Option<User>, inviteToken: Option<nat>)

  datatype MockGroup = MockGroup(name: string, owner: User, members: seq<MockMember>)

  datatype State = State(
    groups: map<nat, MockGroup>, nextGroup: nat,
    nextInviteToken: nat,
    shares: map<nat, int>, nextShareToken: nat,     // share token to itinerary
    itineraries: set<int>, nextItinerary: int)

  // ---------------------------------------------------------------------------
  // Specification
  // ---------------------------------------------------------------------------

  /** isGroupVisibleToMockUser */
  predicate VisibleToMockUser(group: MockGroup, me: User, email: string) {
    group.owner == me || exists m :: m in group.members && (m.userId == Some(me) || m.email == email)
  }

  function Get(s: State, me: User, email: string, g: nat): Outcome<MockGroup> {
    if g !in s.groups || !VisibleToMockUser(s.groups[g], me, email) then Err(404) else Ok(s.groups[g])
  }

  function List(s: State, me: User, email: string): set<(nat, MockGroup)> {
    set g | g in s.groups && VisibleToMockUser(s.groups[g], me, email) :: (g, s.groups[g])
  }

  function Create(s: State, me: User, name: string): State {
    s.(groups := s.groups[s.nextGroup := MockGroup(name, me, [])], nextGroup := s.nextGroup + 1)
  }

  function Delete(s: State, me: User, g: nat): (State, Outcome<()>) {
    if g !in s.groups then (s, Err(404))
    else if s.groups[g].owner != me then (s, Err(403))
    else (s.(groups := s.groups - {g}), Ok(()))
  }

  predicate EmailTaken(members: seq<MockMember>, email: string) { exists m :: m in members && m.email == email }

  function Appended(group: MockGroup, address: string, token: nat): MockGroup {
    group.(members := group.members + [MockMember(address, Invited, None, Some(token))])
  }

  function Invite(s: State, me: User, g: nat, email: string): (State, Outcome<MockGroup>) {
    if g !in s.groups then (s, Err(404))
    else if s.groups[g].owner != me then (s, Err(403))
    else if EmailTaken(s.groups[g].members, email) then (s, Err(409))
    else
      var group := Appended(s.groups[g], email, s.nextInviteToken);
      (s.(groups := s.groups[g := group], nextInviteToken := s.nextInviteToken + 1), Ok(group))
  }

  /** members.find: the first member from position i on that carries the token. */
  function FindToken(members: seq<MockMember>, token: nat, i: nat): Option<nat>
    requires i <= |members|
    ensures FindToken(members, token, i).Some? ==>
              i <= FindToken(members, token, i).value < |members|
              && members[FindToken(members, token, i).value].inviteToken == Some(token)
    ensures FindToken(members, token, i).None? ==>
              forall j :: i <= j < |members| ==> members[j].inviteToken != Some(token)
    decreases |members| - i
  {
    if i == |members| then None
    else if members[i].inviteToken == Some(token) then Some(i)
    else FindToken(members, token, i + 1)
  }

  /** The first group from id g on with such a member: the Map iterates in creation order. */
  function FindGroup(s: State, token: nat, g: nat): Option<nat>
    ensures FindGroup(s, token, g).Some? ==>
              var h := FindGroup(s, token, g).value; h in s.groups && FindToken(s.groups[h].members, token, 0).Some?
    ensures FindGroup(s, token, g).None? ==>
              forall h :: h in s.groups && g <= h < s.nextGroup ==> FindToken(s.groups[h].members, token, 0).None?
    decreases s.nextGroup - g
  {
    if g >= s.nextGroup then None
    else if g in s.groups && FindToken(s.groups[g].members, token, 0).Some? then Some(g)
    else FindGroup(s, token, g + 1)
  }

  function JoinMember(group: MockGroup, j: nat, me: User): MockGroup
    requires j < |group.members|
  {
    group.(members := group.members[j := group.members[j].(status := Joined, userId := Some(me), inviteToken := None)])
  }

  function Join(s: State, me: User, token: nat): (State, Outcome<MockGroup>) {
    var g := FindGroup(s, token, 0);
    if g.None? then (s, Err(404))
    else
      var group := JoinMember(s.groups[g.value], FindToken(s.groups[g.value].members, token, 0).value, me);
      (s.(groups := s.groups[g.value := group]), Ok(group))
  }

  function AddShare(s: State, itinerary: int): State {
    s.(shares := s.shares[s.nextShareToken := itinerary], nextShareToken := s.nextShareToken + 1)
  }

  function ResolveShare(s: State, token: nat): Outcome<int> {
    if token !in s.shares then Err(404)
    else if s.shares[token] !in s.itineraries then Err(404)
    else Ok(s.shares[token])
  }

  function SaveTrip(s: State): State {
    s.(itineraries := s.itineraries + {s.nextItinerary}, nextItinerary := s.nextItinerary + 1)
  }

  function RemoveTrip(s: State, itinerary: int): (State, Outcome<()>) {
    if itinerary !in s.itineraries then (s, Err(404)) else (s.(itineraries := s.itineraries - {itinerary}), Ok(()))
  }

  // ---------------------------------------------------------------------------
  // What the calls keep
  // ---------------------------------------------------------------------------

  /** No address twice in a group, no token twice anywhere, and 'invited' exactly while the token is there. */
  ghost predicate Sane(s: State) {
    && (forall g :: g in s.groups ==> g < s.nextGroup && GroupSane(s.groups[g], s.nextInviteToken))
    && (forall g, h :: g in s.groups && h in s.groups && g != h ==> NoSharedToken(s.groups[g], s.groups[h]))
  }

  ghost predicate GroupSane(group: MockGroup, next: nat) {
    var ms := group.members;
    && (forall i, j :: 0 <= i < j < |ms| ==> ms[i].email != ms[j].email)
    && (forall i, j :: 0 <= i < j < |ms| && ms[i].inviteToken.Some? ==> ms[i].inviteToken != ms[j].inviteToken)
    && (forall i :: 0 <= i < |ms| ==> (ms[i].status.Invited? <==> ms[i].inviteToken.Some?))
    && (forall i :: 0 <= i < |ms| && ms[i].inviteToken.Some? ==> ms[i].inviteToken.value < next)
  }

  ghost predicate NoSharedToken(a: MockGroup, b: MockGroup) {
    forall i, j :: 0 <= i < |a.members| && 0 <= j < |b.members| && a.members[i].inviteToken.Some? ==>
      a.members[i].inviteToken != b.members[j].inviteToken
  }

  function Addresses(group: MockGroup): set<string> { set m | m in group.members :: m.email }

  /** The member who may use the token, if any. */
  predicate Awaits(s: State, token: nat, g: nat, address: string) {
    && FindGroup(s, token, 0) == Some(g)
    && s.groups[g].members[FindToken(s.groups[g].members, token, 0).value].email == address
  }

  lemma AppendedAddresses(group: MockGroup, next: nat, address: string)
    ensures Addresses(Appended(group, address, next)) == Addresses(group) + {address}
  {
    var ms, ms' := group.members, Appended(group, address, next).members;
    assert forall m :: m in ms ==> m in ms';
    assert ms'[|ms|] in ms';
  }

  lemma InvitedGroupSane(group: MockGroup, next: nat, address: string)
    requires GroupSane(group, next) && !EmailTaken(group.members, address)
    ensures GroupSane(Appended(group, address, next), next + 1)
  {
    assert forall i :: 0 <= i < |group.members| ==> group.members[i] in group.members;
  }

  lemma InviteSane(s: State, g: nat, address: string)
    requires Sane(s) && g in s.groups && !EmailTaken(s.groups[g].members, address)
    ensures var group := Appended(s.groups[g], address, s.nextInviteToken);
            var s' := s.(groups := s.groups[g := group], nextInviteToken := s.nextInviteToken + 1);
            Sane(s') && Addresses(group) == Addresses(s.groups[g]) + {address}
  {
    InvitedGroupSane(s.groups[g], s.nextInviteToken, address);
    AppendedAddresses(s.groups[g], s.nextInviteToken, address);
  }

  lemma TokenIssued(s: State, g: nat, n: nat, token: nat)
    requires Sane(s) && g in s.groups && n < |s.groups[g].members| && s.groups[g].members[n].inviteToken == Some(token)
    ensures Awaits(s, token, g, s.groups[g].members[n].email)
  {
    var j := FindToken(s.groups[g].members, token, 0);
    assert j == Some(n);
    var h := FindGroup(s, token, 0);
    assert h.Some?;
    var i := FindToken(s.groups[h.value].members, token, 0).value;
    assert s.groups[h.value].members[i].inviteToken == Some(token);
  }

  lemma InviteKeeps(s: State, me: User, g: nat, address: string)
    requires Sane(s)
    ensures var (s', r) := Invite(s, me, g, address);
            && Sane(s')
            && (r.Ok? <==> g in s.groups && s.groups[g].owner == me && address !in Addresses(s.groups[g]))
            && (r.Err? ==> s' == s)
            && (r.Ok? ==> Addresses(r.value) == Addresses(s.groups[g]) + {address})
            && (r.Ok? ==> Awaits(s', s.nextInviteToken, g, address))
  {
    if g in s.groups && s.groups[g].owner == me && !EmailTaken(s.groups[g].members, address) {
      var s' := Invite(s, me, g, address).0;
      InviteSane(s, g, address);
      TokenIssued(s', g, |s.groups[g].members|, s.nextInviteToken);
    }
  }

  lemma SameAddresses(a: MockGroup, b: MockGroup)
    requires |a.members| == |b.members| && forall i :: 0 <= i < |a.members| ==> a.members[i].email == b.members[i].email
    ensures Addresses(a) <= Addresses(b)
  {
    forall e | e in Addresses(a)
      ensures e in Addresses(b)
    {
      var i :| 0 <= i < |a.members| && a.members[i].email == e;
      assert b.members[i] in b.members;
    }
  }

  lemma JoinedGroupSane(group: MockGroup, next: nat, j: nat, me: User)
    requires GroupSane(group, next) && j < |group.members|
    ensures GroupSane(JoinMember(group, j, me), next) && Addresses(JoinMember(group, j, me)) == Addresses(group)
  {
    SameAddresses(group, JoinMember(group, j, me));
    SameAddresses(JoinMember(group, j, me), group);
  }

  lemma JoinSane(s: State, g: nat, j: nat, me: User)
    requires Sane(s) && g in s.groups && j < |s.groups[g].members|
    ensures Sane(s.(groups := s.groups[g := JoinMember(s.groups[g], j, me)]))
  {
    JoinedGroupSane(s.groups[g], s.nextInviteToken, j, me);
  }

  lemma TokenGone(s: State, g: nat, j: nat, me: User, token: nat)
    requires Sane(s) && g in s.groups && j < |s.groups[g].members| && s.groups[g].members[j].inviteToken == Some(token)
    ensures FindGroup(s.(groups := s.groups[g := JoinMember(s.groups[g], j, me)]), token, 0).None?
  {
    var s' := s.(groups := s.groups[g := JoinMember(s.groups[g], j, me)]);
    forall h, i | h in s'.groups && 0 <= i < |s'.groups[h].members|
      ensures s'.groups[h].members[i].inviteToken != Some(token)
    {
      assert (h, i) != (g, j) ==> s'.groups[h].members[i] == s.groups[h].members[i];
    }
  }

  /** A join uses its token up, and changes no list of addresses. */
  lemma JoinKeeps(s: State, me: User, token: nat)
    requires Sane(s)
    ensures var (s', r) := Join(s, me, token);
            && Sane(s') && FindGroup(s', token, 0).None?
            && s'.groups.Keys == s.groups.Keys
            && forall g :: g in s.groups ==> Addresses(s'.groups[g]) == Addresses(s.groups[g])
  {
    var g := FindGroup(s, token, 0);
    if g.Some? {
      var j := FindToken(s.groups[g.value].members, token, 0).value;
      JoinSane(s, g.value, j, me);
      TokenGone(s, g.value, j, me, token);
      JoinedGroupSane(s.groups[g.value], s.nextInviteToken, j, me);
    }
  }

  // ---------------------------------------------------------------------------
  // The client
  // ---------------------------------------------------------------------------

  class Client {
    const me: User
    const email: string
    var groups: map<nat, MockGroup>
    var nextGroup: nat
    var nextInviteToken: nat
    var shares: map<nat, int>
    var nextShareToken: nat
    var itineraries: set<int>
    var nextItinerary: int

    function Abs(): State
      reads this
    {
      State(groups, nextGroup, nextInviteToken, shares, nextShareToken, itineraries, nextItinerary)
    }

    ghost predicate Valid()
      reads this
    {
      Sane(Abs())
    }

    /** createInitialMockState: one empty group "g-1" and the saved trip 101. */
    constructor (me: User, email: string)
      ensures Valid() && Abs() == Initial(me) && this.me == me && this.email == email
    {
      this.me, this.email := me, email;
      groups, nextGroup := map[1 := MockGroup("Tokyo Trip Crew", me, [])], 2;
      nextInviteToken, shares, nextShareToken, itineraries, nextItinerary := 1, map[], 1, {101}, 102;
    }

    method CreateGroup(name: string) returns (id: nat)
      requires Valid()
      modifies this
      ensures Valid()
      ensures Abs() == Create(old(Abs()), me, name) && id == old(nextGroup)
    {
      id := nextGroup;
      nextGroup := nextGroup + 1;
      groups := groups[id := MockGroup(name, me, [])];
    }

    method GetGroup(g: nat) returns (r: Outcome<MockGroup>)
      ensures r == Get(Abs(), me, email, g)
      ensures r.Err? ==> r == Err(404)
      ensures r.Ok? <==>
                && g in groups
                && (|| groups[g].owner == me
                    || exists j :: 0 <= j < |groups[g].members|
                                   && (groups[g].members[j].userId == Some(me) || groups[g].members[j].email == email))
      ensures r.Ok? ==> r.value == groups[g]
    {
      if g !in groups || !VisibleToMockUser(groups[g], me, email) { return Err(404); }
      return Ok(groups[g]);
    }

    /** isGroupVisibleToMockUser over the Map. */
    method ListGroups() returns (r: set<(nat, MockGroup)>)
      ensures r == List(Abs(), me, email)
      ensures forall g, group :: (g, group) in r <==>
                && g in groups && groups[g] == group
                && (|| group.owner == me
                    || exists j :: 0 <= j < |group.members|
                                   && (group.members[j].userId == Some(me) || group.members[j].email == email))
    {
      r := set g | g in groups && VisibleToMockUser(groups[g], me, email) :: (g, groups[g]);
    }

    method DeleteGroup(g: nat) returns (r: Outcome<()>)
      requires Valid()
      modifies this
      ensures Valid()
      ensures (Abs(), r) == Delete(old(Abs()), me, g)
      ensures r == if g !in old(groups) then Err(404) else if old(groups)[g].owner != me then Err(403) else Ok(())
      ensures r.Ok? ==> groups == old(groups) - {g}
      ensures r.Err? ==> Abs() == old(Abs())
    {
      if g !in groups { return Err(404); }
      if groups[g].owner != me { return Err(403); }
      groups := groups - {g};
      return Ok(());
    }

    /** requireOwnedGroup */
    method RequireOwnedGroup(g: nat) returns (r: Outcome<MockGroup>)
      ensures r == if g !in groups then Err(404) else if groups[g].owner != me then Err(403) else Ok(groups[g])
    {
      if g !in groups { return Err(404); }
      if groups[g].owner != me { return Err(403); }
      return Ok(groups[g]);
    }

    method InviteMember(g: nat, address: string) returns (r: Outcome<MockGroup>)
      requires Valid()
      modifies this
      ensures Valid()
      ensures (Abs(), r) == Invite(old(Abs()), me, g, address)
      ensures r.Ok? <==> g in old(groups) && old(groups)[g].owner == me && address !in Addresses(old(groups)[g])
      ensures r.Err? ==>
                r.status == if g !in old(groups) then 404 else if old(groups)[g].owner != me then 403 else 409
      ensures r.Ok? ==> g in groups && Addresses(groups[g]) == Addresses(old(groups)[g]) + {address}
      ensures r.Ok? ==> Awaits(Abs(), old(nextInviteToken), g, address)
      ensures r.Err? ==> Abs() == old(Abs())
    {
      InviteKeeps(Abs(), me, g, address);
      r := RequireOwnedGroup(g);
      if r.Err? { return; }
      var group := r.value;
      if EmailTaken(group.members, address) { return Err(409); }
      group := Appended(group, address, nextInviteToken);
      nextInviteToken := nextInviteToken + 1;
      groups := groups[g := group];
      return Ok(group);
    }

    /** The loop over the groups, in the order of their creation. */
    method FindHolder(token: nat) returns (holder: Option<nat>)
      ensures holder == FindGroup(Abs(), token, 0)
    {
      var g := 0;
      while g < nextGroup
        invariant g <= nextGroup
        invariant FindGroup(Abs(), token, 0) == FindGroup(Abs(), token, g)
      {
        if g in groups && FindToken(groups[g].members, token, 0).Some? { return Some(g); }
        g := g + 1;
      }
      return None;
    }

    method JoinGroup(token: nat) returns (r: Outcome<MockGroup>)
      requires Valid()
      modifies this
      ensures Valid()
      ensures (Abs(), r) == Join(old(Abs()), me, token)
      ensures FindGroup(Abs(), token, 0).None?
    {
      var g := FindHolder(token);
      if g.None? { return Err(404); }
      var j := FindToken(groups[g.value].members, token, 0);
      JoinSane(Abs(), g.value, j.value, me);
      TokenGone(Abs(), g.value, j.value, me, token);
      var group := JoinMember(groups[g.value], j.value, me);
      groups := groups[g.value := group];
      return Ok(group);
    }

    method CreateShare(itinerary: int) returns (token: nat)
      requires Valid()
      modifies this
      ensures Valid()
      ensures Abs() == AddShare(old(Abs()), itinerary) && token == old(nextShareToken)
    {
      token := nextShareToken;
      nextShareToken := nextShareToken + 1;
      shares := shares[token := itinerary];
    }

    method GetSharedItinerary(token: nat) returns (r: Outcome<int>)
      ensures r == ResolveShare(Abs(), token)
    {
      if token !in shares { return Err(404); }
      if shares[token] !in itineraries { return Err(404); }
      return Ok(shares[token]);
    }

    method CreateItinerary() returns (itinerary: int)
      requires Valid()
      modifies this
      ensures Valid()
      ensures Abs() == SaveTrip(old(Abs())) && itinerary == old(nextItinerary)
    {
      itinerary := nextItinerary;
      nextItinerary := nextItinerary + 1;
      itineraries := itineraries + {itinerary};
    }

    method RemoveItinerary(itinerary: int) returns (r: Outcome<()>)
      requires Valid()
      modifies this
      ensures Valid()
      ensures (Abs(), r) == RemoveTrip(old(Abs()), itinerary)
    {
      if itinerary !in itineraries { return Err(404); }
      itineraries := itineraries - {itinerary};
      return Ok(());
    }
  }

  function Initial(me: User): State {
    State(map[1 := MockGroup("Tokyo Trip Crew", me, [])], 2, 1, map[], 1, {101}, 102)
  }
}
