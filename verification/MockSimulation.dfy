/**
 * The mock client simulates the tools service for its single user: the same calls get the same
 * statuses and the same contents, up to the renaming of ids and tokens.
 */
module MockSimulation {
  import opened Common
  import opened ChildTables
  import opened ToolsTables
  import opened GroupProtocol
  import opened GroupProofs
  import opened ToolsService
  import opened MockClient

  /** Both sides, and which id or token of one stands for which of the other. */
  datatype World = World(
    mock: State,
    t: Tools,
    itineraries: set<ItineraryId>,
    groups: set<(nat, Gid)>,
    invites: set<(nat, Token)>,
    shares: set<(nat, Token)>,
    trips: set<(int, ItineraryId)>)

  datatype Caller = Caller(user: User, email: string)

  /** A call, naming things by the pair of their ids on both sides; the service generates `drawn` and the fresh ids. */
  datatype Op =
    | CreateGroup(name: string, freshGroup: Gid)
    | GetGroup(g: (nat, Gid))
    | ListGroups
    | DeleteGroup(g: (nat, Gid))
    | Invite(g: (nat, Gid), address: string, drawn: Token)
    | JoinGroup(k: (nat, Token))
    | CreateShare(trip: (int, ItineraryId), target: Option<(nat, Gid)>, drawn: Token)
    | ViewShare(k: (nat, Token))
    | CreateItinerary(freshTrip: ItineraryId)
    | RemoveItinerary(trip: (int, ItineraryId))

  datatype MockReply =
    | MockDone
    | MockFailed(status: nat)
    | MockGroupReply(id: nat, group: MockGroup)
    | MockGroups(groups: set<(nat, MockGroup)>)
    | MockToken(token: nat)
    | MockTrip(trip: int)

  datatype Reply =
    | Done
    | Failed(status: nat)
    | GroupReply(dto: GroupDto)
    | Groups(dtos: set<GroupDto>)
    | ShareToken(token: Token)
    | Trip(trip: ItineraryId)

  // ---------------------------------------------------------------------------
  // The two sides
  // ---------------------------------------------------------------------------

  function AsReply(id: nat, r: Outcome<MockGroup>): MockReply {
    if r.Ok? then MockGroupReply(id, r.value) else MockFailed(r.status)
  }

  function CallMock(m: State, me: Caller, op: Op): (State, MockReply) {
    match op
    case CreateGroup(name, _) =>
      var m' := Create(m, me.user, name);
      (m', MockGroupReply(m.nextGroup, m'.groups[m.nextGroup]))
    case GetGroup(g) => (m, AsReply(g.0, Get(m, me.user, me.email, g.0)))
    case ListGroups => (m, MockGroups(List(m, me.user, me.email)))
    case DeleteGroup(g) =>
      var (m', r) := Delete(m, me.user, g.0);
      (m', if r.Ok? then MockDone else MockFailed(r.status))
    case Invite(g, address, _) =>
      var (m', r) := MockClient.Invite(m, me.user, g.0, address);
      (m', AsReply(g.0, r))
    case JoinGroup(k) =>
      var (m', r) := Join(m, me.user, k.0);
      (m', AsReply(if r.Ok? then FindGroup(m, k.0, 0).value else 0, r))
    case CreateShare(trip, _, _) => (AddShare(m, trip.0), MockToken(m.nextShareToken))
    case ViewShare(k) =>
      var r := ResolveShare(m, k.0);
      (m, if r.Ok? then MockTrip(r.value) else MockFailed(r.status))
    case CreateItinerary(_) => (SaveTrip(m), MockTrip(m.nextItinerary))
    case RemoveItinerary(trip) =>
      var (m', r) := RemoveTrip(m, trip.0);
      (m', if r.Ok? then MockDone else MockFailed(r.status))
  }

  /** A share link: the row, then the itinerary service by the row's itinerary id. */
  function Resolve(t: Tools, itineraries: set<ItineraryId>, token: Token): Outcome<ItineraryId> {
    if token !in t.shares || t.shares[token].itinerary !in itineraries then Err(404) else Ok(t.shares[token].itinerary)
  }

  function DtoReply(t: Tools, g: Gid): Reply
    requires g in t.groups
  {
    GroupReply(GetGroupDto(t, g).value)
  }

  /** The service, one request at a time. */
  function CallService(w: World, me: Caller, op: Op): (Tools, set<ItineraryId>, Reply) {
    var t := w.t;
    match op
    case CreateGroup(name, g) =>
      var t' := InsertGroup(t, g, name, me.user);
      (t', w.itineraries, DtoReply(t', g))
    case GetGroup(g) =>
      var r := FindGroupVisibleTo(t, g.1, me.user, me.email);
      (t, w.itineraries, if r.Some? then GroupReply(r.value) else Failed(404))
    case ListGroups => (t, w.itineraries, Groups(ListGroupsVisibleTo(t, me.user, me.email)))
    case DeleteGroup(g) =>
      if g.1 in t.groups && t.groups[g.1].owner == me.user then (ToolsTables.DeleteGroup(t, g.1), w.itineraries, Done)
      else (t, w.itineraries, Failed(404))
    case Invite(g, address, token) =>
      var (t', r) := Alone(t, InviteRead(me.user, g.1, address, g.1 in t.groups), token);
      (t', w.itineraries, if r.InviteDone? && r.status == 201 && g.1 in t'.groups then DtoReply(t', g.1)
                          else if r.InviteDone? then Failed(r.status) else Failed(500))
    case JoinGroup(k) =>
      var (t', r) := Alone(t, JoinUpdate(k.1, me.user), k.1);
      (t', w.itineraries,
       if r.JoinDone? && r.status == 200 && r.group.Some? && r.group.value in t'.groups then DtoReply(t', r.group.value)
       else if r.JoinDone? then Failed(r.status) else Failed(500))
    case CreateShare(trip, target, token) =>
      var to := if target.Some? then Some(target.value.1) else None;
      var (t', r) := Alone(t, ShareRead(me.user, Some(me.email), trip.1, to), token);
      (t', w.itineraries, if r.ShareDone? && r.shareToken.Some? then ShareToken(r.shareToken.value)
                          else if r.ShareDone? then Failed(r.status) else Failed(500))
    case ViewShare(k) =>
      var r := Resolve(t, w.itineraries, k.1);
      (t, w.itineraries, if r.Ok? then Trip(r.value) else Failed(r.status))
    case CreateItinerary(trip) => (t, w.itineraries + {trip}, Trip(trip))
    case RemoveItinerary(trip) =>
      if trip.1 in w.itineraries then (t, w.itineraries - {trip.1}, Done) else (t, w.itineraries, Failed(404))
  }

  /** Both sides take the call; what they hand out is paired up. */
  function Step(w: World, me: Caller, op: Op): World {
    var (m, _) := CallMock(w.mock, me, op);
    var (t, itineraries, _) := CallService(w, me, op);
    World(m, t, itineraries,
          w.groups + (if op.CreateGroup? then {(w.mock.nextGroup, op.freshGroup)} else {}),
          w.invites + (if m.nextInviteToken != w.mock.nextInviteToken && op.Invite?
                       then {(w.mock.nextInviteToken, op.drawn)} else {}),
          w.shares + (if op.CreateShare? then {(w.mock.nextShareToken, op.drawn)} else {}),
          w.trips + (if op.CreateItinerary? then {(w.mock.nextItinerary, op.freshTrip)}
                     else if op.CreateShare? then {op.trip} else {}))
  }

  // ---------------------------------------------------------------------------
  // Well-formed calls
  // ---------------------------------------------------------------------------

  ghost predicate New<A, B>(pairs: set<(A, B)>, b: B) { forall p :: p in pairs ==> p.1 != b }

  predicate MockHolds(m: State, token: nat) {
    exists g :: g in m.groups && FindToken(m.groups[g].members, token, 0).Some?
  }

  predicate NamesGroup(w: World, g: (nat, Gid)) { g in w.groups || (g.0 !in w.mock.groups && g.1 !in w.t.groups) }

  predicate Nowhere(w: World, trip: (int, ItineraryId)) {
    trip.0 !in w.mock.itineraries && trip.1 !in w.itineraries
  }

  /**
   * An itinerary both sides handed out, or one that neither has or ever will: the mock's ids are
   * numbered, so a share may not anticipate one.
   */
  ghost predicate NamesTrip(w: World, trip: (int, ItineraryId)) {
    || trip in w.trips
    || (Nowhere(w, trip) && trip.0 < w.mock.nextItinerary
        && forall p :: p in w.trips ==> p.0 != trip.0 && p.1 != trip.1)
  }

  /** Things are named by what the two sides handed out together, or by what neither side knows. */
  ghost predicate WellFormed(w: World, op: Op) {
    match op
    case CreateGroup(_, g) => New(w.groups, g)
    case GetGroup(g) => NamesGroup(w, g)
    case ListGroups => true
    case DeleteGroup(g) => NamesGroup(w, g)
    case Invite(g, _, drawn) => NamesGroup(w, g) && New(w.invites, drawn)
    case JoinGroup(k) => k in w.invites || (!MockHolds(w.mock, k.0) && !TokenHeld(w.t, k.1))
    case CreateShare(trip, target, drawn) =>
      && NamesTrip(w, trip) && New(w.shares, drawn)
      && (target.Some? ==> target.value in w.groups && target.value.1 in w.t.groups)
    case ViewShare(k) => k in w.shares || (k.0 !in w.mock.shares && k.1 !in w.t.shares)
    case CreateItinerary(trip) => New(w.trips, trip)
    case RemoveItinerary(trip) => trip in w.trips || Nowhere(w, trip)
  }

  // ---------------------------------------------------------------------------
  // The relation
  // ---------------------------------------------------------------------------

  /** The pairs are a one-to-one renaming. */
  ghost predicate Renaming<A, B>(pairs: set<(A, B)>) {
    forall p, q :: p in pairs && q in pairs ==> (p.0 == q.0 <==> p.1 == q.1)
  }

  predicate InviteMatch(invites: set<(nat, Token)>, a: Option<nat>, b: Option<Token>) {
    (a.None? && b.None?) || (a.Some? && b.Some? && (a.value, b.value) in invites)
  }

  predicate MemberMatch(invites: set<(nat, Token)>, a: MockMember, b: Member) {
    a.email == b.email && a.status == b.status && a.userId == b.userId && InviteMatch(invites, a.inviteToken, b.token)
  }

  predicate MembersMatch(invites: set<(nat, Token)>, a: seq<MockMember>, b: seq<Member>) {
    |a| == |b| && forall j :: 0 <= j < |a| ==> MemberMatch(invites, a[j], b[j])
  }

  /** Same name, same owner, the same members in the same order. */
  predicate GroupMatch(invites: set<(nat, Token)>, a: MockGroup, b: GroupDto) {
    a.name == b.name && a.owner == b.owner && MembersMatch(invites, a.members, b.members)
  }

  predicate GroupsPair(w: World, me: Caller, p: (nat, Gid)) {
    && p.0 < w.mock.nextGroup
    && (p.0 in w.mock.groups <==> p.1 in w.t.groups)
    && (p.0 in w.mock.groups && p.1 in w.t.groups ==>
          w.mock.groups[p.0].owner == me.user && GroupMatch(w.invites, w.mock.groups[p.0], GetGroupDto(w.t, p.1).value))
  }

  ghost predicate GroupsRelated(w: World, me: Caller) {
    && Renaming(w.groups)
    && (forall p :: p in w.groups ==> GroupsPair(w, me, p))
    && (forall g :: g in w.mock.groups ==> exists p :: p in w.groups && p.0 == g)
    && (forall g :: g in w.t.groups ==> exists p :: p in w.groups && p.1 == g)
  }

  ghost predicate GroupsOk(w: World, me: Caller) { Constraints(w.t) && GroupsRelated(w, me) }

  ghost predicate InvitesRelated(w: World) {
    Renaming(w.invites) && forall p :: p in w.invites ==> p.0 < w.mock.nextInviteToken
  }

  predicate SharesPair(w: World, p: (nat, Token)) {
    && p.0 < w.mock.nextShareToken
    && p.0 in w.mock.shares && p.1 in w.t.shares && (w.mock.shares[p.0], w.t.shares[p.1].itinerary) in w.trips
  }

  ghost predicate SharesRelated(w: World) {
    && Renaming(w.shares)
    && (forall p :: p in w.shares ==> SharesPair(w, p))
    && (forall k :: k in w.t.shares ==> exists p :: p in w.shares && p.1 == k)
  }

  ghost predicate TripsRelated(w: World) {
    && Renaming(w.trips)
    && (forall p :: p in w.trips ==>
          p.0 < w.mock.nextItinerary && (p.0 in w.mock.itineraries <==> p.1 in w.itineraries))
  }

  ghost predicate Related(w: World, me: Caller) {
    GroupsOk(w, me) && InvitesRelated(w) && SharesRelated(w) && TripsRelated(w)
  }

  // ---------------------------------------------------------------------------
  // Matching replies
  // ---------------------------------------------------------------------------

  ghost predicate ListsMatch(w: World, a: set<(nat, MockGroup)>, b: set<GroupDto>) {
    && (forall x :: x in a ==> exists dto :: dto in b && (x.0, dto.id) in w.groups && GroupMatch(w.invites, x.1, dto))
    && (forall dto :: dto in b ==> exists x :: x in a && (x.0, dto.id) in w.groups && GroupMatch(w.invites, x.1, dto))
  }

  /** Judged by the renaming in force after the call. */
  ghost predicate RepliesMatch(w: World, a: MockReply, b: Reply) {
    || (a.MockDone? && b.Done?)
    || (a.MockFailed? && b.Failed? && a.status == b.status)
    || (a.MockGroupReply? && b.GroupReply? && (a.id, b.dto.id) in w.groups && GroupMatch(w.invites, a.group, b.dto))
    || (a.MockGroups? && b.Groups? && ListsMatch(w, a.groups, b.dtos))
    || (a.MockToken? && b.ShareToken? && (a.token, b.token) in w.shares)
    || (a.MockTrip? && b.Trip? && (a.trip, b.trip) in w.trips)
  }

  // ---------------------------------------------------------------------------
  // Frames
  // ---------------------------------------------------------------------------

  lemma DtoUnchanged(t: Tools, u: Tools, g: Gid)
    requires Below(t.members, t.nextMember) && Below(u.members, u.nextMember) && t.nextMember <= u.nextMember
    requires g in t.groups && g in u.groups && t.groups[g] == u.groups[g] && Agree(t.members, u.members, g)
    ensures GetGroupDto(u, g) == GetGroupDto(t, g)
  {
    SelectAgree(t.members, u.members, g, u.nextMember);
    SelectBeyond(t.members, g, t.nextMember, u.nextMember);
  }

  lemma MatchMore(invites: set<(nat, Token)>, more: set<(nat, Token)>, a: MockGroup, b: GroupDto)
    requires GroupMatch(invites, a, b) && invites <= more
    ensures GroupMatch(more, a, b)
  {
  }

  /** The pair is untouched by a change elsewhere. */
  lemma PairKept(w: World, w': World, me: Caller, p: (nat, Gid))
    requires Constraints(w.t) && Constraints(w'.t) && w.t.nextMember <= w'.t.nextMember
    requires GroupsPair(w, me, p) && w.invites <= w'.invites && w.mock.nextGroup <= w'.mock.nextGroup
    requires p.0 in w'.mock.groups <==> p.0 in w.mock.groups
    requires p.1 in w'.t.groups <==> p.1 in w.t.groups
    requires p.0 in w.mock.groups ==> w'.mock.groups[p.0] == w.mock.groups[p.0]
    requires p.1 in w.t.groups ==> w'.t.groups[p.1] == w.t.groups[p.1]
    requires Agree(w.t.members, w'.t.members, p.1)
    ensures GroupsPair(w', me, p)
  {
    if p.1 in w.t.groups { DtoUnchanged(w.t, w'.t, p.1); }
  }

  lemma RenamingAdds<A, B>(pairs: set<(A, B)>, a: A, b: B)
    requires Renaming(pairs) && forall p :: p in pairs ==> p.0 != a && p.1 != b
    ensures Renaming(pairs + {(a, b)})
  {
  }

  lemma PairsKept(w: World, w': World, me: Caller)
    requires GroupsRelated(w, me) && Constraints(w'.t) && w'.groups == w.groups
    requires w'.mock.groups.Keys == w.mock.groups.Keys && w'.t.groups.Keys == w.t.groups.Keys
    requires forall p :: p in w.groups ==> GroupsPair(w', me, p)
    ensures GroupsOk(w', me)
  {
  }

  lemma SharesKept(w: World, w': World)
    requires SharesRelated(w) && w'.shares == w.shares && w.trips <= w'.trips
    requires w'.mock.shares == w.mock.shares && w'.mock.nextShareToken == w.mock.nextShareToken
    requires w'.t.shares.Keys == w.t.shares.Keys
    requires forall k :: k in w.t.shares ==> w'.t.shares[k].itinerary == w.t.shares[k].itinerary
    ensures SharesRelated(w')
  {
    forall p | p in w.shares ensures SharesPair(w', p) { assert SharesPair(w, p); }
  }

  lemma InvitesKept(w: World, w': World)
    requires InvitesRelated(w) && w'.invites == w.invites && w'.mock.nextInviteToken == w.mock.nextInviteToken
    ensures InvitesRelated(w')
  {
  }

  lemma TripsKept(w: World, w': World)
    requires TripsRelated(w) && w'.trips == w.trips && w'.itineraries == w.itineraries
    requires w'.mock.itineraries == w.mock.itineraries && w'.mock.nextItinerary == w.mock.nextItinerary
    ensures TripsRelated(w')
  {
  }

  // ---------------------------------------------------------------------------
  // Call by call
  // ---------------------------------------------------------------------------

  ghost predicate Simulates(w: World, me: Caller, op: Op) {
    Related(Step(w, me, op), me) && RepliesMatch(Step(w, me, op), CallMock(w.mock, me, op).1, CallService(w, me, op).2)
  }

  lemma CreateConstraints(t: Tools, g: Gid, name: string, owner: User)
    requires Constraints(t) && g !in t.groups
    ensures Constraints(InsertGroup(t, g, name, owner))
    ensures GetGroupDto(InsertGroup(t, g, name, owner), g) == Some(GroupDto(g, name, owner, []))
  {
    SelectNone(t.members, g, t.nextMember);
    assert Values(MembersOf(InsertGroup(t, g, name, owner), g)) == [];
  }

  function Created(w: World, me: Caller, name: string, g: Gid): World {
    w.(mock := Create(w.mock, me.user, name), t := InsertGroup(w.t, g, name, me.user),
       groups := w.groups + {(w.mock.nextGroup, g)})
  }

  lemma CreatePairs(w: World, me: Caller, name: string, g: Gid, p: (nat, Gid))
    requires GroupsOk(w, me) && New(w.groups, g) && p in Created(w, me, name, g).groups
    ensures GroupsPair(Created(w, me, name, g), me, p)
  {
    CreateConstraints(w.t, g, name, me.user);
    if p in w.groups {
      assert GroupsPair(w, me, p);
      PairKept(w, Created(w, me, name, g), me, p);
    }
  }

  /** The renaming stays one-to-one and covers both sides when one new pair joins it. */
  lemma GroupAdded(w: World, w': World, me: Caller, added: (nat, Gid))
    requires GroupsRelated(w, me) && w'.groups == w.groups + {added}
    requires added.0 == w.mock.nextGroup && New(w.groups, added.1)
    requires w'.mock.groups.Keys == w.mock.groups.Keys + {added.0}
    requires w'.t.groups.Keys == w.t.groups.Keys + {added.1}
    ensures forall g :: g in w'.mock.groups ==> exists p :: p in w'.groups && p.0 == g
    ensures forall g :: g in w'.t.groups ==> exists p :: p in w'.groups && p.1 == g
  {
    assert added in w'.groups;
    forall g | g in w'.mock.groups && g != added.0 ensures exists p :: p in w'.groups && p.0 == g {
      var p :| p in w.groups && p.0 == g;
      assert p in w'.groups;
    }
    forall g | g in w'.t.groups && g != added.1 ensures exists p :: p in w'.groups && p.1 == g {
      var p :| p in w.groups && p.1 == g;
      assert p in w'.groups;
    }
  }

  lemma CreateRelated(w: World, me: Caller, name: string, g: Gid)
    requires GroupsOk(w, me) && New(w.groups, g)
    ensures GroupsOk(Created(w, me, name, g), me)
  {
    CreateConstraints(w.t, g, name, me.user);
    var w' := Created(w, me, name, g);
    forall p | p in w'.groups ensures GroupsPair(w', me, p) { CreatePairs(w, me, name, g, p); }
    GroupAdded(w, w', me, (w.mock.nextGroup, g));
    forall p | p in w.groups ensures p.0 < w.mock.nextGroup { assert GroupsPair(w, me, p); }
    RenamingAdds(w.groups, w.mock.nextGroup, g);
  }

  lemma CreateAccepted(w: World, me: Caller, op: Op)
    requires op.CreateGroup? && GroupsPair(Step(w, me, op), me, (w.mock.nextGroup, op.freshGroup))
    ensures Step(w, me, op) == Created(w, me, op.name, op.freshGroup)
    ensures RepliesMatch(Step(w, me, op), CallMock(w.mock, me, op).1, CallService(w, me, op).2)
  {
  }

  lemma CreateSimulates(w: World, me: Caller, op: Op)
    requires Related(w, me) && WellFormed(w, op) && op.CreateGroup?
    ensures Simulates(w, me, op)
  {
    var w' := Created(w, me, op.name, op.freshGroup);
    CreateRelated(w, me, op.name, op.freshGroup);
    SharesKept(w, w');
    InvitesKept(w, w');
    TripsKept(w, w');
    CreateAccepted(w, me, op);
  }

  lemma GetSimulates(w: World, me: Caller, op: Op)
    requires Related(w, me) && WellFormed(w, op) && op.GetGroup?
    ensures Simulates(w, me, op)
  {
    assert op.g in w.groups ==> GroupsPair(w, me, op.g);
    GetReplies(w, me, op);
  }

  lemma GetReplies(w: World, me: Caller, op: Op)
    requires op.GetGroup? && (op.g.0 in w.mock.groups <==> op.g.1 in w.t.groups)
    requires op.g.0 in w.mock.groups ==> op.g in w.groups && GroupsPair(w, me, op.g)
    ensures Step(w, me, op) == w
    ensures RepliesMatch(w, CallMock(w.mock, me, op).1, CallService(w, me, op).2)
  {
  }

  lemma ListedByService(w: World, me: Caller, x: (nat, MockGroup)) returns (dto: GroupDto)
    requires GroupsOk(w, me) && x in List(w.mock, me.user, me.email)
    ensures dto in ListGroupsVisibleTo(w.t, me.user, me.email)
    ensures (x.0, dto.id) in w.groups && GroupMatch(w.invites, x.1, dto)
  {
    var p :| p in w.groups && p.0 == x.0;
    assert GroupsPair(w, me, p);
    dto := GetGroupDto(w.t, p.1).value;
  }

  lemma ListedByMock(w: World, me: Caller, dto: GroupDto) returns (x: (nat, MockGroup))
    requires GroupsOk(w, me) && dto in ListGroupsVisibleTo(w.t, me.user, me.email)
    ensures x in List(w.mock, me.user, me.email)
    ensures (x.0, dto.id) in w.groups && GroupMatch(w.invites, x.1, dto)
  {
    var p :| p in w.groups && p.1 == dto.id;
    assert GroupsPair(w, me, p);
    x := (p.0, w.mock.groups[p.0]);
  }

  lemma ListSimulates(w: World, me: Caller, op: Op)
    requires Related(w, me) && op.ListGroups?
    ensures Simulates(w, me, op)
  {
    var mine, theirs := List(w.mock, me.user, me.email), ListGroupsVisibleTo(w.t, me.user, me.email);
    assert Step(w, me, op) == w;
    forall x | x in mine
      ensures exists dto :: dto in theirs && (x.0, dto.id) in w.groups && GroupMatch(w.invites, x.1, dto)
    {
      var dto := ListedByService(w, me, x);
    }
    forall dto | dto in theirs
      ensures exists x :: x in mine && (x.0, dto.id) in w.groups && GroupMatch(w.invites, x.1, dto)
    {
      var x := ListedByMock(w, me, dto);
    }
  }

  function Removed(w: World, g: (nat, Gid)): World {
    w.(mock := w.mock.(groups := w.mock.groups - {g.0}), t := ToolsTables.DeleteGroup(w.t, g.1))
  }

  lemma PairsAfterDelete(w: World, me: Caller, g: (nat, Gid), p: (nat, Gid))
    requires GroupsOk(w, me) && g in w.groups && g.1 in w.t.groups && p in w.groups
    ensures GroupsPair(Removed(w, g), me, p)
  {
    assert GroupsPair(w, me, p);
    DeleteFacts(w.t, g.1);
    if p != g { PairKept(w, Removed(w, g), me, p); }
  }

  lemma DeleteKeeps(t: Tools, g: Gid)
    requires Constraints(t)
    ensures var t' := ToolsTables.DeleteGroup(t, g);
            && Constraints(t') && t'.shares.Keys == t.shares.Keys
            && forall k :: k in t.shares ==> t'.shares[k].itinerary == t.shares[k].itinerary
  {
    DeleteFacts(t, g);
  }

  lemma DeleteRelated(w: World, me: Caller, g: (nat, Gid))
    requires GroupsOk(w, me) && g in w.groups && g.1 in w.t.groups
    ensures GroupsOk(Removed(w, g), me)
  {
    DeleteKeeps(w.t, g.1);
    forall p | p in w.groups ensures GroupsPair(Removed(w, g), me, p) { PairsAfterDelete(w, me, g, p); }
  }

  lemma DeleteReplies(w: World, me: Caller, op: Op)
    requires op.DeleteGroup? && (op.g.0 in w.mock.groups <==> op.g.1 in w.t.groups)
    requires op.g.0 in w.mock.groups ==> w.mock.groups[op.g.0].owner == me.user && w.t.groups[op.g.1].owner == me.user
    ensures Step(w, me, op) == if op.g.1 in w.t.groups then Removed(w, op.g) else w
    ensures RepliesMatch(Step(w, me, op), CallMock(w.mock, me, op).1, CallService(w, me, op).2)
  {
  }

  lemma DeleteRelatedAll(w: World, me: Caller, g: (nat, Gid))
    requires Related(w, me) && g in w.groups && g.1 in w.t.groups
    ensures Related(Removed(w, g), me)
  {
    DeleteRelated(w, me, g);
    DeleteKeeps(w.t, g.1);
    SharesKept(w, Removed(w, g));
    InvitesKept(w, Removed(w, g));
    TripsKept(w, Removed(w, g));
  }

  lemma DeleteSimulates(w: World, me: Caller, op: Op)
    requires Related(w, me) && WellFormed(w, op) && op.DeleteGroup?
    ensures Simulates(w, me, op)
  {
    assert op.g in w.groups ==> GroupsPair(w, me, op.g);
    DeleteReplies(w, me, op);
    if op.g.1 in w.t.groups { DeleteRelatedAll(w, me, op.g); }
  }

  /** An e-mail is a member on both sides or on neither. */
  lemma EmailsAgree(w: World, me: Caller, p: (nat, Gid), email: string)
    requires GroupsOk(w, me) && p in w.groups && p.0 in w.mock.groups
    ensures p.1 in w.t.groups && (EmailTaken(w.mock.groups[p.0].members, email) <==> HasEmail(w.t, p.1, email))
  {
    assert GroupsPair(w, me, p);
    var ours, theirs := w.mock.groups[p.0].members, GetGroupDto(w.t, p.1).value.members;
    if EmailTaken(ours, email) {
      var j :| 0 <= j < |ours| && ours[j].email == email;
      DtoMembers(w.t, p.1, theirs[j]);
    }
    if HasEmail(w.t, p.1, email) {
      var i :| i in w.t.members && w.t.members[i].parent == p.1 && w.t.members[i].val.email == email;
      DtoMembers(w.t, p.1, w.t.members[i].val);
      assert w.t.members[i] == Row(p.1, w.t.members[i].val);
      var j :| 0 <= j < |theirs| && theirs[j] == w.t.members[i].val;
      assert ours[j] in ours;
    }
  }

  lemma TokenUnheld(w: World, me: Caller, token: Token)
    requires GroupsOk(w, me) && New(w.invites, token)
    ensures !TokenHeld(w.t, token)
  {
    if i :| i in w.t.members && w.t.members[i].val.token == Some(token) {
      var p, j := HeldByPair(w, me, i);
    }
  }

  /** The mock member that stands for a member row. */
  lemma HeldByPair(w: World, me: Caller, i: nat) returns (p: (nat, Gid), j: nat)
    requires GroupsOk(w, me) && i in w.t.members
    ensures p in w.groups && p.1 == w.t.members[i].parent && p.0 in w.mock.groups && p.1 in w.t.groups
    ensures j < |MembersOf(w.t, p.1)| == |w.mock.groups[p.0].members|
    ensures MembersOf(w.t, p.1)[j] == (i, w.t.members[i].val)
    ensures MemberMatch(w.invites, w.mock.groups[p.0].members[j], w.t.members[i].val)
  {
    var g := w.t.members[i].parent;
    p :| p in w.groups && p.1 == g;
    assert GroupsPair(w, me, p);
    SelectExact(w.t.members, g, w.t.nextMember);
    assert (i, w.t.members[i].val) in MembersOf(w.t, g);
    j :| 0 <= j < |MembersOf(w.t, g)| && MembersOf(w.t, g)[j] == (i, w.t.members[i].val);
    assert GetGroupDto(w.t, g).value.members[j] == w.t.members[i].val;
  }

  // Invitations

  function Invited(w: World, g: (nat, Gid), address: string, drawn: Token): World
    requires g.0 in w.mock.groups && InsertInvited(w.t, g.1, address, drawn).Inserted?
  {
    var group := w.mock.groups[g.0];
    var member := MockMember(address, Status.Invited, None, Some(w.mock.nextInviteToken));
    w.(mock := w.mock.(groups := w.mock.groups[g.0 := group.(members := group.members + [member])],
                       nextInviteToken := w.mock.nextInviteToken + 1),
       t := InsertInvited(w.t, g.1, address, drawn).t,
       invites := w.invites + {(w.mock.nextInviteToken, drawn)})
  }

  ghost predicate CanInvite(w: World, me: Caller, g: (nat, Gid), address: string, drawn: Token) {
    && GroupsOk(w, me) && New(w.invites, drawn) && g in w.groups && g.0 in w.mock.groups && g.1 in w.t.groups
    && !HasEmail(w.t, g.1, address)
  }

  lemma InvitedGroup(w: World, me: Caller, g: (nat, Gid), address: string, drawn: Token)
    requires CanInvite(w, me, g, address, drawn)
    ensures GroupsPair(Invited(w, g, address, drawn), me, g)
  {
    var w' := Invited(w, g, address, drawn);
    assert GroupsPair(w, me, g);
    var member := Member(address, None, Status.Invited, Some(drawn));
    SelectInsert(w.t.members, g.1, member, w.t.nextMember);
    var ours, theirs := w.mock.groups[g.0], GetGroupDto(w.t, g.1).value;
    MatchMore(w.invites, w'.invites, ours, theirs);
    assert GetGroupDto(w'.t, g.1).value.members == theirs.members + [member];
    assert (w.mock.nextInviteToken, drawn) in w'.invites;
  }

  lemma InvitedOthers(w: World, me: Caller, g: (nat, Gid), address: string, drawn: Token, p: (nat, Gid))
    requires g.0 in w.mock.groups && InsertInvited(w.t, g.1, address, drawn).Inserted?
    requires GroupsPair(w, me, p) && p.0 != g.0 && p.1 != g.1
    requires Constraints(w.t) && Constraints(Invited(w, g, address, drawn).t)
    ensures GroupsPair(Invited(w, g, address, drawn), me, p)
  {
    PairKept(w, Invited(w, g, address, drawn), me, p);
  }

  lemma InviteRelated(w: World, me: Caller, g: (nat, Gid), address: string, drawn: Token)
    requires CanInvite(w, me, g, address, drawn)
    ensures GroupsOk(Invited(w, g, address, drawn), me)
  {
    var w' := Invited(w, g, address, drawn);
    TokenUnheld(w, me, drawn);
    InsertFacts(w.t, g.1, address, drawn);
    InvitedGroup(w, me, g, address, drawn);
    forall p | p in w.groups && p != g ensures GroupsPair(w', me, p) { InvitedOthers(w, me, g, address, drawn, p); }
    PairsKept(w, w', me);
  }

  lemma InviteRelatedRest(w: World, me: Caller, g: (nat, Gid), address: string, drawn: Token)
    requires InvitesRelated(w) && SharesRelated(w) && TripsRelated(w) && New(w.invites, drawn)
    requires g.0 in w.mock.groups && InsertInvited(w.t, g.1, address, drawn).Inserted?
    ensures var w' := Invited(w, g, address, drawn); InvitesRelated(w') && SharesRelated(w') && TripsRelated(w')
  {
    RenamingAdds(w.invites, w.mock.nextInviteToken, drawn);
    SharesKept(w, Invited(w, g, address, drawn));
  }

  lemma InviteAccepted(w: World, me: Caller, op: Op)
    requires op.Invite? && op.g.0 in w.mock.groups && op.g.1 in w.t.groups && op.g in w.groups
    requires w.mock.groups[op.g.0].owner == me.user && w.t.groups[op.g.1].owner == me.user
    requires !EmailTaken(w.mock.groups[op.g.0].members, op.address) && !HasEmail(w.t, op.g.1, op.address)
    requires GroupsPair(Invited(w, op.g, op.address, op.drawn), me, op.g)
    ensures Step(w, me, op) == Invited(w, op.g, op.address, op.drawn)
    ensures RepliesMatch(Step(w, me, op), CallMock(w.mock, me, op).1, CallService(w, me, op).2)
  {
    InviteAlone(w.t, me.user, op.g.1, op.address, true, op.drawn);
  }

  lemma InviteRefused(w: World, me: Caller, op: Op)
    requires op.Invite? && (op.g.0 in w.mock.groups <==> op.g.1 in w.t.groups)
    requires op.g.0 in w.mock.groups ==>
               && w.mock.groups[op.g.0].owner == me.user && w.t.groups[op.g.1].owner == me.user
               && EmailTaken(w.mock.groups[op.g.0].members, op.address) && HasEmail(w.t, op.g.1, op.address)
    ensures Step(w, me, op) == w
    ensures RepliesMatch(w, CallMock(w.mock, me, op).1, CallService(w, me, op).2)
  {
    InviteAlone(w.t, me.user, op.g.1, op.address, op.g.1 in w.t.groups, op.drawn);
  }

  lemma InviteSimulates(w: World, me: Caller, op: Op)
    requires Related(w, me) && WellFormed(w, op) && op.Invite?
    ensures Simulates(w, me, op)
  {
    assert op.g in w.groups ==> GroupsPair(w, me, op.g);
    if op.g.0 in w.mock.groups { EmailsAgree(w, me, op.g, op.address); }
    if op.g.0 in w.mock.groups && !HasEmail(w.t, op.g.1, op.address) {
      InviteRelated(w, me, op.g, op.address, op.drawn);
      InviteRelatedRest(w, me, op.g, op.address, op.drawn);
      InviteAccepted(w, me, op);
    } else {
      InviteRefused(w, me, op);
    }
  }

  // Joining

  /** The row that stands for a mock member. */
  lemma RowOf(w: World, me: Caller, h: nat, j: nat) returns (p: (nat, Gid), i: nat)
    requires GroupsOk(w, me) && h in w.mock.groups && j < |w.mock.groups[h].members|
    ensures p in w.groups && p.0 == h && p.1 in w.t.groups && i in w.t.members && w.t.members[i].parent == p.1
    ensures j < |MembersOf(w.t, p.1)| && MembersOf(w.t, p.1)[j] == (i, w.t.members[i].val)
    ensures MemberMatch(w.invites, w.mock.groups[h].members[j], w.t.members[i].val)
  {
    p :| p in w.groups && p.0 == h;
    assert GroupsPair(w, me, p);
    var rows := MembersOf(w.t, p.1);
    assert |rows| == |w.mock.groups[h].members|;
    SelectExact(w.t.members, p.1, w.t.nextMember);
    i := rows[j].0;
    assert (rows[j].0, rows[j].1) in rows;
    assert GetGroupDto(w.t, p.1).value.members[j] == rows[j].1;
  }

  /** The mock holds a token only if the service holds its partner, and then in the corresponding place. */
  lemma TokenFound(w: World, me: Caller, k: (nat, Token)) returns (p: (nat, Gid), i: nat)
    requires GroupsOk(w, me) && Renaming(w.invites) && k in w.invites && FindGroup(w.mock, k.0, 0).Some?
    ensures p in w.groups && FindGroup(w.mock, k.0, 0) == Some(p.0) && p.1 in w.t.groups
    ensures Holder(w.t.members, k.1, w.t.nextMember) == Some(i) && i in w.t.members
    ensures w.t.members[i].parent == p.1 && w.t.members[i].val.token == Some(k.1)
    ensures var j := FindToken(w.mock.groups[p.0].members, k.0, 0).value;
            j < |MembersOf(w.t, p.1)| && MembersOf(w.t, p.1)[j] == (i, w.t.members[i].val)
  {
    var h := FindGroup(w.mock, k.0, 0).value;
    var j := FindToken(w.mock.groups[h].members, k.0, 0).value;
    p, i := RowOf(w, me, h, j);
    HolderExact(w.t.members, k.1, w.t.nextMember);
  }

  lemma TokenPresent(w: World, me: Caller, k: (nat, Token), i: nat)
    requires GroupsOk(w, me) && Renaming(w.invites) && k in w.invites
    requires i in w.t.members && w.t.members[i].val.token == Some(k.1)
    ensures FindGroup(w.mock, k.0, 0).Some?
  {
    var p, j := HeldByPair(w, me, i);
    assert p.0 < w.mock.nextGroup by { assert GroupsPair(w, me, p); }
    assert w.mock.groups[p.0].members[j].inviteToken == Some(k.0);
    assert FindToken(w.mock.groups[p.0].members, k.0, 0).Some?;
  }

  lemma TokenMissing(w: World, me: Caller, k: (nat, Token))
    requires GroupsOk(w, me) && Renaming(w.invites) && k in w.invites && FindGroup(w.mock, k.0, 0).None?
    ensures Holder(w.t.members, k.1, w.t.nextMember).None?
  {
    HolderExact(w.t.members, k.1, w.t.nextMember);
    var i := Holder(w.t.members, k.1, w.t.nextMember);
    if i.Some? { TokenPresent(w, me, k, i.value); }
  }

  function Joined(w: World, me: Caller, p: (nat, Gid), j: nat, i: nat): World
    requires p.0 in w.mock.groups && j < |w.mock.groups[p.0].members| && i in w.t.members
  {
    w.(mock := w.mock.(groups := w.mock.groups[p.0 := JoinMember(w.mock.groups[p.0], j, me.user)]),
       t := JoinRow(w.t, i, me.user))
  }

  ghost predicate CanJoin(w: World, me: Caller, p: (nat, Gid), j: nat, i: nat) {
    && GroupsOk(w, me) && p in w.groups && p.0 in w.mock.groups && p.1 in w.t.groups
    && j < |w.mock.groups[p.0].members| && j < |MembersOf(w.t, p.1)|
    && i in w.t.members && w.t.members[i].parent == p.1 && w.t.members[i].val.token.Some?
    && MembersOf(w.t, p.1)[j] == (i, w.t.members[i].val)
  }

  lemma JoinedDto(t: Tools, g: Gid, j: nat, i: nat, user: User)
    requires g in t.groups && i in t.members && t.members[i].parent == g
    requires j < |MembersOf(t, g)| && MembersOf(t, g)[j] == (i, t.members[i].val)
    ensures var dto := GetGroupDto(t, g).value;
            var member := t.members[i].val.(status := Status.Joined, userId := Some(user), token := None);
            && j < |dto.members| && dto.members[j] == t.members[i].val
            && GetGroupDto(JoinRow(t, i, user), g) == Some(dto.(members := dto.members[j := member]))
  {
    var t' := JoinRow(t, i, user);
    var dto := GetGroupDto(t, g).value;
    SelectUpdated(t.members, g, t.nextMember, j, t'.members[i].val);
    assert GetGroupDto(t', g).value.members == dto.members[j := t'.members[i].val];
  }

  lemma JoinedGroup(w: World, me: Caller, p: (nat, Gid), j: nat, i: nat)
    requires CanJoin(w, me, p, j, i)
    ensures GroupsPair(Joined(w, me, p, j, i), me, p)
  {
    assert GroupsPair(w, me, p);
    JoinedDto(w.t, p.1, j, i, me.user);
    JoinedMatch(w.invites, w.mock.groups[p.0], GetGroupDto(w.t, p.1).value, j, me.user);
  }

  lemma JoinedMatch(invites: set<(nat, Token)>, a: MockGroup, b: GroupDto, j: nat, user: User)
    requires GroupMatch(invites, a, b) && j < |a.members|
    ensures var member := b.members[j].(status := Status.Joined, userId := Some(user), token := None);
            GroupMatch(invites, JoinMember(a, j, user), b.(members := b.members[j := member]))
  {
  }

  lemma JoinKeeps(t: Tools, i: nat, user: User)
    requires Constraints(t) && i in t.members && t.members[i].val.token.Some?
    ensures Constraints(JoinRow(t, i, user))
  {
    JoinFacts(t, i, user);
  }

  lemma JoinedPairs(w: World, me: Caller, p: (nat, Gid), j: nat, i: nat, q: (nat, Gid))
    requires CanJoin(w, me, p, j, i) && q in w.groups
    ensures GroupsPair(Joined(w, me, p, j, i), me, q)
  {
    if p == q {
      JoinedGroup(w, me, p, j, i);
    } else {
      assert GroupsPair(w, me, q);
      JoinKeeps(w.t, i, me.user);
      PairKept(w, Joined(w, me, p, j, i), me, q);
    }
  }

  lemma JoinedFrame(w: World, me: Caller, p: (nat, Gid), j: nat, i: nat)
    requires Constraints(w.t) && p.0 in w.mock.groups && j < |w.mock.groups[p.0].members|
    requires i in w.t.members && w.t.members[i].val.token.Some?
    ensures var w' := Joined(w, me, p, j, i);
            && Constraints(w'.t) && w'.groups == w.groups
            && w'.mock.groups.Keys == w.mock.groups.Keys && w'.t.groups.Keys == w.t.groups.Keys
  {
    JoinKeeps(w.t, i, me.user);
  }

  lemma JoinRelated(w: World, me: Caller, p: (nat, Gid), j: nat, i: nat)
    requires CanJoin(w, me, p, j, i)
    ensures GroupsOk(Joined(w, me, p, j, i), me)
  {
    var w' := Joined(w, me, p, j, i);
    JoinedFrame(w, me, p, j, i);
    forall q | q in w.groups ensures GroupsPair(w', me, q) { JoinedPairs(w, me, p, j, i, q); }
    PairsKept(w, w', me);
  }

  lemma JoinAccepted(w: World, me: Caller, op: Op, p: (nat, Gid), j: nat, i: nat)
    requires op.JoinGroup? && FindGroup(w.mock, op.k.0, 0) == Some(p.0)
    requires FindToken(w.mock.groups[p.0].members, op.k.0, 0) == Some(j)
    requires Holder(w.t.members, op.k.1, w.t.nextMember) == Some(i) && i in w.t.members && w.t.members[i].parent == p.1
    requires p in w.groups && p.1 in w.t.groups
    requires GroupsPair(Joined(w, me, p, j, i), me, p)
    ensures Step(w, me, op) == Joined(w, me, p, j, i)
    ensures RepliesMatch(Step(w, me, op), CallMock(w.mock, me, op).1, CallService(w, me, op).2)
  {
    JoinAlone(w.t, me.user, op.k.1, op.k.1);
  }

  lemma JoinRefused(w: World, me: Caller, op: Op)
    requires op.JoinGroup? && FindGroup(w.mock, op.k.0, 0).None? && Holder(w.t.members, op.k.1, w.t.nextMember).None?
    ensures Step(w, me, op) == w
    ensures RepliesMatch(w, CallMock(w.mock, me, op).1, CallService(w, me, op).2)
  {
    JoinAlone(w.t, me.user, op.k.1, op.k.1);
  }

  lemma JoinSimulates(w: World, me: Caller, op: Op)
    requires Related(w, me) && WellFormed(w, op) && op.JoinGroup?
    ensures Simulates(w, me, op)
  {
    if FindGroup(w.mock, op.k.0, 0).Some? && op.k in w.invites {
      var p, i := TokenFound(w, me, op.k);
      var j := FindToken(w.mock.groups[p.0].members, op.k.0, 0).value;
      assert GroupsPair(w, me, p);
      JoinRelated(w, me, p, j, i);
      SharesKept(w, Joined(w, me, p, j, i));
      InvitesKept(w, Joined(w, me, p, j, i));
      TripsKept(w, Joined(w, me, p, j, i));
      JoinedGroup(w, me, p, j, i);
      JoinAccepted(w, me, op, p, j, i);
    } else {
      HolderExact(w.t.members, op.k.1, w.t.nextMember);
      if op.k in w.invites { TokenMissing(w, me, op.k); }
      JoinRefused(w, me, op);
    }
  }

  // Shares and itineraries

  function Shared(w: World, me: Caller, trip: (int, ItineraryId), to: Option<Gid>, drawn: Token): World {
    w.(mock := AddShare(w.mock, trip.0), t := InsertShare(w.t, drawn, Share(trip.1, to, me.user)),
       shares := w.shares + {(w.mock.nextShareToken, drawn)}, trips := w.trips + {trip})
  }

  lemma GroupsKept(w: World, w': World, me: Caller)
    requires GroupsRelated(w, me) && Constraints(w.t) && Constraints(w'.t)
    requires w'.groups == w.groups && w'.invites == w.invites
    requires w'.mock.groups == w.mock.groups && w'.mock.nextGroup == w.mock.nextGroup
    requires w'.t.groups == w.t.groups && w'.t.members == w.t.members && w'.t.nextMember == w.t.nextMember
    ensures GroupsRelated(w', me)
  {
    forall p | p in w.groups ensures GroupsPair(w', me, p) { PairKept(w, w', me, p); }
  }

  lemma ShareRelated(w: World, me: Caller, trip: (int, ItineraryId), to: Option<Gid>, drawn: Token)
    requires SharesRelated(w) && New(w.shares, drawn)
    ensures SharesRelated(Shared(w, me, trip, to, drawn))
  {
    var w' := Shared(w, me, trip, to, drawn);
    forall p | p in w.shares ensures SharesPair(w', p) { assert SharesPair(w, p); }
    assert SharesPair(w', (w.mock.nextShareToken, drawn));
    forall p | p in w.shares ensures p.0 != w.mock.nextShareToken { assert SharesPair(w, p); }
    RenamingAdds(w.shares, w.mock.nextShareToken, drawn);
    assert (w.mock.nextShareToken, drawn) in w'.shares;
    forall k | k in w'.t.shares && k != drawn ensures exists p :: p in w'.shares && p.1 == k {
      var p :| p in w.shares && p.1 == k;
      assert p in w'.shares;
    }
  }

  lemma ShareAccepted(w: World, me: Caller, op: Op, to: Option<Gid>)
    requires op.CreateShare? && to == if op.target.Some? then Some(op.target.value.1) else None
    requires to.Some? ==> to.value in w.t.groups && w.t.groups[to.value].owner == me.user
    ensures Step(w, me, op) == Shared(w, me, op.trip, to, op.drawn)
    ensures RepliesMatch(Step(w, me, op), CallMock(w.mock, me, op).1, CallService(w, me, op).2)
  {
    ShareAlone(w.t, me.user, Some(me.email), op.trip.1, to, op.drawn);
  }

  lemma TripNamed(w: World, w': World, trip: (int, ItineraryId))
    requires TripsRelated(w) && NamesTrip(w, trip) && w'.trips == w.trips + {trip} && w'.itineraries == w.itineraries
    requires w'.mock.itineraries == w.mock.itineraries && w'.mock.nextItinerary == w.mock.nextItinerary
    ensures TripsRelated(w')
  {
    if trip in w.trips {
      assert w'.trips == w.trips;
    } else {
      RenamingAdds(w.trips, trip.0, trip.1);
    }
  }

  lemma ShareRelatedAll(w: World, me: Caller, trip: (int, ItineraryId), to: Option<Gid>, drawn: Token)
    requires Related(w, me) && NamesTrip(w, trip) && New(w.shares, drawn) && (to.Some? ==> to.value in w.t.groups)
    ensures Related(Shared(w, me, trip, to, drawn), me)
  {
    var w' := Shared(w, me, trip, to, drawn);
    ShareConstraints(w.t, drawn, Share(trip.1, to, me.user));
    ShareRelated(w, me, trip, to, drawn);
    GroupsKept(w, w', me);
    InvitesKept(w, w');
    TripNamed(w, w', trip);
  }

  lemma ShareConstraints(t: Tools, token: Token, share: Share)
    requires Constraints(t) && (share.group.Some? ==> share.group.value in t.groups)
    ensures Constraints(InsertShare(t, token, share))
  {
  }

  lemma ShareSimulates(w: World, me: Caller, op: Op)
    requires Related(w, me) && WellFormed(w, op) && op.CreateShare?
    ensures Simulates(w, me, op)
  {
    var to := if op.target.Some? then Some(op.target.value.1) else None;
    if op.target.Some? { assert GroupsPair(w, me, op.target.value); }
    ShareRelatedAll(w, me, op.trip, to, op.drawn);
    ShareAccepted(w, me, op, to);
  }

  lemma ViewSimulates(w: World, me: Caller, op: Op)
    requires Related(w, me) && WellFormed(w, op) && op.ViewShare?
    ensures Simulates(w, me, op)
  {
    assert Step(w, me, op) == w;
    if op.k in w.shares { assert SharesPair(w, op.k); }
  }

  lemma ItinerarySimulates(w: World, me: Caller, op: Op)
    requires Related(w, me) && WellFormed(w, op) && (op.CreateItinerary? || op.RemoveItinerary?)
    ensures Simulates(w, me, op)
  {
    TripsFrame(w, me, op);
    TripsStep(w, me, op);
    InvitesKept(w, Step(w, me, op));
    GroupsKept(w, Step(w, me, op), me);
    SharesKept(w, Step(w, me, op));
  }

  lemma TripsFrame(w: World, me: Caller, op: Op)
    requires op.CreateItinerary? || op.RemoveItinerary?
    ensures var w' := Step(w, me, op);
            && w'.t == w.t && w'.groups == w.groups && w'.invites == w.invites && w'.shares == w.shares
            && w.trips <= w'.trips
            && w'.mock == w.mock.(itineraries := w'.mock.itineraries, nextItinerary := w'.mock.nextItinerary)
  {
  }

  lemma TripsStep(w: World, me: Caller, op: Op)
    requires TripsRelated(w) && WellFormed(w, op) && (op.CreateItinerary? || op.RemoveItinerary?)
    ensures TripsRelated(Step(w, me, op))
    ensures RepliesMatch(Step(w, me, op), CallMock(w.mock, me, op).1, CallService(w, me, op).2)
  {
    if op.CreateItinerary? { RenamingAdds(w.trips, w.mock.nextItinerary, op.freshTrip); }
  }

  // ---------------------------------------------------------------------------
  // Runs
  // ---------------------------------------------------------------------------

  lemma CallSimulates(w: World, me: Caller, op: Op)
    requires Related(w, me) && WellFormed(w, op)
    ensures Simulates(w, me, op)
  {
    match op
    case CreateGroup(_, _) => CreateSimulates(w, me, op);
    case GetGroup(_) => GetSimulates(w, me, op);
    case ListGroups => ListSimulates(w, me, op);
    case DeleteGroup(_) => DeleteSimulates(w, me, op);
    case Invite(_, _, _) => InviteSimulates(w, me, op);
    case JoinGroup(_) => JoinSimulates(w, me, op);
    case CreateShare(_, _, _) => ShareSimulates(w, me, op);
    case ViewShare(_) => ViewSimulates(w, me, op);
    case _ => ItinerarySimulates(w, me, op);
  }

  ghost predicate IsSession(worlds: seq<World>, me: Caller, ops: seq<Op>) {
    && |worlds| == |ops| + 1
    && forall i {:trigger ops[i]} :: 0 <= i < |ops| ==>
         WellFormed(worlds[i], ops[i]) && worlds[i + 1] == Step(worlds[i], me, ops[i])
  }

  lemma {:induction false} SessionRelated(worlds: seq<World>, me: Caller, ops: seq<Op>, i: nat)
    requires IsSession(worlds, me, ops) && Related(worlds[0], me) && i < |worlds|
    ensures Related(worlds[i], me)
  {
    if i > 0 {
      SessionRelated(worlds, me, ops, i - 1);
      CallSimulates(worlds[i - 1], me, ops[i - 1]);
    }
  }

  /** In every session from related states, call number i is answered alike on both sides. */
  lemma MockSimulates(worlds: seq<World>, me: Caller, ops: seq<Op>, i: nat)
    requires IsSession(worlds, me, ops) && Related(worlds[0], me) && i < |ops|
    ensures RepliesMatch(worlds[i + 1], CallMock(worlds[i].mock, me, ops[i]).1, CallService(worlds[i], me, ops[i]).2)
  {
    SessionRelated(worlds, me, ops, i);
    CallSimulates(worlds[i], me, ops[i]);
  }

  // ---------------------------------------------------------------------------
  // Shares of itineraries to come
  // ---------------------------------------------------------------------------

  function CreateAll(w: World, me: Caller, ids: seq<ItineraryId>): World {
    if ids == [] then w
    else Step(CreateAll(w, me, ids[..|ids| - 1]), me, CreateItinerary(ids[|ids| - 1]))
  }

  lemma {:induction false} CreateAllFacts(w: World, me: Caller, ids: seq<ItineraryId>)
    ensures var w' := CreateAll(w, me, ids);
            && w'.t == w.t && w'.mock.shares == w.mock.shares
            && w'.mock.nextItinerary == w.mock.nextItinerary + |ids|
            && (forall i :: i in w'.mock.itineraries <==>
                  i in w.mock.itineraries || w.mock.nextItinerary <= i < w.mock.nextItinerary + |ids|)
            && (forall i :: i in w'.itineraries <==> i in w.itineraries || i in ids)
  {
    if ids != [] {
      var front, last := ids[..|ids| - 1], ids[|ids| - 1];
      CreateAllFacts(w, me, front);
      assert ids == front + [last];
      TripsFrame(CreateAll(w, me, front), me, CreateItinerary(last));
    }
  }

  /**
   * Whenever a share names an itinerary that neither side has, but with a number the mock has yet to
   * hand out, creating that many itineraries brings it to life in the mock and only there.
   */
  lemma AnticipationDiffers(w: World, me: Caller, trip: (int, ItineraryId), drawn: Token, ids: seq<ItineraryId>)
    requires Nowhere(w, trip) && trip.0 >= w.mock.nextItinerary
    requires |ids| == trip.0 - w.mock.nextItinerary + 1 && trip.1 !in ids
    ensures var w' := CreateAll(Step(w, me, CreateShare(trip, None, drawn)), me, ids);
            var view := ViewShare((w.mock.nextShareToken, drawn));
            && CallMock(w'.mock, me, view).1 == MockTrip(trip.0)
            && CallService(w', me, view).2 == Failed(404)
  {
    ShareAccepted(w, me, CreateShare(trip, None, drawn), None);
    CreateAllFacts(Shared(w, me, trip, None, drawn), me, ids);
  }

  /** The mock's seed, and a service that holds the same group and itinerary. */
  function Seeded(me: Caller, g: Gid, trip: ItineraryId): World {
    World(Initial(me.user), Tools(map[g := Group("Tokyo Trip Crew", me.user)], map[], 0, map[]), {trip},
          {(1, g)}, {}, {}, {(101, trip)})
  }

  /** A share that anticipates the mock's next itinerary id comes alive there, and only there. */
  lemma AnticipatedItinerary(me: Caller, g: Gid, trip: ItineraryId, other: ItineraryId, created: ItineraryId,
                             token: Token)
    requires created != other && trip != other && created != trip
    ensures var w := Seeded(me, g, trip);
            var share := CreateShare((w.mock.nextItinerary, other), None, token);
            var w' := Step(Step(w, me, share), me, CreateItinerary(created));
            && !WellFormed(w, share) && WellFormed(Step(w, me, share), CreateItinerary(created))
            && CallMock(w'.mock, me, ViewShare((1, token))).1 == MockTrip(102)
            && CallService(w', me, ViewShare((1, token))).2 == Failed(404)
  {
    var w := Seeded(me, g, trip);
    var share := CreateShare((102, other), None, token);
    ShareAlone(w.t, me.user, Some(me.email), other, None, token);
    var w1 := Step(w, me, share);
    assert w1.t.shares == map[token := Share(other, None, me.user)] && w1.mock.shares == map[1 := 102];
    assert w1.trips == {(101, trip), (102, other)};
    assert (101, trip) in w1.trips && (102, other) in w1.trips;
  }

  lemma InitialRelated(me: Caller, g: Gid, trip: ItineraryId)
    ensures Related(Seeded(me, g, trip), me)
  {
    assert GroupsPair(Seeded(me, g, trip), me, (1, g));
  }
}
