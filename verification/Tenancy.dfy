/**
 * The in-memory tenancy repository: organizations created once per idempotency key, and at most one
 * client organization per user's ACTIVE memberships, each enforced through an index.
 */
module Tenancy {
  import opened Options
  import opened Roles

  datatype MembershipStatus = Active | Suspended | Removed

  datatype Organization = Organization(
    id: string, kind: OrganizationType, displayName: string, idempotencyKey: string, createdByUserId: string)

  datatype Membership = Membership(
    id: string, userId: string, organizationId: string, role: Role, status: MembershipStatus)

  /** The four Maps of the repository. */
  datatype Repo = Repo(
    organizations: map<string, Organization>, organizationIdByKey: map<string, string>,
    memberships: map<string, Membership>, activeClientMembershipByUser: map<string, string>)

  datatype Created = Made(organization: Organization) | InternalError
  datatype Joined = Member(membership: Membership) | OrganizationNotFound | MembershipConflict(existing: string, attempted: string)

  function Stored<T>(m: map<string, T>, id: string): Option<T> {
    if id in m then Some(m[id]) else None
  }

  function OrganizationStored(r: Repo, o: Organization): (Repo, Created) {
    var existingId := Stored(r.organizationIdByKey, o.idempotencyKey);
    if existingId.Some? then
      var existing := Stored(r.organizations, existingId.value);
      if existing.None? then (r, InternalError) else (r, Made(existing.value))
    else
      (r.(organizations := r.organizations[o.id := o],
          organizationIdByKey := r.organizationIdByKey[o.idempotencyKey := o.id]), Made(o))
  }

  /** The index lookup createMembership refuses on. */
  function IndexedConflict(r: Repo, m: Membership): Option<string> {
    var indexed := Stored(r.activeClientMembershipByUser, m.userId);
    var existing := if indexed.Some? then Stored(r.memberships, indexed.value) else None;
    if existing.Some? && existing.value.organizationId != m.organizationId then Some(existing.value.organizationId) else None
  }

  function MembershipStored(r: Repo, m: Membership): (Repo, Joined) {
    var organization := Stored(r.organizations, m.organizationId);
    if organization.None? then (r, OrganizationNotFound)
    else
      var limited := m.status.Active? && organization.value.kind.Client?;
      var conflict := IndexedConflict(r, m);
      if limited && conflict.Some? then (r, MembershipConflict(conflict.value, m.organizationId))
      else
        (r.(memberships := r.memberships[m.id := m],
            activeClientMembershipByUser :=
              if limited then r.activeClientMembershipByUser[m.userId := m.id] else r.activeClientMembershipByUser),
         Member(m))
  }

  class InMemoryTenancyRepository {
    var organizationsById: map<string, Organization>
    var organizationIdByIdempotencyKey: map<string, string>
    var membershipsById: map<string, Membership>
    var activeClientMembershipByUser: map<string, string>

    constructor ()
      ensures State() == Repo(map[], map[], map[], map[])
    {
      organizationsById, organizationIdByIdempotencyKey := map[], map[];
      membershipsById, activeClientMembershipByUser := map[], map[];
    }

    function State(): Repo
      reads this
    {
      Repo(organizationsById, organizationIdByIdempotencyKey, membershipsById, activeClientMembershipByUser)
    }

    /** createOrganization; o is the record the call would store. */
    method CreateOrganization(o: Organization) returns (result: Created)
      modifies this
      ensures (State(), result) == OrganizationStored(old(State()), o)
    {
      if o.idempotencyKey in organizationIdByIdempotencyKey {
        var existingId := organizationIdByIdempotencyKey[o.idempotencyKey];
        if existingId !in organizationsById { return InternalError; }
        return Made(organizationsById[existingId]);
      }
      organizationsById := organizationsById[o.id := o];
      organizationIdByIdempotencyKey := organizationIdByIdempotencyKey[o.idempotencyKey := o.id];
      result := Made(o);
    }

    /** createMembership; m is the record the call would store. */
    method CreateMembership(m: Membership) returns (result: Joined)
      modifies this
      ensures (State(), result) == MembershipStored(old(State()), m)
    {
      if m.organizationId !in organizationsById { return OrganizationNotFound; }
      var organization := organizationsById[m.organizationId];
      if m.status.Active? && organization.kind.Client? {
        if m.userId in activeClientMembershipByUser {
          var existingId := activeClientMembershipByUser[m.userId];
          if existingId in membershipsById && membershipsById[existingId].organizationId != m.organizationId {
            return MembershipConflict(membershipsById[existingId].organizationId, m.organizationId);
          }
        }
      }
      membershipsById := membershipsById[m.id := m];
      if m.status.Active? && organization.kind.Client? {
        activeClientMembershipByUser := activeClientMembershipByUser[m.userId := m.id];
      }
      result := Member(m);
    }
  }

  // ------------------------------------------------------------------ what one request leaves

  /** The map holds v under the id and everything else as before. */
  ghost predicate Put<T(!new)>(after: map<string, T>, before: map<string, T>, id: string, v: T) {
    && id in after && after[id] == v
    && forall other :: other != id ==> (other in after <==> other in before) && (other in before ==> after[other] == before[other])
  }

  /**
   * A request under a new key stores its own organization, under its id and its key, and returns it.
   * One under a known key stores nothing and returns the organization indexed there, or the internal
   * error when the index leads nowhere.
   */
  lemma OrganizationOutcome(r: Repo, o: Organization)
    ensures var (after, result) := OrganizationStored(r, o);
            && after.memberships == r.memberships && after.activeClientMembershipByUser == r.activeClientMembershipByUser
            && (o.idempotencyKey !in r.organizationIdByKey ==>
                  && result == Made(o) && Put(after.organizations, r.organizations, o.id, o)
                  && Put(after.organizationIdByKey, r.organizationIdByKey, o.idempotencyKey, o.id))
            && (o.idempotencyKey in r.organizationIdByKey ==>
                  && after == r
                  && var id := r.organizationIdByKey[o.idempotencyKey];
                     result == if id in r.organizations then Made(r.organizations[id]) else InternalError)
  {
  }

  /** The user's indexed membership is in another organization than this one. */
  predicate IndexedElsewhere(r: Repo, m: Membership) {
    && m.userId in r.activeClientMembershipByUser && r.activeClientMembershipByUser[m.userId] in r.memberships
    && r.memberships[r.activeClientMembershipByUser[m.userId]].organizationId != m.organizationId
  }

  predicate ActiveInClient(r: Repo, m: Membership) {
    m.status == Active && m.organizationId in r.organizations && r.organizations[m.organizationId].kind == Client
  }

  /**
   * A membership of an unknown organization is not found, an active one in a client while the user's
   * indexed one is elsewhere conflicts, naming both organizations, and neither stores anything. Any
   * other is stored as given, and only an active one in a client is indexed for its user.
   */
  lemma MembershipOutcome(r: Repo, m: Membership)
    ensures var (after, result) := MembershipStored(r, m);
            && after.organizations == r.organizations && after.organizationIdByKey == r.organizationIdByKey
            && (result.OrganizationNotFound? <==> m.organizationId !in r.organizations)
            && (result.MembershipConflict? <==> ActiveInClient(r, m) && IndexedElsewhere(r, m))
            && (!result.Member? ==> after == r)
            && (result.MembershipConflict? ==>
                  && result.attempted == m.organizationId
                  && result.existing == r.memberships[r.activeClientMembershipByUser[m.userId]].organizationId)
            && (result.Member? ==>
                  && result.membership == m && Put(after.memberships, r.memberships, m.id, m)
                  && if ActiveInClient(r, m) then Put(after.activeClientMembershipByUser, r.activeClientMembershipByUser, m.userId, m.id)
                     else after.activeClientMembershipByUser == r.activeClientMembershipByUser)
  {
  }

  // ------------------------------------------------------------------ what the indexes promise

  /** An ACTIVE membership of the user in a CLIENT organization. */
  ghost predicate ActiveClient(r: Repo, id: string, userId: string) {
    && id in r.memberships && r.memberships[id].userId == userId && r.memberships[id].status.Active?
    && r.memberships[id].organizationId in r.organizations
    && r.organizations[r.memberships[id].organizationId].kind.Client?
  }

  /** The key index and the organizations are each other's inverse. */
  ghost predicate KeysAreBijective(r: Repo) {
    && (forall key <- r.organizationIdByKey ::
          && r.organizationIdByKey[key] in r.organizations
          && r.organizations[r.organizationIdByKey[key]].idempotencyKey == key)
    && (forall id <- r.organizations ::
          && r.organizations[id].id == id
          && r.organizations[id].idempotencyKey in r.organizationIdByKey
          && r.organizationIdByKey[r.organizations[id].idempotencyKey] == id)
  }

  /** Each user's ACTIVE client memberships are in one organization, and the index knows one of them. */
  ghost predicate OneClientPerUser(r: Repo) {
    && (forall id <- r.memberships :: r.memberships[id].organizationId in r.organizations)
    && (forall userId <- r.activeClientMembershipByUser :: ActiveClient(r, r.activeClientMembershipByUser[userId], userId))
    && (forall id, userId :: ActiveClient(r, id, userId) ==>
          && userId in r.activeClientMembershipByUser
          && r.memberships[r.activeClientMembershipByUser[userId]].organizationId == r.memberships[id].organizationId)
  }

  ghost predicate Sound(r: Repo) {
    KeysAreBijective(r) && OneClientPerUser(r)
  }

  datatype Step = NewOrganization(organization: Organization) | NewMembership(membership: Membership)

  function Apply(r: Repo, step: Step): Repo {
    match step
    case NewOrganization(o) => OrganizationStored(r, o).0
    case NewMembership(m) => MembershipStored(r, m).0
  }

  /** Ids are random UUIDs. */
  predicate FreshId(r: Repo, step: Step) {
    match step
    case NewOrganization(o) => o.id !in r.organizations
    case NewMembership(m) => m.id !in r.memberships
  }

  lemma OrganizationKeepsSound(r: Repo, o: Organization)
    requires Sound(r) && o.id !in r.organizations
    ensures Sound(OrganizationStored(r, o).0)
  {
    var after := OrganizationStored(r, o).0;
    forall id, userId | ActiveClient(after, id, userId) ensures ActiveClient(r, id, userId) {}
    forall id, userId | ActiveClient(r, id, userId) ensures ActiveClient(after, id, userId) {}
  }

  lemma MembershipKeepsSound(r: Repo, m: Membership)
    requires Sound(r) && m.id !in r.memberships
    ensures Sound(MembershipStored(r, m).0)
  {
    var after := MembershipStored(r, m).0;
    if after != r {
      forall id, userId | id != m.id ensures ActiveClient(after, id, userId) <==> ActiveClient(r, id, userId) {}
      forall id, userId | ActiveClient(after, id, userId)
        ensures userId in after.activeClientMembershipByUser
        ensures after.memberships[after.activeClientMembershipByUser[userId]].organizationId == after.memberships[id].organizationId
      {
        if id != m.id { assert ActiveClient(r, id, userId); }
      }
      forall userId | userId in after.activeClientMembershipByUser
        ensures ActiveClient(after, after.activeClientMembershipByUser[userId], userId)
      {
        if userId in r.activeClientMembershipByUser {
          assert ActiveClient(r, r.activeClientMembershipByUser[userId], userId);
        }
      }
    }
  }

  function After(r: Repo, steps: seq<Step>): Repo {
    if steps == [] then r else Apply(After(r, steps[..|steps| - 1]), steps[|steps| - 1])
  }

  ghost predicate FreshRun(r: Repo, steps: seq<Step>) {
    forall i :: 0 <= i < |steps| ==> FreshId(After(r, steps[..i]), steps[i])
  }

  lemma FreshPrefix(r: Repo, steps: seq<Step>)
    requires steps != [] && FreshRun(r, steps)
    ensures FreshRun(r, steps[..|steps| - 1])
  {
    var front := steps[..|steps| - 1];
    forall i | 0 <= i < |front| ensures front[..i] == steps[..i] && front[i] == steps[i] {}
  }

  /** The index invariants hold after every run with fresh ids. */
  lemma {:induction false} RunKeepsSound(r: Repo, steps: seq<Step>)
    requires Sound(r) && FreshRun(r, steps)
    ensures Sound(After(r, steps))
  {
    if steps != [] {
      var before := After(r, steps[..|steps| - 1]);
      FreshPrefix(r, steps);
      RunKeepsSound(r, steps[..|steps| - 1]);
      match steps[|steps| - 1]
      case NewOrganization(o) => OrganizationKeepsSound(before, o);
      case NewMembership(m) => MembershipKeepsSound(before, m);
    }
  }

  lemma {:induction false} OrganizationStays(r: Repo, steps: seq<Step>, o: Organization)
    requires Sound(r) && FreshRun(r, steps) && o.id in r.organizations && r.organizations[o.id] == o
    ensures o.id in After(r, steps).organizations && After(r, steps).organizations[o.id] == o
  {
    if steps != [] {
      FreshPrefix(r, steps);
      OrganizationStays(r, steps[..|steps| - 1], o);
    }
  }

  /**
   * Idempotent creation over runs: from the empty repository, whatever happened since the first
   * request under a key, every later one returns that first organization, stores nothing, and never
   * meets the repository's internal error.
   */
  lemma SameKeySameOrganization(steps: seq<Step>, first: Organization, more: seq<Step>, again: Organization)
    requires FreshRun(Repo(map[], map[], map[], map[]), steps)
    requires var r := After(Repo(map[], map[], map[], map[]), steps);
             first.id !in r.organizations && FreshRun(OrganizationStored(r, first).0, more)
    requires again.idempotencyKey == first.idempotencyKey
    ensures var r := After(Repo(map[], map[], map[], map[]), steps);
            var (made, result) := OrganizationStored(r, first);
            var later := After(made, more);
            && result.Made? && result.organization.idempotencyKey == first.idempotencyKey
            && OrganizationStored(later, again) == (later, result)
  {
    var empty := Repo(map[], map[], map[], map[]);
    RunKeepsSound(empty, steps);
    var r := After(empty, steps);
    var (made, result) := OrganizationStored(r, first);
    OrganizationKeepsSound(r, first);
    OrganizationStays(made, more, result.organization);
    RunKeepsSound(made, more);
  }

  /** What a full scan of the memberships would refuse on. */
  ghost predicate ScanConflict(r: Repo, m: Membership) {
    && m.status.Active? && m.organizationId in r.organizations && r.organizations[m.organizationId].kind.Client?
    && exists id :: ActiveClient(r, id, m.userId) && r.memberships[id].organizationId != m.organizationId
  }

  /** createMembership conflicts exactly when the scan would, and names the organization the scan finds. */
  lemma ConflictIffScan(r: Repo, m: Membership)
    requires Sound(r)
    ensures MembershipStored(r, m).1.MembershipConflict? <==> ScanConflict(r, m)
    ensures MembershipStored(r, m).1.MembershipConflict? ==>
              forall id :: ActiveClient(r, id, m.userId) ==>
                r.memberships[id].organizationId == MembershipStored(r, m).1.existing
  {
    if MembershipStored(r, m).1.MembershipConflict? {
      assert ActiveClient(r, r.activeClientMembershipByUser[m.userId], m.userId);
    }
    if ScanConflict(r, m) {
      var id :| ActiveClient(r, id, m.userId) && r.memberships[id].organizationId != m.organizationId;
      assert r.memberships[r.activeClientMembershipByUser[m.userId]].organizationId == r.memberships[id].organizationId;
    }
  }

  /** In every reachable state all of a user's ACTIVE client memberships share one organization. */
  lemma OneClientOrganizationPerUser(steps: seq<Step>, a: string, b: string, userId: string)
    requires FreshRun(Repo(map[], map[], map[], map[]), steps)
    requires var r := After(Repo(map[], map[], map[], map[]), steps); ActiveClient(r, a, userId) && ActiveClient(r, b, userId)
    ensures var r := After(Repo(map[], map[], map[], map[]), steps);
            r.memberships[a].organizationId == r.memberships[b].organizationId
  {
    RunKeepsSound(Repo(map[], map[], map[], map[]), steps);
  }

  // ------------------------------------------------------------------ one membership, or one organization?

  /**
   * The index entry is documented as a user's single ACTIVE client membership. A second one is
   * stored exactly when it is in the same organization, and the index then names the second.
   */
  lemma SecondMembershipStoredIff(r: Repo, m: Membership, id: string)
    requires Sound(r) && m.id !in r.memberships && ActiveClient(r, id, m.userId)
    requires m.status.Active? && m.organizationId in r.organizations && r.organizations[m.organizationId].kind.Client?
    ensures var (after, result) := MembershipStored(r, m);
            && (result.Member? <==> m.organizationId == r.memberships[id].organizationId)
            && (result.Member? ==> ActiveClient(after, id, m.userId) && ActiveClient(after, m.id, m.userId) && m.id != id
                                   && after.activeClientMembershipByUser[m.userId] == m.id)
  {
    assert r.memberships[r.activeClientMembershipByUser[m.userId]].organizationId == r.memberships[id].organizationId;
  }

  /** Concretely: two ACTIVE memberships of one user in one client organization. */
  lemma TwoActiveMemberships(userId: string)
    ensures var o := Organization("org", Client, "Org", "k", userId);
            var first, second := Membership("m1", userId, "org", ClientOwner, Active), Membership("m2", userId, "org", ClientOwner, Active);
            var r := After(Repo(map[], map[], map[], map[]), [NewOrganization(o), NewMembership(first), NewMembership(second)]);
            ActiveClient(r, "m1", userId) && ActiveClient(r, "m2", userId)
  {
    var o := Organization("org", Client, "Org", "k", userId);
    var first, second := Membership("m1", userId, "org", ClientOwner, Active), Membership("m2", userId, "org", ClientOwner, Active);
    var empty := Repo(map[], map[], map[], map[]);
    var none: seq<Step> := [];
    var one, two, three := [NewOrganization(o)], [NewOrganization(o), NewMembership(first)],
                           [NewOrganization(o), NewMembership(first), NewMembership(second)];
    assert one[..0] == none && two[..1] == one && three[..2] == two;
    assert "m1"[1] != "m2"[1];
    assert After(empty, one) == OrganizationStored(empty, o).0;
    assert ActiveClient(After(empty, two), "m1", userId);
  }
}
