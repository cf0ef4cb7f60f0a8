/**
 * Which client organizations a session reaches: the tenancy rule, the two session-to-context
 * mappings, the route pre-flight, and the project list and single-project reads built on them.
 */
module Authorization {
  import opened Options
  import opened Roles
  import opened SessionSigning
  import opened Sessions

  datatype AuthorizationContext = AuthorizationContext(
    actorUserId: string, actorRole: Role, organizationId: string,
    activeClientOrganizationId: Option<string>, allowedClientOrganizationIds: seq<string>, isPlatformAdmin: bool)

  predicate CanAccessClientOrganization(ctx: AuthorizationContext, target: string) {
    ctx.isPlatformAdmin ||
    match ctx.actorRole
    case PlatformSuperAdmin => true
    case ClientOwner => ctx.activeClientOrganizationId == Some(target)
    case AgencyOwner => target in ctx.allowedClientOrganizationIds
    case AgencyOperator => target in ctx.allowedClientOrganizationIds
  }

  function ClientOrgOf(session: Principal): Option<string> {
    if session.organizationType.Client? && session.activeClientOrganizationId.None? then Some(session.organizationId)
    else session.activeClientOrganizationId
  }

  /** The mapping the GEO commands use. */
  function BuildGeoAuthorizationContext(session: Principal): AuthorizationContext {
    AuthorizationContext(session.userId, session.role, session.organizationId, ClientOrgOf(session),
                         session.assignedClientOrganizationIds, session.role.PlatformSuperAdmin?)
  }

  /** The mapping the auth service uses. */
  function ContextFromSession(session: Principal): AuthorizationContext {
    AuthorizationContext(session.userId, session.role, session.organizationId,
                         if session.role.ClientOwner? then session.activeClientOrganizationId else None,
                         session.assignedClientOrganizationIds, session.role.PlatformSuperAdmin?)
  }

  /** The pre-flight check of the write routes. */
  predicate SessionCanAccessClientOrganization(session: Principal, target: string) {
    if session.role.PlatformSuperAdmin? then true
    else if session.organizationType.Client? then ClientOrgOf(session) == Some(target)
    else if IsAgencyRole(session.role) then target in session.assignedClientOrganizationIds
    else false
  }

  /** Both mappings carry the session's identity, its assigned clients and whether its role is the platform's. */
  lemma ContextsCarryTheSession(s: Principal)
    ensures forall ctx <- [BuildGeoAuthorizationContext(s), ContextFromSession(s)] ::
              && ctx.actorUserId == s.userId && ctx.actorRole == s.role && ctx.organizationId == s.organizationId
              && ctx.allowedClientOrganizationIds == s.assignedClientOrganizationIds
              && (ctx.isPlatformAdmin <==> s.role == PlatformSuperAdmin)
    ensures BuildGeoAuthorizationContext(s).activeClientOrganizationId ==
            if s.activeClientOrganizationId.Some? then s.activeClientOrganizationId
            else if s.organizationType == Client then Some(s.organizationId) else None
    ensures ContextFromSession(s).activeClientOrganizationId ==
            if s.role == ClientOwner then s.activeClientOrganizationId else None
  {
  }

  // ------------------------------------------------------------------ the three forms agree

  ghost predicate AgreeOn(session: Principal, target: string) {
    && SessionCanAccessClientOrganization(session, target)
       == CanAccessClientOrganization(BuildGeoAuthorizationContext(session), target)
    && SessionCanAccessClientOrganization(session, target)
       == CanAccessClientOrganization(ContextFromSession(session), target)
  }

  /** A client owner has a pinned client exactly in a CLIENT organization; an agency member is not in one. */
  predicate Coherent(session: Principal) {
    && (session.role.ClientOwner? ==> (session.organizationType.Client? <==> session.activeClientOrganizationId.Some?))
    && (IsAgencyRole(session.role) && session.organizationType.Client? ==>
          && ClientOrgOf(session).value in session.assignedClientOrganizationIds
          && forall a <- session.assignedClientOrganizationIds :: a == ClientOrgOf(session).value)
  }

  /** The three forms decide every client id alike exactly on coherent sessions. */
  lemma FormsAgreeIffCoherent(session: Principal)
    ensures (forall target: string :: AgreeOn(session, target)) <==> Coherent(session)
  {
    if !session.role.PlatformSuperAdmin? && !Coherent(session) {
      var own := ClientOrgOf(session);
      if session.role.ClientOwner? || own.value in session.assignedClientOrganizationIds {
        var wrong := if session.role.ClientOwner? then own.value
                     else var a :| a in session.assignedClientOrganizationIds && a != own.value; a;
        assert !AgreeOn(session, wrong);
      } else {
        assert !AgreeOn(session, own.value);
      }
    }
  }

  // ------------------------------------------------------------------ resolved sessions

  /** Who may reach a client, read off the tables alone for a member of an organization in a role. */
  predicate MayReach(env: Env, role: Role, organizationId: string, target: string) {
    || role.PlatformSuperAdmin?
    || (role.ClientOwner? && target == organizationId)
    || (&& (role.AgencyOwner? || role.AgencyOperator?) && organizationId in env.activeAssignments
        && target in env.activeAssignments[organizationId] && target in env.organizations)
  }

  /** The membership the login at this step of the run used. */
  ghost predicate LoggedInWith(w: World, steps: seq<Step>, i: nat, m: Membership) {
    && i < |steps| && steps[i].Login?
    && FirstMembership(After(w, steps[..i]).env.activeMemberships, steps[i].input.userId) == Some(m)
  }

  /** The session is the one that login opened: its id, the membership's user, role and organization, a client owner's own client. */
  predicate IsSessionOf(env: Env, s: Principal, sessionId: int, m: Membership) {
    && s.sessionId == sessionId && s.userId == m.userId && s.role == m.role && s.organizationId == m.organizationId
    && m.organizationId in env.organizations && s.organizationType == env.organizations[m.organizationId]
    && s.activeClientOrganizationId == (if m.role.ClientOwner? then Some(m.organizationId) else None)
    && s.actingClientOrganizationId.None?
    && s.assignedClientOrganizationIds == AssignedClients(env, m.role, m.organizationId)
  }

  /** After any run of logins and logouts, whatever resolves is the session of one of the run's logins. */
  lemma ResolvedIsALoginsSession(w: World, steps: seq<Step>, cookie: CookieText)
    requires w.rows == [] && Resolve(After(w, steps).env, After(w, steps).rows, cookie).Some?
    ensures var later := After(w, steps);
            exists i: nat, m :: LoggedInWith(w, steps, i, m)
                           && IsSessionOf(later.env, Resolve(later.env, later.rows, cookie).value, steps[i].input.newId, m)
  {
    var later := After(w, steps);
    var s := Resolve(later.env, later.rows, cookie).value;
    ResolvedIff(later.env, later.rows, cookie, s);
    var payload := PayloadIn(Verify(cookie, later.env.now, VerificationKeys(later.env.currentKey, later.env.previousKey)).value.payload).value;
    var r := Newest(later.rows, payload.actorUserId, payload.organizationId).value;
    assert StandsFor(later.env, r, s);
    RowsComeFromLogins(w, steps, r);
    var i :| 0 <= i < |steps| && CameFrom(w, steps, r, i);
    var before := After(w, steps[..i]);
    LoginRowIs(before.env, steps[i].input);
    var m := FirstMembership(before.env.activeMemberships, steps[i].input.userId).value;
    FirstMembershipIsUsers(before.env.activeMemberships, steps[i].input.userId);
    assert LoggedInWith(w, steps, i, m) && IsSessionOf(later.env, s, steps[i].input.newId, m);
  }

  /** Of the session a membership's login opened, the auth service's own mapping reaches exactly what the tables grant the member. */
  lemma AuthMappingReachesWhatTablesGrant(env: Env, s: Principal, sessionId: int, m: Membership, target: string)
    requires IsSessionOf(env, s, sessionId, m)
    ensures CanAccessClientOrganization(ContextFromSession(s), target) == MayReach(env, m.role, m.organizationId, target)
  {
    AssignedClientsAre(env, m.role, m.organizationId, target);
  }

  ghost predicate FormsReachWhatTablesGrant(env: Env, s: Principal, m: Membership, target: string) {
    var granted := MayReach(env, m.role, m.organizationId, target);
    && SessionCanAccessClientOrganization(s, target) == granted
    && CanAccessClientOrganization(BuildGeoAuthorizationContext(s), target) == granted
    && CanAccessClientOrganization(ContextFromSession(s), target) == granted
  }

  ghost predicate ReachesWhatTablesGrant(env: Env, s: Principal, m: Membership) {
    forall target :: FormsReachWhatTablesGrant(env, s, m, target)
  }

  /** Of the session a membership's login opened, the three forms reach exactly what the tables grant the member iff it is coherent. */
  lemma ReachesIffCoherent(env: Env, s: Principal, sessionId: int, m: Membership)
    requires IsSessionOf(env, s, sessionId, m)
    ensures ReachesWhatTablesGrant(env, s, m) <==> Coherent(s)
  {
    FormsAgreeIffCoherent(s);
    forall target ensures FormsReachWhatTablesGrant(env, s, m, target) <==> AgreeOn(s, target) {
      AuthMappingReachesWhatTablesGrant(env, s, sessionId, m, target);
    }
  }

  /**
   * After any run of logins and logouts, a resolved session is that of a login of the run, and
   * reaches by each of the three forms exactly the clients the tables grant the role and organization
   * of the membership it logged in with, for every target, if and only if the session is coherent.
   */
  lemma ResolvedSessionsReachWhatTablesGrantIff(w: World, steps: seq<Step>, cookie: CookieText)
    requires w.rows == [] && Resolve(After(w, steps).env, After(w, steps).rows, cookie).Some?
    ensures var later := After(w, steps);
            var s := Resolve(later.env, later.rows, cookie).value;
            exists i: nat, m :: LoggedInWith(w, steps, i, m)
                                && IsSessionOf(later.env, s, steps[i].input.newId, m)
                                && (ReachesWhatTablesGrant(later.env, s, m) <==> Coherent(s))
  {
    var later := After(w, steps);
    var s := Resolve(later.env, later.rows, cookie).value;
    ResolvedIsALoginsSession(w, steps, cookie);
    var i: nat, m :| LoggedInWith(w, steps, i, m) && IsSessionOf(later.env, s, steps[i].input.newId, m);
    ReachesIffCoherent(later.env, s, steps[i].input.newId, m);
  }

  /**
   * Concretely: a client owner whose membership is in an agency. Login succeeds, the session resolves,
   * the pre-flight refuses the session's own client and both mappings allow it.
   */
  lemma ClientOwnerOfAnAgency(key: string, userId: string, agency: string, now: int)
    ensures var m := Membership("m", userId, agency, ClientOwner);
            var env := Env(now, key, None, [m], map[agency := Agency], map[]);
            var login := LoginOf(env, LoginInput(userId, 0, 1, 7));
            && login.LoggedIn?
            && var after := Apply(World(env, []), Login(LoginInput(userId, 0, 1, 7)));
               var s := Resolve(env, after.rows, login.cookie);
               && s.Some? && !Coherent(s.value)
               && !SessionCanAccessClientOrganization(s.value, agency)
               && CanAccessClientOrganization(BuildGeoAuthorizationContext(s.value), agency)
               && CanAccessClientOrganization(ContextFromSession(s.value), agency)
  {
    var m := Membership("m", userId, agency, ClientOwner);
    var env := Env(now, key, None, [m], map[agency := Agency], map[]);
    var input := LoginInput(userId, 0, 1, 7);
    assert LoginOf(env, input).LoggedIn?;
    LoginThenResolve(World(env, []), input, []);
  }

  // ------------------------------------------------------------------ projects

  datatype Project = Project(id: string, clientOrganizationId: string, name: string, createdAt: int)

  datatype ProjectView = ProjectView(
    id: string, name: string, clientOrganizationId: string, clientOrganizationName: string, createdAt: int)

  /** Organization names by id, the project rows by creation time, and the ACTIVE (agency, client) assignments. */
  datatype Directory = Directory(
    names: map<string, string>, projects: seq<Project>, assignments: set<(string, string)>)

  function FindById(projects: seq<Project>, id: string): Option<Project> {
    if projects == [] then None
    else if projects[0].id == id then Some(projects[0])
    else FindById(projects[1..], id)
  }

  function NameOf(d: Directory, organizationId: string): string {
    if organizationId in d.names then d.names[organizationId] else ""
  }

  function ViewOf(p: Project, name: string): ProjectView {
    ProjectView(p.id, p.name, p.clientOrganizationId, name, p.createdAt)
  }

  datatype ProjectResponse = Found(view: ProjectView) | NotFound | Forbidden | MissingOrganization

  function GetProject(d: Directory, session: Principal, projectId: string): ProjectResponse {
    var project := FindById(d.projects, projectId);
    if project.None? then NotFound
    else
      var target := project.value.clientOrganizationId;
      var actingBlocks := IsAgencyRole(session.role) && session.actingClientOrganizationId.Some?
                          && session.actingClientOrganizationId.value != target;
      if !CanAccessClientOrganization(ContextFromSession(session), target) || actingBlocks then Forbidden
      else if target !in d.names then MissingOrganization
      else Found(ViewOf(project.value, d.names[target]))
  }

  /** listForClient. */
  function ListForClient(projects: seq<Project>, clientOrganizationId: string): seq<Project> {
    if projects == [] then []
    else (if projects[0].clientOrganizationId == clientOrganizationId then [projects[0]] else [])
         + ListForClient(projects[1..], clientOrganizationId)
  }

  function ListedClients(session: Principal, named: Option<string>): seq<string> {
    match session.role
    case ClientOwner =>
      [if session.activeClientOrganizationId.Some? then session.activeClientOrganizationId.value else session.organizationId]
    case AgencyOwner => session.assignedClientOrganizationIds
    case AgencyOperator => session.assignedClientOrganizationIds
    case PlatformSuperAdmin => if named.Some? && named.value != "" then [named.value] else []
  }

  /** What the list route promises: the views of the listed clients' projects, client by client. */
  function Listing(d: Directory, clients: seq<string>): seq<ProjectView> {
    if clients == [] then []
    else
      var last := clients[|clients| - 1];
      var projects := ListForClient(d.projects, last);
      Listing(d, clients[..|clients| - 1])
      + seq(|projects|, i requires 0 <= i < |projects| => ViewOf(projects[i], NameOf(d, last)))
  }

  /** GET /api/projects. */
  method ListProjects(d: Directory, session: Principal, named: Option<string>) returns (views: seq<ProjectView>)
    ensures views == Listing(d, ListedClients(session, named))
  {
    var clients := ListedClients(session, named);
    var orgNameCache: map<string, string> := map[];
    views := [];
    for c := 0 to |clients|
      invariant views == Listing(d, clients[..c])
      invariant forall id <- orgNameCache :: orgNameCache[id] == NameOf(d, id)
    {
      var client := clients[c];
      if client !in orgNameCache {
        orgNameCache := orgNameCache[client := if client in d.names then d.names[client] else ""];
      }
      var projects := ListForClient(d.projects, client);
      ghost var before := views;
      for p := 0 to |projects|
        invariant views == before + seq(p, i requires 0 <= i < p => ViewOf(projects[i], NameOf(d, client)))
      {
        views := views + [ViewOf(projects[p], orgNameCache[client])];
      }
      assert clients[..c + 1][..c] == clients[..c];
    }
    assert clients[..|clients|] == clients;
  }

  /** Project ids are the table's primary key. */
  ghost predicate DistinctIds(projects: seq<Project>) {
    forall i, j :: 0 <= i < j < |projects| ==> projects[i].id != projects[j].id
  }

  lemma {:induction false} FindsTheProject(projects: seq<Project>, p: Project)
    requires DistinctIds(projects)
    ensures FindById(projects, p.id) == Some(p) <==> p in projects
  {
    if projects != [] {
      assert DistinctIds(projects[1..]);
      FindsTheProject(projects[1..], p);
    }
  }

  lemma {:induction false} ListForClientIff(projects: seq<Project>, clientOrganizationId: string, p: Project)
    ensures p in ListForClient(projects, clientOrganizationId) <==>
            p in projects && p.clientOrganizationId == clientOrganizationId
  {
    if projects != [] { ListForClientIff(projects[1..], clientOrganizationId, p); }
  }

  lemma {:induction false} ListingIff(d: Directory, clients: seq<string>, view: ProjectView)
    ensures view in Listing(d, clients) <==>
            exists p <- d.projects :: p.clientOrganizationId in clients && view == ViewOf(p, NameOf(d, p.clientOrganizationId))
  {
    if clients != [] {
      var front, last := clients[..|clients| - 1], clients[|clients| - 1];
      ListingIff(d, front, view);
      var projects := ListForClient(d.projects, last);
      forall p ensures p in projects <==> p in d.projects && p.clientOrganizationId == last {
        ListForClientIff(d.projects, last, p);
      }
      var views := seq(|projects|, i requires 0 <= i < |projects| => ViewOf(projects[i], NameOf(d, last)));
      if view in views {
        var i :| 0 <= i < |views| && views[i] == view;
        assert projects[i] in d.projects;
      }
      forall p | p in d.projects && p.clientOrganizationId == last && view == ViewOf(p, NameOf(d, last)) ensures view in views {
        var i :| 0 <= i < |projects| && projects[i] == p;
        assert views[i] == view;
      }
      assert forall c :: c in clients <==> c in front || c == last;
    }
  }

  /** The view of a project: its own id, name, client and creation time, and the client's name. */
  predicate Shows(view: ProjectView, p: Project, clientName: string) {
    && view.id == p.id && view.name == p.name && view.createdAt == p.createdAt
    && view.clientOrganizationId == p.clientOrganizationId && view.clientOrganizationName == clientName
  }

  /** Who reads a client's projects: the platform, the client's own owner, an assigned agency not acting for another client. */
  predicate MayRead(s: Principal, client: string) {
    || s.role.PlatformSuperAdmin?
    || (s.role.ClientOwner? && s.activeClientOrganizationId == Some(client))
    || (&& (s.role.AgencyOwner? || s.role.AgencyOperator?) && client in s.assignedClientOrganizationIds
        && (s.actingClientOrganizationId.None? || s.actingClientOrganizationId == Some(client)))
  }

  /** The single read's answer for a project in the table: refused, without its organization, or the project's own view. */
  lemma GetProjectOutcome(d: Directory, s: Principal, p: Project)
    requires DistinctIds(d.projects) && p in d.projects
    ensures var response := GetProject(d, s, p.id);
            && !response.NotFound?
            && (response.Forbidden? <==> !MayRead(s, p.clientOrganizationId))
            && (response.MissingOrganization? <==> MayRead(s, p.clientOrganizationId) && p.clientOrganizationId !in d.names)
            && (response.Found? ==>
                  p.clientOrganizationId in d.names && Shows(response.view, p, d.names[p.clientOrganizationId]))
  {
    FindsTheProject(d.projects, p);
  }

  /** Any other id is answered as not found. */
  lemma NotFoundIff(d: Directory, s: Principal, projectId: string)
    requires DistinctIds(d.projects)
    ensures GetProject(d, s, projectId).NotFound? <==> forall p <- d.projects :: p.id != projectId
  {
    FoundIsAProject(d.projects, projectId);
    forall p | p in d.projects ensures FindById(d.projects, p.id) == Some(p) {
      FindsTheProject(d.projects, p);
    }
  }

  /** The clients whose projects the list shows; a client it cannot name gets the empty name. */
  predicate Lists(s: Principal, named: Option<string>, client: string) {
    match s.role
    case PlatformSuperAdmin => named == Some(client) && client != ""
    case ClientOwner => client == if s.activeClientOrganizationId.Some? then s.activeClientOrganizationId.value else s.organizationId
    case AgencyOwner => client in s.assignedClientOrganizationIds
    case AgencyOperator => client in s.assignedClientOrganizationIds
  }

  /** The list shows exactly the listed clients' projects, each by its own view. */
  lemma ListShows(d: Directory, s: Principal, named: Option<string>, view: ProjectView)
    ensures view in Listing(d, ListedClients(s, named)) <==>
            exists p <- d.projects :: && Lists(s, named, p.clientOrganizationId)
                                      && Shows(view, p, if p.clientOrganizationId in d.names then d.names[p.clientOrganizationId] else "")
  {
    ListingIff(d, ListedClients(s, named), view);
    assert forall p: Project, name: string :: Shows(view, p, name) <==> view == ViewOf(p, name);
    assert forall client: string :: Lists(s, named, client) <==> client in ListedClients(s, named);
  }

  /** The first view's project comes before the second's: its client is listed before, or is the same and its row is. */
  predicate ListedBeforeAt(d: Directory, clients: seq<string>, first: ProjectView, second: ProjectView, c: int, e: int, a: int, b: int) {
    && 0 <= c <= e < |clients| && 0 <= a < |d.projects| && 0 <= b < |d.projects| && (c == e ==> a < b)
    && d.projects[a].id == first.id && d.projects[a].clientOrganizationId == clients[c] == first.clientOrganizationId
    && d.projects[b].id == second.id && d.projects[b].clientOrganizationId == clients[e] == second.clientOrganizationId
  }

  ghost predicate ListedBefore(d: Directory, clients: seq<string>, first: ProjectView, second: ProjectView) {
    exists c, e, a, b :: ListedBeforeAt(d, clients, first, second, c, e, a, b)
  }

  lemma {:induction false} ListForClientOrder(projects: seq<Project>, client: string, i: nat, j: nat)
    requires i < j < |ListForClient(projects, client)|
    ensures var list := ListForClient(projects, client);
            exists a, b :: 0 <= a < b < |projects| && projects[a] == list[i] && projects[b] == list[j]
  {
    var rest := projects[1..];
    if projects[0].clientOrganizationId == client {
      if i > 0 {
        ListForClientOrder(rest, client, i - 1, j - 1);
        var a, b :| 0 <= a < b < |rest| && rest[a] == ListForClient(rest, client)[i - 1] && rest[b] == ListForClient(rest, client)[j - 1];
        assert projects[a + 1] == rest[a] && projects[b + 1] == rest[b];
      } else {
        var last := ListForClient(rest, client)[j - 1];
        ListForClientIff(rest, client, last);
        var b :| 0 <= b < |rest| && rest[b] == last;
        assert projects[b + 1] == rest[b];
      }
    } else {
      ListForClientOrder(rest, client, i, j);
      var a, b :| 0 <= a < b < |rest| && rest[a] == ListForClient(rest, client)[i] && rest[b] == ListForClient(rest, client)[j];
      assert projects[a + 1] == rest[a] && projects[b + 1] == rest[b];
    }
  }

  /** A listed view, its client's place in the list and its project's in the table. */
  lemma ListedAt(d: Directory, clients: seq<string>, view: ProjectView) returns (c: nat, a: nat)
    requires view in Listing(d, clients)
    ensures c < |clients| && a < |d.projects| && d.projects[a].clientOrganizationId == clients[c]
    ensures view == ViewOf(d.projects[a], NameOf(d, clients[c]))
  {
    ListingIff(d, clients, view);
    var p :| p in d.projects && p.clientOrganizationId in clients && view == ViewOf(p, NameOf(d, p.clientOrganizationId));
    a :| 0 <= a < |d.projects| && d.projects[a] == p;
    c :| 0 <= c < |clients| && clients[c] == p.clientOrganizationId;
  }

  /** The list goes client by client, and within one client in the order of the project rows. */
  lemma {:induction false} ListingOrder(d: Directory, clients: seq<string>, i: nat, j: nat)
    requires i < j < |Listing(d, clients)|
    ensures ListedBefore(d, clients, Listing(d, clients)[i], Listing(d, clients)[j])
  {
    var n := |clients| - 1;
    var front, last := clients[..n], clients[n];
    var projects := ListForClient(d.projects, last);
    var before := |Listing(d, front)|;
    var v, w := Listing(d, clients)[i], Listing(d, clients)[j];
    if j < before {
      ListingOrder(d, front, i, j);
      var c, e, a, b :| ListedBeforeAt(d, front, v, w, c, e, a, b);
      assert ListedBeforeAt(d, clients, v, w, c, e, a, b);
    } else if i < before {
      assert v == Listing(d, front)[i];
      var c, a := ListedAt(d, front, v);
      ListForClientIff(d.projects, last, projects[j - before]);
      var b :| 0 <= b < |d.projects| && d.projects[b] == projects[j - before];
      assert ListedBeforeAt(d, clients, v, w, c, n, a, b);
    } else {
      ListForClientOrder(d.projects, last, i - before, j - before);
      var a, b :| 0 <= a < b < |d.projects| && d.projects[a] == projects[i - before] && d.projects[b] == projects[j - before];
      ListForClientIff(d.projects, last, d.projects[a]);
      ListForClientIff(d.projects, last, d.projects[b]);
      assert ListedBeforeAt(d, clients, v, w, n, n, a, b);
    }
  }

  /**
   * The list shows exactly the projects the single read allows without an acting client, view for
   * view, for every principal other than the platform's, whose client (if it is a client owner) is set.
   */
  lemma ListIsWhatGetProjectAllows(d: Directory, session: Principal, named: Option<string>, view: ProjectView)
    requires DistinctIds(d.projects) && forall p <- d.projects :: p.clientOrganizationId in d.names
    requires !session.role.PlatformSuperAdmin? && session.actingClientOrganizationId.None?
    requires session.role.ClientOwner? ==> session.activeClientOrganizationId.Some?
    ensures view in Listing(d, ListedClients(session, named)) <==> GetProject(d, session, view.id) == Found(view)
  {
    var clients := ListedClients(session, named);
    ListingIff(d, clients, view);
    forall p | p in d.projects ensures FindById(d.projects, p.id) == Some(p) {
      FindsTheProject(d.projects, p);
    }
    forall p: Project | p in d.projects
      ensures CanAccessClientOrganization(ContextFromSession(session), p.clientOrganizationId) <==> p.clientOrganizationId in clients
    {}
    FoundIsAProject(d.projects, view.id);
  }

  lemma {:induction false} FoundIsAProject(projects: seq<Project>, id: string)
    ensures var p := FindById(projects, id); p.Some? ==> p.value in projects && p.value.id == id
  {
    if projects != [] && projects[0].id != id { FoundIsAProject(projects[1..], id); }
  }

  // ------------------------------------------------------------------ acting for one client

  datatype ContextResponse = Acting(agencyName: string, clientId: string, clientName: string)
                           | ContextForbidden | ClientNotFound | AgencyMissing

  /** setAgencyContext: the response and the session from then on. */
  function SetAgencyContext(d: Directory, session: Principal, client: string): (ContextResponse, Principal) {
    if !IsAgencyRole(session.role) then (ContextForbidden, session)
    else if (session.organizationId, client) !in d.assignments then (ContextForbidden, session)
    else if client !in d.names then (ClientNotFound, session)
    else if session.organizationId !in d.names then (AgencyMissing, session)
    else (Acting(d.names[session.organizationId], client, d.names[client]),
          session.(actingClientOrganizationId := Some(client)))
  }

  /** An agency member whose organization has an ACTIVE assignment to the client. */
  predicate AssignedTo(d: Directory, s: Principal, client: string) {
    (s.role == AgencyOwner || s.role == AgencyOperator) && (s.organizationId, client) in d.assignments
  }

  /** A selection is granted to an agency member exactly for an assigned client when both organizations are known. */
  lemma SelectionGrantedIff(d: Directory, s: Principal, client: string)
    ensures var (response, after) := SetAgencyContext(d, s, client);
            && (response.ContextForbidden? <==> !AssignedTo(d, s, client))
            && (response.ClientNotFound? <==> AssignedTo(d, s, client) && client !in d.names)
            && (response.AgencyMissing? <==> AssignedTo(d, s, client) && client in d.names && s.organizationId !in d.names)
            && (response.Acting? ==>
                  && s.organizationId in d.names && client in d.names && response.clientId == client
                  && response.agencyName == d.names[s.organizationId] && response.clientName == d.names[client]
                  && after == s.(actingClientOrganizationId := Some(client)))
            && (!response.Acting? ==> after == s)
  {
  }

  predicate Reads(d: Directory, session: Principal, projectId: string) {
    GetProject(d, session, projectId).Found?
  }

  /**
   * Selecting a client narrows and never widens: afterwards the readable projects are those readable
   * without an acting client that belong to the selected one; a refused selection changes nothing.
   */
  lemma ActingNarrows(d: Directory, session: Principal, client: string, projectId: string)
    ensures var (response, after) := SetAgencyContext(d, session, client);
            && (response.Acting? ==>
                  (Reads(d, after, projectId) <==>
                   && Reads(d, session.(actingClientOrganizationId := None), projectId)
                   && FindById(d.projects, projectId).value.clientOrganizationId == client))
            && (!response.Acting? ==> after == session)
            && (Reads(d, after, projectId) ==> Reads(d, session.(actingClientOrganizationId := None), projectId))
  {
    var cleared := session.(actingClientOrganizationId := None);
    var acting := session.(actingClientOrganizationId := Some(client));
    assert ContextFromSession(session) == ContextFromSession(cleared) == ContextFromSession(acting);
  }

  /** The session after a sequence of selections, refused ones included. */
  function Selections(d: Directory, session: Principal, clients: seq<string>): Principal {
    if clients == [] then session
    else SetAgencyContext(d, Selections(d, session, clients[..|clients| - 1]), clients[|clients| - 1]).1
  }

  /** No sequence of selections makes a project readable that was not, and only an assigned client is acted for. */
  lemma {:induction false} SelectionsNeverWiden(d: Directory, session: Principal, clients: seq<string>, projectId: string)
    requires session.actingClientOrganizationId.None?
    ensures var after := Selections(d, session, clients);
            && (Reads(d, after, projectId) ==> Reads(d, session, projectId))
            && after == session.(actingClientOrganizationId := after.actingClientOrganizationId)
            && (after.actingClientOrganizationId.Some? ==>
                  && IsAgencyRole(session.role) && after.actingClientOrganizationId.value in clients
                  && (session.organizationId, after.actingClientOrganizationId.value) in d.assignments)
  {
    if clients != [] {
      var front := clients[..|clients| - 1];
      SelectionsNeverWiden(d, session, front, projectId);
      ActingNarrows(d, Selections(d, session, front), clients[|clients| - 1], projectId);
      assert Selections(d, session, front).(actingClientOrganizationId := None) == session;
      assert forall c :: c in front ==> c in clients;
    }
  }
}
