/**
 * Login, logout and cookie resolution: a cookie names a user and an organization, and is resolved
 * against the newest session row of that pair, with revocation, expiry, a staleness counter and an
 * idle cap measured from the cookie's signed issue time.
 */
module Sessions {
  import opened Options
  import opened Roles
  import opened SymbolicText
  import opened SessionSigning

  const SESSION_IDLE_TTL_MS: int := 30 * 60 * 1000

  datatype Surface = App | AgencySurface | Ops

  datatype CookiePayload = CookiePayload(
    actorUserId: string, role: Role, organizationId: string,
    organizationType: OrganizationType, activeClientOrganizationId: Option<string>)

  type CookieText = Text<CookiePayload>

  datatype Membership = Membership(id: string, userId: string, organizationId: string, role: Role)

  datatype SessionRow = SessionRow(
    id: int, userId: string, membershipId: string, organizationId: string, role: Role,
    activeClientOrganizationId: Option<string>, sessionVersion: nat,
    createdAt: int, expiresAt: int, revokedAt: Option<int>)

  datatype Principal = Principal(
    sessionId: int, userId: string, role: Role, organizationId: string, organizationType: OrganizationType,
    activeClientOrganizationId: Option<string>, assignedClientOrganizationIds: seq<string>,
    actingClientOrganizationId: Option<string>)

  /** What the runtime reads besides the session table: clock, keys, and the other tables. */
  datatype Env = Env(
    now: int, currentKey: string, previousKey: Option<string>,
    activeMemberships: seq<Membership>, organizations: map<string, OrganizationType>,
    activeAssignments: map<string, seq<string>>)

  // ------------------------------------------------------------------ the session table

  predicate NewerThan(a: SessionRow, b: SessionRow) {
    a.createdAt > b.createdAt || (a.createdAt == b.createdAt && a.id > b.id)
  }

  predicate Of(r: SessionRow, userId: string, organizationId: string) {
    r.userId == userId && r.organizationId == organizationId
  }

  /** loadLatestSessionForUserOrg: ORDER BY created_at DESC, id DESC LIMIT 1. */
  function Newest(rows: seq<SessionRow>, userId: string, organizationId: string): Option<SessionRow> {
    if rows == [] then None
    else
      var last := rows[|rows| - 1];
      var front := Newest(rows[..|rows| - 1], userId, organizationId);
      if Of(last, userId, organizationId) && (front.None? || NewerThan(last, front.value)) then Some(last) else front
  }

  /** COALESCE(MAX(session_version), 0) over the membership's rows, whatever their status. */
  function MaxVersion(rows: seq<SessionRow>, membershipId: string): nat {
    if rows == [] then 0
    else
      var last := rows[|rows| - 1];
      var front := MaxVersion(rows[..|rows| - 1], membershipId);
      if last.membershipId == membershipId && last.sessionVersion > front then last.sessionVersion else front
  }

  /** UPDATE session SET revoked_at = now() WHERE id = $1 AND revoked_at IS NULL. */
  function RevokeRow(r: SessionRow, id: int, now: int): SessionRow {
    if r.id == id && r.revokedAt.None? then r.(revokedAt := Some(now)) else r
  }

  function RevokeIn(rows: seq<SessionRow>, id: int, now: int): (after: seq<SessionRow>)
    ensures |after| == |rows| && forall i :: 0 <= i < |rows| ==> after[i] == RevokeRow(rows[i], id, now)
  {
    seq(|rows|, i requires 0 <= i < |rows| => RevokeRow(rows[i], id, now))
  }

  // ------------------------------------------------------------------ login, logout, resolve

  function AllowedSurface(role: Role): Surface {
    match role
    case ClientOwner => App
    case AgencyOwner => AgencySurface
    case AgencyOperator => AgencySurface
    case PlatformSuperAdmin => Ops
  }

  function PinnedClient(role: Role, organizationId: string): Option<string> {
    if role.ClientOwner? then Some(organizationId) else None
  }

  /** listActiveClientsForAgency drops assignments to clients that do not exist. */
  function Existing(ids: seq<string>, organizations: map<string, OrganizationType>): seq<string> {
    if ids == [] then []
    else (if ids[0] in organizations then [ids[0]] else []) + Existing(ids[1..], organizations)
  }

  function AssignedClients(env: Env, role: Role, organizationId: string): seq<string> {
    if IsAgencyRole(role) && organizationId in env.activeAssignments then
      Existing(env.activeAssignments[organizationId], env.organizations)
    else []
  }

  datatype LoginInput = LoginInput(userId: string, sessionVersion: nat, ttlMs: int, newId: int)

  /** The membership a login uses: the first active one of the user. */
  function FirstMembership(memberships: seq<Membership>, userId: string): Option<Membership> {
    if memberships == [] then None
    else if memberships[0].userId == userId then Some(memberships[0])
    else FirstMembership(memberships[1..], userId)
  }

  datatype LoginResult = LoggedIn(row: SessionRow, cookie: CookieText) | Unauthenticated | InternalError

  function LoginOf(env: Env, input: LoginInput): LoginResult {
    var membership := FirstMembership(env.activeMemberships, input.userId);
    if membership.None? then Unauthenticated
    else if membership.value.organizationId !in env.organizations then InternalError
    else
      var m := membership.value;
      var client := PinnedClient(m.role, m.organizationId);
      LoggedIn(
        SessionRow(input.newId, m.userId, m.id, m.organizationId, m.role, client,
                   input.sessionVersion, env.now, env.now + input.ttlMs, None),
        Token([Enc(CookiePayload(input.userId, m.role, m.organizationId,
                                 env.organizations[m.organizationId], client))],
              env.now, env.now + SESSION_TTL_MS, env.currentKey))
  }

  /** parsePayloadSegment. */
  function PayloadIn(segment: CookieText): Option<CookiePayload> {
    if |segment| == 1 && segment[0].Enc? then Some(segment[0].v) else None
  }

  predicate Valid(r: SessionRow, liveVersion: nat, now: int) {
    r.revokedAt.None? && !(r.expiresAt <= now) && r.sessionVersion >= liveVersion
  }

  function Resolve(env: Env, rows: seq<SessionRow>, cookie: CookieText): Option<Principal> {
    var token := Verify(cookie, env.now, VerificationKeys(env.currentKey, env.previousKey));
    if token.None? then None
    else
      var payload := PayloadIn(token.value.payload);
      if payload.None? || env.now - token.value.issuedAt > SESSION_IDLE_TTL_MS then None
      else ResolveRow(env, rows, payload.value)
  }

  /** The second half: the newest row of the pair the payload names. */
  function ResolveRow(env: Env, rows: seq<SessionRow>, payload: CookiePayload): Option<Principal> {
    var row := Newest(rows, payload.actorUserId, payload.organizationId);
    if row.None? || !Valid(row.value, MaxVersion(rows, row.value.membershipId), env.now) then None
    else if AllowedSurface(payload.role) != AllowedSurface(row.value.role) then None
    else if row.value.organizationId !in env.organizations then None
    else Some(PrincipalOf(env, row.value))
  }

  function PrincipalOf(env: Env, r: SessionRow): Principal
    requires r.organizationId in env.organizations
  {
    Principal(r.id, r.userId, r.role, r.organizationId, env.organizations[r.organizationId],
              r.activeClientOrganizationId, AssignedClients(env, r.role, r.organizationId), None)
  }

  class AuthRuntime {
    var rows: seq<SessionRow>

    constructor ()
      ensures rows == []
    {
      rows := [];
    }

    method Login(env: Env, input: LoginInput) returns (result: LoginResult)
      modifies this
      ensures result == LoginOf(env, input)
      ensures rows == old(rows) + if result.LoggedIn? then [result.row] else []
    {
      var i := 0;
      while i < |env.activeMemberships| && env.activeMemberships[i].userId != input.userId
        invariant 0 <= i <= |env.activeMemberships|
        invariant FirstMembership(env.activeMemberships, input.userId) ==
                  FirstMembership(env.activeMemberships[i..], input.userId)
      {
        i := i + 1;
      }
      if i == |env.activeMemberships| { return Unauthenticated; }
      var m := env.activeMemberships[i];
      if m.organizationId !in env.organizations { return InternalError; }
      var client := PinnedClient(m.role, m.organizationId);
      var row := SessionRow(input.newId, m.userId, m.id, m.organizationId, m.role, client,
                            input.sessionVersion, env.now, env.now + input.ttlMs, None);
      rows := rows + [row];
      var payload := CookiePayload(input.userId, m.role, m.organizationId,
                                   env.organizations[m.organizationId], client);
      var keys := new SigningKeys<CookiePayload>(env.currentKey, env.previousKey);
      var cookie := keys.Sign([Enc(payload)], env.now);
      result := LoggedIn(row, cookie);
    }

    method Logout(sessionId: int, now: int)
      modifies this
      ensures rows == RevokeIn(old(rows), sessionId, now)
    {
      rows := RevokeIn(rows, sessionId, now);
    }

    method ResolveSession(env: Env, cookie: CookieText) returns (principal: Option<Principal>)
      ensures principal == Resolve(env, rows, cookie)
    {
      var keys := new SigningKeys<CookiePayload>(env.currentKey, env.previousKey);
      var token := keys.VerifyToken(cookie, env.now);
      if token.None? { return None; }
      var payload := PayloadIn(token.value.payload);
      if payload.None? { return None; }
      if env.now - token.value.issuedAt > SESSION_IDLE_TTL_MS { return None; }
      var row := Newest(rows, payload.value.actorUserId, payload.value.organizationId);
      if row.None? { return None; }
      if !Valid(row.value, MaxVersion(rows, row.value.membershipId), env.now) { return None; }
      if AllowedSurface(payload.value.role) != AllowedSurface(row.value.role) { return None; }
      if row.value.organizationId !in env.organizations { return None; }
      principal := Some(PrincipalOf(env, row.value));
    }
  }

  // ------------------------------------------------------------------ runs

  datatype Step =
    | Login(input: LoginInput)
    | Logout(sessionId: int)
    | Environment(env: Env) // time passes, keys rotate, memberships and assignments change

  datatype World = World(env: Env, rows: seq<SessionRow>)

  function Apply(w: World, step: Step): World {
    match step
    case Login(input) =>
      var result := LoginOf(w.env, input);
      if result.LoggedIn? then w.(rows := w.rows + [result.row]) else w
    case Logout(id) => w.(rows := RevokeIn(w.rows, id, w.env.now))
    case Environment(env) => w.(env := env)
  }

  function After(w: World, steps: seq<Step>): World {
    if steps == [] then w else Apply(After(w, steps[..|steps| - 1]), steps[|steps| - 1])
  }

  /** The row this step would insert, if any. */
  function Inserted(w: World, step: Step): Option<SessionRow> {
    if step.Login? && LoginOf(w.env, step.input).LoggedIn? then Some(LoginOf(w.env, step.input).row) else None
  }

  /** No step of the run inserts a row of this pair, or of this membership. */
  ghost predicate NoLogin(w: World, steps: seq<Step>, userId: string, organizationId: string, membershipId: Option<string>) {
    forall i :: 0 <= i < |steps| ==>
      var r := Inserted(After(w, steps[..i]), steps[i]);
      r.Some? ==> !Of(r.value, userId, organizationId) && Some(r.value.membershipId) != membershipId
  }

  ghost predicate NoLogout(steps: seq<Step>, id: int) {
    forall i :: 0 <= i < |steps| ==> steps[i] != Logout(id)
  }

  // ------------------------------------------------------------------ the newest row

  /** The declarative reading of the query. */
  ghost predicate IsNewest(r: SessionRow, rows: seq<SessionRow>, userId: string, organizationId: string) {
    && r in rows && r.userId == userId && r.organizationId == organizationId
    && forall x <- rows :: x.userId == userId && x.organizationId == organizationId ==>
         x.createdAt < r.createdAt || (x.createdAt == r.createdAt && x.id <= r.id)
  }

  lemma {:induction false} NewestIsNewest(rows: seq<SessionRow>, userId: string, organizationId: string)
    ensures var r := Newest(rows, userId, organizationId);
            if r.Some? then IsNewest(r.value, rows, userId, organizationId)
            else forall x <- rows :: !Of(x, userId, organizationId)
  {
    if rows != [] {
      var n := |rows| - 1;
      NewestIsNewest(rows[..n], userId, organizationId);
      assert rows == rows[..n] + [rows[n]];
    }
  }

  lemma NewestAppend(rows: seq<SessionRow>, r: SessionRow, userId: string, organizationId: string)
    ensures var front := Newest(rows, userId, organizationId);
            Newest(rows + [r], userId, organizationId) ==
            if Of(r, userId, organizationId) && (front.None? || NewerThan(r, front.value)) then Some(r) else front
  {
    assert (rows + [r])[..|rows|] == rows;
  }

  lemma MaxVersionAppend(rows: seq<SessionRow>, r: SessionRow, membershipId: string)
    ensures var front := MaxVersion(rows, membershipId);
            MaxVersion(rows + [r], membershipId) ==
            if r.membershipId == membershipId && r.sessionVersion > front then r.sessionVersion else front
  {
    assert (rows + [r])[..|rows|] == rows;
  }

  lemma {:induction false} MaxVersionBounds(rows: seq<SessionRow>, membershipId: string)
    ensures forall r <- rows :: r.membershipId == membershipId ==> r.sessionVersion <= MaxVersion(rows, membershipId)
  {
    if rows != [] {
      var n := |rows| - 1;
      MaxVersionBounds(rows[..n], membershipId);
      assert rows == rows[..n] + [rows[n]];
    }
  }

  /** Revoking changes neither which row is newest nor any version. */
  lemma {:induction false} RevokeKeepsOrder(rows: seq<SessionRow>, id: int, now: int, userId: string, organizationId: string)
    ensures var before := Newest(rows, userId, organizationId);
            Newest(RevokeIn(rows, id, now), userId, organizationId) ==
            if before.Some? then Some(RevokeRow(before.value, id, now)) else None
    ensures forall m :: MaxVersion(RevokeIn(rows, id, now), m) == MaxVersion(rows, m)
  {
    if rows != [] {
      var n := |rows| - 1;
      RevokeKeepsOrder(rows[..n], id, now, userId, organizationId);
      assert RevokeIn(rows, id, now)[..n] == RevokeIn(rows[..n], id, now);
    }
  }

  /** A logout changes nothing but the time of revocation, of the rows of that id not yet revoked. */
  lemma LogoutRevokes(rows: seq<SessionRow>, id: int, now: int, i: nat)
    requires i < |rows|
    ensures var after := RevokeIn(rows, id, now);
            && |after| == |rows|
            && after[i] == rows[i].(revokedAt := after[i].revokedAt)
            && after[i].revokedAt == if rows[i].id == id && rows[i].revokedAt.None? then Some(now) else rows[i].revokedAt
  {
  }

  // ------------------------------------------------------------------ what a resolved principal implies

  /**
   * The principal a row stands for: the row's own session, user, role, organization and pinned client,
   * the organization's type, no acting client, and the assigned clients of the row's own role.
   */
  predicate StandsFor(env: Env, r: SessionRow, p: Principal) {
    && p.sessionId == r.id && p.userId == r.userId && p.role == r.role && p.organizationId == r.organizationId
    && p.activeClientOrganizationId == r.activeClientOrganizationId
    && r.organizationId in env.organizations && p.organizationType == env.organizations[r.organizationId]
    && p.actingClientOrganizationId.None?
    && p.assignedClientOrganizationIds == AssignedClients(env, r.role, r.organizationId)
  }

  /** An agency role's assigned clients are the existing ones of its organization's active assignments; no other role has any. */
  lemma AssignedClientsAre(env: Env, role: Role, organizationId: string, client: string)
    ensures client in AssignedClients(env, role, organizationId) <==>
            && (role.AgencyOwner? || role.AgencyOperator?)
            && organizationId in env.activeAssignments && client in env.activeAssignments[organizationId]
            && client in env.organizations
  {
    if organizationId in env.activeAssignments {
      ExistingKeepsKnown(env.activeAssignments[organizationId], env.organizations, client);
    }
  }

  lemma {:induction false} ExistingKeepsKnown(ids: seq<string>, organizations: map<string, OrganizationType>, id: string)
    ensures id in Existing(ids, organizations) <==> id in ids && id in organizations
  {
    if ids != [] { ExistingKeepsKnown(ids[1..], organizations, id); }
  }

  /** Two roles share a surface exactly when they are the same or both an agency's. */
  lemma SurfacesAre(a: Role, b: Role)
    ensures AllowedSurface(a) == AllowedSurface(b) <==>
            a == b || (a in {AgencyOwner, AgencyOperator} && b in {AgencyOwner, AgencyOperator})
    ensures AllowedSurface(a).App? <==> a.ClientOwner?
    ensures AllowedSurface(a).Ops? <==> a.PlatformSuperAdmin?
  {
  }

  /**
   * A cookie resolves exactly when it verifies under an honoured key, was issued within the idle
   * cap, and the newest row of the pair it names is unrevoked, unexpired, on the same surface, in
   * a known organization and at least as new a version as every row of its membership.
   */
  lemma ResolvedIff(env: Env, rows: seq<SessionRow>, cookie: CookieText, principal: Principal)
    ensures Resolve(env, rows, cookie) == Some(principal) <==>
            exists token: Verified<CookiePayload>, r ::
              && Verify(cookie, env.now, VerificationKeys(env.currentKey, env.previousKey)) == Some(token)
              && env.now - token.issuedAt <= 1800000
              && PayloadIn(token.payload).Some?
              && var p := PayloadIn(token.payload).value;
              && r == Newest(rows, p.actorUserId, p.organizationId)
              && r.Some? && IsNewest(r.value, rows, p.actorUserId, p.organizationId)
              && r.value.revokedAt.None? && env.now < r.value.expiresAt
              && (forall x <- rows :: x.membershipId == r.value.membershipId ==> x.sessionVersion <= r.value.sessionVersion)
              && AllowedSurface(p.role) == AllowedSurface(r.value.role)
              && r.value.organizationId in env.organizations
              && StandsFor(env, r.value, principal)
  {
    var token := Verify(cookie, env.now, VerificationKeys(env.currentKey, env.previousKey));
    if token.Some? && PayloadIn(token.value.payload).Some? {
      var p := PayloadIn(token.value.payload).value;
      NewestIsNewest(rows, p.actorUserId, p.organizationId);
      var r := Newest(rows, p.actorUserId, p.organizationId);
      if r.Some? {
        MaxVersionBounds(rows, r.value.membershipId);
        MaxVersionAttained(rows, r.value.membershipId);
      }
    }
  }

  lemma {:induction false} MaxVersionAttained(rows: seq<SessionRow>, membershipId: string)
    ensures MaxVersion(rows, membershipId) == 0 ||
            exists r <- rows :: r.membershipId == membershipId && r.sessionVersion == MaxVersion(rows, membershipId)
  {
    if rows != [] {
      var n := |rows| - 1;
      MaxVersionAttained(rows[..n], membershipId);
      assert rows == rows[..n] + [rows[n]];
    }
  }

  // ------------------------------------------------------------------ login, then resolve

  lemma CookieVerifies(payload: CookiePayload, issuedAt: int, key: string, now: int, keys: seq<string>)
    ensures Verify(Token([Enc(payload)], issuedAt, issuedAt + SESSION_TTL_MS, key), now, keys) ==
            if key in keys && now < issuedAt + SESSION_TTL_MS
            then Some(Verified([Enc(payload)], issuedAt, issuedAt + SESSION_TTL_MS)) else None
  {
    PrintedTokenVerifies([Enc(payload)], issuedAt, issuedAt + SESSION_TTL_MS, key, now, keys);
  }

  /** A login's row becomes the newest of its pair: the clock moved on, or the id breaks the tie. */
  ghost predicate Outranks(row: SessionRow, rows: seq<SessionRow>) {
    forall r <- rows :: r.userId == row.userId && r.organizationId == row.organizationId ==>
      r.createdAt < row.createdAt || (r.createdAt == row.createdAt && r.id < row.id)
  }

  /** A login's row is the newest of its pair if and only if it outranks the rows before it. */
  lemma LoginIsNewestIff(w: World, input: LoginInput)
    requires LoginOf(w.env, input).LoggedIn?
    ensures var row := LoginOf(w.env, input).row;
            Newest(Apply(w, Login(input)).rows, row.userId, row.organizationId) ==
            if Outranks(row, w.rows) then Some(row) else Newest(w.rows, row.userId, row.organizationId)
  {
    var row := LoginOf(w.env, input).row;
    var front := Newest(w.rows, row.userId, row.organizationId);
    NewestIsNewest(w.rows, row.userId, row.organizationId);
    NewestAppend(w.rows, row, row.userId, row.organizationId);
    if front.Some? && NewerThan(row, front.value) {
      forall r | r in w.rows && Of(r, row.userId, row.organizationId) ensures NewerThan(row, r) {
        assert !NewerThan(r, front.value);
      }
    }
  }

  lemma QuietStepKeepsRow(w: World, step: Step, row: SessionRow)
    requires var r := Inserted(w, step);
             r.Some? ==> !Of(r.value, row.userId, row.organizationId) && r.value.membershipId != row.membershipId
    requires step != Logout(row.id)
    requires Newest(w.rows, row.userId, row.organizationId) == Some(row)
    ensures Newest(Apply(w, step).rows, row.userId, row.organizationId) == Some(row)
    ensures MaxVersion(Apply(w, step).rows, row.membershipId) == MaxVersion(w.rows, row.membershipId)
  {
    match step
    case Login(input) =>
      if LoginOf(w.env, input).LoggedIn? {
        var r := LoginOf(w.env, input).row;
        NewestAppend(w.rows, r, row.userId, row.organizationId);
        MaxVersionAppend(w.rows, r, row.membershipId);
      }
    case Logout(id) => RevokeKeepsOrder(w.rows, id, w.env.now, row.userId, row.organizationId);
    case Environment(_) =>
  }

  lemma NoLoginPrefix(w: World, steps: seq<Step>, userId: string, organizationId: string, membershipId: Option<string>)
    requires steps != [] && NoLogin(w, steps, userId, organizationId, membershipId)
    ensures NoLogin(w, steps[..|steps| - 1], userId, organizationId, membershipId)
  {
    var front := steps[..|steps| - 1];
    forall i | 0 <= i < |front| ensures front[..i] == steps[..i] && front[i] == steps[i] {}
  }

  lemma {:induction false} QuietRunKeepsRow(w: World, steps: seq<Step>, row: SessionRow)
    requires NoLogin(w, steps, row.userId, row.organizationId, Some(row.membershipId)) && NoLogout(steps, row.id)
    requires Newest(w.rows, row.userId, row.organizationId) == Some(row)
    ensures Newest(After(w, steps).rows, row.userId, row.organizationId) == Some(row)
    ensures MaxVersion(After(w, steps).rows, row.membershipId) == MaxVersion(w.rows, row.membershipId)
  {
    if steps != [] {
      var front, last := steps[..|steps| - 1], steps[|steps| - 1];
      NoLoginPrefix(w, steps, row.userId, row.organizationId, Some(row.membershipId));
      assert NoLogout(front, row.id);
      QuietRunKeepsRow(w, front, row);
      QuietStepKeepsRow(After(w, front), last, row);
    }
  }

  /** Without a login for the pair, its newest row stays the same session, revoked or not. */
  lemma {:induction false} QuietRunKeepsNewestId(w: World, steps: seq<Step>, userId: string, organizationId: string)
    requires NoLogin(w, steps, userId, organizationId, None)
    requires Newest(w.rows, userId, organizationId).Some?
    ensures var later := Newest(After(w, steps).rows, userId, organizationId);
            later.Some? && later.value.id == Newest(w.rows, userId, organizationId).value.id
  {
    if steps != [] {
      var n := |steps| - 1;
      var before := After(w, steps[..n]);
      NoLoginPrefix(w, steps, userId, organizationId, None);
      QuietRunKeepsNewestId(w, steps[..n], userId, organizationId);
      match steps[n]
      case Login(input) =>
        if LoginOf(before.env, input).LoggedIn? {
          assert Inserted(before, steps[n]) == Some(LoginOf(before.env, input).row);
          NewestAppend(before.rows, LoginOf(before.env, input).row, userId, organizationId);
        }
      case Logout(id) => RevokeKeepsOrder(before.rows, id, before.env.now, userId, organizationId);
      case Environment(_) =>
    }
  }

  function PayloadOf(env: Env, m: Membership): CookiePayload
    requires m.organizationId in env.organizations
  {
    CookiePayload(m.userId, m.role, m.organizationId, env.organizations[m.organizationId], PinnedClient(m.role, m.organizationId))
  }

  /** While its key is honoured and the cap holds, a login's cookie is as good as its payload; afterwards it is worth nothing. */
  lemma LoginCookieReads(w: World, input: LoginInput, env: Env, rows: seq<SessionRow>)
    requires LoginOf(w.env, input).LoggedIn?
    ensures var m := FirstMembership(w.env.activeMemberships, input.userId);
            && m.Some? && m.value.userId == input.userId && m.value.organizationId in w.env.organizations
            && Resolve(env, rows, LoginOf(w.env, input).cookie) ==
               if w.env.currentKey in VerificationKeys(env.currentKey, env.previousKey) && env.now <= w.env.now + SESSION_IDLE_TTL_MS
               then ResolveRow(env, rows, PayloadOf(w.env, m.value)) else None
  {
    FirstMembershipIsUsers(w.env.activeMemberships, input.userId);
    CookieVerifies(PayloadOf(w.env, FirstMembership(w.env.activeMemberships, input.userId).value), w.env.now, w.env.currentKey,
                   env.now, VerificationKeys(env.currentKey, env.previousKey));
  }

  /** The row a login inserts: the user's first active membership, the input's id, version and lifetime, unrevoked. */
  lemma LoginRowIs(env: Env, input: LoginInput)
    ensures var m := FirstMembership(env.activeMemberships, input.userId);
            var result := LoginOf(env, input);
            && (result.Unauthenticated? <==> forall x <- env.activeMemberships :: x.userId != input.userId)
            && (result.LoggedIn? <==> m.Some? && m.value.organizationId in env.organizations)
            && (result.LoggedIn? ==>
                  && var row := result.row;
                     && row.id == input.newId && row.userId == input.userId && row.membershipId == m.value.id
                     && row.organizationId == m.value.organizationId && row.role == m.value.role
                     && row.activeClientOrganizationId == (if m.value.role.ClientOwner? then Some(m.value.organizationId) else None)
                     && row.sessionVersion == input.sessionVersion && row.revokedAt.None?
                     && row.createdAt == env.now && row.expiresAt == env.now + input.ttlMs)
  {
    FirstMembershipIsUsers(env.activeMemberships, input.userId);
  }

  /** The cookie a login returns: signed with CURRENT now, naming the user, the membership's role and organization, and its type. */
  lemma LoginCookieIs(env: Env, input: LoginInput)
    requires LoginOf(env, input).LoggedIn?
    ensures var m := FirstMembership(env.activeMemberships, input.userId);
            && m.Some? && m.value.organizationId in env.organizations
            && exists p: CookiePayload ::
                 && LoginOf(env, input).cookie == TokenOf(Issued(env.currentKey, [Enc(p)], env.now))
                 && p.actorUserId == input.userId && p.role == m.value.role && p.organizationId == m.value.organizationId
                 && p.organizationType == env.organizations[m.value.organizationId]
                 && p.activeClientOrganizationId == if m.value.role.ClientOwner? then Some(m.value.organizationId) else None
  {
    FirstMembershipIsUsers(env.activeMemberships, input.userId);
    var p := PayloadOf(env, FirstMembership(env.activeMemberships, input.userId).value);
    assert LoginOf(env, input).cookie == TokenOf(Issued(env.currentKey, [Enc(p)], env.now));
  }

  /** What a later resolve finds: the login's own row, or the one it failed to outrank. */
  lemma LoginRowLater(w: World, input: LoginInput, steps: seq<Step>)
    requires LoginOf(w.env, input).LoggedIn? && forall r <- w.rows :: r.id != input.newId
    requires var row := LoginOf(w.env, input).row;
             && NoLogin(Apply(w, Login(input)), steps, row.userId, row.organizationId, Some(row.membershipId))
             && NoLogout(steps, row.id)
    ensures var row := LoginOf(w.env, input).row;
            var later := After(Apply(w, Login(input)), steps);
            var newest := Newest(later.rows, row.userId, row.organizationId);
            && newest.Some?
            && (Outranks(row, w.rows) ==>
                  (&& newest.value == row
                   && MaxVersion(later.rows, row.membershipId) ==
                      if row.sessionVersion > MaxVersion(w.rows, row.membershipId) then row.sessionVersion
                      else MaxVersion(w.rows, row.membershipId)))
            && (!Outranks(row, w.rows) ==> newest.value.id != row.id)
  {
    var row := LoginOf(w.env, input).row;
    var w1 := Apply(w, Login(input));
    LoginIsNewestIff(w, input);
    MaxVersionAppend(w.rows, row, row.membershipId);
    if Outranks(row, w.rows) {
      QuietRunKeepsRow(w1, steps, row);
    } else {
      NewestIsNewest(w.rows, row.userId, row.organizationId);
      forall i | 0 <= i < |steps| ensures
        var r := Inserted(After(w1, steps[..i]), steps[i]); r.Some? ==> !Of(r.value, row.userId, row.organizationId)
      {}
      QuietRunKeepsNewestId(w1, steps, row.userId, row.organizationId);
    }
  }

  /**
   * Logging in and resolving the returned cookie later, whatever other principals did in between:
   * it resolves to the login's own session, with the first active membership's user, role and
   * organization, if and only if the key is still honoured, the idle cap and the session's own
   * lifetime have not passed, the organization is still known, and the row outranked the pair's
   * earlier ones with a version at least the membership's maximum.
   */
  lemma LoginThenResolve(w: World, input: LoginInput, steps: seq<Step>)
    requires LoginOf(w.env, input).LoggedIn? && forall r <- w.rows :: r.id != input.newId
    requires var row := LoginOf(w.env, input).row;
             && NoLogin(Apply(w, Login(input)), steps, row.userId, row.organizationId, Some(row.membershipId))
             && NoLogout(steps, row.id)
    ensures var login := LoginOf(w.env, input);
            var later := After(Apply(w, Login(input)), steps);
            var resolved := Resolve(later.env, later.rows, login.cookie);
            (resolved.Some? && resolved.value.sessionId == input.newId) <==>
              && w.env.currentKey in VerificationKeys(later.env.currentKey, later.env.previousKey)
              && later.env.now <= w.env.now + 1800000 && later.env.now < w.env.now + input.ttlMs
              && login.row.organizationId in later.env.organizations
              && Outranks(login.row, w.rows) && input.sessionVersion >= MaxVersion(w.rows, login.row.membershipId)
    ensures var later := After(Apply(w, Login(input)), steps);
            var resolved := Resolve(later.env, later.rows, LoginOf(w.env, input).cookie);
            var m := FirstMembership(w.env.activeMemberships, input.userId);
            resolved.Some? && resolved.value.sessionId == input.newId ==>
              && m.Some? && resolved.value.userId == input.userId && resolved.value.role == m.value.role
              && resolved.value.organizationId == m.value.organizationId
              && resolved.value.activeClientOrganizationId == if m.value.role.ClientOwner? then Some(m.value.organizationId) else None
  {
    var later := After(Apply(w, Login(input)), steps);
    LoginCookieReads(w, input, later.env, later.rows);
    LoginRowIs(w.env, input);
    LoginRowLater(w, input, steps);
  }

  // ------------------------------------------------------------------ when a login outranks

  /** Two logins of one pair never share a clock reading, and the later one reads more. */
  ghost predicate ClockAdvances(w: World, steps: seq<Step>) {
    forall i, j :: 0 <= i < j < |steps| ==>
      var a, b := Inserted(After(w, steps[..i]), steps[i]), Inserted(After(w, steps[..j]), steps[j]);
      a.Some? && b.Some? && Of(a.value, b.value.userId, b.value.organizationId) ==> a.value.createdAt < b.value.createdAt
  }

  /** The login that inserted a row, up to its revocation. */
  ghost predicate CameFrom(w: World, steps: seq<Step>, r: SessionRow, i: nat)
    requires i < |steps|
  {
    var x := Inserted(After(w, steps[..i]), steps[i]);
    x.Some? && r == x.value.(revokedAt := r.revokedAt)
  }

  lemma {:induction false} RowsComeFromLogins(w: World, steps: seq<Step>, r: SessionRow)
    requires w.rows == [] && r in After(w, steps).rows
    ensures exists i :: 0 <= i < |steps| && CameFrom(w, steps, r, i)
  {
    var n := |steps| - 1;
    var front := steps[..n];
    var before := After(w, front);
    var source := r;
    if steps[n].Logout? {
      var k :| 0 <= k < |before.rows| && r == RevokeRow(before.rows[k], steps[n].sessionId, before.env.now);
      source := before.rows[k];
    }
    if source in before.rows {
      RowsComeFromLogins(w, front, source);
      var i :| 0 <= i < |front| && CameFrom(w, front, source, i);
      assert front[..i] == steps[..i] && front[i] == steps[i];
      assert CameFrom(w, steps, r, i);
    } else {
      assert CameFrom(w, steps, r, n);
    }
  }

  /** From an empty table, a login outranks its pair's rows whenever the clock advances between the pair's logins. */
  lemma AdvancingClockOutranks(w: World, steps: seq<Step>, input: LoginInput)
    requires w.rows == [] && ClockAdvances(w, steps + [Login(input)])
    requires LoginOf(After(w, steps).env, input).LoggedIn?
    ensures Outranks(LoginOf(After(w, steps).env, input).row, After(w, steps).rows)
  {
    var all, row := steps + [Login(input)], LoginOf(After(w, steps).env, input).row;
    assert all[..|steps|] == steps;
    forall r | r in After(w, steps).rows && Of(r, row.userId, row.organizationId) ensures NewerThan(row, r) {
      RowsComeFromLogins(w, steps, r);
      var i :| 0 <= i < |steps| && CameFrom(w, steps, r, i);
      assert all[..i] == steps[..i] && all[i] == steps[i];
      assert Inserted(After(w, all[..|steps|]), all[|steps|]) == Some(row);
    }
  }

  /** The first active membership of the user, if there is one. */
  lemma {:induction false} FirstMembershipIsUsers(memberships: seq<Membership>, userId: string)
    ensures var m := FirstMembership(memberships, userId);
            && (m.None? <==> forall x <- memberships :: x.userId != userId)
            && (m.Some? ==> exists i :: 0 <= i < |memberships| && memberships[i] == m.value && m.value.userId == userId
                                        && forall j :: 0 <= j < i ==> memberships[j].userId != userId)
  {
    if memberships != [] {
      var rest := memberships[1..];
      FirstMembershipIsUsers(rest, userId);
      assert memberships == [memberships[0]] + rest;
      if memberships[0].userId == userId {
        assert memberships[0] == FirstMembership(memberships, userId).value;
      } else if FirstMembership(rest, userId).Some? {
        var i :| 0 <= i < |rest| && rest[i] == FirstMembership(rest, userId).value && forall j :: 0 <= j < i ==> rest[j].userId != userId;
        assert memberships[i + 1] == rest[i];
        forall j | 0 <= j < i + 1 ensures memberships[j].userId != userId { if j > 0 { assert memberships[j] == rest[j - 1]; } }
      }
    }
  }

  // ------------------------------------------------------------------ revocation and staleness

  lemma {:induction false} RevokedStaysNewest(w: World, steps: seq<Step>, userId: string, organizationId: string)
    requires NoLogin(w, steps, userId, organizationId, None)
    requires var r := Newest(w.rows, userId, organizationId); r.Some? && r.value.revokedAt.Some?
    ensures var r := Newest(After(w, steps).rows, userId, organizationId); r.Some? && r.value.revokedAt.Some?
  {
    if steps != [] {
      var n := |steps| - 1;
      var front := steps[..n];
      NoLoginPrefix(w, steps, userId, organizationId, None);
      RevokedStaysNewest(w, front, userId, organizationId);
      var before := After(w, front);
      match steps[n]
      case Login(input) =>
        if LoginOf(before.env, input).LoggedIn? {
          var r := LoginOf(before.env, input).row;
          assert Inserted(before, steps[n]) == Some(r);
          NewestAppend(before.rows, r, userId, organizationId);
        }
      case Logout(id) => RevokeKeepsOrder(before.rows, id, before.env.now, userId, organizationId);
      case Environment(_) =>
    }
  }

  /**
   * Once the row a cookie resolved to is revoked, no cookie whatever resolves to that user and
   * organization again until a login inserts a new row for the pair.
   */
  lemma LogoutIsFinalUntilLogin(w: World, cookie: CookieText, steps: seq<Step>, other: CookieText)
    requires Resolve(w.env, w.rows, cookie).Some?
    requires var p := Resolve(w.env, w.rows, cookie).value;
             NoLogin(Apply(w, Logout(p.sessionId)), steps, p.userId, p.organizationId, None)
    ensures var p := Resolve(w.env, w.rows, cookie).value;
            var later := After(Apply(w, Logout(p.sessionId)), steps);
            var q := Resolve(later.env, later.rows, other);
            q.Some? ==> q.value.userId != p.userId || q.value.organizationId != p.organizationId
  {
    var p := Resolve(w.env, w.rows, cookie).value;
    var token := Verify(cookie, w.env.now, VerificationKeys(w.env.currentKey, w.env.previousKey)).value;
    var payload := PayloadIn(token.payload).value;
    var u, o := payload.actorUserId, payload.organizationId;
    NewestIsNewest(w.rows, u, o);
    RevokeKeepsOrder(w.rows, p.sessionId, w.env.now, u, o);
    RevokedStaysNewest(Apply(w, Logout(p.sessionId)), steps, u, o);
    var later := After(Apply(w, Logout(p.sessionId)), steps);
    var q := Resolve(later.env, later.rows, other);
    if q.Some? {
      var t := Verify(other, later.env.now, VerificationKeys(later.env.currentKey, later.env.previousKey)).value;
      NewestIsNewest(later.rows, PayloadIn(t.payload).value.actorUserId, PayloadIn(t.payload).value.organizationId);
    }
  }

  lemma {:induction false} MaxVersionGrows(w: World, steps: seq<Step>, membershipId: string)
    ensures MaxVersion(w.rows, membershipId) <= MaxVersion(After(w, steps).rows, membershipId)
  {
    if steps != [] {
      var n := |steps| - 1;
      MaxVersionGrows(w, steps[..n], membershipId);
      var before := After(w, steps[..n]);
      match steps[n]
      case Login(input) =>
        if LoginOf(before.env, input).LoggedIn? {
          MaxVersionAppend(before.rows, LoginOf(before.env, input).row, membershipId);
        }
      case Logout(id) => RevokeKeepsOrder(before.rows, id, before.env.now, "", "");
      case Environment(_) =>
    }
  }

  /** Staleness is for good: a principal resolved later stands on a version no older than any seen before. */
  lemma StaleVersionNeverResolves(w: World, steps: seq<Step>, cookie: CookieText)
    requires Resolve(After(w, steps).env, After(w, steps).rows, cookie).Some?
    ensures var later := After(w, steps);
            exists r <- later.rows ::
              && r.id == Resolve(later.env, later.rows, cookie).value.sessionId
              && r.sessionVersion >= MaxVersion(w.rows, r.membershipId)
  {
    var later := After(w, steps);
    var token := Verify(cookie, later.env.now, VerificationKeys(later.env.currentKey, later.env.previousKey)).value;
    var payload := PayloadIn(token.payload).value;
    NewestIsNewest(later.rows, payload.actorUserId, payload.organizationId);
    var r := Newest(later.rows, payload.actorUserId, payload.organizationId).value;
    MaxVersionGrows(w, steps, r.membershipId);
    assert r in later.rows;
  }
}
