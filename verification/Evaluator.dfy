/** The access decision: a staged, fail-closed filter over a snapshot. */
module Evaluator {
  import opened Common
  import opened Lists
  import opened AccessModel

  datatype Reason =
    | EvaluationTimeInvalid
    | IdentityMissing
    | IdentityUnverified
    | UserNotFound
    | IdentityMismatch
    | UserInactive
    | ApplicationNotFound
    | ApplicationInactive
    | PopulationNotAllowed
    | PartnerOrganisationInactive
    | NoActiveEntitlement
    | RoleInvalid
    | RolePopulationMismatch
    | ScopeMismatch
    | PermissionMissing

  datatype Decision =
    | Granted(
        user: User, application: Application, roleIds: seq<string>, roleKeys: seq<string>,
        permissions: seq<string>, entitlementIds: seq<string>, scope: Scope)
    | Denied(reason: Reason)

  // ---------------------------------------------------------------------
  // Identity, user, application

  predicate Verified(identity: Identity, now: int) {
    identity.emailVerified && identity.verifiedAt.At? && identity.verifiedAt.ms <= now
  }

  predicate SameDomain(a: Option<string>, b: Option<string>) {
    Filled(a) && Filled(b) && Lower(a.value) == Lower(b.value)
  }

  predicate Matches(identity: Identity, user: User) {
    && identity.subject == user.subject
    && identity.issuer == user.issuer
    && identity.population == user.population
    && (if user.population == Employee then SameDomain(identity.workspaceDomain, user.workspaceDomain)
        else Filled(user.organisation))
  }

  function IsAccount(identity: Identity): User -> bool {
    (u: User) => u.subject == identity.subject && u.issuer == identity.issuer
  }

  function HasId(id: string): Application -> bool {
    (a: Application) => a.id == id
  }

  function IsOrganisation(id: Option<string>): Organisation -> bool {
    (o: Organisation) => id == Some(o.id)
  }

  predicate OrganisationActive(s: Snapshot, id: Option<string>) {
    var found := Find(s.organisations, IsOrganisation(id));
    found.Some? && found.value.active
  }

  /** Everything decided before entitlements are looked at. */
  function Gate(identity: Option<Identity>, applicationId: string, s: Snapshot, now: Stamp)
    : Result<(User, Application), Reason>
  {
    if now.Unreadable? then Err(EvaluationTimeInvalid)
    else if identity.None? then Err(IdentityMissing)
    else if !Verified(identity.value, now.ms) then Err(IdentityUnverified)
    else
      var account := Find(s.users, IsAccount(identity.value));
      if account.None? then Err(UserNotFound)
      else if !Matches(identity.value, account.value) then Err(IdentityMismatch)
      else if !account.value.status.ActiveUser? then Err(UserInactive)
      else
        var application := Find(s.applications, HasId(applicationId));
        if application.None? then Err(ApplicationNotFound)
        else if !application.value.status.Live? then Err(ApplicationInactive)
        else if account.value.population !in application.value.populations then Err(PopulationNotAllowed)
        else if account.value.population == ExternalPartner && !OrganisationActive(s, account.value.organisation) then
          Err(PartnerOrganisationInactive)
        else Ok((account.value, application.value))
  }

  // ---------------------------------------------------------------------
  // Entitlements

  function ActiveTeams(user: User, s: Snapshot, now: int): set<string> {
    var active := set t | t in s.teams && t.active :: t.id;
    set m | m in s.memberships && m.user == user.id && m.team in active && InForce(m.window, now) :: m.team
  }

  predicate Applies(e: Entitlement, user: User, teams: set<string>) {
    match e.subject
    case ToUser(id) => id == user.id
    case ToTeam(id) => id in teams
  }

  predicate ScopeAllows(scope: Scope, user: User) {
    || user.population == Employee
    || (&& Filled(user.organisation)
        && !scope.all
        && scope.organisations != []
        && forall o :: o in scope.organisations ==> o == user.organisation.value)
  }

  /** The application's roles by id; a later role with the same id wins. */
  function RolesById(roles: seq<Role>, application: string): map<string, Role> {
    if roles == [] then map[]
    else
      var last := roles[|roles| - 1];
      var earlier := RolesById(roles[..|roles| - 1], application);
      if last.application == application then earlier[last.id := last] else earlier
  }

  function IsCurrent(user: User, application: string, teams: set<string>, now: int): Entitlement -> bool {
    (e: Entitlement) => e.application == application && InForce(e.window, now) && Applies(e, user, teams)
  }

  function FitsPopulation(roles: map<string, Role>, population: Population): Entitlement -> bool {
    (e: Entitlement) => e.role in roles && population in roles[e.role].populations
  }

  function FitsScope(user: User): Entitlement -> bool {
    (e: Entitlement) => ScopeAllows(e.scope, user)
  }

  function Permits(roles: map<string, Role>, permission: string): Entitlement -> bool {
    (e: Entitlement) => e.role in roles && permission in roles[e.role].permissions
  }

  function RoleOf(roles: map<string, Role>): Entitlement -> seq<Role> {
    (e: Entitlement) => if e.role in roles then [roles[e.role]] else []
  }

  function RoleId(r: Role): string { r.id }
  function RoleKey(r: Role): string { r.key }
  function RolePermissions(r: Role): seq<string> { r.permissions }
  function EntitlementId(e: Entitlement): string { e.id }
  function ScopeOrganisations(e: Entitlement): seq<string> { e.scope.organisations }

  function MergeScopes(entitlements: seq<Entitlement>, user: User): Scope {
    if user.population == Employee && exists e :: e in entitlements && e.scope.all then Scope(true, [])
    else Scope(false, SortedSet(FlatMap(entitlements, ScopeOrganisations)))
  }

  function GrantOf(user: User, application: Application, roles: map<string, Role>, entitlements: seq<Entitlement>)
    : Decision
  {
    var held := FlatMap(entitlements, RoleOf(roles));
    Granted(
      user, application,
      SortedSet(Map(held, RoleId)),
      SortedSet(Map(held, RoleKey)),
      SortedSet(FlatMap(held, RolePermissions)),
      Sort(Map(entitlements, EntitlementId)),
      MergeScopes(entitlements, user))
  }

  function LastStages(
    user: User, application: Application, roles: map<string, Role>, current: seq<Entitlement>,
    permission: Option<string>): Decision
  {
    var fitting := Filter(current, FitsPopulation(roles, user.population));
    if fitting == [] then Denied(RolePopulationMismatch)
    else
      var scoped := Filter(fitting, FitsScope(user));
      if scoped == [] then Denied(ScopeMismatch)
      else
        var permitted := if Filled(permission) then Filter(scoped, Permits(roles, permission.value)) else scoped;
        if permitted == [] then Denied(PermissionMissing) else GrantOf(user, application, roles, permitted)
  }

  function Decide(
    user: User, application: Application, teams: set<string>, roles: map<string, Role>,
    entitlements: seq<Entitlement>, now: int, permission: Option<string>): Decision
  {
    var current := Filter(entitlements, IsCurrent(user, application.id, teams, now));
    if current == [] then Denied(NoActiveEntitlement)
    else if exists e :: e in current && e.role !in roles then Denied(RoleInvalid)
    else LastStages(user, application, roles, current, permission)
  }

  function Evaluate(
    identity: Option<Identity>, applicationId: string, s: Snapshot, now: Stamp, permission: Option<string>): Decision
  {
    match Gate(identity, applicationId, s, now)
    case Err(reason) => Denied(reason)
    case Ok((user, application)) =>
      Decide(user, application, ActiveTeams(user, s, now.ms), RolesById(s.roles, application.id),
             s.entitlements, now.ms, permission)
  }

  function Opens(identity: Option<Identity>, s: Snapshot, now: Stamp): Application -> bool {
    (a: Application) => Evaluate(identity, a.id, s, now, None).Granted?
  }

  function ListAccessible(identity: Option<Identity>, s: Snapshot, now: Stamp): seq<Application> {
    Filter(s.applications, Opens(identity, s, now))
  }

  // ---------------------------------------------------------------------
  // What the decision means

  /** The verified identity belongs to an active user, and the application
      and the user's organisation are open to them. */
  predicate Admitted(
    identity: Option<Identity>, applicationId: string, s: Snapshot, now: Stamp, u: User, a: Application)
  {
    && now.At?
    && identity.Some? && Verified(identity.value, now.ms) && Matches(identity.value, u)
    && u in s.users && u.status.ActiveUser?
    && a in s.applications && a.id == applicationId && a.status.Live? && u.population in a.populations
    && (u.population == ExternalPartner ==>
          exists o :: o in s.organisations && Some(o.id) == u.organisation && o.active)
  }

  /** Entitlement `e`, through its own role `r`, gives `u` the permission. */
  predicate Grants(
    e: Entitlement, r: Role, u: User, a: Application, s: Snapshot, now: int, permission: Option<string>)
  {
    && e in s.entitlements && e.application == a.id && InForce(e.window, now)
    && Applies(e, u, ActiveTeams(u, s, now))
    && r in s.roles && r.application == a.id && r.id == e.role
    && u.population in r.populations
    && ScopeAllows(e.scope, u)
    && (Filled(permission) ==> permission.value in r.permissions)
  }

  lemma GateAdmits(identity: Option<Identity>, applicationId: string, s: Snapshot, now: Stamp, u: User, a: Application)
    requires UniqueLookups(s)
    ensures Gate(identity, applicationId, s, now) == Ok((u, a)) <==> Admitted(identity, applicationId, s, now, u, a)
  {
    if now.At? && identity.Some? && Verified(identity.value, now.ms) {
      var account := Find(s.users, IsAccount(identity.value));
      FindFirst(s.users, IsAccount(identity.value));
      FindFirst(s.applications, HasId(applicationId));
      FindFirst(s.organisations, IsOrganisation(u.organisation));
      var application := Find(s.applications, HasId(applicationId));
      var organisation := Find(s.organisations, IsOrganisation(u.organisation));
      if Admitted(identity, applicationId, s, now, u, a) {
        SameUser(s, u, account.value);
        SameApplication(s, a, application.value);
        if u.population == ExternalPartner {
          var o :| o in s.organisations && Some(o.id) == u.organisation && o.active;
          SameOrganisation(s, o, organisation.value);
        }
      }
    }
  }

  lemma {:induction false} RolesByIdMembers(roles: seq<Role>, application: string)
    ensures forall id :: id in RolesById(roles, application) ==>
      var r := RolesById(roles, application)[id]; r in roles && r.id == id && r.application == application
    ensures forall r :: r in roles && r.application == application ==> r.id in RolesById(roles, application)
  {
    if roles == [] {
    } else {
      var init := roles[..|roles| - 1];
      RolesByIdMembers(init, application);
      assert roles == init + [roles[|roles| - 1]];
    }
  }

  lemma RoleFound(s: Snapshot, application: string, r: Role)
    requires UniqueRoles(s.roles) && r in s.roles && r.application == application
    ensures r.id in RolesById(s.roles, application) && RolesById(s.roles, application)[r.id] == r
  {
    RolesByIdMembers(s.roles, application);
    SameRole(s, r, RolesById(s.roles, application)[r.id]);
  }

  /** All the filter stages at once. */
  predicate Passes(
    e: Entitlement, user: User, application: string, teams: set<string>, roles: map<string, Role>, now: int,
    permission: Option<string>)
  {
    && IsCurrent(user, application, teams, now)(e)
    && FitsPopulation(roles, user.population)(e)
    && FitsScope(user)(e)
    && (Filled(permission) ==> Permits(roles, permission.value)(e))
  }

  function Permitted(
    user: User, application: string, teams: set<string>, roles: map<string, Role>, entitlements: seq<Entitlement>,
    now: int, permission: Option<string>): seq<Entitlement>
  {
    var current := Filter(entitlements, IsCurrent(user, application, teams, now));
    var fitting := Filter(current, FitsPopulation(roles, user.population));
    var scoped := Filter(fitting, FitsScope(user));
    if Filled(permission) then Filter(scoped, Permits(roles, permission.value)) else scoped
  }

  lemma PermittedMembers(
    user: User, application: string, teams: set<string>, roles: map<string, Role>, entitlements: seq<Entitlement>,
    now: int, permission: Option<string>)
    ensures forall e :: e in Permitted(user, application, teams, roles, entitlements, now, permission) <==>
      e in entitlements && Passes(e, user, application, teams, roles, now, permission)
  {
    var current := Filter(entitlements, IsCurrent(user, application, teams, now));
    var fitting := Filter(current, FitsPopulation(roles, user.population));
    var scoped := Filter(fitting, FitsScope(user));
    FilterKeeps(entitlements, IsCurrent(user, application, teams, now));
    FilterKeeps(current, FitsPopulation(roles, user.population));
    FilterKeeps(fitting, FitsScope(user));
    if Filled(permission) {
      FilterKeeps(scoped, Permits(roles, permission.value));
    }
  }
}
