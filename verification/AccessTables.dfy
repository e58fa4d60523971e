/** The access tables and the statements that change them. Every common
    table expression of a statement reads the tables as they were before it,
    and its changes take effect together; the role trigger then keeps the
    SuperPanel entitlement in step with the systems roles. */
module AccessTables {
  import opened Common
  import opened AccessModel

  type UserId = nat
  type AppId = nat

  /** SuperPanel and its two roles have fixed identifiers. */
  const SUPERPANEL: AppId := 0
  const SUPERPANEL_SLUG := "superpanel"
  const PANEL_ADMIN := 1

  datatype Person = Person(population: Population, status: UserStatus, email: string, displayName: string, bound: bool)

  datatype RoleRow = RoleRow(key: string, level: Level, employees: bool)

  /** `everyone` is the application's company-wide access policy. */
  datatype App = App(slug: string, active: bool, employees: bool, everyone: bool, roles: seq<RoleRow>)

  /** A team's entitlement has no holder. */
  datatype Grant = Grant(
    app: AppId, role: nat, holder: Option<UserId>, startsAt: Option<int>, expiresAt: Option<int>, revoked: bool)

  datatype Action =
    | UserInvited | EvergreenGranted | StatusChanged | RoleGranted | RoleRevoked | AccessChanged
    | AdminBootstrapped | BootstrapGranted | InvitationAccepted | PanelSynced | PanelRevoked

  /** The triggers' own events carry no request id. */
  datatype Audit = Audit(action: Action, request: Option<string>, subject: nat)

  datatype Db = Db(
    apps: seq<App>, people: map<UserId, Person>, roles: set<(UserId, PlatformRole)>, keys: set<string>,
    grants: seq<Grant>, audit: seq<Audit>)

  // ---------------------------------------------------------------------
  // Lookups

  /** The actor common table expression of every administrative statement. */
  predicate Administers(db: Db, u: UserId) {
    && u in db.people && db.people[u].population == Employee && db.people[u].status == ActiveUser
    && ((u, SuperAdmin) in db.roles || (u, AccessAdmin) in db.roles)
  }

  predicate Claims(db: Db, actor: UserId, key: string) {
    Administers(db, actor) && key !in db.keys
  }

  predicate EmployeeRow(db: Db, u: UserId) {
    u in db.people && db.people[u].population == Employee
  }

  predicate Holds(g: Grant, u: UserId, a: AppId) {
    g.holder == Some(u) && g.app == a && !g.revoked
  }

  predicate HoldsAny(grants: seq<Grant>, u: UserId, a: AppId) {
    exists g :: g in grants && Holds(g, u, a)
  }

  predicate InWindow(g: Grant, now: int) {
    (g.startsAt.None? || g.startsAt.value <= now) && (g.expiresAt.None? || g.expiresAt.value > now)
  }

  predicate HoldsNow(grants: seq<Grant>, u: UserId, a: AppId, now: int) {
    exists g :: g in grants && Holds(g, u, a) && InWindow(g, now)
  }

  function FindApp(apps: seq<App>, slug: string): (r: Option<AppId>)
    ensures r.Some? ==> r.value < |apps| && apps[r.value].slug == slug
    ensures r.None? ==> forall a :: 0 <= a < |apps| ==> apps[a].slug != slug
  {
    if apps == [] then None
    else if apps[|apps| - 1].slug == slug then Some(|apps| - 1)
    else FindApp(apps[..|apps| - 1], slug)
  }

  function LevelKey(level: Level): string {
    match level case UserLevel => "user" case AdminLevel => "admin"
  }

  predicate OffersLevel(r: RoleRow, level: Level) {
    r.key == LevelKey(level) && r.level == level && r.employees
  }

  function FindRole(roles: seq<RoleRow>, level: Level): (r: Option<nat>)
    ensures r.Some? ==> r.value < |roles| && OffersLevel(roles[r.value], level)
    ensures r.None? ==> forall i :: 0 <= i < |roles| ==> !OffersLevel(roles[i], level)
  {
    if roles == [] then None
    else if OffersLevel(roles[|roles| - 1], level) then Some(|roles| - 1)
    else FindRole(roles[..|roles| - 1], level)
  }

  // ---------------------------------------------------------------------
  // The role trigger

  predicate HasSystems(roles: set<(UserId, PlatformRole)>, u: UserId) {
    (u, SuperAdmin) in roles || (u, SystemsAdmin) in roles
  }

  predicate HoldsPanel(grants: seq<Grant>, u: UserId) {
    exists g :: g in grants && Holds(g, u, SUPERPANEL) && g.role == PANEL_ADMIN
  }

  function Revoked(grants: seq<Grant>, u: UserId, a: AppId): (r: seq<Grant>)
    ensures |r| == |grants|
    ensures forall i :: 0 <= i < |grants| ==>
      r[i] == if Holds(grants[i], u, a) then grants[i].(revoked := true) else grants[i]
  {
    if grants == [] then []
    else
      var last := grants[|grants| - 1];
      Revoked(grants[..|grants| - 1], u, a) + [if Holds(last, u, a) then last.(revoked := true) else last]
  }

  /** What the trigger leaves after a role row of `u` is inserted or updated. */
  function Synced(db: Db, u: UserId): Db {
    if HasSystems(db.roles, u) then
      if HoldsPanel(db.grants, u) then db
      else
        db.(grants := db.grants + [Grant(SUPERPANEL, PANEL_ADMIN, Some(u), None, None, false)],
            audit := db.audit + [Audit(PanelSynced, None, |db.grants|)])
    else if HoldsAny(db.grants, u, SUPERPANEL) then
      db.(grants := Revoked(db.grants, u, SUPERPANEL), audit := db.audit + [Audit(PanelRevoked, None, u)])
    else db
  }

  // ---------------------------------------------------------------------
  // The statements

  /** An application open to everyone, not already held, and with a user role. */
  predicate Evergreen(db: Db, u: UserId, now: int, a: AppId) {
    a < |db.apps| && db.apps[a].everyone && FindRole(db.apps[a].roles, UserLevel).Some?
    && !HoldsNow(db.grants, u, a, now)
  }

  function EvergreenGrants(db: Db, u: UserId, now: int, n: nat): seq<Grant>
    requires n <= |db.apps|
  {
    if n == 0 then []
    else
      EvergreenGrants(db, u, now, n - 1) +
      (if Evergreen(db, u, now, n - 1) then
         [Grant(n - 1, FindRole(db.apps[n - 1].roles, UserLevel).value, Some(u), None, None, false)]
       else [])
  }

  predicate AdminRow(r: RoleRow) {
    r.level == AdminLevel && r.employees
  }

  function AdminGrants(a: AppId, roles: seq<RoleRow>, u: UserId): seq<Grant> {
    if roles == [] then []
    else
      AdminGrants(a, roles[..|roles| - 1], u) +
      (if AdminRow(roles[|roles| - 1]) then [Grant(a, |roles| - 1, Some(u), None, None, false)] else [])
  }

  function BootstrapGrants(apps: seq<App>, u: UserId): seq<Grant> {
    if apps == [] then []
    else
      var a := |apps| - 1;
      BootstrapGrants(apps[..a], u) +
      (if apps[a].active && apps[a].employees then AdminGrants(a, apps[a].roles, u) else [])
  }

  function GrantEvents(action: Action, request: Option<string>, first: nat, count: nat): (r: seq<Audit>)
    ensures |r| == count
    ensures forall e :: e in r ==> e.action == action && e.request == request
    decreases count
  {
    if count == 0 then [] else [Audit(action, request, first)] + GrantEvents(action, request, first + 1, count - 1)
  }

  predicate Bound(db: Db, email: string) {
    exists u :: u in db.people && db.people[u].email == Lower(email) && db.people[u].bound
  }

  predicate EmailKnown(db: Db, email: string) {
    exists u :: u in db.people && db.people[u].email == Lower(email)
  }

  /** The row an upsert by e-mail inserts or updates. */
  predicate Upserts(db: Db, email: string, u: UserId) {
    if EmailKnown(db, email) then u in db.people && db.people[u].email == Lower(email) else u !in db.people
  }

  datatype Step =
    | Invite(actor: UserId, key: string, email: string, name: string, user: UserId, now: int)
    | SetStatus(actor: UserId, key: string, target: UserId, suspend: bool)
    | SetRole(actor: UserId, key: string, target: UserId, role: PlatformRole, enabled: bool)
    | SetAccess(actor: UserId, key: string, target: UserId, slug: string, level: Option<Level>)
    | Bootstrap(user: UserId, email: string, name: string)
    | SignIn(user: UserId)

  function StatusFor(suspend: bool): UserStatus {
    if suspend then SuspendedUser else ActiveUser
  }

  predicate ChangesStatus(db: Db, s: Step)
    requires s.SetStatus?
  {
    && Claims(db, s.actor, s.key) && s.target in db.people
    && (s.suspend ==> (s.target, SuperAdmin) !in db.roles)
    && db.people[s.target].status != StatusFor(s.suspend)
  }

  predicate ChangesRole(db: Db, s: Step)
    requires s.SetRole?
  {
    && Claims(db, s.actor, s.key) && EmployeeRow(db, s.target)
    && (s.enabled <==> (s.target, s.role) !in db.roles)
  }

  predicate ReachesApp(db: Db, s: Step)
    requires s.SetAccess?
  {
    && Claims(db, s.actor, s.key) && EmployeeRow(db, s.target)
    && FindApp(db.apps, s.slug).Some? && !db.apps[FindApp(db.apps, s.slug).value].everyone
  }

  predicate ChangesAccess(db: Db, s: Step)
    requires s.SetAccess?
  {
    && ReachesApp(db, s)
    && var a := FindApp(db.apps, s.slug).value;
       if s.level.Some? then FindRole(db.apps[a].roles, s.level.value).Some? else HoldsAny(db.grants, s.target, a)
  }

  predicate Invites(db: Db, s: Step)
    requires s.Invite?
  {
    Claims(db, s.actor, s.key) && !Bound(db, s.email)
  }

  function Invited(db: Db, s: Step): seq<Grant>
    requires s.Invite?
  {
    EvergreenGrants(db, s.user, s.now, |db.apps|)
  }

  /** The entitlement trigger refuses a SuperPanel user grant, which undoes
      the whole statement. */
  predicate Throws(db: Db, s: Step)
    requires s.Invite?
  {
    Invites(db, s) && Evergreen(db, s.user, s.now, SUPERPANEL)
  }

  function Keyed(db: Db, actor: UserId, key: string): Db {
    if Claims(db, actor, key) then db.(keys := db.keys + {key}) else db
  }

  function ApplyInvite(db: Db, s: Step): Db
    requires s.Invite?
  {
    if Throws(db, s) then db
    else if !Invites(db, s) then Keyed(db, s.actor, s.key)
    else
      var row := if s.user in db.people then db.people[s.user].(displayName := s.name)
                 else Person(Employee, ActiveUser, Lower(s.email), s.name, false);
      var granted := Invited(db, s);
      Keyed(db, s.actor, s.key).(
        people := db.people[s.user := row],
        grants := db.grants + granted,
        audit := db.audit + GrantEvents(EvergreenGranted, Some(s.key), |db.grants|, |granted|)
                 + [Audit(UserInvited, Some(s.key), s.user)])
  }

  function ApplyStatus(db: Db, s: Step): Db
    requires s.SetStatus?
  {
    var keyed := Keyed(db, s.actor, s.key);
    if ChangesStatus(db, s) then
      keyed.(people := db.people[s.target := db.people[s.target].(status := StatusFor(s.suspend))],
             audit := db.audit + [Audit(StatusChanged, Some(s.key), s.target)])
    else keyed
  }

  function WithRole(db: Db, s: Step): Db
    requires s.SetRole?
  {
    Keyed(db, s.actor, s.key).(
      roles := if s.enabled then db.roles + {(s.target, s.role)} else db.roles - {(s.target, s.role)},
      audit := db.audit + [Audit(if s.enabled then RoleGranted else RoleRevoked, Some(s.key), s.target)])
  }

  function ApplyRole(db: Db, s: Step): Db
    requires s.SetRole?
  {
    if ChangesRole(db, s) then Synced(WithRole(db, s), s.target) else Keyed(db, s.actor, s.key)
  }

  function ApplyAccess(db: Db, s: Step): Db
    requires s.SetAccess?
  {
    var keyed := Keyed(db, s.actor, s.key);
    if !ChangesAccess(db, s) then keyed
    else
      var a := FindApp(db.apps, s.slug).value;
      var left := Revoked(db.grants, s.target, a);
      keyed.(
        grants := if s.level.None? then left
                  else left + [Grant(a, FindRole(db.apps[a].roles, s.level.value).value, Some(s.target), None, None, false)],
        audit := db.audit + [Audit(AccessChanged, Some(s.key), s.target)])
  }

  function WithFirstAdmin(db: Db, s: Step): Db
    requires s.Bootstrap?
  {
    var granted := BootstrapGrants(db.apps, s.user);
    db.(people := db.people[s.user := Person(Employee, ActiveUser, Lower(s.email), s.name, true)],
        roles := db.roles + {(s.user, SuperAdmin)},
        grants := db.grants + granted,
        audit := db.audit + [Audit(AdminBootstrapped, None, s.user)]
                 + GrantEvents(BootstrapGranted, None, |db.grants|, |granted|))
  }

  /** What the guarded server actions and the tables' constraints let
      through. The early administrator check is not part of it: it may be
      stale by the time the statement runs. */
  predicate Enabled(db: Db, s: Step) {
    match s
    case Invite(_, _, email, _, u, _) => Upserts(db, email, u)
    case SetStatus(actor, _, target, suspend) => !(suspend && actor == target)
    case SetRole(actor, _, target, role, enabled) =>
      role in {AccessAdmin, SystemsAdmin} && !(role == AccessAdmin && !enabled && actor == target)
    case SetAccess(_, _, _, slug, _) => slug != SUPERPANEL_SLUG
    case Bootstrap(u, email, _) => u !in db.people && !EmailKnown(db, email)
    case SignIn(u) => u in db.people
  }

  function Apply(db: Db, s: Step): Db
    requires Enabled(db, s)
  {
    match s
    case Invite(_, _, _, _, _, _) => ApplyInvite(db, s)
    case SetStatus(_, _, _, _) => ApplyStatus(db, s)
    case SetRole(_, _, _, _, _) => ApplyRole(db, s)
    case SetAccess(_, _, _, _, _) => ApplyAccess(db, s)
    case Bootstrap(u, _, _) => Synced(WithFirstAdmin(db, s), u)
    case SignIn(u) =>
      db.(people := db.people[u := db.people[u].(bound := true)],
          audit := db.audit + [Audit(InvitationAccepted, None, u)])
  }

  // ---------------------------------------------------------------------
  // What the caller is told

  datatype Reply =
    | NotAdministrator | SuperAdminProtected | EmployeesOnly | OpenToEveryone | AlreadyBound | StatementFailed
    | Missing | Duplicate | Changed | Unchanged

  function Resolve(claimed: bool, changed: bool, missing: bool): Reply {
    if !claimed then Duplicate else if missing then Missing else if changed then Changed else Unchanged
  }

  function ReplyTo(db: Db, s: Step): Reply
    requires s.Invite? || s.SetStatus? || s.SetRole? || s.SetAccess?
  {
    var claimed := Claims(db, s.actor, s.key);
    if s.Invite? && Throws(db, s) then StatementFailed
    else if !Administers(db, s.actor) then NotAdministrator
    else
      match s
      case Invite(_, _, email, _, _, _) =>
        if Bound(db, email) then AlreadyBound else if claimed then Changed else Duplicate
      case SetStatus(_, _, target, suspend) =>
        if suspend && target in db.people && (target, SuperAdmin) in db.roles then SuperAdminProtected
        else Resolve(claimed, ChangesStatus(db, s), target !in db.people)
      case SetRole(_, _, target, _, _) =>
        if target in db.people && !EmployeeRow(db, target) then EmployeesOnly
        else Resolve(claimed, ChangesRole(db, s), target !in db.people)
      case SetAccess(_, _, target, slug, level) =>
        var a := FindApp(db.apps, slug);
        if a.Some? && db.apps[a.value].everyone then OpenToEveryone
        else
          Resolve(claimed, ChangesAccess(db, s),
                  !EmployeeRow(db, target) || a.None?
                  || (level.Some? && FindRole(db.apps[a.value].roles, level.value).None?))
  }
}
