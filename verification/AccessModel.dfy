/** The access snapshot: who exists, which applications and roles there are,
    and who was granted what. Optional text that is empty counts as absent,
    and an unreadable time stays visible as such. */
module AccessModel {
  import opened Common

  datatype Population = Employee | ExternalPartner
  datatype UserStatus = ActiveUser | SuspendedUser | DeprovisionedUser
  datatype ApplicationStatus = Live | Maintenance | Retired
  datatype Level = UserLevel | AdminLevel
  datatype PlatformRole =
    SuperAdmin | AccessAdmin | SystemsAdmin | ApplicationAdmin | FinanceAdmin | PeopleAdmin | Auditor

  datatype Stamp = Unreadable | At(ms: int)

  datatype Window = Window(startsAt: Option<Stamp>, expiresAt: Option<Stamp>, revoked: bool)

  datatype Identity = Identity(
    subject: string, issuer: string, population: Population, emailVerified: bool, verifiedAt: Stamp,
    workspaceDomain: Option<string>)

  datatype User = User(
    id: string, subject: string, issuer: string, population: Population, email: string, displayName: string,
    status: UserStatus, workspaceDomain: Option<string>, organisation: Option<string>,
    platformRoles: seq<PlatformRole>, sessionVersion: int)

  datatype Organisation = Organisation(id: string, name: string, active: bool)

  datatype Team = Team(id: string, name: string, description: string, active: bool)

  datatype Membership = Membership(team: string, user: string, window: Window)

  datatype Application = Application(
    id: string, slug: string, status: ApplicationStatus, populations: seq<Population>)

  datatype Role = Role(
    id: string, application: string, key: string, name: string, level: Level, permissions: seq<string>,
    populations: seq<Population>)

  datatype Subject = ToUser(user: string) | ToTeam(team: string)

  /** No scope at all is the scope that names nothing. */
  datatype Scope = Scope(all: bool, organisations: seq<string>)

  datatype Entitlement = Entitlement(
    id: string, application: string, role: string, subject: Subject, scope: Scope, window: Window,
    revokedReason: Option<string>, grantedBy: string, grantedAt: Stamp)

  datatype Snapshot = Snapshot(
    users: seq<User>, organisations: seq<Organisation>, teams: seq<Team>, memberships: seq<Membership>,
    applications: seq<Application>, roles: seq<Role>, entitlements: seq<Entitlement>)

  predicate Filled(text: Option<string>) {
    text.Some? && text.value != ""
  }

  /** Whether a membership or entitlement is in force at `now`. */
  predicate InForce(w: Window, now: int) {
    && !w.revoked
    && (w.startsAt.None? || (w.startsAt.value.At? && w.startsAt.value.ms <= now))
    && (w.expiresAt.None? || (w.expiresAt.value.At? && now < w.expiresAt.value.ms))
  }

  // ---------------------------------------------------------------------
  // What the policy validator establishes

  predicate UniqueOrganisations(s: seq<Organisation>) {
    forall i, j :: 0 <= i < j < |s| ==> s[i].id != s[j].id
  }

  predicate UniqueTeams(s: seq<Team>) {
    forall i, j :: 0 <= i < j < |s| ==> s[i].id != s[j].id
  }

  predicate UniqueApplications(s: seq<Application>) {
    forall i, j :: 0 <= i < j < |s| ==> s[i].id != s[j].id
  }

  predicate UniqueRoles(s: seq<Role>) {
    forall i, j :: 0 <= i < j < |s| ==> s[i].id != s[j].id
  }

  predicate UniqueEntitlements(s: seq<Entitlement>) {
    forall i, j :: 0 <= i < j < |s| ==> s[i].id != s[j].id
  }

  predicate UniqueIdentities(s: seq<User>) {
    forall i, j :: 0 <= i < j < |s| ==> s[i].subject != s[j].subject || s[i].issuer != s[j].issuer
  }

  /** What the evaluator looks entries up by is unique. */
  predicate UniqueLookups(s: Snapshot) {
    && UniqueIdentities(s.users)
    && UniqueOrganisations(s.organisations)
    && UniqueApplications(s.applications)
    && UniqueRoles(s.roles)
  }

  predicate Unique(s: Snapshot) {
    UniqueLookups(s) && UniqueTeams(s.teams) && UniqueEntitlements(s.entitlements)
  }

  predicate KnownOrganisation(s: Snapshot, id: string) {
    exists o :: o in s.organisations && o.id == id
  }

  predicate KnownTeam(s: Snapshot, id: string) {
    exists t :: t in s.teams && t.id == id
  }

  predicate KnownApplication(s: Snapshot, id: string) {
    exists a :: a in s.applications && a.id == id
  }

  /** The role an entitlement names exists and belongs to its application. */
  predicate RoleKnown(s: Snapshot, e: Entitlement) {
    exists r :: r in s.roles && r.id == e.role && r.application == e.application
  }

  predicate UserBound(s: Snapshot, u: User) {
    if u.population == Employee then Filled(u.workspaceDomain) && u.organisation.None?
    else u.workspaceDomain.None? && Filled(u.organisation) && KnownOrganisation(s, u.organisation.value)
  }

  predicate EntitlementResolved(s: Snapshot, e: Entitlement) {
    && KnownApplication(s, e.application)
    && RoleKnown(s, e)
    && (e.subject.ToTeam? ==> KnownTeam(s, e.subject.team))
    && (forall o :: o in e.scope.organisations ==> KnownOrganisation(s, o))
    && (e.scope.all ==> e.scope.organisations == [])
  }

  predicate Resolved(s: Snapshot) {
    && (forall u :: u in s.users ==> UserBound(s, u))
    && (forall m :: m in s.memberships ==> KnownTeam(s, m.team))
    && (forall r :: r in s.roles ==> KnownApplication(s, r.application))
    && (forall e :: e in s.entitlements ==> EntitlementResolved(s, e))
  }

  predicate ValidSnapshot(s: Snapshot) {
    Unique(s) && Resolved(s)
  }

  // ---------------------------------------------------------------------
  // Uniqueness, said of members rather than of positions

  lemma SameUser(s: Snapshot, a: User, b: User)
    requires UniqueLookups(s) && a in s.users && b in s.users
    requires a.subject == b.subject && a.issuer == b.issuer
    ensures a == b
  {
    var i :| 0 <= i < |s.users| && s.users[i] == a;
    var j :| 0 <= j < |s.users| && s.users[j] == b;
    assert i == j;
  }

  lemma SameOrganisation(s: Snapshot, a: Organisation, b: Organisation)
    requires UniqueLookups(s) && a in s.organisations && b in s.organisations && a.id == b.id
    ensures a == b
  {
    var i :| 0 <= i < |s.organisations| && s.organisations[i] == a;
    var j :| 0 <= j < |s.organisations| && s.organisations[j] == b;
    assert i == j;
  }

  lemma SameApplication(s: Snapshot, a: Application, b: Application)
    requires UniqueLookups(s) && a in s.applications && b in s.applications && a.id == b.id
    ensures a == b
  {
    var i :| 0 <= i < |s.applications| && s.applications[i] == a;
    var j :| 0 <= j < |s.applications| && s.applications[j] == b;
    assert i == j;
  }

  lemma SameRole(s: Snapshot, a: Role, b: Role)
    requires UniqueRoles(s.roles) && a in s.roles && b in s.roles && a.id == b.id
    ensures a == b
  {
    var i :| 0 <= i < |s.roles| && s.roles[i] == a;
    var j :| 0 <= j < |s.roles| && s.roles[j] == b;
    assert i == j;
  }
}
