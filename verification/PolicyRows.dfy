/** The policy validator: nine tables of rows become one access snapshot, or
    nothing. */
module PolicyRows {
  import opened Common
  import opened Lists
  import opened AccessModel
  import opened Evaluator
  import opened AccessLaws
  import opened PolicyFields

  /** The application registry is read by its own parser; its answer is taken
      as it is. */
  datatype Tables = Tables(
    references: seq<Row>, users: seq<Row>, platformRoles: seq<Row>, organisations: seq<Row>, teams: seq<Row>,
    memberships: seq<Row>, registry: Option<seq<Application>>, roles: seq<Row>, entitlements: seq<Row>)

  // ---------------------------------------------------------------------
  // What is accepted

  function IdOf(x: Syntax): Row -> Option<string> { (row: Row) => RequiredId(x, row, "id") }
  function HoldingOf(x: Syntax, known: set<string>): Row -> Option<Holding> { (row: Row) => ReadHolding(x, known, row) }
  function UserOf(x: Syntax, known: set<string>, held: map<string, seq<PlatformRole>>): Row -> Option<User> {
    (row: Row) => ReadUser(x, known, held, row)
  }
  function OrganisationOf(x: Syntax): Row -> Option<Organisation> { (row: Row) => ReadOrganisation(x, row) }
  function TeamOf(x: Syntax): Row -> Option<Team> { (row: Row) => ReadTeam(x, row) }
  function MembershipOf(x: Syntax, known: set<string>): Row -> Option<Membership> {
    (row: Row) => ReadMembership(x, known, row)
  }
  function AppRoleOf(x: Syntax): Row -> Option<Role> { (row: Row) => ReadRole(x, row) }
  function EntitlementOf(x: Syntax, known: set<string>): Row -> Option<Entitlement> {
    (row: Row) => ReadEntitlement(x, known, row)
  }

  function IsFor(user: string): Holding -> bool { (h: Holding) => h.user == user }
  function RoleHeld(h: Holding): PlatformRole { h.role }

  /** One user's platform roles, in row order. */
  function HeldBy(holdings: seq<Holding>, user: string): seq<PlatformRole> {
    Map(Filter(holdings, IsFor(user)), RoleHeld)
  }

  function Holders(holdings: seq<Holding>): set<string> {
    set h | h in holdings :: h.user
  }

  function HeldMap(holdings: seq<Holding>): map<string, seq<PlatformRole>> {
    map u | u in Holders(holdings) :: HeldBy(holdings, u)
  }

  /** Row by row, the tables say `s`. */
  predicate Reads(x: Syntax, t: Tables, s: Snapshot) {
    var ids := ReadAll(t.references, IdOf(x));
    && ids.Some? && |Elements(ids.value)| == |ids.value|
    && var known := Elements(ids.value);
       var holdings := ReadAll(t.platformRoles, HoldingOf(x, known));
    && holdings.Some?
    && ReadAll(t.users, UserOf(x, known, HeldMap(holdings.value))) == Some(s.users)
    && ReadAll(t.organisations, OrganisationOf(x)) == Some(s.organisations)
    && ReadAll(t.teams, TeamOf(x)) == Some(s.teams)
    && t.registry == Some(s.applications)
    && ReadAll(t.memberships, MembershipOf(x, known)) == Some(s.memberships)
    && ReadAll(t.roles, AppRoleOf(x)) == Some(s.roles)
    && ReadAll(t.entitlements, EntitlementOf(x, known)) == Some(s.entitlements)
  }

  function IdentityKey(u: User): string {
    u.issuer + "\0" + u.subject
  }

  predicate UniqueKeys(users: seq<User>) {
    forall i, j :: 0 <= i < j < |users| ==> IdentityKey(users[i]) != IdentityKey(users[j])
  }

  predicate AllUnique(s: Snapshot) {
    && UniqueKeys(s.users)
    && UniqueOrganisations(s.organisations) && UniqueTeams(s.teams) && UniqueApplications(s.applications)
    && UniqueRoles(s.roles) && UniqueEntitlements(s.entitlements)
  }

  predicate EntitlementRefers(x: Syntax, s: Snapshot, e: Entitlement) {
    && KnownApplication(s, e.application) && RoleKnown(s, e)
    && (e.subject.ToTeam? ==> KnownTeam(s, e.subject.team))
    && forall o :: o in e.scope.organisations ==> x.isUuid(o) && KnownOrganisation(s, o)
  }

  predicate Refers(x: Syntax, s: Snapshot) {
    && (forall a :: a in s.applications ==> x.isUuid(a.id))
    && (forall u :: u in s.users && u.organisation.Some? ==> KnownOrganisation(s, u.organisation.value))
    && (forall m :: m in s.memberships ==> KnownTeam(s, m.team))
    && (forall r :: r in s.roles ==> KnownApplication(s, r.application))
    && (forall e :: e in s.entitlements ==> EntitlementRefers(x, s, e))
  }

  /** The rows read as `s`, and `s` meets the integrity rules. */
  predicate Accepts(x: Syntax, t: Tables, s: Snapshot) {
    Reads(x, t, s) && AllUnique(s) && Refers(x, s)
  }

  /** The tables can say only one thing. */
  lemma ReadsOnce(x: Syntax, t: Tables, a: Snapshot, b: Snapshot)
    requires Reads(x, t, a) && Reads(x, t, b)
    ensures a == b
  {
  }

  // ---------------------------------------------------------------------
  // The validator

  function Assigned(held: map<string, seq<PlatformRole>>, user: string): seq<PlatformRole> {
    if user in held then held[user] else []
  }

  lemma HeldByNext(holdings: seq<Holding>, h: Holding, u: string)
    ensures HeldBy(holdings + [h], u) == HeldBy(holdings, u) + (if h.user == u then [h.role] else [])
  {
    FilterConcat(holdings, [h], IsFor(u));
    MapConcat(Filter(holdings, IsFor(u)), Filter([h], IsFor(u)), RoleHeld);
    assert Filter([h], IsFor(u)) == if h.user == u then [h] else [];
  }

  lemma NoneHeld(holdings: seq<Holding>, u: string)
    ensures u !in Holders(holdings) ==> HeldBy(holdings, u) == []
  {
    var kept := Filter(holdings, IsFor(u));
    FilterKeeps(holdings, IsFor(u));
    if kept != [] {
      assert kept[0] in kept;
    }
  }

  lemma HoldersNext(holdings: seq<Holding>, h: Holding)
    ensures Holders(holdings + [h]) == Holders(holdings) + {h.user}
  {
    assert forall g :: g in holdings + [h] <==> g in holdings || g == h;
  }

  lemma HeldNext(holdings: seq<Holding>, h: Holding)
    ensures HeldMap(holdings + [h]) ==
      HeldMap(holdings)[h.user := Assigned(HeldMap(holdings), h.user) + [h.role]]
  {
    hide HeldBy, Holders;
    var after := HeldMap(holdings + [h]);
    var want := HeldMap(holdings)[h.user := Assigned(HeldMap(holdings), h.user) + [h.role]];
    HoldersNext(holdings, h);
    NoneHeld(holdings, h.user);
    assert after.Keys == want.Keys;
    forall u | u in after ensures after[u] == want[u] {
      HeldByNext(holdings, h, u);
    }
  }

  method GatherOne(held: map<string, seq<PlatformRole>>, ghost done: seq<Holding>, h: Holding)
    returns (r: map<string, seq<PlatformRole>>)
    requires held == HeldMap(done)
    ensures r == HeldMap(done + [h])
  {
    HeldNext(done, h);
    r := held[h.user := Assigned(held, h.user) + [h.role]];
  }

  method GatherRoles(x: Syntax, known: set<string>, rows: seq<Row>) returns (r: Option<map<string, seq<PlatformRole>>>)
    ensures r.Some? <==> ReadAll(rows, HoldingOf(x, known)).Some?
    ensures r.Some? ==> r.value == HeldMap(ReadAll(rows, HoldingOf(x, known)).value)
  {
    var held: map<string, seq<PlatformRole>> := map[];
    ghost var done: seq<Holding> := [];
    for i := 0 to |rows|
      invariant |done| == i
      invariant forall k :: 0 <= k < i ==> ReadHolding(x, known, rows[k]) == Some(done[k])
      invariant held == HeldMap(done)
    {
      var h := ReadHolding(x, known, rows[i]);
      if h.None? {
        ReadAllRows(rows, HoldingOf(x, known));
        return None;
      }
      held := GatherOne(held, done, h.value);
      done := done + [h.value];
    }
    AllRead(rows, HoldingOf(x, known), done);
    r := Some(held);
  }

  lemma AllRead<T>(rows: seq<Row>, read: Row -> Option<T>, items: seq<T>)
    requires |items| == |rows| && forall k :: 0 <= k < |rows| ==> read(rows[k]) == Some(items[k])
    ensures ReadAll(rows, read) == Some(items)
  {
    ReadAllRows(rows, read);
    assert ReadAll(rows, read).value == items;
  }

  function OrganisationId(o: Organisation): string { o.id }
  function TeamId(t: Team): string { t.id }
  function ApplicationId(a: Application): string { a.id }

  lemma KeysUnique<T>(items: seq<T>, key: T -> string)
    ensures |Elements(Map(items, key))| == |items| <==>
      forall i, j :: 0 <= i < j < |items| ==> key(items[i]) != key(items[j])
  {
    MapMembers(items, key);
    NoRepeats(Map(items, key));
    assert forall i :: 0 <= i < |items| ==> Map(items, key)[i] == key(items[i]);
  }

  predicate CheckUnique(s: Snapshot) {
    && |Elements(Map(s.users, IdentityKey))| == |s.users|
    && |Elements(Map(s.organisations, OrganisationId))| == |s.organisations|
    && |Elements(Map(s.teams, TeamId))| == |s.teams|
    && |Elements(Map(s.applications, ApplicationId))| == |s.applications|
    && |Elements(Map(s.roles, RoleId))| == |s.roles|
    && |Elements(Map(s.entitlements, EntitlementId))| == |s.entitlements|
  }

  /** Counting distinct keys finds every repeat. */
  lemma CheckUniqueIff(s: Snapshot)
    ensures CheckUnique(s) <==> AllUnique(s)
  {
    KeysUnique(s.users, IdentityKey);
    KeysUnique(s.organisations, OrganisationId);
    KeysUnique(s.teams, TeamId);
    KeysUnique(s.applications, ApplicationId);
    KeysUnique(s.roles, RoleId);
    KeysUnique(s.entitlements, EntitlementId);
  }

  /** The roles by id; a later role with the same id wins. */
  function ById(roles: seq<Role>): map<string, Role> {
    if roles == [] then map[] else ById(roles[..|roles| - 1])[roles[|roles| - 1].id := roles[|roles| - 1]]
  }

  lemma {:induction false} ByIdMembers(roles: seq<Role>)
    ensures forall id :: id in ById(roles) ==> ById(roles)[id] in roles && ById(roles)[id].id == id
    ensures forall r :: r in roles ==> r.id in ById(roles)
  {
    if roles == [] {
    } else {
      var init := roles[..|roles| - 1];
      ByIdMembers(init);
      assert roles == init + [roles[|roles| - 1]];
    }
  }

  lemma RoleKnownIff(s: Snapshot, e: Entitlement)
    requires UniqueRoles(s.roles)
    ensures RoleKnown(s, e) <==> e.role in ById(s.roles) && ById(s.roles)[e.role].application == e.application
  {
    ByIdMembers(s.roles);
    if r :| r in s.roles && r.id == e.role && r.application == e.application {
      SameRole(s, r, ById(s.roles)[e.role]);
    }
  }

  method CheckEntitlement(
    x: Syntax, s: Snapshot, e: Entitlement, organisations: set<string>, teams: set<string>,
    applications: set<string>, roles: map<string, Role>) returns (ok: bool)
    requires forall id :: id in organisations <==> KnownOrganisation(s, id)
    requires forall id :: id in teams <==> KnownTeam(s, id)
    requires forall id :: id in applications <==> KnownApplication(s, id)
    requires UniqueRoles(s.roles) && roles == ById(s.roles)
    ensures ok <==> EntitlementRefers(x, s, e)
  {
    RoleKnownIff(s, e);
    if e.application !in applications || e.role !in roles || roles[e.role].application != e.application { return false; }
    if e.subject.ToTeam? && e.subject.team !in teams { return false; }
    for i := 0 to |e.scope.organisations|
      invariant forall k :: 0 <= k < i ==>
        x.isUuid(e.scope.organisations[k]) && KnownOrganisation(s, e.scope.organisations[k])
    {
      var o := e.scope.organisations[i];
      if !x.isUuid(o) || o !in organisations {
        assert o in e.scope.organisations;
        return false;
      }
    }
    ok := true;
  }

  method CheckReferences(x: Syntax, s: Snapshot) returns (ok: bool)
    requires UniqueRoles(s.roles)
    ensures ok <==> Refers(x, s)
  {
    var organisations := set o | o in s.organisations :: o.id;
    var teams := set t | t in s.teams :: t.id;
    var applications := set a | a in s.applications :: a.id;
    if a :| a in s.applications && !x.isUuid(a.id) { return false; }
    for i := 0 to |s.users|
      invariant forall k :: 0 <= k < i ==>
        s.users[k].organisation.Some? ==> KnownOrganisation(s, s.users[k].organisation.value)
    {
      if s.users[i].organisation.Some? && s.users[i].organisation.value !in organisations { return false; }
    }
    for i := 0 to |s.memberships|
      invariant forall k :: 0 <= k < i ==> KnownTeam(s, s.memberships[k].team)
    {
      if s.memberships[i].team !in teams { return false; }
    }
    for i := 0 to |s.roles|
      invariant forall k :: 0 <= k < i ==> KnownApplication(s, s.roles[k].application)
    {
      if s.roles[i].application !in applications { return false; }
    }
    for i := 0 to |s.entitlements|
      invariant forall k :: 0 <= k < i ==> EntitlementRefers(x, s, s.entitlements[k])
    {
      var refers := CheckEntitlement(x, s, s.entitlements[i], organisations, teams, applications, ById(s.roles));
      if !refers { return false; }
    }
    ok := true;
  }

  function ReadTables(x: Syntax, t: Tables, known: set<string>, held: map<string, seq<PlatformRole>>): Option<Snapshot> {
    var users := ReadAll(t.users, UserOf(x, known, held));
    var organisations := ReadAll(t.organisations, OrganisationOf(x));
    var teams := ReadAll(t.teams, TeamOf(x));
    var memberships := ReadAll(t.memberships, MembershipOf(x, known));
    var roles := ReadAll(t.roles, AppRoleOf(x));
    var entitlements := ReadAll(t.entitlements, EntitlementOf(x, known));
    if users.None? || organisations.None? || teams.None? || t.registry.None? || memberships.None? || roles.None?
      || entitlements.None? then None
    else
      Some(Snapshot(users.value, organisations.value, teams.value, memberships.value, t.registry.value, roles.value,
                    entitlements.value))
  }

  /** Accepts exactly the tables that meet the integrity rules, and returns
      what they say, row by row. */
  method ParseAccessPolicyRows(x: Syntax, t: Tables) returns (r: Option<Snapshot>)
    ensures r.Some? ==> Accepts(x, t, r.value)
    ensures r.None? ==> forall s :: !Accepts(x, t, s)
  {
    var ids := ReadAll(t.references, IdOf(x));
    if ids.None? || |Elements(ids.value)| != |ids.value| { return None; }
    var known := Elements(ids.value);
    var held := GatherRoles(x, known, t.platformRoles);
    if held.None? { return None; }
    var read := ReadTables(x, t, known, held.value);
    if read.None? { return None; }
    assert Reads(x, t, read.value);
    forall s | Reads(x, t, s) ensures s == read.value {
      ReadsOnce(x, t, s, read.value);
    }
    CheckUniqueIff(read.value);
    if !CheckUnique(read.value) { return None; }
    var refers := CheckReferences(x, read.value);
    if !refers { return None; }
    r := read;
  }

  // ---------------------------------------------------------------------
  // What acceptance establishes

  lemma KeysGiveIdentities(users: seq<User>)
    requires UniqueKeys(users)
    ensures UniqueIdentities(users)
  {
    forall i, j | 0 <= i < j < |users| ensures users[i].subject != users[j].subject || users[i].issuer != users[j].issuer {
      assert IdentityKey(users[i]) != IdentityKey(users[j]);
    }
  }

  lemma ReadUserBound(x: Syntax, known: set<string>, held: map<string, seq<PlatformRole>>, row: Row)
    requires ReadUser(x, known, held, row).Some?
    ensures
      var u := ReadUser(x, known, held, row).value;
      && u.id in known && (u.population != Employee ==> u.platformRoles == [])
      && (if u.population == Employee then Filled(u.workspaceDomain) && u.organisation.None?
          else u.workspaceDomain.None? && Filled(u.organisation))
  {
  }

  lemma AcceptedUserBound(x: Syntax, t: Tables, s: Snapshot, u: User)
    requires Accepts(x, t, s) && u in s.users
    ensures UserBound(s, u)
  {
    var known := Elements(ReadAll(t.references, IdOf(x)).value);
    var held := HeldMap(ReadAll(t.platformRoles, HoldingOf(x, known)).value);
    ReadAllRows(t.users, UserOf(x, known, held));
    var i :| 0 <= i < |s.users| && s.users[i] == u;
    ReadUserBound(x, known, held, t.users[i]);
  }

  lemma AcceptedEntitlement(x: Syntax, t: Tables, s: Snapshot, e: Entitlement)
    requires Accepts(x, t, s) && e in s.entitlements
    ensures EntitlementResolved(s, e)
  {
    var known := Elements(ReadAll(t.references, IdOf(x)).value);
    ReadAllRows(t.entitlements, EntitlementOf(x, known));
    var i :| 0 <= i < |s.entitlements| && s.entitlements[i] == e;
    assert ReadEntitlement(x, known, t.entitlements[i]) == Some(e);
    assert EntitlementRefers(x, s, e);
  }

  /** Every accepted snapshot is one the evaluator's guarantees hold of. */
  lemma AcceptedIsValid(x: Syntax, t: Tables, s: Snapshot)
    requires Accepts(x, t, s)
    ensures ValidSnapshot(s)
  {
    KeysGiveIdentities(s.users);
    forall u | u in s.users ensures UserBound(s, u) {
      AcceptedUserBound(x, t, s, u);
    }
    forall e | e in s.entitlements ensures EntitlementResolved(s, e) {
      AcceptedEntitlement(x, t, s, e);
    }
  }

  /** On an accepted snapshot no decision is ever that a role is invalid. */
  lemma AcceptedNeverRoleInvalid(
    x: Syntax, t: Tables, s: Snapshot, identity: Option<Identity>, applicationId: string, now: Stamp,
    permission: Option<string>)
    requires Accepts(x, t, s)
    ensures Evaluate(identity, applicationId, s, now, permission) != Denied(RoleInvalid)
  {
    AcceptedIsValid(x, t, s);
    AllowedIff(identity, applicationId, s, now, permission);
  }

  /** Accepted users are the user rows, one for one; each is known, and holds
      exactly the platform roles its rows give it, once each. */
  lemma AcceptedUsersAreRows(x: Syntax, t: Tables, s: Snapshot, i: nat)
    requires Accepts(x, t, s) && i < |t.users|
    ensures |s.users| == |t.users| && RequiredId(x, t.users[i], "id") == Some(s.users[i].id)
    ensures
      var known := Elements(ReadAll(t.references, IdOf(x)).value);
      var holdings := ReadAll(t.platformRoles, HoldingOf(x, known)).value;
      && s.users[i].id in known
      && (forall role :: role in s.users[i].platformRoles <==> Holding(s.users[i].id, role) in holdings)
  {
    var known := Elements(ReadAll(t.references, IdOf(x)).value);
    var holdings := ReadAll(t.platformRoles, HoldingOf(x, known)).value;
    ReadAllRows(t.users, UserOf(x, known, HeldMap(holdings)));
    assert ReadUser(x, known, HeldMap(holdings), t.users[i]) == Some(s.users[i]);
    HeldMembers(holdings, s.users[i].id);
  }

  lemma HeldMember(holdings: seq<Holding>, u: string, role: PlatformRole)
    ensures role in HeldBy(holdings, u) <==> Holding(u, role) in holdings
  {
    var kept := Filter(holdings, IsFor(u));
    FilterKeeps(holdings, IsFor(u));
    MapMembers(kept, RoleHeld);
    if Holding(u, role) in holdings {
      assert Holding(u, role) in kept && RoleHeld(Holding(u, role)) == role;
    }
    if h :| h in kept && RoleHeld(h) == role {
      assert h == Holding(u, role);
    }
  }

  lemma HeldMembers(holdings: seq<Holding>, u: string)
    ensures forall role :: role in Distinct(Assigned(HeldMap(holdings), u)) <==> Holding(u, role) in holdings
  {
    NoneHeld(holdings, u);
    assert Assigned(HeldMap(holdings), u) == HeldBy(holdings, u);
    DistinctElements(HeldBy(holdings, u));
    forall role ensures role in Distinct(HeldBy(holdings, u)) <==> Holding(u, role) in holdings {
      HeldMember(holdings, u, role);
    }
  }

  // ---------------------------------------------------------------------
  // User ids

  function KnownIds(x: Syntax, t: Tables): set<string>
    requires ReadAll(t.references, IdOf(x)).Some?
  {
    Elements(ReadAll(t.references, IdOf(x)).value)
  }

  function HeldRoles(x: Syntax, t: Tables): map<string, seq<PlatformRole>>
    requires ReadAll(t.references, IdOf(x)).Some?
    requires ReadAll(t.platformRoles, HoldingOf(x, KnownIds(x, t))).Some?
  {
    HeldMap(ReadAll(t.platformRoles, HoldingOf(x, KnownIds(x, t))).value)
  }

  lemma ReadAllConcat<T>(rows: seq<Row>, row: Row, read: Row -> Option<T>)
    ensures ReadAll(rows + [row], read) ==
      if ReadAll(rows, read).Some? && read(row).Some? then Some(ReadAll(rows, read).value + [read(row).value]) else None
  {
    var all := rows + [row];
    ReadAllRows(rows, read);
    ReadAllRows(all, read);
    assert all[|rows|] == row && forall i :: 0 <= i < |rows| ==> all[i] == rows[i];
    if ReadAll(rows, read).Some? && read(row).Some? {
      AllRead(all, read, ReadAll(rows, read).value + [read(row).value]);
    }
  }

  lemma KeysConcat(users: seq<User>, u: User)
    requires UniqueKeys(users)
    ensures UniqueKeys(users + [u]) <==> forall v :: v in users ==> IdentityKey(v) != IdentityKey(u)
  {
    var all := users + [u];
    assert all[|users|] == u;
    if UniqueKeys(all) {
      forall v | v in users ensures IdentityKey(v) != IdentityKey(u) {
        var i :| 0 <= i < |users| && users[i] == v;
        assert all[i] == v && IdentityKey(all[i]) != IdentityKey(all[|users|]);
      }
    }
  }

  lemma MoreUsersRefer(x: Syntax, s: Snapshot, u: User)
    requires Refers(x, s)
    ensures Refers(x, s.(users := s.users + [u])) <==>
      (u.organisation.Some? ==> KnownOrganisation(s, u.organisation.value))
  {
    var more := s.(users := s.users + [u]);
    assert u in more.users;
    forall e | e in s.entitlements ensures EntitlementRefers(x, more, e) {
      assert EntitlementRefers(x, s, e);
    }
  }

  lemma WiderReads(x: Syntax, t: Tables, s: Snapshot, row: Row, more: Snapshot)
    requires Reads(x, t, s)
    ensures
      var read := ReadUser(x, KnownIds(x, t), HeldRoles(x, t), row);
      Reads(x, t.(users := t.users + [row]), more) <==> read.Some? && more == s.(users := s.users + [read.value])
  {
    ReadAllConcat(t.users, row, UserOf(x, KnownIds(x, t), HeldRoles(x, t)));
  }

  predicate FitsAsUser(s: Snapshot, u: User) {
    && (forall v :: v in s.users ==> IdentityKey(v) != IdentityKey(u))
    && (u.organisation.Some? ==> KnownOrganisation(s, u.organisation.value))
  }

  lemma WiderAccepts(x: Syntax, s: Snapshot, u: User)
    requires AllUnique(s) && Refers(x, s)
    ensures
      var more := s.(users := s.users + [u]);
      AllUnique(more) && Refers(x, more) <==> FitsAsUser(s, u)
  {
    KeysConcat(s.users, u);
    MoreUsersRefer(x, s, u);
  }

  predicate ReadsAndFits(x: Syntax, t: Tables, s: Snapshot, row: Row)
    requires Reads(x, t, s)
  {
    var read := ReadUser(x, KnownIds(x, t), HeldRoles(x, t), row);
    read.Some? && FitsAsUser(s, read.value)
  }

  lemma MoreUserFits(x: Syntax, t: Tables, s: Snapshot, row: Row, more: Snapshot)
    requires Accepts(x, t, s)
    requires Reads(x, t.(users := t.users + [row]), more) && AllUnique(more) && Refers(x, more)
    ensures ReadsAndFits(x, t, s, row)
    ensures more == s.(users := s.users + [ReadUser(x, KnownIds(x, t), HeldRoles(x, t), row).value])
  {
    WiderReads(x, t, s, row, more);
    WiderAccepts(x, s, ReadUser(x, KnownIds(x, t), HeldRoles(x, t), row).value);
  }

  lemma MoreUserAccepted(x: Syntax, t: Tables, s: Snapshot, row: Row) returns (more: Snapshot)
    requires Accepts(x, t, s) && ReadsAndFits(x, t, s, row)
    ensures Accepts(x, t.(users := t.users + [row]), more)
    ensures more == s.(users := s.users + [ReadUser(x, KnownIds(x, t), HeldRoles(x, t), row).value])
  {
    var u := ReadUser(x, KnownIds(x, t), HeldRoles(x, t), row).value;
    more := s.(users := s.users + [u]);
    WiderReads(x, t, s, row, more);
    WiderAccepts(x, s, u);
  }

  /** One more user row is accepted exactly when it reads, its identity is
      new, and its organisation exists. That its user id already occurs
      plays no part: user ids may repeat. */
  lemma OneMoreUserIff(x: Syntax, t: Tables, s: Snapshot, row: Row)
    requires Accepts(x, t, s)
    ensures (exists more :: Accepts(x, t.(users := t.users + [row]), more)) <==> ReadsAndFits(x, t, s, row)
  {
    if ReadsAndFits(x, t, s, row) {
      var more := MoreUserAccepted(x, t, s, row);
    }
    forall more | Accepts(x, t.(users := t.users + [row]), more) ensures ReadsAndFits(x, t, s, row) {
      MoreUserFits(x, t, s, row, more);
    }
  }

  const SAMPLE_SYNTAX := Syntax(t => t, t => t, t => true, t => true, t => true, t => true, t => Unreadable, v => Some(1))

  const SAMPLE_APPLICATION := Application("p", "app", Live, [Employee])

  const SAMPLE_USER := User("u", "a", "i", Employee, "e", "n", ActiveUser, Some("d"), None, [], 1)

  const SAMPLE := Snapshot([SAMPLE_USER], [], [], [], [SAMPLE_APPLICATION], [], [])

  function SampleRow(subject: string): Row {
    map["population" := Text("employee"), "status" := Text("active"), "email" := Text("e"),
        "workspace_domain" := Text("d"), "session_version" := Other(1), "id" := Text("u"),
        "identity_subject" := Text(subject), "identity_issuer" := Text("i"), "display_name" := Text("n")]
  }

  function SampleTables(users: seq<Row>): Tables {
    Tables([map["id" := Text("u")]], users, [], [], [], [], Some([SAMPLE_APPLICATION]), [], [])
  }

  lemma SampleReads(subject: string)
    requires subject != ""
    ensures ReadUser(SAMPLE_SYNTAX, {"u"}, map[], SampleRow(subject)) == Some(SAMPLE_USER.(subject := subject))
  {
  }

  lemma SampleKnown(users: seq<Row>)
    ensures ReadAll(SampleTables(users).references, IdOf(SAMPLE_SYNTAX)) == Some(["u"])
    ensures Elements(["u"]) == {"u"} && HeldMap([]) == map[]
  {
    AllRead(SampleTables(users).references, IdOf(SAMPLE_SYNTAX), ["u"]);
  }

  lemma SampleAccepted()
    ensures Accepts(SAMPLE_SYNTAX, SampleTables([SampleRow("a")]), SAMPLE)
  {
    hide ReadUser;
    SampleKnown([SampleRow("a")]);
    SampleReads("a");
    AllRead([SampleRow("a")], UserOf(SAMPLE_SYNTAX, {"u"}, map[]), [SAMPLE_USER]);
  }

  lemma SampleFits()
    requires Reads(SAMPLE_SYNTAX, SampleTables([SampleRow("a")]), SAMPLE)
    ensures ReadsAndFits(SAMPLE_SYNTAX, SampleTables([SampleRow("a")]), SAMPLE, SampleRow("b"))
    ensures ReadUser(SAMPLE_SYNTAX, KnownIds(SAMPLE_SYNTAX, SampleTables([SampleRow("a")])),
                     HeldRoles(SAMPLE_SYNTAX, SampleTables([SampleRow("a")])), SampleRow("b")).value.id == "u"
  {
    hide ReadUser;
    SampleKnown([SampleRow("a")]);
    SampleReads("b");
    assert IdentityKey(SAMPLE_USER)[2] == 'a' && IdentityKey(SAMPLE_USER.(subject := "b"))[2] == 'b';
  }

  /** For example: two identities of one user, accepted as two users. */
  lemma TwoIdentitiesOneUser() returns (x: Syntax, t: Tables, s: Snapshot)
    ensures Accepts(x, t, s) && |s.users| == 2 && s.users[0].id == s.users[1].id
  {
    SampleAccepted();
    SampleFits();
    x := SAMPLE_SYNTAX;
    s := MoreUserAccepted(x, SampleTables([SampleRow("a")]), SAMPLE, SampleRow("b"));
    t := SampleTables([SampleRow("a")]).(users := SampleTables([SampleRow("a")]).users + [SampleRow("b")]);
  }
}
