/** What the validator accepts, said on the columns of the rows: a row reads as
    an entry if and only if its columns say that entry, and the tables are
    accepted as a snapshot if and only if row by row they say it and the
    integrity rules hold. */
module PolicyReading {
  import opened Common
  import opened Lists
  import opened AccessModel
  import opened PolicyFields
  import opened PolicyRows

  // ---------------------------------------------------------------------
  // Columns

  /** The column holds the text `t`, blanks around it aside. */
  ghost predicate Says(x: Syntax, row: Row, key: string, t: string) {
    key in row && row[key].Text? && x.trim(row[key].text) == t && t != ""
  }

  ghost predicate Empty(row: Row, key: string) {
    key !in row || row[key] == Absent || row[key] == Text("")
  }

  ghost predicate SaysMaybe(x: Syntax, row: Row, key: string, o: Option<string>) {
    match o
    case None => Empty(row, key)
    case Some(t) => Says(x, row, key, t) && row[key] != Text("")
  }

  ghost predicate SaysId(x: Syntax, row: Row, key: string, t: string) {
    Says(x, row, key, t) && x.isUuid(t)
  }

  ghost predicate SaysMaybeId(x: Syntax, row: Row, key: string, o: Option<string>) {
    SaysMaybe(x, row, key, o) && (o.Some? ==> x.isUuid(o.value))
  }

  ghost predicate SaysFlag(row: Row, key: string, on: bool) {
    key in row && (row[key] == Flag(on) || row[key] == Text(if on then "true" else "false"))
  }

  ghost predicate SaysTime(x: Syntax, row: Row, key: string, time: Option<Stamp>) {
    match time
    case None => Empty(row, key)
    case Some(t) =>
      && t != Unreadable && key in row
      && (row[key] == Moment(t) || (row[key].Text? && row[key].text != "" && x.time(row[key].text) == t))
  }

  ghost predicate SaysTexts(x: Syntax, row: Row, key: string, texts: seq<string>) {
    && key in row && row[key].Items? && |row[key].items| == |texts|
    && forall i :: 0 <= i < |texts| ==>
         row[key].items[i].Text? && texts[i] != "" && x.trim(row[key].items[i].text) == texts[i]
  }

  lemma TextIff(x: Syntax, row: Row, key: string, t: string)
    ensures RequiredText(x, row, key) == Some(t) <==> Says(x, row, key, t)
  {
  }

  lemma MaybeIff(x: Syntax, row: Row, key: string, o: Option<string>)
    ensures OptionalText(x, row, key) == Some(o) <==> SaysMaybe(x, row, key, o)
  {
  }

  lemma IdIff(x: Syntax, row: Row, key: string, t: string)
    ensures RequiredId(x, row, key) == Some(t) <==> SaysId(x, row, key, t)
  {
    TextIff(x, row, key, t);
  }

  lemma MaybeIdIff(x: Syntax, row: Row, key: string, o: Option<string>)
    ensures OptionalId(x, row, key) == Some(o) <==> SaysMaybeId(x, row, key, o)
  {
    hide SaysMaybe, OptionalText;
    MaybeIff(x, row, key, o);
  }

  lemma FlagIff(row: Row, key: string, on: bool)
    ensures DatabaseBoolean(row, key) == Some(on) <==> SaysFlag(row, key, on)
  {
  }

  lemma TimeIff(x: Syntax, row: Row, key: string, time: Option<Stamp>)
    ensures OptionalTime(x, row, key) == Some(time) <==> SaysTime(x, row, key, time)
  {
  }

  lemma {:induction false} ItemsIff(x: Syntax, items: seq<Value>, texts: seq<string>)
    ensures Texts(x, items) == Some(texts) <==>
      && |items| == |texts|
      && forall i :: 0 <= i < |texts| ==> items[i].Text? && texts[i] != "" && x.trim(items[i].text) == texts[i]
    decreases |items|
  {
    if items == [] {
    } else if texts == [] {
    } else {
      ItemsIff(x, items[1..], texts[1..]);
      assert texts == [texts[0]] + texts[1..];
      assert forall i :: 0 < i < |items| ==> items[1..][i - 1] == items[i];
      assert forall i :: 0 < i < |texts| ==> texts[1..][i - 1] == texts[i];
    }
  }

  lemma TextsIff(x: Syntax, row: Row, key: string, texts: seq<string>)
    ensures StringArray(x, row, key) == Some(texts) <==> SaysTexts(x, row, key, texts)
  {
    if key in row && row[key].Items? { ItemsIff(x, row[key].items, texts); }
  }

  // ---------------------------------------------------------------------
  // Users and platform roles

  ghost predicate SaysPopulation(x: Syntax, row: Row, p: Population) {
    (p == Employee && Says(x, row, "population", "employee"))
    || (p == ExternalPartner && Says(x, row, "population", "external_partner"))
  }

  ghost predicate SaysStatus(x: Syntax, row: Row, s: UserStatus) {
    (s == ActiveUser && Says(x, row, "status", "active"))
    || (s == SuspendedUser && Says(x, row, "status", "suspended"))
    || (s == DeprovisionedUser && Says(x, row, "status", "deprovisioned"))
  }

  ghost predicate SaysRole(x: Syntax, row: Row, r: PlatformRole) {
    (r == SuperAdmin && Says(x, row, "role", "super_admin"))
    || (r == AccessAdmin && Says(x, row, "role", "access_admin"))
    || (r == SystemsAdmin && Says(x, row, "role", "systems_admin"))
    || (r == ApplicationAdmin && Says(x, row, "role", "application_admin"))
    || (r == FinanceAdmin && Says(x, row, "role", "finance_admin"))
    || (r == PeopleAdmin && Says(x, row, "role", "people_admin"))
    || (r == Auditor && Says(x, row, "role", "auditor"))
  }

  lemma PopulationIff(x: Syntax, row: Row, p: Population)
    ensures Then(RequiredText(x, row, "population"), PopulationNamed) == Some(p) <==> SaysPopulation(x, row, p)
  {
  }

  lemma StatusIff(x: Syntax, row: Row, s: UserStatus)
    ensures Then(RequiredText(x, row, "status"), StatusNamed) == Some(s) <==> SaysStatus(x, row, s)
  {
  }

  lemma RoleIff(x: Syntax, row: Row, r: PlatformRole)
    ensures Then(RequiredText(x, row, "role"), RoleNamed) == Some(r) <==> SaysRole(x, row, r)
  {
  }

  ghost predicate HoldingSays(x: Syntax, known: set<string>, row: Row, h: Holding) {
    && SaysId(x, row, "user_id", h.user) && h.user in known && SaysRole(x, row, h.role)
    && exists grantor :: SaysId(x, row, "granted_by_user_id", grantor) && grantor in known
  }

  lemma HoldingReadsIff(x: Syntax, known: set<string>, row: Row, h: Holding)
    ensures ReadHolding(x, known, row) == Some(h) <==> HoldingSays(x, known, row, h)
  {
    hide RequiredText, RequiredId, RoleNamed, SaysId, SaysRole;
    IdIff(x, row, "user_id", h.user);
    RoleIff(x, row, h.role);
    GrantorIff(x, known, row);
  }

  lemma GrantorIff(x: Syntax, known: set<string>, row: Row)
    ensures
      var grantor := RequiredId(x, row, "granted_by_user_id");
      grantor.Some? && grantor.value in known <==>
        exists g :: SaysId(x, row, "granted_by_user_id", g) && g in known
  {
    hide RequiredId, SaysId;
    forall g ensures RequiredId(x, row, "granted_by_user_id") == Some(g) <==> SaysId(x, row, "granted_by_user_id", g) {
      IdIff(x, row, "granted_by_user_id", g);
    }
    var grantor := RequiredId(x, row, "granted_by_user_id");
    if grantor.Some? { assert grantor == Some(grantor.value); }
  }

  ghost predicate UserSays(x: Syntax, known: set<string>, row: Row, u: User) {
    && SaysId(x, row, "id", u.id) && u.id in known
    && Says(x, row, "identity_subject", u.subject) && Says(x, row, "identity_issuer", u.issuer)
    && SaysPopulation(x, row, u.population) && SaysStatus(x, row, u.status)
    && Says(x, row, "email", u.email) && x.isEmail(u.email) && x.lower(u.email) == u.email
    && Says(x, row, "display_name", u.displayName)
    && SaysMaybe(x, row, "workspace_domain", u.workspaceDomain)
    && SaysMaybeId(x, row, "partner_organisation_id", u.organisation)
    && (u.population == Employee ==> u.workspaceDomain != None && u.organisation == None)
    && (u.population == ExternalPartner ==> u.workspaceDomain == None && u.organisation != None && u.platformRoles == [])
    && x.safeInteger(if "session_version" in row then row["session_version"] else Absent) == Some(u.sessionVersion)
    && 1 <= u.sessionVersion
  }

  lemma UserReadsIff(x: Syntax, known: set<string>, held: map<string, seq<PlatformRole>>, row: Row, u: User)
    ensures ReadUser(x, known, held, row) == Some(u) <==>
      UserSays(x, known, row, u) && u.platformRoles == Distinct(if u.id in held then held[u.id] else [])
  {
    hide RequiredText, OptionalText, RequiredId, OptionalId, PopulationNamed, StatusNamed;
    hide Says, SaysId, SaysMaybe, SaysMaybeId, SaysPopulation, SaysStatus, Then;
    IdIff(x, row, "id", u.id);
    TextIff(x, row, "identity_subject", u.subject);
    TextIff(x, row, "identity_issuer", u.issuer);
    TextIff(x, row, "email", u.email);
    TextIff(x, row, "display_name", u.displayName);
    PopulationIff(x, row, u.population);
    StatusIff(x, row, u.status);
    MaybeIff(x, row, "workspace_domain", u.workspaceDomain);
    MaybeIdIff(x, row, "partner_organisation_id", u.organisation);
  }

  // ---------------------------------------------------------------------
  // Organisations, teams, memberships

  ghost predicate OrganisationSays(x: Syntax, row: Row, o: Organisation) {
    && SaysId(x, row, "id", o.id) && Says(x, row, "name", o.name)
    && Says(x, row, "status", if o.active then "active" else "suspended")
  }

  lemma OrganisationReadsIff(x: Syntax, row: Row, o: Organisation)
    ensures ReadOrganisation(x, row) == Some(o) <==> OrganisationSays(x, row, o)
  {
    hide RequiredText, RequiredId, Says, SaysId;
    IdIff(x, row, "id", o.id);
    TextIff(x, row, "name", o.name);
    TextIff(x, row, "status", "active");
    TextIff(x, row, "status", "suspended");
  }

  ghost predicate TeamSays(x: Syntax, row: Row, t: Team) {
    && SaysId(x, row, "id", t.id) && Says(x, row, "name", t.name)
    && Says(x, row, "status", if t.active then "active" else "archived")
    && SaysMaybe(x, row, "description", if t.description == "" then None else Some(t.description))
  }

  lemma TeamReadsIff(x: Syntax, row: Row, t: Team)
    ensures ReadTeam(x, row) == Some(t) <==> TeamSays(x, row, t)
  {
    hide RequiredText, RequiredId, OptionalText, Says, SaysId, SaysMaybe;
    IdIff(x, row, "id", t.id);
    TextIff(x, row, "name", t.name);
    TextIff(x, row, "status", "active");
    TextIff(x, row, "status", "archived");
    MaybeIff(x, row, "description", None);
    MaybeIff(x, row, "description", Some(t.description));
  }

  ghost predicate WindowSays(x: Syntax, row: Row, w: Window) {
    && SaysTime(x, row, "starts_at", w.startsAt) && SaysTime(x, row, "expires_at", w.expiresAt)
    && (if w.revoked then exists t :: SaysTime(x, row, "revoked_at", Some(t)) else SaysTime(x, row, "revoked_at", None))
  }

  lemma WindowReadsIff(x: Syntax, row: Row, w: Window)
    ensures ReadWindow(x, row) == Some(w) <==> WindowSays(x, row, w)
  {
    hide OptionalTime, SaysTime;
    TimeIff(x, row, "starts_at", w.startsAt);
    TimeIff(x, row, "expires_at", w.expiresAt);
    TimeIff(x, row, "revoked_at", None);
    forall t ensures OptionalTime(x, row, "revoked_at") == Some(Some(t)) <==> SaysTime(x, row, "revoked_at", Some(t)) {
      TimeIff(x, row, "revoked_at", Some(t));
    }
    var revoked := OptionalTime(x, row, "revoked_at");
    if revoked.Some? && revoked.value.Some? { assert revoked == Some(Some(revoked.value.value)); }
  }

  ghost predicate MembershipSays(x: Syntax, known: set<string>, row: Row, m: Membership) {
    && SaysId(x, row, "user_id", m.user) && m.user in known && SaysId(x, row, "team_id", m.team)
    && WindowSays(x, row, m.window)
    && exists grantor :: SaysId(x, row, "granted_by_user_id", grantor) && grantor in known
  }

  lemma MembershipReadsIff(x: Syntax, known: set<string>, row: Row, m: Membership)
    ensures ReadMembership(x, known, row) == Some(m) <==> MembershipSays(x, known, row, m)
  {
    hide RequiredId, ReadWindow, SaysId, WindowSays;
    IdIff(x, row, "user_id", m.user);
    IdIff(x, row, "team_id", m.team);
    WindowReadsIff(x, row, m.window);
    GrantorIff(x, known, row);
  }

  // ---------------------------------------------------------------------
  // Roles and entitlements

  /** The populations of a role are those its two flags let in, and there is
      one. */
  ghost predicate SaysPopulations(row: Row, ps: seq<Population>) {
    || (ps == [Employee] && SaysFlag(row, "allows_employees", true) && SaysFlag(row, "allows_external_partners", false))
    || (ps == [ExternalPartner] && SaysFlag(row, "allows_employees", false) && SaysFlag(row, "allows_external_partners", true))
    || (ps == [Employee, ExternalPartner]
        && SaysFlag(row, "allows_employees", true) && SaysFlag(row, "allows_external_partners", true))
  }

  lemma PopulationsIff(row: Row, ps: seq<Population>)
    ensures AllowedPopulations(row) == Some(ps) <==> SaysPopulations(row, ps)
  {
    hide DatabaseBoolean, SaysFlag;
    FlagIff(row, "allows_employees", true);
    FlagIff(row, "allows_employees", false);
    FlagIff(row, "allows_external_partners", true);
    FlagIff(row, "allows_external_partners", false);
    assert [Employee] + [] == [Employee] && [] + [ExternalPartner] == [ExternalPartner];
    assert [Employee] + [ExternalPartner] == [Employee, ExternalPartner];
  }

  ghost predicate SaysLevel(x: Syntax, row: Row, l: Level) {
    (l == UserLevel && Says(x, row, "access_level", "user")) || (l == AdminLevel && Says(x, row, "access_level", "admin"))
  }

  lemma LevelIff(x: Syntax, row: Row, l: Level)
    ensures Then(RequiredText(x, row, "access_level"), LevelNamed) == Some(l) <==> SaysLevel(x, row, l)
  {
  }

  ghost predicate SaysPermissions(x: Syntax, row: Row, permissions: seq<string>) {
    exists texts ::
      && SaysTexts(x, row, "permissions", texts) && (forall p :: p in texts ==> x.isPermission(p))
      && permissions == Distinct(texts)
  }

  ghost predicate RoleSays(x: Syntax, row: Row, r: Role) {
    && SaysId(x, row, "id", r.id) && SaysId(x, row, "application_id", r.application)
    && Says(x, row, "role_key", r.key) && x.isRoleKey(r.key) && Says(x, row, "name", r.name)
    && SaysLevel(x, row, r.level) && SaysPermissions(x, row, r.permissions) && SaysPopulations(row, r.populations)
  }

  lemma PermissionsIff(x: Syntax, row: Row, permissions: seq<string>)
    ensures
      var texts := StringArray(x, row, "permissions");
      texts.Some? && (forall p :: p in texts.value ==> x.isPermission(p)) && permissions == Distinct(texts.value) <==>
        SaysPermissions(x, row, permissions)
  {
    hide StringArray, SaysTexts, Distinct;
    forall texts ensures StringArray(x, row, "permissions") == Some(texts) <==> SaysTexts(x, row, "permissions", texts) {
      TextsIff(x, row, "permissions", texts);
    }
    var texts := StringArray(x, row, "permissions");
    if texts.Some? { assert texts == Some(texts.value); }
  }

  lemma RoleReadsIff(x: Syntax, row: Row, r: Role)
    ensures ReadRole(x, row) == Some(r) <==> RoleSays(x, row, r)
  {
    hide RequiredText, RequiredId, StringArray, AllowedPopulations, LevelNamed, Then, Distinct;
    hide Says, SaysId, SaysLevel, SaysPermissions, SaysPopulations;
    IdIff(x, row, "id", r.id);
    IdIff(x, row, "application_id", r.application);
    TextIff(x, row, "role_key", r.key);
    TextIff(x, row, "name", r.name);
    LevelIff(x, row, r.level);
    PermissionsIff(x, row, r.permissions);
    PopulationsIff(row, r.populations);
  }

  /** For a user, and no team, or for a team, and no user. */
  ghost predicate SaysSubject(x: Syntax, row: Row, s: Subject) {
    match s
    case ToUser(u) =>
      && Says(x, row, "subject_type", "user") && SaysMaybeId(x, row, "user_id", Some(u))
      && SaysMaybeId(x, row, "team_id", None)
    case ToTeam(t) =>
      && Says(x, row, "subject_type", "team") && SaysMaybeId(x, row, "team_id", Some(t))
      && SaysMaybeId(x, row, "user_id", None)
  }

  lemma SubjectIff(x: Syntax, row: Row, s: Subject)
    ensures ReadSubject(x, row) == Some(s) <==> SaysSubject(x, row, s)
  {
    hide RequiredText, OptionalId, Says, SaysMaybeId;
    TextIff(x, row, "subject_type", "user");
    TextIff(x, row, "subject_type", "team");
    MaybeIdIff(x, row, "user_id", None);
    MaybeIdIff(x, row, "team_id", None);
    match s
    case ToUser(u) => MaybeIdIff(x, row, "user_id", Some(u));
    case ToTeam(t) => MaybeIdIff(x, row, "team_id", Some(t));
  }

  /** All organisations and none by name, or the named ones. */
  ghost predicate SaysScope(x: Syntax, row: Row, s: Scope) {
    && SaysTexts(x, row, "partner_organisation_ids", s.organisations)
    && SaysFlag(row, "all_partner_organisations", s.all) && (s.all ==> s.organisations == [])
  }

  lemma ScopeIff(x: Syntax, row: Row, s: Scope)
    ensures ReadScope(x, row) == Some(s) <==> SaysScope(x, row, s)
  {
    hide StringArray, DatabaseBoolean, SaysTexts, SaysFlag;
    TextsIff(x, row, "partner_organisation_ids", s.organisations);
    FlagIff(row, "all_partner_organisations", s.all);
  }

  ghost predicate EntitlementSays(x: Syntax, known: set<string>, row: Row, e: Entitlement) {
    && SaysId(x, row, "id", e.id) && SaysId(x, row, "application_id", e.application) && SaysId(x, row, "role_id", e.role)
    && SaysSubject(x, row, e.subject) && (e.subject.ToUser? ==> e.subject.user in known)
    && SaysScope(x, row, e.scope)
    && WindowSays(x, row, e.window)
    && (forall a, b :: e.window.startsAt == Some(At(a)) && e.window.expiresAt == Some(At(b)) ==> a < b)
    && SaysMaybe(x, row, "revoked_reason", e.revokedReason)
    && SaysId(x, row, "granted_by_user_id", e.grantedBy) && e.grantedBy in known
    && SaysTime(x, row, "granted_at", Some(e.grantedAt))
  }

  lemma EntitlementReadsIff(x: Syntax, known: set<string>, row: Row, e: Entitlement)
    ensures ReadEntitlement(x, known, row) == Some(e) <==> EntitlementSays(x, known, row, e)
  {
    hide RequiredId, OptionalText, OptionalTime, ReadSubject, ReadScope, ReadWindow, WindowFits;
    hide SaysId, SaysMaybe, SaysSubject, SaysScope, WindowSays, SaysTime;
    IdIff(x, row, "id", e.id);
    IdIff(x, row, "application_id", e.application);
    IdIff(x, row, "role_id", e.role);
    IdIff(x, row, "granted_by_user_id", e.grantedBy);
    SubjectIff(x, row, e.subject);
    ScopeIff(x, row, e.scope);
    WindowReadsIff(x, row, e.window);
    MaybeIff(x, row, "revoked_reason", e.revokedReason);
    TimeIff(x, row, "granted_at", Some(e.grantedAt));
    OrderedIff(e.window);
  }

  lemma OrderedIff(w: Window)
    ensures WindowFits(w) <==> forall a, b :: w.startsAt == Some(At(a)) && w.expiresAt == Some(At(b)) ==> a < b
  {
    if w.startsAt.Some? && w.startsAt.value.At? && w.expiresAt.Some? && w.expiresAt.value.At? {
      assert w.startsAt == Some(At(w.startsAt.value.ms)) && w.expiresAt == Some(At(w.expiresAt.value.ms));
    }
  }

  // ---------------------------------------------------------------------
  // The tables

  lemma TableIff<T>(rows: seq<Row>, read: Row -> Option<T>, items: seq<T>)
    ensures ReadAll(rows, read) == Some(items) <==>
      |items| == |rows| && forall i :: 0 <= i < |rows| ==> read(rows[i]) == Some(items[i])
  {
    ReadAllRows(rows, read);
    if |items| == |rows| && forall i :: 0 <= i < |rows| ==> read(rows[i]) == Some(items[i]) { AllRead(rows, read, items); }
  }

  /** One entry for each row, in order, each saying its own. */
  ghost predicate RowByRow<T(!new)>(rows: seq<Row>, items: seq<T>, says: (Row, T) -> bool) {
    |items| == |rows| && forall i :: 0 <= i < |rows| ==> says(rows[i], items[i])
  }

  lemma RowsIff<T(!new)>(rows: seq<Row>, items: seq<T>, read: Row -> Option<T>, says: (Row, T) -> bool)
    requires forall row, item :: read(row) == Some(item) <==> says(row, item)
    ensures ReadAll(rows, read) == Some(items) <==> RowByRow(rows, items, says)
  {
    TableIff(rows, read, items);
  }

  /** The references are `ids` and the platform-role rows `holdings`, and all
      other tables say `s`. */
  ghost predicate TablesSay(x: Syntax, t: Tables, s: Snapshot, ids: seq<string>, holdings: seq<Holding>) {
    var known := set id | id in ids;
    && RowByRow(t.references, ids, (row, id) => SaysId(x, row, "id", id))
    && (forall i, j :: 0 <= i < j < |ids| ==> ids[i] != ids[j])
    && RowByRow(t.platformRoles, holdings, (row, h) => HoldingSays(x, known, row, h))
    && RowByRow(t.users, s.users, (row, u) => UserSays(x, known, row, u))
    && (forall u :: u in s.users ==> u.platformRoles == Distinct(HeldBy(holdings, u.id)))
    && RowByRow(t.organisations, s.organisations, (row, o) => OrganisationSays(x, row, o))
    && RowByRow(t.teams, s.teams, (row, team) => TeamSays(x, row, team))
    && RowByRow(t.memberships, s.memberships, (row, m) => MembershipSays(x, known, row, m))
    && t.registry == Some(s.applications)
    && RowByRow(t.roles, s.roles, (row, r) => RoleSays(x, row, r))
    && RowByRow(t.entitlements, s.entitlements, (row, e) => EntitlementSays(x, known, row, e))
  }

  /** No identity, and no id of any kind but a user's, occurs twice. */
  ghost predicate NothingTwice(s: Snapshot) {
    && (forall i, j :: 0 <= i < j < |s.users| ==>
          s.users[i].issuer + "\0" + s.users[i].subject != s.users[j].issuer + "\0" + s.users[j].subject)
    && (forall i, j :: 0 <= i < j < |s.organisations| ==> s.organisations[i].id != s.organisations[j].id)
    && (forall i, j :: 0 <= i < j < |s.teams| ==> s.teams[i].id != s.teams[j].id)
    && (forall i, j :: 0 <= i < j < |s.applications| ==> s.applications[i].id != s.applications[j].id)
    && (forall i, j :: 0 <= i < j < |s.roles| ==> s.roles[i].id != s.roles[j].id)
    && (forall i, j :: 0 <= i < j < |s.entitlements| ==> s.entitlements[i].id != s.entitlements[j].id)
  }

  ghost predicate ApplicationThere(s: Snapshot, id: string) { exists a :: a in s.applications && a.id == id }

  ghost predicate OrganisationThere(s: Snapshot, id: string) { exists o :: o in s.organisations && o.id == id }

  ghost predicate TeamThere(s: Snapshot, id: string) { exists t :: t in s.teams && t.id == id }

  /** Whatever is named is there, and a role given is the application's own. */
  ghost predicate EverythingThere(x: Syntax, s: Snapshot) {
    && (forall a :: a in s.applications ==> x.isUuid(a.id))
    && (forall u :: u in s.users && u.organisation.Some? ==> OrganisationThere(s, u.organisation.value))
    && (forall m :: m in s.memberships ==> TeamThere(s, m.team))
    && (forall r :: r in s.roles ==> ApplicationThere(s, r.application))
    && (forall e :: e in s.entitlements ==>
          && ApplicationThere(s, e.application)
          && (exists r :: r in s.roles && r.id == e.role && r.application == e.application)
          && (e.subject.ToTeam? ==> TeamThere(s, e.subject.team))
          && forall o :: o in e.scope.organisations ==> x.isUuid(o) && OrganisationThere(s, o))
  }

  lemma RulesIff(x: Syntax, s: Snapshot)
    ensures AllUnique(s) <==> NothingTwice(s)
    ensures Refers(x, s) <==> EverythingThere(x, s)
  {
    forall id
      ensures KnownOrganisation(s, id) <==> OrganisationThere(s, id)
      ensures KnownTeam(s, id) <==> TeamThere(s, id)
      ensures KnownApplication(s, id) <==> ApplicationThere(s, id)
    {
    }
    assert forall e :: RoleKnown(s, e) <==> exists r :: r in s.roles && r.id == e.role && r.application == e.application;
  }

  lemma UsersIff(x: Syntax, known: set<string>, holdings: seq<Holding>, rows: seq<Row>, users: seq<User>)
    ensures ReadAll(rows, UserOf(x, known, HeldMap(holdings))) == Some(users) <==>
      && RowByRow(rows, users, (row, u) => UserSays(x, known, row, u))
      && (forall u :: u in users ==> u.platformRoles == Distinct(HeldBy(holdings, u.id)))
  {
    hide ReadUser, UserSays, HeldBy, Distinct;
    var held := HeldMap(holdings);
    forall row, u
      ensures ReadUser(x, known, held, row) == Some(u) <==>
        UserSays(x, known, row, u) && u.platformRoles == Distinct(HeldBy(holdings, u.id))
    {
      UserReadsIff(x, known, held, row, u);
      NoneHeld(holdings, u.id);
    }
    TableIff(rows, UserOf(x, known, held), users);
    if RowByRow(rows, users, (row, u) => UserSays(x, known, row, u)) {
      forall i | 0 <= i < |users| ensures users[i] in users { }
    }
  }

  lemma PeopleTablesIff(x: Syntax, t: Tables, s: Snapshot, ids: seq<string>, holdings: seq<Holding>)
    ensures
      && ReadAll(t.references, IdOf(x)) == Some(ids) && |Elements(ids)| == |ids|
      && ReadAll(t.platformRoles, HoldingOf(x, Elements(ids))) == Some(holdings)
      && ReadAll(t.users, UserOf(x, Elements(ids), HeldMap(holdings))) == Some(s.users)
      && ReadAll(t.memberships, MembershipOf(x, Elements(ids))) == Some(s.memberships)
      && ReadAll(t.entitlements, EntitlementOf(x, Elements(ids))) == Some(s.entitlements)
      <==>
      var known := set id | id in ids;
      && RowByRow(t.references, ids, (row, id) => SaysId(x, row, "id", id))
      && (forall i, j :: 0 <= i < j < |ids| ==> ids[i] != ids[j])
      && RowByRow(t.platformRoles, holdings, (row, h) => HoldingSays(x, known, row, h))
      && RowByRow(t.users, s.users, (row, u) => UserSays(x, known, row, u))
      && (forall u :: u in s.users ==> u.platformRoles == Distinct(HeldBy(holdings, u.id)))
      && RowByRow(t.memberships, s.memberships, (row, m) => MembershipSays(x, known, row, m))
      && RowByRow(t.entitlements, s.entitlements, (row, e) => EntitlementSays(x, known, row, e))
  {
    hide RequiredId, ReadHolding, ReadUser, ReadMembership, ReadEntitlement, HeldMap, HeldBy, Distinct, RowByRow;
    hide SaysId, HoldingSays, UserSays, MembershipSays, EntitlementSays;
    var known := set id | id in ids;
    assert Elements(ids) == known;
    NoRepeats(ids);
    forall row, id ensures RequiredId(x, row, "id") == Some(id) <==> SaysId(x, row, "id", id) { IdIff(x, row, "id", id); }
    forall row, h ensures ReadHolding(x, known, row) == Some(h) <==> HoldingSays(x, known, row, h) {
      HoldingReadsIff(x, known, row, h);
    }
    forall row, m ensures ReadMembership(x, known, row) == Some(m) <==> MembershipSays(x, known, row, m) {
      MembershipReadsIff(x, known, row, m);
    }
    forall row, e ensures ReadEntitlement(x, known, row) == Some(e) <==> EntitlementSays(x, known, row, e) {
      EntitlementReadsIff(x, known, row, e);
    }
    RowsIff(t.references, ids, IdOf(x), (row, id) => SaysId(x, row, "id", id));
    RowsIff(t.platformRoles, holdings, HoldingOf(x, known), (row, h) => HoldingSays(x, known, row, h));
    RowsIff(t.memberships, s.memberships, MembershipOf(x, known), (row, m) => MembershipSays(x, known, row, m));
    RowsIff(t.entitlements, s.entitlements, EntitlementOf(x, known), (row, e) => EntitlementSays(x, known, row, e));
    UsersIff(x, known, holdings, t.users, s.users);
  }

  lemma PlaceTablesIff(x: Syntax, t: Tables, s: Snapshot)
    ensures
      && ReadAll(t.organisations, OrganisationOf(x)) == Some(s.organisations)
      && ReadAll(t.teams, TeamOf(x)) == Some(s.teams) && ReadAll(t.roles, AppRoleOf(x)) == Some(s.roles)
      <==>
      && RowByRow(t.organisations, s.organisations, (row, o) => OrganisationSays(x, row, o))
      && RowByRow(t.teams, s.teams, (row, team) => TeamSays(x, row, team))
      && RowByRow(t.roles, s.roles, (row, r) => RoleSays(x, row, r))
  {
    hide ReadOrganisation, ReadTeam, ReadRole, RowByRow, OrganisationSays, TeamSays, RoleSays;
    forall row, o ensures ReadOrganisation(x, row) == Some(o) <==> OrganisationSays(x, row, o) {
      OrganisationReadsIff(x, row, o);
    }
    forall row, team ensures ReadTeam(x, row) == Some(team) <==> TeamSays(x, row, team) { TeamReadsIff(x, row, team); }
    forall row, r ensures ReadRole(x, row) == Some(r) <==> RoleSays(x, row, r) { RoleReadsIff(x, row, r); }
    RowsIff(t.organisations, s.organisations, OrganisationOf(x), (row, o) => OrganisationSays(x, row, o));
    RowsIff(t.teams, s.teams, TeamOf(x), (row, team) => TeamSays(x, row, team));
    RowsIff(t.roles, s.roles, AppRoleOf(x), (row, r) => RoleSays(x, row, r));
  }

  lemma ReadsIff(x: Syntax, t: Tables, s: Snapshot)
    ensures Reads(x, t, s) <==> exists ids, holdings :: TablesSay(x, t, s, ids, holdings)
  {
    hide RowByRow, HeldMap, HeldBy, Distinct, ReadAll, Elements;
    PlaceTablesIff(x, t, s);
    forall ids, holdings ensures TablesSay(x, t, s, ids, holdings) ==> Reads(x, t, s) {
      PeopleTablesIff(x, t, s, ids, holdings);
    }
    if Reads(x, t, s) {
      var ids := ReadAll(t.references, IdOf(x)).value;
      var holdings := ReadAll(t.platformRoles, HoldingOf(x, Elements(ids))).value;
      PeopleTablesIff(x, t, s, ids, holdings);
      assert TablesSay(x, t, s, ids, holdings);
    }
  }

  /** Tables are accepted as a snapshot if and only if their rows say it,
      nothing in it occurs twice, and everything it names is there. */
  lemma AcceptedIff(x: Syntax, t: Tables, s: Snapshot)
    ensures Accepts(x, t, s) <==>
      (exists ids, holdings :: TablesSay(x, t, s, ids, holdings)) && NothingTwice(s) && EverythingThere(x, s)
  {
    hide Reads, TablesSay, AllUnique, NothingTwice, Refers, EverythingThere;
    ReadsIff(x, t, s);
    RulesIff(x, s);
  }

  /** So an accepted user row has one of the three statuses, and that one. */
  lemma AcceptedStatus(x: Syntax, t: Tables, s: Snapshot, i: nat)
    requires Accepts(x, t, s) && i < |t.users|
    ensures |s.users| == |t.users| && SaysStatus(x, t.users[i], s.users[i].status)
  {
    hide Accepts, NothingTwice, EverythingThere, Distinct, HeldBy;
    AcceptedIff(x, t, s);
    var ids, holdings :| TablesSay(x, t, s, ids, holdings);
    assert UserSays(x, (set id | id in ids), t.users[i], s.users[i]);
  }

  /** A row with any other status refuses the whole table. */
  lemma UnknownStatusRefused(x: Syntax, t: Tables, s: Snapshot, i: nat)
    requires i < |t.users| && "status" in t.users[i] && t.users[i]["status"].Text?
    requires x.trim(t.users[i]["status"].text) !in {"active", "suspended", "deprovisioned"}
    ensures !Accepts(x, t, s)
  {
    hide Accepts;
    if Accepts(x, t, s) { AcceptedStatus(x, t, s, i); }
  }
}
