/** Rows written from snapshot entries, and their reading back. A reader that
    took a field from the wrong column, dropped one or refused a good row
    would fail here. */
module PolicyWriting {
  import opened Common
  import opened Lists
  import opened AccessModel
  import opened PolicyFields

  // ---------------------------------------------------------------------
  // Values

  function Said(text: Option<string>): Value {
    match text case None => Absent case Some(t) => Text(t)
  }

  function SaidTime(time: Option<Stamp>): Value {
    match time case None => Absent case Some(t) => Moment(t)
  }

  function SaidText(t: string): Value { Text(t) }

  function SaidTexts(texts: seq<string>): Value { Items(Map(texts, SaidText)) }

  function PopulationName(p: Population): string {
    match p case Employee => "employee" case ExternalPartner => "external_partner"
  }

  function StatusName(s: UserStatus): string {
    match s case ActiveUser => "active" case SuspendedUser => "suspended" case DeprovisionedUser => "deprovisioned"
  }

  function RoleName(r: PlatformRole): string {
    match r
    case SuperAdmin => "super_admin"
    case AccessAdmin => "access_admin"
    case SystemsAdmin => "systems_admin"
    case ApplicationAdmin => "application_admin"
    case FinanceAdmin => "finance_admin"
    case PeopleAdmin => "people_admin"
    case Auditor => "auditor"
  }

  lemma NamesReadBack(p: Population, s: UserStatus, l: Level)
    ensures PopulationNamed(PopulationName(p)) == Some(p) && PopulationName(p) != ""
    ensures StatusNamed(StatusName(s)) == Some(s) && StatusName(s) != ""
    ensures LevelNamed(LevelName(l)) == Some(l) && LevelName(l) != ""
  {
  }

  function LevelName(l: Level): string {
    match l case UserLevel => "user" case AdminLevel => "admin"
  }

  lemma RoleNameReadsBack(r: PlatformRole)
    ensures RoleNamed(RoleName(r)) == Some(r) && RoleName(r) != ""
  {
  }

  // ---------------------------------------------------------------------
  // Text that reads as it is written

  ghost predicate Plain(x: Syntax, t: string) { t != "" && x.trim(t) == t }

  ghost predicate Id(x: Syntax, t: string) { Plain(x, t) && x.isUuid(t) }

  /** The fixed words of the tables have no blanks to trim. */
  ghost predicate PlainWords(x: Syntax) {
    && (forall p :: Plain(x, PopulationName(p))) && (forall s :: Plain(x, StatusName(s)))
    && (forall l :: Plain(x, LevelName(l))) && (forall r :: Plain(x, RoleName(r)))
    && Plain(x, "active") && Plain(x, "suspended") && Plain(x, "archived")
    && Plain(x, "user") && Plain(x, "team")
  }

  lemma PlainReads(x: Syntax, row: Row, key: string, t: string)
    requires Field(row, key) == Text(t) && Plain(x, t)
    ensures RequiredText(x, row, key) == Some(t) && OptionalText(x, row, key) == Some(Some(t))
    ensures x.isUuid(t) ==> RequiredId(x, row, key) == Some(t) && OptionalId(x, row, key) == Some(Some(t))
  {
  }

  lemma SaidReads(x: Syntax, row: Row, key: string, o: Option<string>)
    requires Field(row, key) == Said(o) && (o.Some? ==> Plain(x, o.value))
    ensures OptionalText(x, row, key) == Some(o)
    ensures (o.Some? ==> x.isUuid(o.value)) ==> OptionalId(x, row, key) == Some(o)
  {
  }

  ghost predicate Readable(time: Option<Stamp>) { time.Some? ==> time.value.At? }

  lemma TimeReads(x: Syntax, row: Row, key: string, time: Option<Stamp>)
    requires Field(row, key) == SaidTime(time) && Readable(time)
    ensures OptionalTime(x, row, key) == Some(time)
  {
  }

  ghost predicate AllPlain(x: Syntax, texts: seq<string>) {
    forall t :: t in texts ==> Plain(x, t)
  }

  lemma {:induction false} TextsReadBack(x: Syntax, texts: seq<string>)
    requires AllPlain(x, texts)
    ensures Texts(x, Map(texts, SaidText)) == Some(texts)
  {
    if texts == [] {
    } else {
      TextsReadBack(x, texts[1..]);
      assert texts[0] in texts;
      assert Map(texts, SaidText)[1..] == Map(texts[1..], SaidText);
      assert texts == [texts[0]] + texts[1..];
    }
  }

  ghost predicate Unrepeated<T>(s: seq<T>) {
    forall i, j :: 0 <= i < j < |s| ==> s[i] != s[j]
  }

  lemma {:induction false} DistinctAlready<T>(s: seq<T>)
    requires Unrepeated(s)
    ensures Distinct(s) == s
  {
    if s == [] {
    } else {
      var init, last := s[..|s| - 1], s[|s| - 1];
      DistinctAlready(init);
      assert last !in init by {
        forall i | 0 <= i < |init| ensures init[i] != last {
          assert s[i] != s[|s| - 1];
        }
      }
      assert s == init + [last];
    }
  }

  // ---------------------------------------------------------------------
  // Users and their platform roles

  function WriteUser(u: User): Row {
    map["id" := Text(u.id), "identity_subject" := Text(u.subject), "identity_issuer" := Text(u.issuer),
        "population" := Text(PopulationName(u.population)), "email" := Text(u.email),
        "display_name" := Text(u.displayName), "status" := Text(StatusName(u.status)),
        "workspace_domain" := Said(u.workspaceDomain), "partner_organisation_id" := Said(u.organisation),
        "session_version" := Other(u.sessionVersion)]
  }

  lemma UserFields(u: User)
    ensures
      var row := WriteUser(u);
      && Field(row, "id") == Text(u.id) && Field(row, "identity_subject") == Text(u.subject)
      && Field(row, "identity_issuer") == Text(u.issuer) && Field(row, "population") == Text(PopulationName(u.population))
      && Field(row, "email") == Text(u.email) && Field(row, "display_name") == Text(u.displayName)
      && Field(row, "status") == Text(StatusName(u.status)) && Field(row, "workspace_domain") == Said(u.workspaceDomain)
      && Field(row, "partner_organisation_id") == Said(u.organisation)
      && Field(row, "session_version") == Other(u.sessionVersion)
  {
  }

  ghost predicate UserWritten(x: Syntax, u: User) {
    && Id(x, u.id) && Plain(x, u.subject) && Plain(x, u.issuer) && Plain(x, u.email) && Plain(x, u.displayName)
    && x.isEmail(u.email) && x.lower(u.email) == u.email
    && (u.workspaceDomain.Some? ==> Plain(x, u.workspaceDomain.value))
    && (u.organisation.Some? ==> Id(x, u.organisation.value))
    && BoundFits(u.population, u.workspaceDomain, u.organisation)
    && u.sessionVersion >= 1 && x.safeInteger(Other(u.sessionVersion)) == Some(u.sessionVersion)
    && Unrepeated(u.platformRoles) && (u.population != Employee ==> u.platformRoles == [])
  }

  lemma UserReadsBack(x: Syntax, known: set<string>, held: map<string, seq<PlatformRole>>, u: User)
    requires PlainWords(x) && UserWritten(x, u) && u.id in known
    requires Distinct(if u.id in held then held[u.id] else []) == u.platformRoles
    ensures ReadUser(x, known, held, WriteUser(u)) == Some(u)
  {
    hide WriteUser;
    var row := WriteUser(u);
    UserFields(u);
    NamesReadBack(u.population, u.status, UserLevel);
    PlainReads(x, row, "id", u.id);
    PlainReads(x, row, "identity_subject", u.subject);
    PlainReads(x, row, "identity_issuer", u.issuer);
    PlainReads(x, row, "population", PopulationName(u.population));
    PlainReads(x, row, "email", u.email);
    PlainReads(x, row, "display_name", u.displayName);
    PlainReads(x, row, "status", StatusName(u.status));
    SaidReads(x, row, "workspace_domain", u.workspaceDomain);
    SaidReads(x, row, "partner_organisation_id", u.organisation);
  }

  function WriteHolding(h: Holding): Row {
    map["user_id" := Text(h.user), "granted_by_user_id" := Text(h.user), "role" := Text(RoleName(h.role))]
  }

  lemma HoldingReadsBack(x: Syntax, known: set<string>, h: Holding)
    requires PlainWords(x) && Id(x, h.user) && h.user in known
    ensures ReadHolding(x, known, WriteHolding(h)) == Some(h)
  {
    var row := WriteHolding(h);
    RoleNameReadsBack(h.role);
    PlainReads(x, row, "user_id", h.user);
    PlainReads(x, row, "granted_by_user_id", h.user);
    PlainReads(x, row, "role", RoleName(h.role));
  }

  // ---------------------------------------------------------------------
  // Organisations, teams, memberships

  function WriteOrganisation(o: Organisation): Row {
    map["id" := Text(o.id), "name" := Text(o.name), "status" := Text(if o.active then "active" else "suspended")]
  }

  lemma OrganisationReadsBack(x: Syntax, o: Organisation)
    requires PlainWords(x) && Id(x, o.id) && Plain(x, o.name)
    ensures ReadOrganisation(x, WriteOrganisation(o)) == Some(o)
  {
    var row := WriteOrganisation(o);
    PlainReads(x, row, "id", o.id);
    PlainReads(x, row, "name", o.name);
    PlainReads(x, row, "status", if o.active then "active" else "suspended");
  }

  function WriteTeam(t: Team): Row {
    map["id" := Text(t.id), "name" := Text(t.name), "description" := Text(t.description),
        "status" := Text(if t.active then "active" else "archived")]
  }

  ghost predicate TeamWritten(x: Syntax, t: Team) {
    Id(x, t.id) && Plain(x, t.name) && (t.description == "" || Plain(x, t.description))
  }

  lemma TeamReadsBack(x: Syntax, t: Team)
    requires PlainWords(x) && TeamWritten(x, t)
    ensures ReadTeam(x, WriteTeam(t)) == Some(t)
  {
    var row := WriteTeam(t);
    PlainReads(x, row, "id", t.id);
    PlainReads(x, row, "name", t.name);
    PlainReads(x, row, "status", if t.active then "active" else "archived");
  }

  ghost predicate WindowWritten(w: Window) { Readable(w.startsAt) && Readable(w.expiresAt) }

  /** A revocation has some time; the snapshot keeps only that there is one. */
  function RevokedAt(w: Window): Value {
    if w.revoked then Moment(At(0)) else Absent
  }

  lemma WindowReads(x: Syntax, row: Row, w: Window)
    requires WindowWritten(w)
    requires Field(row, "starts_at") == SaidTime(w.startsAt) && Field(row, "expires_at") == SaidTime(w.expiresAt)
    requires Field(row, "revoked_at") == RevokedAt(w)
    ensures ReadWindow(x, row) == Some(w)
  {
    TimeReads(x, row, "starts_at", w.startsAt);
    TimeReads(x, row, "expires_at", w.expiresAt);
  }

  function WriteMembership(m: Membership): Row {
    map["team_id" := Text(m.team), "user_id" := Text(m.user), "granted_by_user_id" := Text(m.user),
        "starts_at" := SaidTime(m.window.startsAt), "expires_at" := SaidTime(m.window.expiresAt),
        "revoked_at" := RevokedAt(m.window)]
  }

  lemma MembershipReadsBack(x: Syntax, known: set<string>, m: Membership)
    requires Id(x, m.team) && Id(x, m.user) && m.user in known && WindowWritten(m.window)
    ensures ReadMembership(x, known, WriteMembership(m)) == Some(m)
  {
    var row := WriteMembership(m);
    PlainReads(x, row, "team_id", m.team);
    PlainReads(x, row, "user_id", m.user);
    PlainReads(x, row, "granted_by_user_id", m.user);
    WindowReads(x, row, m.window);
  }

  // ---------------------------------------------------------------------
  // Roles and entitlements

  function WriteRole(r: Role): Row {
    map["id" := Text(r.id), "application_id" := Text(r.application), "role_key" := Text(r.key), "name" := Text(r.name),
        "access_level" := Text(LevelName(r.level)), "permissions" := SaidTexts(r.permissions),
        "allows_employees" := Flag(Employee in r.populations),
        "allows_external_partners" := Flag(ExternalPartner in r.populations)]
  }

  lemma RoleFields(r: Role)
    ensures
      var row := WriteRole(r);
      && Field(row, "id") == Text(r.id) && Field(row, "application_id") == Text(r.application)
      && Field(row, "role_key") == Text(r.key) && Field(row, "name") == Text(r.name)
      && Field(row, "access_level") == Text(LevelName(r.level)) && Field(row, "permissions") == SaidTexts(r.permissions)
      && Field(row, "allows_employees") == Flag(Employee in r.populations)
      && Field(row, "allows_external_partners") == Flag(ExternalPartner in r.populations)
  {
  }

  ghost predicate RoleWritten(x: Syntax, r: Role) {
    && Id(x, r.id) && Id(x, r.application) && Plain(x, r.key) && Plain(x, r.name) && x.isRoleKey(r.key)
    && AllPlain(x, r.permissions) && Unrepeated(r.permissions) && (forall p :: p in r.permissions ==> x.isPermission(p))
    && r.populations in [[Employee], [ExternalPartner], [Employee, ExternalPartner]]
  }

  lemma PopulationsReadBack(row: Row, ps: seq<Population>)
    requires ps in [[Employee], [ExternalPartner], [Employee, ExternalPartner]]
    requires Field(row, "allows_employees") == Flag(Employee in ps)
    requires Field(row, "allows_external_partners") == Flag(ExternalPartner in ps)
    ensures AllowedPopulations(row) == Some(ps)
  {
    assert ps == (if Employee in ps then [Employee] else []) + (if ExternalPartner in ps then [ExternalPartner] else []);
  }

  lemma RoleReadsBack(x: Syntax, r: Role)
    requires PlainWords(x) && RoleWritten(x, r)
    ensures ReadRole(x, WriteRole(r)) == Some(r)
  {
    hide WriteRole;
    var row := WriteRole(r);
    RoleFields(r);
    PopulationsReadBack(row, r.populations);
    NamesReadBack(Employee, ActiveUser, r.level);
    PlainReads(x, row, "id", r.id);
    PlainReads(x, row, "application_id", r.application);
    PlainReads(x, row, "role_key", r.key);
    PlainReads(x, row, "name", r.name);
    PlainReads(x, row, "access_level", LevelName(r.level));
    TextsReadBack(x, r.permissions);
    DistinctAlready(r.permissions);
  }

  function WriteEntitlement(e: Entitlement): Row {
    map["id" := Text(e.id), "application_id" := Text(e.application), "role_id" := Text(e.role),
        "subject_type" := Text(if e.subject.ToUser? then "user" else "team"),
        "user_id" := if e.subject.ToUser? then Text(e.subject.user) else Absent,
        "team_id" := if e.subject.ToTeam? then Text(e.subject.team) else Absent,
        "all_partner_organisations" := Flag(e.scope.all),
        "partner_organisation_ids" := SaidTexts(e.scope.organisations),
        "starts_at" := SaidTime(e.window.startsAt), "expires_at" := SaidTime(e.window.expiresAt),
        "revoked_at" := RevokedAt(e.window), "revoked_reason" := Said(e.revokedReason),
        "granted_by_user_id" := Text(e.grantedBy), "granted_at" := Moment(e.grantedAt)]
  }

  lemma EntitlementKeys(e: Entitlement)
    ensures
      var row := WriteEntitlement(e);
      && Field(row, "id") == Text(e.id) && Field(row, "application_id") == Text(e.application)
      && Field(row, "role_id") == Text(e.role) && Field(row, "granted_by_user_id") == Text(e.grantedBy)
      && Field(row, "granted_at") == Moment(e.grantedAt) && Field(row, "revoked_reason") == Said(e.revokedReason)
  {
  }

  lemma EntitlementSubject(e: Entitlement)
    ensures
      var row := WriteEntitlement(e);
      && Field(row, "subject_type") == Text(if e.subject.ToUser? then "user" else "team")
      && Field(row, "user_id") == (if e.subject.ToUser? then Text(e.subject.user) else Absent)
      && Field(row, "team_id") == (if e.subject.ToTeam? then Text(e.subject.team) else Absent)
  {
  }

  lemma EntitlementScope(e: Entitlement)
    ensures
      var row := WriteEntitlement(e);
      && Field(row, "all_partner_organisations") == Flag(e.scope.all)
      && Field(row, "partner_organisation_ids") == SaidTexts(e.scope.organisations)
  {
  }

  lemma EntitlementWindow(e: Entitlement)
    ensures
      var row := WriteEntitlement(e);
      && Field(row, "starts_at") == SaidTime(e.window.startsAt) && Field(row, "expires_at") == SaidTime(e.window.expiresAt)
      && Field(row, "revoked_at") == RevokedAt(e.window)
  {
  }

  ghost predicate EntitlementWritten(x: Syntax, e: Entitlement) {
    && Id(x, e.id) && Id(x, e.application) && Id(x, e.role) && Id(x, e.grantedBy)
    && (match e.subject case ToUser(u) => Id(x, u) case ToTeam(t) => Id(x, t))
    && (forall o :: o in e.scope.organisations ==> Id(x, o)) && (e.scope.all ==> e.scope.organisations == [])
    && WindowWritten(e.window) && WindowFits(e.window) && e.grantedAt.At?
    && (e.revokedReason.Some? ==> Plain(x, e.revokedReason.value))
  }

  lemma SubjectReadsBack(x: Syntax, e: Entitlement)
    requires PlainWords(x) && EntitlementWritten(x, e)
    ensures ReadSubject(x, WriteEntitlement(e)) == Some(e.subject)
  {
    hide WriteEntitlement;
    var row := WriteEntitlement(e);
    EntitlementSubject(e);
    PlainReads(x, row, "subject_type", if e.subject.ToUser? then "user" else "team");
    match e.subject
    case ToUser(u) => PlainReads(x, row, "user_id", u);
    case ToTeam(t) => PlainReads(x, row, "team_id", t);
  }

  lemma ScopeReadsBack(x: Syntax, e: Entitlement)
    requires EntitlementWritten(x, e)
    ensures ReadScope(x, WriteEntitlement(e)) == Some(e.scope)
  {
    hide WriteEntitlement;
    EntitlementScope(e);
    TextsReadBack(x, e.scope.organisations);
  }

  lemma EntitlementReadsBack(x: Syntax, known: set<string>, e: Entitlement)
    requires PlainWords(x) && EntitlementWritten(x, e)
    requires e.grantedBy in known && (e.subject.ToUser? ==> e.subject.user in known)
    ensures ReadEntitlement(x, known, WriteEntitlement(e)) == Some(e)
  {
    hide WriteEntitlement, ReadSubject, ReadScope, ReadWindow;
    var row := WriteEntitlement(e);
    EntitlementKeys(e);
    EntitlementWindow(e);
    SubjectReadsBack(x, e);
    ScopeReadsBack(x, e);
    WindowReads(x, row, e.window);
    PlainReads(x, row, "id", e.id);
    PlainReads(x, row, "application_id", e.application);
    PlainReads(x, row, "role_id", e.role);
    PlainReads(x, row, "granted_by_user_id", e.grantedBy);
    SaidReads(x, row, "revoked_reason", e.revokedReason);
    TimeReads(x, row, "granted_at", Some(e.grantedAt));
  }
}
