/** How one database row of access policy is read. A reader that the source
    lets throw gives nothing; which complaint it raises is not kept. */
module PolicyFields {
  import opened Common
  import opened Lists
  import opened AccessModel

  datatype Value = Absent | Text(text: string) | Flag(on: bool) | Items(items: seq<Value>) | Moment(stamp: Stamp) | Other(n: int)

  type Row = map<string, Value>

  /** Text syntax and number conversion, which the host language provides. */
  datatype Syntax = Syntax(
    trim: string -> string,
    lower: string -> string,
    isUuid: string -> bool,
    isEmail: string -> bool,
    isRoleKey: string -> bool,
    isPermission: string -> bool,
    time: string -> Stamp,
    safeInteger: Value -> Option<int>)

  function Field(row: Row, key: string): Value {
    if key in row then row[key] else Absent
  }

  function RequiredText(x: Syntax, row: Row, key: string): (r: Option<string>)
    ensures r.Some? ==> r.value != ""
  {
    match Field(row, key)
    case Text(t) => if x.trim(t) == "" then None else Some(x.trim(t))
    case _ => None
  }

  function OptionalText(x: Syntax, row: Row, key: string): (r: Option<Option<string>>)
    ensures r.Some? && r.value.Some? ==> r.value.value != ""
  {
    match Field(row, key)
    case Absent => Some(None)
    case Text(t) => if t == "" then Some(None) else if x.trim(t) == "" then None else Some(Some(x.trim(t)))
    case _ => None
  }

  function RequiredId(x: Syntax, row: Row, key: string): Option<string> {
    var text := RequiredText(x, row, key);
    if text.Some? && x.isUuid(text.value) then text else None
  }

  function OptionalId(x: Syntax, row: Row, key: string): (r: Option<Option<string>>)
    ensures r.Some? && r.value.Some? ==> r.value.value != ""
  {
    var text := OptionalText(x, row, key);
    if text.Some? && text.value.Some? && !x.isUuid(text.value.value) then None else text
  }

  function DatabaseBoolean(row: Row, key: string): Option<bool> {
    match Field(row, key)
    case Flag(b) => Some(b)
    case Text(t) => if t == "true" then Some(true) else if t == "false" then Some(false) else None
    case _ => None
  }

  /** An accepted time is always a readable one. */
  function OptionalTime(x: Syntax, row: Row, key: string): (r: Option<Option<Stamp>>)
    ensures r.Some? && r.value.Some? ==> r.value.value.At?
  {
    match Field(row, key)
    case Absent => Some(None)
    case Moment(stamp) => if stamp.At? then Some(Some(stamp)) else None
    case Text(t) => if t == "" then Some(None) else if x.time(t).At? then Some(Some(x.time(t))) else None
    case _ => None
  }

  function StringArray(x: Syntax, row: Row, key: string): Option<seq<string>> {
    match Field(row, key)
    case Items(items) => Texts(x, items)
    case _ => None
  }

  function Texts(x: Syntax, items: seq<Value>): Option<seq<string>> {
    if items == [] then Some([])
    else
      var rest := Texts(x, items[1..]);
      if items[0].Text? && x.trim(items[0].text) != "" && rest.Some? then Some([x.trim(items[0].text)] + rest.value)
      else None
  }

  function AllowedPopulations(row: Row): Option<seq<Population>> {
    var employees := DatabaseBoolean(row, "allows_employees");
    var partners := DatabaseBoolean(row, "allows_external_partners");
    if employees.None? || partners.None? || !(employees.value || partners.value) then None
    else Some((if employees.value then [Employee] else []) + (if partners.value then [ExternalPartner] else []))
  }

  // ---------------------------------------------------------------------
  // Names

  function PopulationNamed(name: string): Option<Population> {
    if name == "employee" then Some(Employee) else if name == "external_partner" then Some(ExternalPartner) else None
  }

  function StatusNamed(name: string): Option<UserStatus> {
    if name == "active" then Some(ActiveUser)
    else if name == "suspended" then Some(SuspendedUser)
    else if name == "deprovisioned" then Some(DeprovisionedUser)
    else None
  }

  function LevelNamed(name: string): Option<Level> {
    if name == "user" then Some(UserLevel) else if name == "admin" then Some(AdminLevel) else None
  }

  function RoleNamed(name: string): Option<PlatformRole> {
    if name == "super_admin" then Some(SuperAdmin)
    else if name == "access_admin" then Some(AccessAdmin)
    else if name == "systems_admin" then Some(SystemsAdmin)
    else if name == "application_admin" then Some(ApplicationAdmin)
    else if name == "finance_admin" then Some(FinanceAdmin)
    else if name == "people_admin" then Some(PeopleAdmin)
    else if name == "auditor" then Some(Auditor)
    else None
  }

  /** Whether a status is `active`, for the kinds that have one alternative. */
  function ActiveNamed(name: string, other: string): Option<bool> {
    if name == "active" then Some(true) else if name == other then Some(false) else None
  }

  function Then<A, B>(a: Option<A>, f: A -> Option<B>): Option<B> {
    match a case None => None case Some(v) => f(v)
  }

  // ---------------------------------------------------------------------
  // Rows

  datatype Holding = Holding(user: string, role: PlatformRole)

  function ReadHolding(x: Syntax, known: set<string>, row: Row): Option<Holding> {
    var user := RequiredId(x, row, "user_id");
    var grantor := RequiredId(x, row, "granted_by_user_id");
    var role := Then(RequiredText(x, row, "role"), RoleNamed);
    if user.None? || grantor.None? || role.None? || user.value !in known || grantor.value !in known then None
    else Some(Holding(user.value, role.value))
  }

  predicate BoundFits(population: Population, domain: Option<string>, organisation: Option<string>) {
    if population == Employee then domain.Some? && organisation.None? else domain.None? && organisation.Some?
  }

  function ReadUser(x: Syntax, known: set<string>, held: map<string, seq<PlatformRole>>, row: Row): Option<User> {
    var population := Then(RequiredText(x, row, "population"), PopulationNamed);
    var status := Then(RequiredText(x, row, "status"), StatusNamed);
    var email := RequiredText(x, row, "email");
    var domain := OptionalText(x, row, "workspace_domain");
    var organisation := OptionalId(x, row, "partner_organisation_id");
    var version := x.safeInteger(Field(row, "session_version"));
    var id := RequiredId(x, row, "id");
    var subject := RequiredText(x, row, "identity_subject");
    var issuer := RequiredText(x, row, "identity_issuer");
    var name := RequiredText(x, row, "display_name");
    if population.None? || status.None? || email.None? || domain.None? || organisation.None? || version.None?
      || id.None? || subject.None? || issuer.None? || name.None? then None
    else if !x.isEmail(email.value) || x.lower(email.value) != email.value || version.value < 1 then None
    else if !BoundFits(population.value, domain.value, organisation.value) || id.value !in known then None
    else
      var roles := if id.value in held then Distinct(held[id.value]) else [];
      if population.value != Employee && roles != [] then None
      else
        Some(User(id.value, subject.value, issuer.value, population.value, email.value, name.value, status.value,
                  domain.value, organisation.value, roles, version.value))
  }

  function ReadOrganisation(x: Syntax, row: Row): Option<Organisation> {
    var status := RequiredText(x, row, "status");
    var active := if status.None? then None else ActiveNamed(status.value, "suspended");
    var id := RequiredId(x, row, "id");
    var name := RequiredText(x, row, "name");
    if active.None? || id.None? || name.None? then None else Some(Organisation(id.value, name.value, active.value))
  }

  function ReadTeam(x: Syntax, row: Row): Option<Team> {
    var status := RequiredText(x, row, "status");
    var active := if status.None? then None else ActiveNamed(status.value, "archived");
    var id := RequiredId(x, row, "id");
    var name := RequiredText(x, row, "name");
    var description := OptionalText(x, row, "description");
    if active.None? || id.None? || name.None? || description.None? then None
    else
      Some(Team(id.value, name.value, if description.value.Some? then description.value.value else "", active.value))
  }

  function ReadWindow(x: Syntax, row: Row): Option<Window> {
    var starts := OptionalTime(x, row, "starts_at");
    var expires := OptionalTime(x, row, "expires_at");
    var revoked := OptionalTime(x, row, "revoked_at");
    if starts.None? || expires.None? || revoked.None? then None
    else Some(Window(starts.value, expires.value, revoked.value.Some?))
  }

  function ReadMembership(x: Syntax, known: set<string>, row: Row): Option<Membership> {
    var user := RequiredId(x, row, "user_id");
    var grantor := RequiredId(x, row, "granted_by_user_id");
    var team := RequiredId(x, row, "team_id");
    var window := ReadWindow(x, row);
    if user.None? || grantor.None? || team.None? || window.None? || user.value !in known || grantor.value !in known
    then None
    else Some(Membership(team.value, user.value, window.value))
  }

  function ReadRole(x: Syntax, row: Row): Option<Role> {
    var key := RequiredText(x, row, "role_key");
    var level := Then(RequiredText(x, row, "access_level"), LevelNamed);
    var permissions := StringArray(x, row, "permissions");
    var id := RequiredId(x, row, "id");
    var application := RequiredId(x, row, "application_id");
    var name := RequiredText(x, row, "name");
    var populations := AllowedPopulations(row);
    if key.None? || level.None? || permissions.None? || id.None? || application.None? || name.None?
      || populations.None? || !x.isRoleKey(key.value)
      || (exists p :: p in permissions.value && !x.isPermission(p)) then None
    else
      Some(Role(id.value, application.value, key.value, name.value, level.value, Distinct(permissions.value),
                populations.value))
  }

  function ReadSubject(x: Syntax, row: Row): Option<Subject> {
    var kind := RequiredText(x, row, "subject_type");
    var user := OptionalId(x, row, "user_id");
    var team := OptionalId(x, row, "team_id");
    if kind.None? || user.None? || team.None? then None
    else if kind.value == "user" && user.value.Some? && team.value.None? then Some(ToUser(user.value.value))
    else if kind.value == "team" && team.value.Some? && user.value.None? then Some(ToTeam(team.value.value))
    else None
  }

  function ReadScope(x: Syntax, row: Row): Option<Scope> {
    var organisations := StringArray(x, row, "partner_organisation_ids");
    var all := DatabaseBoolean(row, "all_partner_organisations");
    if organisations.None? || all.None? || (all.value && organisations.value != []) then None
    else Some(Scope(all.value, organisations.value))
  }

  predicate WindowFits(w: Window) {
    w.startsAt.Some? && w.startsAt.value.At? && w.expiresAt.Some? && w.expiresAt.value.At? ==>
      w.startsAt.value.ms < w.expiresAt.value.ms
  }

  function ReadEntitlement(x: Syntax, known: set<string>, row: Row): Option<Entitlement> {
    var subject := ReadSubject(x, row);
    var grantor := RequiredId(x, row, "granted_by_user_id");
    var window := ReadWindow(x, row);
    var scope := ReadScope(x, row);
    var id := RequiredId(x, row, "id");
    var application := RequiredId(x, row, "application_id");
    var role := RequiredId(x, row, "role_id");
    var reason := OptionalText(x, row, "revoked_reason");
    var grantedAt := OptionalTime(x, row, "granted_at");
    if subject.None? || grantor.None? || window.None? || scope.None? || id.None? || application.None? || role.None?
      || reason.None? || grantedAt.None? || grantedAt.value.None? then None
    else if (subject.value.ToUser? && subject.value.user !in known) || grantor.value !in known then None
    else if !WindowFits(window.value) then None
    else
      Some(Entitlement(id.value, application.value, role.value, subject.value, scope.value, window.value,
                       reason.value, grantor.value, grantedAt.value.value))
  }

  // ---------------------------------------------------------------------
  // All rows of a table

  /** The whole table, or nothing if any row fails. */
  function ReadAll<T>(rows: seq<Row>, read: Row -> Option<T>): Option<seq<T>> {
    if rows == [] then Some([])
    else
      var first, rest := read(rows[0]), ReadAll(rows[1..], read);
      if first.None? || rest.None? then None else Some([first.value] + rest.value)
  }

  /** No row is dropped and none invented. */
  lemma {:induction false} ReadAllRows<T>(rows: seq<Row>, read: Row -> Option<T>)
    ensures ReadAll(rows, read).Some? <==> forall i :: 0 <= i < |rows| ==> read(rows[i]).Some?
    ensures ReadAll(rows, read).Some? ==>
      && |ReadAll(rows, read).value| == |rows|
      && (forall i :: 0 <= i < |rows| ==> read(rows[i]) == Some(ReadAll(rows, read).value[i]))
  {
    if rows == [] {
    } else {
      ReadAllRows(rows[1..], read);
      assert forall i :: 0 <= i < |rows| - 1 ==> rows[1..][i] == rows[i + 1];
    }
  }

  lemma {:induction false} ReadAllAgrees<T>(rows: seq<Row>, f: Row -> Option<T>, g: Row -> Option<T>)
    requires forall row :: row in rows ==> f(row) == g(row)
    ensures ReadAll(rows, f) == ReadAll(rows, g)
  {
    if rows == [] {
    } else {
      ReadAllAgrees(rows[1..], f, g);
    }
  }
}
