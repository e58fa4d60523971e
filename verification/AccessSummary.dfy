/** The administrators' summary of who may open an application, and its
    agreement with the decision made at the door. */
module AccessSummary {
  import opened Common
  import opened Lists
  import opened AccessModel
  import opened Evaluator
  import opened AccessLaws

  datatype Entry = Entry(user: string, displayName: string, email: string, level: Level)

  datatype Summary = Summary(application: string, users: seq<Entry>, userCount: nat, adminCount: nat)

  datatype SummaryError = TimeInvalid | NotRegistered

  function RoleLevels(roles: seq<Role>, application: string): map<string, Level> {
    if roles == [] then map[]
    else
      var last := roles[|roles| - 1];
      var earlier := RoleLevels(roles[..|roles| - 1], application);
      if last.application == application && Employee in last.populations then earlier[last.id := last.level] else earlier
  }

  function IsListed(application: string, levels: map<string, Level>, now: int): Entitlement -> bool {
    (e: Entitlement) => e.application == application && e.role in levels && InForce(e.window, now)
  }

  function LevelGiven(user: User, teams: set<string>, levels: map<string, Level>): Entitlement -> seq<Level> {
    (e: Entitlement) => if Applies(e, user, teams) && e.role in levels then [levels[e.role]] else []
  }

  function LevelsOf(user: User, application: string, s: Snapshot, now: int): seq<Level> {
    var levels := RoleLevels(s.roles, application);
    FlatMap(Filter(s.entitlements, IsListed(application, levels, now)),
            LevelGiven(user, ActiveTeams(user, s, now), levels))
  }

  function Highest(levels: seq<Level>): Level {
    if AdminLevel in levels then AdminLevel else UserLevel
  }

  predicate ActiveEmployee(u: User) {
    u.population == Employee && u.status.ActiveUser?
  }

  function EntryFor(user: User, level: Level): Entry {
    Entry(user.id, user.displayName, user.email, level)
  }

  function EntryOf(application: string, s: Snapshot, now: int): User -> seq<Entry> {
    (u: User) =>
      var levels := LevelsOf(u, application, s, now);
      if levels == [] then [] else [EntryFor(u, Highest(levels))]
  }

  function AtLevel(level: Level): Entry -> bool {
    (e: Entry) => e.level == level
  }

  /** `first` stands for the locale's ordering of names and addresses. */
  function BuildSummary(s: Snapshot, application: string, now: Stamp, first: (Entry, Entry) -> bool)
    : Result<Summary, SummaryError>
  {
    if now.Unreadable? then Err(TimeInvalid)
    else if !KnownApplication(s, application) then Err(NotRegistered)
    else
      var entries := FlatMap(Filter(s.users, ActiveEmployee), EntryOf(application, s, now.ms));
      var users := SortBy(entries, first);
      Ok(Summary(application, users, |Filter(users, AtLevel(UserLevel))|, |Filter(users, AtLevel(AdminLevel))|))
  }

  function IsGranted(roleIds: seq<string>): Role -> bool {
    (r: Role) => r.id in roleIds
  }

  function RoleLevel(r: Role): Level { r.level }

  function LevelForGrant(s: Snapshot, grant: Decision): Level
    requires grant.Granted?
  {
    Highest(Map(Filter(s.roles, IsGranted(grant.roleIds)), RoleLevel))
  }

  predicate SatisfiesRole(s: Snapshot, grant: Decision, required: Level)
    requires grant.Granted?
  {
    required == UserLevel || LevelForGrant(s, grant) == AdminLevel
  }

  // ---------------------------------------------------------------------

  lemma {:induction false} RoleLevelsMembers(roles: seq<Role>, application: string)
    ensures forall id :: id in RoleLevels(roles, application) ==>
      exists r :: r in roles && r.id == id && r.application == application && Employee in r.populations
        && r.level == RoleLevels(roles, application)[id]
    ensures forall r :: r in roles && r.application == application && Employee in r.populations ==>
      r.id in RoleLevels(roles, application)
  {
    if roles == [] {
    } else {
      var init := roles[..|roles| - 1];
      RoleLevelsMembers(init, application);
      assert roles == init + [roles[|roles| - 1]];
    }
  }

  ghost predicate HasLevel(u: User, a: Application, s: Snapshot, now: int, permission: Option<string>, level: Level) {
    exists r :: Through(r, u, a, s, now, permission) && r.level == level
  }

  /** An employee's levels are the levels of the roles that grant. */
  lemma LevelsGranted(s: Snapshot, u: User, a: Application, now: int, level: Level)
    requires UniqueRoles(s.roles) && u.population == Employee
    ensures level in LevelsOf(u, a.id, s, now) <==> HasLevel(u, a, s, now, None, level)
  {
    var levels := RoleLevels(s.roles, a.id);
    var teams := ActiveTeams(u, s, now);
    var listed := Filter(s.entitlements, IsListed(a.id, levels, now));
    RoleLevelsMembers(s.roles, a.id);
    FilterKeeps(s.entitlements, IsListed(a.id, levels, now));
    FlatMapMembers(listed, LevelGiven(u, teams, levels));
    if e :| e in listed && level in LevelGiven(u, teams, levels)(e) {
      var r :| r in s.roles && r.id == e.role && r.application == a.id && Employee in r.populations
        && r.level == levels[e.role];
      assert Grants(e, r, u, a, s, now, None);
      assert Through(r, u, a, s, now, None);
    }
    if r, e :| r in s.roles && r.level == level && e in s.entitlements && Grants(e, r, u, a, s, now, None) {
      var q :| q in s.roles && q.id == e.role && q.application == a.id && Employee in q.populations
        && q.level == levels[e.role];
      SameRole(s, q, r);
      assert level in LevelGiven(u, teams, levels)(e);
    }
  }

  lemma GrantLevel(s: Snapshot, grant: Decision)
    requires grant.Granted?
    ensures LevelForGrant(s, grant) == AdminLevel <==>
      exists r :: r in s.roles && r.id in grant.roleIds && r.level == AdminLevel
  {
    var held := Filter(s.roles, IsGranted(grant.roleIds));
    FilterKeeps(s.roles, IsGranted(grant.roleIds));
    MapMembers(held, RoleLevel);
    assert forall r :: r in held && RoleLevel(r) == AdminLevel <==> r in held && r.level == AdminLevel;
  }

  /** A grant is of administrator level exactly when one of the roles it came
      through is; and only then does it satisfy a call for administrators. */
  lemma AdminGrantIff(
    identity: Option<Identity>, applicationId: string, s: Snapshot, now: Stamp, permission: Option<string>)
    requires UniqueLookups(s)
    requires Evaluate(identity, applicationId, s, now, permission).Granted?
    ensures
      var d := Evaluate(identity, applicationId, s, now, permission);
      && now.At?
      && (SatisfiesRole(s, d, AdminLevel) <==> HasLevel(d.user, d.application, s, now.ms, permission, AdminLevel))
  {
    var d := Evaluate(identity, applicationId, s, now, permission);
    GrantFrom(identity, applicationId, s, now, permission);
    GrantLevel(s, d);
    if r :| Through(r, d.user, d.application, s, now.ms, permission) && r.level == AdminLevel {
      GrantedRoles(identity, applicationId, s, now, permission, r.id);
    }
    if r :| r in s.roles && r.id in d.roleIds && r.level == AdminLevel {
      GrantedRoles(identity, applicationId, s, now, permission, r.id);
      var q :| Through(q, d.user, d.application, s, now.ms, permission) && q.id == r.id;
      SameRole(s, q, r);
    }
  }

  lemma ListedIff(s: Snapshot, application: string, now: Stamp, first: (Entry, Entry) -> bool, entry: Entry)
    requires now.At? && KnownApplication(s, application)
    ensures entry in BuildSummary(s, application, now, first).value.users <==>
      exists v :: v in s.users && ActiveEmployee(v) && LevelsOf(v, application, s, now.ms) != []
        && entry == EntryFor(v, Highest(LevelsOf(v, application, s, now.ms)))
  {
    var employees := Filter(s.users, ActiveEmployee);
    var entries := FlatMap(employees, EntryOf(application, s, now.ms));
    SortRearranges(entries, first);
    assert entry in SortBy(entries, first) <==> entry in multiset(SortBy(entries, first));
    FilterKeeps(s.users, ActiveEmployee);
    FlatMapMember(employees, EntryOf(application, s, now.ms), entry);
  }

  lemma SameIdSameLevels(u: User, v: User, application: string, s: Snapshot, now: int)
    requires u.id == v.id
    ensures LevelsOf(u, application, s, now) == LevelsOf(v, application, s, now)
  {
    var levels := RoleLevels(s.roles, application);
    var teams := ActiveTeams(u, s, now);
    assert teams == ActiveTeams(v, s, now);
    FlatMapAgrees(Filter(s.entitlements, IsListed(application, levels, now)),
                  LevelGiven(u, teams, levels), LevelGiven(v, teams, levels));
  }

  lemma EntryListed(
    s: Snapshot, a: Application, u: User, now: Stamp, first: (Entry, Entry) -> bool, level: Level)
    requires now.At? && a in s.applications && u in s.users && ActiveEmployee(u)
    ensures BuildSummary(s, a.id, now, first).Ok?
    ensures EntryFor(u, level) in BuildSummary(s, a.id, now, first).value.users <==>
      LevelsOf(u, a.id, s, now.ms) != [] && level == Highest(LevelsOf(u, a.id, s, now.ms))
  {
    assert KnownApplication(s, a.id);
    ListedIff(s, a.id, now, first, EntryFor(u, level));
    forall v: User | v.id == u.id ensures LevelsOf(v, a.id, s, now.ms) == LevelsOf(u, a.id, s, now.ms) {
      SameIdSameLevels(u, v, a.id, s, now.ms);
    }
  }

  lemma EmployeeAllowedIff(s: Snapshot, a: Application, u: User, identity: Identity, now: Stamp)
    requires ValidSnapshot(s) && now.At?
    requires a in s.applications && a.status.Live? && Employee in a.populations
    requires u in s.users && ActiveEmployee(u)
    requires Verified(identity, now.ms) && Matches(identity, u)
    ensures
      var decision := Evaluate(Some(identity), a.id, s, now, None);
      && (decision.Granted? <==> HasLevel(u, a, s, now.ms, None, UserLevel) || HasLevel(u, a, s, now.ms, None, AdminLevel))
      && (decision.Granted? ==> decision.user == u && decision.application == a)
  {
    GateAdmits(Some(identity), a.id, s, now, u, a);
    DecideMeans(s, u, a, now.ms, None);
    SomeLevel(s, u, a, now.ms);
  }

  lemma SomeLevel(s: Snapshot, u: User, a: Application, now: int)
    ensures AnyGrants(u, a, s, now, None) <==>
      HasLevel(u, a, s, now, None, UserLevel) || HasLevel(u, a, s, now, None, AdminLevel)
  {
    if e, r :| e in s.entitlements && r in s.roles && Grants(e, r, u, a, s, now, None) {
      assert Through(r, u, a, s, now, None);
      assert HasLevel(u, a, s, now, None, r.level);
    }
    forall r | Through(r, u, a, s, now, None) ensures AnyGrants(u, a, s, now, None) {
      var e :| e in s.entitlements && Grants(e, r, u, a, s, now, None);
    }
  }

  lemma GrantedLevel(s: Snapshot, a: Application, u: User, identity: Identity, now: Stamp, level: Level)
    requires ValidSnapshot(s) && now.At?
    requires a in s.applications && a.status.Live? && Employee in a.populations
    requires u in s.users && ActiveEmployee(u)
    requires Verified(identity, now.ms) && Matches(identity, u)
    ensures
      var decision := Evaluate(Some(identity), a.id, s, now, None);
      var levels := LevelsOf(u, a.id, s, now.ms);
      decision.Granted? && level == LevelForGrant(s, decision) <==> levels != [] && level == Highest(levels)
  {
    var decision := Evaluate(Some(identity), a.id, s, now, None);
    var levels := LevelsOf(u, a.id, s, now.ms);
    EmployeeAllowedIff(s, a, u, identity, now);
    LevelsGranted(s, u, a, now.ms, AdminLevel);
    LevelsGranted(s, u, a, now.ms, UserLevel);
    if levels != [] {
      assert levels[0] in levels && (levels[0].UserLevel? || levels[0].AdminLevel?);
    }
    if decision.Granted? {
      AdminGrantIff(Some(identity), a.id, s, now, None);
    }
  }

  /** Whoever the evaluator lets in is listed, with the grant's own level,
      and nobody else is. */
  lemma SummaryAgrees(
    s: Snapshot, a: Application, u: User, identity: Identity, now: Stamp, first: (Entry, Entry) -> bool, level: Level)
    requires ValidSnapshot(s) && now.At?
    requires a in s.applications && a.status.Live? && Employee in a.populations
    requires u in s.users && u.population == Employee && u.status == ActiveUser
    requires Verified(identity, now.ms) && Matches(identity, u)
    ensures
      var summary := BuildSummary(s, a.id, now, first);
      var decision := Evaluate(Some(identity), a.id, s, now, None);
      && summary.Ok?
      && (Entry(u.id, u.displayName, u.email, level) in summary.value.users <==>
            decision.Granted? && level == LevelForGrant(s, decision))
  {
    EntryListed(s, a, u, now, first, level);
    GrantedLevel(s, a, u, identity, now, level);
  }

  predicate OpenToEmployees(a: Application) {
    a.status.Live? && Employee in a.populations
  }

  predicate Listed(summary: Summary, u: User) {
    EntryFor(u, UserLevel) in summary.users || EntryFor(u, AdminLevel) in summary.users
  }

  lemma SomeLevelListed(s: Snapshot, a: Application, u: User, now: int)
    requires UniqueRoles(s.roles) && u.population == Employee
    ensures LevelsOf(u, a.id, s, now) != [] <==>
      HasLevel(u, a, s, now, None, UserLevel) || HasLevel(u, a, s, now, None, AdminLevel)
  {
    var levels := LevelsOf(u, a.id, s, now);
    LevelsGranted(s, u, a, now, UserLevel);
    LevelsGranted(s, u, a, now, AdminLevel);
    if levels != [] {
      assert levels[0] in levels && (levels[0].UserLevel? || levels[0].AdminLevel?);
    }
  }

  lemma GrantedAtTheDoor(s: Snapshot, a: Application, u: User, identity: Identity, now: Stamp)
    requires UniqueLookups(s) && a in s.applications && u in s.users && Matches(identity, u)
    ensures Evaluate(Some(identity), a.id, s, now, None).Granted? ==> a.status.Live? && u.population in a.populations
  {
    var d := Evaluate(Some(identity), a.id, s, now, None);
    if d.Granted? {
      GrantFrom(Some(identity), a.id, s, now, None);
      SameApplication(s, a, d.application);
      SameUser(s, u, d.user);
    }
  }

  /** The summary looks at neither the application's status nor whom it
      allows: for an application that is closed to employees it lists exactly
      the people the evaluator turns away at that application's door. */
  lemma SummaryDisagreesIff(
    s: Snapshot, a: Application, u: User, identity: Identity, now: Stamp, first: (Entry, Entry) -> bool)
    requires ValidSnapshot(s) && now.At?
    requires a in s.applications
    requires u in s.users && u.population == Employee && u.status == ActiveUser
    requires Verified(identity, now.ms) && Matches(identity, u)
    ensures
      var summary := BuildSummary(s, a.id, now, first);
      && summary.Ok?
      && (Listed(summary.value, u) != Evaluate(Some(identity), a.id, s, now, None).Granted? <==>
            && !OpenToEmployees(a)
            && (HasLevel(u, a, s, now.ms, None, UserLevel) || HasLevel(u, a, s, now.ms, None, AdminLevel)))
  {
    SomeLevelListed(s, a, u, now.ms);
    EntryListed(s, a, u, now, first, UserLevel);
    EntryListed(s, a, u, now, first, AdminLevel);
    if OpenToEmployees(a) {
      GrantedLevel(s, a, u, identity, now, UserLevel);
      GrantedLevel(s, a, u, identity, now, AdminLevel);
    } else {
      GrantedAtTheDoor(s, a, u, identity, now);
    }
  }

  const EMPLOYEE := User("u", "s", "i", Employee, "e", "n", ActiveUser, Some("d"), None, [], 1)
  const RETIRED := Application("p", "app", Retired, [Employee])
  const MEMBER := Role("r", "p", "user", "User", UserLevel, [], [Employee])
  const GIVEN := Entitlement("g", "p", "r", ToUser("u"), Scope(false, []), Window(None, None, false), None, "u", At(0))
  const RETIRED_SNAPSHOT := Snapshot([EMPLOYEE], [], [], [], [RETIRED], [MEMBER], [GIVEN])

  lemma RetiredIsValid()
    ensures ValidSnapshot(RETIRED_SNAPSHOT)
  {
    assert RETIRED in RETIRED_SNAPSHOT.applications && MEMBER in RETIRED_SNAPSHOT.roles;
    assert KnownApplication(RETIRED_SNAPSHOT, "p") && RoleKnown(RETIRED_SNAPSHOT, GIVEN);
  }

  /** The summary of a retired application lists an employee whom the
      evaluator turns away. */
  lemma RetiredStillListed(first: (Entry, Entry) -> bool)
    ensures
      var identity := Identity("s", "i", Employee, true, At(0), Some("d"));
      var summary := BuildSummary(RETIRED_SNAPSHOT, "p", At(0), first);
      && summary.Ok? && Entry("u", "n", "e", UserLevel) in summary.value.users
      && Evaluate(Some(identity), "p", RETIRED_SNAPSHOT, At(0), None).Denied?
  {
    var identity := Identity("s", "i", Employee, true, At(0), Some("d"));
    RetiredIsValid();
    assert EMPLOYEE in RETIRED_SNAPSHOT.users && RETIRED in RETIRED_SNAPSHOT.applications;
    assert GIVEN in RETIRED_SNAPSHOT.entitlements && MEMBER in RETIRED_SNAPSHOT.roles;
    assert Grants(GIVEN, MEMBER, EMPLOYEE, RETIRED, RETIRED_SNAPSHOT, 0, None);
    assert Through(MEMBER, EMPLOYEE, RETIRED, RETIRED_SNAPSHOT, 0, None);
    assert HasLevel(EMPLOYEE, RETIRED, RETIRED_SNAPSHOT, 0, None, UserLevel);
    OnlyMember();
    SomeLevelListed(RETIRED_SNAPSHOT, RETIRED, EMPLOYEE, 0);
    EntryListed(RETIRED_SNAPSHOT, RETIRED, EMPLOYEE, At(0), first, UserLevel);
    LevelsGranted(RETIRED_SNAPSHOT, EMPLOYEE, RETIRED, 0, AdminLevel);
    GrantedAtTheDoor(RETIRED_SNAPSHOT, RETIRED, EMPLOYEE, identity, At(0));
  }

  lemma OnlyMember()
    ensures !HasLevel(EMPLOYEE, RETIRED, RETIRED_SNAPSHOT, 0, None, AdminLevel)
  {
    assert forall r :: r in RETIRED_SNAPSHOT.roles ==> r == MEMBER;
  }

  lemma {:induction false} LevelsPartition(entries: seq<Entry>)
    ensures |Filter(entries, AtLevel(UserLevel))| + |Filter(entries, AtLevel(AdminLevel))| == |entries|
  {
    if entries == [] {
    } else {
      LevelsPartition(entries[1..]);
    }
  }

  /** Everyone listed is counted once. */
  lemma CountsAddUp(s: Snapshot, application: string, now: Stamp, first: (Entry, Entry) -> bool)
    requires BuildSummary(s, application, now, first).Ok?
    ensures
      var summary := BuildSummary(s, application, now, first).value;
      summary.userCount + summary.adminCount == |summary.users|
  {
    LevelsPartition(BuildSummary(s, application, now, first).value.users);
  }

  function EntryLevel(e: Entry): Level { e.level }

  lemma {:induction false} FilterCounts(entries: seq<Entry>, level: Level)
    ensures |Filter(entries, AtLevel(level))| == multiset(Map(entries, EntryLevel))[level]
  {
    if entries == [] {
    } else {
      var rest := entries[1..];
      FilterCounts(rest, level);
      assert Map(entries, EntryLevel) == [entries[0].level] + Map(rest, EntryLevel);
    }
  }

  /** Each count is how often its level occurs in the list. */
  lemma CountsAreByLevel(s: Snapshot, application: string, now: Stamp, first: (Entry, Entry) -> bool)
    requires BuildSummary(s, application, now, first).Ok?
    ensures
      var summary := BuildSummary(s, application, now, first).value;
      && summary.application == application
      && summary.userCount == multiset(Map(summary.users, EntryLevel))[UserLevel]
      && summary.adminCount == multiset(Map(summary.users, EntryLevel))[AdminLevel]
  {
    var summary := BuildSummary(s, application, now, first).value;
    FilterCounts(summary.users, UserLevel);
    FilterCounts(summary.users, AdminLevel);
  }

  /** There is no summary exactly without a time or without the application. */
  lemma SummaryFailsIff(s: Snapshot, application: string, now: Stamp, first: (Entry, Entry) -> bool)
    ensures BuildSummary(s, application, now, first) == Err(TimeInvalid) <==> now == Unreadable
    ensures BuildSummary(s, application, now, first) == Err(NotRegistered) <==>
      now != Unreadable && forall a :: a in s.applications ==> a.id != application
  {
  }

  /** Any grant satisfies a call for users. */
  lemma UserLevelAlwaysDoes(s: Snapshot, grant: Decision)
    requires grant.Granted?
    ensures SatisfiesRole(s, grant, UserLevel)
  {
  }

  /** An entry is listed exactly for an active employee whom some role through
      an entitlement in force gives a level; it carries that person's id, name
      and address, and the administrator level if any of the roles has it. */
  lemma SummaryListsIff(
    s: Snapshot, a: Application, now: Stamp, first: (Entry, Entry) -> bool, entry: Entry)
    requires ValidSnapshot(s) && now.At? && a in s.applications
    ensures BuildSummary(s, a.id, now, first).Ok?
    ensures entry in BuildSummary(s, a.id, now, first).value.users <==>
      exists u :: u in s.users && u.population == Employee && u.status == ActiveUser
        && entry.user == u.id && entry.displayName == u.displayName && entry.email == u.email
        && HasLevel(u, a, s, now.ms, None, entry.level)
        && (entry.level == UserLevel ==> !HasLevel(u, a, s, now.ms, None, AdminLevel))
  {
    assert KnownApplication(s, a.id);
    ListedIff(s, a.id, now, first, entry);
    forall u | u in s.users && u.population == Employee
      ensures LevelsOf(u, a.id, s, now.ms) != [] && entry.level == Highest(LevelsOf(u, a.id, s, now.ms)) <==>
        && HasLevel(u, a, s, now.ms, None, entry.level)
        && (entry.level == UserLevel ==> !HasLevel(u, a, s, now.ms, None, AdminLevel))
    {
      SomeLevelListed(s, a, u, now.ms);
      LevelsGranted(s, u, a, now.ms, UserLevel);
      LevelsGranted(s, u, a, now.ms, AdminLevel);
    }
  }
}
