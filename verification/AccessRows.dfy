/** Each access statement said row by row: under which conditions it changes
    which rows, what they are afterwards, what it records, and what it answers.
    Conditions and results are in the columns' own terms. */
module AccessRows {
  import opened Common
  import opened AccessModel
  import opened AccessTables
  import opened AccessRuns

  // ---------------------------------------------------------------------
  // Conditions

  /** An active employee with one of the two administrator roles. */
  ghost predicate IsAdmin(db: Db, u: UserId) {
    && u in db.people && db.people[u].population == Employee && db.people[u].status == ActiveUser
    && exists r :: r in {SuperAdmin, AccessAdmin} && (u, r) in db.roles
  }

  /** The request counts: its actor is an administrator and its id is new. */
  ghost predicate Counts(db: Db, actor: UserId, key: string) { IsAdmin(db, actor) && key !in db.keys }

  ghost predicate IsEmployee(db: Db, u: UserId) { u in db.people && db.people[u].population == Employee }

  function Named(level: Level): string {
    if level == AdminLevel then "admin" else "user"
  }

  /** Role row `i` gives employees the level, under the level's own name. */
  ghost predicate Gives(roles: seq<RoleRow>, i: int, level: Level) {
    0 <= i < |roles| && roles[i] == RoleRow(Named(level), level, true)
  }

  /** An unrevoked entitlement of `u` to `a`. */
  predicate Unrevoked(g: Grant, u: UserId, a: AppId) {
    g.holder == Some(u) && g.app == a && g.revoked == false
  }

  /** Under way at `now`: started, and not yet over. */
  ghost predicate Current(g: Grant, now: int) {
    && (forall t :: g.startsAt == Some(t) ==> t <= now)
    && (forall t :: g.expiresAt == Some(t) ==> now < t)
  }

  lemma ConditionsIff(db: Db, u: UserId, key: string)
    ensures Administers(db, u) <==> IsAdmin(db, u)
    ensures Claims(db, u, key) <==> Counts(db, u, key)
  {
    assert SuperAdmin in {SuperAdmin, AccessAdmin} && AccessAdmin in {SuperAdmin, AccessAdmin};
  }

  lemma GivesIff(roles: seq<RoleRow>, i: int, level: Level)
    ensures 0 <= i < |roles| && OffersLevel(roles[i], level) <==> Gives(roles, i, level)
  {
  }

  lemma RoleFound(roles: seq<RoleRow>, level: Level)
    ensures FindRole(roles, level).Some? ==> Gives(roles, FindRole(roles, level).value, level)
    ensures FindRole(roles, level).None? ==> forall i :: !Gives(roles, i, level)
  {
  }

  lemma CurrentIff(g: Grant, now: int)
    ensures InWindow(g, now) <==> Current(g, now)
  {
  }

  // ---------------------------------------------------------------------
  // Results

  /** The request id is used up, or was not to be counted. */
  ghost predicate KeyNoted(db: Db, after: Db, actor: UserId, key: string) {
    forall k :: k in after.keys <==> k in db.keys || (k == key && Counts(db, actor, key))
  }

  ghost predicate SamePeople(db: Db, after: Db) { after.people == db.people }

  /** Person `u` is `row` after, and nobody else moved. */
  ghost predicate OnlyPerson(db: Db, after: Db, u: UserId, row: Person) {
    && u in after.people && after.people[u] == row
    && forall v :: v != u ==> (v in after.people <==> v in db.people) && (v in db.people ==> after.people[v] == db.people[v])
  }

  /** `u` holds the role after, or does not, and no other role moved. */
  ghost predicate OnlyRole(db: Db, after: Db, u: UserId, role: PlatformRole, held: bool) {
    forall v, r :: (v, r) in after.roles <==> if v == u && r == role then held else (v, r) in db.roles
  }

  /** The entitlements are those before, with `u`'s live ones to `a` revoked
      in their places, and then `added`. */
  ghost predicate OnlyRevoked(before: seq<Grant>, after: seq<Grant>, u: UserId, a: AppId, added: seq<Grant>) {
    && |after| == |before| + |added|
    && (forall i :: 0 <= i < |before| ==>
          after[i] == if Unrevoked(before[i], u, a) then before[i].(revoked := true) else before[i])
    && (forall i :: 0 <= i < |added| ==> after[|before| + i] == added[i])
  }

  ghost predicate Recorded(db: Db, after: Db, events: seq<Audit>) { after.audit == db.audit + events }

  function Fresh(a: AppId, role: nat, u: UserId): Grant { Grant(a, role, Some(u), None, None, false) }

  // ---------------------------------------------------------------------
  // A status

  ghost predicate StatusMoves(db: Db, s: Step)
    requires s.SetStatus?
  {
    && Counts(db, s.actor, s.key) && s.target in db.people
    && (if s.suspend then (s.target, SuperAdmin) !in db.roles && db.people[s.target].status != SuspendedUser
        else db.people[s.target].status != ActiveUser)
  }

  /** A status statement suspends or reactivates exactly a person who is there
      and not so yet, and never suspends a super administrator; it records one
      event, and touches nothing else. */
  lemma StatusRows(db: Db, s: Step)
    requires s.SetStatus? && Enabled(db, s)
    ensures
      var after := Apply(db, s);
      && after.apps == db.apps && after.roles == db.roles && after.grants == db.grants
      && KeyNoted(db, after, s.actor, s.key)
      && (if StatusMoves(db, s) then
            && OnlyPerson(db, after, s.target, db.people[s.target].(status := if s.suspend then SuspendedUser else ActiveUser))
            && Recorded(db, after, [Audit(StatusChanged, Some(s.key), s.target)])
          else SamePeople(db, after) && Recorded(db, after, []))
  {
    ConditionsIff(db, s.actor, s.key);
  }

  /** Each answer, by what the tables hold. */
  lemma StatusAnswers(db: Db, s: Step)
    requires s.SetStatus?
    ensures
      var reply := ReplyTo(db, s);
      var super := s.target in db.people && (s.target, SuperAdmin) in db.roles;
      && (reply == NotAdministrator <==> !IsAdmin(db, s.actor))
      && (reply == SuperAdminProtected <==> IsAdmin(db, s.actor) && s.suspend && super)
      && (reply == Duplicate <==> IsAdmin(db, s.actor) && !(s.suspend && super) && s.key in db.keys)
      && (reply == Missing <==> Counts(db, s.actor, s.key) && s.target !in db.people)
      && (reply == Changed <==> StatusMoves(db, s))
      && (reply == Unchanged <==>
            Counts(db, s.actor, s.key) && s.target in db.people && !(s.suspend && super) && !StatusMoves(db, s))
  {
    ConditionsIff(db, s.actor, s.key);
  }

  // ---------------------------------------------------------------------
  // A platform role

  ghost predicate RoleMoves(db: Db, s: Step)
    requires s.SetRole?
  {
    Counts(db, s.actor, s.key) && IsEmployee(db, s.target) && (s.enabled <==> (s.target, s.role) !in db.roles)
  }

  /** Super or systems administrator. */
  ghost predicate RunsSystems(db: Db, u: UserId) {
    exists r :: r in {SuperAdmin, SystemsAdmin} && (u, r) in db.roles
  }

  /** What the role trigger does for `u`: it gives the SuperPanel
      administrator's entitlement to somebody with a systems role who lacks
      it, and revokes every SuperPanel entitlement of anybody without one. */
  ghost predicate PanelMoves(db: Db, after: Db, u: UserId) {
    && after.apps == db.apps && after.people == db.people && after.roles == db.roles && after.keys == db.keys
    && (if RunsSystems(db, u) then
          if exists g :: g in db.grants && Unrevoked(g, u, 0) && g.role == 1
          then after.grants == db.grants && Recorded(db, after, [])
          else
            && after.grants == db.grants + [Fresh(0, 1, u)]
            && Recorded(db, after, [Audit(PanelSynced, None, |db.grants|)])
        else if exists g :: g in db.grants && Unrevoked(g, u, 0)
        then OnlyRevoked(db.grants, after.grants, u, 0, []) && Recorded(db, after, [Audit(PanelRevoked, None, u)])
        else after.grants == db.grants && Recorded(db, after, []))
  }

  lemma PanelRows(db: Db, u: UserId)
    ensures PanelMoves(db, Synced(db, u), u)
  {
    assert SuperAdmin in {SuperAdmin, SystemsAdmin} && SystemsAdmin in {SuperAdmin, SystemsAdmin};
    assert HasSystems(db.roles, u) <==> RunsSystems(db, u);
    assert HoldsPanel(db.grants, u) <==> exists g :: g in db.grants && Unrevoked(g, u, 0) && g.role == 1;
    assert HoldsAny(db.grants, u, 0) <==> exists g :: g in db.grants && Unrevoked(g, u, 0);
  }

  /** A role statement gives or takes exactly that role of an employee who did
      not, or did, hold it, and records it; then the trigger acts for the one
      person. */
  lemma RoleRows(db: Db, s: Step) returns (mid: Db)
    requires s.SetRole? && Enabled(db, s)
    ensures
      && mid.apps == db.apps && SamePeople(db, mid) && mid.grants == db.grants && KeyNoted(db, mid, s.actor, s.key)
      && (if RoleMoves(db, s) then
            && OnlyRole(db, mid, s.target, s.role, s.enabled)
            && Recorded(db, mid, [Audit(if s.enabled then RoleGranted else RoleRevoked, Some(s.key), s.target)])
            && PanelMoves(mid, Apply(db, s), s.target)
          else mid.roles == db.roles && Recorded(db, mid, []) && Apply(db, s) == mid)
  {
    hide PanelMoves;
    ConditionsIff(db, s.actor, s.key);
    if RoleMoves(db, s) {
      mid := WithRole(db, s);
      PanelRows(mid, s.target);
    } else {
      mid := Apply(db, s);
    }
  }

  lemma RoleAnswers(db: Db, s: Step)
    requires s.SetRole?
    ensures
      var reply := ReplyTo(db, s);
      var outsider := s.target in db.people && db.people[s.target].population != Employee;
      && (reply == NotAdministrator <==> !IsAdmin(db, s.actor))
      && (reply == EmployeesOnly <==> IsAdmin(db, s.actor) && outsider)
      && (reply == Duplicate <==> IsAdmin(db, s.actor) && !outsider && s.key in db.keys)
      && (reply == Missing <==> Counts(db, s.actor, s.key) && s.target !in db.people)
      && (reply == Changed <==> RoleMoves(db, s))
      && (reply == Unchanged <==> Counts(db, s.actor, s.key) && IsEmployee(db, s.target) && !RoleMoves(db, s))
  {
    ConditionsIff(db, s.actor, s.key);
  }

  // ---------------------------------------------------------------------
  // Application access

  /** The employee and the application are there, and the application is not
      one everybody has. */
  ghost predicate Reaches(db: Db, s: Step, a: AppId)
    requires s.SetAccess?
  {
    && Counts(db, s.actor, s.key) && IsEmployee(db, s.target)
    && a < |db.apps| && db.apps[a].slug == s.slug && db.apps[a].everyone == false
  }

  /** An access statement for an application that is there: for a level the
      application gives, it revokes what the person holds of the application
      and adds the one entitlement; to take access away, it revokes what they
      hold, if they hold anything. It records one event when it does so, and
      touches nothing else. */
  lemma AccessMoves(db: Db, s: Step, a: AppId)
    requires s.SetAccess? && Enabled(db, s) && FindApp(db.apps, s.slug) == Some(a)
    ensures
      var after := Apply(db, s);
      && after.apps == db.apps && SamePeople(db, after) && after.roles == db.roles
      && KeyNoted(db, after, s.actor, s.key)
      && (Reaches(db, s, a) && s.level.Some? && (exists i :: Gives(db.apps[a].roles, i, s.level.value)) ==>
            && Recorded(db, after, [Audit(AccessChanged, Some(s.key), s.target)])
            && exists i :: Gives(db.apps[a].roles, i, s.level.value)
                 && OnlyRevoked(db.grants, after.grants, s.target, a, [Fresh(a, i, s.target)]))
      && (Reaches(db, s, a) && s.level.None? && (exists g :: g in db.grants && Unrevoked(g, s.target, a)) ==>
            && Recorded(db, after, [Audit(AccessChanged, Some(s.key), s.target)])
            && OnlyRevoked(db.grants, after.grants, s.target, a, []))
      && (!Reaches(db, s, a)
          || (s.level.Some? && forall i :: !Gives(db.apps[a].roles, i, s.level.value))
          || (s.level.None? && forall g :: g in db.grants ==> !Unrevoked(g, s.target, a)) ==>
            after.grants == db.grants && Recorded(db, after, []))
  {
    ConditionsIff(db, s.actor, s.key);
    if s.level.Some? {
      RoleFound(db.apps[a].roles, s.level.value);
      var role := FindRole(db.apps[a].roles, s.level.value);
      if role.Some? && Reaches(db, s, a) {
        assert OnlyRevoked(db.grants, Apply(db, s).grants, s.target, a, [Fresh(a, role.value, s.target)]);
      }
    }
  }

  /** Without such an application nothing moves but the request id. */
  lemma AccessNowhere(db: Db, s: Step)
    requires s.SetAccess? && Enabled(db, s) && forall a :: 0 <= a < |db.apps| ==> db.apps[a].slug != s.slug
    ensures
      var after := Apply(db, s);
      && after == db.(keys := after.keys) && KeyNoted(db, after, s.actor, s.key)
      && (ReplyTo(db, s) == Missing <==> Counts(db, s.actor, s.key))
  {
    ConditionsIff(db, s.actor, s.key);
  }

  lemma AccessAnswers(db: Db, s: Step, a: AppId)
    requires s.SetAccess? && FindApp(db.apps, s.slug) == Some(a)
    ensures
      var reply := ReplyTo(db, s);
      var given := s.level.Some? && exists i :: Gives(db.apps[a].roles, i, s.level.value);
      var held := exists g :: g in db.grants && Unrevoked(g, s.target, a);
      && (reply == NotAdministrator <==> !IsAdmin(db, s.actor))
      && (reply == OpenToEveryone <==> IsAdmin(db, s.actor) && db.apps[a].everyone)
      && (reply == Duplicate <==> IsAdmin(db, s.actor) && !db.apps[a].everyone && s.key in db.keys)
      && (reply == Missing <==>
            Counts(db, s.actor, s.key) && !db.apps[a].everyone && (!IsEmployee(db, s.target) || (s.level.Some? && !given)))
      && (reply == Changed <==> Reaches(db, s, a) && (if s.level.Some? then given else held))
      && (reply == Unchanged <==> Reaches(db, s, a) && s.level.None? && !held)
  {
    ConditionsIff(db, s.actor, s.key);
    if s.level.Some? { RoleFound(db.apps[a].roles, s.level.value); }
  }

  // ---------------------------------------------------------------------
  // An invitation

  /** Somebody with this address, in any letter case, has signed in. */
  ghost predicate SignedIn(db: Db, email: string) {
    exists u :: u in db.people && db.people[u].email == Lower(email) && db.people[u].bound == true
  }

  /** A company-wide application that gives a user level, and of which the
      person holds nothing current. */
  ghost predicate Due(db: Db, u: UserId, now: int, a: AppId) {
    && a < |db.apps| && db.apps[a].everyone == true && (exists i :: Gives(db.apps[a].roles, i, UserLevel))
    && forall g :: g in db.grants && Unrevoked(g, u, a) ==> !Current(g, now)
  }

  lemma DueIff(db: Db, u: UserId, now: int, a: AppId)
    ensures Evergreen(db, u, now, a) <==> Due(db, u, now, a)
  {
    if a < |db.apps| { RoleFound(db.apps[a].roles, UserLevel); }
    forall g: Grant ensures InWindow(g, now) <==> Current(g, now) { CurrentIff(g, now); }
  }

  /** One user-level entitlement for each of the first n applications that is
      due, in their order, and no other. */
  ghost predicate GivesDue(db: Db, added: seq<Grant>, u: UserId, now: int, n: nat) {
    && (forall k :: 0 <= k < |added| ==>
          && added[k].app < n && Due(db, u, now, added[k].app)
          && Gives(db.apps[added[k].app].roles, added[k].role, UserLevel)
          && added[k] == Fresh(added[k].app, added[k].role, u))
    && (forall j, k :: 0 <= j < k < |added| ==> added[j].app < added[k].app)
    && (forall a: nat :: a < n && Due(db, u, now, a) ==> exists k :: 0 <= k < |added| && added[k].app == a)
  }

  lemma {:induction false} EvergreenRows(db: Db, u: UserId, now: int, n: nat)
    requires n <= |db.apps|
    ensures GivesDue(db, EvergreenGrants(db, u, now, n), u, now, n)
  {
    hide GivesDue, Due, Evergreen;
    if n == 0 {
      NothingDue(db, u, now);
    } else {
      EvergreenRows(db, u, now, n - 1);
      DueIff(db, u, now, n - 1);
      EvergreenRole(db, u, now, n - 1);
      RoleFound(db.apps[n - 1].roles, UserLevel);
      var earlier := EvergreenGrants(db, u, now, n - 1);
      if Evergreen(db, u, now, n - 1) {
        OneMoreDue(db, earlier, u, now, n - 1, FindRole(db.apps[n - 1].roles, UserLevel).value);
      } else {
        assert EvergreenGrants(db, u, now, n) == earlier;
        NoMoreDue(db, earlier, u, now, n - 1);
      }
    }
  }

  lemma NothingDue(db: Db, u: UserId, now: int)
    ensures GivesDue(db, [], u, now, 0)
  {
  }

  lemma NoMoreDue(db: Db, earlier: seq<Grant>, u: UserId, now: int, a: nat)
    requires GivesDue(db, earlier, u, now, a) && !Due(db, u, now, a)
    ensures GivesDue(db, earlier, u, now, a + 1)
  {
    hide Due;
  }

  lemma OneMoreDue(db: Db, earlier: seq<Grant>, u: UserId, now: int, a: nat, role: nat)
    requires GivesDue(db, earlier, u, now, a) && Due(db, u, now, a) && a < |db.apps|
    requires Gives(db.apps[a].roles, role, UserLevel)
    ensures GivesDue(db, earlier + [Fresh(a, role, u)], u, now, a + 1)
  {
    hide Due, Gives;
    var added := earlier + [Fresh(a, role, u)];
    forall b: nat | b < a + 1 && Due(db, u, now, b) ensures exists k :: 0 <= k < |added| && added[k].app == b {
      if b < a {
        var k :| 0 <= k < |earlier| && earlier[k].app == b;
        assert added[k] == earlier[k];
      } else {
        assert added[|earlier|].app == b;
      }
    }
  }

  lemma EvergreenRole(db: Db, u: UserId, now: int, a: AppId)
    ensures Evergreen(db, u, now, a) ==> FindRole(db.apps[a].roles, UserLevel).Some?
  {
  }

  lemma {:induction false} EventAt(action: Action, request: Option<string>, first: nat, count: nat, k: nat)
    requires k < count
    ensures GrantEvents(action, request, first, count)[k] == Audit(action, request, first + k)
    decreases count
  {
    if k == 0 {
    } else {
      EventAt(action, request, first + 1, count - 1, k - 1);
    }
  }

  /** One event for each entitlement added, in order. */
  ghost predicate EachRecorded(events: seq<Audit>, action: Action, request: Option<string>, first: nat, count: nat) {
    |events| == count && forall k :: 0 <= k < count ==> events[k] == Audit(action, request, first + k)
  }

  lemma EventsEach(action: Action, request: Option<string>, first: nat, count: nat)
    ensures EachRecorded(GrantEvents(action, request, first, count), action, request, first, count)
  {
    forall k | 0 <= k < count ensures GrantEvents(action, request, first, count)[k] == Audit(action, request, first + k) {
      EventAt(action, request, first, count, k);
    }
  }

  /** Whom the invitation leaves: somebody known keeps everything but the
      display name, somebody new is an active employee who has not signed in. */
  function InvitedRow(db: Db, s: Step): Person
    requires s.Invite?
  {
    if s.user in db.people then db.people[s.user].(displayName := s.name)
    else Person(Employee, ActiveUser, Lower(s.email), s.name, false)
  }

  /** An invitation that counts, of somebody who has not signed in, sets their
      row and gives them what is due, one event each and one for itself. It
      undoes everything if SuperPanel would be due; if it does not count it
      changes nothing, and for somebody signed in only its id is used up. */
  lemma InviteRows(db: Db, s: Step)
    requires s.Invite? && Enabled(db, s)
    ensures
      var after := Apply(db, s);
      && (!Counts(db, s.actor, s.key) ==> after == db)
      && (Counts(db, s.actor, s.key) && SignedIn(db, s.email) ==>
            after == db.(keys := after.keys) && KeyNoted(db, after, s.actor, s.key))
      && (Counts(db, s.actor, s.key) && !SignedIn(db, s.email) && Due(db, s.user, s.now, 0) ==> after == db)
      && (Counts(db, s.actor, s.key) && !SignedIn(db, s.email) && !Due(db, s.user, s.now, 0) ==>
            && after.apps == db.apps && after.roles == db.roles && KeyNoted(db, after, s.actor, s.key)
            && OnlyPerson(db, after, s.user, InvitedRow(db, s))
            && exists added, events ::
                 && after.grants == db.grants + added && GivesDue(db, added, s.user, s.now, |db.apps|)
                 && EachRecorded(events, EvergreenGranted, Some(s.key), |db.grants|, |added|)
                 && Recorded(db, after, events + [Audit(UserInvited, Some(s.key), s.user)]))
  {
    hide Due, Evergreen, EvergreenGrants, GivesDue, GrantEvents, EachRecorded;
    ConditionsIff(db, s.actor, s.key);
    DueIff(db, s.user, s.now, SUPERPANEL);
    if Counts(db, s.actor, s.key) && !SignedIn(db, s.email) && !Due(db, s.user, s.now, 0) {
      var added := Invited(db, s);
      EvergreenRows(db, s.user, s.now, |db.apps|);
      EventsEach(EvergreenGranted, Some(s.key), |db.grants|, |added|);
      var events := GrantEvents(EvergreenGranted, Some(s.key), |db.grants|, |added|);
      assert Apply(db, s).audit == db.audit + (events + [Audit(UserInvited, Some(s.key), s.user)]);
    }
  }

  lemma InviteAnswers(db: Db, s: Step)
    requires s.Invite?
    ensures
      var reply := ReplyTo(db, s);
      var stops := Counts(db, s.actor, s.key) && !SignedIn(db, s.email) && Due(db, s.user, s.now, 0);
      && (reply == NotAdministrator <==> !IsAdmin(db, s.actor))
      && (reply == AlreadyBound <==> IsAdmin(db, s.actor) && SignedIn(db, s.email))
      && (reply == StatementFailed <==> stops)
      && (reply == Duplicate <==> IsAdmin(db, s.actor) && !SignedIn(db, s.email) && s.key in db.keys)
      && (reply == Changed <==> Counts(db, s.actor, s.key) && !SignedIn(db, s.email) && !stops)
  {
    hide Due, Evergreen;
    ConditionsIff(db, s.actor, s.key);
    DueIff(db, s.user, s.now, SUPERPANEL);
  }

  // ---------------------------------------------------------------------
  // The first administrator, and signing in

  /** An active application open to employees, and a role of it that gives
      employees the administrator level. */
  ghost predicate AdminOf(apps: seq<App>, a: AppId, i: nat) {
    && a < |apps| && apps[a].active == true && apps[a].employees == true
    && i < |apps[a].roles| && apps[a].roles[i].level == AdminLevel && apps[a].roles[i].employees == true
  }

  lemma {:induction false} AdminGrantsAll(a: AppId, roles: seq<RoleRow>, u: UserId)
    ensures forall g :: g in AdminGrants(a, roles, u) <==>
      exists i: nat :: i < |roles| && roles[i].level == AdminLevel && roles[i].employees && g == Fresh(a, i, u)
  {
    if roles == [] {
    } else {
      var init, last := roles[..|roles| - 1], |roles| - 1;
      AdminGrantsAll(a, init, u);
      assert forall i: nat :: i < last ==> init[i] == roles[i];
    }
  }

  lemma {:induction false} BootstrapAll(apps: seq<App>, u: UserId)
    ensures forall g :: g in BootstrapGrants(apps, u) <==> exists a: nat, i: nat :: AdminOf(apps, a, i) && g == Fresh(a, i, u)
  {
    if apps == [] {
    } else {
      var init, last := apps[..|apps| - 1], |apps| - 1;
      BootstrapAll(init, u);
      AdminGrantsAll(last, apps[last].roles, u);
      forall a: nat, i: nat ensures AdminOf(apps, a, i) <==> AdminOf(init, a, i) || (a == last && AdminOf(apps, last, i)) {
        if a < last { assert init[a] == apps[a]; }
      }
    }
  }

  /** The first administrator is a signed-in active employee and super
      administrator with an entitlement through every such role; each is
      recorded, and then the trigger acts. */
  lemma BootstrapRows(db: Db, s: Step) returns (mid: Db)
    requires s.Bootstrap? && Enabled(db, s)
    ensures
      && mid.apps == db.apps && mid.keys == db.keys
      && OnlyPerson(db, mid, s.user, Person(Employee, ActiveUser, Lower(s.email), s.name, true))
      && OnlyRole(db, mid, s.user, SuperAdmin, true)
      && (exists added, events ::
            && mid.grants == db.grants + added
            && (forall g :: g in added <==> exists a: nat, i: nat :: AdminOf(db.apps, a, i) && g == Fresh(a, i, s.user))
            && EachRecorded(events, BootstrapGranted, None, |db.grants|, |added|)
            && Recorded(db, mid, [Audit(AdminBootstrapped, None, s.user)] + events))
      && PanelMoves(mid, Apply(db, s), s.user)
  {
    hide PanelMoves, BootstrapGrants, GrantEvents, EachRecorded, AdminOf;
    mid := WithFirstAdmin(db, s);
    var added := BootstrapGrants(db.apps, s.user);
    var events := GrantEvents(BootstrapGranted, None, |db.grants|, |added|);
    BootstrapAll(db.apps, s.user);
    EventsEach(BootstrapGranted, None, |db.grants|, |added|);
    assert mid.grants == db.grants + added;
    assert mid.audit == db.audit + ([Audit(AdminBootstrapped, None, s.user)] + events);
    PanelRows(mid, s.user);
  }

  lemma SignInRows(db: Db, s: Step)
    requires s.SignIn? && Enabled(db, s)
    ensures
      var after := Apply(db, s);
      && after.apps == db.apps && after.roles == db.roles && after.keys == db.keys && after.grants == db.grants
      && OnlyPerson(db, after, s.user, db.people[s.user].(bound := true))
      && Recorded(db, after, [Audit(InvitationAccepted, None, s.user)])
  {
  }

  /** A statement is let through exactly then. */
  lemma EnabledIff(db: Db, s: Step)
    ensures s.SetStatus? ==> (Enabled(db, s) <==> !(s.suspend && s.actor == s.target))
    ensures s.SetRole? ==>
      (Enabled(db, s) <==> s.role in {AccessAdmin, SystemsAdmin} && !(s.role == AccessAdmin && !s.enabled && s.actor == s.target))
    ensures s.SetAccess? ==> (Enabled(db, s) <==> s.slug != "superpanel")
    ensures s.Invite? ==>
      (Enabled(db, s) <==>
       if exists u :: u in db.people && db.people[u].email == Lower(s.email)
       then s.user in db.people && db.people[s.user].email == Lower(s.email) else s.user !in db.people)
    ensures s.Bootstrap? ==>
      (Enabled(db, s) <==> s.user !in db.people && forall u :: u in db.people ==> db.people[u].email != Lower(s.email))
    ensures s.SignIn? ==> (Enabled(db, s) <==> s.user in db.people)
  {
  }
}
