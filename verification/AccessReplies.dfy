/** Request ids, audit events and replies of the access statements. */
module AccessReplies {
  import opened Common
  import opened AccessModel
  import opened AccessTables
  import opened AccessRuns
  import opened AccessInvariant

  predicate HasRequest(s: Step) {
    s.Invite? || s.SetStatus? || s.SetRole? || s.SetAccess?
  }

  predicate Administrative(s: Step) {
    s.SetStatus? || s.SetRole? || s.SetAccess?
  }

  /** Who may do what is not the same in both states. */
  predicate Touched(db: Db, after: Db) {
    db.people != after.people || db.roles != after.roles || db.grants != after.grants
  }

  /** A replayed request id, or an actor who is no administrator when the
      statement runs, changes nothing: not the access, not the audit. */
  lemma RefusedDoesNothing(db: Db, s: Step)
    requires HasRequest(s) && Enabled(db, s)
    requires s.key in db.keys || !Administers(db, s.actor)
    ensures Apply(db, s) == db
    ensures ReplyTo(db, s) !in {Changed, Unchanged, Missing, StatementFailed}
    ensures !Administers(db, s.actor) ==> ReplyTo(db, s) == NotAdministrator
  {
  }

  lemma {:induction false} KeysStay(from: Db, steps: seq<Step>, to: Db, key: string)
    requires Run(from, steps, to) && key in from.keys
    ensures key in to.keys
    decreases |steps|
  {
    if steps == [] {
    } else {
      KeysStay(Apply(from, steps[0]), steps[1..], to, key);
    }
  }

  /** Whatever happens in between, a request id that was once claimed never
      has an effect again. */
  lemma RequestActsOnce(from: Db, first: Step, steps: seq<Step>, to: Db, again: Step)
    requires HasRequest(first) && Enabled(from, first) && Claims(from, first.actor, first.key)
    requires ReplyTo(from, first) != StatementFailed
    requires Run(Apply(from, first), steps, to)
    requires HasRequest(again) && again.key == first.key && Enabled(to, again)
    ensures Apply(to, again) == to
  {
    KeysStay(Apply(from, first), steps, to, first.key);
    RefusedDoesNothing(to, again);
  }

  lemma RevocationShows(grants: seq<Grant>, u: UserId, a: AppId)
    requires HoldsAny(grants, u, a)
    ensures Revoked(grants, u, a) != grants
  {
    var g :| g in grants && Holds(g, u, a);
    var i :| 0 <= i < |grants| && grants[i] == g;
    assert Revoked(grants, u, a)[i] != grants[i];
  }

  function NewEvents(db: Db, after: Db): seq<Audit>
    requires |db.audit| <= |after.audit|
  {
    after.audit[|db.audit|..]
  }

  /** A status, role or access statement adds exactly one success event under
      its request id if it changed who may do what, and none otherwise. Only
      a systems-role change that moves the SuperPanel entitlement adds a
      second event, the trigger's, and that one carries no request id. */
  lemma AuditedOnce(db: Db, s: Step)
    requires Administrative(s) && Enabled(db, s)
    ensures
      var after := Apply(db, s);
      && db.audit <= after.audit
      && (!Touched(db, after) ==> after.audit == db.audit)
      && (Touched(db, after) ==>
            && NewEvents(db, after) != []
            && NewEvents(db, after)[0].request == Some(s.key) && NewEvents(db, after)[0].subject == s.target
            && (|NewEvents(db, after)| == 1 || (|NewEvents(db, after)| == 2 && NewEvents(db, after)[1].request == None))
            && (|NewEvents(db, after)| == 2 <==> s.SetRole? && after.grants != db.grants))
  {
    match s
    case SetStatus(_, _, _, _) =>
    case SetRole(_, _, _, _, _) =>
      if ChangesRole(db, s) {
        RoleTouches(db, s);
        SyncAudits(WithRole(db, s), s.target);
      }
    case SetAccess(_, _, target, slug, _) =>
      if ChangesAccess(db, s) {
        AccessTouches(db, s);
      }
  }

  lemma RoleTouches(db: Db, s: Step)
    requires s.SetRole? && ChangesRole(db, s)
    ensures WithRole(db, s).roles != db.roles && WithRole(db, s).people == db.people
    ensures WithRole(db, s).grants == db.grants
    ensures WithRole(db, s).audit ==
      db.audit + [Audit(if s.enabled then RoleGranted else RoleRevoked, Some(s.key), s.target)]
  {
    assert (s.target, s.role) in WithRole(db, s).roles <==> s.enabled;
  }

  /** The trigger writes one event of its own exactly when it moves an
      entitlement. */
  lemma SyncAudits(db: Db, u: UserId)
    ensures Synced(db, u).roles == db.roles && Synced(db, u).people == db.people
    ensures Synced(db, u).grants == db.grants ==> Synced(db, u).audit == db.audit
    ensures Synced(db, u).grants != db.grants ==>
      |Synced(db, u).audit| == |db.audit| + 1 && db.audit <= Synced(db, u).audit
      && Synced(db, u).audit[|db.audit|].request == None
  {
    if HoldsAny(db.grants, u, SUPERPANEL) {
      RevocationShows(db.grants, u, SUPERPANEL);
    }
    assert |Synced(db, u).grants| > |db.grants| ==> Synced(db, u).grants != db.grants;
  }

  lemma AccessTouches(db: Db, s: Step)
    requires s.SetAccess? && ChangesAccess(db, s)
    ensures ApplyAccess(db, s).grants != db.grants
  {
    var a := FindApp(db.apps, s.slug).value;
    if s.level.None? {
      RevocationShows(db.grants, s.target, a);
    } else {
      assert |ApplyAccess(db, s).grants| == |db.grants| + 1;
    }
  }

  /** "Changed" is said exactly when something changed. */
  lemma ReplyTellsChange(db: Db, s: Step)
    requires Administrative(s) && Enabled(db, s)
    ensures ReplyTo(db, s) == Changed <==> Touched(db, Apply(db, s))
  {
    if s.SetAccess? && ChangesAccess(db, s) {
      AccessTouches(db, s);
    }
  }

  /** Two events, exactly when the request moves somebody in or out of the
      systems roles: the systems role of a person who is no super
      administrator. */
  lemma AuditedTwiceIff(db: Db, s: Step)
    requires InStep(db) && Administrative(s) && Enabled(db, s)
    ensures |Apply(db, s).audit| == |db.audit| + 2 <==>
      s.SetRole? && ChangesRole(db, s) && s.role == SystemsAdmin && (s.target, SuperAdmin) !in db.roles
  {
    AuditedOnce(db, s);
    if s.SetRole? && ChangesRole(db, s) {
      assert Mirrors(db, s.target);
      PanelHeld(db, s.target);
    }
  }

  // ---------------------------------------------------------------------
  // Missing targets and retries

  /** Something the request names is not there: the person, or for an access
      request the employee, the application or its role. */
  predicate Lacks(db: Db, s: Step)
    requires Administrative(s)
  {
    match s
    case SetAccess(_, _, target, slug, level) =>
      var a := FindApp(db.apps, slug);
      || a.None?
      || (&& !db.apps[a.value].everyone
          && (!EmployeeRow(db, target) || (level.Some? && FindRole(db.apps[a.value].roles, level.value).None?)))
    case _ => s.target !in db.people
  }

  /** The request is turned down for what it names, before its id counts. */
  predicate Barred(db: Db, s: Step)
    requires Administrative(s)
  {
    match s
    case SetStatus(_, _, target, suspend) => suspend && target in db.people && (target, SuperAdmin) in db.roles
    case SetRole(_, _, target, _, _) => target in db.people && !EmployeeRow(db, target)
    case SetAccess(_, _, _, slug, _) =>
      var a := FindApp(db.apps, slug);
      a.Some? && db.apps[a.value].everyone
  }

  /** "No longer exists" is answered exactly when the request claims its id
      and something it names is missing. */
  lemma MissingIff(db: Db, s: Step)
    requires Administrative(s)
    ensures ReplyTo(db, s) == Missing <==> Claims(db, s.actor, s.key) && Lacks(db, s)
  {
  }

  lemma MissingDoesNothing(db: Db, s: Step)
    requires Administrative(s) && Enabled(db, s) && Lacks(db, s)
    ensures !Touched(db, Apply(db, s)) && Apply(db, s).audit == db.audit
  {
  }

  lemma {:induction false} NoEventUnder(from: Db, steps: seq<Step>, to: Db, key: string)
    requires Run(from, steps, to) && key in from.keys
    ensures forall e :: e in to.audit && e.request == Some(key) ==> e in from.audit
    decreases |steps|
  {
    if steps == [] {
    } else {
      NoNewEvent(from, steps[0], key);
      NoEventUnder(Apply(from, steps[0]), steps[1..], to, key);
    }
  }

  lemma NoNewEvent(db: Db, s: Step, key: string)
    requires Enabled(db, s) && key in db.keys
    ensures key in Apply(db, s).keys
    ensures forall e :: e in Apply(db, s).audit && e.request == Some(key) ==> e in db.audit
  {
    if HasRequest(s) && s.key == key {
      RefusedDoesNothing(db, s);
    } else {
      OwnEvents(db, s);
    }
  }

  /** A step's new events carry its own request id or none. */
  lemma OwnEvents(db: Db, s: Step)
    requires Enabled(db, s)
    ensures db.keys <= Apply(db, s).keys
    ensures forall e :: e in Apply(db, s).audit ==>
      e in db.audit || e.request == None || (HasRequest(s) && e.request == Some(s.key))
  {
    match s
    case Bootstrap(u, _, _) => SyncEvents(WithFirstAdmin(db, s), u);
    case SetRole(_, _, target, _, _) => SyncEvents(WithRole(db, s), target);
    case _ =>
  }

  lemma SyncEvents(db: Db, u: UserId)
    ensures Synced(db, u).keys == db.keys
    ensures forall e :: e in Synced(db, u).audit ==> e in db.audit || e.request == None
  {
  }

  /** A repeated request, after anything else has happened, does nothing and
      is answered as already processed exactly when its actor is still an
      administrator and it is not turned down for what it names. */
  lemma RetryAnswer(from: Db, s: Step, steps: seq<Step>, to: Db)
    requires Administrative(s) && Enabled(from, s) && Claims(from, s.actor, s.key)
    requires Run(Apply(from, s), steps, to)
    ensures Apply(to, s) == to
    ensures ReplyTo(to, s) == Duplicate <==> Administers(to, s.actor) && !Barred(to, s)
  {
    KeysStay(Apply(from, s), steps, to, s.key);
    RefusedDoesNothing(to, s);
  }

  /** At once, the repeated request is always answered so. */
  lemma RetryIsDuplicate(db: Db, s: Step)
    requires Administrative(s) && Enabled(db, s)
    requires ReplyTo(db, s) in {Changed, Unchanged, Missing}
    ensures ReplyTo(Apply(db, s), s) == Duplicate && Apply(Apply(db, s), s) == Apply(db, s)
  {
    AdminAfter(db, s, s.actor);
    RetryAnswer(db, s, [], Apply(db, s));
  }

  /** The promise that a claimed id alone never reports success fails for a
      request exactly when something it named was missing at its first call,
      its actor is still an administrator, and it is not turned down for what
      it names: the retry then reports that it was processed. */
  lemma MissingIsRetriedAsDoneIff(from: Db, s: Step, steps: seq<Step>, to: Db)
    requires Administrative(s) && Enabled(from, s) && Claims(from, s.actor, s.key)
    requires Run(Apply(from, s), steps, to)
    ensures ReplyTo(from, s) == Missing && ReplyTo(to, s) == Duplicate <==>
      Lacks(from, s) && Administers(to, s.actor) && !Barred(to, s)
  {
    RetryAnswer(from, s, steps, to);
    MissingIff(from, s);
  }

  /** "Already assigned" is never said: giving somebody a level of access is
      answered as a change, or not as processed at all, even when they hold
      that level. Taking it away is answered as unchanged exactly when the
      request goes through and they hold nothing of the application. */
  lemma LevelUnchangedIff(db: Db, s: Step)
    requires s.SetAccess? && Enabled(db, s)
    ensures ReplyTo(db, s) == Unchanged <==>
      && Claims(db, s.actor, s.key) && !Lacks(db, s) && !Barred(db, s)
      && s.level.None? && !HoldsAny(db.grants, s.target, FindApp(db.apps, s.slug).value)
  {
  }

  /** Nothing is ever done under the id of such a request: its own call
      changed nothing, and no event of any run carries the id. */
  lemma NothingIsEverDone(from: Db, s: Step, steps: seq<Step>, to: Db)
    requires Administrative(s) && Enabled(from, s) && Claims(from, s.actor, s.key) && Lacks(from, s)
    requires Run(Apply(from, s), steps, to)
    ensures !Touched(from, Apply(from, s))
    ensures forall e :: e in to.audit && e.request == Some(s.key) ==> e in from.audit
  {
    MissingDoesNothing(from, s);
    NoEventUnder(Apply(from, s), steps, to, s.key);
  }

  // ---------------------------------------------------------------------
  // Examples

  /** One active administrator, person 0, and one more employee, person 1. */
  function TwoPeople(): Db {
    var panel := App(SUPERPANEL_SLUG, true, true, false, [RoleRow("user", UserLevel, true), RoleRow("admin", AdminLevel, true)]);
    Db([panel],
       map[0 := Person(Employee, ActiveUser, "a@x", "A", true), 1 := Person(Employee, ActiveUser, "b@x", "B", true)],
       {(0, AccessAdmin)}, {}, [], [])
  }

  lemma TwoPeopleOk()
    ensures Inv(TwoPeople()) && Administers(TwoPeople(), 0)
  {
    var db := TwoPeople();
    assert db.apps[0].roles[0].level == UserLevel;
  }

  /** Suspending a person who is not there, and trying again. */
  lemma MissingPersonTwice()
    ensures
      var db, s := TwoPeople(), SetStatus(0, "k", 5, true);
      && Enabled(db, s) && ReplyTo(db, s) == Missing
      && ReplyTo(Apply(db, s), s) == Duplicate && Apply(Apply(db, s), s) == Apply(db, s)
      && Apply(db, s).audit == []
  {
    var db, s := TwoPeople(), SetStatus(0, "k", 5, true);
    MissingIff(db, s);
    MissingDoesNothing(db, s);
    RetryAnswer(db, s, [], Apply(db, s));
  }

  /** Granting the systems role writes two events. */
  lemma TwoEvents()
    ensures
      var db, s := TwoPeople(), SetRole(0, "k", 1, SystemsAdmin, true);
      && Enabled(db, s) && ReplyTo(db, s) == Changed
      && Apply(db, s).audit == [Audit(RoleGranted, Some("k"), 1), Audit(PanelSynced, None, 0)]
  {
    TwoPeopleOk();
  }

  /** Giving somebody the same level twice, under two request ids: both are
      answered as changes, and the entitlement is revoked and given again. */
  lemma SameLevelTwice()
    ensures
      var crm := App("crm", true, true, false, [RoleRow("user", UserLevel, true)]);
      var db := TwoPeople().(apps := TwoPeople().apps + [crm]);
      var once, again := SetAccess(0, "k", 1, "crm", Some(UserLevel)), SetAccess(0, "l", 1, "crm", Some(UserLevel));
      var g := Grant(1, 0, Some(1), None, None, false);
      && Enabled(db, once) && ReplyTo(db, once) == Changed && Apply(db, once).grants == [g]
      && Enabled(Apply(db, once), again) && ReplyTo(Apply(db, once), again) == Changed
      && Apply(Apply(db, once), again).grants == [g.(revoked := true), g]
  {
    var crm := App("crm", true, true, false, [RoleRow("user", UserLevel, true)]);
    var db := TwoPeople().(apps := TwoPeople().apps + [crm]);
    assert db.apps[|db.apps| - 1] == crm && FindApp(db.apps, "crm") == Some(1);
    assert crm.roles[|crm.roles| - 1] == crm.roles[0];
    assert FindRole(crm.roles, UserLevel) == Some(0);
  }

  /** Inviting someone who has not signed in yet leaves their status, their
      population and their roles as they were. */
  lemma InviteRestoresNobody(db: Db, s: Step, u: UserId)
    requires s.Invite? && Enabled(db, s) && u in db.people
    ensures
      var after := Apply(db, s);
      && u in after.people && after.roles == db.roles
      && after.people[u] == db.people[u].(displayName := after.people[u].displayName)
  {
  }
}
