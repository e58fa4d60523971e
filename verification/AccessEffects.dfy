/** What each access statement that goes through is for. */
module AccessEffects {
  import opened Common
  import opened AccessModel
  import opened AccessTables
  import opened AccessRuns
  import opened AccessInvariant

  /** Everything anybody else may do, and everything about them, is as it was. */
  ghost predicate OthersAsBefore(db: Db, after: Db, target: UserId) {
    && (forall u :: u != target ==> (u in db.people <==> u in after.people))
    && (forall u :: u != target && u in db.people ==> u in after.people && after.people[u] == db.people[u])
    && (forall u, r :: u != target ==> ((u, r) in db.roles <==> (u, r) in after.roles))
    && (forall u, a :: u != target ==> (HoldsAny(db.grants, u, a) <==> HoldsAny(after.grants, u, a)))
  }

  /** A status change leaves the person with the asked status and touches
      nothing else about them. */
  lemma StatusIsSet(db: Db, s: Step)
    requires s.SetStatus? && Enabled(db, s) && ReplyTo(db, s) in {Changed, Unchanged}
    ensures
      var after := Apply(db, s);
      && s.target in after.people && s.target in db.people
      && after.people[s.target].status == (if s.suspend then SuspendedUser else ActiveUser)
      && after.people[s.target] == db.people[s.target].(status := after.people[s.target].status)
      && after.roles == db.roles && after.grants == db.grants
      && OthersAsBefore(db, after, s.target)
  {
  }

  /** Row by row: every entitlement that is not `u`'s to `a` is as it was, in
      its place, and every new one is theirs. */
  ghost predicate OnlyMoves(before: seq<Grant>, after: seq<Grant>, u: UserId, a: AppId) {
    && |before| <= |after|
    && (forall i :: 0 <= i < |before| && !Holds(before[i], u, a) ==> after[i] == before[i])
    && (forall i :: 0 <= i < |before| && Holds(before[i], u, a) ==> after[i] in {before[i], before[i].(revoked := true)})
    && (forall i :: |before| <= i < |after| ==> after[i].holder == Some(u) && after[i].app == a)
  }

  lemma SyncTouchesPanel(db: Db, u: UserId, v: UserId, a: AppId)
    requires (u, SUPERPANEL) != (v, a)
    ensures HoldsAny(Synced(db, u).grants, v, a) <==> HoldsAny(db.grants, v, a)
  {
    var g := Grant(SUPERPANEL, PANEL_ADMIN, Some(u), None, None, false);
    HoldsConcat(db.grants, [g], v, a);
    assert !HoldsAny([g], v, a);
    RevokedHolds(db.grants, u, SUPERPANEL, v, a);
  }

  /** A role change leaves exactly that role of that person granted or not,
      and no entitlement moved but theirs to SuperPanel. */
  lemma RoleIsSet(db: Db, s: Step)
    requires s.SetRole? && Enabled(db, s) && ReplyTo(db, s) in {Changed, Unchanged}
    ensures
      var after := Apply(db, s);
      && after.people == db.people
      && after.roles == (if s.enabled then db.roles + {(s.target, s.role)} else db.roles - {(s.target, s.role)})
      && OnlyMoves(db.grants, after.grants, s.target, SUPERPANEL)
      && (forall u: UserId, a: AppId :: (u, a) != (s.target, SUPERPANEL) ==>
            (HoldsAny(db.grants, u, a) <==> HoldsAny(after.grants, u, a)))
  {
    if ChangesRole(db, s) {
      var mid := WithRole(db, s);
      forall u: UserId, a: AppId | (u, a) != (s.target, SUPERPANEL)
        ensures HoldsAny(db.grants, u, a) <==> HoldsAny(Synced(mid, s.target).grants, u, a)
      {
        SyncTouchesPanel(mid, s.target, u, a);
      }
    }
  }

  /** `u` holds application `a`, and holds it at this level only. */
  ghost predicate HoldsOnly(db: Db, u: UserId, a: AppId, level: Level) {
    && a < |db.apps| && HoldsAny(db.grants, u, a)
    && forall g :: g in db.grants && Holds(g, u, a) ==>
         g.role < |db.apps[a].roles| && OffersLevel(db.apps[a].roles[g.role], level)
  }

  /** A change of application access leaves the person with the application
      at the asked level only, or without it; no other entitlement of theirs
      or of anybody's moved. */
  lemma AccessIsSet(db: Db, s: Step, a: AppId)
    requires s.SetAccess? && Enabled(db, s) && ChangesAccess(db, s) && FindApp(db.apps, s.slug) == Some(a)
    ensures
      var after := Apply(db, s);
      && after.people == db.people && after.roles == db.roles
      && OnlyMoves(db.grants, after.grants, s.target, a)
      && (if s.level.Some? then HoldsOnly(after, s.target, a, s.level.value) else !HoldsAny(after.grants, s.target, a))
      && (forall u: UserId, b: AppId :: (u, b) != (s.target, a) ==> (HoldsAny(db.grants, u, b) <==> HoldsAny(after.grants, u, b)))
  {
    var after := Apply(db, s);
    var left := Revoked(db.grants, s.target, a);
    RevokedHolds(db.grants, s.target, a, s.target, a);
    if s.level.Some? {
      var g := Grant(a, FindRole(db.apps[a].roles, s.level.value).value, Some(s.target), None, None, false);
      assert after.grants == left + [g];
      assert g in after.grants && Holds(g, s.target, a);
      forall h | h in after.grants && Holds(h, s.target, a) ensures h == g {
        assert h in left + [g];
      }
    }
    forall u: UserId, b: AppId | (u, b) != (s.target, a) ensures HoldsAny(db.grants, u, b) <==> HoldsAny(after.grants, u, b) {
      RevokedHolds(db.grants, s.target, a, u, b);
      if s.level.Some? {
        var g := Grant(a, FindRole(db.apps[a].roles, s.level.value).value, Some(s.target), None, None, false);
        HoldsConcat(left, [g], u, b);
        assert !HoldsAny([g], u, b);
      }
    }
  }

  /** An invitation that goes through makes an unknown address an active
      employee, and gives the person every company-wide application that has
      a user role, at user level, and no other. */
  lemma InvitedGetEveryone(db: Db, s: Step, a: AppId)
    requires s.Invite? && Enabled(db, s) && ReplyTo(db, s) == Changed
    ensures
      var after := Apply(db, s);
      && s.user in after.people && after.people[s.user].email == Lower(s.email)
      && (s.user !in db.people ==> EmployeeRow(after, s.user) && after.people[s.user].status == ActiveUser)
      && (a < |db.apps| && db.apps[a].everyone && FindRole(db.apps[a].roles, UserLevel).Some? ==>
            HoldsNow(after.grants, s.user, a, s.now))
      && (HoldsAny(after.grants, s.user, a) && !HoldsAny(db.grants, s.user, a) ==>
            a < |db.apps| && db.apps[a].everyone && HoldsOnly(after, s.user, a, UserLevel))
  {
    var after := Apply(db, s);
    var added := Invited(db, s);
    EvergreenMembers(db, s.user, s.now, |db.apps|);
    EvergreenLevel(db, s.user, s.now, |db.apps|);
    HoldsConcat(db.grants, added, s.user, a);
    if a < |db.apps| && db.apps[a].everyone && FindRole(db.apps[a].roles, UserLevel).Some? {
      if Evergreen(db, s.user, s.now, a) {
        var g :| g in added && Holds(g, s.user, a);
        assert g in after.grants && InWindow(g, s.now);
      } else {
        var g :| g in db.grants && Holds(g, s.user, a) && InWindow(g, s.now);
        assert g in after.grants;
      }
    }
    if HoldsAny(after.grants, s.user, a) && !HoldsAny(db.grants, s.user, a) {
      forall g | g in after.grants && Holds(g, s.user, a) ensures g in added {
        assert g in db.grants + added;
      }
    }
  }

  lemma {:induction false} EvergreenLevel(db: Db, u: UserId, now: int, n: nat)
    requires n <= |db.apps|
    ensures forall g :: g in EvergreenGrants(db, u, now, n) ==>
      g.app < |db.apps| && g.role < |db.apps[g.app].roles| && OffersLevel(db.apps[g.app].roles[g.role], UserLevel)
  {
    if n == 0 {
    } else {
      EvergreenLevel(db, u, now, n - 1);
    }
  }

  /** The first administrator is an active employee super administrator and
      holds every active employee application that has an administrator
      role. */
  lemma FirstAdminHolds(db: Db, s: Step, a: AppId)
    requires s.Bootstrap? && Enabled(db, s) && InStep(db)
    requires a < |db.apps| && db.apps[a].active && db.apps[a].employees
    requires exists i :: 0 <= i < |db.apps[a].roles| && AdminRow(db.apps[a].roles[i])
    ensures
      var after := Apply(db, s);
      Administers(after, s.user) && ActiveSuper(after, s.user) && HoldsAny(after.grants, s.user, a)
  {
    var mid := WithFirstAdmin(db, s);
    BootstrapHolds(db.apps, s.user, a);
    HoldsConcat(db.grants, BootstrapGrants(db.apps, s.user), s.user, a);
    if a != SUPERPANEL {
      SyncTouchesPanel(mid, s.user, s.user, a);
    } else {
      BootstrapMirrors(db, s);
      assert Mirrors(Synced(mid, s.user), s.user);
    }
  }

  lemma {:induction false} BootstrapHolds(apps: seq<App>, u: UserId, a: AppId)
    requires a < |apps| && apps[a].active && apps[a].employees
    requires exists i :: 0 <= i < |apps[a].roles| && AdminRow(apps[a].roles[i])
    ensures HoldsAny(BootstrapGrants(apps, u), u, a)
  {
    var last := |apps| - 1;
    var earlier := BootstrapGrants(apps[..last], u);
    var added := if apps[last].active && apps[last].employees then AdminGrants(last, apps[last].roles, u) else [];
    AdminGrantsMembers(last, apps[last].roles, u);
    HoldsConcat(earlier, added, u, a);
    if a < last {
      assert apps[..last][a] == apps[a];
      BootstrapHolds(apps[..last], u, a);
    }
  }
}
