/** What every run of access statements keeps: an administrator, every super
    administrator, one direct entitlement per person and application, and
    SuperPanel entitlements that mirror the systems roles. */
module AccessRuns {
  import opened Common
  import opened AccessModel
  import opened AccessTables

  ghost predicate Run(from: Db, steps: seq<Step>, to: Db)
    decreases |steps|
  {
    if steps == [] then from == to
    else Enabled(from, steps[0]) && Run(Apply(from, steps[0]), steps[1..], to)
  }

  lemma {:induction false} RunConcat(from: Db, a: seq<Step>, mid: Db, b: seq<Step>, to: Db)
    requires Run(from, a, mid) && Run(mid, b, to)
    ensures Run(from, a + b, to)
    decreases |a|
  {
    if a == [] {
      assert a + b == b;
    } else {
      assert (a + b)[0] == a[0] && (a + b)[1..] == a[1..] + b;
      RunConcat(Apply(from, a[0]), a[1..], mid, b, to);
    }
  }

  // ---------------------------------------------------------------------
  // Administrators

  ghost predicate HasAdmin(db: Db) {
    exists u :: u in db.people && Administers(db, u)
  }

  predicate ActiveSuper(db: Db, u: UserId) {
    u in db.people && db.people[u].status == ActiveUser && (u, SuperAdmin) in db.roles
  }

  /** A statement that changes anything leaves its own actor, or whoever was
      an administrator before, an administrator. */
  lemma AdminAfter(db: Db, s: Step, u: UserId)
    requires Enabled(db, s) && Administers(db, u)
    ensures Administers(Apply(db, s), u)
      || (s.SetStatus? && Administers(Apply(db, s), s.actor))
      || (s.SetRole? && Administers(Apply(db, s), s.actor))
  {
  }

  lemma SuperAfter(db: Db, s: Step, u: UserId)
    requires Enabled(db, s) && ActiveSuper(db, u)
    ensures ActiveSuper(Apply(db, s), u)
  {
  }

  /** No interleaving of invitations, status, role and access changes, even
      with stale early checks, leaves the organisation without an active
      employee administrator. */
  lemma {:induction false} SomeAdminRemains(from: Db, steps: seq<Step>, to: Db)
    requires HasAdmin(from) && Run(from, steps, to)
    ensures HasAdmin(to)
    decreases |steps|
  {
    if steps == [] {
    } else {
      var u :| u in from.people && Administers(from, u);
      AdminAfter(from, steps[0], u);
      SomeAdminRemains(Apply(from, steps[0]), steps[1..], to);
    }
  }

  /** An active super administrator is never suspended or demoted. */
  lemma {:induction false} SuperAdminsRemain(from: Db, steps: seq<Step>, to: Db, u: UserId)
    requires ActiveSuper(from, u) && Run(from, steps, to)
    ensures ActiveSuper(to, u)
    decreases |steps|
  {
    if steps == [] {
    } else {
      SuperAfter(from, steps[0], u);
      SuperAdminsRemain(Apply(from, steps[0]), steps[1..], to, u);
    }
  }

  /** The statement alone does not protect the last administrator: it loses
      them exactly when they suspend themselves, which the action refuses. */
  lemma LastAdminLostIff(db: Db, s: Step)
    requires s.SetStatus? && HasAdmin(db)
    ensures !HasAdmin(ApplyStatus(db, s)) <==>
      && s.suspend && s.actor == s.target && ChangesStatus(db, s)
      && (forall u :: u in db.people && Administers(db, u) ==> u == s.actor)
  {
    var after := ApplyStatus(db, s);
    var w :| w in db.people && Administers(db, w);
    assert forall u :: u in db.people && u != s.target && Administers(db, u) ==> Administers(after, u);
    assert s.target in db.people && !s.suspend && Administers(db, s.target) ==> Administers(after, s.target);
    assert Administers(after, w) || w == s.target;
    if HasAdmin(after) {
      var v :| v in after.people && Administers(after, v);
      assert v in db.people;
    }
  }

  // ---------------------------------------------------------------------
  // Entitlements

  /** Two unrevoked direct entitlements of one person to one application. */
  predicate Clash(g: Grant, h: Grant) {
    !g.revoked && !h.revoked && g.holder.Some? && g.holder == h.holder && g.app == h.app
  }

  ghost predicate OnePer(grants: seq<Grant>) {
    forall i, j :: 0 <= i < j < |grants| ==> !Clash(grants[i], grants[j])
  }

  ghost predicate Apart(x: seq<Grant>, y: seq<Grant>) {
    forall i, j :: 0 <= i < |x| && 0 <= j < |y| ==> !Clash(x[i], y[j])
  }

  lemma OnePerConcat(x: seq<Grant>, y: seq<Grant>)
    ensures OnePer(x + y) <==> OnePer(x) && OnePer(y) && Apart(x, y)
  {
    var all := x + y;
    assert forall i :: 0 <= i < |x| ==> all[i] == x[i];
    assert forall j :: 0 <= j < |y| ==> all[|x| + j] == y[j];
    if OnePer(all) {
      forall i, j | 0 <= i < |x| && 0 <= j < |y| ensures !Clash(x[i], y[j]) {
        assert !Clash(all[i], all[|x| + j]);
      }
      forall i, j | 0 <= i < j < |y| ensures !Clash(y[i], y[j]) {
        assert !Clash(all[|x| + i], all[|x| + j]);
      }
    }
  }

  lemma HoldsConcat(x: seq<Grant>, y: seq<Grant>, u: UserId, a: AppId)
    ensures HoldsAny(x + y, u, a) <==> HoldsAny(x, u, a) || HoldsAny(y, u, a)
  {
    assert forall g :: g in x + y <==> g in x || g in y;
  }

  lemma RevokedHolds(grants: seq<Grant>, u: UserId, a: AppId, v: UserId, b: AppId)
    ensures HoldsAny(Revoked(grants, u, a), v, b) <==> HoldsAny(grants, v, b) && (u, a) != (v, b)
  {
    var left := Revoked(grants, u, a);
    if g :| g in left && Holds(g, v, b) {
      var i :| 0 <= i < |left| && left[i] == g;
      assert grants[i] in grants && Holds(grants[i], v, b);
    }
    if g :| g in grants && Holds(g, v, b) && (u, a) != (v, b) {
      var i :| 0 <= i < |grants| && grants[i] == g;
      assert left[i] == g && left[i] in left;
    }
  }

  lemma RevokedKeepsOne(grants: seq<Grant>, u: UserId, a: AppId)
    requires OnePer(grants)
    ensures OnePer(Revoked(grants, u, a))
  {
    var left := Revoked(grants, u, a);
    forall i, j | 0 <= i < j < |left| ensures !Clash(left[i], left[j]) {
      assert !Clash(grants[i], grants[j]);
    }
  }

  lemma AddOne(grants: seq<Grant>, g: Grant)
    requires OnePer(grants) && !g.revoked && g.holder.Some? && !HoldsAny(grants, g.holder.value, g.app)
    ensures OnePer(grants + [g])
  {
    forall i | 0 <= i < |grants| ensures !Clash(grants[i], g) {
      assert grants[i] in grants;
    }
    OnePerConcat(grants, [g]);
  }

  lemma {:induction false} EvergreenMembers(db: Db, u: UserId, now: int, n: nat)
    requires n <= |db.apps|
    ensures forall g :: g in EvergreenGrants(db, u, now, n) ==>
      g.app < n && Evergreen(db, u, now, g.app) && Holds(g, u, g.app) && g.startsAt.None? && g.expiresAt.None?
    ensures forall a :: 0 <= a < n && Evergreen(db, u, now, a) ==> HoldsAny(EvergreenGrants(db, u, now, n), u, a)
    ensures OnePer(EvergreenGrants(db, u, now, n))
  {
    if n == 0 {
    } else {
      EvergreenMembers(db, u, now, n - 1);
      var earlier := EvergreenGrants(db, u, now, n - 1);
      var all := EvergreenGrants(db, u, now, n);
      assert forall g :: g in earlier ==> g in all;
      if Evergreen(db, u, now, n - 1) {
        var g := all[|all| - 1];
        assert all == earlier + [g] && g in all && Holds(g, u, n - 1);
        AddOne(earlier, g);
      } else {
        assert all == earlier;
      }
    }
  }

  /** An invitation leaves one direct entitlement per application exactly
      when no company-wide application already has an unrevoked one for this
      person outside its dates: the statement looks only at those in force. */
  lemma InviteKeepsOneIff(db: Db, s: Step)
    requires s.Invite? && Invites(db, s) && !Throws(db, s) && OnePer(db.grants)
    ensures OnePer(ApplyInvite(db, s).grants) <==>
      forall a :: 0 <= a < |db.apps| && Evergreen(db, s.user, s.now, a) ==> !HoldsAny(db.grants, s.user, a)
  {
    var added := Invited(db, s);
    EvergreenMembers(db, s.user, s.now, |db.apps|);
    OnePerConcat(db.grants, added);
    ApartIff(db.grants, added, s.user);
    forall a | 0 <= a < |db.apps| && Evergreen(db, s.user, s.now, a) ensures exists h :: h in added && h.app == a {
      var h :| h in added && Holds(h, s.user, a);
    }
  }

  /** One administrator, and person 1 who has not signed in yet and whose
      entitlement to a company-wide application ran out at time 5. */
  function AfterExpiry(): Db {
    var panel := App(SUPERPANEL_SLUG, true, true, false, [RoleRow("user", UserLevel, true), RoleRow("admin", AdminLevel, true)]);
    var news := App("news", true, true, true, [RoleRow("user", UserLevel, true)]);
    Db([panel, news],
       map[0 := Person(Employee, ActiveUser, "a@x", "A", true), 1 := Person(Employee, ActiveUser, "b@x", "B", false)],
       {(0, AccessAdmin)}, {}, [Grant(1, 0, Some(1), None, Some(5), false)], [])
  }

  lemma ExpiredGetsSecond()
    ensures
      var db, s := AfterExpiry(), Invite(0, "k", "b@x", "B", 1, 10);
      Enabled(db, s) && OnePer(db.grants) && !OnePer(Apply(db, s).grants)
  {
    var db, s := AfterExpiry(), Invite(0, "k", "b@x", "B", 1, 10);
    assert Lower("b@x") == "b@x" by {
      assert "b@x"[1..] == "@x" && "@x"[1..] == "x" && "x"[1..] == "";
    }
    assert db.people[1].email == Lower(s.email);
    assert db.people[0].email[0] == 'a';
    assert Holds(db.grants[0], 1, 1) && HoldsAny(db.grants, 1, 1);
    assert FindRole(db.apps[1].roles, UserLevel).Some? by {
      assert OffersLevel(db.apps[1].roles[0], UserLevel);
    }
    assert Evergreen(db, 1, 10, 1);
    InviteKeepsOneIff(db, s);
  }

  lemma ApartIff(x: seq<Grant>, y: seq<Grant>, u: UserId)
    requires forall h :: h in y ==> Holds(h, u, h.app)
    ensures Apart(x, y) <==> forall h :: h in y ==> !HoldsAny(x, u, h.app)
  {
    if !Apart(x, y) {
      var i, j :| 0 <= i < |x| && 0 <= j < |y| && Clash(x[i], y[j]);
      assert y[j] in y && x[i] in x && Holds(x[i], u, y[j].app);
    }
    forall h | h in y && HoldsAny(x, u, h.app) ensures !Apart(x, y) {
      var g :| g in x && Holds(g, u, h.app);
      var i :| 0 <= i < |x| && x[i] == g;
      var j :| 0 <= j < |y| && y[j] == h;
      assert Clash(x[i], y[j]);
    }
  }

  ghost predicate OneAdmin(roles: seq<RoleRow>) {
    forall i, j :: 0 <= i < j < |roles| ==> !(AdminRow(roles[i]) && AdminRow(roles[j]))
  }

  /** No active employee application has two employee administrator roles. */
  ghost predicate OneAdminEach(apps: seq<App>) {
    forall a :: 0 <= a < |apps| && apps[a].active && apps[a].employees ==> OneAdmin(apps[a].roles)
  }

  lemma {:induction false} AdminGrantsMembers(a: AppId, roles: seq<RoleRow>, u: UserId)
    ensures forall g :: g in AdminGrants(a, roles, u) ==>
      g.role < |roles| && AdminRow(roles[g.role]) && g == Grant(a, g.role, Some(u), None, None, false)
    ensures HoldsAny(AdminGrants(a, roles, u), u, a) <==> exists i :: 0 <= i < |roles| && AdminRow(roles[i])
  {
    if roles == [] {
    } else {
      var init := roles[..|roles| - 1];
      var earlier := AdminGrants(a, init, u);
      AdminGrantsMembers(a, init, u);
      if AdminRow(roles[|roles| - 1]) {
        var g := Grant(a, |roles| - 1, Some(u), None, None, false);
        HoldsConcat(earlier, [g], u, a);
        assert g in [g] && Holds(g, u, a);
      }
    }
  }

  lemma {:induction false} AdminGrantsOnce(a: AppId, roles: seq<RoleRow>, u: UserId)
    ensures OnePer(AdminGrants(a, roles, u)) <==> OneAdmin(roles)
  {
    if roles == [] {
    } else {
      var init, last := roles[..|roles| - 1], |roles| - 1;
      var earlier := AdminGrants(a, init, u);
      AdminGrantsOnce(a, init, u);
      AdminGrantsMembers(a, init, u);
      assert OneAdmin(roles) <==> OneAdmin(init) && forall i :: 0 <= i < last ==> !(AdminRow(init[i]) && AdminRow(roles[last]));
      if AdminRow(roles[last]) {
        var g := Grant(a, last, Some(u), None, None, false);
        assert AdminGrants(a, roles, u) == earlier + [g] && OnePer([g]);
        OnePerConcat(earlier, [g]);
        ApartIff(earlier, [g], u);
        assert g in [g];
      } else {
        assert AdminGrants(a, roles, u) == earlier;
      }
    }
  }

  lemma {:induction false} BootstrapMembers(apps: seq<App>, u: UserId)
    ensures forall g :: g in BootstrapGrants(apps, u) ==>
      g.app < |apps| && g.role < |apps[g.app].roles| && AdminRow(apps[g.app].roles[g.role])
      && g == Grant(g.app, g.role, Some(u), None, None, false)
  {
    if apps == [] {
    } else {
      var a := |apps| - 1;
      BootstrapMembers(apps[..a], u);
      AdminGrantsMembers(a, apps[a].roles, u);
    }
  }

  /** The first administrator gets one entitlement per application exactly
      when no active employee application has two administrator roles. */
  lemma {:induction false} BootstrapOnceIff(apps: seq<App>, u: UserId)
    ensures OnePer(BootstrapGrants(apps, u)) <==> OneAdminEach(apps)
  {
    if apps == [] {
    } else {
      var a := |apps| - 1;
      var earlier := BootstrapGrants(apps[..a], u);
      BootstrapOnceIff(apps[..a], u);
      assert OneAdminEach(apps) <==>
        OneAdminEach(apps[..a]) && (apps[a].active && apps[a].employees ==> OneAdmin(apps[a].roles));
      if apps[a].active && apps[a].employees {
        BootstrapMembers(apps[..a], u);
        AdminGrantsMembers(a, apps[a].roles, u);
        AdminGrantsOnce(a, apps[a].roles, u);
        assert BootstrapGrants(apps, u) == earlier + AdminGrants(a, apps[a].roles, u);
        OnePerConcat(earlier, AdminGrants(a, apps[a].roles, u));
        ApartIff(earlier, AdminGrants(a, apps[a].roles, u), u);
        assert !HoldsAny(earlier, u, a);
      } else {
        assert BootstrapGrants(apps, u) == earlier;
      }
    }
  }
}
