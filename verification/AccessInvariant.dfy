/** The entitlement invariants over every run of access statements. */
module AccessInvariant {
  import opened Common
  import opened AccessModel
  import opened AccessTables
  import opened AccessRuns

  ghost predicate ConfigOk(apps: seq<App>) {
    && (forall a, b :: 0 <= a < b < |apps| ==> apps[a].slug != apps[b].slug)
    && |apps| > 0 && apps[SUPERPANEL].slug == SUPERPANEL_SLUG
    && (forall i :: 0 <= i < |apps[SUPERPANEL].roles| && AdminRow(apps[SUPERPANEL].roles[i]) ==> i == PANEL_ADMIN)
  }

  /** An entitlement's holder exists, an unrevoked one has no dates, and an
      unrevoked SuperPanel one is a person's administrator entitlement. */
  predicate RowOk(g: Grant, people: set<UserId>) {
    && (g.holder.Some? ==> g.holder.value in people)
    && (!g.revoked ==> g.startsAt.None? && g.expiresAt.None?)
    && (!g.revoked && g.app == SUPERPANEL ==> g.holder.Some? && g.role == PANEL_ADMIN)
  }

  ghost predicate RowsOk(grants: seq<Grant>, people: set<UserId>) {
    forall g :: g in grants ==> RowOk(g, people)
  }

  predicate Mirrors(db: Db, u: UserId) {
    HasSystems(db.roles, u) <==> HoldsAny(db.grants, u, SUPERPANEL)
  }

  ghost predicate InStep(db: Db) {
    && ConfigOk(db.apps)
    && RowsOk(db.grants, db.people.Keys)
    && (forall u, r :: (u, r) in db.roles ==> u in db.people)
    && (forall u :: Mirrors(db, u))
  }

  ghost predicate Inv(db: Db) { InStep(db) && OnePer(db.grants) }

  /** Keeps the mirror, and one entitlement each where there was one each. */
  ghost predicate Keeps(db: Db, after: Db) {
    InStep(after) && (OnePer(db.grants) ==> OnePer(after.grants))
  }

  lemma RowsConcat(x: seq<Grant>, y: seq<Grant>, people: set<UserId>, more: set<UserId>)
    requires RowsOk(x, people) && RowsOk(y, more) && people <= more
    ensures RowsOk(x + y, more)
  {
    assert forall g :: g in x + y ==> g in x || g in y;
  }

  lemma RevokedRows(grants: seq<Grant>, u: UserId, a: AppId, people: set<UserId>)
    requires RowsOk(grants, people)
    ensures RowsOk(Revoked(grants, u, a), people)
  {
    var left := Revoked(grants, u, a);
    forall i | 0 <= i < |left| ensures RowOk(left[i], people) {
      assert grants[i] in grants;
    }
  }

  lemma PanelHeld(db: Db, u: UserId)
    requires RowsOk(db.grants, db.people.Keys)
    ensures HoldsPanel(db.grants, u) <==> HoldsAny(db.grants, u, SUPERPANEL)
  {
  }

  /** The role trigger restores the mirror for the one person whose roles
      moved. */
  lemma SyncMirrors(db: Db, u: UserId)
    requires RowsOk(db.grants, db.people.Keys) && u in db.people
    requires forall v :: v != u ==> Mirrors(db, v)
    ensures RowsOk(Synced(db, u).grants, db.people.Keys)
    ensures forall v :: Mirrors(Synced(db, u), v)
  {
    var after := Synced(db, u);
    PanelHeld(db, u);
    var g := Grant(SUPERPANEL, PANEL_ADMIN, Some(u), None, None, false);
    if HasSystems(db.roles, u) && !HoldsPanel(db.grants, u) {
      RowsConcat(db.grants, [g], db.people.Keys, db.people.Keys);
      assert g in [g] && Holds(g, u, SUPERPANEL);
      forall v ensures Mirrors(after, v) {
        HoldsConcat(db.grants, [g], v, SUPERPANEL);
        assert v != u ==> Mirrors(db, v) && !HoldsAny([g], v, SUPERPANEL);
      }
    } else if !HasSystems(db.roles, u) && HoldsAny(db.grants, u, SUPERPANEL) {
      RevokedRows(db.grants, u, SUPERPANEL, db.people.Keys);
      forall v ensures Mirrors(after, v) {
        RevokedHolds(db.grants, u, SUPERPANEL, v, SUPERPANEL);
        assert v != u ==> Mirrors(db, v);
      }
    } else {
      forall v ensures Mirrors(after, v) {
        assert v != u ==> Mirrors(db, v);
      }
    }
  }

  lemma SyncKeepsOne(db: Db, u: UserId)
    requires RowsOk(db.grants, db.people.Keys) && OnePer(db.grants)
    ensures OnePer(Synced(db, u).grants)
  {
    PanelHeld(db, u);
    if HasSystems(db.roles, u) && !HoldsPanel(db.grants, u) {
      AddOne(db.grants, Grant(SUPERPANEL, PANEL_ADMIN, Some(u), None, None, false));
    }
    RevokedKeepsOne(db.grants, u, SUPERPANEL);
  }

  lemma RoleKeeps(db: Db, s: Step)
    requires InStep(db) && s.SetRole?
    ensures Keeps(db, ApplyRole(db, s))
  {
    if ChangesRole(db, s) {
      var mid := WithRole(db, s);
      forall v | v != s.target ensures Mirrors(mid, v) {
        assert Mirrors(db, v);
      }
      SyncMirrors(mid, s.target);
      if OnePer(db.grants) { SyncKeepsOne(mid, s.target); }
    } else {
      SameTables(db, ApplyRole(db, s));
    }
  }

  lemma SameTables(db: Db, after: Db)
    requires InStep(db)
    requires after.apps == db.apps && after.roles == db.roles && after.grants == db.grants
    requires db.people.Keys <= after.people.Keys
    ensures Keeps(db, after)
  {
    forall u ensures Mirrors(after, u) {
      assert Mirrors(db, u);
    }
  }

  lemma UnwindowedHeld(grants: seq<Grant>, people: set<UserId>, u: UserId, a: AppId, now: int)
    requires RowsOk(grants, people)
    ensures HoldsNow(grants, u, a, now) <==> HoldsAny(grants, u, a)
  {
  }

  lemma InviteKeeps(db: Db, s: Step)
    requires InStep(db) && s.Invite?
    ensures Keeps(db, ApplyInvite(db, s))
  {
    var after := ApplyInvite(db, s);
    if Invites(db, s) && !Throws(db, s) {
      var added := Invited(db, s);
      EvergreenMembers(db, s.user, s.now, |db.apps|);
      forall a | 0 <= a < |db.apps| && Evergreen(db, s.user, s.now, a) ensures !HoldsAny(db.grants, s.user, a) {
        UnwindowedHeld(db.grants, db.people.Keys, s.user, a, s.now);
      }
      if OnePer(db.grants) { InviteKeepsOneIff(db, s); }
      RowsConcat(db.grants, added, db.people.Keys, after.people.Keys);
      forall u ensures Mirrors(after, u) {
        assert Mirrors(db, u);
        HoldsConcat(db.grants, added, u, SUPERPANEL);
      }
    } else {
      SameTables(db, after);
    }
  }

  lemma AccessKeeps(db: Db, s: Step)
    requires InStep(db) && s.SetAccess? && s.slug != SUPERPANEL_SLUG
    ensures Keeps(db, ApplyAccess(db, s))
  {
    var after := ApplyAccess(db, s);
    if ChangesAccess(db, s) {
      var a := FindApp(db.apps, s.slug).value;
      var left := Revoked(db.grants, s.target, a);
      RevokedRows(db.grants, s.target, a, db.people.Keys);
      RevokedHolds(db.grants, s.target, a, s.target, a);
      var added := if s.level.None? then []
                   else [Grant(a, FindRole(db.apps[a].roles, s.level.value).value, Some(s.target), None, None, false)];
      assert after.grants == left + added;
      RowsConcat(left, added, db.people.Keys, db.people.Keys);
      if OnePer(db.grants) {
        RevokedKeepsOne(db.grants, s.target, a);
        if s.level.Some? { AddOne(left, added[0]); }
      }
      forall u ensures Mirrors(after, u) {
        assert Mirrors(db, u);
        RevokedHolds(db.grants, s.target, a, u, SUPERPANEL);
        HoldsConcat(left, added, u, SUPERPANEL);
      }
    } else {
      SameTables(db, after);
    }
  }

  lemma NothingYet(db: Db, u: UserId)
    requires RowsOk(db.grants, db.people.Keys) && u !in db.people
    ensures forall a :: !HoldsAny(db.grants, u, a)
  {
  }

  lemma BootstrapMirrors(db: Db, s: Step)
    requires InStep(db) && s.Bootstrap? && s.user !in db.people
    ensures RowsOk(WithFirstAdmin(db, s).grants, WithFirstAdmin(db, s).people.Keys)
    ensures forall v :: Mirrors(Synced(WithFirstAdmin(db, s), s.user), v)
  {
    var mid := WithFirstAdmin(db, s);
    var added := BootstrapGrants(db.apps, s.user);
    BootstrapMembers(db.apps, s.user);
    RowsConcat(db.grants, added, db.people.Keys, mid.people.Keys);
    forall v | v != s.user ensures Mirrors(mid, v) {
      assert Mirrors(db, v);
      HoldsConcat(db.grants, added, v, SUPERPANEL);
    }
    SyncMirrors(mid, s.user);
  }

  lemma BootstrapKeeps(db: Db, s: Step)
    requires InStep(db) && s.Bootstrap? && s.user !in db.people
    ensures InStep(Synced(WithFirstAdmin(db, s), s.user))
    ensures OneAdminEach(db.apps) ==> Keeps(db, Synced(WithFirstAdmin(db, s), s.user))
  {
    var mid := WithFirstAdmin(db, s);
    var added := BootstrapGrants(db.apps, s.user);
    BootstrapMirrors(db, s);
    SyncedRows(mid, s.user);
    if OneAdminEach(db.apps) && OnePer(db.grants) {
      BootstrapMembers(db.apps, s.user);
      BootstrapOnceIff(db.apps, s.user);
      NothingYet(db, s.user);
      OnePerConcat(db.grants, added);
      ApartIff(db.grants, added, s.user);
      SyncKeepsOne(mid, s.user);
    }
  }

  lemma SyncedRows(db: Db, u: UserId)
    requires RowsOk(db.grants, db.people.Keys) && u in db.people
    ensures RowsOk(Synced(db, u).grants, db.people.Keys)
  {
    var g := Grant(SUPERPANEL, PANEL_ADMIN, Some(u), None, None, false);
    RowsConcat(db.grants, [g], db.people.Keys, db.people.Keys);
    RevokedRows(db.grants, u, SUPERPANEL, db.people.Keys);
  }

  lemma StepKeeps(db: Db, s: Step)
    requires InStep(db) && Enabled(db, s)
    ensures InStep(Apply(db, s)) && Apply(db, s).apps == db.apps
    ensures (s.Bootstrap? ==> OneAdminEach(db.apps)) ==> Keeps(db, Apply(db, s))
  {
    match s
    case Invite(_, _, _, _, _, _) => InviteKeeps(db, s);
    case SetStatus(_, _, _, _) => SameTables(db, Apply(db, s));
    case SetRole(_, _, _, _, _) => RoleKeeps(db, s);
    case SetAccess(_, _, _, _, _) => AccessKeeps(db, s);
    case Bootstrap(_, _, _) => BootstrapKeeps(db, s);
    case SignIn(_) => SameTables(db, Apply(db, s));
  }

  predicate Bootstraps(steps: seq<Step>) {
    exists s :: s in steps && s.Bootstrap?
  }

  lemma {:induction false} RunKeeps(from: Db, steps: seq<Step>, to: Db)
    requires InStep(from) && Run(from, steps, to)
    ensures InStep(to)
    ensures (Bootstraps(steps) ==> OneAdminEach(from.apps)) ==> Keeps(from, to)
    decreases |steps|
  {
    if steps == [] {
    } else {
      assert Bootstraps(steps[1..]) ==> Bootstraps(steps);
      assert steps[0] in steps;
      StepKeeps(from, steps[0]);
      RunKeeps(Apply(from, steps[0]), steps[1..], to);
    }
  }

  /** From undated entitlements, every run keeps at most one unrevoked direct
      entitlement per person and application; a run that bootstraps needs
      that no active employee application has two administrator roles. */
  lemma OneEntitlementInAnyRun(from: Db, steps: seq<Step>, to: Db, i: nat, j: nat, u: UserId)
    requires Inv(from) && Run(from, steps, to) && (Bootstraps(steps) ==> OneAdminEach(from.apps))
    requires i < j < |to.grants|
    ensures !(to.grants[i].holder == to.grants[j].holder == Some(u) && to.grants[i].app == to.grants[j].app
              && !to.grants[i].revoked && !to.grants[j].revoked)
  {
    RunKeeps(from, steps, to);
    assert !Clash(to.grants[i], to.grants[j]);
  }

  /** And in every run the people with an unrevoked SuperPanel entitlement
      are exactly those with a systems role. */
  lemma PanelMirrorsInAnyRun(from: Db, steps: seq<Step>, to: Db, u: UserId)
    requires InStep(from) && Run(from, steps, to)
    ensures HasSystems(to.roles, u) <==> HoldsPanel(to.grants, u)
  {
    RunKeeps(from, steps, to);
    PanelHeld(to, u);
    assert Mirrors(to, u);
  }
}
