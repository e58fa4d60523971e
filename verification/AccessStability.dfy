/** What does not change an access decision, and what can only narrow it. */
module AccessStability {
  import opened Common
  import opened Lists
  import opened AccessModel
  import opened Evaluator
  import opened AccessLaws

  // ---------------------------------------------------------------------
  // Order

  /** The same entries in any order. Only entitlements are counted: a repeated
      one would be named twice in the grant. */
  ghost predicate SameEntries(s: Snapshot, t: Snapshot) {
    && Elements(s.users) == Elements(t.users)
    && Elements(s.organisations) == Elements(t.organisations)
    && Elements(s.teams) == Elements(t.teams)
    && Elements(s.memberships) == Elements(t.memberships)
    && Elements(s.applications) == Elements(t.applications)
    && Elements(s.roles) == Elements(t.roles)
    && multiset(s.entitlements) == multiset(t.entitlements)
  }

  lemma SameMembers<T>(s: seq<T>, t: seq<T>)
    requires Elements(s) == Elements(t)
    ensures forall x :: x in s <==> x in t
  {
    forall x ensures x in s <==> x in t {
      assert x in s <==> x in Elements(s);
      assert x in t <==> x in Elements(t);
    }
  }

  lemma SameAccount(s: Snapshot, t: Snapshot, identity: Identity)
    requires UniqueLookups(s) && SameEntries(s, t)
    ensures Find(s.users, IsAccount(identity)) == Find(t.users, IsAccount(identity))
  {
    FindFirst(s.users, IsAccount(identity));
    FindFirst(t.users, IsAccount(identity));
    SameMembers(s.users, t.users);
    var a, b := Find(s.users, IsAccount(identity)), Find(t.users, IsAccount(identity));
    if a.Some? && b.Some? {
      SameUser(s, a.value, b.value);
    }
  }

  lemma SameListing(s: Snapshot, t: Snapshot, id: string)
    requires UniqueLookups(s) && SameEntries(s, t)
    ensures Find(s.applications, HasId(id)) == Find(t.applications, HasId(id))
  {
    FindFirst(s.applications, HasId(id));
    FindFirst(t.applications, HasId(id));
    SameMembers(s.applications, t.applications);
    var a, b := Find(s.applications, HasId(id)), Find(t.applications, HasId(id));
    if a.Some? && b.Some? {
      SameApplication(s, a.value, b.value);
    }
  }

  lemma SameStanding(s: Snapshot, t: Snapshot, id: Option<string>)
    requires UniqueLookups(s) && SameEntries(s, t)
    ensures OrganisationActive(s, id) == OrganisationActive(t, id)
  {
    FindFirst(s.organisations, IsOrganisation(id));
    FindFirst(t.organisations, IsOrganisation(id));
    SameMembers(s.organisations, t.organisations);
    var a, b := Find(s.organisations, IsOrganisation(id)), Find(t.organisations, IsOrganisation(id));
    if a.Some? && b.Some? {
      SameOrganisation(s, a.value, b.value);
    }
  }

  lemma SameGate(s: Snapshot, t: Snapshot, identity: Option<Identity>, applicationId: string, now: Stamp)
    requires UniqueLookups(s) && SameEntries(s, t)
    ensures Gate(identity, applicationId, s, now) == Gate(identity, applicationId, t, now)
  {
    if identity.Some? {
      SameAccount(s, t, identity.value);
      SameListing(s, t, applicationId);
      var account := Find(s.users, IsAccount(identity.value));
      if account.Some? {
        SameStanding(s, t, account.value.organisation);
      }
    }
  }

  lemma SameTeams(s: Snapshot, t: Snapshot, u: User, now: int)
    requires SameEntries(s, t)
    ensures ActiveTeams(u, s, now) == ActiveTeams(u, t, now)
  {
    SameMembers(s.teams, t.teams);
    SameMembers(s.memberships, t.memberships);
  }

  lemma SameRoles(s: Snapshot, t: Snapshot, application: string)
    requires UniqueLookups(s) && SameEntries(s, t)
    ensures RolesById(s.roles, application) == RolesById(t.roles, application)
  {
    SameMembers(s.roles, t.roles);
    RolesByIdMembers(s.roles, application);
    RolesByIdMembers(t.roles, application);
    var a, b := RolesById(s.roles, application), RolesById(t.roles, application);
    forall id | id in b ensures id in a && a[id] == b[id] {
      RoleFound(s, application, b[id]);
    }
    forall id | id in a ensures id in b {
      assert a[id] in t.roles;
    }
  }

  lemma SameElements<T>(s: seq<T>, t: seq<T>)
    requires multiset(s) == multiset(t)
    ensures Elements(s) == Elements(t)
    ensures s == [] <==> t == []
  {
    assert |s| == |multiset(s)| && |t| == |multiset(t)|;
    forall x ensures x in s <==> x in t {
      assert x in s <==> x in multiset(s);
      assert x in t <==> x in multiset(t);
    }
  }

  lemma FlatMapSame<A, B>(s: seq<A>, t: seq<A>, f: A -> seq<B>)
    requires Elements(s) == Elements(t)
    ensures Elements(FlatMap(s, f)) == Elements(FlatMap(t, f))
  {
    SameMembers(s, t);
    forall y | y in FlatMap(s, f) ensures y in Elements(FlatMap(t, f)) {
      FlatMapMember(s, f, y);
      FlatMapMember(t, f, y);
    }
    forall y | y in FlatMap(t, f) ensures y in Elements(FlatMap(s, f)) {
      FlatMapMember(s, f, y);
      FlatMapMember(t, f, y);
    }
  }

  lemma MapSame<A, B>(s: seq<A>, t: seq<A>, f: A -> B)
    requires Elements(s) == Elements(t)
    ensures Elements(Map(s, f)) == Elements(Map(t, f))
  {
    SameMembers(s, t);
    MapMembers(s, f);
    MapMembers(t, f);
    forall y | y in Map(s, f) ensures y in Elements(Map(t, f)) {
      var x :| x in s && f(x) == y;
      assert x in t;
    }
    forall y | y in Map(t, f) ensures y in Elements(Map(s, f)) {
      var x :| x in t && f(x) == y;
      assert x in s;
    }
  }

  lemma SameGrant(u: User, a: Application, roles: map<string, Role>, s: seq<Entitlement>, t: seq<Entitlement>)
    requires multiset(s) == multiset(t)
    ensures GrantOf(u, a, roles, s) == GrantOf(u, a, roles, t)
  {
    SameElements(s, t);
    SameMembers(s, t);
    FlatMapSame(s, t, RoleOf(roles));
    var x, y := FlatMap(s, RoleOf(roles)), FlatMap(t, RoleOf(roles));
    MapSame(x, y, RoleId);
    SortedSetUnordered(Map(x, RoleId), Map(y, RoleId));
    MapSame(x, y, RoleKey);
    SortedSetUnordered(Map(x, RoleKey), Map(y, RoleKey));
    FlatMapSame(x, y, RolePermissions);
    SortedSetUnordered(FlatMap(x, RolePermissions), FlatMap(y, RolePermissions));
    MapUnordered(s, t, EntitlementId);
    SortUnordered(Map(s, EntitlementId), Map(t, EntitlementId));
    FlatMapSame(s, t, ScopeOrganisations);
    SortedSetUnordered(FlatMap(s, ScopeOrganisations), FlatMap(t, ScopeOrganisations));
  }

  lemma SameStage(s: seq<Entitlement>, t: seq<Entitlement>, test: Entitlement -> bool)
    requires multiset(s) == multiset(t)
    ensures multiset(Filter(s, test)) == multiset(Filter(t, test))
    ensures Filter(s, test) == [] <==> Filter(t, test) == []
  {
    FilterUnordered(s, t, test);
    SameElements(Filter(s, test), Filter(t, test));
  }

  lemma SameLastStages(
    u: User, a: Application, roles: map<string, Role>, s: seq<Entitlement>, t: seq<Entitlement>,
    permission: Option<string>)
    requires multiset(s) == multiset(t)
    ensures LastStages(u, a, roles, s, permission) == LastStages(u, a, roles, t, permission)
  {
    var fits := FitsPopulation(roles, u.population);
    SameStage(s, t, fits);
    var s2, t2 := Filter(s, fits), Filter(t, fits);
    SameStage(s2, t2, FitsScope(u));
    var s3, t3 := Filter(s2, FitsScope(u)), Filter(t2, FitsScope(u));
    if Filled(permission) {
      var asked := Permits(roles, permission.value);
      SameStage(s3, t3, asked);
      SameGrant(u, a, roles, Filter(s3, asked), Filter(t3, asked));
    } else {
      SameGrant(u, a, roles, s3, t3);
    }
  }

  lemma SameDecision(
    u: User, a: Application, teams: set<string>, roles: map<string, Role>, s: seq<Entitlement>, t: seq<Entitlement>,
    now: int, permission: Option<string>)
    requires multiset(s) == multiset(t)
    ensures Decide(u, a, teams, roles, s, now, permission) == Decide(u, a, teams, roles, t, now, permission)
  {
    var current := IsCurrent(u, a.id, teams, now);
    SameStage(s, t, current);
    SameElements(Filter(s, current), Filter(t, current));
    SameMembers(Filter(s, current), Filter(t, current));
    SameLastStages(u, a, roles, Filter(s, current), Filter(t, current), permission);
  }

  /** The whole decision, its lists included, is the same however the
      snapshot's entries are ordered. */
  lemma OrderDoesNotMatter(
    s: Snapshot, t: Snapshot, identity: Option<Identity>, applicationId: string, now: Stamp,
    permission: Option<string>)
    requires UniqueLookups(s) && SameEntries(s, t)
    ensures Evaluate(identity, applicationId, s, now, permission) == Evaluate(identity, applicationId, t, now, permission)
  {
    SameGate(s, t, identity, applicationId, now);
    var gate := Gate(identity, applicationId, s, now);
    if gate.Ok? {
      SameTeams(s, t, gate.value.0, now.ms);
      SameRoles(s, t, gate.value.1.id);
      SameDecision(gate.value.0, gate.value.1, ActiveTeams(gate.value.0, s, now.ms),
                   RolesById(s.roles, gate.value.1.id), s.entitlements, t.entitlements, now.ms, permission);
    }
  }

  // ---------------------------------------------------------------------
  // Taking access away

  /** `t` is `s` with memberships and entitlements removed or revoked. */
  ghost predicate Narrowed(t: Snapshot, s: Snapshot) {
    && t.(memberships := s.memberships, entitlements := s.entitlements) == s
    && (forall m :: m in t.memberships ==> m in s.memberships || m.window.revoked)
    && (forall e :: e in t.entitlements ==> e in s.entitlements || e.window.revoked)
  }

  predicate ScopeWithin(inner: Scope, outer: Scope) {
    outer.all || (!inner.all && forall o :: o in inner.organisations ==> o in outer.organisations)
  }

  lemma GrantsShrink(
    t: Snapshot, s: Snapshot, u: User, a: Application, now: int, permission: Option<string>, e: Entitlement, r: Role)
    requires Narrowed(t, s)
    requires Grants(e, r, u, a, t, now, permission)
    ensures Grants(e, r, u, a, s, now, permission)
  {
    assert ActiveTeams(u, t, now) <= ActiveTeams(u, s, now);
  }

  lemma ThroughShrinks(
    t: Snapshot, s: Snapshot, u: User, a: Application, now: int, permission: Option<string>, r: Role)
    requires Narrowed(t, s) && Through(r, u, a, t, now, permission)
    ensures Through(r, u, a, s, now, permission)
  {
    var e :| e in t.entitlements && Grants(e, r, u, a, t, now, permission);
    GrantsShrink(t, s, u, a, now, permission, e, r);
  }

  lemma CountsShrinks(
    t: Snapshot, s: Snapshot, u: User, a: Application, now: int, permission: Option<string>, e: Entitlement)
    requires Narrowed(t, s) && Counts(e, u, a, t, now, permission)
    ensures Counts(e, u, a, s, now, permission)
  {
    var r :| r in t.roles && Grants(e, r, u, a, t, now, permission);
    GrantsShrink(t, s, u, a, now, permission, e, r);
  }

  lemma NarrowGate(t: Snapshot, s: Snapshot, identity: Option<Identity>, applicationId: string, now: Stamp)
    requires Narrowed(t, s)
    ensures Gate(identity, applicationId, t, now) == Gate(identity, applicationId, s, now)
  {
  }

  lemma GateWasOpen(
    identity: Option<Identity>, applicationId: string, s: Snapshot, now: Stamp, permission: Option<string>)
    requires Evaluate(identity, applicationId, s, now, permission).Granted?
    ensures
      var d := Evaluate(identity, applicationId, s, now, permission);
      Gate(identity, applicationId, s, now) == Ok((d.user, d.application))
  {
  }

  lemma GrantHasReason(
    identity: Option<Identity>, applicationId: string, s: Snapshot, now: Stamp, permission: Option<string>)
    returns (e: Entitlement)
    requires UniqueLookups(s)
    requires Evaluate(identity, applicationId, s, now, permission).Granted?
    ensures
      var d := Evaluate(identity, applicationId, s, now, permission);
      now.At? && Counts(e, d.user, d.application, s, now.ms, permission)
  {
    var d := Evaluate(identity, applicationId, s, now, permission);
    GrantFrom(identity, applicationId, s, now, permission);
    e := Kept(d, s, now.ms, permission)[0];
    KeptIff(s, d.user, d.application, now.ms, permission, e);
  }

  lemma AdmittedWith(
    identity: Option<Identity>, applicationId: string, s: Snapshot, now: Stamp, permission: Option<string>,
    u: User, a: Application, e: Entitlement)
    requires ValidSnapshot(s) && now.At?
    requires Gate(identity, applicationId, s, now) == Ok((u, a)) && Counts(e, u, a, s, now.ms, permission)
    ensures
      var d := Evaluate(identity, applicationId, s, now, permission);
      d.Granted? && d.user == u && d.application == a
  {
    var r :| r in s.roles && Grants(e, r, u, a, s, now.ms, permission);
    assert AnyGrants(u, a, s, now.ms, permission);
    DecideMeans(s, u, a, now.ms, permission);
  }

  /** Removing or revoking never turns a denial into a grant. */
  lemma NarrowingNeverAdmits(
    t: Snapshot, s: Snapshot, identity: Option<Identity>, applicationId: string, now: Stamp,
    permission: Option<string>)
    requires ValidSnapshot(s) && Narrowed(t, s)
    requires Evaluate(identity, applicationId, t, now, permission).Granted?
    ensures
      var before := Evaluate(identity, applicationId, s, now, permission);
      var after := Evaluate(identity, applicationId, t, now, permission);
      before.Granted? && before.user == after.user && before.application == after.application
  {
    var d := Evaluate(identity, applicationId, t, now, permission);
    var e := GrantHasReason(identity, applicationId, t, now, permission);
    CountsShrinks(t, s, d.user, d.application, now.ms, permission, e);
    GateWasOpen(identity, applicationId, t, now, permission);
    NarrowGate(t, s, identity, applicationId, now);
    AdmittedWith(identity, applicationId, s, now, permission, d.user, d.application, e);
  }

  /** Nor does it add a permission. */
  lemma NarrowingAddsNoPermission(
    t: Snapshot, s: Snapshot, identity: Option<Identity>, applicationId: string, now: Stamp,
    permission: Option<string>, x: string)
    requires ValidSnapshot(s) && Narrowed(t, s)
    requires Evaluate(identity, applicationId, t, now, permission).Granted?
    requires x in Evaluate(identity, applicationId, t, now, permission).permissions
    ensures
      var before := Evaluate(identity, applicationId, s, now, permission);
      before.Granted? && x in before.permissions
  {
    var d := Evaluate(identity, applicationId, t, now, permission);
    NarrowingNeverAdmits(t, s, identity, applicationId, now, permission);
    GrantedPermissions(identity, applicationId, t, now, permission, x);
    var r :| Through(r, d.user, d.application, t, now.ms, permission) && x in r.permissions;
    ThroughShrinks(t, s, d.user, d.application, now.ms, permission, r);
    GrantedPermissions(identity, applicationId, s, now, permission, x);
  }

  /** Nor a role. */
  lemma NarrowingAddsNoRole(
    t: Snapshot, s: Snapshot, identity: Option<Identity>, applicationId: string, now: Stamp,
    permission: Option<string>, x: string)
    requires ValidSnapshot(s) && Narrowed(t, s)
    requires Evaluate(identity, applicationId, t, now, permission).Granted?
    requires x in Evaluate(identity, applicationId, t, now, permission).roleIds
    ensures
      var before := Evaluate(identity, applicationId, s, now, permission);
      before.Granted? && x in before.roleIds
  {
    var d := Evaluate(identity, applicationId, t, now, permission);
    NarrowingNeverAdmits(t, s, identity, applicationId, now, permission);
    GrantedRoles(identity, applicationId, t, now, permission, x);
    var r :| Through(r, d.user, d.application, t, now.ms, permission) && r.id == x;
    ThroughShrinks(t, s, d.user, d.application, now.ms, permission, r);
    GrantedRoles(identity, applicationId, s, now, permission, x);
  }

  /** Nor does it widen the scope. */
  lemma NarrowingNeverWidensScope(
    t: Snapshot, s: Snapshot, identity: Option<Identity>, applicationId: string, now: Stamp,
    permission: Option<string>)
    requires ValidSnapshot(s) && Narrowed(t, s)
    requires Evaluate(identity, applicationId, t, now, permission).Granted?
    ensures
      var before := Evaluate(identity, applicationId, s, now, permission);
      before.Granted? && ScopeWithin(Evaluate(identity, applicationId, t, now, permission).scope, before.scope)
  {
    var after := Evaluate(identity, applicationId, t, now, permission);
    NarrowingNeverAdmits(t, s, identity, applicationId, now, permission);
    var before := Evaluate(identity, applicationId, s, now, permission);
    ScopeIsNotMixed(identity, applicationId, t, now, permission, "");
    ScopeIsNotMixed(identity, applicationId, s, now, permission, "");
    if after.scope.all {
      ReachShrinks(t, s, after, before, now.ms, permission, "");
    }
    forall o | !before.scope.all && !after.scope.all && o in after.scope.organisations
      ensures o in before.scope.organisations
    {
      ScopeIsNotMixed(identity, applicationId, t, now, permission, o);
      ReachShrinks(t, s, after, before, now.ms, permission, o);
      ScopeIsNotMixed(identity, applicationId, s, now, permission, o);
    }
  }

  lemma ReachShrinks(
    t: Snapshot, s: Snapshot, after: Decision, before: Decision, now: int, permission: Option<string>, o: string)
    requires Narrowed(t, s) && after.Granted? && before.Granted?
    requires after.user == before.user && after.application == before.application
    ensures Reaches(o, after, t, now, permission) ==> Reaches(o, before, s, now, permission)
    ensures ReachesAll(after, t, now, permission) ==> ReachesAll(before, s, now, permission)
  {
    forall e | Counts(e, after.user, after.application, t, now, permission)
      ensures Counts(e, before.user, before.application, s, now, permission)
    {
      CountsShrinks(t, s, after.user, after.application, now, permission, e);
    }
  }

  /** Without validation it can: a role that does not resolve refuses
      everyone its entitlement applies to, whatever else they hold. */
  lemma RoleInvalidIff(
    identity: Option<Identity>, applicationId: string, s: Snapshot, now: Stamp, permission: Option<string>)
    ensures
      var gate := Gate(identity, applicationId, s, now);
      Evaluate(identity, applicationId, s, now, permission) == Denied(RoleInvalid) <==>
        && gate.Ok?
        && (exists e :: e in s.entitlements && Dangling(e, gate.value.0, gate.value.1, s, now.ms))
  {
    var gate := Gate(identity, applicationId, s, now);
    if gate.Ok? {
      var u, a := gate.value.0, gate.value.1;
      FilterKeeps(s.entitlements, IsCurrent(u, a.id, ActiveTeams(u, s, now.ms), now.ms));
      RolesByIdMembers(s.roles, a.id);
      assert forall e :: e in s.entitlements && IsCurrent(u, a.id, ActiveTeams(u, s, now.ms), now.ms)(e) ==>
        (e.role !in RolesById(s.roles, a.id) <==> Dangling(e, u, a, s, now.ms));
    }
  }

  ghost predicate Dangling(e: Entitlement, u: User, a: Application, s: Snapshot, now: int) {
    && IsCurrent(u, a.id, ActiveTeams(u, s, now), now)(e)
    && !exists r :: r in s.roles && r.id == e.role && r.application == a.id
  }

  // ---------------------------------------------------------------------
  // Time

  predicate OutsideSpan(stamp: Stamp, from: int, to: int) {
    stamp.At? ==> stamp.ms <= from || to < stamp.ms
  }

  predicate WindowStill(w: Window, from: int, to: int) {
    && (w.startsAt.Some? ==> OutsideSpan(w.startsAt.value, from, to))
    && (w.expiresAt.Some? ==> OutsideSpan(w.expiresAt.value, from, to))
  }

  /** No window opens or closes, and no verification takes effect, after
      `from` and up to `to`. */
  ghost predicate NothingHappens(s: Snapshot, identity: Option<Identity>, from: int, to: int) {
    && (identity.Some? ==> OutsideSpan(identity.value.verifiedAt, from, to))
    && (forall m :: m in s.memberships ==> WindowStill(m.window, from, to))
    && (forall e :: e in s.entitlements ==> WindowStill(e.window, from, to))
  }

  /** Between consecutive instants the decision does not change; no validity
      is needed. */
  lemma ConstantBetweenInstants(
    s: Snapshot, identity: Option<Identity>, applicationId: string, from: int, to: int, permission: Option<string>)
    requires from <= to && NothingHappens(s, identity, from, to)
    ensures Evaluate(identity, applicationId, s, At(from), permission) ==
      Evaluate(identity, applicationId, s, At(to), permission)
  {
    var gate := Gate(identity, applicationId, s, At(from));
    assert gate == Gate(identity, applicationId, s, At(to));
    if gate.Ok? {
      var u, a := gate.value.0, gate.value.1;
      var teams := ActiveTeams(u, s, from);
      assert teams == ActiveTeams(u, s, to);
      FilterAgrees(s.entitlements, IsCurrent(u, a.id, teams, from), IsCurrent(u, a.id, teams, to));
    }
  }

  /** The launcher lists exactly the applications the user may open. */
  lemma ListsTheAllowed(identity: Option<Identity>, s: Snapshot, now: Stamp, a: Application)
    requires ValidSnapshot(s)
    ensures a in ListAccessible(identity, s, now) <==> a in s.applications && Entitled(identity, a.id, s, now, None)
  {
    FilterKeeps(s.applications, Opens(identity, s, now));
    AllowedIff(identity, a.id, s, now, None);
  }
}
