/** What the access decision guarantees on validated snapshots. */
module AccessLaws {
  import opened Common
  import opened Lists
  import opened AccessModel
  import opened Evaluator

  // ---------------------------------------------------------------------
  // Who is let in, and with what

  lemma DecideGrants(
    user: User, application: Application, teams: set<string>, roles: map<string, Role>,
    entitlements: seq<Entitlement>, now: int, permission: Option<string>)
    requires forall e :: e in entitlements && IsCurrent(user, application.id, teams, now)(e) ==> e.role in roles
    ensures
      var decision := Decide(user, application, teams, roles, entitlements, now, permission);
      var permitted := Permitted(user, application.id, teams, roles, entitlements, now, permission);
      && (decision.Granted? <==> permitted != [])
      && (decision.Granted? ==> decision == GrantOf(user, application, roles, permitted))
      && decision != Denied(RoleInvalid)
  {
    FilterKeeps(entitlements, IsCurrent(user, application.id, teams, now));
  }

  /** The kept entitlements are exactly the ones that grant through a role. */
  lemma PermittedGrant(
    s: Snapshot, u: User, a: Application, now: int, permission: Option<string>, e: Entitlement)
    requires UniqueRoles(s.roles)
    ensures
      var roles := RolesById(s.roles, a.id);
      e in Permitted(u, a.id, ActiveTeams(u, s, now), roles, s.entitlements, now, permission) <==>
        e.role in roles && Grants(e, roles[e.role], u, a, s, now, permission)
  {
    RolesByIdMembers(s.roles, a.id);
    PermittedMembers(u, a.id, ActiveTeams(u, s, now), RolesById(s.roles, a.id), s.entitlements, now, permission);
  }

  lemma GrantingRole(
    s: Snapshot, u: User, a: Application, now: int, permission: Option<string>, e: Entitlement, r: Role)
    requires UniqueRoles(s.roles)
    requires Grants(e, r, u, a, s, now, permission)
    ensures e.role in RolesById(s.roles, a.id) && RolesById(s.roles, a.id)[e.role] == r
  {
    RoleFound(s, a.id, r);
  }

  lemma RolesResolve(s: Snapshot, u: User, a: Application, now: int)
    requires ValidSnapshot(s)
    ensures forall e ::
      e in s.entitlements && IsCurrent(u, a.id, ActiveTeams(u, s, now), now)(e) ==> e.role in RolesById(s.roles, a.id)
  {
    RolesByIdMembers(s.roles, a.id);
    forall e | e in s.entitlements && e.application == a.id ensures e.role in RolesById(s.roles, a.id) {
      assert EntitlementResolved(s, e);
    }
  }

  ghost predicate AnyGrants(u: User, a: Application, s: Snapshot, now: int, permission: Option<string>) {
    exists e, r :: e in s.entitlements && r in s.roles && Grants(e, r, u, a, s, now, permission)
  }

  lemma DecideMeans(s: Snapshot, u: User, a: Application, now: int, permission: Option<string>)
    requires ValidSnapshot(s)
    ensures
      var roles := RolesById(s.roles, a.id);
      var decision := Decide(u, a, ActiveTeams(u, s, now), roles, s.entitlements, now, permission);
      && (decision.Granted? <==> AnyGrants(u, a, s, now, permission))
      && decision != Denied(RoleInvalid)
  {
    var roles := RolesById(s.roles, a.id);
    var teams := ActiveTeams(u, s, now);
    var permitted := Permitted(u, a.id, teams, roles, s.entitlements, now, permission);
    RolesResolve(s, u, a, now);
    DecideGrants(u, a, teams, roles, s.entitlements, now, permission);
    if permitted != [] {
      assert permitted[0] in permitted;
      PermittedGrant(s, u, a, now, permission, permitted[0]);
    }
    if AnyGrants(u, a, s, now, permission) {
      var e, r :| e in s.entitlements && r in s.roles && Grants(e, r, u, a, s, now, permission);
      GrantingRole(s, u, a, now, permission, e, r);
      PermittedGrant(s, u, a, now, permission, e);
    }
  }

  ghost predicate Entitled(
    identity: Option<Identity>, applicationId: string, s: Snapshot, now: Stamp, permission: Option<string>)
  {
    exists u, a ::
      && u in s.users && a in s.applications
      && Admitted(identity, applicationId, s, now, u, a)
      && AnyGrants(u, a, s, now.ms, permission)
  }

  lemma GateOutcome(identity: Option<Identity>, applicationId: string, s: Snapshot, now: Stamp)
    requires UniqueLookups(s)
    ensures
      var gate := Gate(identity, applicationId, s, now);
      && (gate.Ok? ==> Admitted(identity, applicationId, s, now, gate.value.0, gate.value.1))
      && (gate.Err? ==> gate.error != RoleInvalid)
  {
    var gate := Gate(identity, applicationId, s, now);
    if gate.Ok? {
      GateAdmits(identity, applicationId, s, now, gate.value.0, gate.value.1);
    }
  }

  /** Access is granted exactly when a verified identity, its active user, an
      open application and one entitlement with its own role all line up; and
      a validated snapshot never makes a role unresolvable. */
  lemma AllowedIff(
    identity: Option<Identity>, applicationId: string, s: Snapshot, now: Stamp, permission: Option<string>)
    requires ValidSnapshot(s)
    ensures Evaluate(identity, applicationId, s, now, permission).Granted? <==>
      Entitled(identity, applicationId, s, now, permission)
    ensures Evaluate(identity, applicationId, s, now, permission) != Denied(RoleInvalid)
  {
    var gate := Gate(identity, applicationId, s, now);
    GateOutcome(identity, applicationId, s, now);
    if gate.Ok? {
      DecideMeans(s, gate.value.0, gate.value.1, now.ms, permission);
    }
    if Entitled(identity, applicationId, s, now, permission) {
      var u, a :| u in s.users && a in s.applications && Admitted(identity, applicationId, s, now, u, a)
        && AnyGrants(u, a, s, now.ms, permission);
      GateAdmits(identity, applicationId, s, now, u, a);
    }
  }

  /** The roles held through a list of entitlements. */
  lemma HeldRoles(entitlements: seq<Entitlement>, roles: map<string, Role>, r: Role)
    ensures r in FlatMap(entitlements, RoleOf(roles)) <==>
      exists e :: e in entitlements && e.role in roles && roles[e.role] == r
  {
    FlatMapMembers(entitlements, RoleOf(roles));
    if r in FlatMap(entitlements, RoleOf(roles)) {
      var e :| e in entitlements && r in RoleOf(roles)(e);
      assert e.role in roles;
    }
    if e :| e in entitlements && e.role in roles && roles[e.role] == r {
      assert r in RoleOf(roles)(e);
    }
  }

  // ---------------------------------------------------------------------
  // What a grant contains

  function Kept(d: Decision, s: Snapshot, now: int, permission: Option<string>): seq<Entitlement>
    requires d.Granted?
  {
    Permitted(d.user, d.application.id, ActiveTeams(d.user, s, now), RolesById(s.roles, d.application.id),
              s.entitlements, now, permission)
  }

  lemma GrantFrom(
    identity: Option<Identity>, applicationId: string, s: Snapshot, now: Stamp, permission: Option<string>)
    requires UniqueLookups(s)
    requires Evaluate(identity, applicationId, s, now, permission).Granted?
    ensures
      var d := Evaluate(identity, applicationId, s, now, permission);
      && Admitted(identity, applicationId, s, now, d.user, d.application)
      && Kept(d, s, now.ms, permission) != []
      && d == GrantOf(d.user, d.application, RolesById(s.roles, d.application.id), Kept(d, s, now.ms, permission))
  {
    GateOutcome(identity, applicationId, s, now);
  }

  /** `u` holds role `r` through some entitlement that grants. */
  ghost predicate Through(r: Role, u: User, a: Application, s: Snapshot, now: int, permission: Option<string>) {
    r in s.roles && exists e :: e in s.entitlements && Grants(e, r, u, a, s, now, permission)
  }

  lemma HeldIff(s: Snapshot, u: User, a: Application, now: int, permission: Option<string>, r: Role)
    requires UniqueRoles(s.roles)
    ensures
      var roles := RolesById(s.roles, a.id);
      var kept := Permitted(u, a.id, ActiveTeams(u, s, now), roles, s.entitlements, now, permission);
      r in FlatMap(kept, RoleOf(roles)) <==> Through(r, u, a, s, now, permission)
  {
    var roles := RolesById(s.roles, a.id);
    var kept := Permitted(u, a.id, ActiveTeams(u, s, now), roles, s.entitlements, now, permission);
    HeldRoles(kept, roles, r);
    forall e ensures e in kept <==> e.role in roles && Grants(e, roles[e.role], u, a, s, now, permission) {
      PermittedGrant(s, u, a, now, permission, e);
    }
    if e :| e in s.entitlements && Grants(e, r, u, a, s, now, permission) {
      GrantingRole(s, u, a, now, permission, e, r);
    }
  }

  /** A grant lists exactly the permissions of the roles it came through,
      each once, in order. */
  lemma GrantedPermissions(
    identity: Option<Identity>, applicationId: string, s: Snapshot, now: Stamp, permission: Option<string>, p: string)
    requires UniqueLookups(s)
    requires Evaluate(identity, applicationId, s, now, permission).Granted?
    ensures
      var d := Evaluate(identity, applicationId, s, now, permission);
      && Ordered(d.permissions) && multiset(d.permissions)[p] <= 1
      && (p in d.permissions <==>
            exists r :: Through(r, d.user, d.application, s, now.ms, permission) && p in r.permissions)
  {
    var d := Evaluate(identity, applicationId, s, now, permission);
    GrantFrom(identity, applicationId, s, now, permission);
    var held := FlatMap(Kept(d, s, now.ms, permission), RoleOf(RolesById(s.roles, d.application.id)));
    SortedSetMembers(FlatMap(held, RolePermissions));
    FlatMapMembers(held, RolePermissions);
    forall r ensures r in held <==> Through(r, d.user, d.application, s, now.ms, permission) {
      HeldIff(s, d.user, d.application, now.ms, permission, r);
    }
    assert forall r :: r in held && p in RolePermissions(r) <==> r in held && p in r.permissions;
  }

  /** The same for the roles' ids and keys. */
  lemma GrantedRoles(
    identity: Option<Identity>, applicationId: string, s: Snapshot, now: Stamp, permission: Option<string>, k: string)
    requires UniqueLookups(s)
    requires Evaluate(identity, applicationId, s, now, permission).Granted?
    ensures
      var d := Evaluate(identity, applicationId, s, now, permission);
      && Ordered(d.roleIds) && multiset(d.roleIds)[k] <= 1
      && Ordered(d.roleKeys) && multiset(d.roleKeys)[k] <= 1
      && (k in d.roleIds <==> exists r :: Through(r, d.user, d.application, s, now.ms, permission) && r.id == k)
      && (k in d.roleKeys <==> exists r :: Through(r, d.user, d.application, s, now.ms, permission) && r.key == k)
  {
    var d := Evaluate(identity, applicationId, s, now, permission);
    GrantFrom(identity, applicationId, s, now, permission);
    var held := FlatMap(Kept(d, s, now.ms, permission), RoleOf(RolesById(s.roles, d.application.id)));
    SortedSetMembers(Map(held, RoleId));
    SortedSetMembers(Map(held, RoleKey));
    MapMembers(held, RoleId);
    MapMembers(held, RoleKey);
    forall r ensures r in held <==> Through(r, d.user, d.application, s, now.ms, permission) {
      HeldIff(s, d.user, d.application, now.ms, permission, r);
    }
    assert forall r :: r in held && RoleId(r) == k <==> r in held && r.id == k;
    assert forall r :: r in held && RoleKey(r) == k <==> r in held && r.key == k;
  }

  /** Entitlement `e` grants, through some role of its own. */
  ghost predicate Counts(e: Entitlement, u: User, a: Application, s: Snapshot, now: int, permission: Option<string>) {
    exists r :: r in s.roles && Grants(e, r, u, a, s, now, permission)
  }

  lemma KeptIff(s: Snapshot, u: User, a: Application, now: int, permission: Option<string>, e: Entitlement)
    requires UniqueRoles(s.roles)
    ensures
      var kept := Permitted(u, a.id, ActiveTeams(u, s, now), RolesById(s.roles, a.id), s.entitlements, now, permission);
      e in kept <==> Counts(e, u, a, s, now, permission)
  {
    PermittedGrant(s, u, a, now, permission, e);
    if r :| r in s.roles && Grants(e, r, u, a, s, now, permission) {
      GrantingRole(s, u, a, now, permission, e, r);
    }
  }

  lemma SortedIds(entitlements: seq<Entitlement>, k: string)
    ensures Ordered(Sort(Map(entitlements, EntitlementId)))
    ensures k in Sort(Map(entitlements, EntitlementId)) <==> exists e :: e in entitlements && e.id == k
  {
    var ids := Map(entitlements, EntitlementId);
    SortOrders(ids);
    assert k in Sort(ids) <==> k in multiset(Sort(ids));
    MapMembers(entitlements, EntitlementId);
    assert forall e :: e in entitlements && EntitlementId(e) == k <==> e in entitlements && e.id == k;
  }

  /** The entitlements a grant names are exactly those that grant. */
  lemma GrantedEntitlements(
    identity: Option<Identity>, applicationId: string, s: Snapshot, now: Stamp, permission: Option<string>, k: string)
    requires UniqueLookups(s)
    requires Evaluate(identity, applicationId, s, now, permission).Granted?
    ensures
      var d := Evaluate(identity, applicationId, s, now, permission);
      && Ordered(d.entitlementIds)
      && (k in d.entitlementIds <==>
            exists e: Entitlement :: e.id == k && Counts(e, d.user, d.application, s, now.ms, permission))
  {
    var d := Evaluate(identity, applicationId, s, now, permission);
    GrantFrom(identity, applicationId, s, now, permission);
    var kept := Kept(d, s, now.ms, permission);
    SortedIds(kept, k);
    forall e ensures e in kept <==> Counts(e, d.user, d.application, s, now.ms, permission) {
      KeptIff(s, d.user, d.application, now.ms, permission, e);
    }
  }

  lemma {:induction false} FilteredCounts(
    entitlements: seq<Entitlement>, keep: Entitlement -> bool, k: string)
    ensures multiset(Map(Filter(entitlements, keep), EntitlementId))[k] <= multiset(Map(entitlements, EntitlementId))[k]
  {
    if entitlements == [] {
    } else {
      var head, rest := entitlements[0], entitlements[1..];
      var kept := Filter(rest, keep);
      FilteredCounts(rest, keep, k);
      assert Map(entitlements, EntitlementId) == [head.id] + Map(rest, EntitlementId);
      if keep(head) {
        assert Filter(entitlements, keep) == [head] + kept;
        assert Map([head] + kept, EntitlementId) == [head.id] + Map(kept, EntitlementId);
      } else {
        assert Filter(entitlements, keep) == kept;
      }
    }
  }

  lemma {:induction false} UniqueCounts(entitlements: seq<Entitlement>, k: string)
    requires UniqueEntitlements(entitlements)
    ensures multiset(Map(entitlements, EntitlementId))[k] <= 1
  {
    if entitlements == [] {
    } else {
      var rest := entitlements[1..];
      UniqueCounts(rest, k);
      MapMembers(rest, EntitlementId);
      assert entitlements[0].id !in Map(rest, EntitlementId) by {
        forall e | e in rest ensures e.id != entitlements[0].id {
          var i :| 0 <= i < |rest| && rest[i] == e;
          assert entitlements[i + 1] == e;
        }
      }
      assert k in Map(rest, EntitlementId) <==> k in multiset(Map(rest, EntitlementId));
    }
  }

  /** And it names each once. */
  lemma EntitlementsNamedOnce(
    identity: Option<Identity>, applicationId: string, s: Snapshot, now: Stamp, permission: Option<string>, k: string)
    requires Unique(s)
    requires Evaluate(identity, applicationId, s, now, permission).Granted?
    ensures multiset(Evaluate(identity, applicationId, s, now, permission).entitlementIds)[k] <= 1
  {
    var d := Evaluate(identity, applicationId, s, now, permission);
    GrantFrom(identity, applicationId, s, now, permission);
    SortOrders(Map(Kept(d, s, now.ms, permission), EntitlementId));
    KeptCounts(s, d.user, d.application.id, now.ms, permission, k);
  }

  lemma KeptCounts(s: Snapshot, u: User, application: string, now: int, permission: Option<string>, k: string)
    requires UniqueEntitlements(s.entitlements)
    ensures
      var roles := RolesById(s.roles, application);
      var kept := Permitted(u, application, ActiveTeams(u, s, now), roles, s.entitlements, now, permission);
      multiset(Map(kept, EntitlementId))[k] <= 1
  {
    var teams, roles := ActiveTeams(u, s, now), RolesById(s.roles, application);
    var current := Filter(s.entitlements, IsCurrent(u, application, teams, now));
    var fitting := Filter(current, FitsPopulation(roles, u.population));
    var scoped := Filter(fitting, FitsScope(u));
    UniqueCounts(s.entitlements, k);
    FilteredCounts(s.entitlements, IsCurrent(u, application, teams, now), k);
    FilteredCounts(current, FitsPopulation(roles, u.population), k);
    FilteredCounts(fitting, FitsScope(u), k);
    if Filled(permission) {
      FilteredCounts(scoped, Permits(roles, permission.value), k);
    }
  }

  /** Some entitlement grants through a role that itself carries the asked
      permission, and its scope names organisation `o`. */
  ghost predicate Reaches(o: string, d: Decision, s: Snapshot, now: int, permission: Option<string>)
    requires d.Granted?
  {
    exists e :: Counts(e, d.user, d.application, s, now, permission) && o in e.scope.organisations
  }

  ghost predicate ReachesAll(d: Decision, s: Snapshot, now: int, permission: Option<string>)
    requires d.Granted?
  {
    exists e :: Counts(e, d.user, d.application, s, now, permission) && e.scope.all
  }

  lemma MergedScope(entitlements: seq<Entitlement>, u: User, o: string)
    ensures
      var scope := MergeScopes(entitlements, u);
      && (scope.all <==> u.population == Employee && exists e :: e in entitlements && e.scope.all)
      && (scope.all ==> scope.organisations == [])
      && (!scope.all ==> (o in scope.organisations <==> exists e :: e in entitlements && o in e.scope.organisations))
  {
    SortedSetMembers(FlatMap(entitlements, ScopeOrganisations));
    FlatMapMembers(entitlements, ScopeOrganisations);
    assert forall e :: e in entitlements && o in ScopeOrganisations(e) <==> e in entitlements && o in e.scope.organisations;
  }

  /** No scope mixing: an organisation is in a grant's scope exactly when one
      entitlement both names it and carries the asked permission. */
  lemma ScopeIsNotMixed(
    identity: Option<Identity>, applicationId: string, s: Snapshot, now: Stamp, permission: Option<string>, o: string)
    requires UniqueLookups(s)
    requires Evaluate(identity, applicationId, s, now, permission).Granted?
    ensures
      var d := Evaluate(identity, applicationId, s, now, permission);
      && (d.scope.all <==> d.user.population == Employee && ReachesAll(d, s, now.ms, permission))
      && (d.scope.all ==> d.scope.organisations == [])
      && (!d.scope.all ==> (o in d.scope.organisations <==> Reaches(o, d, s, now.ms, permission)))
  {
    var d := Evaluate(identity, applicationId, s, now, permission);
    GrantFrom(identity, applicationId, s, now, permission);
    var kept := Kept(d, s, now.ms, permission);
    MergedScope(kept, d.user, o);
    forall e ensures e in kept <==> Counts(e, d.user, d.application, s, now.ms, permission) {
      KeptIff(s, d.user, d.application, now.ms, permission, e);
    }
  }

  lemma OneName(names: seq<string>, x: string)
    requires forall y :: y in names <==> y == x
    requires multiset(names)[x] <= 1
    ensures names == [x]
  {
    assert x in names && names[0] in names;
    var rest := names[1..];
    assert names == [names[0]] + rest;
    assert x !in multiset(rest);
    assert forall k :: 0 <= k < |rest| ==> rest[k] in names && rest[k] in multiset(rest);
  }

  /** An external partner's scope is that partner's own organisation, alone. */
  lemma PartnerSeesOwnOrganisation(
    identity: Option<Identity>, applicationId: string, s: Snapshot, now: Stamp, permission: Option<string>)
    requires UniqueLookups(s)
    requires Evaluate(identity, applicationId, s, now, permission).Granted?
    requires Evaluate(identity, applicationId, s, now, permission).user.population == ExternalPartner
    ensures
      var d := Evaluate(identity, applicationId, s, now, permission);
      d.user.organisation.Some? && d.scope == Scope(false, [d.user.organisation.value])
  {
    var d := Evaluate(identity, applicationId, s, now, permission);
    GrantFrom(identity, applicationId, s, now, permission);
    var kept := Kept(d, s, now.ms, permission);
    KeptIff(s, d.user, d.application, now.ms, permission, kept[0]);
    assert kept[0].scope.organisations[0] in kept[0].scope.organisations;
    var own := d.user.organisation.value;
    forall o ensures o in d.scope.organisations <==> o == own {
      MergedScope(kept, d.user, o);
      forall e | e in kept ensures o in e.scope.organisations ==> o == own {
        KeptIff(s, d.user, d.application, now.ms, permission, e);
      }
    }
    SortedSetMembers(FlatMap(kept, ScopeOrganisations));
    OneName(d.scope.organisations, own);
  }
}
