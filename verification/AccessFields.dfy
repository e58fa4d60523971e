/** The access decision said on the fields of the snapshot alone: which
    identity, user, application, entitlement and role have to line up, and at
    which instants a window is open. */
module AccessFields {
  import opened Common
  import opened Lists
  import opened AccessModel
  import opened Evaluator
  import opened AccessLaws

  /** From its start on, up to but not at its end, and never once revoked. A
      time that cannot be read closes the window. */
  ghost predicate OpenAt(w: Window, now: int) {
    && w.revoked == false
    && (w.startsAt == None || exists t :: w.startsAt == Some(At(t)) && t <= now)
    && (w.expiresAt == None || exists t :: w.expiresAt == Some(At(t)) && now < t)
  }

  lemma InForceIff(w: Window, now: int)
    ensures InForce(w, now) <==> OpenAt(w, now)
  {
    if InForce(w, now) {
      assert w.startsAt.Some? ==> w.startsAt == Some(At(w.startsAt.value.ms));
      assert w.expiresAt.Some? ==> w.expiresAt == Some(At(w.expiresAt.value.ms));
    }
  }

  /** The identity proves itself to be user `u`. */
  ghost predicate Proves(identity: Identity, u: User, now: int) {
    && identity.emailVerified == true
    && (exists t :: identity.verifiedAt == At(t) && t <= now)
    && identity.subject == u.subject && identity.issuer == u.issuer && identity.population == u.population
    && (u.population == Employee ==>
          exists mine, theirs ::
            && identity.workspaceDomain == Some(mine) && u.workspaceDomain == Some(theirs)
            && mine != "" && theirs != "" && SameButCase(mine, theirs))
    && (u.population == ExternalPartner ==> u.organisation.Some? && u.organisation.value != "")
  }

  lemma ProvesIff(identity: Identity, u: User, now: int)
    ensures Verified(identity, now) && Matches(identity, u) <==> Proves(identity, u, now)
  {
    if identity.workspaceDomain.Some? && u.workspaceDomain.Some? {
      LowerAlike(identity.workspaceDomain.value, u.workspaceDomain.value);
    }
    if Verified(identity, now) { assert identity.verifiedAt == At(identity.verifiedAt.ms); }
  }

  /** An active user, and an application and organisation open to them. */
  ghost predicate DoorOpen(u: User, a: Application, applicationId: string, s: Snapshot) {
    && u in s.users && u.status == ActiveUser
    && a in s.applications && a.id == applicationId && a.status == Live && u.population in a.populations
    && (u.population == ExternalPartner ==>
          exists o :: o in s.organisations && u.organisation == Some(o.id) && o.active == true)
  }

  /** Entitlement `e` is theirs: their own, or that of an active team they are
      an active member of. */
  ghost predicate Theirs(e: Entitlement, u: User, s: Snapshot, now: int) {
    || e.subject == ToUser(u.id)
    || exists m, team ::
         && m in s.memberships && team in s.teams && e.subject == ToTeam(team.id)
         && m.team == team.id && m.user == u.id && team.active == true && OpenAt(m.window, now)
  }

  lemma TheirsIff(e: Entitlement, u: User, s: Snapshot, now: int)
    ensures Applies(e, u, ActiveTeams(u, s, now)) <==> Theirs(e, u, s, now)
  {
    hide OpenAt, InForce;
    forall m: Membership ensures InForce(m.window, now) <==> OpenAt(m.window, now) {
      InForceIff(m.window, now);
    }
    if e.subject.ToTeam? {
      if e.subject.team in ActiveTeams(u, s, now) {
        var m :| m in s.memberships && m.user == u.id && InForce(m.window, now) && m.team == e.subject.team
          && m.team in (set t | t in s.teams && t.active :: t.id);
        var team :| team in s.teams && team.active && team.id == m.team;
      }
    }
  }

  /** Entitlement `e` with its role `r` lets `u` into application `id`. */
  ghost predicate LetsIn(
    e: Entitlement, r: Role, u: User, id: string, s: Snapshot, now: int, permission: Option<string>)
  {
    && e in s.entitlements && e.application == id && OpenAt(e.window, now) && Theirs(e, u, s, now)
    && r in s.roles && r.id == e.role && r.application == id && u.population in r.populations
    && (u.population == ExternalPartner ==>
          && e.scope.all == false && e.scope.organisations != []
          && forall o :: o in e.scope.organisations ==> u.organisation == Some(o))
    && (permission.Some? && permission.value != "" ==> permission.value in r.permissions)
  }

  lemma LetsInIff(
    e: Entitlement, r: Role, u: User, a: Application, s: Snapshot, now: int, permission: Option<string>)
    requires u.population == ExternalPartner ==> u.organisation.Some? && u.organisation.value != ""
    ensures Grants(e, r, u, a, s, now, permission) <==> LetsIn(e, r, u, a.id, s, now, permission)
  {
    hide OpenAt, InForce, Theirs, Applies, ActiveTeams;
    InForceIff(e.window, now);
    TheirsIff(e, u, s, now);
  }

  /** Everything that has to line up for a grant. */
  ghost predicate LinesUp(
    identity: Identity, applicationId: string, s: Snapshot, now: int, permission: Option<string>,
    u: User, a: Application, e: Entitlement, r: Role)
  {
    Proves(identity, u, now) && DoorOpen(u, a, applicationId, s) && LetsIn(e, r, u, applicationId, s, now, permission)
  }

  lemma AdmittedIff(identity: Identity, applicationId: string, s: Snapshot, now: int, u: User, a: Application)
    ensures Admitted(Some(identity), applicationId, s, At(now), u, a) <==>
      Proves(identity, u, now) && DoorOpen(u, a, applicationId, s)
  {
    hide Proves, Verified, Matches;
    ProvesIff(identity, u, now);
  }

  /** The gate admits nobody it should not, on any snapshot. */
  lemma GateOnFields(identity: Option<Identity>, applicationId: string, s: Snapshot, now: Stamp)
    requires Gate(identity, applicationId, s, now).Ok?
    ensures
      var (u, a) := Gate(identity, applicationId, s, now).value;
      identity.Some? && now.At? && Proves(identity.value, u, now.ms) && DoorOpen(u, a, applicationId, s)
  {
    hide Proves;
    var (u, a) := Gate(identity, applicationId, s, now).value;
    FindFirst(s.users, IsAccount(identity.value));
    FindFirst(s.applications, HasId(applicationId));
    FindFirst(s.organisations, IsOrganisation(u.organisation));
    ProvesIff(identity.value, u, now.ms);
  }

  /** Where what it looks up is unique, it admits exactly whom it should. */
  lemma GateOpensIff(
    identity: Option<Identity>, applicationId: string, s: Snapshot, now: Stamp, u: User, a: Application)
    requires UniqueLookups(s)
    ensures Gate(identity, applicationId, s, now) == Ok((u, a)) <==>
      identity.Some? && now.At? && Proves(identity.value, u, now.ms) && DoorOpen(u, a, applicationId, s)
  {
    hide Gate, Proves, DoorOpen, UniqueLookups;
    GateAdmits(identity, applicationId, s, now, u, a);
    if identity.Some? && now.At? { AdmittedIff(identity.value, applicationId, s, now.ms, u, a); }
  }

  /** On any snapshot, valid or not, whoever is granted access has an
      entitlement and a role that line up. */
  lemma GrantedLinesUp(
    identity: Option<Identity>, applicationId: string, s: Snapshot, now: Stamp, permission: Option<string>)
    requires Evaluate(identity, applicationId, s, now, permission).Granted?
    ensures
      var d := Evaluate(identity, applicationId, s, now, permission);
      && identity.Some? && now.At?
      && exists e, r :: LinesUp(identity.value, applicationId, s, now.ms, permission, d.user, d.application, e, r)
  {
    hide Proves, LetsIn, ActiveTeams, RolesById;
    var d := Evaluate(identity, applicationId, s, now, permission);
    GateOnFields(identity, applicationId, s, now);
    var (u, a) := Gate(identity, applicationId, s, now).value;
    var roles := RolesById(s.roles, a.id);
    assert d.user == u && d.application == a;
    assert Proves(identity.value, u, now.ms) && DoorOpen(u, a, applicationId, s) && a.id == applicationId;
    var e := PermittedEntitlement(u, a, ActiveTeams(u, s, now.ms), roles, s.entitlements, now.ms, permission);
    RolesByIdMembers(s.roles, a.id);
    assert Grants(e, roles[e.role], u, a, s, now.ms, permission);
    PartnersHaveOne(identity.value, u, now.ms);
    LetsInIff(e, roles[e.role], u, a, s, now.ms, permission);
    assert LinesUp(identity.value, applicationId, s, now.ms, permission, u, a, e, roles[e.role]);
  }

  lemma PartnersHaveOne(identity: Identity, u: User, now: int)
    requires Proves(identity, u, now)
    ensures u.population == ExternalPartner ==> u.organisation.Some? && u.organisation.value != ""
  {
  }

  lemma PermittedEntitlement(
    u: User, a: Application, teams: set<string>, roles: map<string, Role>, entitlements: seq<Entitlement>, now: int,
    permission: Option<string>) returns (e: Entitlement)
    requires Decide(u, a, teams, roles, entitlements, now, permission).Granted?
    ensures e in entitlements && Passes(e, u, a.id, teams, roles, now, permission)
  {
    var permitted := Permitted(u, a.id, teams, roles, entitlements, now, permission);
    PermittedMembers(u, a.id, teams, roles, entitlements, now, permission);
    e := permitted[0];
    assert e in permitted;
  }

  /** On a validated snapshot that is all there is to it: access is granted if
      and only if an identity, its user, the application, an entitlement and
      its role line up. */
  lemma GrantedIffLinesUp(
    identity: Option<Identity>, applicationId: string, s: Snapshot, now: Stamp, permission: Option<string>)
    requires ValidSnapshot(s)
    ensures Evaluate(identity, applicationId, s, now, permission).Granted? <==>
      && identity.Some? && now.At?
      && exists u, a, e, r :: LinesUp(identity.value, applicationId, s, now.ms, permission, u, a, e, r)
  {
    hide Evaluate, ValidSnapshot, Proves, DoorOpen, LetsIn, Admitted, Grants;
    if Evaluate(identity, applicationId, s, now, permission).Granted? {
      GrantedLinesUp(identity, applicationId, s, now, permission);
    }
    if identity.Some? && now.At? {
      forall u, a, e, r | LinesUp(identity.value, applicationId, s, now.ms, permission, u, a, e, r)
        ensures Evaluate(identity, applicationId, s, now, permission).Granted?
      {
        LinedUpIsGranted(identity.value, applicationId, s, now.ms, permission, u, a, e, r);
      }
    }
  }

  lemma LinedUpIsGranted(
    identity: Identity, applicationId: string, s: Snapshot, now: int, permission: Option<string>,
    u: User, a: Application, e: Entitlement, r: Role)
    requires ValidSnapshot(s) && LinesUp(identity, applicationId, s, now, permission, u, a, e, r)
    ensures Evaluate(Some(identity), applicationId, s, At(now), permission).Granted?
  {
    hide Evaluate, ValidSnapshot, Proves, OpenAt, Theirs, Admitted, Grants;
    AdmittedIff(identity, applicationId, s, now, u, a);
    PartnersHaveOne(identity, u, now);
    LetsInIff(e, r, u, a, s, now, permission);
    assert AnyGrants(u, a, s, now, permission);
    assert Entitled(Some(identity), applicationId, s, At(now), permission);
    AllowedIff(Some(identity), applicationId, s, At(now), permission);
  }

  // ---------------------------------------------------------------------
  // The two boundary instants

  const PERSON := User("u", "s", "i", Employee, "e", "n", ActiveUser, Some("D"), None, [], 1)
  const OFFICE := Application("p", "app", Live, [Employee])
  const MEMBER := Role("r", "p", "user", "User", UserLevel, [], [Employee])
  const WITH_DATES := Entitlement("g", "p", "r", ToUser("u"), Scope(false, []), Window(Some(At(3)), Some(At(5)), false), None, "u", At(0))
  const OFFICE_SNAPSHOT := Snapshot([PERSON], [], [], [], [OFFICE], [MEMBER], [WITH_DATES])
  const SIGNED_IN := Identity("s", "i", Employee, true, At(0), Some("d"))

  /** One entitlement, from 3 to 5: access is granted exactly from the first
      instant on and before the last. */
  lemma GrantedFromStartToEnd(now: nat)
    ensures Evaluate(Some(SIGNED_IN), "p", OFFICE_SNAPSHOT, At(now), None).Granted? <==> 3 <= now < 5
  {
    hide Evaluate;
    var s := OFFICE_SNAPSHOT;
    assert OFFICE in s.applications && MEMBER in s.roles && PERSON in s.users && WITH_DATES in s.entitlements;
    assert KnownApplication(s, "p") && RoleKnown(s, WITH_DATES);
    GrantedIffLinesUp(Some(SIGNED_IN), "p", s, At(now), None);
    if 3 <= now < 5 {
      assert WITH_DATES.window.startsAt == Some(At(3)) && WITH_DATES.window.expiresAt == Some(At(5));
      assert OpenAt(WITH_DATES.window, now);
      assert SIGNED_IN.verifiedAt == At(0);
      assert SameButCase("d", "D");
      assert SIGNED_IN.workspaceDomain == Some("d") && PERSON.workspaceDomain == Some("D");
      assert LinesUp(SIGNED_IN, "p", s, now, None, PERSON, OFFICE, WITH_DATES, MEMBER);
    }
  }
}
