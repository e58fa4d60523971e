/** Why access is denied: each reason, said of the snapshot rather than of
    the steps that look it up. */
module AccessDenials {
  import opened Common
  import opened Lists
  import opened AccessModel
  import opened Evaluator
  import opened AccessLaws

  // ---------------------------------------------------------------------
  // Before entitlements

  predicate Proven(identity: Option<Identity>, now: Stamp) {
    now.At? && identity.Some? && Verified(identity.value, now.ms)
  }

  /** `u` is the account of a proven identity. */
  predicate Account(identity: Option<Identity>, s: Snapshot, now: Stamp, u: User) {
    Proven(identity, now) && u in s.users && u.subject == identity.value.subject && u.issuer == identity.value.issuer
  }

  predicate SignedIn(identity: Option<Identity>, s: Snapshot, now: Stamp, u: User) {
    Account(identity, s, now, u) && Matches(identity.value, u) && u.status.ActiveUser?
  }

  ghost predicate SomebodySignedIn(identity: Option<Identity>, s: Snapshot, now: Stamp) {
    exists u :: u in s.users && SignedIn(identity, s, now, u)
  }

  predicate Named(applicationId: string, s: Snapshot, a: Application) {
    a in s.applications && a.id == applicationId
  }

  ghost predicate AtTheDoor(
    identity: Option<Identity>, applicationId: string, s: Snapshot, now: Stamp, u: User, a: Application)
  {
    SignedIn(identity, s, now, u) && Named(applicationId, s, a) && a.status.Live?
  }

  ghost predicate OrganisationOpen(s: Snapshot, u: User) {
    u.population == Employee || exists o :: o in s.organisations && Some(o.id) == u.organisation && o.active
  }

  /** The reasons, each with everything before it in order. */
  ghost predicate Blocked(
    reason: Reason, identity: Option<Identity>, applicationId: string, s: Snapshot, now: Stamp)
  {
    match reason
    case EvaluationTimeInvalid => now.Unreadable?
    case IdentityMissing => now.At? && identity.None?
    case IdentityUnverified => now.At? && identity.Some? && !Verified(identity.value, now.ms)
    case UserNotFound => Proven(identity, now) && forall u :: u in s.users ==> !Account(identity, s, now, u)
    case IdentityMismatch => exists u :: u in s.users && Account(identity, s, now, u) && !Matches(identity.value, u)
    case UserInactive =>
      exists u :: u in s.users && Account(identity, s, now, u) && Matches(identity.value, u) && !u.status.ActiveUser?
    case ApplicationNotFound => SomebodySignedIn(identity, s, now) && !KnownApplication(s, applicationId)
    case ApplicationInactive =>
      SomebodySignedIn(identity, s, now) && exists a :: Named(applicationId, s, a) && !a.status.Live?
    case PopulationNotAllowed =>
      exists u, a :: AtTheDoor(identity, applicationId, s, now, u, a) && u.population !in a.populations
    case PartnerOrganisationInactive =>
      exists u, a ::
        AtTheDoor(identity, applicationId, s, now, u, a) && u.population in a.populations && !OrganisationOpen(s, u)
    case _ => false
  }

  lemma OneAccount(identity: Option<Identity>, s: Snapshot, now: Stamp, u: User)
    requires UniqueLookups(s) && Account(identity, s, now, u)
    ensures Find(s.users, IsAccount(identity.value)) == Some(u)
  {
    FindFirst(s.users, IsAccount(identity.value));
    SameUser(s, u, Find(s.users, IsAccount(identity.value)).value);
  }

  lemma OneApplication(applicationId: string, s: Snapshot, a: Application)
    requires UniqueLookups(s) && Named(applicationId, s, a)
    ensures Find(s.applications, HasId(applicationId)) == Some(a)
  {
    FindFirst(s.applications, HasId(applicationId));
    SameApplication(s, a, Find(s.applications, HasId(applicationId)).value);
  }

  lemma OrganisationOpenIff(s: Snapshot, u: User)
    requires UniqueLookups(s) && u.population == ExternalPartner
    ensures OrganisationOpen(s, u) <==> OrganisationActive(s, u.organisation)
  {
    FindFirst(s.organisations, IsOrganisation(u.organisation));
    if o :| o in s.organisations && Some(o.id) == u.organisation && o.active {
      SameOrganisation(s, o, Find(s.organisations, IsOrganisation(u.organisation)).value);
    }
  }

  /** The gate names the reason that holds. */
  lemma GateReasonHolds(identity: Option<Identity>, applicationId: string, s: Snapshot, now: Stamp)
    requires UniqueLookups(s) && Gate(identity, applicationId, s, now).Err?
    ensures Blocked(Gate(identity, applicationId, s, now).error, identity, applicationId, s, now)
  {
    if Proven(identity, now) {
      FindFirst(s.users, IsAccount(identity.value));
      FindFirst(s.applications, HasId(applicationId));
      var account := Find(s.users, IsAccount(identity.value));
      var application := Find(s.applications, HasId(applicationId));
      if account.Some? && SignedIn(identity, s, now, account.value) {
        if application.Some? {
          assert Named(applicationId, s, application.value);
          assert application.value.status.Live? ==>
            AtTheDoor(identity, applicationId, s, now, account.value, application.value);
          if account.value.population == ExternalPartner {
            OrganisationOpenIff(s, account.value);
          }
        }
      }
    }
  }

  lemma BlockedBeforeApplication(
    reason: Reason, identity: Option<Identity>, applicationId: string, s: Snapshot, now: Stamp)
    requires UniqueLookups(s) && Blocked(reason, identity, applicationId, s, now)
    requires reason in {EvaluationTimeInvalid, IdentityMissing, IdentityUnverified, UserNotFound, IdentityMismatch, UserInactive}
    ensures Gate(identity, applicationId, s, now) == Err(reason)
  {
    if Proven(identity, now) {
      FindFirst(s.users, IsAccount(identity.value));
      forall u | Account(identity, s, now, u) ensures Find(s.users, IsAccount(identity.value)) == Some(u) {
        OneAccount(identity, s, now, u);
      }
    }
  }

  lemma BlockedAtApplication(
    reason: Reason, identity: Option<Identity>, applicationId: string, s: Snapshot, now: Stamp, u: User)
    requires UniqueLookups(s) && Blocked(reason, identity, applicationId, s, now) && SignedIn(identity, s, now, u)
    requires reason in {ApplicationNotFound, ApplicationInactive, PopulationNotAllowed, PartnerOrganisationInactive}
    ensures Gate(identity, applicationId, s, now) == Err(reason)
  {
    OneAccount(identity, s, now, u);
    FindFirst(s.applications, HasId(applicationId));
    forall a | Named(applicationId, s, a) ensures Find(s.applications, HasId(applicationId)) == Some(a) {
      OneApplication(applicationId, s, a);
    }
    forall v | SignedIn(identity, s, now, v) ensures v == u {
      SameUser(s, u, v);
    }
    if u.population == ExternalPartner {
      OrganisationOpenIff(s, u);
    }
  }

  /** Before entitlements, a reason is given if and only if it holds. */
  lemma GateReasonIff(
    reason: Reason, identity: Option<Identity>, applicationId: string, s: Snapshot, now: Stamp)
    requires UniqueLookups(s)
    ensures Gate(identity, applicationId, s, now) == Err(reason) <==> Blocked(reason, identity, applicationId, s, now)
  {
    if Gate(identity, applicationId, s, now).Err? {
      GateReasonHolds(identity, applicationId, s, now);
    }
    if Blocked(reason, identity, applicationId, s, now) {
      if reason in {ApplicationNotFound, ApplicationInactive, PopulationNotAllowed, PartnerOrganisationInactive} {
        var u :| SignedIn(identity, s, now, u);
        BlockedAtApplication(reason, identity, applicationId, s, now, u);
      } else {
        BlockedBeforeApplication(reason, identity, applicationId, s, now);
      }
    }
  }

  // ---------------------------------------------------------------------
  // Among entitlements

  /** How far an entitlement gets: 1 in force for the user, 2 through a role
      open to them, 3 within their scope, 4 with the permission. */
  predicate Passes(
    stage: nat, e: Entitlement, s: Snapshot, u: User, a: Application, now: int, permission: Option<string>)
  {
    && IsCurrent(u, a.id, ActiveTeams(u, s, now), now)(e)
    && (stage >= 2 ==> FitsPopulation(RolesById(s.roles, a.id), u.population)(e))
    && (stage >= 3 ==> ScopeAllows(e.scope, u))
    && (stage >= 4 ==> Filled(permission) ==> Permits(RolesById(s.roles, a.id), permission.value)(e))
  }

  ghost predicate SomePasses(stage: nat, s: Snapshot, u: User, a: Application, now: int, permission: Option<string>) {
    exists e :: e in s.entitlements && Passes(stage, e, s, u, a, now, permission)
  }

  /** Some entitlement gets as far as the stage, and none passes it. */
  ghost predicate Lacking(reason: Reason, s: Snapshot, u: User, a: Application, now: int, permission: Option<string>) {
    match reason
    case NoActiveEntitlement => !SomePasses(1, s, u, a, now, permission)
    case RolePopulationMismatch =>
      SomePasses(1, s, u, a, now, permission) && !SomePasses(2, s, u, a, now, permission)
    case ScopeMismatch => SomePasses(2, s, u, a, now, permission) && !SomePasses(3, s, u, a, now, permission)
    case PermissionMissing => SomePasses(3, s, u, a, now, permission) && !SomePasses(4, s, u, a, now, permission)
    case _ => false
  }

  lemma StageIff(
    items: seq<Entitlement>, stage: nat, s: Snapshot, u: User, a: Application, now: int, permission: Option<string>)
    requires forall e :: e in items <==> e in s.entitlements && Passes(stage, e, s, u, a, now, permission)
    ensures items != [] <==> SomePasses(stage, s, u, a, now, permission)
  {
    if items != [] {
      assert items[0] in items;
    }
  }

  lemma CurrentIff(s: Snapshot, u: User, a: Application, now: int, permission: Option<string>)
    ensures
      var current := Filter(s.entitlements, IsCurrent(u, a.id, ActiveTeams(u, s, now), now));
      && (forall e :: e in current <==> e in s.entitlements && Passes(1, e, s, u, a, now, permission))
      && (current != [] <==> SomePasses(1, s, u, a, now, permission))
  {
    var current := Filter(s.entitlements, IsCurrent(u, a.id, ActiveTeams(u, s, now), now));
    FilterKeeps(s.entitlements, IsCurrent(u, a.id, ActiveTeams(u, s, now), now));
    StageIff(current, 1, s, u, a, now, permission);
  }

  /** One more filter is one more stage. */
  lemma NextStage(
    items: seq<Entitlement>, test: Entitlement -> bool, stage: nat, s: Snapshot, u: User, a: Application, now: int,
    permission: Option<string>)
    requires forall e :: e in items <==> e in s.entitlements && Passes(stage, e, s, u, a, now, permission)
    requires forall e ::
      Passes(stage + 1, e, s, u, a, now, permission) <==> Passes(stage, e, s, u, a, now, permission) && test(e)
    ensures forall e ::
      e in Filter(items, test) <==> e in s.entitlements && Passes(stage + 1, e, s, u, a, now, permission)
    ensures Filter(items, test) != [] <==> SomePasses(stage + 1, s, u, a, now, permission)
  {
    hide Passes;
    FilterKeeps(items, test);
    StageIff(Filter(items, test), stage + 1, s, u, a, now, permission);
  }

  lemma StageTests(s: Snapshot, u: User, a: Application, now: int, permission: Option<string>)
    ensures forall e :: Passes(2, e, s, u, a, now, permission) <==>
      Passes(1, e, s, u, a, now, permission) && FitsPopulation(RolesById(s.roles, a.id), u.population)(e)
    ensures forall e :: Passes(3, e, s, u, a, now, permission) <==>
      Passes(2, e, s, u, a, now, permission) && FitsScope(u)(e)
    ensures Filled(permission) ==> forall e :: Passes(4, e, s, u, a, now, permission) <==>
      Passes(3, e, s, u, a, now, permission) && Permits(RolesById(s.roles, a.id), permission.value)(e)
    ensures !Filled(permission) ==> forall e ::
      Passes(4, e, s, u, a, now, permission) <==> Passes(3, e, s, u, a, now, permission)
  {
  }

  lemma LastStagesIff(
    reason: Reason, current: seq<Entitlement>, s: Snapshot, u: User, a: Application, now: int,
    permission: Option<string>)
    requires forall e :: e in current <==> e in s.entitlements && Passes(1, e, s, u, a, now, permission)
    requires current != [] && SomePasses(1, s, u, a, now, permission)
    ensures LastStages(u, a, RolesById(s.roles, a.id), current, permission) == Denied(reason) <==>
      Lacking(reason, s, u, a, now, permission)
  {
    hide Passes, SomePasses, FitsPopulation, FitsScope, Permits, RolesById, Filled;
    var roles := RolesById(s.roles, a.id);
    StageTests(s, u, a, now, permission);
    NextStage(current, FitsPopulation(roles, u.population), 1, s, u, a, now, permission);
    var fitting := Filter(current, FitsPopulation(roles, u.population));
    NextStage(fitting, FitsScope(u), 2, s, u, a, now, permission);
    var scoped := Filter(fitting, FitsScope(u));
    LastStage(scoped, s, u, a, now, permission);
  }

  lemma LastStage(
    scoped: seq<Entitlement>, s: Snapshot, u: User, a: Application, now: int, permission: Option<string>)
    requires forall e :: e in scoped <==> e in s.entitlements && Passes(3, e, s, u, a, now, permission)
    ensures
      var roles := RolesById(s.roles, a.id);
      var permitted := if Filled(permission) then Filter(scoped, Permits(roles, permission.value)) else scoped;
      permitted != [] <==> SomePasses(4, s, u, a, now, permission)
  {
    hide RolesById, FitsPopulation, ScopeAllows;
    StageTests(s, u, a, now, permission);
    if Filled(permission) {
      NextStage(scoped, Permits(RolesById(s.roles, a.id), permission.value), 3, s, u, a, now, permission);
    } else {
      StageIff(scoped, 4, s, u, a, now, permission);
    }
  }

  /** On a validated snapshot the entitlement stages deny with a reason if
      and only if some entitlement gets as far as that stage and none passes
      it. */
  lemma StageReasonIff(reason: Reason, s: Snapshot, u: User, a: Application, now: int, permission: Option<string>)
    requires ValidSnapshot(s)
    ensures
      Decide(u, a, ActiveTeams(u, s, now), RolesById(s.roles, a.id), s.entitlements, now, permission) == Denied(reason)
      <==> Lacking(reason, s, u, a, now, permission)
  {
    var current := Filter(s.entitlements, IsCurrent(u, a.id, ActiveTeams(u, s, now), now));
    RolesResolve(s, u, a, now);
    CurrentIff(s, u, a, now, permission);
    if current != [] {
      LastStagesIff(reason, current, s, u, a, now, permission);
    } else {
      NoneCurrent(reason, s, u, a, now, permission);
    }
  }

  lemma NoneCurrent(reason: Reason, s: Snapshot, u: User, a: Application, now: int, permission: Option<string>)
    requires !SomePasses(1, s, u, a, now, permission)
    ensures Lacking(reason, s, u, a, now, permission) <==> reason == NoActiveEntitlement
  {
    forall e, stage: nat | e in s.entitlements && stage > 0 ensures !Passes(stage, e, s, u, a, now, permission) {
      assert !Passes(1, e, s, u, a, now, permission);
    }
  }

  ghost predicate Refused(
    reason: Reason, identity: Option<Identity>, applicationId: string, s: Snapshot, now: Stamp,
    permission: Option<string>)
  {
    || Blocked(reason, identity, applicationId, s, now)
    || (exists u, a ::
          Admitted(identity, applicationId, s, now, u, a) && Lacking(reason, s, u, a, now.ms, permission))
  }

  /** On a validated snapshot access is denied with a reason if and only if
      that reason holds and everything asked before it is in order. */
  lemma DeniedIff(
    reason: Reason, identity: Option<Identity>, applicationId: string, s: Snapshot, now: Stamp,
    permission: Option<string>)
    requires ValidSnapshot(s)
    ensures Evaluate(identity, applicationId, s, now, permission) == Denied(reason) <==>
      Refused(reason, identity, applicationId, s, now, permission)
  {
    hide Decide, Blocked, Lacking, ActiveTeams, RolesById;
    var gate := Gate(identity, applicationId, s, now);
    GateReasonIff(reason, identity, applicationId, s, now);
    GateOutcome(identity, applicationId, s, now);
    if gate.Ok? {
      StageReasonIff(reason, s, gate.value.0, gate.value.1, now.ms, permission);
    }
    if u, a :| Admitted(identity, applicationId, s, now, u, a) && Lacking(reason, s, u, a, now.ms, permission) {
      GateAdmits(identity, applicationId, s, now, u, a);
    }
  }
}
