/** The server actions over the access tables. Each first checks the caller,
    then runs one statement; anybody else's statements may run in between,
    so the check may be stale and the statement makes its own. */
module AccessStore {
  import opened Common
  import opened AccessModel
  import opened AccessTables
  import opened AccessRuns
  import opened AccessInvariant

  datatype Outcome = NotAllowed | NotProvisioned | OwnAccount | PanelManaged | Replied(reply: Reply)

  class Store {
    const apps: seq<App>
    var people: map<UserId, Person>
    var roles: set<(UserId, PlatformRole)>
    var keys: set<string>
    var grants: seq<Grant>
    var audit: seq<Audit>
    ghost var trace: seq<Step>
    ghost const origin: Db

    ghost function State(): Db
      reads this
    {
      Db(apps, people, roles, keys, grants, audit)
    }

    /** The tables are the outcome of a run of statements. */
    ghost predicate Valid()
      reads this
    {
      Run(origin, trace, State())
    }

    ghost constructor (db: Db)
      ensures Valid() && State() == db && origin == db && trace == []
    {
      apps := db.apps;
      people, roles, keys, grants, audit := db.people, db.roles, db.keys, db.grants, db.audit;
      trace, origin := [], db;
    }

    ghost method Record(before: Db, step: Step)
      requires Run(origin, trace, before) && Enabled(before, step) && State() == Apply(before, step)
      modifies this`trace
      ensures Valid() && trace == old(trace) + [step]
    {
      assert Run(State(), [step][1..], State());
      RunConcat(origin, trace, before, [step], State());
      trace := trace + [step];
    }

    /** Any statements of anybody, in any number and order. The body is one
        way to meet the contract; callers know the contract only. */
    method Others() returns (ghost steps: seq<Step>)
      requires Valid()
      modifies this
      ensures Valid() && trace == old(trace) + steps && Run(old(State()), steps, State())
    {
      steps := [];
      assert trace + [] == trace;
    }

    // -------------------------------------------------------------------
    // Parts of statements

    predicate IsAdministrator(u: UserId)
      reads this
    {
      && u in people && people[u].population == Employee && people[u].status == ActiveUser
      && ((u, SuperAdmin) in roles || (u, AccessAdmin) in roles)
    }

    method Claim(actor: UserId, key: string) returns (claimed: bool)
      modifies this`keys
      ensures claimed == Claims(old(State()), actor, key)
      ensures State() == Keyed(old(State()), actor, key)
    {
      claimed := IsAdministrator(actor) && key !in keys;
      if claimed { keys := keys + {key}; }
    }

    method RevokeDirect(u: UserId, a: AppId)
      modifies this`grants
      ensures grants == Revoked(old(grants), u, a)
    {
      var i := 0;
      while i < |grants|
        invariant i <= |grants| == |old(grants)|
        invariant forall k :: 0 <= k < i ==> grants[k] == Revoked(old(grants), u, a)[k]
        invariant forall k :: i <= k < |grants| ==> grants[k] == old(grants)[k]
      {
        if Holds(grants[i], u, a) {
          grants := grants[i := grants[i].(revoked := true)];
        }
        i := i + 1;
      }
    }

    /** The trigger on platform roles. */
    method SyncPanel(u: UserId)
      modifies this`grants, this`audit
      ensures State() == Synced(old(State()), u)
    {
      if HasSystems(roles, u) {
        if !HoldsPanel(grants, u) {
          audit := audit + [Audit(PanelSynced, None, |grants|)];
          grants := grants + [Grant(SUPERPANEL, PANEL_ADMIN, Some(u), None, None, false)];
        }
      } else if HoldsAny(grants, u, SUPERPANEL) {
        RevokeDirect(u, SUPERPANEL);
        audit := audit + [Audit(PanelRevoked, None, u)];
      }
    }

    // -------------------------------------------------------------------
    // Statements

    method UpdateStatus(actor: UserId, key: string, target: UserId, suspend: bool) returns (reply: Reply)
      modifies this`people, this`keys, this`audit
      ensures State() == ApplyStatus(old(State()), SetStatus(actor, key, target, suspend))
      ensures reply == ReplyTo(old(State()), SetStatus(actor, key, target, suspend))
      ensures reply in {Changed, Unchanged} ==>
        target in people && people[target].status == (if suspend then SuspendedUser else ActiveUser)
    {
      var authorized := IsAdministrator(actor);
      var claimed := Claim(actor, key);
      var known, super := target in people, (target, SuperAdmin) in roles;
      var changed := claimed && known && !(suspend && super) && people[target].status != StatusFor(suspend);
      if changed {
        people := people[target := people[target].(status := StatusFor(suspend))];
        audit := audit + [Audit(StatusChanged, Some(key), target)];
      }
      reply := if !authorized then NotAdministrator
               else if suspend && known && super then SuperAdminProtected
               else Resolve(claimed, changed, !known);
    }

    method UpdateRole(actor: UserId, key: string, target: UserId, role: PlatformRole, enabled: bool)
      returns (reply: Reply)
      modifies this`roles, this`keys, this`grants, this`audit
      ensures State() == ApplyRole(old(State()), SetRole(actor, key, target, role, enabled))
      ensures reply == ReplyTo(old(State()), SetRole(actor, key, target, role, enabled))
    {
      var authorized := IsAdministrator(actor);
      var claimed := Claim(actor, key);
      var employee := target in people && people[target].population == Employee;
      var changed := claimed && employee && enabled == ((target, role) !in roles);
      if changed {
        roles := if enabled then roles + {(target, role)} else roles - {(target, role)};
        audit := audit + [Audit(if enabled then RoleGranted else RoleRevoked, Some(key), target)];
        SyncPanel(target);
      }
      reply := if !authorized then NotAdministrator
               else if target in people && !employee then EmployeesOnly
               else Resolve(claimed, changed, target !in people);
    }

    method UpdateAccess(actor: UserId, key: string, target: UserId, slug: string, level: Option<Level>)
      returns (reply: Reply)
      modifies this`keys, this`grants, this`audit
      ensures State() == ApplyAccess(old(State()), SetAccess(actor, key, target, slug, level))
      ensures reply == ReplyTo(old(State()), SetAccess(actor, key, target, slug, level))
    {
      var authorized := IsAdministrator(actor);
      var claimed := Claim(actor, key);
      var employee := target in people && people[target].population == Employee;
      var found := FindApp(apps, slug);
      var evergreen := found.Some? && apps[found.value].everyone;
      var role := if found.Some? && level.Some? then FindRole(apps[found.value].roles, level.value) else None;
      var changed := claimed && employee && found.Some? && !evergreen
        && (if level.Some? then role.Some? else HoldsAny(grants, target, found.value));
      if changed {
        RevokeDirect(target, found.value);
        if level.Some? {
          grants := grants + [Grant(found.value, role.value, Some(target), None, None, false)];
        }
        audit := audit + [Audit(AccessChanged, Some(key), target)];
      }
      reply := if !authorized then NotAdministrator
               else if evergreen then OpenToEveryone
               else Resolve(claimed, changed, !employee || found.None? || (level.Some? && role.None?));
    }

    method FreshUser() returns (u: UserId)
      ensures u !in people
    {
      u := 0;
      var rest := people.Keys;
      while rest != {}
        invariant forall x :: x in people.Keys - rest ==> x < u
      {
        var x :| x in rest;
        assert forall y :: y in people.Keys - (rest - {x}) ==> y == x || y in people.Keys - rest;
        u := if u <= x then x + 1 else u;
        rest := rest - {x};
      }
      assert forall x :: x in people ==> x in people.Keys - rest;
    }

    /** The row the upsert by e-mail will insert or update. */
    method ResolveInvited(email: string) returns (u: UserId)
      ensures Upserts(State(), email, u)
    {
      if v :| v in people && people[v].email == Lower(email) { u := v; } else { u := FreshUser(); }
    }

    method InviteUser(actor: UserId, key: string, email: string, name: string, now: int)
      returns (reply: Reply, own: Step)
      modifies this`people, this`keys, this`grants, this`audit
      ensures own.Invite? && own == Invite(actor, key, email, name, own.user, now) && Enabled(old(State()), own)
      ensures State() == ApplyInvite(old(State()), own)
      ensures reply == ReplyTo(old(State()), own)
    {
      var user := ResolveInvited(email);
      own := Invite(actor, key, email, name, user, now);
      ghost var before := State();
      var authorized := IsAdministrator(actor);
      var bound := exists u :: u in people && people[u].email == Lower(email) && people[u].bound;
      var db := Db(apps, people, roles, keys, grants, audit);
      var upserts := authorized && key !in keys && !bound;
      if upserts && Evergreen(db, user, now, SUPERPANEL) { return StatementFailed, own; }
      var claimed := Claim(actor, key);
      if upserts {
        var granted := EvergreenGrants(db, user, now, |apps|);
        people := people[user := if user in people then people[user].(displayName := name)
                                 else Person(Employee, ActiveUser, Lower(email), name, false)];
        audit := audit + GrantEvents(EvergreenGranted, Some(key), |grants|, |granted|) + [Audit(UserInvited, Some(key), user)];
        grants := grants + granted;
      }
      reply := if !authorized then NotAdministrator
               else if bound then AlreadyBound
               else if claimed then Changed else Duplicate;
    }

    /** The insert of bootstrapFirstAdmin, trigger included. */
    method InsertFirstAdmin(user: UserId, email: string, name: string)
      requires Enabled(State(), Bootstrap(user, email, name))
      modifies this`people, this`roles, this`grants, this`audit
      ensures State() == Apply(old(State()), Bootstrap(user, email, name)) && Administers(State(), user)
    {
      ghost var before := State();
      var granted := BootstrapGrants(apps, user);
      people := people[user := Person(Employee, ActiveUser, Lower(email), name, true)];
      roles := roles + {(user, SuperAdmin)};
      audit := audit + [Audit(AdminBootstrapped, None, user)] + GrantEvents(BootstrapGranted, None, |grants|, |granted|);
      grants := grants + granted;
      assert State() == WithFirstAdmin(before, Bootstrap(user, email, name));
      SyncPanel(user);
    }

    // -------------------------------------------------------------------
    // Actions

    /** `provisioned` is the identity provider's answer. */
    method InviteAccessUser(actor: UserId, key: string, email: string, name: string, now: int, provisioned: bool)
      returns (r: Outcome, ghost before: Db)
      requires Valid()
      modifies this
      ensures Valid() && old(trace) <= trace
      ensures r == NotAllowed <==> !Administers(old(State()), actor)
      ensures r == NotProvisioned <==> Administers(old(State()), actor) && !provisioned
      ensures r.Replied? <==> Administers(old(State()), actor) && provisioned
      ensures r.Replied? ==>
        && trace != [] && trace[|trace| - 1].Invite? && trace[|trace| - 1].key == key
        && trace[|trace| - 1].actor == actor && trace[|trace| - 1].email == email
        && Run(origin, trace[..|trace| - 1], before) && Enabled(before, trace[|trace| - 1])
        && State() == ApplyInvite(before, trace[|trace| - 1]) && r.reply == ReplyTo(before, trace[|trace| - 1])
      ensures !r.Replied? ==> State() == old(State())
    {
      before := State();
      if !IsAdministrator(actor) { return NotAllowed, before; }
      if !provisioned { return NotProvisioned, before; }
      ghost var steps := Others();
      before := State();
      var reply, own := InviteUser(actor, key, email, name, now);
      ghost var earlier := trace;
      Record(before, own);
      assert trace[..|trace| - 1] == earlier;
      r := Replied(reply);
    }

    /** The empty-table check and the insert are two statements; an address
        taken in between, and nothing else, makes the insert fail. */
    method BootstrapFirstAdmin(email: string, name: string) returns (done: bool, ghost before: Db)
      requires Valid()
      modifies this
      ensures Valid() && old(trace) <= trace
      ensures done ==>
        && trace != [] && trace[|trace| - 1].Bootstrap? && trace[|trace| - 1].email == email && trace[|trace| - 1].name == name
        && Run(origin, trace[..|trace| - 1], before) && Enabled(before, trace[|trace| - 1])
        && State() == Apply(before, trace[|trace| - 1]) && HasAdmin(State())
      ensures old(people) != map[] ==> !done && State() == old(State())
      ensures !done && old(people) == map[] ==> EmailKnown(State(), email)
    {
      before := State();
      if people.Keys != {} { return false, before; }
      ghost var steps := Others();
      before := State();
      if u :| u in people && people[u].email == Lower(email) { return false, before; }
      var user := FreshUser();
      InsertFirstAdmin(user, email, name);
      ghost var earlier := trace;
      Record(before, Bootstrap(user, email, name));
      assert trace[..|trace| - 1] == earlier;
      done := true;
    }

    /** What an action that ran its statement `own` on the tables `before` says. */
    ghost predicate Ran(reply: Reply, own: Step, before: Db)
      reads this
    {
      && Administrative(own)
      && trace != [] && Run(origin, trace[..|trace| - 1], before)
      && trace[|trace| - 1] == own && Enabled(before, own)
      && State() == Apply(before, own) && reply == ReplyTo(before, own)
    }

    ghost predicate Administrative(own: Step) {
      own.SetStatus? || own.SetRole? || own.SetAccess?
    }

    method ChangeUserStatus(actor: UserId, key: string, target: UserId, suspend: bool)
      returns (r: Outcome, ghost before: Db)
      requires Valid()
      modifies this
      ensures Valid() && old(trace) <= trace
      ensures r == NotAllowed <==> !Administers(old(State()), actor)
      ensures r == OwnAccount <==> Administers(old(State()), actor) && actor == target && suspend
      ensures r.Replied? <==> Administers(old(State()), actor) && !(actor == target && suspend)
      ensures r.Replied? ==> Ran(r.reply, SetStatus(actor, key, target, suspend), before)
      ensures !r.Replied? ==> State() == old(State())
    {
      before := State();
      if !IsAdministrator(actor) { return NotAllowed, before; }
      if actor == target && suspend { return OwnAccount, before; }
      ghost var steps := Others();
      before := State();
      var reply := UpdateStatus(actor, key, target, suspend);
      ghost var earlier := trace;
      Record(before, SetStatus(actor, key, target, suspend));
      assert trace[..|trace| - 1] == earlier;
      r := Replied(reply);
    }

    method ChangePlatformRole(actor: UserId, key: string, target: UserId, role: PlatformRole, enabled: bool)
      returns (r: Outcome, ghost before: Db)
      requires Valid() && role in {AccessAdmin, SystemsAdmin}
      modifies this
      ensures Valid() && old(trace) <= trace
      ensures r == NotAllowed <==> !Administers(old(State()), actor)
      ensures r == OwnAccount <==>
        Administers(old(State()), actor) && actor == target && !enabled && role == AccessAdmin
      ensures r.Replied? <==>
        Administers(old(State()), actor) && !(actor == target && !enabled && role == AccessAdmin)
      ensures r.Replied? ==> Ran(r.reply, SetRole(actor, key, target, role, enabled), before)
      ensures !r.Replied? ==> State() == old(State())
    {
      before := State();
      if !IsAdministrator(actor) { return NotAllowed, before; }
      if role == AccessAdmin && actor == target && !enabled { return OwnAccount, before; }
      ghost var steps := Others();
      before := State();
      var reply := UpdateRole(actor, key, target, role, enabled);
      ghost var earlier := trace;
      Record(before, SetRole(actor, key, target, role, enabled));
      assert trace[..|trace| - 1] == earlier;
      r := Replied(reply);
    }

    method ChangeApplicationAccess(actor: UserId, key: string, target: UserId, slug: string, level: Option<Level>)
      returns (r: Outcome, ghost before: Db)
      requires Valid()
      modifies this
      ensures Valid() && old(trace) <= trace
      ensures r == PanelManaged <==> slug == SUPERPANEL_SLUG
      ensures r == NotAllowed <==> slug != SUPERPANEL_SLUG && !Administers(old(State()), actor)
      ensures r.Replied? <==> slug != SUPERPANEL_SLUG && Administers(old(State()), actor)
      ensures r.Replied? ==> Ran(r.reply, SetAccess(actor, key, target, slug, level), before)
      ensures !r.Replied? ==> State() == old(State())
    {
      before := State();
      if slug == SUPERPANEL_SLUG { return PanelManaged, before; }
      if !IsAdministrator(actor) { return NotAllowed, before; }
      ghost var steps := Others();
      before := State();
      var reply := UpdateAccess(actor, key, target, slug, level);
      ghost var earlier := trace;
      Record(before, SetAccess(actor, key, target, slug, level));
      assert trace[..|trace| - 1] == earlier;
      r := Replied(reply);
    }

    /** So nothing the actions do, in whatever interleaving, loses the last
        administrator or breaks the entitlement invariants. */
    lemma ActionsKeep()
      requires Valid() && InStep(origin)
      ensures HasAdmin(origin) ==> HasAdmin(State())
      ensures InStep(State())
      ensures Inv(origin) && (Bootstraps(trace) ==> OneAdminEach(origin.apps)) ==> Inv(State())
    {
      if HasAdmin(origin) { SomeAdminRemains(origin, trace, State()); }
      RunKeeps(origin, trace, State());
    }
  }
}
