/** Every valid snapshot whose text is well written is accepted from its own
    rows, and comes back unchanged. */
module PolicyCompleteness {
  import opened Common
  import opened Lists
  import opened AccessModel
  import opened PolicyFields
  import opened PolicyRows
  import opened PolicyWriting

  function WriteReference(id: string): Row { map["id" := Text(id)] }

  function HoldingsOf(u: User): seq<Holding> {
    seq(|u.platformRoles|, i requires 0 <= i < |u.platformRoles| => Holding(u.id, u.platformRoles[i]))
  }

  function AllHoldings(users: seq<User>): seq<Holding> {
    if users == [] then [] else AllHoldings(users[..|users| - 1]) + HoldingsOf(users[|users| - 1])
  }

  /** The rows of a snapshot, with `references` as the known user ids. */
  function TablesOf(s: Snapshot, references: seq<string>): Tables {
    Tables(
      Map(references, WriteReference), Map(s.users, WriteUser), Map(AllHoldings(s.users), WriteHolding),
      Map(s.organisations, WriteOrganisation), Map(s.teams, WriteTeam), Map(s.memberships, WriteMembership),
      Some(s.applications), Map(s.roles, WriteRole), Map(s.entitlements, WriteEntitlement))
  }

  /** User ids may repeat, one for each identity; platform roles are by id. */
  ghost predicate SameRolesById(users: seq<User>) {
    forall u, v :: u in users && v in users && u.id == v.id ==> u.platformRoles == v.platformRoles
  }

  ghost predicate WellWritten(x: Syntax, s: Snapshot, references: seq<string>) {
    && PlainWords(x)
    && Unrepeated(references) && (forall id :: id in references ==> Id(x, id))
    && SameRolesById(s.users)
    && (forall u :: u in s.users ==> UserWritten(x, u) && u.id in references && '\0' !in u.issuer)
    && (forall o :: o in s.organisations ==> Id(x, o.id) && Plain(x, o.name))
    && (forall t :: t in s.teams ==> TeamWritten(x, t))
    && (forall m :: m in s.memberships ==> Id(x, m.team) && m.user in references && WindowWritten(m.window))
    && (forall a :: a in s.applications ==> x.isUuid(a.id))
    && (forall r :: r in s.roles ==> RoleWritten(x, r))
    && (forall e :: e in s.entitlements ==>
          EntitlementWritten(x, e) && e.grantedBy in references && (e.subject.ToUser? ==> e.subject.user in references))
  }

  /** A table written entry by entry reads back. */
  lemma TableReadsBack<T>(items: seq<T>, write: T -> Row, read: Row -> Option<T>)
    requires forall e :: e in items ==> read(write(e)) == Some(e)
    ensures ReadAll(Map(items, write), read) == Some(items)
  {
    MapMembers(items, write);
    forall i | 0 <= i < |items| ensures read(Map(items, write)[i]) == Some(items[i]) {
      assert items[i] in items;
    }
    AllRead(Map(items, write), read, items);
  }

  // ---------------------------------------------------------------------
  // Platform roles

  lemma HoldingsAreTheirs(u: User, id: string)
    ensures HeldBy(HoldingsOf(u), id) == if u.id == id then u.platformRoles else []
  {
    if u.id == id {
      AllKept(HoldingsOf(u), IsFor(id));
      MapMembers(HoldingsOf(u), RoleHeld);
    } else {
      NoneHeld(HoldingsOf(u), id);
    }
  }

  lemma {:induction false} AllKept<T>(s: seq<T>, keep: T -> bool)
    requires forall x :: x in s ==> keep(x)
    ensures Filter(s, keep) == s
  {
    if s == [] {
    } else {
      AllKept(s[1..], keep);
      assert s[0] in s;
    }
  }

  lemma HeldConcat(a: seq<Holding>, b: seq<Holding>, id: string)
    ensures HeldBy(a + b, id) == HeldBy(a, id) + HeldBy(b, id)
  {
    FilterConcat(a, b, IsFor(id));
    MapConcat(Filter(a, IsFor(id)), Filter(b, IsFor(id)), RoleHeld);
  }

  lemma {:induction false} DistinctAbsorbs<T>(s: seq<T>, t: seq<T>)
    requires forall x :: x in t ==> x in s
    ensures Distinct(s + t) == Distinct(s)
  {
    if t == [] {
      assert s + t == s;
    } else {
      var init, last := t[..|t| - 1], t[|t| - 1];
      DistinctAbsorbs(s, init);
      assert (s + t)[..|s + t| - 1] == s + init;
      assert last in t && last in s && last in s + init;
    }
  }

  /** Every user's roles, gathered from the rows of all users of one id, are
      that user's own, once each. */
  lemma {:induction false} HoldingsReadBack(users: seq<User>, id: string, roles: seq<PlatformRole>)
    requires forall u :: u in users && u.id == id ==> u.platformRoles == roles
    requires Unrepeated(roles)
    ensures
      var held := HeldBy(AllHoldings(users), id);
      && Distinct(held) == (if exists u :: u in users && u.id == id then roles else [])
      && (forall role :: role in held ==> role in roles)
      && ((exists u :: u in users && u.id == id) ==> forall role :: role in roles ==> role in held)
  {
    hide HeldBy, HoldingsOf;
    if users == [] {
      NoneHeld([], id);
    } else {
      var init, last := users[..|users| - 1], users[|users| - 1];
      assert users == init + [last];
      HoldingsReadBack(init, id, roles);
      HeldConcat(AllHoldings(init), HoldingsOf(last), id);
      HoldingsAreTheirs(last, id);
      LastRead(HeldBy(AllHoldings(init), id), init, last, id, roles);
    }
  }

  lemma LastRead(held: seq<PlatformRole>, init: seq<User>, last: User, id: string, roles: seq<PlatformRole>)
    requires last.id == id ==> last.platformRoles == roles
    requires Unrepeated(roles)
    requires Distinct(held) == (if exists u :: u in init && u.id == id then roles else [])
    requires (exists u :: u in init && u.id == id) ==> forall role :: role in roles ==> role in held
    ensures
      Distinct(held + if last.id == id then last.platformRoles else []) ==
        if last.id == id || exists u :: u in init && u.id == id then roles else []
  {
    DistinctAlready(roles);
    if last.id != id {
      assert held + [] == held;
    } else if exists u :: u in init && u.id == id {
      DistinctAbsorbs(held, roles);
    } else {
      DistinctElements(held);
      assert forall k :: 0 <= k < |held| ==> held[k] in Distinct(held);
      assert held + roles == roles;
    }
  }

  lemma {:induction false} HoldingUsers(users: seq<User>)
    ensures forall h :: h in AllHoldings(users) ==> exists u :: u in users && u.id == h.user
  {
    if users == [] {
    } else {
      HoldingUsers(users[..|users| - 1]);
      assert users == users[..|users| - 1] + [users[|users| - 1]];
    }
  }

  lemma HeldMapBack(users: seq<User>, u: User)
    requires SameRolesById(users) && u in users && Unrepeated(u.platformRoles)
    ensures Distinct(Assigned(HeldMap(AllHoldings(users)), u.id)) == u.platformRoles
  {
    HoldingsReadBack(users, u.id, u.platformRoles);
    NoneHeld(AllHoldings(users), u.id);
  }

  // ---------------------------------------------------------------------
  // The tables

  lemma ReferencesReadBack(x: Syntax, references: seq<string>)
    requires forall id :: id in references ==> Id(x, id)
    ensures ReadAll(Map(references, WriteReference), IdOf(x)) == Some(references)
  {
    TableReadsBack(references, WriteReference, IdOf(x));
  }

  lemma HoldingTableReadsBack(x: Syntax, s: Snapshot, references: seq<string>)
    requires WellWritten(x, s, references)
    ensures ReadAll(Map(AllHoldings(s.users), WriteHolding), HoldingOf(x, Elements(references))) == Some(AllHoldings(s.users))
  {
    HoldingUsers(s.users);
    forall h | h in AllHoldings(s.users) ensures ReadHolding(x, Elements(references), WriteHolding(h)) == Some(h) {
      HoldingReadsBack(x, Elements(references), h);
    }
    TableReadsBack(AllHoldings(s.users), WriteHolding, HoldingOf(x, Elements(references)));
  }

  lemma UserTableReadsBack(x: Syntax, s: Snapshot, references: seq<string>)
    requires WellWritten(x, s, references)
    ensures
      var held := HeldMap(AllHoldings(s.users));
      ReadAll(Map(s.users, WriteUser), UserOf(x, Elements(references), held)) == Some(s.users)
  {
    hide ReadUser, WriteUser, HeldMap;
    var held := HeldMap(AllHoldings(s.users));
    forall u | u in s.users ensures ReadUser(x, Elements(references), held, WriteUser(u)) == Some(u) {
      HeldMapBack(s.users, u);
      UserReadsBack(x, Elements(references), held, u);
    }
    TableReadsBack(s.users, WriteUser, UserOf(x, Elements(references), held));
  }

  lemma PlaceTablesReadBack(x: Syntax, s: Snapshot, references: seq<string>)
    requires WellWritten(x, s, references)
    ensures ReadAll(Map(s.organisations, WriteOrganisation), OrganisationOf(x)) == Some(s.organisations)
    ensures ReadAll(Map(s.teams, WriteTeam), TeamOf(x)) == Some(s.teams)
    ensures ReadAll(Map(s.memberships, WriteMembership), MembershipOf(x, Elements(references))) == Some(s.memberships)
  {
    hide ReadOrganisation, WriteOrganisation, ReadTeam, WriteTeam, ReadMembership, WriteMembership;
    forall o | o in s.organisations ensures ReadOrganisation(x, WriteOrganisation(o)) == Some(o) {
      OrganisationReadsBack(x, o);
    }
    TableReadsBack(s.organisations, WriteOrganisation, OrganisationOf(x));
    forall t | t in s.teams ensures ReadTeam(x, WriteTeam(t)) == Some(t) {
      TeamReadsBack(x, t);
    }
    TableReadsBack(s.teams, WriteTeam, TeamOf(x));
    forall m | m in s.memberships ensures ReadMembership(x, Elements(references), WriteMembership(m)) == Some(m) {
      MembershipReadsBack(x, Elements(references), m);
    }
    TableReadsBack(s.memberships, WriteMembership, MembershipOf(x, Elements(references)));
  }

  lemma GrantTablesReadBack(x: Syntax, s: Snapshot, references: seq<string>)
    requires WellWritten(x, s, references)
    ensures ReadAll(Map(s.roles, WriteRole), AppRoleOf(x)) == Some(s.roles)
    ensures ReadAll(Map(s.entitlements, WriteEntitlement), EntitlementOf(x, Elements(references))) == Some(s.entitlements)
  {
    hide ReadRole, WriteRole, ReadEntitlement, WriteEntitlement;
    forall r | r in s.roles ensures ReadRole(x, WriteRole(r)) == Some(r) {
      RoleReadsBack(x, r);
    }
    TableReadsBack(s.roles, WriteRole, AppRoleOf(x));
    forall e | e in s.entitlements ensures ReadEntitlement(x, Elements(references), WriteEntitlement(e)) == Some(e) {
      EntitlementReadsBack(x, Elements(references), e);
    }
    TableReadsBack(s.entitlements, WriteEntitlement, EntitlementOf(x, Elements(references)));
  }

  lemma SnapshotReads(x: Syntax, s: Snapshot, references: seq<string>)
    requires WellWritten(x, s, references)
    ensures Reads(x, TablesOf(s, references), s)
  {
    ReferencesReadBack(x, references);
    NoRepeats(references);
    HoldingTableReadsBack(x, s, references);
    UserTableReadsBack(x, s, references);
    PlaceTablesReadBack(x, s, references);
    GrantTablesReadBack(x, s, references);
  }

  // ---------------------------------------------------------------------
  // The integrity rules

  /** The joint key separates issuer and subject, as no issuer holds the
      separator. */
  lemma KeysSeparate(u: User, v: User)
    requires '\0' !in u.issuer && '\0' !in v.issuer && IdentityKey(u) == IdentityKey(v)
    ensures u.issuer == v.issuer && u.subject == v.subject
  {
    var key := IdentityKey(u);
    assert key[|u.issuer|] == '\0' && key[|v.issuer|] == '\0';
    assert u.issuer == key[..|u.issuer|] && v.issuer == key[..|v.issuer|];
    assert u.subject == key[|u.issuer| + 1..] && v.subject == key[|v.issuer| + 1..];
  }

  lemma IdentitiesGiveKeys(users: seq<User>)
    requires UniqueIdentities(users) && forall u :: u in users ==> '\0' !in u.issuer
    ensures UniqueKeys(users)
  {
    forall i, j | 0 <= i < j < |users| ensures IdentityKey(users[i]) != IdentityKey(users[j]) {
      if IdentityKey(users[i]) == IdentityKey(users[j]) {
        KeysSeparate(users[i], users[j]);
      }
    }
  }

  lemma ResolvedRefers(x: Syntax, s: Snapshot, references: seq<string>)
    requires WellWritten(x, s, references) && Resolved(s)
    ensures Refers(x, s)
  {
    forall u | u in s.users && u.organisation.Some? ensures KnownOrganisation(s, u.organisation.value) {
      assert UserBound(s, u);
    }
    forall e | e in s.entitlements ensures EntitlementRefers(x, s, e) {
      assert EntitlementResolved(s, e) && EntitlementWritten(x, e);
    }
  }

  /** The validator turns no good policy away: a valid, well-written snapshot
      is what its own rows are accepted as, and the only thing. */
  lemma ValidIsAccepted(x: Syntax, s: Snapshot, references: seq<string>)
    requires ValidSnapshot(s) && WellWritten(x, s, references)
    ensures Accepts(x, TablesOf(s, references), s)
    ensures forall t :: Accepts(x, TablesOf(s, references), t) ==> t == s
  {
    SnapshotReads(x, s, references);
    IdentitiesGiveKeys(s.users);
    ResolvedRefers(x, s, references);
    forall t | Reads(x, TablesOf(s, references), t) ensures t == s {
      ReadsOnce(x, TablesOf(s, references), t, s);
    }
  }
}
