/** Group-session seats: many guests claim, insert and release while a
    manager cancels. Every step is one SQL statement; any number of guests
    interleave at that grain.

    `holding` records the guests between their claim and its outcome. It is
    not in the database: it is what the running handlers know. */
module Seats {
  import opened Common

  type SessionId = nat
  type BookingId = nat
  type Guest = nat

  datatype Status = Open | Full | Cancelled | Held

  datatype Session = Session(capacity: nat, seatsTaken: int, status: Status)

  datatype Booking = Booking(session: Option<SessionId>, key: string, confirmed: bool)

  datatype Db = Db(sessions: map<SessionId, Session>, bookings: map<BookingId, Booking>, holding: map<Guest, SessionId>)

  // ---------------------------------------------------------------------
  // Statements

  datatype Step =
    | Create(session: SessionId, capacity: nat)
    | Abort(session: SessionId)
    | Take(guest: Guest, session: SessionId)
    | Insert(guest: Guest, booking: BookingId, key: string)
    | Release(guest: Guest)
    | Cancel(session: SessionId)
    | Sweep(session: SessionId)
    | CancelBooking(booking: BookingId)
    | BookAlone(booking: BookingId, key: string)

  predicate CanTake(db: Db, s: SessionId) {
    s in db.sessions && db.sessions[s].seatsTaken < db.sessions[s].capacity && db.sessions[s].status == Open
  }

  predicate KeyUsed(db: Db, key: string) {
    exists b :: b in db.bookings && db.bookings[b].key == key
  }

  /** The statement finds rows to change, and the table constraints allow it. */
  predicate Enabled(db: Db, step: Step) {
    match step
    case Create(s, capacity) => s !in db.sessions && capacity >= 1
    case Abort(s) => s in db.sessions
    case Take(g, s) => g !in db.holding && CanTake(db, s)
    case Insert(g, b, key) => g in db.holding && b !in db.bookings && !KeyUsed(db, key)
    case Release(g) => g in db.holding && db.holding[g] in db.sessions
    case Cancel(s) => s in db.sessions && db.sessions[s].status in {Open, Full}
    case Sweep(s) => true
    case CancelBooking(b) => b in db.bookings
    case BookAlone(b, key) => b !in db.bookings && !KeyUsed(db, key)
  }

  function Taken(s: Session): Session {
    s.(seatsTaken := s.seatsTaken + 1, status := if s.seatsTaken + 1 >= s.capacity then Full else Open)
  }

  function Released(s: Session): Session {
    s.(seatsTaken := if s.seatsTaken - 1 > 0 then s.seatsTaken - 1 else 0,
       status := if s.status == Full then Open else s.status)
  }

  function SweptBookings(bookings: map<BookingId, Booking>, s: SessionId): map<BookingId, Booking> {
    map b | b in bookings ::
      if bookings[b].session == Some(s) then bookings[b].(confirmed := false) else bookings[b]
  }

  function Apply(db: Db, step: Step): Db
    requires Enabled(db, step)
  {
    match step
    case Create(s, capacity) => db.(sessions := db.sessions[s := Session(capacity, 0, Open)])
    case Abort(s) => db.(sessions := db.sessions[s := db.sessions[s].(status := Cancelled)])
    case Take(g, s) => db.(sessions := db.sessions[s := Taken(db.sessions[s])], holding := db.holding[g := s])
    case Insert(g, b, key) =>
      db.(bookings := db.bookings[b := Booking(Some(db.holding[g]), key, true)], holding := db.holding - {g})
    case Release(g) =>
      var s := db.holding[g];
      db.(sessions := db.sessions[s := Released(db.sessions[s])], holding := db.holding - {g})
    case Cancel(s) => db.(sessions := db.sessions[s := db.sessions[s].(status := Cancelled)])
    case Sweep(s) => db.(bookings := SweptBookings(db.bookings, s))
    case CancelBooking(b) => db.(bookings := db.bookings[b := db.bookings[b].(confirmed := false)])
    case BookAlone(b, key) => db.(bookings := db.bookings[b := Booking(None, key, true)])
  }

  // ---------------------------------------------------------------------
  // What a statement changes, column by column, and what it leaves alone

  /** Session `s` has these columns after, and no other session moved. */
  ghost predicate OnlySession(db: Db, after: Db, s: SessionId, capacity: nat, seatsTaken: int, status: Status) {
    && after.sessions.Keys == db.sessions.Keys + {s}
    && after.sessions[s].capacity == capacity && after.sessions[s].seatsTaken == seatsTaken
    && after.sessions[s].status == status
    && forall x :: x in db.sessions && x != s ==> after.sessions[x] == db.sessions[x]
  }

  /** Booking `b` has these columns after, and no other booking moved. */
  ghost predicate OnlyBooking(db: Db, after: Db, b: BookingId, session: Option<SessionId>, key: string, confirmed: bool) {
    && after.bookings.Keys == db.bookings.Keys + {b}
    && after.bookings[b].session == session && after.bookings[b].key == key && after.bookings[b].confirmed == confirmed
    && forall x :: x in db.bookings && x != b ==> after.bookings[x] == db.bookings[x]
  }

  /** `g` holds a claim on `s` after, or none, and nobody else's claim moved. */
  ghost predicate OnlyHolder(db: Db, after: Db, g: Guest, s: Option<SessionId>) {
    && (g in after.holding <==> s.Some?) && (s.Some? ==> after.holding[g] == s.value)
    && forall x :: x != g ==> (x in after.holding <==> x in db.holding) && (x in db.holding ==> after.holding[x] == db.holding[x])
  }

  ghost predicate SameSessions(db: Db, after: Db) { after.sessions == db.sessions }
  ghost predicate SameBookings(db: Db, after: Db) { after.bookings == db.bookings }
  ghost predicate SameHolders(db: Db, after: Db) { after.holding == db.holding }

  /** Exactly the bookings of `s` are no longer confirmed. */
  ghost predicate SeatsSwept(db: Db, after: Db, s: SessionId) {
    && after.bookings.Keys == db.bookings.Keys
    && forall b :: b in db.bookings ==>
         && after.bookings[b].session == db.bookings[b].session && after.bookings[b].key == db.bookings[b].key
         && (after.bookings[b].confirmed <==> db.bookings[b].confirmed && db.bookings[b].session != Some(s))
  }

  ghost predicate Moves(db: Db, step: Step, after: Db)
    requires Enabled(db, step)
  {
    match step
    case Create(s, capacity) =>
      OnlySession(db, after, s, capacity, 0, Open) && SameBookings(db, after) && SameHolders(db, after)
    case Abort(s) =>
      && OnlySession(db, after, s, db.sessions[s].capacity, db.sessions[s].seatsTaken, Cancelled)
      && SameBookings(db, after) && SameHolders(db, after)
    case Take(g, s) =>
      var taken := db.sessions[s].seatsTaken + 1;
      && OnlySession(db, after, s, db.sessions[s].capacity, taken, if taken < db.sessions[s].capacity then Open else Full)
      && SameBookings(db, after) && OnlyHolder(db, after, g, Some(s))
    case Insert(g, b, key) =>
      && SameSessions(db, after) && OnlyBooking(db, after, b, Some(db.holding[g]), key, true)
      && OnlyHolder(db, after, g, None)
    case Release(g) =>
      var s := db.holding[g];
      var was := db.sessions[s];
      && OnlySession(db, after, s, was.capacity, if was.seatsTaken > 0 then was.seatsTaken - 1 else 0,
                     if was.status == Full then Open else was.status)
      && SameBookings(db, after) && OnlyHolder(db, after, g, None)
    case Cancel(s) =>
      && OnlySession(db, after, s, db.sessions[s].capacity, db.sessions[s].seatsTaken, Cancelled)
      && SameBookings(db, after) && SameHolders(db, after)
    case Sweep(s) => SameSessions(db, after) && SeatsSwept(db, after, s) && SameHolders(db, after)
    case CancelBooking(b) =>
      && SameSessions(db, after) && OnlyBooking(db, after, b, db.bookings[b].session, db.bookings[b].key, false)
      && SameHolders(db, after)
    case BookAlone(b, key) =>
      SameSessions(db, after) && OnlyBooking(db, after, b, None, key, true) && SameHolders(db, after)
  }

  lemma ApplyMoves(db: Db, step: Step)
    requires Enabled(db, step)
    ensures Moves(db, step, Apply(db, step))
  {
  }

  lemma SweptOnce(db: Db, a: Db, b: Db, s: SessionId)
    requires SeatsSwept(db, a, s) && SeatsSwept(db, b, s)
    ensures a.bookings == b.bookings
  {
  }

  lemma HoldersOnce(db: Db, a: Db, b: Db, g: Guest, s: Option<SessionId>)
    requires OnlyHolder(db, a, g, s) && OnlyHolder(db, b, g, s)
    ensures a.holding == b.holding
  {
    forall x ensures x in a.holding <==> x in b.holding { assert x != g ==> (x in a.holding <==> x in db.holding); }
  }

  lemma MovesOnce(db: Db, step: Step, a: Db, b: Db)
    requires Enabled(db, step) && Moves(db, step, a) && Moves(db, step, b)
    ensures a == b
  {
    match step
    case Take(g, s) => HoldersOnce(db, a, b, g, Some(s));
    case Insert(g, _, _) => HoldersOnce(db, a, b, g, None);
    case Release(g) => HoldersOnce(db, a, b, g, None);
    case Sweep(s) => SweptOnce(db, a, b, s);
    case _ =>
  }

  /** A statement moves exactly that, and only its own result does. */
  lemma MovesExactly(db: Db, step: Step, after: Db)
    requires Enabled(db, step)
    ensures Moves(db, step, after) <==> after == Apply(db, step)
  {
    hide Moves, Apply;
    ApplyMoves(db, step);
    if Moves(db, step, after) { MovesOnce(db, step, after, Apply(db, step)); }
  }

  /** So a sweep touches no booking of another session. */
  lemma SweepSparesOthers(db: Db, s: SessionId, b: BookingId)
    requires b in db.bookings
    ensures
      var after := Apply(db, Sweep(s));
      && b in after.bookings
      && (db.bookings[b].session != Some(s) ==> after.bookings[b] == db.bookings[b])
      && (db.bookings[b].session == Some(s) ==> after.bookings[b] == Booking(Some(s), db.bookings[b].key, false))
  {
    MovesExactly(db, Sweep(s), Apply(db, Sweep(s)));
  }

  /** A seat can be taken exactly in an open session that is not full. */
  lemma CanTakeIff(db: Db, s: SessionId)
    ensures CanTake(db, s) <==>
      exists capacity: nat, taken :: taken < capacity && s in db.sessions && db.sessions[s] == Session(capacity, taken, Open)
  {
    if CanTake(db, s) {
      assert db.sessions[s] == Session(db.sessions[s].capacity, db.sessions[s].seatsTaken, Open);
    }
  }

  // ---------------------------------------------------------------------
  // The invariant

  function SeatRows(db: Db, s: SessionId): set<BookingId> {
    set b | b in db.bookings && db.bookings[b].session == Some(s)
  }

  function ConfirmedSeats(db: Db, s: SessionId): set<BookingId> {
    set b | b in SeatRows(db, s) && db.bookings[b].confirmed
  }

  function Holders(db: Db, s: SessionId): set<Guest> {
    set g | g in db.holding && db.holding[g] == s
  }

  ghost predicate SeatsAdd(db: Db, s: SessionId) {
    s in db.sessions && db.sessions[s].seatsTaken == |SeatRows(db, s)| + |Holders(db, s)|
  }

  ghost predicate StatusFits(session: Session) {
    && 0 <= session.seatsTaken <= session.capacity
    && (session.status == Open ==> session.seatsTaken < session.capacity)
    && (session.status == Full ==> session.seatsTaken == session.capacity)
  }

  ghost predicate UniqueKeys(db: Db) {
    forall a, b :: a in db.bookings && b in db.bookings && db.bookings[a].key == db.bookings[b].key ==> a == b
  }

  ghost predicate Resolved(db: Db) {
    && (forall g :: g in db.holding ==> db.holding[g] in db.sessions)
    && (forall b :: b in db.bookings && db.bookings[b].session.Some? ==> db.bookings[b].session.value in db.sessions)
  }

  ghost predicate Conserved(db: Db) {
    forall s :: s in db.sessions ==> SeatsAdd(db, s) && StatusFits(db.sessions[s])
  }

  ghost predicate Inv(db: Db) {
    Conserved(db) && Resolved(db) && UniqueKeys(db)
  }

  lemma RowsAfter(db: Db, step: Step, s: SessionId)
    requires Enabled(db, step)
    ensures SeatRows(Apply(db, step), s) ==
      if step.Insert? && db.holding[step.guest] == s then SeatRows(db, s) + {step.booking} else SeatRows(db, s)
  {
  }

  lemma HoldersAfter(db: Db, step: Step, s: SessionId)
    requires Enabled(db, step)
    ensures Holders(Apply(db, step), s) ==
      match step
      case Take(g, t) => if t == s then Holders(db, s) + {g} else Holders(db, s)
      case Insert(g, _, _) => Holders(db, s) - {g}
      case Release(g) => Holders(db, s) - {g}
      case _ => Holders(db, s)
  {
  }

  /** The greatest(..., 0) of the release never has anything to clamp. */
  lemma ReleaseNeverClamps(db: Db, g: Guest)
    requires Conserved(db) && Resolved(db) && g in db.holding
    ensures var session := db.sessions[db.holding[g]];
      session.seatsTaken >= 1 && Released(session).seatsTaken == session.seatsTaken - 1
  {
    assert g in Holders(db, db.holding[g]);
    assert SeatsAdd(db, db.holding[g]);
  }

  /** Seat rows plus holders move only with a claim or a release. */
  lemma CountsAfter(db: Db, step: Step, s: SessionId)
    requires Enabled(db, step)
    ensures |SeatRows(Apply(db, step), s)| + |Holders(Apply(db, step), s)| ==
      |SeatRows(db, s)| + |Holders(db, s)| +
      (if step.Take? && step.session == s then 1 else if step.Release? && db.holding[step.guest] == s then -1 else 0)
  {
    RowsAfter(db, step, s);
    HoldersAfter(db, step, s);
    if (step.Insert? || step.Release?) && db.holding[step.guest] == s { assert step.guest in Holders(db, s); }
  }

  lemma ConservedAt(db: Db, step: Step, s: SessionId)
    requires Conserved(db) && Resolved(db) && Enabled(db, step) && s in Apply(db, step).sessions
    ensures SeatsAdd(Apply(db, step), s) && StatusFits(Apply(db, step).sessions[s])
  {
    CountsAfter(db, step, s);
    if s !in db.sessions {
      assert SeatRows(db, s) == {} && Holders(db, s) == {};
    } else {
      assert SeatsAdd(db, s) && StatusFits(db.sessions[s]);
      if step.Release? { ReleaseNeverClamps(db, step.guest); }
    }
  }

  lemma ResolvedAfter(db: Db, step: Step)
    requires Resolved(db) && Enabled(db, step)
    ensures Resolved(Apply(db, step))
  {
  }

  lemma UniqueKeysAfter(db: Db, step: Step)
    requires UniqueKeys(db) && Enabled(db, step)
    ensures UniqueKeys(Apply(db, step))
  {
    if step.Insert? { assert forall x :: x in db.bookings ==> db.bookings[x].key != step.key; }
  }

  lemma StepKeeps(db: Db, step: Step)
    requires Inv(db) && Enabled(db, step)
    ensures Inv(Apply(db, step))
  {
    forall s | s in Apply(db, step).sessions ensures SeatsAdd(Apply(db, step), s) && StatusFits(Apply(db, step).sessions[s]) {
      ConservedAt(db, step, s);
    }
    ResolvedAfter(db, step);
    UniqueKeysAfter(db, step);
  }

  // ---------------------------------------------------------------------
  // Runs

  /** `to` is reached from `from` by the statements of `steps`, in order. */
  ghost predicate Run(from: Db, steps: seq<Step>, to: Db)
    decreases |steps|
  {
    if steps == [] then from == to
    else Enabled(from, steps[0]) && Run(Apply(from, steps[0]), steps[1..], to)
  }

  lemma {:induction false} RunKeeps(from: Db, steps: seq<Step>, to: Db)
    requires Inv(from) && Run(from, steps, to)
    ensures Inv(to)
    decreases |steps|
  {
    if steps == [] {
    } else {
      StepKeeps(from, steps[0]);
      RunKeeps(Apply(from, steps[0]), steps[1..], to);
    }
  }

  lemma {:induction false} RunConcat(a: Db, xs: seq<Step>, b: Db, ys: seq<Step>, c: Db)
    requires Run(a, xs, b) && Run(b, ys, c)
    ensures Run(a, xs + ys, c)
    decreases |xs|
  {
    if xs == [] {
      assert xs + ys == ys;
    } else {
      RunConcat(Apply(a, xs[0]), xs[1..], b, ys, c);
      assert (xs + ys)[1..] == xs[1..] + ys;
    }
  }

  ghost predicate IsCancelled(db: Db, s: SessionId) {
    s in db.sessions && db.sessions[s].status == Cancelled
  }

  /** Cancelled is never left. */
  lemma {:induction false} CancelledForever(from: Db, steps: seq<Step>, to: Db, s: SessionId)
    requires Run(from, steps, to) && IsCancelled(from, s)
    ensures IsCancelled(to, s)
    decreases |steps|
  {
    if steps == [] {
    } else {
      CancelledForever(Apply(from, steps[0]), steps[1..], to, s);
    }
  }

  ghost predicate HasConfirmedSeat(db: Db, s: SessionId) {
    ConfirmedSeats(db, s) != {}
  }

  /** Cancelled, nobody in flight, nobody confirmed. */
  ghost predicate Quiet(db: Db, s: SessionId) {
    IsCancelled(db, s) && Holders(db, s) == {} && !HasConfirmedSeat(db, s)
  }

  lemma QuietStep(db: Db, step: Step, s: SessionId)
    requires Enabled(db, step) && Quiet(db, s)
    ensures Quiet(Apply(db, step), s)
  {
    HoldersAfter(db, step, s);
    RowsAfter(db, step, s);
    assert step.Insert? ==> step.guest !in Holders(db, s);
  }

  lemma {:induction false} QuietForever(from: Db, steps: seq<Step>, to: Db, s: SessionId)
    requires Run(from, steps, to) && Quiet(from, s)
    ensures Quiet(to, s)
    decreases |steps|
  {
    if steps == [] {
    } else {
      QuietStep(from, steps[0], s);
      QuietForever(Apply(from, steps[0]), steps[1..], to, s);
    }
  }

  ghost predicate StaysEmpty(db: Db, s: SessionId) {
    forall steps, to | Run(db, steps, to) :: !HasConfirmedSeat(to, s)
  }

  /** Once a cancelled session's seats have been swept, it stays free of
      confirmed seats if and only if no guest was between claim and insert
      at that moment. */
  lemma CancelledStaysEmptyIff(db: Db, s: SessionId)
    requires Inv(db) && IsCancelled(db, s)
    ensures StaysEmpty(Apply(db, Sweep(s)), s) <==> Holders(db, s) == {}
  {
    var swept := Apply(db, Sweep(s));
    assert Holders(swept, s) == Holders(db, s);
    if Holders(db, s) == {} {
      forall b | b in SeatRows(swept, s) ensures !swept.bookings[b].confirmed { }
      assert Quiet(swept, s);
      forall steps, to | Run(swept, steps, to) ensures !HasConfirmedSeat(to, s) {
        QuietForever(swept, steps, to, s);
      }
    } else {
      var g :| g in Holders(db, s);
      LateSeatStaysConfirmed(swept, s, g);
    }
  }

  /** A guest who claimed before the cancellation still gets a confirmed seat. */
  lemma LateSeatStaysConfirmed(db: Db, s: SessionId, g: Guest)
    requires g in Holders(db, s)
    ensures exists steps, to :: Run(db, steps, to) && HasConfirmedSeat(to, s)
  {
    var b := FreshId(db);
    var key := FreshKey(db);
    var step := Insert(g, b, key);
    var to := Apply(db, step);
    assert Run(to, [step][1..], to);
    assert Run(db, [step], to);
    assert b in ConfirmedSeats(to, s);
  }

  /** For example: one seat, claimed, the session cancelled and swept, and
      the guest's booking inserted at last. */
  lemma LateSeat() returns (steps: seq<Step>, to: Db)
    ensures
      var db := Db(map[1 := Session(1, 0, Open)], map[], map[]);
      && steps == [Take(5, 1), Cancel(1), Sweep(1), Insert(5, 9, "k")]
      && Inv(db) && Run(db, steps, to) && IsCancelled(to, 1) && HasConfirmedSeat(to, 1)
  {
    var db := Db(map[1 := Session(1, 0, Open)], map[], map[]);
    steps := [Take(5, 1), Cancel(1), Sweep(1), Insert(5, 9, "k")];
    assert SeatRows(db, 1) == {} && Holders(db, 1) == {};
    var taken := Apply(db, steps[0]);
    var cancelled := Apply(taken, steps[1]);
    var swept := Apply(cancelled, steps[2]);
    to := Apply(swept, steps[3]);
    assert Run(to, steps[3..][1..], to);
    assert Run(swept, steps[2..][1..], to) by { assert steps[2..][1..] == steps[3..]; }
    assert Run(cancelled, steps[1..][1..], to) by { assert steps[1..][1..] == steps[2..]; }
    assert Run(taken, steps[1..], to);
    assert 9 in ConfirmedSeats(to, 1);
  }

  lemma FreshId(db: Db) returns (id: BookingId)
    ensures id !in db.bookings
  {
    id := 0;
    var rest := db.bookings.Keys;
    while rest != {}
      invariant forall x :: x in db.bookings.Keys - rest ==> x < id
    {
      var x :| x in rest;
      assert forall y :: y in db.bookings.Keys - (rest - {x}) ==> y == x || y in db.bookings.Keys - rest;
      id := if id <= x then x + 1 else id;
      rest := rest - {x};
    }
    assert forall x :: x in db.bookings ==> x in db.bookings.Keys - rest;
  }

  lemma FreshKey(db: Db) returns (key: string)
    ensures !KeyUsed(db, key)
  {
    key := "";
    var rest := db.bookings.Keys;
    while rest != {}
      invariant rest <= db.bookings.Keys
      invariant forall x :: x in db.bookings.Keys - rest ==> |db.bookings[x].key| < |key|
    {
      var x :| x in rest;
      assert forall y :: y in db.bookings.Keys - (rest - {x}) ==> y == x || y in db.bookings.Keys - rest;
      key := if |key| <= |db.bookings[x].key| then db.bookings[x].key + "+" else key;
      rest := rest - {x};
    }
    assert forall x :: x in db.bookings ==> x in db.bookings.Keys - rest;
  }

  // ---------------------------------------------------------------------
  // Interference

  predicate By(step: Step, g: Guest) {
    match step
    case Take(h, _) => h == g
    case Insert(h, _, _) => h == g
    case Release(h) => h == g
    case _ => false
  }

  function StepsBy(steps: seq<Step>, g: Guest): seq<Step> {
    if steps == [] then []
    else if By(steps[|steps| - 1], g) then StepsBy(steps[..|steps| - 1], g) + [steps[|steps| - 1]]
    else StepsBy(steps[..|steps| - 1], g)
  }

  lemma {:induction false} StepsByConcat(a: seq<Step>, b: seq<Step>, g: Guest)
    ensures StepsBy(a + b, g) == StepsBy(a, g) + StepsBy(b, g)
  {
    if b == [] {
      assert a + b == a;
    } else {
      assert (a + b)[..|a + b| - 1] == a + b[..|b| - 1];
      StepsByConcat(a, b[..|b| - 1], g);
    }
  }

  /** Nothing another guest or a manager does releases or moves my claim. */
  lemma {:induction false} OthersKeepMyClaim(from: Db, steps: seq<Step>, to: Db, g: Guest)
    requires Run(from, steps, to) && StepsBy(steps, g) == []
    ensures g in from.holding <==> g in to.holding
    ensures g in from.holding ==> to.holding[g] == from.holding[g]
    decreases |steps|
  {
    if steps == [] {
    } else {
      assert steps == [steps[0]] + steps[1..];
      StepsByConcat([steps[0]], steps[1..], g);
      assert [steps[0]][..0] == [];
      OthersKeepMyClaim(Apply(from, steps[0]), steps[1..], to, g);
    }
  }

  /** A booking row keeps its key and its session for ever. */
  lemma {:induction false} BookingsStay(from: Db, steps: seq<Step>, to: Db, b: BookingId)
    requires Run(from, steps, to) && b in from.bookings
    ensures b in to.bookings && to.bookings[b].key == from.bookings[b].key && to.bookings[b].session == from.bookings[b].session
    decreases |steps|
  {
    if steps == [] {
    } else {
      BookingsStay(Apply(from, steps[0]), steps[1..], to, b);
    }
  }

  /** The statements `steps`, begun at `from`, pass through the tables `at`,
      and by then `g` has made the statements `own`. */
  ghost predicate Passes(from: Db, steps: seq<Step>, at: Db, own: seq<Step>, g: Guest) {
    exists n | 0 <= n <= |steps| :: Run(from, steps[..n], at) && StepsBy(steps[..n], g) == own
  }

  lemma PassesAfter(from: Db, first: seq<Step>, mid: Db, rest: seq<Step>, at: Db, own: seq<Step>, g: Guest)
    requires Run(from, first, mid) && Passes(mid, rest, at, own, g)
    ensures Passes(from, first + rest, at, StepsBy(first, g) + own, g)
  {
    var n :| 0 <= n <= |rest| && Run(mid, rest[..n], at) && StepsBy(rest[..n], g) == own;
    RunConcat(from, first, mid, rest[..n], at);
    StepsByConcat(first, rest[..n], g);
    assert (first + rest)[..|first| + n] == first + rest[..n];
  }

  lemma PassesThen(from: Db, first: seq<Step>, at: Db, rest: seq<Step>, g: Guest)
    requires Run(from, first, at)
    ensures Passes(from, first + rest, at, StepsBy(first, g), g)
  {
    assert (first + rest)[..|first|] == first;
  }

  // ---------------------------------------------------------------------
  // The handlers

  datatype Refusal = SessionFull | SessionClosed

  datatype ClaimResult = Claimed(booking: BookingId) | AlreadyClaimed(booking: BookingId) | Refused(reason: Refusal) | Threw

  /** The guest's own statements, by result. */
  predicate Outcome(r: ClaimResult, own: seq<Step>, me: Guest, s: SessionId, key: string) {
    match r
    case Claimed(id) => own == [Take(me, s), Insert(me, id, key)]
    case AlreadyClaimed(_) => own == []
    case Refused(_) => own == []
    case Threw => own == [Take(me, s), Release(me)]
  }

  /** The insert goes through: no fault of the database, and neither the id
      nor the key is taken. */
  predicate Inserts(db: Db, b: BookingId, key: string, fault: bool) {
    !fault && b !in db.bookings && !KeyUsed(db, key)
  }

  /** What the re-read after an unsuccessful claim says. */
  function RefusalFor(db: Db, s: SessionId): Refusal {
    if s in db.sessions && db.sessions[s].status == Open then SessionFull else SessionClosed
  }

  /** "Full" is said exactly while a seat is free. */
  lemma FullIsSaidIff(db: Db, s: SessionId)
    requires Inv(db)
    ensures RefusalFor(db, s) == SessionFull <==> CanTake(db, s)
  {
    assert s in db.sessions ==> StatusFits(db.sessions[s]);
  }

  /** For example: one seat, taken. The next guest hears that the session is
      closed. */
  lemma FullIsCalledClosed()
    ensures
      var db := Db(map[1 := Session(1, 1, Full)], map[7 := Booking(Some(1), "k", true)], map[]);
      Inv(db) && !CanTake(db, 1) && RefusalFor(db, 1) == SessionClosed
  {
    var db := Db(map[1 := Session(1, 1, Full)], map[7 := Booking(Some(1), "k", true)], map[]);
    assert SeatRows(db, 1) == {7} && Holders(db, 1) == {};
  }

  class SeatStore {
    var sessions: map<SessionId, Session>
    var bookings: map<BookingId, Booking>
    ghost var holding: map<Guest, SessionId>
    ghost var trace: seq<Step>
    ghost const origin: Db

    ghost function State(): Db
      reads this
    {
      Db(sessions, bookings, holding)
    }

    /** The tables are the outcome of a run of statements. */
    ghost predicate Valid()
      reads this
    {
      Inv(origin) && Run(origin, trace, State())
    }

    ghost constructor (db: Db)
      requires Inv(db)
      ensures Valid() && State() == db && trace == []
    {
      sessions, bookings, holding := db.sessions, db.bookings, db.holding;
      trace, origin := [], db;
    }

    ghost method Record(before: Db, step: Step)
      requires Inv(origin) && Run(origin, trace, before)
      requires Enabled(before, step) && State() == Apply(before, step)
      modifies this`trace
      ensures Valid() && trace == old(trace) + [step]
    {
      assert Run(State(), [step][1..], State());
      RunConcat(origin, trace, before, [step], State());
      trace := trace + [step];
    }

    /** Any statements of anybody else, in any number and order. The body is
        one way to meet the contract; callers know the contract only. */
    method Others(ghost me: Guest) returns (ghost steps: seq<Step>)
      requires Valid()
      modifies this
      ensures Valid() && trace == old(trace) + steps && StepsBy(steps, me) == []
      ensures Run(old(State()), steps, State())
    {
      steps := [];
      assert trace + [] == trace;
    }

    method FindByKey(key: string) returns (r: Option<BookingId>)
      ensures r.Some? ==> r.value in bookings && bookings[r.value].key == key
      ensures r.None? ==> !KeyUsed(State(), key)
    {
      if b :| b in bookings && bookings[b].key == key { r := Some(b); } else { r := None; }
    }

    method TakeSeat(ghost me: Guest, s: SessionId) returns (ok: bool)
      requires Valid() && me !in holding
      modifies this
      ensures Valid()
      ensures ok == old(CanTake(State(), s))
      ensures ok ==> trace == old(trace) + [Take(me, s)] && State() == Apply(old(State()), Take(me, s))
      ensures !ok ==> trace == old(trace) && State() == old(State())
      ensures ok <==> me in holding
      ensures ok ==> holding[me] == s
    {
      ghost var before := State();
      ok := s in sessions && sessions[s].seatsTaken < sessions[s].capacity && sessions[s].status == Open;
      if ok {
        sessions := sessions[s := Taken(sessions[s])];
        holding := holding[me := s];
        Record(before, Take(me, s));
      }
    }

    /** The insert throws on a used key, a used id or a fault of the database. */
    method InsertSeat(ghost me: Guest, s: SessionId, b: BookingId, key: string, fault: bool) returns (ok: bool)
      requires Valid() && me in holding && holding[me] == s
      modifies this
      ensures Valid()
      ensures ok <==> old(Inserts(State(), b, key, fault))
      ensures ok ==> trace == old(trace) + [Insert(me, b, key)] && State() == Apply(old(State()), Insert(me, b, key))
      ensures !ok ==> trace == old(trace) && State() == old(State())
    {
      ghost var before := State();
      ok := !fault && b !in bookings && !exists x :: x in bookings && bookings[x].key == key;
      if ok {
        bookings := bookings[b := Booking(Some(s), key, true)];
        holding := holding - {me};
        Record(before, Insert(me, b, key));
      }
    }

    method ReleaseSeat(ghost me: Guest, s: SessionId)
      requires Valid() && me in holding && holding[me] == s
      modifies this
      ensures Valid() && trace == old(trace) + [Release(me)]
      ensures old(Enabled(State(), Release(me)))
      ensures State() == Apply(old(State()), Release(me))
      ensures s in old(sessions) && s in sessions && sessions[s].seatsTaken == old(sessions[s].seatsTaken) - 1
    {
      ghost var before := State();
      RunKeeps(origin, trace, before);
      ReleaseNeverClamps(before, me);
      sessions := sessions[s := Released(sessions[s])];
      holding := holding - {me};
      Record(before, Release(me));
    }

    method GiveBack(ghost me: Guest, s: SessionId) returns (ghost steps: seq<Step>)
      requires Valid() && me in holding && holding[me] == s
      modifies this
      ensures Valid() && trace == old(trace) + steps && me !in holding
      ensures StepsBy(steps, me) == [Release(me)]
    {
      steps := Others(me);
      OthersKeepMyClaim(old(State()), steps, State(), me);
      ReleaseSeat(me, s);
      OneMore([], steps, Release(me), me);
      assert [] + steps == steps;
      steps := steps + [Release(me)];
    }

    /** What claimSeat does after its claim: a booking, or the seat back. */
    method InsertOrRelease(ghost me: Guest, s: SessionId, key: string, b: BookingId, fault: bool)
      returns (ok: bool, ghost steps: seq<Step>, ghost atInsert: Db)
      requires Valid() && me in holding && holding[me] == s
      modifies this
      ensures Valid() && trace == old(trace) + steps && me !in holding
      ensures ok ==> StepsBy(steps, me) == [Insert(me, b, key)] && b in bookings && bookings[b].key == key
      ensures !ok ==> StepsBy(steps, me) == [Release(me)]
      ensures Passes(old(State()), steps, atInsert, [], me) && (ok <==> Inserts(atInsert, b, key, fault))
    {
      steps := Others(me);
      OthersKeepMyClaim(old(State()), steps, State(), me);
      atInsert := State();
      ok := InsertSeat(me, s, b, key, fault);
      PassesThen(old(State()), steps, atInsert, [Insert(me, b, key)], me);
      if ok {
        OneMore(steps, [], Insert(me, b, key), me);
        steps := steps + [Insert(me, b, key)];
      } else {
        ghost var rest := GiveBack(me, s);
        StepsByConcat(steps, rest, me);
        PassesThen(old(State()), steps, atInsert, rest, me);
        steps := steps + rest;
      }
    }

    /** The re-read after a claim that found no row. */
    method Refuse(ghost me: Guest, s: SessionId) returns (r: Refusal, ghost steps: seq<Step>)
      requires Valid() && me !in holding
      modifies this
      ensures Valid() && trace == old(trace) + steps && StepsBy(steps, me) == [] && me !in holding
      ensures r == RefusalFor(State(), s) && (r == SessionFull <==> CanTake(State(), s))
    {
      steps := Others(me);
      OthersKeepMyClaim(old(State()), steps, State(), me);
      RunKeeps(origin, trace, State());
      FullIsSaidIff(State(), s);
      r := if s in sessions && sessions[s].status == Open then SessionFull else SessionClosed;
    }

    /** claimSeat from its conditional update on. It is refused exactly when
        no seat can be taken, and throws exactly when the insert fails. */
    method ClaimFresh(ghost me: Guest, s: SessionId, key: string, b: BookingId, fault: bool)
      returns (r: ClaimResult, ghost steps: seq<Step>, ghost atInsert: Db)
      requires Valid() && me !in holding
      modifies this
      ensures Valid() && trace == old(trace) + steps && me !in holding
      ensures Outcome(r, StepsBy(steps, me), me, s, key) && !r.AlreadyClaimed?
      ensures r.Claimed? ==> r.booking == b && r.booking in bookings && bookings[r.booking].key == key
      ensures r.Refused? <==> !old(CanTake(State(), s))
      ensures r.Refused? ==> (r.reason == SessionFull <==> CanTake(State(), s))
      ensures !r.Refused? ==>
        && Passes(old(State()), steps, atInsert, [Take(me, s)], me)
        && (r.Claimed? <==> Inserts(atInsert, b, key, fault))
    {
      var claimed := TakeSeat(me, s);
      if !claimed {
        var reason, more := Refuse(me, s);
        return Refused(reason), more, State();
      }
      ghost var taken := State();
      assert Run(taken, [Take(me, s)][1..], taken);
      var ok;
      ghost var rest;
      ok, rest, atInsert := InsertOrRelease(me, s, key, b, fault);
      steps := Prepended(Take(me, s), rest, me);
      PassesAfter(old(State()), [Take(me, s)], taken, rest, atInsert, [], me);
      assert StepsBy([Take(me, s)], me) == [Take(me, s)] by { assert [Take(me, s)][..0] == []; }
      r := if ok then Claimed(b) else Threw;
    }

    /** claimSeat, with anything happening between its statements. Exactly one
        seat is claimed and kept when a booking results, a failed insert gives
        its seat back, and nothing is claimed for a known key or on refusal.
        For a new key the answer is a refusal exactly when the conditional
        update, on the tables as they were then, finds no seat to take; and a
        throw exactly when the insert, on the tables as they were then, fails.
        A refusal as "full" is given exactly while a seat is free. */
    method ClaimSeat(ghost me: Guest, s: SessionId, key: string, b: BookingId, fault: bool)
      returns (r: ClaimResult, ghost steps: seq<Step>, ghost atClaim: Db, ghost atInsert: Db)
      requires Valid() && me !in holding
      modifies this
      ensures Valid() && trace == old(trace) + steps && me !in holding
      ensures Outcome(r, StepsBy(steps, me), me, s, key)
      ensures (r.Claimed? || r.AlreadyClaimed?) ==> r.booking in bookings && bookings[r.booking].key == key
      ensures old(KeyUsed(State(), key)) <==> r.AlreadyClaimed?
      ensures !r.AlreadyClaimed? ==>
        && Passes(old(State()), steps, atClaim, [], me)
        && (r.Refused? <==> !CanTake(atClaim, s))
      ensures !r.AlreadyClaimed? && !r.Refused? ==>
        && Passes(old(State()), steps, atInsert, [Take(me, s)], me)
        && (r.Threw? <==> !Inserts(atInsert, b, key, fault))
      ensures r.Refused? ==> (r.reason == SessionFull <==> CanTake(State(), s))
    {
      var existing := FindByKey(key);
      if existing.Some? {
        steps := [];
        assert trace == trace + [];
        return AlreadyClaimed(existing.value), [], State(), State();
      }
      ghost var first := Others(me);
      OthersKeepMyClaim(old(State()), first, State(), me);
      atClaim := State();
      ghost var rest;
      r, rest, atInsert := ClaimFresh(me, s, key, b, fault);
      StepsByConcat(first, rest, me);
      steps := first + rest;
      PassesThen(old(State()), first, atClaim, rest, me);
      if !r.Refused? { PassesAfter(old(State()), first, atClaim, rest, atInsert, [Take(me, s)], me); }
    }

    /** cancelGroupSession: the row count, the sweep, and the notified loop
        over the mails that could be sent. */
    method CancelGroupSession(ghost me: Guest, s: SessionId, mailed: set<BookingId>)
      returns (ok: bool, notified: nat, ghost more: seq<Step>, ghost atSweep: Db)
      requires Valid()
      modifies this
      ensures Valid()
      ensures ok ==> IsCancelled(State(), s) && Enabled(atSweep, Sweep(s)) && State() == Apply(atSweep, Sweep(s))
      ensures ok ==> forall b :: b in atSweep.bookings ==>
        && b in bookings && (atSweep.bookings[b].session != Some(s) ==> bookings[b] == atSweep.bookings[b])
        && (atSweep.bookings[b].session == Some(s) ==> bookings[b] == atSweep.bookings[b].(confirmed := false))
      ensures ok ==> notified == |ConfirmedSeats(atSweep, s) * mailed|
      ensures ok <==> old(Enabled(State(), Cancel(s)))
      ensures ok ==>
        && trace == old(trace) + [Cancel(s)] + more + [Sweep(s)] && StepsBy(more, me) == []
        && Run(Apply(old(State()), Cancel(s)), more, atSweep)
      ensures !ok ==> State() == old(State()) && trace == old(trace) && notified == 0
    {
      notified, more, atSweep := 0, [], State();
      ok := s in sessions && sessions[s].status in {Open, Full};
      if !ok { return; }
      ghost var before := State();
      sessions := sessions[s := sessions[s].(status := Cancelled)];
      Record(before, Cancel(s));
      ghost var mid := State();
      more := Others(me);
      CancelledForever(mid, more, State(), s);
      atSweep := State();
      notified := SweepSeats(s, mailed);
      forall b | b in atSweep.bookings
        ensures b in bookings && (atSweep.bookings[b].session != Some(s) ==> bookings[b] == atSweep.bookings[b])
        ensures atSweep.bookings[b].session == Some(s) ==> bookings[b] == atSweep.bookings[b].(confirmed := false)
      {
        SweepSparesOthers(atSweep, s, b);
      }
    }

    method SweepSeats(s: SessionId, mailed: set<BookingId>) returns (notified: nat)
      requires Valid() && IsCancelled(State(), s)
      modifies this
      ensures Valid() && trace == old(trace) + [Sweep(s)]
      ensures State() == Apply(old(State()), Sweep(s)) && IsCancelled(State(), s)
      ensures notified == |ConfirmedSeats(old(State()), s) * mailed|
    {
      ghost var before := State();
      var seats := set b | b in bookings && bookings[b].session == Some(s) && bookings[b].confirmed;
      bookings := SweptBookings(bookings, s);
      Record(before, Sweep(s));
      notified := Notify(seats, mailed);
      assert seats == ConfirmedSeats(before, s);
    }
  }

  /** One mail a seat; failures are counted out, not retried. */
  method Notify(seats: set<BookingId>, mailed: set<BookingId>) returns (notified: nat)
    ensures notified == |seats * mailed|
  {
    notified := 0;
    var rest := seats;
    assert (seats - rest) * mailed == {};
    while rest != {}
      invariant rest <= seats && notified == |(seats - rest) * mailed|
    {
      var b :| b in rest;
      ghost var done := (seats - rest) * mailed;
      rest := rest - {b};
      assert (seats - rest) * mailed == if b in mailed then done + {b} else done;
      if b in mailed { notified := notified + 1; }
    }
    assert seats - rest == seats;
  }

  lemma OneMore(a: seq<Step>, b: seq<Step>, step: Step, g: Guest)
    requires By(step, g) && StepsBy(b, g) == []
    ensures StepsBy(a + b + [step], g) == StepsBy(a, g) + [step]
    ensures b == [] ==> a + b + [step] == a + [step]
  {
    StepsByConcat(a, b, g);
    assert (a + b + [step])[..|a + b|] == a + b;
  }

  lemma Prepended(step: Step, b: seq<Step>, g: Guest) returns (r: seq<Step>)
    requires By(step, g)
    ensures r == [step] + b && StepsBy(r, g) == [step] + StepsBy(b, g)
  {
    r := [step] + b;
    TwoMore([], step, b, g);
    assert [] + r == r;
  }

  lemma TwoMore(a: seq<Step>, step: Step, b: seq<Step>, g: Guest)
    requires By(step, g)
    ensures StepsBy(a + ([step] + b), g) == StepsBy(a, g) + [step] + StepsBy(b, g)
    ensures a + ([step] + b) == a + [step] + b
  {
    OneMore(a, [], step, g);
    StepsByConcat(a + [step], b, g);
    assert a + ([step] + b) == a + [step] + b;
  }
}
