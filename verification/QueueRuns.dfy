/** What every run of App Builder statements keeps: one active request per
    app, the lifecycle of a request, and the turn budget that ends it. */
module QueueRuns {
  import opened Common
  import opened Queue

  // ---------------------------------------------------------------------
  // Lifecycle of one request

  /** Which columns a request carries in each status. */
  predicate RowOk(r: Request) {
    && r.turn <= MAX_TURNS
    && match r.status
       case Queued => r.turn == 0 && r.responseId.None? && r.pull.None? && r.publishedCommit.None?
       case Reading => r.turn == 0 && r.responseId.None? && r.pull.None? && r.publishedCommit.None?
       case WaitingOpenai => r.turn >= 1 && r.responseId.Some? && r.publishedCommit.None?
       case MakingChanges => r.turn >= 1 && r.responseId.Some? && r.publishedCommit.None?
       case PreparingReview => r.turn >= 1 && r.responseId.Some? && r.publishedCommit.None?
       case NeedsApproval => r.publishedCommit.None?
       case Publishing => r.pull.Some? && r.publishedCommit.None?
       case Live => r.pull.Some? && r.publishedCommit.Some?
       case Reversing => r.pull.Some? && r.publishedCommit.Some?
       case Reversed => r.pull.Some? && r.publishedCommit.Some? && r.reversalPull.Some? && r.reversedCommit.Some? && r.reversed
       case Failed => r.publishedCommit.None?
  }

  ghost predicate Lifecycle(t: Table) {
    forall id :: id in t ==> RowOk(t[id])
  }

  ghost predicate Inv(t: Table) { Constraints(t) && Lifecycle(t) }

  predicate Enabled(t: Table, e: Event) { Guard(t, e) && Fits(t, e) }

  lemma RowOkAfter(t: Table, e: Event)
    requires Single(e) && Guard(t, e) && RowOk(t[e.id])
    ensures RowOk(Patched(t[e.id], PatchOf(t, e)))
  {
  }

  lemma LifecycleAfter(t: Table, e: Event)
    requires Lifecycle(t) && Guard(t, e)
    ensures Lifecycle(Apply(t, e))
  {
    if Single(e) {
      ApplyRow(t, e);
      RowOkAfter(t, e);
    }
  }

  lemma StepKeeps(t: Table, e: Event)
    requires Inv(t) && Enabled(t, e)
    ensures Inv(Apply(t, e))
  {
    RejectedIff(t, e);
    LifecycleAfter(t, e);
  }

  // ---------------------------------------------------------------------
  // Runs

  ghost predicate Run(from: Table, events: seq<Event>, to: Table)
    decreases |events|
  {
    if events == [] then from == to
    else Enabled(from, events[0]) && Run(Apply(from, events[0]), events[1..], to)
  }

  lemma {:induction false} RunConcat(a: Table, xs: seq<Event>, b: Table, ys: seq<Event>, c: Table)
    requires Run(a, xs, b) && Run(b, ys, c)
    ensures Run(a, xs + ys, c)
    decreases |xs|
  {
    if xs == [] {
      assert xs + ys == ys;
    } else {
      RunConcat(Apply(a, xs[0]), xs[1..], b, ys, c);
      assert (xs + ys)[1..] == xs[1..] + ys;
    }
  }

  /** Every run keeps the table constraints and the lifecycle. In particular
      an app never has two active requests, and live, reversing and reversed
      requests always carry their pull request and published commit. */
  lemma {:induction false} RunKeeps(from: Table, events: seq<Event>, to: Table)
    requires Inv(from) && Run(from, events, to)
    ensures Inv(to)
    decreases |events|
  {
    if events == [] {
    } else {
      StepKeeps(from, events[0]);
      RunKeeps(Apply(from, events[0]), events[1..], to);
    }
  }

  /** The run theorem spelled out for one request and one app. */
  lemma RequestsInAnyRun(from: Table, events: seq<Event>, to: Table, id: RequestId, other: RequestId)
    requires Inv(from) && Run(from, events, to) && id in to && other in to
    ensures to[id].asset == to[other].asset && Active(to[id].status) && Active(to[other].status) ==> id == other
    ensures to[id].status in {Live, Reversing, Reversed} <==> to[id].publishedCommit.Some?
    ensures to[id].status == Failed ==> to[id].publishedCommit.None?
    ensures to[id].status == Publishing ==> to[id].pull.Some?
    ensures to[id].status == WaitingOpenai ==> to[id].responseId.Some? && 1 <= to[id].turn <= MAX_TURNS
    ensures to[id].turn <= MAX_TURNS
  {
    RunKeeps(from, events, to);
    assert RowOk(to[id]);
  }

  // ---------------------------------------------------------------------
  // Termination of a request's run from claim to live or failed

  /** Inside a response, saving the staged files comes first. */
  function Rank(s: Status, unsaved: bool): nat {
    match s
    case Queued => 8
    case Reading => 7
    case WaitingOpenai => 6
    case MakingChanges => if unsaved then 5 else 4
    case PreparingReview => 3
    case NeedsApproval => 3
    case Publishing => 2
    case _ => 0
  }

  predicate InFlight(s: Status) { Rank(s, true) > 0 }

  /** (turns left, status rank), lexicographically, as one number. */
  function Measure(r: Request): int {
    if InFlight(r.status) then (MAX_TURNS - r.turn) * 9 + Rank(r.status, r.unsaved) else 0
  }

  function MeasureOf(t: Table, id: RequestId): int { if id in t then Measure(t[id]) else 0 }

  /** A statement that drives this request, other than a poll that finds
      checks pending. */
  predicate Drives(t: Table, e: Event, id: RequestId) {
    id in t && InFlight(t[id].status) && Single(e) && e.id == id && !e.Pending?
  }

  predicate Recovers(e: Event, id: RequestId) {
    (e.Requeue? || e.Redrive?) && id in e.ids
  }

  lemma MeasureRow(t: Table, e: Event)
    requires Single(e) && Guard(t, e) && RowOk(t[e.id])
    ensures var after := Measure(Patched(t[e.id], PatchOf(t, e)));
      if Drives(t, e, e.id) then after < Measure(t[e.id]) else after == Measure(t[e.id])
  {
  }

  lemma MeasureStep(t: Table, e: Event, id: RequestId)
    requires Lifecycle(t) && Guard(t, e) && id in t
    ensures id in Apply(t, e)
    ensures Drives(t, e, id) ==> MeasureOf(Apply(t, e), id) < MeasureOf(t, id)
    ensures Recovers(e, id) ==>
      MeasureOf(Apply(t, e), id) == MeasureOf(t, id) + (if e.Redrive? && !t[id].unsaved then 2 else 1)
    ensures !Drives(t, e, id) && !Recovers(e, id) ==> MeasureOf(Apply(t, e), id) == MeasureOf(t, id)
  {
    if Single(e) {
      ApplyRow(t, e);
      MeasureRow(t, e);
    }
  }

  ghost function Driven(from: Table, events: seq<Event>, id: RequestId): nat
    decreases |events|
  {
    if events == [] || !Enabled(from, events[0]) then 0
    else (if Drives(from, events[0], id) then 1 else 0) + Driven(Apply(from, events[0]), events[1..], id)
  }

  function Recoveries(events: seq<Event>, id: RequestId): nat {
    if events == [] then 0 else (if Recovers(events[0], id) then 1 else 0) + Recoveries(events[1..], id)
  }

  /** In any run, interleaved with anything, the statements that drive a
      request are paid for by its turn budget and its recoveries. */
  lemma {:induction false} DrivenByBudget(from: Table, events: seq<Event>, to: Table, id: RequestId)
    requires Inv(from) && Run(from, events, to) && id in from
    ensures id in to
    ensures Driven(from, events, id) + MeasureOf(to, id) <= MeasureOf(from, id) + 2 * Recoveries(events, id)
    decreases |events|
  {
    if events == [] {
    } else {
      var e := events[0];
      StepKeeps(from, e);
      MeasureStep(from, e, id);
      DrivenByBudget(Apply(from, e), events[1..], to, id);
    }
  }

  /** So a request that is never recovered is driven at most 908 times before
      it is live or failed, however often it returns for repair. Only polls
      that find checks pending are not counted. */
  lemma RequestTerminates(from: Table, events: seq<Event>, to: Table, id: RequestId)
    requires Inv(from) && Run(from, events, to) && id in from && Recoveries(events, id) == 0
    ensures Driven(from, events, id) <= MAX_TURNS * 9 + 8
  {
    DrivenByBudget(from, events, to, id);
    RunKeeps(from, events, to);
    assert RowOk(from[id]) && RowOk(to[id]);
  }

  // ---------------------------------------------------------------------
  // Only these statements make an app's slot busy or free

  /** A request enters an active status from outside only by being claimed
      from the queue, approved, or taken for reversal; each of these finds
      no other active request of the app. Recovery never adds one. */
  lemma EntersActive(t: Table, e: Event, id: RequestId)
    requires Constraints(t) && Enabled(t, e) && id in Apply(t, e)
    requires Active(Apply(t, e)[id].status) && (id !in t || !Active(t[id].status))
    ensures (e.ClaimNext? || e.Approve? || e.ClaimReversal?) && e.id == id && !HasActive(t, t[id].asset)
  {
    if Single(e) {
      ApplyRow(t, e);
      if HasActive(t, t[id].asset) {
        var other :| other in t && t[other].asset == t[id].asset && Active(t[other].status);
        assert OtherActive(t, id);
      }
    }
  }
}
