/** A reconcile pass as the moves it makes, and what it leaves behind. */
module QueuePasses {
  import opened Common
  import opened Queue
  import opened QueueRuns
  import opened QueueKick
  import opened QueueResults
  import opened QueueMoves
  import opened Lists

  /** What a pass finds to do, and the answers it will get. */
  datatype Work = Work(
    responseIds: seq<string>,
    publishingIds: seq<RequestId>,
    answers: string -> Option<Response>,
    outside: string -> Outside,
    polls: RequestId -> Poll,
    starts: Starts)

  function ResumeMoves(w: Work): (moves: seq<Move>)
    ensures |moves| == |w.responseIds|
  {
    seq(|w.responseIds|, i requires 0 <= i < |w.responseIds| =>
      var id := w.responseIds[i];
      ResumeOne(id, true, w.answers(id), w.outside(id), w.starts))
  }

  function PollMoves(w: Work): (moves: seq<Move>)
    ensures |moves| == |w.publishingIds|
  {
    seq(|w.publishingIds|, i requires 0 <= i < |w.publishingIds| =>
      PollOne(w.publishingIds[i], w.polls(w.publishingIds[i]), w.starts))
  }

  function KickMoves(scope: seq<AssetId>, starts: Starts): (moves: seq<Move>)
    ensures |moves| == |scope|
  {
    seq(|scope|, i requires 0 <= i < |scope| => KickApp(scope[i], starts))
  }

  /** The three loops, in their order. */
  function LoopMoves(scope: seq<AssetId>, w: Work): seq<Move> {
    ResumeMoves(w) + PollMoves(w) + KickMoves(scope, w.starts)
  }

  function PassMoves(stalled: set<RequestId>, scope: seq<AssetId>, w: Work): seq<Move> {
    [Recover(stalled)] + (if scope == [] then [] else LoopMoves(scope, w))
  }

  /** A pass with somewhere to go recovers first, then takes up every listed
      response, then polls every listed request, and kicks every app last; each
      with its own answer, and in the listed order. */
  lemma PassInOrder(stalled: set<RequestId>, scope: seq<AssetId>, w: Work, i: nat)
    requires scope != [] && i < |PassMoves(stalled, scope, w)|
    ensures
      var move, first, second := PassMoves(stalled, scope, w)[i], 1 + |w.responseIds|, 1 + |w.responseIds| + |w.publishingIds|;
      && |PassMoves(stalled, scope, w)| == second + |scope|
      && (i == 0 ==> move == Recover(stalled))
      && (1 <= i < first ==>
            var r := w.responseIds[i - 1];
            move == ResumeOne(r, true, w.answers(r), w.outside(r), w.starts))
      && (first <= i < second ==>
            var id := w.publishingIds[i - first];
            move == PollOne(id, w.polls(id), w.starts))
      && (second <= i ==> move == KickApp(scope[i - second], w.starts))
  {
    InPieces(Recover(stalled), ResumeMoves(w), PollMoves(w), KickMoves(scope, w.starts), i);
  }

  // ---------------------------------------------------------------------
  // When a pass is made to its end

  ghost predicate AllFetched(w: Work) {
    forall r :: r in w.responseIds ==> w.answers(r).Some?
  }

  ghost predicate NoneAsks(t: Table, ids: seq<RequestId>) {
    forall id :: id in ids ==> !AsksApproval(t, id)
  }

  /** The first request polled asks for approval beside an active one. */
  predicate FirstRejected(t: Table, ids: seq<RequestId>) { ids != [] && ApprovalRejected(t, ids[0]) }

  lemma OneMoreMade(t: Table, moves: seq<Move>, n: nat)
    requires n < |moves| && !Made(t, moves[..n]).threw
    ensures
      var p := Made(t, moves[..n]);
      Made(t, moves[..n + 1]) ==
      Pass(After(p.rows, moves[n]), p.closed + Closes(p.rows, moves[n]), Throws(p.rows, moves[n]))
  {
    MadeMore(t, moves[..n], moves[n]);
    assert moves[..n + 1] == moves[..n] + [moves[n]];
  }

  lemma {:induction false} ResumesDoNotThrow(t: Table, w: Work, n: nat)
    requires AllFetched(w) && n <= |w.responseIds|
    ensures !Made(t, ResumeMoves(w)[..n]).threw
  {
    hide Made, After, Closes;
    if n == 0 {
      NothingMade(t, ResumeMoves(w)[..0]);
    } else {
      ResumesDoNotThrow(t, w, n - 1);
      OneMoreMade(t, ResumeMoves(w), n - 1);
      assert w.responseIds[n - 1] in w.responseIds;
    }
  }

  lemma NothingMade(t: Table, moves: seq<Move>)
    requires moves == []
    ensures Made(t, moves) == Pass(t, {}, false)
  {
  }

  lemma {:induction false} PollsDoNotThrow(t: Table, w: Work, n: nat)
    requires NoneAsks(t, w.publishingIds) && n <= |w.publishingIds|
    ensures !Made(t, PollMoves(w)[..n]).threw
  {
    hide Made, After, Closes;
    if n == 0 {
      NothingMade(t, PollMoves(w)[..0]);
    } else {
      PollsDoNotThrow(t, w, n - 1);
      OneMoreMade(t, PollMoves(w), n - 1);
      MadePasses(t, PollMoves(w)[..n - 1]);
      assert !AsksApproval(t, w.publishingIds[n - 1]);
    }
  }

  lemma {:induction false} KicksServe(t: Table, scope: seq<AssetId>, starts: Starts, n: nat)
    requires n <= |scope|
    ensures !Made(t, KickMoves(scope, starts)[..n]).threw
    ensures forall k :: 0 <= k < n ==> Served(Made(t, KickMoves(scope, starts)[..n]).rows, scope[k])
  {
    hide Made, Kicked, Served;
    var moves := KickMoves(scope, starts);
    if n == 0 {
      NothingMade(t, moves[..0]);
    } else {
      KicksServe(t, scope, starts, n - 1);
      OneMoreMade(t, moves, n - 1);
      var before, app := Made(t, moves[..n - 1]).rows, scope[n - 1];
      KickServes(before, app, starts);
      forall k | 0 <= k < n - 1 ensures Served(Kicked(before, app, starts), scope[k]) {
        if scope[k] != app { KickStaysInApp(before, app, starts, scope[k]); }
      }
    }
  }

  lemma LoopsMade(t: Table, scope: seq<AssetId>, w: Work)
    ensures
      var resumed := Made(t, ResumeMoves(w));
      var polled := Made(resumed.rows, PollMoves(w));
      var kicked := Made(polled.rows, KickMoves(scope, w.starts));
      Made(t, LoopMoves(scope, w)) == Then(Then(resumed, polled), kicked)
  {
    hide Made;
    MadeConcat(t, ResumeMoves(w), PollMoves(w));
    MadeConcat(t, ResumeMoves(w) + PollMoves(w), KickMoves(scope, w.starts));
  }

  lemma RecoveredThen(t: Table, stalled: set<RequestId>, moves: seq<Move>)
    ensures Made(t, [Recover(stalled)] + moves) == Made(Recovered(t, stalled), moves)
  {
    MadeConcat(t, [Recover(stalled)], moves);
    assert [Recover(stalled)][..0] == [];
    assert Made(t, [Recover(stalled)]) == Pass(Recovered(t, stalled), {}, false);
    assert {} + Made(Recovered(t, stalled), moves).closed == Made(Recovered(t, stalled), moves).closed;
  }

  lemma PassMade(t: Table, stalled: set<RequestId>, scope: seq<AssetId>, w: Work)
    ensures
      var next := Recovered(t, stalled);
      Made(t, PassMoves(stalled, scope, w)) ==
      if scope == [] then Pass(next, {}, false) else Made(next, LoopMoves(scope, w))
  {
    hide LoopMoves;
    var rest := if scope == [] then [] else LoopMoves(scope, w);
    RecoveredThen(t, stalled, rest);
  }

  /** A pass that does not throw leaves every app in its scope working or with
      nothing waiting. */
  lemma PassServes(t: Table, stalled: set<RequestId>, scope: seq<AssetId>, w: Work)
    requires !Made(t, PassMoves(stalled, scope, w)).threw
    ensures forall a :: a in scope ==> Served(Made(t, PassMoves(stalled, scope, w)).rows, a)
  {
    hide Made, Served, PassMoves, LoopMoves, KickMoves;
    PassMade(t, stalled, scope, w);
    if scope != [] {
      var next := Recovered(t, stalled);
      LoopsMade(next, scope, w);
      var polled := Made(Made(next, ResumeMoves(w)).rows, PollMoves(w)).rows;
      KicksServe(polled, scope, w.starts, |scope|);
      assert KickMoves(scope, w.starts)[..|scope|] == KickMoves(scope, w.starts);
    }
  }

  /** It does not throw when every answer can be fetched and no listed request
      asks for approval. */
  lemma PassCompletes(t: Table, stalled: set<RequestId>, scope: seq<AssetId>, w: Work)
    requires AllFetched(w) && NoneAsks(t, w.publishingIds)
    ensures !Made(t, PassMoves(stalled, scope, w)).threw
  {
    hide Made, PassMoves, LoopMoves, KickMoves, ResumeMoves, PollMoves;
    PassMade(t, stalled, scope, w);
    if scope != [] {
      var next := Recovered(t, stalled);
      LoopsMade(next, scope, w);
      ResumesDoNotThrow(next, w, |w.responseIds|);
      assert ResumeMoves(w)[..|w.responseIds|] == ResumeMoves(w);
      var resumed := Made(next, ResumeMoves(w)).rows;
      MadePasses(next, ResumeMoves(w));
      PollsDoNotThrow(resumed, w, |w.publishingIds|);
      assert PollMoves(w)[..|w.publishingIds|] == PollMoves(w);
      KicksServe(Made(resumed, PollMoves(w)).rows, scope, w.starts, |scope|);
      assert KickMoves(scope, w.starts)[..|scope|] == KickMoves(scope, w.starts);
    }
  }

  /** Whatever it was to do after that, a pass whose first poll is a rejected
      approval ends there, before any queue is kicked. */
  lemma PassAborts(t: Table, stalled: set<RequestId>, scope: seq<AssetId>, w: Work)
    requires scope != [] && w.responseIds == [] && FirstRejected(Recovered(t, stalled), w.publishingIds)
    ensures Made(t, PassMoves(stalled, scope, w)) == Pass(Recovered(t, stalled), {}, true)
  {
    hide PassMoves, LoopMoves, KickMoves, Made;
    PassMade(t, stalled, scope, w);
    var next := Recovered(t, stalled);
    LoopsMade(next, scope, w);
    NothingMade(next, ResumeMoves(w));
    NothingMade(next, PollMoves(w)[..0]);
    OneMoreMade(next, PollMoves(w), 0);
    ThrowChangesNothing(next, PollMoves(w)[0]);
    ThrewStays(next, PollMoves(w), 1);
  }

  // ---------------------------------------------------------------------
  // An approval that is rejected

  /** Request 1 asks for approval while its app works on request 2; request 3
      of another app has lost its kick. */
  function ApprovalBesideActive(): Table {
    map[1 := NewRequest(7, 1).(status := NeedsApproval, pull := Some(Pull(5, "b", "u"))),
        2 := NewRequest(7, 2).(status := WaitingOpenai, responseId := Some("r"), turn := 1),
        3 := NewRequest(8, 3)]
  }

  lemma ApprovalBesideActiveIsRejected()
    ensures
      var t := ApprovalBesideActive();
      Inv(t) && Recovered(t, {}) == t && ApprovalRejected(t, 1) && !Served(t, 8)
  {
    var t := ApprovalBesideActive();
    assert OtherActive(t, 1) by { assert t[2].asset == t[1].asset; }
    assert 3 in QueuedIds(t, 8);
  }

  /** A pass over such a table, whatever its answers, ends at the first poll
      and leaves the other app idle with its request waiting. */
  lemma RejectedApprovalAborts(w: Work)
    requires w.responseIds == [] && w.publishingIds == [1]
    ensures
      var t := ApprovalBesideActive();
      Inv(t) && Made(t, PassMoves({}, [7, 8], w)) == Pass(t, {}, true) && !Served(t, 8)
  {
    hide Made, PassMoves, ApprovalBesideActive, Inv, Served, Recovered;
    ApprovalBesideActiveIsRejected();
    PassAborts(ApprovalBesideActive(), {}, [7, 8], w);
  }
}
