/** One call of a handler, or one turn of a reconcile pass, as a move over the
    request table; and what any sequence of moves makes of it. */
module QueueMoves {
  import opened Common
  import opened Queue
  import opened QueueRuns
  import opened QueueKick
  import opened QueueResults
  import T = AgentTools

  /** ResumeOne is the webhook's call or, as a reconcile turn, the poll's.
      Submit and KickApp are what a new request does. */
  datatype Move =
    | Recover(stalled: set<RequestId>)
    | ResumeOne(responseId: string, reconcile: bool, response: Option<Response>, outside: Outside, starts: Starts)
    | PollOne(id: RequestId, poll: Poll, starts: Starts)
    | KickApp(asset: AssetId, starts: Starts)
    | Submit(id: RequestId, asset: AssetId, createdAt: nat)
    | AskReversal(id: RequestId, prepared: Answer<nat>, poll: Poll, starts: Starts)

  function AfterPoll(t: Table, id: RequestId, poll: Poll, starts: Starts): Table {
    if id in t && t[id].status == Reversing then
      if UnderReversal(t, id) then ReversalResult(t, id, poll, starts) else t
    else if Publishable(t, id) && !ApprovalRejected(t, id) then PublishResult(Approved(t, id), id, poll, starts)
    else t
  }

  function PollCloses(t: Table, id: RequestId, poll: Poll): set<nat> {
    if Publishable(t, id) && !ApprovalRejected(t, id) then PublishCloses(Approved(t, id), id, poll) else {}
  }

  ghost function After(t: Table, move: Move): Table {
    match move
    case Recover(stalled) => Recovered(t, stalled)
    case ResumeOne(responseId, reconcile, response, outside, starts) =>
      if id :| Resumes(t, id, responseId, reconcile, response)
      then RoundResult(Claimed(t, id), id, response.value, outside, starts)
      else t
    case PollOne(id, poll, starts) => AfterPoll(t, id, poll, starts)
    case KickApp(asset, starts) => Kicked(t, asset, starts)
    case Submit(id, asset, createdAt) => if id in t then t else t[id := NewRequest(asset, createdAt)]
    case AskReversal(id, prepared, poll, starts) => ReverseResult(t, id, prepared, poll, starts)
  }

  /** The pull requests a move closes. */
  ghost function Closes(t: Table, move: Move): set<nat> {
    match move
    case ResumeOne(responseId, reconcile, response, outside, _) =>
      if id :| Resumes(t, id, responseId, reconcile, response)
      then RoundCloses(Claimed(t, id), id, response.value, outside)
      else {}
    case PollOne(id, poll, _) => PollCloses(t, id, poll)
    case _ => {}
  }

  ghost predicate Throws(t: Table, move: Move) {
    match move
    case ResumeOne(responseId, _, response, _, _) =>
      response.None? && exists id :: AwaitsResponse(t, id, responseId)
    case PollOne(id, _, _) => ApprovalRejected(t, id)
    case AskReversal(id, prepared, _, _) => ReversalThrows(t, id, prepared)
    case _ => false
  }

  /** The row a response resumes is the only one waiting for it. */
  lemma ResumedRow(t: Table, id: RequestId, move: Move)
    requires UniqueResponses(t) && move.ResumeOne?
    requires Resumes(t, id, move.responseId, move.reconcile, move.response)
    ensures After(t, move) == RoundResult(Claimed(t, id), id, move.response.value, move.outside, move.starts)
    ensures Closes(t, move) == RoundCloses(Claimed(t, id), id, move.response.value, move.outside)
  {
    hide RoundResult, RoundCloses, Claimed;
    assert forall a :: Resumes(t, a, move.responseId, move.reconcile, move.response) ==> a == id;
  }

  /** A move that throws changes nothing. */
  lemma ThrowChangesNothing(t: Table, move: Move)
    requires Throws(t, move)
    ensures After(t, move) == t && Closes(t, move) == {}
  {
  }

  // ---------------------------------------------------------------------
  // Moves in a row

  datatype Pass = Pass(rows: Table, closed: set<nat>, threw: bool)

  /** The moves one after the other, up to the first that throws. */
  ghost function Made(t: Table, moves: seq<Move>): Pass
    decreases |moves|
  {
    if moves == [] then Pass(t, {}, false)
    else
      var before, move := Made(t, moves[..|moves| - 1]), moves[|moves| - 1];
      if before.threw then before
      else Pass(After(before.rows, move), before.closed + Closes(before.rows, move), Throws(before.rows, move))
  }

  ghost function Then(p: Pass, q: Pass): Pass {
    if p.threw then p else Pass(q.rows, p.closed + q.closed, q.threw)
  }

  lemma MadeMore(t: Table, moves: seq<Move>, move: Move)
    requires !Made(t, moves).threw
    ensures var p := Made(t, moves);
      Made(t, moves + [move]) == Pass(After(p.rows, move), p.closed + Closes(p.rows, move), Throws(p.rows, move))
  {
    assert (moves + [move])[..|moves|] == moves;
  }

  lemma {:induction false} MadeConcat(t: Table, a: seq<Move>, b: seq<Move>)
    ensures Made(t, a + b) == Then(Made(t, a), Made(Made(t, a).rows, b))
    decreases |b|
  {
    hide After, Closes, Throws;
    if b == [] {
      assert a + b == a;
    } else {
      var init := b[..|b| - 1];
      assert (a + b)[..|a + b| - 1] == a + init;
      MadeConcat(t, a, init);
    }
  }

  /** What follows a throw is not made. */
  lemma ThrewStays(t: Table, moves: seq<Move>, n: nat)
    requires n <= |moves| && Made(t, moves[..n]).threw
    ensures Made(t, moves) == Made(t, moves[..n])
  {
    hide Made;
    assert moves == moves[..n] + moves[n..];
    MadeConcat(t, moves[..n], moves[n..]);
  }

  // ---------------------------------------------------------------------
  // What every move keeps

  /** Preparing its pull request, or reversing before the reversal has one: a
      worker that dies there leaves nothing for any handler to take up. */
  predicate Stuck(r: Request) {
    r.status == PreparingReview || (r.status == Reversing && r.reversalPull.None?)
  }

  predicate AsksApproval(t: Table, id: RequestId) { id in t && t[id].status == NeedsApproval }

  /** No row is lost, stuck rows stay as they are, and nothing comes to need
      approval. */
  ghost predicate Passed(t: Table, next: Table) {
    && t.Keys <= next.Keys
    && (forall id :: id in t && Stuck(t[id]) ==> next[id] == t[id])
    && (forall id :: AsksApproval(next, id) ==> AsksApproval(t, id))
  }

  lemma PassedTwice(a: Table, b: Table, c: Table)
    requires Passed(a, b) && Passed(b, c)
    ensures Passed(a, c)
  {
  }

  lemma OneRowPasses(t: Table, id: RequestId, r: Request)
    requires id in t && !Stuck(t[id]) && (r.status == NeedsApproval ==> t[id].status == NeedsApproval)
    ensures Passed(t, t[id := r])
  {
  }

  lemma KickPasses(t: Table, asset: AssetId, starts: Starts)
    ensures Passed(t, Kicked(t, asset, starts))
  {
  }

  lemma RowThenKickPasses(t: Table, id: RequestId, r: Request, starts: Starts)
    requires id in t && !Stuck(t[id]) && r.status != NeedsApproval
    ensures Passed(t, Kicked(t[id := r], t[id].asset, starts))
  {
    OneRowPasses(t, id, r);
    KickPasses(t[id := r], t[id].asset, starts);
  }

  lemma SettledPasses(t: Table, id: RequestId, verdict: Verdict, starts: Starts)
    requires id in t && !Stuck(t[id])
    ensures Passed(t, Settled(t, id, verdict, starts))
  {
    match verdict
    case GoLive(sha) => RowThenKickPasses(t, id, t[id].(status := Live, publishedCommit := Some(sha)), starts);
    case GiveUp => RowThenKickPasses(t, id, t[id].(status := Failed), starts);
    case _ =>
  }

  lemma SubmitPasses(t: Table, id: RequestId, prepared: Answer<Pull>, poll: Poll, starts: Starts)
    requires id in t && !Stuck(t[id])
    ensures Passed(t, SubmitResult(t, id, prepared, poll, starts))
  {
    match PullFor(t[id], prepared)
    case None => RowThenKickPasses(t, id, t[id].(status := Failed), starts);
    case Some(pull) =>
      var submitted := Submitted(t, id, pull);
      OneRowPasses(t, id, submitted[id]);
      SettledPasses(submitted, id, PublishVerdict(submitted, id, poll), starts);
  }

  lemma AskPasses(t: Table, id: RequestId, ask: Answer<string>, starts: Starts)
    requires id in t && !Stuck(t[id])
    ensures Passed(t, AskResult(t, id, ask, starts))
  {
    RowThenKickPasses(t, id, t[id].(status := Failed), starts);
  }

  lemma RoundPasses(t: Table, id: RequestId, response: Response, o: Outside, starts: Starts)
    requires id in t && t[id].status == MakingChanges
    ensures Passed(t, RoundResult(t, id, response, o, starts))
  {
    hide Passed;
    match VerdictOf(t[id].staged, response, o.repo)
    case Abandon => RowThenKickPasses(t, id, t[id].(status := Failed), starts);
    case Finish(files, blocked) =>
      var saved := Saved(t, id, files);
      OneRowPasses(t, id, saved[id]);
      RowThenKickPasses(saved, id, saved[id].(status := Failed), starts);
      SubmitPasses(saved, id, o.prepared, o.poll, starts);
      PassedTwice(t, saved, FinishResult(saved, id, files, blocked, o.prepared, o.poll, starts));
    case Ask(files) =>
      var saved := Saved(t, id, files);
      OneRowPasses(t, id, saved[id]);
      AskPasses(saved, id, o.ask, starts);
      PassedTwice(t, saved, AskResult(saved, id, o.ask, starts));
  }

  lemma ReversalPasses(t: Table, id: RequestId, poll: Poll, starts: Starts)
    requires UnderReversal(t, id)
    ensures Passed(t, ReversalResult(t, id, poll, starts))
  {
    match ReversalVerdict(poll)
    case GoLive(sha) =>
      RowThenKickPasses(t, id, t[id].(status := Reversed, reversedCommit := Some(sha), reversed := true), starts);
    case _ =>
  }

  lemma PollPasses(t: Table, id: RequestId, poll: Poll, starts: Starts)
    ensures Passed(t, AfterPoll(t, id, poll, starts))
  {
    if UnderReversal(t, id) {
      ReversalPasses(t, id, poll, starts);
    } else if Publishable(t, id) {
      OneRowPasses(t, id, Approved(t, id)[id]);
      SettledPasses(Approved(t, id), id, PublishVerdict(Approved(t, id), id, poll), starts);
    }
  }

  lemma ReversePasses(t: Table, id: RequestId, prepared: Answer<nat>, poll: Poll, starts: Starts)
    ensures Passed(t, ReverseResult(t, id, prepared, poll, starts))
  {
    if !ReversalThrows(t, id, prepared) {
      var begun := ReversalOpened(t, id, ReversalPull(t[id], prepared).value);
      OneRowPasses(t, id, begun[id]);
      ReversalPasses(begun, id, poll, starts);
    }
  }

  lemma MovePasses(t: Table, move: Move)
    ensures Passed(t, After(t, move))
  {
    match move
    case ResumeOne(responseId, reconcile, response, outside, starts) =>
      if id :| Resumes(t, id, responseId, reconcile, response) && After(t, move) == RoundResult(Claimed(t, id), id, response.value, outside, starts) {
        OneRowPasses(t, id, Claimed(t, id)[id]);
        RoundPasses(Claimed(t, id), id, response.value, outside, starts);
      }
    case PollOne(id, poll, starts) => PollPasses(t, id, poll, starts);
    case KickApp(asset, starts) => KickPasses(t, asset, starts);
    case AskReversal(id, prepared, poll, starts) => ReversePasses(t, id, prepared, poll, starts);
    case _ =>
  }

  lemma {:induction false} MadePasses(t: Table, moves: seq<Move>)
    ensures Passed(t, Made(t, moves).rows)
    decreases |moves|
  {
    if moves == [] {
    } else {
      MadePasses(t, moves[..|moves| - 1]);
      MovePasses(Made(t, moves[..|moves| - 1]).rows, moves[|moves| - 1]);
    }
  }
}
