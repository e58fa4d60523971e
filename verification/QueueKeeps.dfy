/** What no handler call changes, in any number and order: stuck requests and
    the queues behind them, a reversal whose pull request was closed, and the
    limits on staged files. */
module QueueKeeps {
  import opened Common
  import opened Queue
  import opened QueueRuns
  import opened QueueKick
  import opened QueueResults
  import opened QueueMoves
  import T = AgentTools

  // ---------------------------------------------------------------------
  // The rows no move can move

  const NO_STARTS: Starts := (id: RequestId) => Lost(false)
  const NO_POLL := Poll(Lost(false), Lost(false), Lost(false))
  const NOTHING_OUTSIDE := Outside(
    T.Repo(false, (p: string) => None, (t: string) => 0, (f: T.Files) => 0), Lost(false), Lost(false), NO_POLL)

  /** The moves of a reconcile pass. */
  predicate OfReconcile(move: Move) {
    match move
    case ResumeOne(_, reconcile, _, _, _) => reconcile
    case Submit(_, _, _) => false
    case AskReversal(_, _, _, _) => false
    case _ => true
  }

  /** The model's answer has ended without a result. */
  lemma EndedFails(t: Table, id: RequestId) returns (move: Move)
    requires UniqueResponses(t) && id in t && t[id].status == WaitingOpenai && t[id].responseId.Some?
    ensures OfReconcile(move) && id in After(t, move) && After(t, move)[id].status == Failed
  {
    hide After;
    var response := Response(Some(Ended), [], "");
    move := ResumeOne(t[id].responseId.value, true, Some(response), NOTHING_OUTSIDE, NO_STARTS);
    ResumedRow(t, id, move);
    assert FailedAnd(Claimed(t, id), id, NO_STARTS)[id].status == Failed;
  }

  /** A move of the pass that changes a row that is active and not stuck. */
  lemma ActiveCanMove(t: Table, id: RequestId) returns (move: Move)
    requires Inv(t) && id in t && Active(t[id].status) && !Stuck(t[id])
    ensures OfReconcile(move) && id in After(t, move) && After(t, move)[id] != t[id]
  {
    assert RowOk(t[id]);
    match t[id].status
    case WaitingOpenai => move := EndedFails(t, id);
    case Publishing =>
      move := PollOne(id, NO_POLL, NO_STARTS);
      assert FailedAnd(Approved(t, id), id, NO_STARTS)[id].status == Failed;
    case Reversing => move := PollOne(id, NO_POLL, NO_STARTS);
    case _ => move := Recover({id});
  }

  /** Reconcile can move every active row but these: the ones preparing a
      pull request, and the ones reversing without a reversal pull request.
      And no other handler can move those either. */
  lemma StuckIff(t: Table, id: RequestId)
    requires Inv(t) && id in t && Active(t[id].status)
    ensures Stuck(t[id]) <==> forall move | OfReconcile(move) :: id in After(t, move) && After(t, move)[id] == t[id]
    ensures Stuck(t[id]) <==> forall move :: id in After(t, move) && After(t, move)[id] == t[id]
  {
    if Stuck(t[id]) {
      forall move ensures id in After(t, move) && After(t, move)[id] == t[id] {
        MovePasses(t, move);
      }
    } else {
      var move := ActiveCanMove(t, id);
    }
  }

  /** Row `id` is stuck and `b` waits behind it. */
  predicate Blocks(t: Table, id: RequestId, b: RequestId) {
    id in t && Stuck(t[id]) && IsQueued(t, b, t[id].asset)
  }

  /** While a row of the app is stuck, its queued requests keep waiting. */
  lemma StuckBlocks(t: Table, id: RequestId, b: RequestId, move: Move)
    requires Blocks(t, id, b)
    ensures b in After(t, move) && After(t, move)[b] == t[b]
  {
    match move
    case KickApp(asset, starts) => KickSpares(t, id, b, asset, starts);
    case ResumeOne(responseId, reconcile, response, outside, starts) =>
      if i :| Resumes(t, i, responseId, reconcile, response) && After(t, move) == RoundResult(Claimed(t, i), i, response.value, outside, starts) {
        RoundSpares(Claimed(t, i), i, id, b, response.value, outside, starts);
      }
    case PollOne(i, poll, starts) =>
      if UnderReversal(t, i) {
        ReversalSpares(t, i, id, b, poll, starts);
      } else if Publishable(t, i) {
        SettledSpares(Approved(t, i), i, id, b, PublishVerdict(Approved(t, i), i, poll), starts);
      }
    case AskReversal(i, prepared, poll, starts) =>
      if !ReversalThrows(t, i, prepared) {
        ReversalSpares(ReversalOpened(t, i, ReversalPull(t[i], prepared).value), i, id, b, poll, starts);
      }
    case _ =>
  }

  lemma KickSpares(t: Table, id: RequestId, b: RequestId, asset: AssetId, starts: Starts)
    requires Blocks(t, id, b)
    ensures Kicked(t, asset, starts)[b] == t[b]
  {
    assert asset == t[id].asset ==> HasActive(t, asset);
  }

  lemma SettledSpares(t: Table, i: RequestId, id: RequestId, b: RequestId, verdict: Verdict, starts: Starts)
    requires i in t && i != id && i != b && Blocks(t, id, b)
    ensures b in Settled(t, i, verdict, starts) && Settled(t, i, verdict, starts)[b] == t[b]
  {
    match verdict
    case GoLive(sha) => KickSpares(t[i := t[i].(status := Live, publishedCommit := Some(sha))], id, b, t[i].asset, starts);
    case GiveUp => KickSpares(t[i := t[i].(status := Failed)], id, b, t[i].asset, starts);
    case _ =>
  }

  lemma RoundSpares(
    t: Table, i: RequestId, id: RequestId, b: RequestId, response: Response, o: Outside, starts: Starts)
    requires i in t && i != id && i != b && Blocks(t, id, b)
    ensures b in RoundResult(t, i, response, o, starts) && RoundResult(t, i, response, o, starts)[b] == t[b]
  {
    match VerdictOf(t[i].staged, response, o.repo)
    case Abandon => SettledSpares(t, i, id, b, GiveUp, starts);
    case Finish(files, blocked) =>
      var saved := Saved(t, i, files);
      SettledSpares(saved, i, id, b, GiveUp, starts);
      var pull := PullFor(saved[i], o.prepared);
      if pull.Some? {
        var submitted := Submitted(saved, i, pull.value);
        SettledSpares(submitted, i, id, b, PublishVerdict(submitted, i, o.poll), starts);
      }
    case Ask(files) => SettledSpares(Saved(t, i, files), i, id, b, GiveUp, starts);
  }

  lemma ReversalSpares(t: Table, i: RequestId, id: RequestId, b: RequestId, poll: Poll, starts: Starts)
    requires UnderReversal(t, i) && i != id && i != b && Blocks(t, id, b)
    ensures b in ReversalResult(t, i, poll, starts) && ReversalResult(t, i, poll, starts)[b] == t[b]
  {
    match ReversalVerdict(poll)
    case GoLive(sha) =>
      KickSpares(t[i := t[i].(status := Reversed, reversedCommit := Some(sha), reversed := true)], id, b, t[i].asset, starts);
    case _ =>
  }

  /** Whatever handlers are called, however often, a stuck request holds its
      app's slot and every request waiting behind it keeps waiting. */
  lemma {:induction false} StuckForever(t: Table, id: RequestId, b: RequestId, moves: seq<Move>)
    requires Blocks(t, id, b)
    ensures
      var next := Made(t, moves).rows;
      id in next && next[id] == t[id] && b in next && next[b] == t[b]
    decreases |moves|
  {
    if moves == [] {
    } else {
      var init := moves[..|moves| - 1];
      StuckForever(t, id, b, init);
      MovePasses(Made(t, init).rows, moves[|moves| - 1]);
      StuckBlocks(Made(t, init).rows, id, b, moves[|moves| - 1]);
    }
  }

  // ---------------------------------------------------------------------
  // What a handler touches besides its own row

  /** Row `i` and queued rows may change, but no row's staged files. */
  ghost predicate Touches(t: Table, next: Table, i: RequestId) {
    && t.Keys == next.Keys
    && forall a :: a in t ==>
         next[a].staged == t[a].staged && (a != i && t[a].status != Queued ==> next[a] == t[a])
  }

  lemma KickTouches(t: Table, i: RequestId, r: Request, asset: AssetId, starts: Starts)
    requires i in t && r.staged == t[i].staged
    ensures Touches(t, t[i := r], i) && Touches(t, Kicked(t[i := r], asset, starts), i)
  {
  }

  lemma SettledTouches(t: Table, i: RequestId, verdict: Verdict, starts: Starts)
    requires i in t
    ensures Touches(t, Settled(t, i, verdict, starts), i)
  {
    hide Kicked, Touches;
    match verdict
    case GoLive(sha) => KickTouches(t, i, t[i].(status := Live, publishedCommit := Some(sha)), t[i].asset, starts);
    case RepairWith(response) =>
      KickTouches(t, i, t[i].(status := WaitingOpenai, responseId := Some(response), turn := t[i].turn + 1), 0, starts);
    case Wait => KickTouches(t, i, t[i].(status := Publishing), 0, starts);
    case GiveUp => KickTouches(t, i, t[i].(status := Failed), t[i].asset, starts);
  }

  lemma SubmitTouches(t: Table, i: RequestId, prepared: Answer<Pull>, poll: Poll, starts: Starts)
    requires i in t
    ensures Touches(t, SubmitResult(t, i, prepared, poll, starts), i)
  {
    hide Settled;
    match PullFor(t[i], prepared)
    case None => KickTouches(t, i, t[i].(status := Failed), t[i].asset, starts);
    case Some(pull) =>
      var submitted := Submitted(t, i, pull);
      SettledTouches(submitted, i, PublishVerdict(submitted, i, poll), starts);
  }

  lemma FinishTouches(t: Table, i: RequestId, files: T.Files, blocked: bool, o: Outside, starts: Starts)
    requires i in t
    ensures Touches(t, FinishResult(t, i, files, blocked, o.prepared, o.poll, starts), i)
  {
    hide SubmitResult, Kicked;
    KickTouches(t, i, t[i].(status := Failed), t[i].asset, starts);
    SubmitTouches(t, i, o.prepared, o.poll, starts);
  }

  lemma AskTouches(t: Table, i: RequestId, ask: Answer<string>, starts: Starts)
    requires i in t
    ensures Touches(t, AskResult(t, i, ask, starts), i)
  {
    hide Kicked;
    KickTouches(t, i, t[i].(status := Failed), t[i].asset, starts);
  }

  /** The files a round leaves with its request. */
  function FilesOf(staged: T.Files, response: Response, repo: T.Repo): T.Files {
    match VerdictOf(staged, response, repo)
    case Abandon => staged
    case Finish(files, _) => files
    case Ask(files) => files
  }

  /** A round stages those files with its own row and none with any other. */
  lemma RoundTouches(t: Table, i: RequestId, response: Response, o: Outside, starts: Starts)
    requires i in t
    ensures
      var files := FilesOf(t[i].staged, response, o.repo);
      Touches(t[i := t[i].(staged := files)], RoundResult(t, i, response, o, starts), i)
  {
    hide FinishResult, AskResult, Kicked, VerdictOf;
    match VerdictOf(t[i].staged, response, o.repo)
    case Abandon =>
      assert t[i := t[i].(staged := t[i].staged)] == t;
      KickTouches(t, i, t[i].(status := Failed), t[i].asset, starts);
    case Finish(files, blocked) => FinishTouches(Saved(t, i, files), i, files, blocked, o, starts);
    case Ask(files) => AskTouches(Saved(t, i, files), i, o.ask, starts);
  }

  lemma ReversalTouches(t: Table, i: RequestId, poll: Poll, starts: Starts)
    requires i in t
    ensures Touches(t, ReversalResult(t, i, poll, starts), i)
  {
    hide Kicked;
    match ReversalVerdict(poll)
    case GoLive(sha) =>
      KickTouches(t, i, t[i].(status := Reversed, reversedCommit := Some(sha), reversed := true), t[i].asset, starts);
    case _ =>
  }

  lemma PollTouches(t: Table, i: RequestId, poll: Poll, starts: Starts)
    ensures Touches(t, AfterPoll(t, i, poll, starts), i)
  {
    hide Settled, ReversalResult;
    if UnderReversal(t, i) {
      ReversalTouches(t, i, poll, starts);
    } else if Publishable(t, i) {
      SettledTouches(Approved(t, i), i, PublishVerdict(Approved(t, i), i, poll), starts);
    }
  }

  lemma ReverseTouches(t: Table, i: RequestId, prepared: Answer<nat>, poll: Poll, starts: Starts)
    ensures Touches(t, ReverseResult(t, i, prepared, poll, starts), i)
  {
    hide ReversalResult;
    if !ReversalThrows(t, i, prepared) {
      ReversalTouches(ReversalOpened(t, i, ReversalPull(t[i], prepared).value), i, poll, starts);
    }
  }

  // ---------------------------------------------------------------------
  // A reversal whose pull request was closed

  /** GitHub's word that the pull request was closed without being merged. */
  predicate SaysClosed(poll: Poll) {
    poll.checks.Got? && !poll.checks.value.merged && poll.checks.value.closed
  }

  /** The answer a move gets about the reversal pull request of `id`. */
  function AnswerAbout(move: Move, id: RequestId): Option<Poll> {
    match move
    case PollOne(i, poll, _) => if i == id then Some(poll) else None
    case AskReversal(i, _, poll, _) => if i == id then Some(poll) else None
    case _ => None
  }

  predicate KnowsClosed(move: Move, id: RequestId) {
    AnswerAbout(move, id).Some? ==> SaysClosed(AnswerAbout(move, id).value)
  }

  const SHA: string := seq(40, _ => 'a')

  /** Published, and with a reversal pull request on record. */
  predicate OnceReversed(t: Table, id: RequestId) {
    id in t && t[id].status in {Live, Reversing} && t[id].reversalPull.Some?
  }

  /** A move that does not ask about such a request leaves it as it is. */
  lemma OnlyAsked(t: Table, id: RequestId, move: Move)
    requires OnceReversed(t, id) && AnswerAbout(move, id).None?
    ensures id in After(t, move) && After(t, move)[id] == t[id]
  {
    hide RoundResult, AfterPoll, ReverseResult;
    match move
    case ResumeOne(responseId, reconcile, response, o, starts) =>
      if i :| Resumes(t, i, responseId, reconcile, response) && After(t, move) == RoundResult(Claimed(t, i), i, response.value, o, starts) {
        RoundTouches(Claimed(t, i), i, response.value, o, starts);
      }
    case PollOne(i, poll, starts) => PollTouches(t, i, poll, starts);
    case AskReversal(i, prepared, poll, starts) => ReverseTouches(t, i, prepared, poll, starts);
    case _ =>
  }

  /** What a reversal poll of the request makes of its row. */
  function Polled(r: Request, poll: Poll): Request {
    match ReversalVerdict(poll)
    case GoLive(sha) => r.(status := Reversed, reversedCommit := Some(sha), reversed := true)
    case GiveUp => r.(status := Live)
    case _ => r.(status := Reversing)
  }

  lemma AskedRow(t: Table, id: RequestId, poll: Poll, starts: Starts)
    requires id in t && t[id].status == Reversing
    ensures id in ReversalResult(t, id, poll, starts) && ReversalResult(t, id, poll, starts)[id] == Polled(t[id], poll)
  {
  }

  /** The move reaches the reversal's pull request. */
  predicate Asks(t: Table, id: RequestId, move: Move)
    requires OnceReversed(t, id)
  {
    && AnswerAbout(move, id).Some?
    && (if move.PollOne? then t[id].status == Reversing else CanReverse(t, id))
  }

  lemma AskedOrKept(t: Table, id: RequestId, move: Move)
    requires OnceReversed(t, id)
    ensures id in After(t, move)
    ensures After(t, move)[id] ==
      if Asks(t, id, move) then Polled(t[id], AnswerAbout(move, id).value) else t[id]
  {
    hide ReversalResult, PublishResult, RoundResult;
    if AnswerAbout(move, id).None? {
      OnlyAsked(t, id, move);
    } else if Asks(t, id, move) {
      var begun := if move.PollOne? then t else ReversalOpened(t, id, t[id].reversalPull.value);
      AskedRow(begun, id, move.poll, move.starts);
    }
  }

  /** Such a request is reversed by a move if and only if the move asks about
      it and is told that its reversal is merged. */
  lemma ReversedIff(t: Table, id: RequestId, move: Move)
    requires OnceReversed(t, id)
    ensures id in After(t, move)
    ensures After(t, move)[id].status == Reversed <==>
      Asks(t, id, move) && exists sha :: MergedWith(AnswerAbout(move, id).value, sha)
  {
    hide After;
    AskedOrKept(t, id, move);
    if Asks(t, id, move) { ReversesIff(AnswerAbout(move, id).value); }
  }

  lemma ReversesIff(poll: Poll)
    ensures ReversalVerdict(poll).GoLive? <==> exists sha :: MergedWith(poll, sha)
  {
    if ReversalVerdict(poll).GoLive? { assert MergedWith(poll, ReversalVerdict(poll).sha); }
  }

  lemma ClosedStays(t: Table, id: RequestId, move: Move)
    requires OnceReversed(t, id) && KnowsClosed(move, id)
    ensures id in After(t, move) && After(t, move)[id] in {t[id], t[id].(status := Live)}
  {
    hide After;
    AskedOrKept(t, id, move);
  }

  /** The number of a reversal pull request is never replaced, so once GitHub
      has closed it every later attempt asks about the closed one: the
      request is never reversed, nothing else about it changes, and if it was
      live it stays live. */
  lemma {:induction false} ClosedReversalIsFinal(t: Table, id: RequestId, moves: seq<Move>)
    requires OnceReversed(t, id) && forall m :: m in moves ==> KnowsClosed(m, id)
    ensures id in Made(t, moves).rows && Made(t, moves).rows[id] in {t[id], t[id].(status := Live)}
    decreases |moves|
  {
    if moves == [] {
    } else {
      var init, last := moves[..|moves| - 1], moves[|moves| - 1];
      ClosedReversalIsFinal(t, id, init);
      assert last in moves;
      ClosedStays(Made(t, init).rows, id, last);
    }
  }

  /** For example: a live request whose reversal was closed before. Asking for
      its reversal again leaves it live, whatever could be prepared. */
  lemma ClosedReversalAgain(prepared: Answer<nat>, starts: Starts)
    ensures
      var row := NewRequest(7, 1).(
        status := Live, pull := Some(Pull(5, "b", "u")), publishedCommit := Some(SHA), reversalPull := Some(6));
      var t: Table := map[1 := row];
      var closedPull := Poll(Got(Checks(false, None, true, false, false)), Got(SHA), Got(SHA));
      Inv(t) && CanReverse(t, 1) && After(t, AskReversal(1, prepared, closedPull, starts)) == t
  {
    var row := NewRequest(7, 1).(
      status := Live, pull := Some(Pull(5, "b", "u")), publishedCommit := Some(SHA), reversalPull := Some(6));
    var t: Table := map[1 := row];
    var closedPull := Poll(Got(Checks(false, None, true, false, false)), Got(SHA), Got(SHA));
    assert Sha(SHA);
    assert ReversalOpened(t, 1, 6)[1 := ReversalOpened(t, 1, 6)[1].(status := Live)] == t;
  }

  // ---------------------------------------------------------------------
  // Staged files

  /** Every row's staged files keep to the rules on paths and sizes. */
  ghost predicate AllStagedOk(t: Table, repo: T.Repo) {
    forall id :: id in t ==> T.StagedOk(t[id].staged, repo)
  }

  /** Both measure a text alike. */
  ghost predicate SameBytes(a: T.Repo, b: T.Repo) { forall text :: a.bytes(text) == b.bytes(text) }

  lemma FilesStayOk(staged: T.Files, response: Response, repo: T.Repo)
    requires T.StagedOk(staged, repo)
    ensures T.StagedOk(FilesOf(staged, response, repo), repo)
  {
    hide T.StagedOk, T.FilesAfter, T.RoundOf;
    T.RoundKeepsStagedOk(staged, response.calls, repo);
  }

  lemma SameRules(files: T.Files, a: T.Repo, b: T.Repo)
    requires SameBytes(a, b) && T.StagedOk(files, a)
    ensures T.StagedOk(files, b)
  {
  }

  lemma RoundStagesOk(t: Table, id: RequestId, response: Response, o: Outside, starts: Starts, repo: T.Repo)
    requires id in t && AllStagedOk(t, repo) && SameBytes(o.repo, repo)
    ensures AllStagedOk(RoundResult(t, id, response, o, starts), repo)
  {
    hide T.StagedOk, RoundResult;
    SameRules(t[id].staged, repo, o.repo);
    FilesStayOk(t[id].staged, response, o.repo);
    SameRules(FilesOf(t[id].staged, response, o.repo), o.repo, repo);
    RoundTouches(t, id, response, o, starts);
  }

  lemma MoveStagesOk(t: Table, move: Move, repo: T.Repo)
    requires AllStagedOk(t, repo) && (move.ResumeOne? ==> SameBytes(move.outside.repo, repo))
    ensures AllStagedOk(After(t, move), repo)
  {
    hide T.StagedOk, RoundResult, AfterPoll, ReverseResult;
    match move
    case ResumeOne(responseId, reconcile, response, o, starts) =>
      if id :| Resumes(t, id, responseId, reconcile, response) && After(t, move) == RoundResult(Claimed(t, id), id, response.value, o, starts) {
        RoundStagesOk(Claimed(t, id), id, response.value, o, starts, repo);
      }
    case PollOne(i, poll, starts) => PollTouches(t, i, poll, starts);
    case AskReversal(i, prepared, poll, starts) => ReverseTouches(t, i, prepared, poll, starts);
    case Submit(_, _, _) => T.NothingStaged(repo);
    case _ =>
  }

  /** No call of any handler, whatever the model asked for, leaves a row whose
      staged files break the rules. */
  lemma {:induction false} StagedOkForever(t: Table, moves: seq<Move>, repo: T.Repo)
    requires AllStagedOk(t, repo)
    requires forall m :: m in moves && m.ResumeOne? ==> SameBytes(m.outside.repo, repo)
    ensures AllStagedOk(Made(t, moves).rows, repo)
    decreases |moves|
  {
    if moves == [] {
    } else {
      var init, last := moves[..|moves| - 1], moves[|moves| - 1];
      StagedOkForever(t, init, repo);
      assert last in moves;
      MoveStagesOk(Made(t, init).rows, last, repo);
    }
  }
}
