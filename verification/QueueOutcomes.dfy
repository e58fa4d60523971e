/** What the App Builder handlers promise across a whole call: whether the
    app is left working, and what happens to a dead request's pull request. */
module QueueOutcomes {
  import opened Common
  import opened Queue
  import opened QueueRuns
  import opened QueueKick
  import opened QueueResults
  import T = AgentTools

  // ---------------------------------------------------------------------
  // A handler that gives up the app's slot starts the next request

  lemma KickedKeepsAsset(t: Table, id: RequestId, starts: Starts)
    requires id in t && t[id].status != Queued
    ensures id in Kicked(t, t[id].asset, starts) && Kicked(t, t[id].asset, starts)[id] == t[id]
    ensures Served(Kicked(t, t[id].asset, starts), t[id].asset)
  {
    KickServes(t, t[id].asset, starts);
  }

  lemma ActiveServes(t: Table, id: RequestId)
    requires id in t && Active(t[id].status)
    ensures Served(t, t[id].asset)
  {
  }

  lemma FailServes(t: Table, id: RequestId, starts: Starts)
    requires id in t
    ensures id in FailedAnd(t, id, starts) && FailedAnd(t, id, starts)[id] == t[id].(status := Failed)
    ensures Served(FailedAnd(t, id, starts), t[id].asset)
  {
    KickedKeepsAsset(t[id := t[id].(status := Failed)], id, starts);
  }

  lemma PublishServes(t: Table, id: RequestId, poll: Poll, starts: Starts)
    requires id in t
    ensures id in PublishResult(t, id, poll, starts)
    ensures PublishResult(t, id, poll, starts)[id].status == Failed <==> PublishVerdict(t, id, poll).GiveUp?
    ensures PublishResult(t, id, poll, starts)[id].status == Failed ==>
      PublishResult(t, id, poll, starts)[id] == t[id].(status := Failed)
    ensures Served(PublishResult(t, id, poll, starts), t[id].asset)
  {
    var next := PublishResult(t, id, poll, starts);
    match PublishVerdict(t, id, poll)
    case GoLive(sha) => KickedKeepsAsset(t[id := t[id].(status := Live, publishedCommit := Some(sha))], id, starts);
    case GiveUp => FailServes(t, id, starts);
    case _ => ActiveServes(next, id);
  }

  lemma SubmitServes(t: Table, id: RequestId, prepared: Answer<Pull>, poll: Poll, starts: Starts)
    requires id in t && RowOk(t[id]) && t[id].status == MakingChanges
    ensures var next := SubmitResult(t, id, prepared, poll, starts);
      && id in next && Served(next, t[id].asset)
      && (next[id].status == Failed ==> PullToClose(next[id]) == SubmitCloses(t, id, prepared, poll))
  {
    match PullFor(t[id], prepared)
    case None => FailServes(t, id, starts);
    case Some(pull) => PublishServes(Submitted(t, id, pull), id, poll, starts);
  }

  /** Whatever the model answered, the app ends up working or with nothing
      waiting. */
  lemma RoundServes(t: Table, id: RequestId, response: Response, o: Outside, starts: Starts)
    requires id in t && RowOk(t[id]) && t[id].status == MakingChanges
    ensures id in RoundResult(t, id, response, o, starts)
    ensures Served(RoundResult(t, id, response, o, starts), t[id].asset)
  {
    match VerdictOf(t[id].staged, response, o.repo)
    case Abandon => FailServes(t, id, starts);
    case Finish(files, blocked) =>
      FailServes(Saved(t, id, files), id, starts);
      SubmitServes(Saved(t, id, files), id, o.prepared, o.poll, starts);
    case Ask(files) =>
      FailServes(Saved(t, id, files), id, starts);
      if !OutOfLuck(Saved(t, id, files), id, o.ask) { ActiveServes(AskResult(Saved(t, id, files), id, o.ask, starts), id); }
  }

  lemma IdleBut(t: Table, id: RequestId, next: Request)
    requires OneActive(t) && id in t && Active(t[id].status) && !Active(next.status) && next.asset == t[id].asset
    ensures !HasActive(t[id := next], t[id].asset)
    ensures next.status != Queued ==> QueuedIds(t[id := next], t[id].asset) == QueuedIds(t, t[id].asset)
  {
    assert forall a :: a in t && a != id && t[a].asset == t[id].asset ==> !Active(t[a].status);
  }

  /** A reversal that fails, for whatever reason, puts the request back to live
      and stops there: the app is left served if and only if none is waiting. */
  lemma FailedReversalServesIff(t: Table, id: RequestId)
    requires OneActive(t) && id in t && t[id].status == Reversing
    ensures Served(Apply(t, ReversalFailed(id)), t[id].asset) <==> QueuedIds(t, t[id].asset) == {}
  {
    IdleBut(t, id, t[id].(status := Live));
    assert Apply(t, ReversalFailed(id)) == t[id := t[id].(status := Live)];
  }

  /** The one exception: a reversal that fails gives up the slot without
      starting the queue, so the app is left idle with requests waiting
      exactly when a reversal is given up while some are waiting. */
  lemma ReversalServesIff(t: Table, id: RequestId, poll: Poll, starts: Starts)
    requires OneActive(t) && UnderReversal(t, id)
    ensures Served(ReversalResult(t, id, poll, starts), t[id].asset) <==>
      !(ReversalVerdict(poll).GiveUp? && QueuedIds(t, t[id].asset) != {})
  {
    match ReversalVerdict(poll)
    case GoLive(sha) =>
      KickedKeepsAsset(t[id := t[id].(status := Reversed, reversedCommit := Some(sha), reversed := true)], id, starts);
    case GiveUp => IdleBut(t, id, t[id].(status := Live));
    case _ => ActiveServes(ReversalResult(t, id, poll, starts), id);
  }

  lemma ReversalLeavesQueueWaiting(starts: Starts)
    ensures var live := Request(7, 1, Reversing, Some("r"), 1, map[], Some(Pull(5, "b", "u")), Some("c"), Some(6), None, false, false);
      var t: Table := map[1 := live, 2 := NewRequest(7, 2)];
      var closedPull := Poll(Got(Checks(false, None, true, false, false)), Lost(false), Lost(false));
      !Served(ReversalResult(t, 1, closedPull, starts), 7)
  {
    var live := Request(7, 1, Reversing, Some("r"), 1, map[], Some(Pull(5, "b", "u")), Some("c"), Some(6), None, false, false);
    var t: Table := map[1 := live, 2 := NewRequest(7, 2)];
    var closedPull := Poll(Got(Checks(false, None, true, false, false)), Lost(false), Lost(false));
    assert 2 in QueuedIds(t, 7);
    ReversalServesIff(t, 1, closedPull, starts);
  }

  // ---------------------------------------------------------------------
  // A dead request's pull request

  /** The model stopped the run: it asked to be blocked, answered in words
      only, or staged nothing. */
  predicate Stopped(staged: T.Files, response: Response, repo: T.Repo) {
    var v := VerdictOf(staged, response, repo);
    v.Finish? && (v.blocked || v.files == map[])
  }

  /** A request that dies must not leave its unpublished pull request behind.
      The handler closes it unless the run was stopped: a stop in a repair
      round leaves the pull request open. */
  lemma PullLeftOpenIff(t: Table, id: RequestId, response: Response, o: Outside, starts: Starts)
    requires id in t && RowOk(t[id]) && t[id].status == MakingChanges
    requires id in RoundResult(t, id, response, o, starts) && RoundResult(t, id, response, o, starts)[id].status == Failed
    ensures PullToClose(RoundResult(t, id, response, o, starts)[id]) <= RoundCloses(t, id, response, o) <==>
      !(t[id].pull.Some? && Stopped(t[id].staged, response, o.repo))
  {
    match VerdictOf(t[id].staged, response, o.repo)
    case Abandon => FailServes(t, id, starts);
    case Finish(files, blocked) =>
      FailServes(Saved(t, id, files), id, starts);
      SubmitServes(Saved(t, id, files), id, o.prepared, o.poll, starts);
    case Ask(files) => FailServes(Saved(t, id, files), id, starts);
  }

  lemma StopInRepairLeavesPullOpen(o: Outside, starts: Starts)
    ensures var row := Request(7, 1, MakingChanges, Some("r"), 2, map["a" := "b"], Some(Pull(5, "b", "u")), None, None, None, false, true);
      var t: Table := map[1 := row];
      var words := Response(Some(Completed), [], "Please ask a person.");
      && RoundResult(t, 1, words, o, starts)[1].status == Failed
      && RoundResult(t, 1, words, o, starts)[1].pull == Some(Pull(5, "b", "u"))
      && RoundCloses(t, 1, words, o) == {}
  {
    var row := Request(7, 1, MakingChanges, Some("r"), 2, map["a" := "b"], Some(Pull(5, "b", "u")), None, None, None, false, true);
    var t: Table := map[1 := row];
    FailServes(Saved(t, 1, map["a" := "b"]), 1, starts);
  }

  // ---------------------------------------------------------------------
  // Going live

  /** `other` was not live and is now. */
  predicate WentLive(t: Table, next: Table, other: RequestId) {
    other in t && other in next && t[other].status != Live && next[other].status == Live
  }

  lemma KickMakesNoneLive(t: Table, asset: AssetId, starts: Starts, other: RequestId)
    ensures !WentLive(t, Kicked(t, asset, starts), other)
  {
  }

  lemma VerdictGoesLiveIff(t: Table, id: RequestId, poll: Poll, sha: string)
    requires id in t
    ensures PublishVerdict(t, id, poll) == GoLive(sha) <==> MergedWith(poll, sha)
  {
  }

  lemma SettledLive(t: Table, id: RequestId, verdict: Verdict, starts: Starts, other: RequestId)
    requires id in t
    ensures WentLive(t, Settled(t, id, verdict, starts), other) ==>
      other == id && verdict == GoLive(Settled(t, id, verdict, starts)[id].publishedCommit.value)
      && Settled(t, id, verdict, starts)[id].publishedCommit.Some?
    ensures verdict.GoLive? ==>
      var next := Settled(t, id, verdict, starts);
      id in next && next[id].status == Live && next[id].publishedCommit == Some(verdict.sha)
  {
    match verdict
    case GoLive(sha) =>
      KickMakesNoneLive(t[id := t[id].(status := Live, publishedCommit := Some(sha))], t[id].asset, starts, other);
    case GiveUp => KickMakesNoneLive(t[id := t[id].(status := Failed)], t[id].asset, starts, other);
    case _ =>
  }

  /** A publishing poll makes a request live if and only if it is the one
      polled and GitHub's word is that its pull request is merged; the commit
      recorded is the one of that word. No other request becomes live. */
  lemma LiveOnlyWhenMerged(t: Table, id: RequestId, poll: Poll, starts: Starts, other: RequestId, sha: string)
    requires id in t && other in t && t[other].status != Live
    ensures
      var next := PublishResult(t, id, poll, starts);
      && other in next
      && (next[other].status == Live && next[other].publishedCommit == Some(sha) <==>
            other == id && MergedWith(poll, sha))
      && (next[other].status == Live ==> next[other].publishedCommit.Some?)
  {
    var verdict := PublishVerdict(t, id, poll);
    VerdictGoesLiveIff(t, id, poll, sha);
    SettledLive(t, id, verdict, starts, other);
    PublishServes(t, id, poll, starts);
  }

  /** The same for the poll that follows a submitted pull request, if there is
      one to submit. */
  lemma SubmitLiveOnlyWhenMerged(
    t: Table, id: RequestId, prepared: Answer<Pull>, poll: Poll, starts: Starts, other: RequestId, sha: string)
    requires id in t && other in t && t[other].status != Live
    ensures
      var next := SubmitResult(t, id, prepared, poll, starts);
      && other in next
      && (next[other].status == Live && next[other].publishedCommit == Some(sha) <==>
            other == id && prepared.Got? && MergedWith(poll, sha))
      && (next[other].status == Live ==> next[other].publishedCommit.Some?)
  {
    match PullFor(t[id], prepared)
    case None => SettledLive(t, id, GiveUp, starts, other);
    case Some(pull) => LiveOnlyWhenMerged(Submitted(t, id, pull), id, poll, starts, other, sha);
  }

  /** The round ends with files to submit: the model finished, was not
      blocked, and staged something. */
  predicate Submits(staged: T.Files, response: Response, repo: T.Repo) {
    var v := VerdictOf(staged, response, repo);
    v.Finish? && !v.blocked && v.files != map[]
  }

  /** And for a whole round: a request goes live if and only if it is the one
      whose round it is, the round submits, its pull request could be opened,
      and GitHub's word is that it is merged. */
  lemma RoundLiveOnlyWhenMerged(
    t: Table, id: RequestId, response: Response, o: Outside, starts: Starts, other: RequestId, sha: string)
    requires id in t && other in t && t[other].status != Live
    ensures
      var next := RoundResult(t, id, response, o, starts);
      && other in next
      && (next[other].status == Live && next[other].publishedCommit == Some(sha) <==>
            other == id && Submits(t[id].staged, response, o.repo) && o.prepared.Got? && MergedWith(o.poll, sha))
      && (next[other].status == Live ==> next[other].publishedCommit.Some?)
  {
    hide SubmitResult;
    match VerdictOf(t[id].staged, response, o.repo)
    case Abandon => SettledLive(t, id, GiveUp, starts, other);
    case Finish(files, blocked) =>
      SettledLive(Saved(t, id, files), id, GiveUp, starts, other);
      SubmitLiveOnlyWhenMerged(Saved(t, id, files), id, o.prepared, o.poll, starts, other, sha);
    case Ask(files) => SettledLive(Saved(t, id, files), id, GiveUp, starts, other);
  }

  // ---------------------------------------------------------------------
  // Nothing outside the app is touched

  lemma RoundStaysInApp(t: Table, id: RequestId, response: Response, o: Outside, starts: Starts, other: RequestId)
    requires id in t && other in t && t[other].asset != t[id].asset
    ensures other in RoundResult(t, id, response, o, starts)
    ensures RoundResult(t, id, response, o, starts)[other] == t[other]
  {
  }
}
