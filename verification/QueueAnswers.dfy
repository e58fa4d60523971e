/** How each kind of answer leaves a request: the row after a publishing poll, a
    reversal poll or a model response, said on the answers and on the columns
    of the row. */
module QueueAnswers {
  import opened Common
  import opened Queue
  import opened QueueRuns
  import opened QueueKick
  import opened QueueResults
  import opened QueueOutcomes
  import T = AgentTools

  // ---------------------------------------------------------------------
  // Statuses, turns and commits

  /** Waiting, finished and approval-seeking requests leave the slot free. */
  lemma ActiveMeans(s: Status)
    ensures !Active(s) <==> s == Queued || s == NeedsApproval || s == Live || s == Reversed || s == Failed
  {
  }

  /** A commit: from 40 to 64 lower-case hexadecimal digits. */
  ghost predicate Commit(s: string) {
    |s| >= 40 && |s| <= 64 && forall c :: c in s ==> c in "0123456789abcdef"
  }

  lemma CommitIff(s: string)
    ensures Sha(s) <==> Commit(s)
  {
    forall c ensures c in "0123456789abcdef" <==> '0' <= c <= '9' || 'a' <= c <= 'f' { HexDigit(c); }
    assert forall i :: 0 <= i < |s| ==> s[i] in s;
  }

  lemma HexDigit(c: char)
    ensures c in "0123456789abcdef" <==> '0' <= c <= '9' || 'a' <= c <= 'f'
  {
    var digits := "0123456789abcdef";
    if '0' <= c <= '9' { assert digits[c as int - '0' as int] == c; }
    if 'a' <= c <= 'f' { assert digits[10 + c as int - 'a' as int] == c; }
  }

  /** A response id that some other row already carries. */
  ghost predicate Taken(t: Table, id: RequestId, response: string) {
    exists other :: other in t && other != id && t[other].responseId == Some(response)
  }

  // ---------------------------------------------------------------------
  // A publishing poll

  /** Not merged, not closed, nothing failing. */
  predicate Clear(c: Checks) { !c.merged && !c.closed && !c.failing }

  predicate Failing(c: Checks) { !c.merged && !c.closed && c.failing }

  /** GitHub's word that the pull request is merged with this commit: it said
      so, or nothing was open, failing or pending and it merged it now. */
  ghost predicate Merged(poll: Poll, sha: string) {
    && Commit(sha)
    && exists c :: poll.checks == Got(c)
         && ((c.merged && c.mergeSha == Some(sha)) || (Clear(c) && !c.pending && poll.merge == Got(sha)))
  }

  /** Checks are still running, or the service's error reads as if they were. */
  ghost predicate Unsettled(t: Table, id: RequestId, poll: Poll)
    requires id in t
  {
    || poll.checks == Lost(true)
    || exists c :: poll.checks == Got(c)
         && (|| (Clear(c) && c.pending)
             || (Clear(c) && !c.pending && poll.merge == Lost(true))
             || (Failing(c) && t[id].turn < 100 && poll.repair == Lost(true)))
  }

  /** Checks fail, a turn is left, and the model took the repair up under a
      new response id. */
  ghost predicate Repairs(t: Table, id: RequestId, poll: Poll, response: string)
    requires id in t
  {
    exists c :: poll.checks == Got(c)
      && Failing(c) && t[id].turn < 100 && poll.repair == Got(response) && !Taken(t, id, response)
  }

  /** What ends a request: an error that reads as nothing else, a merge or a
      merged pull request without a proper commit, a closed pull request, or
      failing checks with no turn or no new response for them. */
  ghost predicate Ends(t: Table, id: RequestId, poll: Poll)
    requires id in t
  {
    || poll.checks == Lost(false)
    || exists c :: poll.checks == Got(c)
         && (|| (c.merged && (c.mergeSha == None || !Commit(c.mergeSha.value)))
             || (!c.merged && c.closed)
             || (Clear(c) && !c.pending && (poll.merge == Lost(false) || (poll.merge.Got? && !Commit(poll.merge.value))))
             || (Failing(c)
                 && (t[id].turn >= 100 || poll.repair == Lost(false)
                     || (poll.repair.Got? && Taken(t, id, poll.repair.value)))))
  }

  lemma TakenIff(t: Table, id: RequestId, response: string)
    ensures ResponseUsed(t, id, response) <==> Taken(t, id, response)
  {
  }

  lemma VerdictIff(t: Table, id: RequestId, poll: Poll, response: string, sha: string)
    requires id in t
    ensures PublishVerdict(t, id, poll) == GoLive(sha) <==> Merged(poll, sha)
    ensures PublishVerdict(t, id, poll) == RepairWith(response) <==> Repairs(t, id, poll, response)
    ensures PublishVerdict(t, id, poll) == Wait <==> Unsettled(t, id, poll)
    ensures PublishVerdict(t, id, poll) == GiveUp <==> Ends(t, id, poll)
  {
    hide ResponseUsed, Taken, Sha, Commit;
    forall s ensures Sha(s) <==> Commit(s) { CommitIff(s); }
    forall r ensures ResponseUsed(t, id, r) <==> Taken(t, id, r) { TakenIff(t, id, r); }
  }

  lemma SettledRow(t: Table, id: RequestId, verdict: Verdict, starts: Starts)
    requires id in t
    ensures
      var next := Settled(t, id, verdict, starts);
      && id in next
      && next[id] ==
         match verdict
         case GoLive(sha) => t[id].(status := Live, publishedCommit := Some(sha))
         case RepairWith(response) =>
           t[id].(status := WaitingOpenai, responseId := Some(response), turn := t[id].turn + 1)
         case Wait => t[id].(status := Publishing)
         case GiveUp => t[id].(status := Failed)
  {
    hide Kicked;
    match verdict
    case GoLive(sha) => KickedKeepsAsset(t[id := t[id].(status := Live, publishedCommit := Some(sha))], id, starts);
    case GiveUp => KickedKeepsAsset(t[id := t[id].(status := Failed)], id, starts);
    case _ =>
  }

  /** Every publishing poll ends in exactly one of four ways, each by its
      answers alone: live with the merged commit, back at the model under the
      new response id with one more turn, still publishing, or failed. No
      other column of the row moves. */
  lemma PublishEnds(t: Table, id: RequestId, poll: Poll, starts: Starts)
    requires id in t
    ensures
      var next := PublishResult(t, id, poll, starts);
      && id in next
      && (next[id].status == Live <==> exists sha :: Merged(poll, sha))
      && (forall sha :: Merged(poll, sha) ==> next[id] == t[id].(status := Live, publishedCommit := Some(sha)))
      && (next[id].status == WaitingOpenai <==> exists response :: Repairs(t, id, poll, response))
      && (forall response :: Repairs(t, id, poll, response) ==>
            next[id] == t[id].(status := WaitingOpenai, responseId := Some(response), turn := t[id].turn + 1))
      && (next[id].status == Publishing <==> Unsettled(t, id, poll))
      && (Unsettled(t, id, poll) ==> next[id] == t[id].(status := Publishing))
      && (next[id].status == Failed <==> Ends(t, id, poll))
      && (Ends(t, id, poll) ==> next[id] == t[id].(status := Failed))
  {
    hide PublishVerdict, Settled, Merged, Repairs, Unsettled, Ends;
    var verdict := PublishVerdict(t, id, poll);
    SettledRow(t, id, verdict, starts);
    forall response, sha
      ensures verdict == GoLive(sha) <==> Merged(poll, sha)
      ensures verdict == RepairWith(response) <==> Repairs(t, id, poll, response)
    {
      VerdictIff(t, id, poll, response, sha);
    }
    VerdictIff(t, id, poll, "", "");
    if verdict.GoLive? { assert Merged(poll, verdict.sha); }
    if verdict.RepairWith? { assert Repairs(t, id, poll, verdict.response); }
  }

  /** Its pull request is closed exactly when it failed with one that was not
      published. */
  lemma PublishClosesIff(t: Table, id: RequestId, poll: Poll, number: nat)
    requires id in t
    ensures number in PublishCloses(t, id, poll) <==>
      && Ends(t, id, poll) && t[id].publishedCommit == None
      && exists branch, url :: t[id].pull == Some(Pull(number, branch, url))
  {
    hide PublishVerdict, Ends;
    VerdictIff(t, id, poll, "", "");
    ClosesIff(t[id], number);
  }

  lemma ClosesIff(r: Request, number: nat)
    ensures number in PullToClose(r) <==>
      r.publishedCommit == None && exists branch, url :: r.pull == Some(Pull(number, branch, url))
  {
    if number in PullToClose(r) {
      assert r.pull == Some(Pull(number, r.pull.value.branch, r.pull.value.url));
    }
  }

  // ---------------------------------------------------------------------
  // A reversal poll

  ghost predicate ReversalUnsettled(poll: Poll) {
    || poll.checks == Lost(true)
    || exists c :: poll.checks == Got(c) && Clear(c) && (c.pending || poll.merge == Lost(true))
  }

  ghost predicate ReversalEnds(poll: Poll) {
    || poll.checks == Lost(false)
    || exists c :: poll.checks == Got(c)
         && (|| (c.merged && (c.mergeSha == None || !Commit(c.mergeSha.value)))
             || (!c.merged && (c.closed || c.failing))
             || (Clear(c) && !c.pending && (poll.merge == Lost(false) || (poll.merge.Got? && !Commit(poll.merge.value)))))
  }

  lemma ReversalVerdictIff(poll: Poll, sha: string)
    ensures ReversalVerdict(poll) == GoLive(sha) <==> Merged(poll, sha)
    ensures ReversalVerdict(poll) == Wait <==> ReversalUnsettled(poll)
    ensures ReversalVerdict(poll) == GiveUp <==> ReversalEnds(poll)
    ensures !ReversalVerdict(poll).RepairWith?
  {
    hide Sha, Commit;
    forall s ensures Sha(s) <==> Commit(s) { CommitIff(s); }
  }

  /** Every reversal poll ends in exactly one of three ways: reversed with the
      merged commit, still reversing, or live again. */
  lemma ReversalEndsIn(t: Table, id: RequestId, poll: Poll, starts: Starts)
    requires id in t
    ensures
      var next := ReversalResult(t, id, poll, starts);
      && id in next
      && (next[id].status == Reversed <==> exists sha :: Merged(poll, sha))
      && (forall sha :: Merged(poll, sha) ==>
            next[id] == t[id].(status := Reversed, reversedCommit := Some(sha), reversed := true))
      && (next[id].status == Reversing <==> ReversalUnsettled(poll))
      && (ReversalUnsettled(poll) ==> next[id] == t[id].(status := Reversing))
      && (next[id].status == Live <==> ReversalEnds(poll))
      && (ReversalEnds(poll) ==> next == t[id := t[id].(status := Live)])
  {
    hide ReversalVerdict, Merged, ReversalUnsettled, ReversalEnds, Kicked;
    var verdict := ReversalVerdict(poll);
    forall sha ensures verdict == GoLive(sha) <==> Merged(poll, sha) { ReversalVerdictIff(poll, sha); }
    ReversalVerdictIff(poll, "");
    if verdict.GoLive? {
      assert Merged(poll, verdict.sha);
      KickedKeepsAsset(t[id := t[id].(status := Reversed, reversedCommit := Some(verdict.sha), reversed := true)], id, starts);
    }
  }

  /** A reversal is begun exactly for a live request with a pull request, no
      other request of whose app is active, once it has a reversal pull
      request or one could be prepared; and then with that one. */
  lemma ReversalBegunIff(t: Table, id: RequestId, prepared: Answer<nat>)
    ensures !ReversalThrows(t, id, prepared) <==>
      && id in t && t[id].status == Live && t[id].pull != None
      && (forall other :: other in t && other != id && t[other].asset == t[id].asset ==> !Active(t[other].status))
      && (t[id].reversalPull != None || prepared.Got?)
    ensures !ReversalThrows(t, id, prepared) ==>
      ReversalPull(t[id], prepared) == Some(if t[id].reversalPull.Some? then t[id].reversalPull.value else prepared.value)
  {
  }

  // ---------------------------------------------------------------------
  // A model response

  ghost predicate BadCall(calls: seq<T.Call>) {
    exists i :: 0 <= i < |calls| && (calls[i].id == None || calls[i].args == None)
  }

  /** The last call that finishes is the n-th. */
  ghost predicate FinishesAt(calls: seq<T.Call>, n: nat, blocked: bool) {
    && n < |calls| && calls[n].args == Some(T.Args.Finish(blocked))
    && forall k :: n < k < |calls| ==> calls[k].args.Some? && !calls[k].args.value.Finish?
  }

  ghost predicate NeverFinishes(calls: seq<T.Call>) {
    forall k :: 0 <= k < |calls| ==> calls[k].args.Some? ==> !calls[k].args.value.Finish?
  }

  /** The tool loop throws on the first incomplete call; otherwise the last
      finishing call decides, and without one the run goes on. */
  lemma {:induction false} RoundIff(calls: seq<T.Call>, blocked: bool)
    ensures T.RoundOf(calls) == T.Broken <==> BadCall(calls)
    ensures T.RoundOf(calls) == T.Done(blocked) <==> !BadCall(calls) && exists n :: FinishesAt(calls, n, blocked)
    ensures T.RoundOf(calls) == T.Going <==> !BadCall(calls) && NeverFinishes(calls)
    decreases |calls|
  {
    if calls == [] {
    } else {
      var init, last := calls[..|calls| - 1], calls[|calls| - 1];
      RoundIff(init, blocked);
      BadCallNext(init, last);
      assert calls == init + [last];
      if last.args.Some? && last.args.value.Finish? {
        assert last.args.value.blocked == blocked ==> FinishesAt(calls, |init|, blocked);
      } else if last.args.Some? {
        FinishesNext(init, last, blocked);
      }
    }
  }

  lemma BadCallNext(init: seq<T.Call>, last: T.Call)
    ensures BadCall(init + [last]) <==> BadCall(init) || last.id == None || last.args == None
  {
    var calls := init + [last];
    assert calls[|init|] == last && forall i :: 0 <= i < |init| ==> calls[i] == init[i];
  }

  lemma FinishesNext(init: seq<T.Call>, last: T.Call, blocked: bool)
    requires last.args.Some? && !last.args.value.Finish?
    ensures (exists n :: FinishesAt(init + [last], n, blocked)) <==> exists n :: FinishesAt(init, n, blocked)
    ensures NeverFinishes(init + [last]) <==> NeverFinishes(init)
  {
    var calls := init + [last];
    assert calls[|init|] == last && forall i :: 0 <= i < |init| ==> calls[i] == init[i];
    if n :| FinishesAt(init, n, blocked) { assert FinishesAt(calls, n, blocked); }
    if n :| FinishesAt(calls, n, blocked) { assert FinishesAt(init, n, blocked); }
  }

  /** The answer gives nothing to go on with. */
  ghost predicate NoResult(response: Response) {
    || response.status != Some(Completed)
    || (response.calls == [] && response.text == "")
    || BadCall(response.calls)
  }

  /** Without a result the request fails, and its staged files stay as they
      were before the answer. */
  lemma RoundWithoutResult(t: Table, id: RequestId, response: Response, o: Outside, starts: Starts)
    requires id in t && NoResult(response)
    ensures
      var next := RoundResult(t, id, response, o, starts);
      && id in next && next[id] == t[id].(status := Failed)
      && RoundCloses(t, id, response, o) == PullToClose(t[id])
  {
    hide Kicked;
    RoundIff(response.calls, true);
    SettledRow(t, id, GiveUp, starts);
  }

  /** Words alone stop the run. */
  lemma RoundInWords(t: Table, id: RequestId, response: Response, o: Outside, starts: Starts)
    requires id in t && response.status == Some(Completed) && response.calls == [] && response.text != ""
    ensures
      var next := RoundResult(t, id, response, o, starts);
      && id in next && next[id] == t[id].(status := Failed, unsaved := false)
      && RoundCloses(t, id, response, o) == {}
  {
    hide Kicked;
    SettledRow(Saved(t, id, t[id].staged), id, GiveUp, starts);
  }

  /** A finished run stops where the model is blocked or staged nothing, and
      fails where no pull request can be prepared. Otherwise its own pull
      request, or the new one, is polled. */
  lemma RoundFinishes(
    t: Table, id: RequestId, response: Response, o: Outside, starts: Starts, n: nat, blocked: bool)
    requires id in t && response.status == Some(Completed) && !BadCall(response.calls)
    requires FinishesAt(response.calls, n, blocked)
    ensures
      var files := T.FilesAfter(t[id].staged, response.calls, o.repo);
      var next := RoundResult(t, id, response, o, starts);
      && id in next
      && (blocked || files == map[] || o.prepared.Lost? ==>
            next[id] == t[id].(status := Failed, staged := files, unsaved := false))
      && (!blocked && files != map[] && o.prepared.Got? ==>
            var pull := if t[id].pull.Some? then t[id].pull.value else o.prepared.value;
            var row := t[id].(status := Publishing, staged := files, unsaved := false, pull := Some(pull));
            next == PublishResult(t[id := row], id, o.poll, starts))
  {
    hide Kicked, Settled, PublishVerdict;
    var files := T.FilesAfter(t[id].staged, response.calls, o.repo);
    RoundIff(response.calls, blocked);
    var saved := Saved(t, id, files);
    assert VerdictOf(t[id].staged, response, o.repo) == RoundVerdict.Finish(files, blocked);
    SettledRow(saved, id, GiveUp, starts);
    SettledIsFailed(saved, id, starts);
    var pull := if t[id].pull.Some? then t[id].pull.value else if o.prepared.Got? then o.prepared.value else Pull(0, "", "");
    assert Submitted(saved, id, pull) == t[id := t[id].(status := Publishing, staged := files, unsaved := false, pull := Some(pull))];
    if !blocked && files != map[] && o.prepared.Got? {
      var submitted := Submitted(saved, id, pull);
      SettledRow(submitted, id, PublishVerdict(submitted, id, o.poll), starts);
    }
  }

  lemma SettledIsFailed(t: Table, id: RequestId, starts: Starts)
    requires id in t
    ensures Settled(t, id, GiveUp, starts) == FailedAnd(t, id, starts)
  {
  }

  /** A run that neither finished nor broke goes on while a turn is left and
      the model answers under a new response id, and fails otherwise. */
  lemma RoundGoesOn(t: Table, id: RequestId, response: Response, o: Outside, starts: Starts)
    requires id in t && response.status == Some(Completed) && response.calls != []
    requires !BadCall(response.calls) && NeverFinishes(response.calls)
    ensures
      var row := t[id].(staged := T.FilesAfter(t[id].staged, response.calls, o.repo), unsaved := false);
      var next := RoundResult(t, id, response, o, starts);
      && id in next
      && next[id] ==
         if t[id].turn < 100 && o.ask.Got? && !Taken(t, id, o.ask.value)
         then row.(status := WaitingOpenai, responseId := Some(o.ask.value), turn := t[id].turn + 1)
         else row.(status := Failed)
  {
    hide Kicked;
    var files := T.FilesAfter(t[id].staged, response.calls, o.repo);
    RoundIff(response.calls, true);
    var saved := Saved(t, id, files);
    SettledRow(saved, id, GiveUp, starts);
    if o.ask.Got? { SameResponses(t, saved, id, o.ask.value); }
  }

  /** These are all the answers there are. */
  lemma AnswersAreAll(response: Response)
    ensures
      || NoResult(response)
      || (response.status == Some(Completed) && response.calls == [] && response.text != "")
      || (response.status == Some(Completed) && !BadCall(response.calls)
          && ((exists n, blocked :: FinishesAt(response.calls, n, blocked))
              || (response.calls != [] && NeverFinishes(response.calls))))
  {
    RoundIff(response.calls, true);
    RoundIff(response.calls, false);
  }

  /** Which rounds submit their files, and which stop. */
  lemma SubmitsIff(staged: T.Files, response: Response, repo: T.Repo)
    ensures Submits(staged, response, repo) <==>
      && response.status == Some(Completed) && !BadCall(response.calls)
      && (exists n :: FinishesAt(response.calls, n, false)) && T.FilesAfter(staged, response.calls, repo) != map[]
    ensures Stopped(staged, response, repo) <==>
      && response.status == Some(Completed) && !BadCall(response.calls)
      && (|| (response.calls == [] && response.text != "")
          || (exists n :: FinishesAt(response.calls, n, true))
          || ((exists n :: FinishesAt(response.calls, n, false)) && T.FilesAfter(staged, response.calls, repo) == map[]))
  {
    RoundIff(response.calls, true);
    RoundIff(response.calls, false);
  }

  // ---------------------------------------------------------------------
  // Claims and recovery

  /** Which row an answer resumes, and when none. */
  lemma ResumesIff(t: Table, id: RequestId, responseId: string, reconcile: bool, response: Option<Response>)
    ensures Resumes(t, id, responseId, reconcile, response) <==>
      && id in t && t[id].status == WaitingOpenai && t[id].responseId == Some(responseId)
      && response != None && (reconcile ==> response.value.status != Some(InProgress))
  {
  }

  /** The request claimed is the oldest one waiting; of two as old, the one
      with the smaller id. */
  lemma HeadIsOldest(t: Table, h: RequestId, asset: AssetId)
    ensures IsHead(t, h, asset) <==>
      && h in t && t[h].asset == asset && t[h].status == Queued
      && forall b :: b in t && b != h && t[b].asset == asset && t[b].status == Queued ==>
           t[h].createdAt < t[b].createdAt || (t[h].createdAt == t[b].createdAt && h < b)
  {
  }

  /** Recovery puts a stalled reader back in the queue and a stalled run back
      to waiting, and leaves everything else, as it is. */
  lemma RecoveryMoves(t: Table, stalled: set<RequestId>, id: RequestId)
    requires id in t
    ensures
      var next := Recovered(t, stalled);
      && next.Keys == t.Keys
      && (id in stalled && t[id].status == Reading ==> next[id] == t[id].(status := Queued))
      && (id in stalled && t[id].status == MakingChanges ==> next[id] == t[id].(status := WaitingOpenai))
      && (id !in stalled || t[id].status !in {Reading, MakingChanges} ==> next[id] == t[id])
  {
  }

  /** The apps reported are those of the stalled readers. */
  lemma RecoveredAppsAre(t: Table, stalled: set<RequestId>, asset: AssetId)
    ensures asset in RecoveredApps(t, stalled) <==>
      exists id :: id in t && id in stalled && t[id].status == Reading && t[id].asset == asset
  {
    if id :| id in t && id in stalled && t[id].status == Reading && t[id].asset == asset {
      assert id in Stalled(t, stalled, Reading);
    }
  }
}
