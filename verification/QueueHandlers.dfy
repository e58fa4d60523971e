/** The App Builder handlers over the request table. */
module QueueHandlers {
  import opened Common
  import opened Queue
  import opened QueueRuns
  import opened QueueKick
  import opened QueueResults
  import opened QueueMoves
  import opened QueuePasses
  import opened QueueKeeps
  import opened QueueAnswers
  import T = AgentTools

  class RequestTable {
    var rows: Table
    var closed: set<nat>
    ghost var history: seq<Event>
    ghost const origin: Table

    /** The table is the outcome of a run of statements. */
    ghost predicate Valid()
      reads this
    {
      Inv(origin) && Run(origin, history, rows)
    }

    ghost constructor (t: Table)
      requires Inv(t)
      ensures Valid() && rows == t && closed == {} && history == []
    {
      rows, closed, history, origin := t, {}, [], t;
    }

    lemma Holds()
      requires Valid()
      ensures Inv(rows)
    {
      RunKeeps(origin, history, rows);
    }

    ghost method Note(before: Table, e: Event)
      requires Inv(origin) && Run(origin, history, before)
      requires Enabled(before, e) && rows == Apply(before, e)
      modifies this`history
      ensures Valid()
    {
      assert Run(rows, [e][1..], rows);
      RunConcat(origin, history, before, [e], rows);
      history := history + [e];
    }

    /** createAppBuilderRequest. Its duplicate check is left to the caller. */
    method CreateRequest(asset: AssetId, createdAt: nat) returns (id: RequestId)
      requires Valid()
      modifies this`rows, this`history
      ensures Valid() && id !in old(rows) && rows == After(old(rows), Submit(id, asset, createdAt))
      ensures rows == old(rows)[id := rows[id]] && rows[id].asset == asset && rows[id].createdAt == createdAt
      ensures rows[id].status == Queued && rows[id].turn == 0 && rows[id].staged == map[]
    {
      ghost var before := rows;
      id := FreshId(rows.Keys);
      rows := rows[id := NewRequest(asset, createdAt)];
      Note(before, Create(id, NewRequest(asset, createdAt)));
    }

    /** updateAppBuilderRequest, at one of its call sites: the write is made
        unless a table constraint rejects it. */
    method UpdateRequest(e: Event) returns (ok: bool)
      requires Valid() && Single(e) && Guard(rows, e)
      modifies this`rows, this`history
      ensures Valid()
      ensures ok <==> Fits(old(rows), e)
      ensures rows == if ok then Apply(old(rows), e) else old(rows)
    {
      ghost var before := rows;
      Holds();
      RejectedIff(rows, e);
      var written := Write(rows, e.id, PatchOf(rows, e));
      ok := Constraints(written);
      if ok {
        rows := written;
        Note(before, e);
      }
    }

    method ClaimNextRequest(asset: AssetId) returns (r: Option<RequestId>)
      requires Valid()
      modifies this`rows, this`history
      ensures Valid()
      ensures r.None? <==> Served(old(rows), asset)
      ensures r.None? ==> rows == old(rows)
      ensures r.Some? ==> IsHead(old(rows), r.value, asset) && rows == Apply(old(rows), ClaimNext(r.value))
    {
      if HasActive(rows, asset) || !exists id :: id in rows && IsQueued(rows, id, asset) {
        return None;
      }
      assert QueuedIds(rows, asset) != {} by {
        var id :| id in rows && IsQueued(rows, id, asset);
        assert id in QueuedIds(rows, asset);
      }
      HeadExists(rows, asset);
      var h :| h in rows && IsHead(rows, h, asset);
      var ok := UpdateRequest(ClaimNext(h));
      r := Some(h);
    }

    /** kickAppBuilderQueue. It and FailRequest call each other; the number of
        queued requests of the app bounds the recursion. */
    method Kick(asset: AssetId, starts: Starts)
      requires Valid()
      modifies this`rows, this`closed, this`history
      ensures Valid() && closed == old(closed)
      ensures rows == Kicked(old(rows), asset, starts)
      decreases |QueuedIds(rows, asset)|, 0
    {
      ghost var before := rows;
      Holds();
      var claimed := ClaimNextRequest(asset);
      if claimed.None? {
        KickIdle(rows, asset, starts);
        return;
      }
      var id := claimed.value;
      HeadClaimed(before, asset, starts, id);
      if starts(id).Got? {
        var ok := UpdateRequest(Start(id, starts(id).value));
        if ok {
          KickStarts(before, asset, starts, id);
          return;
        }
      }
      KickFails(before, asset, starts, id);
      FailRequest(id, asset, starts);
    }

    /** fail: the row, then its pull request, then the queue. */
    method FailRequest(id: RequestId, asset: AssetId, starts: Starts)
      requires Valid() && Guard(rows, Fail(id)) && rows[id].asset == asset
      modifies this`rows, this`closed, this`history
      ensures Valid()
      ensures rows == Kicked(Apply(old(rows), Fail(id)), asset, starts)
      ensures closed == old(closed) + PullToClose(old(rows)[id])
      decreases |QueuedIds(rows, asset)|, 1
    {
      ghost var before := rows;
      var ok := UpdateRequest(Fail(id));
      FailKeepsQueue(before, id, asset);
      closed := closed + PullToClose(rows[id]);
      Kick(asset, starts);
    }

    // -------------------------------------------------------------------
    // Publishing

    /** The catch of publishAppBuilderRequest. */
    method Caught(id: RequestId, transient: bool, starts: Starts) returns (result: bool)
      requires Valid() && Guard(rows, Pending(id))
      modifies this`rows, this`closed, this`history
      ensures Valid() && result == transient
      ensures rows == Settled(old(rows), id, OnLost(transient), starts)
      ensures closed == old(closed) + SettledCloses(old(rows), id, OnLost(transient))
    {
      if transient {
        var ok := UpdateRequest(Pending(id));
      } else {
        FailRequest(id, rows[id].asset, starts);
      }
      result := transient;
    }

    method GoLiveOrFail(id: RequestId, sha: string, starts: Starts) returns (result: bool)
      requires Valid() && Guard(rows, Pending(id))
      modifies this`rows, this`closed, this`history
      ensures Valid() && (result <==> OnMerged(sha).GoLive?)
      ensures rows == Settled(old(rows), id, OnMerged(sha), starts)
      ensures closed == old(closed) + SettledCloses(old(rows), id, OnMerged(sha))
    {
      var asset := rows[id].asset;
      result := UpdateRequest(Publish(id, sha));
      if result {
        Kick(asset, starts);
      } else {
        FailRequest(id, asset, starts);
      }
    }

    method RepairOrFail(id: RequestId, repair: Answer<string>, starts: Starts) returns (result: bool)
      requires Valid() && Guard(rows, Pending(id))
      modifies this`rows, this`closed, this`history
      ensures Valid() && (result <==> !RepairVerdict(old(rows), id, repair).GiveUp?)
      ensures rows == Settled(old(rows), id, RepairVerdict(old(rows), id, repair), starts)
      ensures closed == old(closed) + SettledCloses(old(rows), id, RepairVerdict(old(rows), id, repair))
    {
      if rows[id].turn >= MAX_TURNS { result := Caught(id, false, starts); return; }
      if repair.Lost? { result := Caught(id, repair.transient, starts); return; }
      result := UpdateRequest(Repair(id, repair.value));
      if !result { result := Caught(id, false, starts); }
    }

    /** The try block of publishAppBuilderRequest and its catch. */
    method DecidePublishing(id: RequestId, poll: Poll, starts: Starts) returns (result: bool)
      requires Valid() && Guard(rows, Pending(id))
      modifies this`rows, this`closed, this`history
      ensures Valid() && (result <==> !PublishVerdict(old(rows), id, poll).GiveUp?)
      ensures rows == PublishResult(old(rows), id, poll, starts)
      ensures closed == old(closed) + PublishCloses(old(rows), id, poll)
    {
      if poll.checks.Lost? { result := Caught(id, poll.checks.transient, starts); return; }
      var checks := poll.checks.value;
      if checks.merged {
        if checks.mergeSha.None? { result := Caught(id, false, starts); return; }
        result := GoLiveOrFail(id, checks.mergeSha.value, starts);
        return;
      }
      if checks.closed { result := Caught(id, false, starts); return; }
      if checks.failing { result := RepairOrFail(id, poll.repair, starts); return; }
      if checks.pending {
        var ok := UpdateRequest(Pending(id));
        return true;
      }
      if poll.merge.Lost? { result := Caught(id, poll.merge.transient, starts); return; }
      result := GoLiveOrFail(id, poll.merge.value, starts);
    }

    /** publishAppBuilderRequest from its try block on. The answers alone say
        whether the request ends live, at the model again, still publishing,
        or failed. */
    method PollPublishing(id: RequestId, poll: Poll, starts: Starts) returns (result: bool)
      requires Valid() && Guard(rows, Pending(id))
      modifies this`rows, this`closed, this`history
      ensures Valid() && (result <==> !PublishVerdict(old(rows), id, poll).GiveUp?)
      ensures rows == PublishResult(old(rows), id, poll, starts)
      ensures closed == old(closed) + PublishCloses(old(rows), id, poll)
      ensures id in rows && (rows[id].status == Live <==> exists sha :: Merged(poll, sha))
      ensures rows[id].status == WaitingOpenai <==> exists response :: Repairs(old(rows), id, poll, response)
      ensures rows[id].status == Publishing <==> Unsettled(old(rows), id, poll)
      ensures rows[id].status == Failed <==> Ends(old(rows), id, poll)
    {
      hide Merged, Repairs, Unsettled, Ends, PublishResult, PublishVerdict, PublishCloses;
      PublishEnds(rows, id, poll, starts);
      result := DecidePublishing(id, poll, starts);
    }

    /** publishAppBuilderRequest. An approval rejected by the one-active index
        throws and leaves the row as it was. */
    method PublishRequest(id: RequestId, poll: Poll, starts: Starts) returns (o: Outcome)
      requires Valid()
      modifies this`rows, this`closed, this`history
      ensures Valid()
      ensures !Publishable(old(rows), id) ==> o == Handled(false)
      ensures o == Threw <==> ApprovalRejected(old(rows), id)
      ensures !Publishable(old(rows), id) || o == Threw ==> rows == old(rows) && closed == old(closed)
      ensures Publishable(old(rows), id) && o != Threw ==>
        && rows == PublishResult(Approved(old(rows), id), id, poll, starts)
        && closed == old(closed) + PublishCloses(Approved(old(rows), id), id, poll)
    {
      if !Publishable(rows, id) { return Handled(false); }
      var ok := ApproveIfNeeded(id);
      if !ok { return Threw; }
      var result := PollPublishing(id, poll, starts);
      o := Handled(result);
    }

    method ApproveIfNeeded(id: RequestId) returns (ok: bool)
      requires Valid() && Publishable(rows, id)
      modifies this`rows, this`history
      ensures Valid() && (ok <==> !ApprovalRejected(old(rows), id))
      ensures ok ==> rows == Approved(old(rows), id) && Guard(rows, Pending(id))
      ensures !ok ==> rows == old(rows)
    {
      ok := true;
      if rows[id].status == NeedsApproval { ok := UpdateRequest(Approve(id)); }
    }

    // -------------------------------------------------------------------
    // A model response

    /** finish */
    method FinishRun(id: RequestId, files: T.Files, blocked: bool, prepared: Answer<Pull>, poll: Poll, starts: Starts)
      requires Valid() && Guard(rows, Prepare(id))
      modifies this`rows, this`closed, this`history
      ensures Valid()
      ensures rows == FinishResult(old(rows), id, files, blocked, prepared, poll, starts)
      ensures closed == old(closed) + FinishCloses(old(rows), id, files, blocked, prepared, poll)
    {
      var asset := rows[id].asset;
      if blocked || files == map[] {
        var ok := UpdateRequest(StopBlocked(id));
        Kick(asset, starts);
        return;
      }
      SubmitPull(id, prepared, poll, starts);
    }

    method SubmitPull(id: RequestId, prepared: Answer<Pull>, poll: Poll, starts: Starts)
      requires Valid() && Guard(rows, Prepare(id))
      modifies this`rows, this`closed, this`history
      ensures Valid()
      ensures rows == SubmitResult(old(rows), id, prepared, poll, starts)
      ensures closed == old(closed) + SubmitCloses(old(rows), id, prepared, poll)
    {
      ghost var before := rows;
      var ok := UpdateRequest(Prepare(id));
      assert rows == before[id := before[id].(status := PreparingReview)];
      if prepared.Lost? {
        StatusOverwritten(before, id, PreparingReview, Pull(0, "", ""), starts);
        FailRequest(id, rows[id].asset, starts);
        return;
      }
      var pull := if rows[id].pull.Some? then rows[id].pull.value else prepared.value;
      StatusOverwritten(before, id, PreparingReview, pull, starts);
      OpenAndPoll(id, pull, poll, starts);
    }

    method OpenAndPoll(id: RequestId, pull: Pull, poll: Poll, starts: Starts)
      requires Valid() && id in rows && rows[id].status == PreparingReview
      modifies this`rows, this`closed, this`history
      ensures Valid()
      ensures rows == PublishResult(Submitted(old(rows), id, pull), id, poll, starts)
      ensures closed == old(closed) + PublishCloses(Submitted(old(rows), id, pull), id, poll)
    {
      var ok := UpdateRequest(OpenPull(id, pull));
      var result := PollPublishing(id, poll, starts);
    }

    /** The try block of continueAppBuilderResponse. */
    method RunRound(id: RequestId, response: Response, o: Outside, starts: Starts)
      requires Valid() && Guard(rows, Save(id, map[]))
      modifies this`rows, this`closed, this`history
      ensures Valid()
      ensures rows == RoundResult(old(rows), id, response, o, starts)
      ensures closed == old(closed) + RoundCloses(old(rows), id, response, o)
    {
      var asset := rows[id].asset;
      if response.status != Some(Completed) {
        FailRequest(id, asset, starts);
        return;
      }
      var round, files := T.Done(true), rows[id].staged;
      if response.calls == [] {
        if response.text == "" {
          FailRequest(id, asset, starts);
          return;
        }
      } else {
        round, files := T.RunCalls(response.calls, rows[id].staged, o.repo);
        if round.Broken? {
          FailRequest(id, asset, starts);
          return;
        }
      }
      SaveAndGoOn(id, round, files, o, starts);
    }

    method SaveAndGoOn(id: RequestId, round: T.Round, files: T.Files, o: Outside, starts: Starts)
      requires Valid() && Guard(rows, Save(id, files)) && !round.Broken?
      modifies this`rows, this`closed, this`history
      ensures Valid()
      ensures round.Done? ==>
        && rows == FinishResult(Saved(old(rows), id, files), id, files, round.blocked, o.prepared, o.poll, starts)
        && closed == old(closed) + FinishCloses(Saved(old(rows), id, files), id, files, round.blocked, o.prepared, o.poll)
      ensures round.Going? ==>
        && rows == AskResult(Saved(old(rows), id, files), id, o.ask, starts)
        && closed == old(closed) + AskCloses(Saved(old(rows), id, files), id, o.ask)
    {
      var ok := UpdateRequest(Save(id, files));
      if round.Done? {
        FinishRun(id, files, round.blocked, o.prepared, o.poll, starts);
      } else {
        AskForMore(id, files, o.ask, starts);
      }
    }

    /** The turn budget, then the next response. */
    method AskForMore(id: RequestId, files: T.Files, ask: Answer<string>, starts: Starts)
      requires Valid() && Guard(rows, Prepare(id)) && rows[id].staged == files
      modifies this`rows, this`closed, this`history
      ensures Valid()
      ensures rows == AskResult(old(rows), id, ask, starts)
      ensures closed == old(closed) + AskCloses(old(rows), id, ask)
    {
      var asset := rows[id].asset;
      if rows[id].turn >= MAX_TURNS || ask.Lost? {
        FailRequest(id, asset, starts);
        return;
      }
      var ok := UpdateRequest(Resume(id, ask.value, files));
      if !ok { FailRequest(id, asset, starts); }
    }

    /** continueAppBuilderResponse */
    method ContinueResponse(responseId: string, reconcile: bool, response: Option<Response>, o: Outside, starts: Starts)
      returns (r: Outcome)
      requires Valid()
      modifies this`rows, this`closed, this`history
      ensures Valid()
      ensures
        var move := ResumeOne(responseId, reconcile, response, o, starts);
        && rows == After(old(rows), move) && closed == old(closed) + Closes(old(rows), move)
        && (r == Threw <==> Throws(old(rows), move))
      ensures forall id :: Resumes(old(rows), id, responseId, reconcile, response) ==>
        && rows == RoundResult(Claimed(old(rows), id), id, response.value, o, starts)
        && closed == old(closed) + RoundCloses(Claimed(old(rows), id), id, response.value, o)
      ensures (forall id :: !Resumes(old(rows), id, responseId, reconcile, response)) ==> rows == old(rows) && closed == old(closed)
    {
      hide RoundResult, RoundCloses;
      if !exists id :: id in rows && rows[id].responseId == Some(responseId) { return Handled(false); }
      Holds();
      ghost var before := rows;
      var id :| id in rows && rows[id].responseId == Some(responseId);
      assert forall a :: AwaitsResponse(rows, a, responseId) ==> a == id;
      if rows[id].status != WaitingOpenai { return Handled(true); }
      assert AwaitsResponse(rows, id, responseId);
      if response.None? { return Threw; }
      if reconcile && response.value.status == Some(InProgress) { return Handled(true); }
      assert Resumes(rows, id, responseId, reconcile, response);
      ResumedRow(before, id, ResumeOne(responseId, reconcile, response, o, starts));
      var ok := UpdateRequest(ClaimResponse(id));
      assert rows == Claimed(before, id);
      RunRound(id, response.value, o, starts);
      r := Handled(true);
    }

    // -------------------------------------------------------------------
    // Reversal

    /** continueAppBuilderReversal */
    method ContinueReversal(id: RequestId, poll: Poll, starts: Starts) returns (result: bool)
      requires Valid()
      modifies this`rows, this`closed, this`history
      ensures Valid() && closed == old(closed)
      ensures rows == if UnderReversal(old(rows), id) then ReversalResult(old(rows), id, poll, starts) else old(rows)
      ensures result <==> UnderReversal(old(rows), id) && !ReversalVerdict(poll).GiveUp?
    {
      if !UnderReversal(rows, id) { return false; }
      var ok;
      if poll.checks.Lost? { result := CaughtReversal(id, poll.checks.transient); return; }
      var checks := poll.checks.value;
      if checks.merged {
        if checks.mergeSha.None? { result := CaughtReversal(id, false); return; }
        result := ReverseOrKeep(id, checks.mergeSha.value, starts);
        return;
      }
      if checks.closed || checks.failing { result := CaughtReversal(id, false); return; }
      if checks.pending {
        ok := UpdateRequest(ReversalPending(id));
        return true;
      }
      if poll.merge.Lost? { result := CaughtReversal(id, poll.merge.transient); return; }
      result := ReverseOrKeep(id, poll.merge.value, starts);
    }

    method CaughtReversal(id: RequestId, transient: bool) returns (result: bool)
      requires Valid() && Guard(rows, ReversalPending(id))
      modifies this`rows, this`history
      ensures Valid() && result == transient
      ensures rows == old(rows)[id := old(rows)[id].(status := if transient then Reversing else Live)]
    {
      var ok := UpdateRequest(if transient then ReversalPending(id) else ReversalFailed(id));
      result := transient;
    }

    method ReverseOrKeep(id: RequestId, sha: string, starts: Starts) returns (result: bool)
      requires Valid() && UnderReversal(rows, id)
      modifies this`rows, this`closed, this`history
      ensures Valid() && closed == old(closed) && (result <==> Sha(sha))
      ensures Sha(sha) ==>
        rows == Kicked(old(rows)[id := old(rows)[id].(status := Reversed, reversedCommit := Some(sha), reversed := true)], old(rows)[id].asset, starts)
      ensures !Sha(sha) ==> rows == old(rows)[id := old(rows)[id].(status := Live)]
    {
      var asset := rows[id].asset;
      result := UpdateRequest(Reverse(id, sha));
      if result { Kick(asset, starts); } else { result := CaughtReversal(id, false); }
    }

    method ClaimAppBuilderReversal(id: RequestId) returns (ok: bool)
      requires Valid()
      modifies this`rows, this`history
      ensures Valid() && (ok <==> CanReverse(old(rows), id))
      ensures rows == if ok then old(rows)[id := old(rows)[id].(status := Reversing)] else old(rows)
    {
      if id !in rows || rows[id].status != Live || rows[id].pull.None? { return false; }
      ok := UpdateRequest(ClaimReversal(id));
    }

    /** The try block of reverseAppBuilderRequest up to its poll, and its catch. */
    method OpenReversalPull(id: RequestId, prepared: Answer<nat>) returns (ok: bool)
      requires Valid() && Guard(rows, ReversalPending(id))
      modifies this`rows, this`history
      ensures Valid() && (ok <==> ReversalPull(old(rows)[id], prepared).Some?)
      ensures ok ==> rows == ReversalOpened(old(rows), id, ReversalPull(old(rows)[id], prepared).value)
      ensures !ok ==> rows == old(rows)[id := old(rows)[id].(status := Live)]
    {
      ok := true;
      if rows[id].reversalPull.Some? { return; }
      if prepared.Lost? {
        var back := UpdateRequest(ReversalFailed(id));
        return false;
      }
      ok := UpdateRequest(OpenReversal(id, prepared.value));
    }

    /** reverseAppBuilderRequest up to its poll. */
    method BeginReversal(id: RequestId, prepared: Answer<nat>) returns (ok: bool)
      requires Valid()
      modifies this`rows, this`history
      ensures Valid() && (ok <==> !ReversalThrows(old(rows), id, prepared))
      ensures ok ==> UnderReversal(rows, id)
      ensures ok ==> rows == ReversalOpened(old(rows), id, ReversalPull(old(rows)[id], prepared).value)
      ensures !ok ==> rows == old(rows)
    {
      hide Inv, Run;
      ghost var before := rows;
      ok := ClaimAppBuilderReversal(id);
      if !ok { return; }
      ok := OpenReversalPull(id, prepared);
      if !ok { assert rows == before; }
    }

    /** reverseAppBuilderRequest. Without a live request with a pull request,
        or beside another active one, it throws and changes nothing. */
    method ReverseRequest(id: RequestId, prepared: Answer<nat>, poll: Poll, starts: Starts) returns (o: Outcome)
      requires Valid()
      modifies this`rows, this`closed, this`history
      ensures Valid() && closed == old(closed)
      ensures o == Threw <==> ReversalThrows(old(rows), id, prepared)
      ensures rows == ReverseResult(old(rows), id, prepared, poll, starts)
    {
      hide ReversalResult, ReversalThrows;
      ghost var before := rows;
      var ok := BeginReversal(id, prepared);
      if !ok { return Threw; }
      var result := ContinueReversal(id, poll, starts);
      o := Handled(result);
    }

    // -------------------------------------------------------------------
    // Recovery and reconciliation

    method RequeueStalled(stalled: set<RequestId>) returns (assets: set<AssetId>)
      requires Valid()
      modifies this`rows, this`history
      ensures Valid() && rows == SetAll(old(rows), Stalled(old(rows), stalled, Reading), Queued)
      ensures assets == RecoveredApps(old(rows), stalled)
    {
      ghost var before := rows;
      var ids := Stalled(rows, stalled, Reading);
      assets := set id | id in ids && id in rows :: rows[id].asset;
      rows := SetAll(rows, ids, Queued);
      Note(before, Requeue(ids));
    }

    method RedriveStalled(stalled: set<RequestId>)
      requires Valid()
      modifies this`rows, this`history
      ensures Valid() && rows == SetAll(old(rows), Stalled(old(rows), stalled, MakingChanges), WaitingOpenai)
    {
      ghost var before := rows;
      Holds();
      var ids := Stalled(rows, stalled, MakingChanges);
      assert forall id :: id in ids ==> RowOk(rows[id]);
      rows := SetAll(rows, ids, WaitingOpenai);
      Note(before, Redrive(ids));
    }

    /** recoverStalledAppBuilderRequests: two statements over all rows whose
        worker is presumed dead. */
    method RecoverStalled(stalled: set<RequestId>) returns (assets: set<AssetId>)
      requires Valid()
      modifies this`rows, this`history
      ensures Valid() && rows == Recovered(old(rows), stalled)
      ensures assets == RecoveredApps(old(rows), stalled)
    {
      ghost var before := rows;
      assets := RequeueStalled(stalled);
      RedriveStalled(stalled);
      RecoveredInTwoSteps(before, stalled);
    }

    /** These moves, begun at the rows `from`, led to the rows as they are, and
        closed what is closed beyond `was`. */
    ghost predicate Reached(from: Table, was: set<nat>, moves: seq<Move>)
      reads this
    {
      rows == Made(from, moves).rows && closed == was + Made(from, moves).closed
    }

    /** The response loop. */
    method ResumeAll(w: Work) returns (threw: bool)
      requires Valid()
      modifies this`rows, this`closed, this`history
      ensures Valid() && Reached(old(rows), old(closed), ResumeMoves(w))
      ensures threw <==> Made(old(rows), ResumeMoves(w)).threw
    {
      hide Made, After, Closes, Throws, Inv, Run;
      ghost var from, moves := rows, ResumeMoves(w);
      threw := false;
      NothingMade(from, moves[..0]);
      for n := 0 to |w.responseIds|
        invariant Valid() && !threw && !Made(from, moves[..n]).threw
        invariant Reached(from, old(closed), moves[..n])
      {
        var id := w.responseIds[n];
        OneMoreMade(from, moves, n);
        var r := ContinueResponse(id, true, w.answers(id), w.outside(id), w.starts);
        if r == Threw {
          ThrewStays(from, moves, n + 1);
          return true;
        }
      }
      assert moves[..|moves|] == moves;
    }

    /** One turn of the publishing loop. It throws exactly on a rejected
        approval, and then changes nothing. */
    method PollNext(id: RequestId, poll: Poll, starts: Starts) returns (threw: bool)
      requires Valid()
      modifies this`rows, this`closed, this`history
      ensures Valid() && rows == AfterPoll(old(rows), id, poll, starts)
      ensures closed == old(closed) + PollCloses(old(rows), id, poll)
      ensures threw <==> ApprovalRejected(old(rows), id)
    {
      threw := false;
      if id in rows && rows[id].status == Reversing {
        var result := ContinueReversal(id, poll, starts);
      } else {
        var r := PublishRequest(id, poll, starts);
        threw := r == Threw;
      }
    }

    /** The publishing loop. */
    method PollAll(w: Work) returns (threw: bool)
      requires Valid()
      modifies this`rows, this`closed, this`history
      ensures Valid() && Reached(old(rows), old(closed), PollMoves(w))
      ensures threw <==> Made(old(rows), PollMoves(w)).threw
    {
      hide Made, AfterPoll, PollCloses, ApprovalRejected, Inv, Run;
      ghost var from, moves := rows, PollMoves(w);
      threw := false;
      NothingMade(from, moves[..0]);
      for n := 0 to |w.publishingIds|
        invariant Valid() && !threw && !Made(from, moves[..n]).threw
        invariant Reached(from, old(closed), moves[..n])
      {
        var id := w.publishingIds[n];
        OneMoreMade(from, moves, n);
        threw := PollNext(id, w.polls(id), w.starts);
        if threw {
          ThrewStays(from, moves, n + 1);
          return;
        }
      }
      assert moves[..|moves|] == moves;
    }

    /** The last loop of reconcileAppBuilderWork. */
    method KickAll(scope: seq<AssetId>, starts: Starts)
      requires Valid()
      modifies this`rows, this`closed, this`history
      ensures Valid() && closed == old(closed) && Reached(old(rows), old(closed), KickMoves(scope, starts))
      ensures forall a :: a in scope ==> Served(rows, a)
    {
      ghost var from, moves := rows, KickMoves(scope, starts);
      NothingMade(from, moves[..0]);
      for n := 0 to |scope|
        invariant Valid() && closed == old(closed)
        invariant Reached(from, old(closed), moves[..n])
      {
        KicksServe(from, scope, starts, n);
        OneMoreMade(from, moves, n);
        Kick(scope[n], starts);
      }
      KicksServe(from, scope, starts, |scope|);
      assert moves[..|moves|] == moves;
    }

    /** The three loops. */
    method Drive(scope: seq<AssetId>, w: Work) returns (completed: bool)
      requires Valid()
      modifies this`rows, this`closed, this`history
      ensures Valid() && Reached(old(rows), old(closed), LoopMoves(scope, w))
      ensures completed <==> !Made(old(rows), LoopMoves(scope, w)).threw
    {
      LoopsMade(rows, scope, w);
      var threw := ResumeAll(w);
      if threw { return false; }
      threw := PollAll(w);
      if threw { return false; }
      KicksServe(rows, scope, w.starts, |scope|);
      assert KickMoves(scope, w.starts)[..|scope|] == KickMoves(scope, w.starts);
      KickAll(scope, w.starts);
      completed := true;
    }

    /** reconcileAppBuilderWork: recovery, then every response, every poll and
        every kick in turn, up to the first that throws. Unless one throws,
        every app in scope, and every app a request was recovered for, is left
        working or with nothing waiting. One throws only where an answer
        cannot be fetched or where a request still needs approval; a rejected
        approval ends the pass before any queue is kicked. */
    method Reconcile(targets: set<AssetId>, stalled: set<RequestId>, w: Work)
      returns (completed: bool, ghost scope: seq<AssetId>)
      requires Valid()
      modifies this`rows, this`closed, this`history
      ensures Valid() && Passed(old(rows), rows)
      ensures forall a :: a in scope <==> a in targets + RecoveredApps(old(rows), stalled)
      ensures Reached(old(rows), old(closed), PassMoves(stalled, scope, w))
      ensures completed <==> !Made(old(rows), PassMoves(stalled, scope, w)).threw
      ensures completed ==> forall a :: a in targets + RecoveredApps(old(rows), stalled) ==> Served(rows, a)
      ensures AllFetched(w) && NoneAsks(old(rows), w.publishingIds) ==> completed
      ensures targets != {} && w.responseIds == [] && FirstRejected(Recovered(old(rows), stalled), w.publishingIds) ==>
        !completed && rows == Recovered(old(rows), stalled) && closed == old(closed)
      ensures forall id, b :: Blocks(old(rows), id, b) ==> b in rows && rows[b] == old(rows)[b]
    {
      ghost var before := rows;
      var recovered := RecoverStalled(stalled);
      var found := Listed(targets + recovered);
      scope := found;
      PassMade(before, stalled, scope, w);
      MadePasses(before, PassMoves(stalled, scope, w));
      forall id, b | Blocks(before, id, b)
        ensures
          var next := Made(before, PassMoves(stalled, scope, w)).rows;
          b in next && next[b] == before[b]
      {
        StuckForever(before, id, b, PassMoves(stalled, scope, w));
      }
      if AllFetched(w) && NoneAsks(before, w.publishingIds) { PassCompletes(before, stalled, scope, w); }
      if !Made(before, PassMoves(stalled, scope, w)).threw { PassServes(before, stalled, scope, w); }
      if targets != {} && w.responseIds == [] && FirstRejected(Recovered(before, stalled), w.publishingIds) {
        var a :| a in targets;
        assert a in scope;
        PassAborts(before, stalled, scope, w);
      }
      if found == [] { return true, scope; }
      completed := Drive(found, w);
    }
  }

  lemma RecoveredInTwoSteps(t: Table, stalled: set<RequestId>)
    ensures var mid := SetAll(t, Stalled(t, stalled, Reading), Queued);
      SetAll(mid, Stalled(mid, stalled, MakingChanges), WaitingOpenai) == Recovered(t, stalled)
  {
  }

  method FreshId(ids: set<RequestId>) returns (id: RequestId)
    ensures id !in ids
  {
    id := 0;
    var rest := ids;
    while rest != {}
      invariant forall x :: x in ids - rest ==> x < id
    {
      var x :| x in rest;
      assert forall y :: y in ids - (rest - {x}) ==> y == x || y in ids - rest;
      id := if id <= x then x + 1 else id;
      rest := rest - {x};
    }
    assert forall x :: x in ids ==> x in ids - rest;
  }

  method Listed<X(==)>(items: set<X>) returns (list: seq<X>)
    ensures forall x :: x in list <==> x in items
  {
    list := [];
    var rest := items;
    while rest != {}
      invariant rest <= items && forall x :: x in list <==> x in items - rest
    {
      var x :| x in rest;
      list := list + [x];
      rest := rest - {x};
    }
  }

  lemma HeadClaimed(t: Table, asset: AssetId, starts: Starts, h: RequestId)
    requires Inv(t) && IsHead(t, h, asset) && !HasActive(t, asset)
    ensures var next := Apply(t, ClaimNext(h));
      && next[h].status == Reading && next[h].asset == asset && PullToClose(next[h]) == {}
      && (forall r :: Fits(next, Start(h, r)) <==> !ResponseUsed(t, h, r))
      && (forall r :: Apply(next, Start(h, r)) == t[h := t[h].(status := WaitingOpenai, responseId := Some(r), turn := 1)])
      && Apply(next, Fail(h)) == t[h := t[h].(status := Failed)]
      && QueuedIds(next, asset) == QueuedIds(t, asset) - {h}
      && |QueuedIds(next, asset)| < |QueuedIds(t, asset)|
  {
    var next := Apply(t, ClaimNext(h));
    assert RowOk(t[h]);
    forall r ensures ResponseUsed(t, h, r) <==> ResponseUsed(next, h, r) {
      SameResponses(t, next, h, r);
    }
    assert h in QueuedIds(t, asset);
    assert QueuedIds(next, asset) == QueuedIds(t, asset) - {h};
  }

  lemma FailKeepsQueue(t: Table, id: RequestId, asset: AssetId)
    requires Guard(t, Fail(id))
    ensures QueuedIds(Apply(t, Fail(id)), asset) == QueuedIds(t, asset)
    ensures PullToClose(Apply(t, Fail(id))[id]) == PullToClose(t[id])
  {
  }
}
