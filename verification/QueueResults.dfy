/** What each App Builder handler makes of the request table, as a function of
    the rows and of the answers it got. */
module QueueResults {
  import opened Common
  import opened Queue
  import opened QueueRuns
  import opened QueueKick
  import T = AgentTools

  // ---------------------------------------------------------------------
  // A publish poll, as a verdict

  datatype Checks = Checks(merged: bool, mergeSha: Option<string>, closed: bool, failing: bool, pending: bool)

  datatype Poll = Poll(checks: Answer<Checks>, repair: Answer<string>, merge: Answer<string>)

  datatype Verdict = GoLive(sha: string) | RepairWith(response: string) | Wait | GiveUp

  function OnLost(transient: bool): Verdict { if transient then Wait else GiveUp }

  function OnMerged(sha: string): Verdict { if Sha(sha) then GoLive(sha) else GiveUp }

  function RepairVerdict(t: Table, id: RequestId, repair: Answer<string>): Verdict
    requires id in t
  {
    if t[id].turn >= MAX_TURNS then GiveUp
    else if repair.Lost? then OnLost(repair.transient)
    else if ResponseUsed(t, id, repair.value) then GiveUp
    else RepairWith(repair.value)
  }

  function PublishVerdict(t: Table, id: RequestId, poll: Poll): Verdict
    requires id in t
  {
    match poll.checks
    case Lost(transient) => OnLost(transient)
    case Got(c) =>
      if c.merged then (if c.mergeSha.None? then GiveUp else OnMerged(c.mergeSha.value))
      else if c.closed then GiveUp
      else if c.failing then RepairVerdict(t, id, poll.repair)
      else if c.pending then Wait
      else if poll.merge.Lost? then OnLost(poll.merge.transient)
      else OnMerged(poll.merge.value)
  }

  function ReversalVerdict(poll: Poll): Verdict {
    match poll.checks
    case Lost(transient) => OnLost(transient)
    case Got(c) =>
      if c.merged then (if c.mergeSha.None? then GiveUp else OnMerged(c.mergeSha.value))
      else if c.closed || c.failing then GiveUp
      else if c.pending then Wait
      else if poll.merge.Lost? then OnLost(poll.merge.transient)
      else OnMerged(poll.merge.value)
  }

  /** GitHub's word that the pull request is merged with this commit: it said
      so, or nothing was open, failing or pending and it merged it now. */
  predicate MergedWith(poll: Poll, sha: string) {
    && Sha(sha) && poll.checks.Got?
    && var c := poll.checks.value;
    || (c.merged && c.mergeSha == Some(sha))
    || (!c.merged && !c.closed && !c.failing && !c.pending && poll.merge == Got(sha))
  }

  /** The pull request that fail() closes. */
  function PullToClose(r: Request): set<nat> {
    if r.pull.Some? && r.publishedCommit.None? then {r.pull.value.number} else {}
  }

  // ---------------------------------------------------------------------
  // What each handler makes of the table

  /** A request that ends as failed; the next one of its app is started. */
  function FailedAnd(t: Table, id: RequestId, starts: Starts): Table
    requires id in t
  {
    Kicked(t[id := t[id].(status := Failed)], t[id].asset, starts)
  }

  function Settled(t: Table, id: RequestId, verdict: Verdict, starts: Starts): Table
    requires id in t
  {
    match verdict
    case GoLive(sha) => Kicked(t[id := t[id].(status := Live, publishedCommit := Some(sha))], t[id].asset, starts)
    case RepairWith(response) =>
      t[id := t[id].(status := WaitingOpenai, responseId := Some(response), turn := t[id].turn + 1)]
    case Wait => t[id := t[id].(status := Publishing)]
    case GiveUp => FailedAnd(t, id, starts)
  }

  function SettledCloses(t: Table, id: RequestId, verdict: Verdict): set<nat>
    requires id in t
  {
    if verdict.GiveUp? then PullToClose(t[id]) else {}
  }

  function PublishResult(t: Table, id: RequestId, poll: Poll, starts: Starts): Table
    requires id in t
  {
    Settled(t, id, PublishVerdict(t, id, poll), starts)
  }

  function PublishCloses(t: Table, id: RequestId, poll: Poll): set<nat>
    requires id in t
  {
    SettledCloses(t, id, PublishVerdict(t, id, poll))
  }

  /** The pull request a finished run publishes: its own one, or a new one. */
  function PullFor(r: Request, prepared: Answer<Pull>): Option<Pull> {
    if prepared.Lost? then None else if r.pull.Some? then r.pull else Some(prepared.value)
  }

  function Submitted(t: Table, id: RequestId, pull: Pull): Table
    requires id in t
  {
    t[id := t[id].(status := Publishing, pull := Some(pull))]
  }

  function FinishResult(t: Table, id: RequestId, files: T.Files, blocked: bool, prepared: Answer<Pull>, poll: Poll, starts: Starts): Table
    requires id in t
  {
    if blocked || files == map[] then FailedAnd(t, id, starts) else SubmitResult(t, id, prepared, poll, starts)
  }

  function SubmitResult(t: Table, id: RequestId, prepared: Answer<Pull>, poll: Poll, starts: Starts): Table
    requires id in t
  {
    match PullFor(t[id], prepared)
    case None => FailedAnd(t, id, starts)
    case Some(pull) => PublishResult(Submitted(t, id, pull), id, poll, starts)
  }

  function SubmitCloses(t: Table, id: RequestId, prepared: Answer<Pull>, poll: Poll): set<nat>
    requires id in t
  {
    match PullFor(t[id], prepared)
    case None => PullToClose(t[id])
    case Some(pull) => PublishCloses(Submitted(t, id, pull), id, poll)
  }

  lemma StatusOverwritten(t: Table, id: RequestId, s: Status, pull: Pull, starts: Starts)
    requires id in t
    ensures var next := t[id := t[id].(status := s)];
      && FailedAnd(next, id, starts) == FailedAnd(t, id, starts)
      && Submitted(next, id, pull) == Submitted(t, id, pull)
      && PullToClose(next[id]) == PullToClose(t[id])
  {
    assert t[id := t[id].(status := s)][id := t[id].(status := Failed)] == t[id := t[id].(status := Failed)];
    assert t[id := t[id].(status := s)][id := t[id].(status := Publishing, pull := Some(pull))] ==
      t[id := t[id].(status := Publishing, pull := Some(pull))];
  }

  function FinishCloses(t: Table, id: RequestId, files: T.Files, blocked: bool, prepared: Answer<Pull>, poll: Poll): set<nat>
    requires id in t
  {
    if blocked || files == map[] then {} else SubmitCloses(t, id, prepared, poll)
  }

  /** A reversal poll. Giving up puts the request back to live. */
  function ReversalResult(t: Table, id: RequestId, poll: Poll, starts: Starts): Table
    requires id in t
  {
    match ReversalVerdict(poll)
    case GoLive(sha) =>
      Kicked(t[id := t[id].(status := Reversed, reversedCommit := Some(sha), reversed := true)], t[id].asset, starts)
    case GiveUp => t[id := t[id].(status := Live)]
    case _ => t[id := t[id].(status := Reversing)]
  }

  predicate UnderReversal(t: Table, id: RequestId) {
    id in t && t[id].status == Reversing && t[id].reversalPull.Some?
  }

  predicate CanReverse(t: Table, id: RequestId) {
    id in t && t[id].status == Live && t[id].pull.Some? && !OtherActive(t, id)
  }

  /** The reversal pull request: the one already open, or a new one. */
  function ReversalPull(r: Request, prepared: Answer<nat>): Option<nat> {
    if r.reversalPull.Some? then r.reversalPull else if prepared.Got? then Some(prepared.value) else None
  }

  function ReversalOpened(t: Table, id: RequestId, number: nat): Table
    requires id in t
  {
    t[id := t[id].(status := Reversing, reversalPull := Some(number))]
  }

  predicate ReversalThrows(t: Table, id: RequestId, prepared: Answer<nat>) {
    !CanReverse(t, id) || ReversalPull(t[id], prepared).None?
  }

  /** A reversal asked for: nothing where it throws, else what its first poll
      makes of it. */
  function ReverseResult(t: Table, id: RequestId, prepared: Answer<nat>, poll: Poll, starts: Starts): Table {
    if ReversalThrows(t, id, prepared) then t
    else ReversalResult(ReversalOpened(t, id, ReversalPull(t[id], prepared).value), id, poll, starts)
  }

  function Stalled(t: Table, stalled: set<RequestId>, s: Status): (ids: set<RequestId>)
    ensures forall id :: id in ids ==> id in t
  {
    set id | id in t && id in stalled && t[id].status == s
  }

  /** The apps whose stalled readers go back to their queues. */
  function RecoveredApps(t: Table, stalled: set<RequestId>): set<AssetId> {
    set id | id in Stalled(t, stalled, Reading) && id in t :: t[id].asset
  }

  function Recovered(t: Table, stalled: set<RequestId>): Table {
    map id | id in t ::
      if id in stalled && t[id].status == Reading then t[id].(status := Queued)
      else if id in stalled && t[id].status == MakingChanges then t[id].(status := WaitingOpenai)
      else t[id]
  }

  // ---------------------------------------------------------------------
  // A model response, as a verdict

  datatype ResponseStatus = Completed | Ended | InProgress

  datatype Response = Response(status: Option<ResponseStatus>, calls: seq<T.Call>, text: string)

  datatype RoundVerdict =
    | Abandon
    | Finish(files: T.Files, blocked: bool)
    | Ask(files: T.Files)

  function VerdictOf(staged: T.Files, response: Response, repo: T.Repo): RoundVerdict {
    if response.status != Some(Completed) then Abandon
    else if response.calls == [] then
      if response.text == "" then Abandon else RoundVerdict.Finish(staged, true)
    else
      var files := T.FilesAfter(staged, response.calls, repo);
      match T.RoundOf(response.calls)
      case Broken => Abandon
      case Done(blocked) => RoundVerdict.Finish(files, blocked)
      case Going =>
        Ask(files)
  }

  /** Out of turns, no answer, or an answer that is not new. */
  predicate OutOfLuck(t: Table, id: RequestId, ask: Answer<string>)
    requires id in t
  {
    t[id].turn >= MAX_TURNS || ask.Lost? || ResponseUsed(t, id, ask.value)
  }

  function AskResult(t: Table, id: RequestId, ask: Answer<string>, starts: Starts): Table
    requires id in t
  {
    if OutOfLuck(t, id, ask) then FailedAnd(t, id, starts)
    else t[id := t[id].(status := WaitingOpenai, responseId := Some(ask.value), turn := t[id].turn + 1)]
  }

  function AskCloses(t: Table, id: RequestId, ask: Answer<string>): set<nat>
    requires id in t
  {
    if OutOfLuck(t, id, ask) then PullToClose(t[id]) else {}
  }

  datatype Outside = Outside(repo: T.Repo, ask: Answer<string>, prepared: Answer<Pull>, poll: Poll)

  function Saved(t: Table, id: RequestId, files: T.Files): Table
    requires id in t
  {
    t[id := t[id].(status := MakingChanges, staged := files, unsaved := false)]
  }

  function RoundResult(t: Table, id: RequestId, response: Response, o: Outside, starts: Starts): Table
    requires id in t
  {
    match VerdictOf(t[id].staged, response, o.repo)
    case Abandon => FailedAnd(t, id, starts)
    case Finish(files, blocked) => FinishResult(Saved(t, id, files), id, files, blocked, o.prepared, o.poll, starts)
    case Ask(files) => AskResult(Saved(t, id, files), id, o.ask, starts)
  }

  function RoundCloses(t: Table, id: RequestId, response: Response, o: Outside): set<nat>
    requires id in t
  {
    match VerdictOf(t[id].staged, response, o.repo)
    case Abandon => PullToClose(t[id])
    case Finish(files, blocked) => FinishCloses(Saved(t, id, files), id, files, blocked, o.prepared, o.poll)
    case Ask(files) => AskCloses(Saved(t, id, files), id, o.ask)
  }

  // ---------------------------------------------------------------------
  // The table

  datatype Outcome = Threw | Handled(result: bool)

  predicate Publishable(t: Table, id: RequestId) {
    id in t && t[id].pull.Some? && t[id].status in {NeedsApproval, Publishing}
  }

  function Approved(t: Table, id: RequestId): Table
    requires id in t
  {
    t[id := t[id].(status := Publishing)]
  }

  /** The approval would give the app a second active request. */
  predicate ApprovalRejected(t: Table, id: RequestId) {
    Publishable(t, id) && t[id].status == NeedsApproval && OtherActive(t, id)
  }

  predicate AwaitsResponse(t: Table, id: RequestId, responseId: string) {
    id in t && t[id].responseId == Some(responseId) && t[id].status == WaitingOpenai
  }

  /** The row of a response a worker has claimed. */
  function Claimed(t: Table, id: RequestId): Table
    requires id in t
  {
    t[id := t[id].(status := MakingChanges, unsaved := true)]
  }

  predicate Resumes(t: Table, id: RequestId, responseId: string, reconcile: bool, response: Option<Response>) {
    && AwaitsResponse(t, id, responseId) && response.Some?
    && !(reconcile && response.value.status == Some(InProgress))
  }
}
