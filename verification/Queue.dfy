/** The App Builder request table as a state machine. One event is one SQL
    statement; events of different requests interleave freely.

    The guards say which row a statement is written for. They hold because a
    claim hands a row to one worker, a publish or reversal poll is taken as
    one step, and stall recovery takes rows from dead workers only. */
module Queue {
  import opened Common

  const MAX_TURNS := 100

  type RequestId = nat
  type AssetId = nat

  datatype Status =
    | Queued | Reading | WaitingOpenai | MakingChanges | PreparingReview | NeedsApproval
    | Publishing | Live | Reversing | Reversed | Failed

  datatype Pull = Pull(number: nat, branch: string, url: string)

  /** `unsaved` is not a column: it is what the worker of a claimed response
      knows, that it has yet to save the staged files. */
  datatype Request = Request(
    asset: AssetId,
    createdAt: nat,
    status: Status,
    responseId: Option<string>,
    turn: nat,
    staged: map<string, string>,
    pull: Option<Pull>,
    publishedCommit: Option<string>,
    reversalPull: Option<nat>,
    reversedCommit: Option<string>,
    reversed: bool,
    unsaved: bool)

  type Table = map<RequestId, Request>

  predicate Active(s: Status) {
    s in {Reading, WaitingOpenai, MakingChanges, PreparingReview, Publishing, Reversing}
  }

  // ---------------------------------------------------------------------
  // updateAppBuilderRequest: coalesce(new, old), column by column

  datatype Patch = Patch(
    status: Option<Status> := None,
    responseId: Option<string> := None,
    turn: Option<nat> := None,
    staged: Option<map<string, string>> := None,
    pull: Option<Pull> := None,
    publishedCommit: Option<string> := None,
    reversalPull: Option<nat> := None,
    reversedCommit: Option<string> := None,
    reversed: bool := false,
    unsaved: Option<bool> := None)

  function Coalesce<T>(a: Option<T>, b: Option<T>): Option<T> { if a.Some? then a else b }

  function Or<T>(a: Option<T>, b: T): T { if a.Some? then a.value else b }

  function Patched(r: Request, p: Patch): Request {
    Request(r.asset, r.createdAt, Or(p.status, r.status), Coalesce(p.responseId, r.responseId), Or(p.turn, r.turn),
            Or(p.staged, r.staged), Coalesce(p.pull, r.pull), Coalesce(p.publishedCommit, r.publishedCommit),
            Coalesce(p.reversalPull, r.reversalPull), Coalesce(p.reversedCommit, r.reversedCommit),
            p.reversed || r.reversed, Or(p.unsaved, r.unsaved))
  }

  function Write(t: Table, id: RequestId, p: Patch): Table {
    if id in t then t[id := Patched(t[id], p)] else t
  }

  // ---------------------------------------------------------------------
  // Table constraints

  predicate Sha(s: string) {
    40 <= |s| <= 64 && forall i :: 0 <= i < |s| ==> '0' <= s[i] <= '9' || 'a' <= s[i] <= 'f'
  }

  predicate HasActive(t: Table, asset: AssetId) {
    exists id :: id in t && t[id].asset == asset && Active(t[id].status)
  }

  predicate OtherActive(t: Table, id: RequestId) {
    exists other :: other in t && id in t && other != id && t[other].asset == t[id].asset && Active(t[other].status)
  }

  predicate ResponseUsed(t: Table, id: RequestId, response: string) {
    exists other :: other in t && other != id && t[other].responseId == Some(response)
  }

  /** The one_active_per_app index. */
  predicate OneActive(t: Table) {
    forall a, b :: a in t && b in t && Active(t[a].status) && Active(t[b].status) && t[a].asset == t[b].asset ==> a == b
  }

  /** The unique index on openai_response_id. */
  predicate UniqueResponses(t: Table) {
    forall a, b :: a in t && b in t && t[a].responseId.Some? && t[a].responseId == t[b].responseId ==> a == b
  }

  predicate CommitFormed(commit: Option<string>) { commit.Some? ==> Sha(commit.value) }

  predicate CommitsFormed(t: Table) {
    forall a :: a in t ==> CommitFormed(t[a].publishedCommit) && CommitFormed(t[a].reversedCommit)
  }

  predicate Constraints(t: Table) { OneActive(t) && UniqueResponses(t) && CommitsFormed(t) }

  // ---------------------------------------------------------------------
  // Queue order: created_at, then id

  predicate IsQueued(t: Table, id: RequestId, asset: AssetId) {
    id in t && t[id].asset == asset && t[id].status == Queued
  }

  predicate Before(t: Table, a: RequestId, b: RequestId)
    requires a in t && b in t
  {
    t[a].createdAt < t[b].createdAt || (t[a].createdAt == t[b].createdAt && a < b)
  }

  predicate IsHead(t: Table, id: RequestId, asset: AssetId) {
    IsQueued(t, id, asset) && forall b :: b in t && IsQueued(t, b, asset) ==> !Before(t, b, id)
  }

  // ---------------------------------------------------------------------
  // Events

  datatype Event =
    | Create(id: RequestId, request: Request)
    | ClaimNext(id: RequestId)
    | Start(id: RequestId, response: string)
    | Fail(id: RequestId)
    | ClaimResponse(id: RequestId)
    | Save(id: RequestId, staged: map<string, string>)
    | Resume(id: RequestId, response: string, staged: map<string, string>)
    | StopBlocked(id: RequestId)
    | Prepare(id: RequestId)
    | OpenPull(id: RequestId, pull: Pull)
    | Approve(id: RequestId)
    | Pending(id: RequestId)
    | Repair(id: RequestId, response: string)
    | Publish(id: RequestId, sha: string)
    | ClaimReversal(id: RequestId)
    | OpenReversal(id: RequestId, number: nat)
    | ReversalPending(id: RequestId)
    | Reverse(id: RequestId, sha: string)
    | ReversalFailed(id: RequestId)
    | Requeue(ids: set<RequestId>)
    | Redrive(ids: set<RequestId>)

  predicate Single(e: Event) { !e.Create? && !e.Requeue? && !e.Redrive? }

  /** The columns a single-row statement sets. */
  function PatchOf(t: Table, e: Event): Patch
    requires Single(e) && e.id in t
  {
    match e
    case ClaimNext(_) => Patch(status := Some(Reading))
    case Start(_, response) => Patch(status := Some(WaitingOpenai), responseId := Some(response), turn := Some(1))
    case Fail(_) => Patch(status := Some(Failed))
    case ClaimResponse(_) => Patch(status := Some(MakingChanges), unsaved := Some(true))
    case Save(_, staged) => Patch(staged := Some(staged), unsaved := Some(false))
    case Resume(id, response, staged) =>
      Patch(status := Some(WaitingOpenai), responseId := Some(response), turn := Some(t[id].turn + 1), staged := Some(staged))
    case StopBlocked(_) => Patch(status := Some(Failed))
    case Prepare(_) => Patch(status := Some(PreparingReview))
    case OpenPull(_, pull) => Patch(status := Some(Publishing), pull := Some(pull))
    case Approve(_) => Patch(status := Some(Publishing))
    case Pending(_) => Patch(status := Some(Publishing))
    case Repair(id, response) => Patch(status := Some(WaitingOpenai), responseId := Some(response), turn := Some(t[id].turn + 1))
    case Publish(_, sha) => Patch(status := Some(Live), publishedCommit := Some(sha))
    case ClaimReversal(_) => Patch(status := Some(Reversing))
    case OpenReversal(_, number) => Patch(status := Some(Reversing), reversalPull := Some(number))
    case ReversalPending(_) => Patch(status := Some(Reversing))
    case Reverse(_, sha) => Patch(status := Some(Reversed), reversedCommit := Some(sha), reversed := true)
    case ReversalFailed(_) => Patch(status := Some(Live))
  }

  /** The state a statement is written for. */
  predicate Guard(t: Table, e: Event) {
    match e
    case Create(id, r) => id !in t && r == NewRequest(r.asset, r.createdAt)
    case Requeue(ids) => forall id :: id in ids ==> id in t && t[id].status == Reading
    case Redrive(ids) => forall id :: id in ids ==> id in t && t[id].status == MakingChanges && t[id].responseId.Some?
    case _ => e.id in t && GuardRow(t, e, t[e.id])
  }

  predicate GuardRow(t: Table, e: Event, r: Request)
    requires Single(e)
  {
    match e
    case ClaimNext(id) => IsHead(t, id, r.asset) && !HasActive(t, r.asset)
    case Start(_, _) => r.status == Reading
    case Fail(_) => r.status in {Reading, MakingChanges, PreparingReview, Publishing}
    case ClaimResponse(_) => r.status == WaitingOpenai
    case Save(_, _) => r.status == MakingChanges && r.unsaved
    case Resume(_, _, _) => r.status == MakingChanges && r.turn < MAX_TURNS
    case StopBlocked(_) => r.status == MakingChanges
    case Prepare(_) => r.status == MakingChanges
    case OpenPull(_, _) => r.status == PreparingReview
    case Approve(_) => r.status == NeedsApproval && r.pull.Some?
    case Pending(_) => r.status == Publishing
    case Repair(_, _) => r.status == Publishing && r.turn < MAX_TURNS
    case Publish(_, _) => r.status == Publishing
    case ClaimReversal(_) => r.status == Live && r.pull.Some?
    case OpenReversal(_, _) => r.status == Reversing
    case ReversalPending(_) => r.status == Reversing
    case Reverse(_, _) => r.status == Reversing && r.reversalPull.Some?
    case ReversalFailed(_) => r.status == Reversing
  }

  function NewRequest(asset: AssetId, createdAt: nat): Request {
    Request(asset, createdAt, Queued, None, 0, map[], None, None, None, None, false, false)
  }

  function SetAll(t: Table, ids: set<RequestId>, s: Status): Table {
    map id | id in t :: if id in ids then t[id].(status := s) else t[id]
  }

  function Apply(t: Table, e: Event): Table
    requires Guard(t, e)
  {
    match e
    case Create(id, r) => t[id := r]
    case Requeue(ids) => SetAll(t, ids, Queued)
    case Redrive(ids) => SetAll(t, ids, WaitingOpenai)
    case _ => Write(t, e.id, PatchOf(t, e))
  }

  /** What the table constraints ask of a statement, row by row. */
  predicate Fits(t: Table, e: Event) {
    match e
    case Start(id, response) => !ResponseUsed(t, id, response)
    case Resume(id, response, _) => !ResponseUsed(t, id, response)
    case Repair(id, response) => !ResponseUsed(t, id, response)
    case Approve(id) => !OtherActive(t, id)
    case ClaimReversal(id) => !OtherActive(t, id)
    case Publish(_, sha) => Sha(sha)
    case Reverse(_, sha) => Sha(sha)
    case _ => true
  }

  // ---------------------------------------------------------------------
  // When do the constraints reject a statement?

  /** A single-row statement changes that row as its patch says, and no other. */
  lemma ApplyRow(t: Table, e: Event)
    requires Single(e) && Guard(t, e)
    ensures e.id in t && Apply(t, e).Keys == t.Keys && Apply(t, e)[e.id] == Patched(t[e.id], PatchOf(t, e))
    ensures forall a :: a in t && a != e.id ==> Apply(t, e)[a] == t[a]
  {
  }

  lemma OneActiveAfter(t: Table, e: Event)
    requires OneActive(t) && Guard(t, e)
    ensures OneActive(Apply(t, e)) <==> (e.Approve? || e.ClaimReversal? ==> !OtherActive(t, e.id))
  {
    if Single(e) {
      ApplyRow(t, e);
      OneActiveRow(t, e.id, Apply(t, e));
      assert e.ClaimNext? ==> !OtherActive(t, e.id) by { assert e.ClaimNext? ==> !HasActive(t, t[e.id].asset); }
    } else {
      OneActiveBulk(t, e);
    }
  }

  /** Inserting, requeueing and redriving never make a row active. */
  lemma OneActiveBulk(t: Table, e: Event)
    requires OneActive(t) && Guard(t, e) && !Single(e)
    ensures OneActive(Apply(t, e))
  {
    var next := Apply(t, e);
    assert forall a :: a in next && Active(next[a].status) ==> a in t && Active(t[a].status) && next[a].asset == t[a].asset;
  }

  /** Changing one row keeps the index unless the row turns active beside another. */
  lemma OneActiveRow(t: Table, id: RequestId, next: Table)
    requires OneActive(t) && id in t && next.Keys == t.Keys
    requires next[id].asset == t[id].asset && forall a :: a in t && a != id ==> next[a] == t[a]
    ensures OneActive(next) <==> (Active(next[id].status) && !Active(t[id].status) ==> !OtherActive(t, id))
  {
    if Active(next[id].status) && OtherActive(t, id) {
      var other :| other in t && other != id && t[other].asset == t[id].asset && Active(t[other].status);
      assert next[other] == t[other];
    }
  }

  lemma UniqueResponsesAfter(t: Table, e: Event)
    requires UniqueResponses(t) && Guard(t, e)
    ensures UniqueResponses(Apply(t, e)) <==> (e.Start? || e.Resume? || e.Repair? ==> !ResponseUsed(t, e.id, e.response))
  {
    var next := Apply(t, e);
    if e.Start? || e.Resume? || e.Repair? {
      assert next[e.id].responseId == Some(e.response);
      if ResponseUsed(t, e.id, e.response) {
        var other :| other in t && other != e.id && t[other].responseId == Some(e.response);
        assert next[other] == t[other];
      }
    } else {
      assert forall a :: a in t ==> a in next && next[a].responseId == t[a].responseId;
    }
  }

  lemma CommitsFormedAfter(t: Table, e: Event)
    requires CommitsFormed(t) && Guard(t, e)
    ensures CommitsFormed(Apply(t, e)) <==> (e.Publish? || e.Reverse? ==> Sha(e.sha))
  {
    var next := Apply(t, e);
    if e.Publish? { assert next[e.id].publishedCommit == Some(e.sha); }
    if e.Reverse? { assert next[e.id].reversedCommit == Some(e.sha); }
  }

  /** Of all statements the constraints can reject only: a response id that
      another row holds, a malformed commit, and the approval or reversal of
      a request whose app already has an active one. */
  lemma RejectedIff(t: Table, e: Event)
    requires Constraints(t) && Guard(t, e)
    ensures Constraints(Apply(t, e)) <==> Fits(t, e)
  {
    OneActiveAfter(t, e);
    UniqueResponsesAfter(t, e);
    CommitsFormedAfter(t, e);
  }
}
