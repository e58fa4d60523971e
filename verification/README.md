# Cove: verified models of its queue, access, calendar and seat logic

This project models four parts of Cove, the internal platform of a travel
company, and proves what they keep.

**App Builder queue** (`Queue`, `QueueRuns`, `QueueKick`, `AgentTools`,
`AgentRules`, `QueueResults`, `QueueMoves`, `QueuePasses`, `QueueKeeps`,
`QueueOutcomes`, `QueueAnswers`, `QueueHandlers`). A table of change requests
moves through eleven statuses, driven by webhooks, a browser poll and a cron.
Every SQL statement is an event with a guard; a run is any sequence of enabled
events, so every interleaving of handlers is a run. The class `RequestTable`
holds the rows and has one method per handler, each proved equal to a function
of the old rows and of the answers GitHub and OpenAI gave; `QueueAnswers` says
the same on the answers and the columns alone. One call of a handler is also a
move, a reconcile pass is proved to be its moves in their order up to the first
that throws, and what no handler changes is proved over every sequence of
moves. The tools the model calls to edit files are a class over the staged-file
map, and `AgentRules` says on paths and texts what they let through.

**Access** (`AccessModel`, `Evaluator`, `AccessLaws`, `AccessFields`,
`AccessDenials`, `AccessStability`, `AccessSummary`, `PolicyFields`,
`PolicyRows`, `PolicyWriting`, `PolicyCompleteness`, `PolicyReading`,
`AccessTables`, `AccessRuns`, `AccessRows`, `AccessInvariant`,
`AccessReplies`, `AccessEffects`, `AccessStore`, over `Lists`). The access
decision is a staged filter over a snapshot; the summary for administrators
computes the same thing for everybody at once; the validator turns database
rows into a snapshot. The mutations are a state machine over people, platform
roles, mutation keys, entitlements and the audit log: all common table
expressions of a statement read the tables as they were before it and take
effect together, and the trigger on platform roles then synchronises the
SuperPanel entitlement. `AccessFields`, `PolicyReading` and `AccessRows` say the
decision, the validator and the statements on the columns alone. The class `Store` holds the tables and has one method
per statement and per server action; between an action's early check and its
statement, anybody else's statements may run.

**Booking calendar** (`Spans`, `CalendarView`, `DayGroups`). Spans are
half-open, non-empty ranges of minutes. The merge widens copies in place, the
subtraction moves a cursor and leaves its loop early.

**Group-session seats** (`Seats`). Guests claim, insert and release while a
manager cancels; every statement is one step and steps of any number of guests
interleave.

## Where the code and what is said about it differ

The model follows the code. Each of these is proved, with the exact condition
under which the promise does hold.

- The end of `fail` (src/lib/app-builder/queue.ts:261-270) says that a dead
  request must not leave its pull request behind. A run that stops with a
  blocked result, or with an empty change, during a repair round leaves it open
  (`QueueOutcomes.PullLeftOpenIff`).
- A reversal that fails gives up its app's slot without starting the app's next
  request, so the app is left idle exactly when some are waiting
  (`QueueOutcomes.FailedReversalServesIff`, `QueueOutcomes.ReversalServesIff`).
- A reversal that fails returns the request to live, from where its reversal can
  be asked for again. But the number of the reversal's pull request is never
  replaced, so once that one was closed every later attempt asks about the
  closed one and fails (`QueueKeeps.ClosedReversalIsFinal`, `QueueKeeps.ReversedIff`).
- Reconciling is meant to drive every kind of outstanding work. A request that
  was preparing its pull request, or whose reversal had none yet, when its
  worker died is never taken up again, by reconcile or by any other handler, and
  holds its app's slot for ever (`QueueKeeps.StuckIff`,
  `QueueKeeps.StuckForever`). An approval rejected
  beside an active request throws outside the handler's try and ends the whole
  pass before any queue is kicked (`QueuePasses.PassAborts`,
  `QueuePasses.RejectedApprovalAborts`).
- The tool description says that the text to replace is unique. The match count
  skips overlapping occurrences, so it can be 1 for a text that occurs twice
  (`AgentTools.MatchCountMeansUniqueIff`). The replacement text is read for `$`
  patterns (`AgentTools.ReplacedAsWrittenIff`). The limit on the whole patch is
  checked after the write (`AgentTools.RejectedEditIsStagedIff`). The limit of
  200 files takes names that every object inherits for staged ones
  (`AgentTools.LimitOutgrownIff`), and a file named `__proto__` is reported as
  created and not staged (`AgentTools.SucceedsButNotStagedIff`).
- The comment on `weekDayKeys` says that stepping by 24 hours avoids the
  arithmetic of daylight saving. A step can skip a local day
  (`DayGroups.PagesListTheirDaysIff`, `DayGroups.PagesCanSkipADay`).
- A refusal for lack of seats is reported as `session_closed`; `session_full` is
  reported exactly while a seat is free (`Seats.FullIsSaidIff`).
- A guest between claim and insert when a session is cancelled still gets a
  confirmed seat (`Seats.CancelledStaysEmptyIff`, `Seats.LateSeat`).
- `resolveMutationOutcome` says that a claimed request id alone never reports
  success. A request whose target is missing uses up its id, and repeating it is
  then answered as already processed (`AccessReplies.MissingIsRetriedAsDoneIff`).
- The answer that a level of access was already assigned is never given: asking
  for the level somebody holds revokes their entitlement, adds an equal one and
  is answered as a change (`AccessReplies.LevelUnchangedIff`,
  `AccessReplies.SameLevelTwice`).
- An invitation looks only at entitlements in force, so it can add a second
  unrevoked one beside an unrevoked entitlement outside its dates
  (`AccessRuns.InviteKeepsOneIff`).
- A change of a systems role can write two audit events, the second by the
  trigger and without a request id (`AccessReplies.AuditedTwiceIff`).
- The summary ignores an application's status and allowed populations
  (`AccessSummary.SummaryDisagreesIff`).
- The validator does not require user ids to be unique, only identities and
  referenced ids (`PolicyRows.OneMoreUserIff`).

## Model

| member | source | states |
|---|---|---|
| `Queue.ApplyRow` | src/lib/app-builder/server.ts:309-333 | an update by id with coalesce semantics changes exactly the named columns of that row and no other row |
| `Queue.OneActiveAfter` | db/034_app_builder_auto_publish.sql:27-31 | the one-active index survives a statement if and only if it is not an approval or a reversal claim beside another active request of the app |
| `Queue.OneActiveBulk` | src/lib/app-builder/server.ts:198-210 | inserting, requeueing and redriving never make a request active |
| `Queue.UniqueResponsesAfter` | src/lib/app-builder/server.ts:309-333 | a response id stays with one request exactly when no other row already has it |
| `Queue.CommitsFormedAfter` | db/034_app_builder_auto_publish.sql:18-25 | the commit checks survive exactly when the recorded commit is well formed |
| `Queue.RejectedIff` | db/034_app_builder_auto_publish.sql:18-31 | the complete list of writes that the table constraints reject |
| `QueueRuns.LifecycleAfter` | src/lib/app-builder/queue.ts:106-254 | every statement keeps the per-status facts about turn, response id, pull requests and commits |
| `QueueRuns.StepKeeps` | src/lib/app-builder/server.ts:219-333 | every accepted statement keeps the constraints and the lifecycle facts |
| `QueueRuns.RunKeeps` | src/lib/app-builder/queue.ts:22-272 | the same over every run of any length and interleaving |
| `QueueRuns.RequestsInAnyRun` | src/lib/app-builder/queue.ts:106-254 | in every reachable table an app has at most one active request; a published commit is there exactly for live, reversing and reversed; failed has none; publishing has a pull request; waiting has a response id and a turn from 1 to 100 |
| `QueueRuns.MeasureStep` | src/lib/app-builder/queue.ts:72-169 | each driving statement lowers the pair of remaining turns and status rank; requeueing raises it by one, redriving by one or, once the files are saved, by two; nothing else moves it |
| `QueueRuns.DrivenByBudget` | src/lib/app-builder/queue.ts:72-169 | in any run, driving statements of a request plus its remaining measure are at most its first measure plus twice its recoveries |
| `QueueRuns.RequestTerminates` | src/lib/app-builder/model.ts:8 | without recovery a request is driven at most 908 times, saves of its files included and however often it returns for repair; only polls that find checks pending are not counted |
| `QueueRuns.EntersActive` | src/lib/app-builder/server.ts:219-299 | a request becomes active only by the queue claim, an approval or a reversal claim, and only when its app has no active request |
| `QueueKick.KickServes` | src/lib/app-builder/queue.ts:22-46 | after a kick the app has an active request or none waiting |
| `QueueKick.KickIsFair` | src/lib/app-builder/server.ts:221-225 | a later request leaves the queue only if every earlier one could not be started and failed |
| `QueueKick.KickStaysInApp` | src/lib/app-builder/queue.ts:22-46 | a kick changes no other app's rows |
| `QueueKick.KickIdle` | src/lib/app-builder/server.ts:226-234 | a kick of a busy app, or of one with nothing waiting, changes nothing |
| `QueueKick.KickStarts` | src/lib/app-builder/queue.ts:37-44 | with a first request that can start, a kick starts that one only |
| `QueueKick.KickFails` | src/lib/app-builder/queue.ts:45-46 | with a first request that cannot start, a kick fails it and is a kick of what is left |
| `QueueHandlers.RequestTable.UpdateRequest` | src/lib/app-builder/server.ts:309-333 | the write is made exactly when the constraints allow it, and otherwise changes nothing |
| `QueueHandlers.RequestTable.ClaimNextRequest` | src/lib/app-builder/server.ts:219-242 | the first queued request by creation time and id is claimed, exactly when the app has waiting requests and no active one |
| `QueueHandlers.RequestTable.Kick` | src/lib/app-builder/queue.ts:22-46 | the mutual recursion with fail terminates and its result is the kick function of the old rows |
| `QueueHandlers.RequestTable.FailRequest` | src/lib/app-builder/queue.ts:256-272 | the row fails, its unpublished pull request is closed, and the queue is kicked |
| `QueueHandlers.RequestTable.PollPublishing` | src/lib/app-builder/queue.ts:143-190 | the whole publishing poll, with its catch, as the verdict on the answers; and, on the answers alone, exactly when the row ends live, at the model, publishing or failed |
| `QueueHandlers.RequestTable.PublishRequest` | src/lib/app-builder/queue.ts:137-191 | an approval beside another active request throws and changes nothing; otherwise the poll's result |
| `QueueHandlers.RequestTable.RepairOrFail` | src/lib/app-builder/queue.ts:152-169 | failing checks send the request back for repair exactly when a turn is left, an answer came and its id is unused |
| `QueueHandlers.RequestTable.FinishRun` | src/lib/app-builder/queue.ts:106-135 | a blocked or empty result fails the row and kicks the queue; otherwise the pull request is opened or updated and polled |
| `QueueHandlers.RequestTable.RunRound` | src/lib/app-builder/queue.ts:80-103 | the try block of a continued response, tool calls included, as the verdict on the response |
| `QueueHandlers.RequestTable.AskForMore` | src/lib/app-builder/queue.ts:99-103 | the turn budget ends the run, or the next response is recorded with the staged files and one more turn |
| `QueueHandlers.RequestTable.CreateRequest` | src/lib/app-builder/server.ts:128-147 | a new request is queued under an unused id and no row changes |
| `QueueHandlers.RequestTable.ContinueResponse` | src/lib/app-builder/queue.ts:72-104 | only the waiting request with that response id moves, to its round's result; unfinished answers seen by the reconcile poll change nothing; it throws exactly when the answer of a waiting request cannot be fetched |
| `QueueHandlers.RequestTable.ContinueReversal` | src/lib/app-builder/queue.ts:220-254 | a reversal ends reversed with its commit, stays under way, or returns to live, by the answers alone |
| `QueueHandlers.RequestTable.BeginReversal` | src/lib/app-builder/queue.ts:193-211 | the reversal is under way with the pull request it has or a new one, or nothing changed |
| `QueueHandlers.RequestTable.ReverseRequest` | src/lib/app-builder/queue.ts:193-218 | it throws exactly without a live request with a pull request, beside an active one, or when no reversal can be prepared, and then changes nothing; otherwise the result of the reversal's first poll |
| `QueueHandlers.RequestTable.RecoverStalled` | src/lib/app-builder/server.ts:198-210 | stalled readers are requeued and stalled runs returned to waiting, and the apps of the former are reported |
| `QueueHandlers.RequestTable.ResumeAll` | src/lib/app-builder/queue.ts:63 | the loop makes the moves of the listed responses in their order, each on the rows the earlier ones left, and throws exactly when one of them does |
| `QueueHandlers.RequestTable.PollNext` | src/lib/app-builder/queue.ts:64-68 | one turn of the publishing loop and its exact result; it throws exactly on a rejected approval |
| `QueueHandlers.RequestTable.PollAll` | src/lib/app-builder/queue.ts:64-68 | the same for the moves of the listed requests |
| `QueueHandlers.RequestTable.KickAll` | src/lib/app-builder/queue.ts:69 | the same for the kicks; every app in scope is served at the end, also those kicked early |
| `QueueHandlers.RequestTable.Reconcile` | src/lib/app-builder/queue.ts:55-70 | the rows and the closed pull requests are those of recovery and then every listed response, poll and kick, up to the first that throws, and it completes exactly when none does; then every app in scope, and every app a request was recovered for, is left working or with nothing waiting |
| `QueueMoves.MadeConcat` | src/lib/app-builder/queue.ts:63-69 | moves made in two goes are the moves made in one |
| `QueueMoves.ThrewStays` | src/lib/app-builder/queue.ts:63-69 | nothing after a throw is done |
| `QueueMoves.MovePasses` | src/lib/app-builder/queue.ts:22-272 | no handler call loses a row, moves a stuck one or makes one need approval |
| `QueuePasses.PassServes` | src/lib/app-builder/queue.ts:48-70 | a pass that does not throw leaves every app in scope working or with nothing waiting |
| `QueuePasses.PassCompletes` | src/lib/app-builder/queue.ts:55-70 | it does not throw when every answer can be fetched and no listed request asks for approval |
| `QueuePasses.PassAborts` | src/lib/app-builder/queue.ts:140-142 | a pass whose first poll is an approval beside an active request ends there and kicks no queue |
| `QueuePasses.RejectedApprovalAborts` | src/lib/app-builder/queue.ts:140-142 | a concrete table on which that leaves another app idle with a request waiting |
| `QueuePasses.PassInOrder` | src/lib/app-builder/queue.ts:55-70 | every move of a pass by its place: recovery, the listed responses, the listed requests, the apps in scope |
| `QueueKeeps.StuckIff` | src/lib/app-builder/server.ts:188-210 | of the active requests, exactly those preparing a pull request, or reversing without a reversal pull request, can be moved by no turn of a reconcile pass, and by no other handler call either |
| `QueueKeeps.StuckForever` | src/lib/app-builder/server.ts:271-290 | over any sequence of webhooks, passes, reversals and new requests, such a request stays as it is and every request queued behind it keeps waiting |
| `QueueKeeps.ReversedIff` | src/lib/app-builder/queue.ts:220-254 | a published request with a reversal pull request is reversed by a handler call if and only if the call asks about that pull request and is told that it is merged |
| `QueueKeeps.ClosedReversalIsFinal` | src/lib/app-builder/queue.ts:197-211 | over any sequence of handler calls that are told it is closed, the request is never reversed and at most goes back to live |
| `QueueKeeps.ClosedReversalAgain` | src/lib/app-builder/queue.ts:231 | a concrete live request whose second reversal changes nothing, whatever could be prepared |
| `QueueKeeps.MoveStagesOk` | src/lib/app-builder/queue.ts:82-97 | a handler call leaves every row's staged files within the rules on paths, sizes and number |
| `QueueKeeps.StagedOkForever` | src/lib/app-builder/queue.ts:82-97 | so does any sequence of them, whatever the model asked for |
| `QueueOutcomes.RoundServes` | src/lib/app-builder/queue.ts:80-104 | whatever the model answered, the app ends up working or with nothing waiting |
| `QueueOutcomes.PublishServes` | src/lib/app-builder/queue.ts:137-191 | so it does after every publishing poll, which fails the row exactly when it gives up |
| `QueueOutcomes.RoundStaysInApp` | src/lib/app-builder/queue.ts:80-135 | a round changes no request of another app |
| `QueueOutcomes.FailedReversalServesIff` | src/lib/app-builder/queue.ts:213-217 | a reversal put back to live, wherever it failed, leaves its app served if and only if no request of the app is waiting |
| `QueueOutcomes.ReversalServesIff` | src/lib/app-builder/queue.ts:245-253 | after a reversal poll the app is served if and only if the reversal was not given up with requests waiting |
| `QueueOutcomes.ReversalLeavesQueueWaiting` | src/lib/app-builder/queue.ts:251-252 | a concrete table on which it is not |
| `QueueOutcomes.PullLeftOpenIff` | src/lib/app-builder/queue.ts:106-112 | a run that fails leaves its pull request open if and only if it had one and was stopped rather than failed |
| `QueueOutcomes.StopInRepairLeavesPullOpen` | src/lib/app-builder/queue.ts:86-112 | a concrete repair round that does |
| `QueueOutcomes.LiveOnlyWhenMerged` | src/lib/app-builder/queue.ts:143-181 | a publishing poll makes a request live, with a commit, if and only if it is the one polled and GitHub said it is merged with that commit, or found nothing open, failing or pending and merged it now; no other request becomes live |
| `QueueOutcomes.SubmitLiveOnlyWhenMerged` | src/lib/app-builder/queue.ts:113-135 | the same if and only if for the poll that follows a submitted pull request, which also needs that pull request to be opened or updated |
| `QueueOutcomes.RoundLiveOnlyWhenMerged` | src/lib/app-builder/queue.ts:80-135 | the same if and only if for a whole round, which also needs the model to have finished, unblocked, with something staged |
| `QueueAnswers.PublishEnds` | src/lib/app-builder/queue.ts:143-190 | on the answers and the row's turn alone: a publishing poll ends live with the merged commit, at the model with the new response id and one more turn, still publishing, or failed, each exactly when stated; no other column moves |
| `QueueAnswers.PublishClosesIff` | src/lib/app-builder/queue.ts:261-270 | a poll closes a pull request exactly when it fails an unpublished request, and then that request's own |
| `QueueAnswers.ReversalEndsIn` | src/lib/app-builder/queue.ts:223-253 | the same for a reversal poll: reversed with the merged commit, still reversing, or live with nothing else changed |
| `QueueAnswers.ReversalBegunIff` | src/lib/app-builder/queue.ts:193-211 | exactly when a reversal is begun, and with which pull request |
| `QueueAnswers.RoundIff` | src/lib/app-builder/queue.ts:91-96 | the tool calls break exactly on one without id or readable arguments; otherwise the last finishing call decides, and without one the run goes on |
| `QueueAnswers.RoundWithoutResult` | src/lib/app-builder/queue.ts:80-104 | an answer that is not complete, is empty, or holds a broken call fails the request and stages nothing |
| `QueueAnswers.RoundInWords` | src/lib/app-builder/queue.ts:86-90 | words alone stop the run and close no pull request |
| `QueueAnswers.RoundFinishes` | src/lib/app-builder/queue.ts:106-135 | a finished run stops when blocked or empty, fails without a pull request, and otherwise is polled with its own pull request or the new one |
| `QueueAnswers.RoundGoesOn` | src/lib/app-builder/queue.ts:97-103 | an unfinished run goes on with one more turn exactly while a turn of 100 is left and a new response id comes |
| `QueueAnswers.AnswersAreAll` | src/lib/app-builder/queue.ts:80-103 | these four are all the answers there are |
| `QueueAnswers.SubmitsIff` | src/lib/app-builder/queue.ts:106-112 | which rounds submit their files, and which stop, on the calls and texts |
| `QueueAnswers.ResumesIff` | src/lib/app-builder/queue.ts:72-79 | which row an answer resumes; an answer in progress, seen by the reconcile poll, resumes none |
| `QueueAnswers.HeadIsOldest` | src/lib/app-builder/server.ts:221-225 | the request claimed is the oldest waiting one of its app, by creation time and then id |
| `QueueAnswers.RecoveryMoves` | src/lib/app-builder/server.ts:198-209 | recovery moves stalled readers and stalled runs, each to its status, and nothing else |
| `QueueAnswers.RecoveredAppsAre` | src/lib/app-builder/server.ts:198-210 | the apps reported are those of the stalled readers |
| `QueueAnswers.CommitIff` | db/034_app_builder_auto_publish.sql:18-25 | a commit is from 40 to 64 lower-case hexadecimal digits |
| `QueueAnswers.ActiveMeans` | db/034_app_builder_auto_publish.sql:27-31 | the statuses that leave an app's slot free are queued, needing approval, live, reversed and failed |
| `AgentTools.OneMatch` | src/lib/app-builder/agent.ts:75-76 | a count of one means: an occurrence, and none clear of it |
| `AgentTools.MatchCountMeansUniqueIff` | src/lib/app-builder/agent.ts:75-76 | a count of one means a unique occurrence, in every file, if and only if the text cannot overlap itself |
| `AgentTools.OverlapCountsOnce` | src/lib/app-builder/agent.ts:75-76 | a concrete text that occurs twice and is counted once |
| `AgentTools.ReplacedAsWrittenIff` | src/lib/app-builder/agent.ts:77 | the replacement is inserted as written, in every file, if and only if it holds no `$` pattern |
| `AgentTools.PatternIsNotWritten` | src/lib/app-builder/agent.ts:77 | a concrete edit whose `$&` is expanded |
| `AgentTools.ReplaceSplices` | src/lib/app-builder/agent.ts:69-79 | with plain replacement text the edit splices it over the one occurrence and leaves the rest |
| `AgentTools.SafeRepositoryPath` | src/lib/app-builder/model.ts:89-93 | an accepted path has no leading slash, no `..` and only the allowed characters |
| `AgentTools.ProtectionIgnoresCase` | src/lib/app-builder/model.ts:95-107 | whether a path is protected does not depend on letter case |
| `AgentTools.EditIsWritable` | src/lib/app-builder/agent.ts:69-84 | an edit that gets past the guards names a safe, unprotected path |
| `AgentTools.Staging.Stage` | src/lib/app-builder/agent.ts:91-96 | what is written, inherited names and the ignored one included, and that success also needs the patch limit, checked after the write |
| `AgentTools.Staging.RunTool` | src/lib/app-builder/agent.ts:46-89 | the staged files after any tool call, exactly which edits succeed, and exactly which are rejected and staged all the same |
| `AgentTools.ToolKeepsStagedOk` | src/lib/app-builder/agent.ts:61-96 | no call stages a protected path, an oversized file or a 201st file under a name that is not inherited; none touches or adds two paths or unstages one |
| `AgentTools.StagedAtMost` | src/lib/app-builder/agent.ts:92 | so there are never more than 200 files and one for each inherited name |
| `AgentTools.LimitOutgrownIff` | src/lib/app-builder/agent.ts:92 | a call takes the staged files past 200 if and only if it creates a new, acceptable file under an inherited name beside 200 others |
| `AgentTools.LimitIsOutgrown` | src/lib/app-builder/agent.ts:92 | concrete files and a call that stages the 201st, named constructor |
| `AgentTools.SucceedsButNotStagedIff` | src/lib/app-builder/agent.ts:94 | an edit answered as done is not staged if and only if it names `__proto__` |
| `AgentTools.ProtoIsNotStaged` | src/lib/app-builder/agent.ts:94 | a concrete call that is |
| `AgentTools.RejectedEditIsStagedIff` | src/lib/app-builder/agent.ts:93-95 | an edit that does not succeed changes the staged files if and only if it is accepted, differs from what is staged, and takes the patch over its limit |
| `AgentTools.RejectedFileStays` | src/lib/app-builder/agent.ts:93-95 | concrete files and a call that is rejected and stays staged |
| `AgentTools.RunCalls` | src/lib/app-builder/queue.ts:91-96 | the loop over the tool calls computes the round and its files, a malformed call breaks it |
| `AgentTools.RoundKeepsStagedOk` | src/lib/app-builder/queue.ts:91-97 | a whole round keeps the staged files within paths and limits |
| `AgentRules.SafePathIff` | src/lib/app-builder/model.ts:89-93 | a path is accepted as itself without its leading slashes, exactly when that is not empty, has only letters, digits and `_.-/`, and no two dots in a row |
| `AgentRules.ProtectedIff` | src/lib/app-builder/model.ts:95-107 | exactly the paths that name one of the twenty protected places, at any depth and in any letter case, are refused |
| `AgentRules.CreateEditIff` | src/lib/app-builder/agent.ts:80-85 | a file can be created exactly under an accepted, unprotected path, with the content asked for |
| `AgentRules.ReplaceEditIff` | src/lib/app-builder/agent.ts:67-79 | a file is edited exactly under such a path, from its staged text or else the repository's, when the text to replace is not empty and counted once |
| `AgentRules.OthersEditNothing` | src/lib/app-builder/agent.ts:58-88 | no other tool changes a file |
| `AgentRules.StagedIff` | src/lib/app-builder/agent.ts:91-96 | with the limits of 200 files, a million bytes each and twenty million together: when an edit is staged, what it leaves, and when it succeeds |
| `AgentRules.PatternsStandFor` | src/lib/app-builder/agent.ts:77 | the four substitution patterns stand for a dollar sign, the text found, the text before it and the text after it |
| `Evaluator.GateAdmits` | src/lib/access/evaluator.ts:115-155 | the checks before entitlements pass for a user and application exactly when a verified, matching, active user meets an active application open to them and, for a partner, an active organisation |
| `AccessLaws.DecideGrants` | src/lib/access/evaluator.ts:157-216 | the staged filters grant exactly when an entitlement passes all of them, and the grant is built from exactly those |
| `AccessLaws.AllowedIff` | src/lib/access/evaluator.ts:108-217 | on a validated snapshot access is granted if and only if identity, user, application and one entitlement with its own role line up; and no decision is ever that a role is invalid |
| `AccessLaws.GrantedPermissions` | src/lib/access/evaluator.ts:203-212 | a grant lists exactly the permissions of the roles it came through, once each, sorted |
| `AccessLaws.GrantedRoles` | src/lib/access/evaluator.ts:210-211 | the same for role ids and keys |
| `AccessLaws.GrantedEntitlements` | src/lib/access/evaluator.ts:213 | the entitlements a grant names are exactly those that grant, sorted |
| `AccessLaws.EntitlementsNamedOnce` | src/lib/access/evaluator.ts:213 | on unique entitlements each is named once |
| `AccessLaws.ScopeIsNotMixed` | src/lib/access/evaluator.ts:91-106 | an organisation is in a grant's scope if and only if one entitlement names it and carries, through its own role, the asked permission; all organisations only for an employee with such an entitlement |
| `AccessLaws.PartnerSeesOwnOrganisation` | src/lib/access/evaluator.ts:80-106 | an external partner's scope is that partner's own organisation, alone |
| `AccessFields.GateOpensIff` | src/lib/access/evaluator.ts:115-155 | the gate opens exactly for a proven identity with its active user, an active application open to them and, for a partner, an active organisation, on their fields |
| `AccessFields.GrantedLinesUp` | src/lib/access/evaluator.ts:108-217 | on any snapshot a grant comes from an entitlement of that application whose own window is unrevoked, started and not over, held by the user or by an active team they are in just as currently, with a role of that application open to them, within their scope and with the permission asked |
| `AccessFields.GrantedIffLinesUp` | src/lib/access/evaluator.ts:13-217 | on a validated snapshot that is an if and only if, on the fields alone |
| `AccessFields.GrantedFromStartToEnd` | src/lib/access/evaluator.ts:13-28 | a concrete entitlement from 3 to 5 grants exactly at 3 and after, and before 5 |
| `AccessDenials.GateReasonIff` | src/lib/access/evaluator.ts:115-155 | each reason given before entitlements are looked at is given if and only if it holds of the snapshot and everything asked before it is in order |
| `AccessDenials.StageReasonIff` | src/lib/access/evaluator.ts:157-198 | each later reason is given if and only if some entitlement gets as far as that stage and none passes it |
| `AccessDenials.DeniedIff` | src/lib/access/evaluator.ts:108-198 | on a validated snapshot, for every reason, exactly when access is denied with it |
| `AccessStability.OrderDoesNotMatter` | src/lib/access/evaluator.ts:108-217 | the whole decision is unchanged by any reordering of users, organisations, teams, memberships, applications, roles and entitlements |
| `AccessStability.NarrowingNeverAdmits` | src/lib/access/evaluator.ts:157-216 | removing or revoking memberships and entitlements never turns a denial into a grant |
| `AccessStability.NarrowingAddsNoPermission` | src/lib/access/evaluator.ts:191-212 | nor adds a permission |
| `AccessStability.NarrowingAddsNoRole` | src/lib/access/evaluator.ts:203-211 | nor a role |
| `AccessStability.NarrowingNeverWidensScope` | src/lib/access/evaluator.ts:91-106 | nor widens the scope |
| `AccessStability.RoleInvalidIff` | src/lib/access/evaluator.ts:168-175 | on any snapshot a role is found invalid exactly when an entitlement in force for the user names none of the application's roles |
| `AccessStability.ConstantBetweenInstants` | src/lib/access/evaluator.ts:13-28 | the decision is constant between consecutive start, expiry and verification instants |
| `AccessStability.ListsTheAllowed` | src/lib/access/evaluator.ts:238-252 | the launcher lists exactly the applications the user may open |
| `AccessSummary.LevelsGranted` | src/lib/access/systems-port-model.ts:153-180 | an employee's levels are exactly the levels of the roles that grant |
| `AccessSummary.AdminGrantIff` | src/lib/access/cove-service-contract.ts:55-71 | a grant is of administrator level exactly when a role it came through is |
| `AccessSummary.SummaryAgrees` | src/lib/access/systems-port-model.ts:143-199 | for an active application open to employees, an active employee is listed with a level if and only if the evaluator lets their identity in with that level |
| `AccessSummary.SummaryDisagreesIff` | src/lib/access/systems-port-model.ts:143-199 | summary and evaluator differ about an active employee exactly when the application is closed to employees and an entitlement in force gives them one of its roles |
| `AccessSummary.RetiredStillListed` | src/lib/access/systems-port-model.ts:143-199 | a concrete retired application whose summary lists an employee the evaluator turns away |
| `AccessSummary.CountsAddUp` | src/lib/access/systems-port-model.ts:193-198 | users and administrators counted add up to everyone listed |
| `AccessSummary.SummaryListsIff` | src/lib/access/systems-port-model.ts:164-191 | an entry is listed exactly for an active employee with a level through a granting role, with their id, name, address and highest level |
| `AccessSummary.CountsAreByLevel` | src/lib/access/systems-port-model.ts:193-198 | each count is how often its level occurs in the list |
| `AccessSummary.SummaryFailsIff` | src/lib/access/systems-port-model.ts:148-151 | there is no summary exactly without a time or without the application |
| `PolicyFields.ReadAllRows` | src/lib/access/policy-integrity.ts:138-171 | reading a table drops no row and invents none, and fails exactly when some row does |
| `PolicyFields.OptionalTime` | src/lib/access/policy-integrity.ts:70-77 | an accepted time is readable |
| `PolicyRows.GatherRoles` | src/lib/access/policy-integrity.ts:127-136 | the role map holds for each user exactly that user's roles in row order, and the loop fails exactly when a row does |
| `PolicyRows.CheckUniqueIff` | src/lib/access/policy-integrity.ts:100-104 | counting distinct keys finds every repeat |
| `PolicyRows.CheckEntitlement` | src/lib/access/policy-integrity.ts:278-289 | an entitlement passes exactly when application, role, team and organisations resolve and the role is of that application |
| `PolicyRows.CheckReferences` | src/lib/access/policy-integrity.ts:268-289 | the loops accept exactly the snapshots whose references all resolve |
| `PolicyRows.ParseAccessPolicyRows` | src/lib/access/policy-integrity.ts:110-292 | the tables are accepted if and only if they read as a snapshot that meets every integrity rule, and that snapshot is returned |
| `PolicyRows.ReadsOnce` | src/lib/access/policy-integrity.ts:110-292 | tables say at most one snapshot |
| `PolicyRows.AcceptedIsValid` | src/lib/access/policy-integrity.ts:259-289 | every accepted snapshot is unique and resolved as the evaluator's guarantees need |
| `PolicyRows.AcceptedNeverRoleInvalid` | src/lib/access/evaluator.ts:168-175 | on an accepted snapshot no decision is that a role is invalid |
| `PolicyRows.AcceptedUsersAreRows` | src/lib/access/policy-integrity.ts:138-171 | accepted users are the user rows one for one, each known and with exactly the roles its rows give |
| `PolicyRows.OneMoreUserIff` | src/lib/access/policy-integrity.ts:152-171 | one more user row is accepted exactly when it reads, its identity is new and its organisation exists; a repeated user id plays no part |
| `PolicyRows.TwoIdentitiesOneUser` | src/lib/access/policy-integrity.ts:259-261 | concrete tables accepted with two users of one id |
| `PolicyWriting.UserReadsBack` | src/lib/access/policy-integrity.ts:138-171 | a row holding a user's fields reads as that user |
| `PolicyWriting.HoldingReadsBack` | src/lib/access/policy-integrity.ts:128-135 | the same for a platform role |
| `PolicyWriting.OrganisationReadsBack` | src/lib/access/policy-integrity.ts:173-177 | the same for a partner organisation |
| `PolicyWriting.TeamReadsBack` | src/lib/access/policy-integrity.ts:178-182 | the same for a team |
| `PolicyWriting.MembershipReadsBack` | src/lib/access/policy-integrity.ts:188-200 | the same for a membership with its window |
| `PolicyWriting.RoleReadsBack` | src/lib/access/policy-integrity.ts:202-218 | the same for an application role with its permissions and populations |
| `PolicyWriting.EntitlementReadsBack` | src/lib/access/policy-integrity.ts:220-257 | the same for an entitlement with its subject, scope and window |
| `PolicyCompleteness.HoldingsReadBack` | src/lib/access/policy-integrity.ts:127-136 | the platform-role rows of all users of one id give each of them exactly their own roles, once each |
| `PolicyCompleteness.ValidIsAccepted` | src/lib/access/policy-integrity.ts:110-292 | every valid snapshot with well-written text, in which users of one id have the same platform roles, is what its own rows are accepted as, and the only thing |
| `PolicyReading.UserReadsIff` | src/lib/access/policy-integrity.ts:138-171 | a user row reads as a user if and only if each column says that user's field: one of the three statuses and two populations, a lower-case address, a version from 1, a known id, and the binding of their population |
| `PolicyReading.HoldingReadsIff` | src/lib/access/policy-integrity.ts:128-135 | the same for a platform role: one of the seven, of a known user, by a known grantor |
| `PolicyReading.OrganisationReadsIff` | src/lib/access/policy-integrity.ts:173-177 | the same for a partner organisation |
| `PolicyReading.TeamReadsIff` | src/lib/access/policy-integrity.ts:178-182 | the same for a team |
| `PolicyReading.MembershipReadsIff` | src/lib/access/policy-integrity.ts:188-200 | the same for a membership |
| `PolicyReading.RoleReadsIff` | src/lib/access/policy-integrity.ts:202-218 | the same for an application role, with at least one population |
| `PolicyReading.EntitlementReadsIff` | src/lib/access/policy-integrity.ts:220-257 | the same for an entitlement: one subject, a scope that is all or named, an ordered window, a known grantor and user |
| `PolicyReading.AcceptedIff` | src/lib/access/policy-integrity.ts:110-292 | tables are accepted as a snapshot if and only if their rows say it, one for one and in order, nothing in it occurs twice and everything it names is there |
| `PolicyReading.AcceptedStatus` | src/lib/access/policy-integrity.ts:146 | an accepted user row has one of the three statuses, and that one |
| `PolicyReading.UnknownStatusRefused` | src/lib/access/policy-integrity.ts:146 | a row with any other status refuses the whole table |
| `AccessRuns.SomeAdminRemains` | src/lib/access/actions.ts:76-106 | from an active employee administrator no interleaving of invitations, status, role and access changes, with stale early checks, reaches a state without one |
| `AccessRuns.SuperAdminsRemain` | src/lib/access/postgres.ts:426-442 | an active super administrator is never suspended or stripped in any run |
| `AccessRuns.AdminAfter` | src/lib/access/postgres.ts:410-442 | after a statement the administrator is still one, or its actor is |
| `AccessRuns.LastAdminLostIff` | src/lib/access/actions.ts:80 | without the action's guard the last administrator would be lost exactly by suspending themselves |
| `AccessRuns.InviteKeepsOneIff` | src/lib/access/postgres.ts:362-382 | an invitation leaves one unrevoked direct entitlement per application exactly when the person has none outside its dates to a company-wide application |
| `AccessRuns.ExpiredGetsSecond` | src/lib/access/postgres.ts:373-381 | a concrete invitation that adds a second unrevoked entitlement beside an expired one |
| `AccessRuns.BootstrapOnceIff` | src/lib/access/postgres.ts:302-313 | the first administrator gets one entitlement per application exactly when no active employee application has two employee administrator roles |
| `AccessInvariant.SyncMirrors` | db/011_superpanel_application_access.sql:127-210 | the role trigger restores the mirror between systems roles and SuperPanel entitlements for the person whose roles moved |
| `AccessInvariant.StepKeeps` | src/lib/access/postgres.ts:286-656 | every statement keeps the SuperPanel mirror, and one entitlement per person and application; for the second a bootstrap needs that no active employee application has two administrator roles |
| `AccessInvariant.RunKeeps` | src/lib/access/postgres.ts:286-656 | so does every run |
| `AccessInvariant.OneEntitlementInAnyRun` | src/lib/access/postgres.ts:590-645 | from undated entitlements every run keeps at most one unrevoked direct entitlement per person and application |
| `AccessInvariant.PanelMirrorsInAnyRun` | db/011_superpanel_application_access.sql:127-210 | in every run exactly the people with a systems role hold an unrevoked SuperPanel entitlement |
| `AccessReplies.RefusedDoesNothing` | src/lib/access/mutations.ts:14-18 | a replayed request id, or an actor who is no administrator at the statement, changes neither access nor audit |
| `AccessReplies.RequestActsOnce` | src/lib/access/postgres.ts:422-426 | a claimed request id has no second effect, whatever runs in between |
| `AccessReplies.AuditedOnce` | src/lib/access/postgres.ts:443-447 | a status, role or access statement adds exactly one success event under its request id if it changed who may do what, and none otherwise; only the trigger adds another, without a request id |
| `AccessReplies.AuditedTwiceIff` | db/011_superpanel_application_access.sql:127-210 | two events are added if and only if the request grants or revokes the systems role of somebody who is no super administrator |
| `AccessReplies.TwoEvents` | db/011_superpanel_application_access.sql:127-210 | a concrete request that adds two |
| `AccessReplies.ReplyTellsChange` | src/lib/access/mutations.ts:25-36 | "changed" is answered exactly when something changed |
| `AccessReplies.MissingIff` | src/lib/access/mutations.ts:25-36 | a request is answered as naming something missing if and only if it claims its id and the person, employee, application or role it names is not there |
| `AccessReplies.RetryAnswer` | src/lib/access/mutations.ts:25-36 | repeated after any run, a request does nothing and is answered as already processed if and only if its actor is still an administrator and it is not turned down for what it names |
| `AccessReplies.RetryIsDuplicate` | src/lib/access/mutations.ts:25-36 | repeated at once it always is |
| `AccessReplies.MissingIsRetriedAsDoneIff` | src/lib/access/mutations.ts:20-24 | the promise fails for a request and its retry after any run if and only if something it named was missing at its first call and the retry is answered at all |
| `AccessReplies.NothingIsEverDone` | src/lib/access/mutations.ts:20-24 | such a request changed nothing, and no event of any later run carries its id |
| `AccessReplies.MissingPersonTwice` | src/lib/access/mutations.ts:25-36 | a concrete request answered as missing and then as already processed |
| `AccessReplies.LevelUnchangedIff` | src/lib/access/actions.ts:131-135 | a change of application access is answered as unchanged if and only if it takes away what the person does not hold; never when it gives a level |
| `AccessReplies.SameLevelTwice` | src/lib/access/postgres.ts:589-601 | a concrete level given twice, both times answered as a change |
| `AccessReplies.InviteRestoresNobody` | src/lib/access/postgres.ts:349-355 | an invitation changes an existing person's display name at most: not status, population, binding or roles |
| `AccessEffects.StatusIsSet` | src/lib/access/postgres.ts:435-442 | a status change that goes through leaves the person with that status and nothing else changed, for them or anybody |
| `AccessEffects.RoleIsSet` | src/lib/access/postgres.ts:488-493 | a role change that goes through grants or revokes exactly that role, and every entitlement row but theirs to SuperPanel stays as it was in its place |
| `AccessEffects.AccessIsSet` | src/lib/access/postgres.ts:590-645 | an access change leaves the person with the application at the asked level only, or without it; every row that is not theirs to it stays as it was in its place, and every added row is |
| `AccessEffects.InvitedGetEveryone` | src/lib/access/postgres.ts:349-382 | an invitation that goes through makes an unknown address an active employee who holds every company-wide application that has a user role, at user level, and no other new one |
| `AccessEffects.FirstAdminHolds` | src/lib/access/postgres.ts:292-313 | the first administrator is an active super administrator holding every active employee application with an administrator role |
| `AccessRows.StatusRows` | src/lib/access/postgres.ts:410-446 | a status statement sets suspended, or active, exactly for a person who is there and not so yet, never suspends a super administrator, records one event and touches nothing else |
| `AccessRows.StatusAnswers` | src/lib/access/postgres.ts:447-463 | each of its answers, exactly when it is given |
| `AccessRows.RoleRows` | src/lib/access/postgres.ts:465-532 | a role statement gives or takes exactly that role of an employee who lacks, or has, it and records which |
| `AccessRows.RoleAnswers` | src/lib/access/postgres.ts:533-551 | each of its answers |
| `AccessRows.PanelRows` | db/011_superpanel_application_access.sql:127-210 | the trigger adds the one administrator entitlement, or revokes every SuperPanel entitlement of that person in its place, and records it |
| `AccessRows.AccessMoves` | src/lib/access/postgres.ts:553-655 | an access statement, row by row: what it revokes, the one entitlement it adds, what it records, and when it does nothing |
| `AccessRows.AccessNowhere` | src/lib/access/postgres.ts:574-579 | without such an application nothing moves but the request id |
| `AccessRows.AccessAnswers` | src/lib/access/postgres.ts:656-671 | each of its answers |
| `AccessRows.InviteRows` | src/lib/access/postgres.ts:322-397 | an invitation, row by row: the person's row, one user-level entitlement for each company-wide application they hold nothing current of, an event each, and when it undoes everything or does nothing |
| `AccessRows.InviteAnswers` | src/lib/access/postgres.ts:398-405 | each of its answers |
| `AccessRows.BootstrapRows` | src/lib/access/postgres.ts:292-319 | the first administrator's row and role, an entitlement through every administrator role of every active employee application, and the events |
| `AccessRows.SignInRows` | src/lib/access/postgres.ts:176-209 | signing in marks the person as bound and nothing else |
| `AccessRows.EnabledIff` | src/lib/access/actions.ts:76-126 | which statements the actions and the unique address let through |
| `AccessStore.Store.SyncPanel` | db/011_superpanel_application_access.sql:127-210 | the trigger's effect on entitlements and audit |
| `AccessStore.Store.RevokeDirect` | src/lib/access/postgres.ts:590-595 | revokes every unrevoked direct entitlement of a person to an application and no other |
| `AccessStore.Store.UpdateStatus` | src/lib/access/postgres.ts:407-463 | the tables and the answer after the statement; when it goes through the person is suspended, or active, as asked |
| `AccessStore.Store.UpdateRole` | src/lib/access/postgres.ts:465-551 | the same, trigger included |
| `AccessStore.Store.UpdateAccess` | src/lib/access/postgres.ts:553-672 | the same |
| `AccessStore.Store.InviteUser` | src/lib/access/postgres.ts:322-405 | the same, upsert and company-wide grants included |
| `AccessStore.Store.InviteAccessUser` | src/lib/access/actions.ts:54-74 | the statement runs exactly for an administrator, once the sign-in account could be prepared, and the answer is its own on the tables as they were then; a refusal changes nothing |
| `AccessStore.Store.ChangeUserStatus` | src/lib/access/actions.ts:76-90 | the same; the statement runs exactly for an administrator who does not suspend themselves |
| `AccessStore.Store.ChangePlatformRole` | src/lib/access/actions.ts:92-121 | the same for both platform roles; the statement runs exactly for an administrator who does not remove their own administrator role |
| `AccessStore.Store.ChangeApplicationAccess` | src/lib/access/actions.ts:123-139 | the same; the statement runs exactly for an administrator and any application but SuperPanel |
| `AccessStore.Store.BootstrapFirstAdmin` | src/lib/access/postgres.ts:286-320 | nothing happens once anybody exists; otherwise the insert's tables with an administrator, or nothing because the address was taken in between |
| `AccessStore.Store.ActionsKeep` | src/lib/access/actions.ts:54-139 | whatever the actions do and however they interleave, an administrator remains, the SuperPanel mirror holds, and so does one entitlement per person and application |
| `Spans.CanonicalUnique` | src/app/booking/page.tsx:131-143 | two sorted, gapped sequences of spans that cover the same minutes are equal |
| `Spans.MergeIsNormalForm` | src/app/booking/page.tsx:131-143 | the merge is the one such sequence with the input's minutes |
| `Spans.MergeDependsOnMinutesOnly` | src/app/booking/page.tsx:131-143 | two inputs merge alike if and only if they cover the same minutes |
| `Spans.MergeIdempotentAndUnordered` | src/app/booking/page.tsx:131-143 | merging is idempotent and ignores the order of its input |
| `Spans.MergeSpans` | src/app/booking/page.tsx:131-143 | the in-place loop computes the merge, on its own copies |
| `Spans.TakeSpan` | src/app/booking/page.tsx:134-141 | one iteration widens the last copy or pushes a new one |
| `Spans.CutSpan` | src/app/booking/page.tsx:149-158 | one base span, cut by a moving cursor with an early exit, leaves exactly its minutes in no removal, in order |
| `Spans.SubtractSpans` | src/app/booking/page.tsx:146-160 | the pieces cover exactly the minutes of the base in no removal; an ordered, disjoint base gives ordered, disjoint pieces |
| `CalendarView.ClipShows` | src/app/booking/page.tsx:124-129 | clipping keeps exactly the minutes between 08:00 and 18:00 |
| `CalendarView.ProjectionConservesMinutes` | src/app/booking/page.tsx:166-174 | projecting an interval on consecutive days before clipping loses and invents no minute |
| `CalendarView.WholeIntervalConserved` | src/app/booking/page.tsx:166-174 | an interval inside those days keeps its whole length |
| `CalendarView.SpanForDayExact` | src/app/booking/page.tsx:166-174 | a day shows a minute of an interval exactly when the interval holds it and it is visible |
| `CalendarView.BusySpans` | src/app/booking/page.tsx:266-273 | busy is exactly the working time neither open nor booked, in canonical form |
| `CalendarView.BuildDay` | src/app/booking/page.tsx:219-284 | the blocks of one day by kind |
| `CalendarView.BuildCalendarView` | src/app/booking/page.tsx:219-290 | the seven days from today |
| `CalendarView.DayIsPartitioned` | src/app/booking/page.tsx:263-284 | busy meets neither open nor booked, the three cover the visible working time, and the busy blocks are the only ones that could |
| `CalendarView.DayMinuteByMinute` | src/app/booking/page.tsx:219-284 | a minute from 08:00 to 18:00 is booked, or open, exactly when a booking, or an open interval, holds it, and busy exactly when it is at work on that weekday and neither |
| `CalendarView.WeekdaysFollow` | src/app/booking/page.tsx:219-284 | the weekdays follow one another from the first day of the epoch, a Thursday |
| `DayGroups.GroupSlotsByDay` | src/components/booking-public/format.ts:108-117 | the in-place loop yields a grouping: concatenated it is the input, and neighbours differ in day |
| `DayGroups.DayKeyIs` | src/components/booking-public/format.ts:58-65 | the local day is the one that holds the local time |
| `DayGroups.GroupingUnique` | src/components/booking-public/format.ts:108-117 | there is only one grouping |
| `DayGroups.OneGroupPerDay` | src/components/booking-public/format.ts:107-117 | with days in order, the group keys strictly increase |
| `DayGroups.FixedOffsetKeepsOrder` | src/components/booking-public/format.ts:107-117 | with a fixed offset sorted slots have their days in order |
| `DayGroups.PagesTile` | src/components/booking-public/format.ts:119-130 | with a fixed offset each day from today is on exactly one page |
| `DayGroups.StepIsNextDay` | src/components/booking-public/format.ts:121-127 | in any zone a 24-hour step reaches the next local day if and only if the change of offset leaves the time of day within the day |
| `DayGroups.PagesListTheirDaysIff` | src/components/booking-public/format.ts:119-130 | in any zone the pages up to one list exactly their seven days each if and only if every 24-hour step from now to the last of them fits |
| `DayGroups.PagesCanSkipADay` | src/components/booking-public/format.ts:121-127 | a concrete zone and time for which a day is on no page |
| `DayGroups.FirstPageWithSlot` | src/components/booking-public/format.ts:139-152 | the first of 54 pages whose last day reaches the first slot's day, else 0 |
| `DayGroups.FirstPageShowsFirstSlot` | src/components/booking-public/format.ts:132-152 | with a fixed offset that page shows the slot's day if and only if it is today or within 54 weeks |
| `DayGroups.FirstPageShowsInZone` | src/components/booking-public/format.ts:132-152 | the same in any zone whose 24-hour steps all fit for those weeks |
| `Seats.ReleaseNeverClamps` | src/lib/booking/groups.ts:186-190 | a release always has a seat to give back |
| `Seats.CountsAfter` | src/lib/booking/groups.ts:156-190 | seat rows plus claims in flight move only with a claim or a release |
| `Seats.StepKeeps` | src/lib/booking/groups.ts:144-253 | every statement keeps the seat invariants |
| `Seats.MovesExactly` | src/lib/booking/groups.ts:144-253 | every statement changes the stated columns of its one session, booking or claim, a sweep the bookings of its session, and leaves every other row as it is; nothing else is its result |
| `Seats.SweepSparesOthers` | src/lib/booking/groups.ts:248-253 | a sweep unconfirms its session's bookings and leaves every other booking alone |
| `Seats.CanTakeIff` | src/lib/booking/groups.ts:156-161 | a seat can be taken exactly in an open session with fewer seats taken than it has |
| `Seats.RunKeeps` | src/lib/booking/groups.ts:144-253 | in any interleaving, one-to-one bookings under the same keys included, seats taken equal seat rows plus claims in flight, within capacity; open has a free seat, full has none; keys are unique |
| `Seats.CancelledForever` | src/lib/booking/groups.ts:231-234 | cancelled is never left |
| `Seats.CancelledStaysEmptyIff` | src/lib/booking/groups.ts:248-253 | after the sweep a cancelled session stays without confirmed seats if and only if nobody was between claim and insert |
| `Seats.LateSeatStaysConfirmed` | src/lib/booking/groups.ts:167-183 | a run in which such a guest keeps a confirmed seat |
| `Seats.LateSeat` | src/lib/booking/groups.ts:156-253 | four concrete statements that end with a confirmed seat of a cancelled session |
| `Seats.OthersKeepMyClaim` | src/lib/booking/groups.ts:156-161 | nobody else's statements release or move a claim |
| `Seats.BookingsStay` | src/lib/booking/groups.ts:170-182 | a booking keeps its key and its session |
| `Seats.SeatStore.InsertOrRelease` | src/lib/booking/groups.ts:167-192 | after a claim: a booking under the key, or the seat given back, which happens exactly when the insert fails on the tables as they were then |
| `Seats.FullIsSaidIff` | src/lib/booking/groups.ts:162-165 | "full" is said exactly while a seat is free |
| `Seats.FullIsCalledClosed` | src/lib/booking/groups.ts:162-165 | a concrete full session that is reported as closed |
| `Seats.SeatStore.Refuse` | src/lib/booking/groups.ts:162-165 | the re-read after anything in between says so |
| `Seats.SeatStore.ClaimSeat` | src/lib/booking/groups.ts:130-221 | one claim is kept exactly when a booking results; a known key claims nothing; it is refused exactly when the conditional update finds no seat to take, throws exactly when the insert fails, both on the tables as they were then |
| `Seats.SeatStore.CancelGroupSession` | src/lib/booking/groups.ts:223-289 | cancels exactly an open or full session, lets others act, then sweeps the seats of that session alone, as they are by then, and counts one per seat whose mail went out |

## Left out

Assumptions that hold everywhere:

- Every SQL statement is atomic; a publishing or reversal poll is one atomic
  step; stall recovery takes only requests whose worker is dead, as the comment
  at src/lib/app-builder/server.ts:188-197 intends.
- Network answers, clocks, mail and file storage are inputs. The time windows of
  the recovery and reconcile queries are inputs too: any set of stalled requests.
- Strings are sequences of characters compared by code point. Regular
  expressions, trimming, e-mail and URL syntax, byte lengths and date parsing
  are parameters, so properties hold for every choice of them.

App Builder:

- Status details, summaries and error texts, the uploaded brief and its blob,
  and the texts the tools return are not modelled.
- A pull request's number, address and branch are one value and its number is
  never zero; the unique branch name is not modelled.
- `QueueRuns.RequestTerminates`: does not bound the polls that find checks
  pending, and nothing in the code does. That a claimed response is saved once
  is in the guard of the save, as what its worker knows.
- `QueueHandlers.RequestTable.CreateRequest`: the brief, the duplicate check and
  the requester are not modelled.
- A database failure between two statements of a handler.

Access:

- `PolicyRows.ParseAccessPolicyRows`: does not say which complaint is raised
  first when several apply.
- The application registry is read by its own parser; its answer is an input.
- `AccessSummary.BuildSummary`: the locale's order of names is a parameter, and
  nothing is stated about the order of the list.
- `Evaluator.Matches`: lower-cases ASCII letters only when comparing domains.
- The invitation table, session versions and the rebinding of identities;
  signing in only marks a person as bound.
- `AccessStore.Store.BootstrapFirstAdmin`: the entitlement trigger is taken to
  see the role that the same statement inserts, and the address from the
  environment and the identity's name are the arguments.
- Application provisioning, which adds applications and their policies between
  runs; mutation keys are never purged.

Calendar:

- Time-zone rules: a zone is any offset function in `DayGroups`, and times are
  local in `CalendarView`; a day key is its number.
- `mergeIntervals` and the availability engine, labels, titles and tooltips.

Seats:

- `Seats.SeatStore.ClaimSeat`: calendar events, confirmation mail and the audit
  entry are not modelled.

Registry, audit-feed, directory and phone-line validation, slugs and alerts are
left out because they would only add single-branch members. React components,
preview data and the signing package are not part of this model.
