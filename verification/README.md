# Verification model of the ERP agent orchestrator

A Dafny model of the parts of the orchestrator whose correctness spans many transactions, and
proofs of what those parts are for. To check it:

    dafny verify dfyconfig.toml

Where the source updates rows, fields or buffers step by step, the model has a class or method
with the same steps, proved equal to a function of the old state; the theorems are about those
functions, over every run, history, chunking or fault schedule.

## What is modelled

**One agent run and its retries** (`TaskGraph`, `PlannedGraphs`, `RunModel`, `AgentRun`,
`RunSafety`, `RunInvariant`, `RunTheorems`, `RunProgress`, `RunSuccess`, `RunOutcome`,
`RunLineage`, `RunLaws`, `RunRequests`, `ApprovalGate`, `SpecificationChecks`). A run is its task graph, status, active task, check
list, event log and per-task recovery counts, plus the worker that holds it. Every database
transaction of the handler, the watchdog and the API routes is one step; what the agent streams,
whether an answer calls a pending tool, how the policy decides, and when anything happens are
arbitrary. The invariant `Inv` is kept by every step (`StepKeeps`) and carries the theorems, for
newly planned runs and for retries that begin with done or cancelled tasks. `SuccessExact` says
which runs can succeed at all.

**Events from the log to the user interface** (`EventLog`, `EventStream`, `EventFrames`,
`FollowRun`, `RunFeed`). Numbered rows, the streaming endpoint, the text protocol of sections 9.2.5 and 9.2.6
of the WHATWG HTML Living Standard as far as the code uses it, the incremental parser and the
cursor of the client with back-fill and reconnects; `RunFeed.Deliver` joins them end to end.

**The deployment runner** (`DeployRunner`, `DeployLaws`, `Extraction`, `DeploySite`) as a transaction under every outcome of
its external steps and a crash between any two of them, with the nonce ledger, and what it does
to the tree in which all modules live.

**The road to a deployment** (`Phases`, `ReleaseModel`, `ReleaseHistory`, `ReleaseRollbacks`,
`ReleaseScenarios`, `BridgeJobs`, `Packaging`, `PathOrder`, `Paths`): phase gates, packaging, requests, approvals, executions,
refreshes, rollbacks, the job table of the bridge, and the archive that is shipped.

**Permissions** (`Permissions`, `PermissionLaws`, `PermissionCache`): the grant chain and its time-limited cache.

**Timers and queues** (`Schedules`, `LoginLimiter`, `Outbox`) and **workspace paths**
(`WorkspacePath`).

## Findings

On some inputs the code does less than its names and comments suggest. The model follows the
code; each point has a lemma with the exact condition or a concrete history.

- A deadlock verdict can be given on a sound graph: the whole-run fallback requeues a run whose
  worker is only slow, a user cancels it, the slow worker's question revives it, and the last task
  to finish leaves a cancelled one behind. `DeadlockVerdictExact` says exactly when a sound graph
  gets the verdict, `DeadlockWithoutCycle` is such a run.
- No run ever waits for approval on a decision of the permission engine (`NobodyIsAsked`). The
  engine never allows what needs approval, and the worker rejects what is not allowed before it
  looks at the need for approval, so such a call fails the run (`DeniedCallFailsRun`).
- A cancellation requested after the last chunk of a stream is lost: the closing transaction does
  not look at it and writes its own status over it (`LateRequestIsLost` says when it survives).
- A run compiled from a specification that names a model can never succeed: its view and access
  checks are required, and nothing ever records their outcome (`CompiledRunSucceedsIff`). A retry
  is given no checks, so it can never finish the verification task (`RetryCannotVerify`).
- The recovery of a failed deployment looks at files, not at how far the job came. A database dump
  that fails but leaves a file costs the installed addon (`LeftoverDumpLosesAddon`), and a second
  job under the same identifier can bring back an older addon (`StaleBackupReturns`).
  `Compensation` gives the exact condition. It also looks at one module only: a member of the
  archive under another module's name stays (`TreeCompensation`, `NeighbourIsLost`); packages made
  here have none (`PackageCompensation`).
- The production gates look at the environment recorded by the request. An instance that is made
  a production instance after the request receives the artifact unstaged and unaccepted
  (`RelabelledInstanceIsShippedTo`); `ChainIsGuaranteedIffRecorded` says what the executor would
  have to compare.
- The stream parser is independent of the chunking exactly when the text has no CR CR LF
  (`ChunkInvarianceIff`). The server never sends a CR.
- A deployment whose smoke tests failed can stand as succeeded: the first one to an instance, which
  has nothing to fall back to (`FailedFirstCountsAsStaged`), or a later one whose rollback was
  delivered (`StagedThoughFailed` and `StagedThoughRolledBack` say exactly when). Its artifact then
  goes on to production (`FailedStagingReachesProduction`). The job of an automatic rollback pins the digest of the prior
  artifact, while the link it carries serves the artifact of the deployment, if anything
  (`RollbackIsServedIff`, `WrongBundleIsServed`). It reuses the identifier of the first job, so a
  report sent again on that one can mark it finished before any runner has seen it
  (`ReusedIdSkipsDispatch`).
- The permission cache leaves the tool name out of its key. `KeyDetermines` shows that this is
  harmless: outside the always-allowed tools the resource and the layer order determine the
  decision. No route calls the invalidation function, so the sixty-second bound is what holds.
- A workspace file whose name begins or ends with a blank cannot be reached by its own relative
  path (`ReResolves`).

## Model

| member | source | states |
|---|---|---|
| TaskGraph.FirstReady | backend/agent.py:2556-2564 | the task handed out is the first pending one whose dependencies are all done, and none is handed out only when no task is ready |
| TaskGraph.StuckHasCause | backend/agent.py:2556-2569 | when nothing is ready and the graph is incomplete, an undone task misses a dependency, undone tasks form a cycle, or a task is neither pending nor done |
| TaskGraph.NothingReadyIffComplete | backend/agent.py:2556-2569 | on a graph with only pending and done tasks whose undone part is closed and acyclic, nothing is ready if and only if every task is done |
| PlannedGraphs.LayeredIsSound | backend/agent.py:2325-2383 | a graph whose tasks are listed behind their dependencies is closed and acyclic, for every such graph |
| PlannedGraphs.SpecificationIsLayered | backend/agent.py:2325-2383 | the graph built from a specification has that shape, with unique ids |
| PlannedGraphs.StandardIsLayered | backend/agent.py:2228-2295 | so does the standard module graph |
| PlannedGraphs.ShippedRunsAreBounded | backend/agent.py:2228-2383 | every run of a shipped graph makes at most 30 progress steps and 240 tool starts, and is declared deadlocked only after a task was given up |
| AgentRunRecord.AgentRun.EmitEvent | backend/worker.py:249-254 | one event is appended to the run's log and nothing else changes |
| AgentRunRecord.AgentRun.EmitTaskTransition | backend/worker.py:272-282 | a task transition is logged exactly when that kind was not yet logged for the task |
| AgentRunRecord.AgentRun.ApplyTaskStatus | backend/worker.py:261-270 | only the named task changes status, whatever its position in the list |
| AgentRunRecord.AgentRun.RequiredAcceptanceFailures | backend/worker.py:166-180 | the failing checks are exactly the required unpassed checks owned by the task, and the gated task without any check counts as missing one; together that is the acceptance gate |
| AgentRunRecord.AgentRun.RequeueFailedTask | backend/worker.py:183-217 | a failed task goes back to pending with its count raised exactly when repair is on and its budget is not used up |
| AgentRunRecord.AgentRun.CancelActiveTask | backend/worker.py:285-299 | the active task and no other is cancelled and the focus cleared |
| AgentRunRecord.AgentRun.DrainActivity | backend/worker.py:302-314 | streamed activity is logged in order, tool starts of a task are counted in the log, and the forty-first attempt to start one stops the handler |
| AgentRunRecord.AgentRun.BeginHandler | backend/worker.py:733-828 | the opening transaction of a start, resume or decided action: cancellation wins, otherwise the planner's choice becomes the active in-progress task |
| AgentRunRecord.AgentRun.RejectPendingAction | backend/worker.py:855-901 | a rejected action fails or cancels the active task and ends the run |
| AgentRunRecord.AgentRun.StreamChunk | backend/worker.py:937-972 | one chunk of the stream: a pending cancellation ends the run, an exhausted tool budget raises, otherwise the activity is logged |
| AgentRunRecord.AgentRun.SettleTask | backend/worker.py:1119-1268 | a report completes the task only through the acceptance gate; otherwise it is requeued or fails the run |
| AgentRunRecord.AgentRun.ConcludeHandler | backend/worker.py:1001-1118 | the branches behind the stream in the code's order: cancellation, question, pending call (allowed, denied, waiting), missing report, report; what each leads to is stated by the laws of RunLaws |
| AgentRunRecord.AgentRun.FinishHandler | backend/worker.py:974-1268 | the closing transaction as a whole |
| AgentRunRecord.AgentRun.HandleException | backend/worker.py:1316-1355 | an exception fails the active task and the run |
| AgentRunRecord.AgentRun.RecoverStaleTask | backend/worker.py:440-505 | a stale active task is requeued while its watchdog budget lasts and then fails the run |
| AgentRunRecord.AgentRun.RequeueStaleRun | backend/worker.py:507-515 | a stale run is queued again, without any budget |
| AgentRunRecord.AgentRun.UpdateChecks | backend/agent.py:1108-1125 | packaging re-evaluates every unpassed check and leaves passed ones alone |
| AgentRunRecord.AgentRun.ClearChat | backend/main.py:2627-2635 | clearing a chat cancels an active run in bulk, with its tasks and its log untouched |
| RunLaws.DrainExact | backend/worker.py:302-314 | streamed events are accepted exactly if the active task stays within forty tool starts and there is one report in all; then each is logged in order, and the question and the report are remembered |
| RunLaws.DeniedCallRequeues | backend/worker.py:1078-1090 | a pending call the policy does not allow leaves the run queued with permission.denied as its last event, and nothing waits for a human |
| RunLaws.AllowedCallEnds | backend/worker.py:1069-1098 | an allowed call leaves the run as it is, or, if it also needs approval, waiting with a pending action |
| RunLaws.QuestionSuspends | backend/worker.py:1009-1030 | a question suspends the run before any pending call or report is looked at |
| RunLaws.CancelAfterApproval | backend/worker.py:1001-1007 | a cancellation that came with the approval cancels run and active task before everything else |
| RunLaws.SilenceFails | backend/worker.py:1099-1118 | without a question, a call or a report the run fails and its task is left as it is |
| RunLaws.AcceptedReportMovesOn | backend/worker.py:1119-1240 | a report of success with its evidence makes exactly the task in question done, and the run goes on to the first ready task, succeeds, or is declared deadlocked |
| RunLaws.RefusedReportRetriesOrFails | backend/worker.py:1252-1268 | any other report costs the task one retry, if repair is on and it has one left, or fails the task and the run |
| RunLaws.ExceptionFails | backend/worker.py:1316-1355 | an exception fails the run and its active task, with one event each, unless the run had ended before the handler began |
| RunLaws.RefusedEventsFail | backend/worker.py:953-962 | a forty-first tool start or a second report is rolled back with its transaction and fails the run |
| RunLaws.ChunkLogs | backend/worker.py:937-972 | any other chunk only logs its events and the text |
| RunLaws.StartTakesFirstReady | backend/worker.py:773-788 | a start takes up the first ready task, announced as planned and started, or begins without one |
| RunLaws.ResumeTakesUp | backend/worker.py:789-801 | a resumed run goes on with the first task in progress, and only without one takes up the first ready task |
| RunLaws.RejectionEnds | backend/worker.py:855-901 | a rejected action fails, or on cancellation cancels, the active task and the run, with the events in the code's order |
| RunLaws.SilenceIsRecoveredTwice | backend/worker.py:440-505 | a silent task is made pending again twice and the third time fails with its run |
| RunRequests.CancelRequestEffect | backend/main.py:1991-2027 | what a cancellation does in every status: cancel at once, mark, reject the pending action, or nothing |
| RunRequests.CancellationIsHonoured | backend/worker.py:940-947 | a request that reaches a running handler before its next chunk, or the next handler, cancels run and task, whatever was streamed meanwhile |
| RunRequests.LateRequestIsLost | backend/worker.py:974-1268 | a request that comes after the last chunk changes nothing in how the handler ends; it survives only a call that needs no approval |
| RunRequests.AnsweredTaskGoesOn | backend/main.py:2540-2576 | a question and its answer bring the next handler back to the same task on the same graph |
| RunRequests.ExpiryEnds | backend/worker.py:401-428 | an unanswered question or undecided action expires the run; without one, answers, decisions and expiry change nothing |
| RunRequests.ApprovedActionGoesOn | backend/main.py:2416-2510 | waiting, approval and resumption keep graph and task and leave nothing pending |
| RunRequests.RejectedActionFails | backend/main.py:2416-2510 | waiting and rejection fail the run and its task and leave nothing pending |
| RunRequests.DeniedCallFailsRun | backend/worker.py:1078-1090 | a denied call fails the run and its task through the rejection it queues, without anybody being asked |
| RunRequests.CancelledApprovalEnds | backend/main.py:2008-2016 | cancelling a run that waits for a decision rejects the action and cancels run and task |
| RunRequests.SupervisionEffects | backend/worker.py:507-515 | what the whole-run fallback, the interruption and a cleared chat do to a run, in every status |
| RunRequests.RestIsFinal | backend/worker.py:743-746 | a run that has ended, without a worker or a pending action, keeps its verdict, its tasks and its log whatever is tried afterwards |
| RunRequests.RevivedBy | backend/worker.py:974-1268 | only a late worker or a pending action gives an ended run another status |
| ApprovalGate.WaitingWasAsked | backend/worker.py:1069-1098 | over every run, a run that waits for a human has closed a handler on a call that was both allowed and in need of approval |
| ApprovalGate.NobodyIsAsked | backend/worker.py:1061-1098 | with the permission engine deciding every call, fresh or cached, no run ever waits for a human: what needs approval is rejected |
| RunInvariant.StepKeeps | backend/worker.py:733-1248 | the run invariant is kept by every transaction of the handler, the watchdog and the routes |
| RunInvariant.RunKeeps | backend/worker.py:733-1248 | it holds at the end of every sequence of steps of an unstarted run, newly planned or a retry |
| RunInvariant.PackagingKeepsEvidence | backend/agent.py:1109-1125 | a gate that has passed stays passed through later packaging reports |
| RunSuccess.PackagingVerdict | backend/agent.py:1108-1125 | exactly which checks one packaging report passes and fails, check by check |
| RunTheorems.CompletionOrder | backend/worker.py:1119-1163 | in every run each completion is logged once, of a task still open at the start, after every dependency was completed or already done |
| RunTheorems.OneTaskAtATime | backend/worker.py:773-801 | at most one task is in progress; it is the active one unless the run was interrupted |
| RunTheorems.NoSuccessWithoutEvidence | backend/worker.py:1123-1165 | a succeeded run has all its tasks done and, for each it completed, every required check passed, the gated task having at least one |
| RunTheorems.SuccessNeedsSoundGraph | backend/worker.py:1150-1165 | a run can only succeed if no open task misses a dependency and no cycle is open; a newly planned graph is then closed and acyclic |
| RunTheorems.DeadlockHasCause | backend/worker.py:1236-1248 | when a run is declared deadlocked its graph has a cycle or a missing dependency or began with a cancelled task, or an earlier event gave a task up |
| RunTheorems.DeadlockVerdictExact | backend/worker.py:1150-1248 | on a closed acyclic graph, completing a task ends in the deadlock verdict if and only if nothing is ready while some task stands failed or cancelled |
| RunTheorems.DeadlockWithoutCycle | backend/worker.py:1236-1248 | a concrete run of two independent tasks ends in the deadlock verdict |
| RunTheorems.ToolStartsBounded | backend/worker.py:302-314 | a run of n tasks logs at most 40 n task-scoped tool starts over all attempts |
| RunProgress.StepWork | backend/worker.py:183-217 | the work left strictly falls on every completion, requeue and recovery and never rises on any other step |
| RunProgress.BoundedWork | backend/worker.py:440-505 | a run makes at most as many such steps as its open tasks have work left, hence at most 3 n plus the sum of the n retry budgets |
| RunSuccess.ChecksFrame | backend/agent.py:1108-1125 | packaging is the only transaction that writes acceptance checks |
| RunSuccess.GateOpensIffAttainable | backend/agent.py:1109-1125 | some series of packaging reports opens a task's gate if and only if every required check of it is passed or of a form packaging writes, the gated task having one |
| RunSuccess.UnattainableIsNeverDone | backend/worker.py:166-180 | a task whose gate cannot be opened that way is never done in any run, and its run never succeeds |
| RunOutcome.CancelledStays | backend/agent.py:2556-2564 | a task that was cancelled when the run began is never taken up or changed |
| RunOutcome.SuccessExact | backend/worker.py:1119-1165 | some sequence of transactions succeeds if and only if a task is open, every open task is pending and attainable, and the open part of the graph is closed and acyclic |
| RunLineage.LineageOrder | backend/main.py:2038-2085 | over a run that writes and all its retries each task completes at most once, behind everything it depends on |
| RunLineage.LineageNeedsSoundGraph | backend/main.py:2038-2085 | a lineage of writing runs whose last run succeeded had a closed acyclic graph from the start |
| RunLineage.LineageEvidence | backend/main.py:2053-2078 | in a lineage of writing runs every done task was completed in one of the runs, through that run's own acceptance gate |
| RunLineage.LineageRequeues | backend/main.py:2053-2060 | retry counts are carried over, so all requeues of a lineage together stay within the retries its first graph had left |
| RunLineage.RetryCannotVerify | backend/main.py:2060-2080 | a retry that still has the gated task to do never succeeds, since no checks are compiled for it |
| SpecificationChecks.CompiledRunSucceedsIff | backend/specification.py:147-384 | a run of the specification graph with its compiled checks can succeed if and only if the request named no model |
| RunProgress.RequeuesSpendRetries | backend/worker.py:183-217 | every requeue spends one retry of a task and nothing in a run gives one back |
| RunProgress.LogGrows | backend/worker.py:249-254 | no step rewrites the event log |
| RunProgress.DoneStays | backend/worker.py:261-270 | a task that is done stays done |
| EventLog.EventTable.Emit | backend/worker.py:249-254 | the row appended is numbered one past the events its run has, and all runs stay contiguously numbered |
| EventLog.EmittedRow | backend/worker.py:249-254 | the new row carries what was emitted and the number after the run's largest, and earlier rows stay |
| EventLog.LogHasTheRows | backend/main.py:2110-2118 | a run's log has exactly the rows of that run |
| EventLog.MaxIsLength | backend/worker.py:249-254 | on a contiguous log the largest number is the number of rows |
| EventLog.BeyondIsSuffix | backend/main.py:2110-2118 | selecting rows above a cursor is cutting the log at the cursor |
| EventLog.StreamRunEvents | backend/main.py:2243-2275 | the endpoint makes every pass until the client hangs up, the run is gone, or a pass found it stopped with nothing left to send; after those passes it has sent exactly the log beyond the starting cursor, in order |
| EventLog.UndisturbedStreamIsComplete | backend/main.py:2250-2273 | a client that stays connected is sent the whole rest of the log, also of a run that had stopped before, if a stopped run logs nothing more |
| EventStream.ChunkInvariance | frontend/src/lib/api.ts:110-123 | without CR CR LF every chunking of a text yields the blocks and the tail of the whole text |
| EventStream.CrCrLfCutMatters | frontend/src/lib/api.ts:110-123 | with CR CR LF some chunking yields something else |
| EventStream.ChunkInvarianceIff | frontend/src/lib/api.ts:224-226 | the parser is independent of the chunking if and only if the text has no CR CR LF |
| EventFrames.FrameRecord | backend/main.py:2260-2273 | a frame written by the server parses back to the envelope of its row |
| EventFrames.StreamRoundTrip | backend/main.py:2260-2273 | everything the server wrote parses to the envelopes of its rows in order, past keep-alives and damaged blocks, with nothing left over |
| EventFrames.PartialStream | frontend/src/lib/api.ts:110-123 | however a connection is chopped and wherever it breaks off, the records parsed are a prefix of those envelopes |
| FollowRun.FillGap | frontend/src/lib/api.ts:229-236 | a back-fill delivers exactly the missing entries below the incoming record |
| FollowRun.CloseGap | frontend/src/lib/api.ts:229-236 | a gap is closed completely, or reported only when the back-fill saw a log that ends before it |
| FollowRun.HandleRecord | frontend/src/lib/api.ts:227-242 | whatever record arrives, what has been delivered is the log from the start to the cursor, and a pause is only taken on a pausing event |
| FollowRun.ReadStream | frontend/src/lib/api.ts:220-246 | the same for a whole connection in arbitrary chunks; unless it pauses, meets a gap or a failed back-fill, the cursor has reached every record of the connection |
| FollowRun.Follow | frontend/src/lib/api.ts:202-263 | across any connections, drops, duplicates, back-fills and reconnects the events handed on are exactly log entries after+1 to the cursor, in order, without gap or repeat; the client ends by itself only on a stopped run whose stream it has read out, and gives up if and only if too many attempts in a row have failed |
| FollowRun.FramesAreHonest | frontend/src/lib/api.ts:110-130 | connections carrying any selection of frames of the log, damaged ones included, satisfy what the client theorem assumes of them |
| RunFeed.EmissionsGivePolls | backend/main.py:2243-2259 | reads of the table after more and more emissions are what the endpoint relies on |
| RunFeed.Deliver | frontend/src/lib/api.ts:202-263 | end to end, from emissions over the endpoint and any lossy network to the listener: it receives exactly the run's events between its cursors, in order, without gap or repeat, and when it ends because the run has stopped it ends on a pause or has everything an intact last connection brought |
| RunFeed.ReadOutIsComplete | frontend/src/lib/api.ts:220-246 | a client that has read out an intact connection of an undisturbed endpoint has every event of the run as it stood at the endpoint's last look |
| DeployRunner.RunnerProcess.VerifyJob | bridge_runner/runner.py:44-56 | a job is accepted exactly if the key, the signature and the expiry check out and its nonce is new, and then its nonce is remembered |
| DeployRunner.RunnerProcess.InstallPackage | bridge_runner/runner.py:551-594 | backup, move, extraction, module command, restart and both handlers, under every outcome and crash |
| DeployRunner.RunnerProcess.RunDeploy | bridge_runner/runner.py:526-616 | the whole job as one transaction of the host |
| DeployLaws.UnqualifiedIsRefused | bridge_runner/runner.py:44-56 | a job with a bad key, signature, expiry or nonce is reported as failed and changes nothing else |
| DeployLaws.QualifiedIsRemembered | bridge_runner/runner.py:526-540 | any other is remembered, and stored in the ledger if that works and no crash comes first |
| DeployLaws.InstallsIff | bridge_runner/runner.py:526-551 | the install phase is entered if and only if every check of the job, the ledger, the download and the digest held, unless a crash came first |
| DeployLaws.GoodJobEnds | bridge_runner/runner.py:551-595 | the host after a job in which everything went well, field by field |
| DeployLaws.FailedJobEnds | bridge_runner/runner.py:572-612 | the host after any failure with a dump file at hand, field by field |
| DeployLaws.UndumpedEnds | bridge_runner/runner.py:596-616 | a dump that fails and leaves nothing ends the job before anything is moved |
| DeployLaws.ReportTells | bridge_runner/runner.py:526-616 | exactly when a job reports success, a rollback, or a failure |
| DeployLaws.CrashesIff | bridge_runner/runner.py:526-616 | a job crashes exactly if it gets as far as the step after which the crash strikes |
| DeployRunner.SuccessKeepsBackup | bridge_runner/runner.py:551-595 | success means the new package is installed, the prior addon is in backup and the prior database in the dump |
| DeployRunner.Compensation | bridge_runner/runner.py:572-616 | every unsuccessful job without a crash leaves the prior addon if and only if the stated condition on backup, dump and addon holds |
| DeployRunner.RolledBackDatabase | bridge_runner/runner.py:579-606 | a job reported as rolled back restored the prior database if and only if the dump it used was good |
| DeployRunner.FreshCompensation | bridge_runner/runner.py:596-612 | under a fresh identifier the addon is lost in one situation only: a failed dump left a file while an addon was installed |
| DeployRunner.NothingIsLost | bridge_runner/runner.py:551-616 | under a fresh identifier and without a leftover dump, wherever the job ends or crashes the prior addon is in place or in backup and the prior database in place or in the dump |
| DeployRunner.LastSuccessStands | bridge_runner/runner.py:526-616 | over any series of jobs whose failed dumps leave no file, the package of the last success stays installed |
| DeployRunner.LeftoverDumpLosesAddon | bridge_runner/runner.py:596-612 | that situation costs the addon and restores the partial dump |
| DeployRunner.StaleBackupReturns | bridge_runner/runner.py:572-586 | a reused identifier brings back a stale addon |
| DeployRunner.InstallsAtMostOnce | bridge_runner/runner.py:532-538 | over any life of crashes and restarts no nonce enters the install phase twice |
| Extraction.Filesystem.SafeExtract | bridge_runner/runner.py:74-92 | the checking loop, the extraction and the manifest test as one change of the tree |
| Extraction.UnsafeIff | bridge_runner/runner.py:78-86 | an archive is refused if and only if one member leads outside the destination or is a link, and then only the destination has been made |
| Extraction.ExtractedIff | bridge_runner/runner.py:87-92 | otherwise it succeeds if and only if every member was written and a manifest lies in the module directory |
| Extraction.ExtractsInside | bridge_runner/runner.py:74-87 | whatever the archive and however extraction ends, nothing outside the destination changes but the missing parents it creates, and the tree stays a tree |
| Extraction.PutAllOverlays | bridge_runner/runner.py:87-88 | members that do not overlap are all written if and only if each has room, and then show exactly themselves over the old tree |
| DeploySite.TreeCompensation | bridge_runner/runner.py:551-616 | after an unsuccessful job under a fresh identifier the whole addons tree is as before if and only if unpacking left the module's neighbours alone |
| DeploySite.TreeSuccess | bridge_runner/runner.py:551-595 | after a successful job the tree is what unpacking made of it, in the module and around it |
| DeploySite.OwnMembersKeepOthers | bridge_runner/runner.py:78-87 | an archive whose members lie in the job's module leaves the neighbours alone however unpacking ends |
| DeploySite.OthersKeptIff | bridge_runner/runner.py:78-87 | an archive without overlaps, whether it unpacks or runs into a conflict, leaves them alone if and only if every member written outside the module was already there just so |
| DeploySite.PackageCompensation | bridge_runner/runner.py:551-616 | a failed deployment of a package made by the orchestrator leaves the whole tree as it was |
| DeploySite.NeighbourIsLost | bridge_runner/runner.py:572-586 | a concrete archive overwrites a neighbour's file and no handler puts it back |
| Packaging.PackageModule | backend/validation.py:27-38 | the members are the included files in path order, each under the module's name |
| Packaging.ArchiveIsCanonical | backend/validation.py:30-37 | the archive does not depend on the order in which the disk lists the files |
| PathOrder.SortedIsCanonical | backend/validation.py:30 | two listings of the same distinct paths sort alike |
| PathOrder.PathsOrder | backend/validation.py:30 | paths sort part by part, and parts character by character, a prefix first |
| Packaging.ArchivedIff | backend/validation.py:30-37 | a file is in the archive with its contents if and only if no part of its name under the module names a cache or the repository |
| Packaging.RoundTrip | backend/validation.py:27-38 | a package never fails the runner's safety check, needs only that the destination can be made, conflicts exactly when a file and a directory collide, and otherwise installs every included file unchanged and touches nothing else |
| Packaging.AcceptedIff | bridge_runner/runner.py:88-91 | the runner accepts it if and only if the destination can be made, it fits there, and a manifest came with it or was there before |
| Packaging.FreshInstall | bridge_runner/runner.py:74-92 | where no module was, exactly the filtered tree results |
| ReleaseModel.Prior | backend/deployment.py:47-51 | the fallback artifact is that of the newest deployment to the same instance and environment on record as succeeded, and there is none only without such a deployment |
| ReleaseModel.RequestIff | backend/deployment.py:24-68 | a request makes exactly one row, waiting for approval, if and only if target, artifact, validation and, for production, the staging record are as the code asks |
| ReleaseModel.DecisionAndOutcome | backend/main.py:3089-3110 | exactly when a decision, an execution and its outcome change a row, and how |
| ReleaseModel.DeploymentRow.DecideDeployment | backend/main.py:3089-3110 | a decision is accepted only from an approver other than the requester and only while pending |
| ReleaseModel.DeploymentRow.ExecuteDeployment | backend/deployment.py:129-151 | an approved deployment becomes deploying with a job or failed; any other is left alone |
| ReleaseModel.DeploymentRow.ExecuteRollback | backend/deployment.py:181-216 | the rollback and its three ways to end |
| ReleaseModel.DeploymentRow.RefreshBridgeDeployment | backend/deployment.py:219-233 | the refreshed row, with the status the refreshing session writes over the rollback's |
| ReleaseModel.RefreshVerdict | backend/deployment.py:219-233 | exactly when a refreshed deployment ends as succeeded, failed, rolled back or still deploying, and as recovered or unrecoverable |
| ReleaseHistory.RowsAreChronicled | backend/deployment.py:24-68 | every deployment's request, approval and execution stand in that order in the history, and its status says which of them happened |
| ReleaseHistory.ExecutedAtMostOnce | backend/deployment.py:129-138 | a deployment is handed over at most once by the executor |
| ReleaseHistory.RejectedIsNeverShipped | backend/deployment.py:129-138 | what was rejected stays rejected and is never handed over |
| ReleaseHistory.ShippedWasReleased | backend/deployment.py:129-151 | any artifact named in an execution or automatic rollback belongs to a deployment to that same place which met the gates when requested, was approved by another person and was executed |
| ReleaseHistory.FallbackWasReleased | backend/deployment.py:181-216 | a rollback artifact was released to the same place before the deployment it replaces was requested |
| ReleaseHistory.FallbackIsNewest | backend/deployment.py:47-62 | over every history, a deployment has a fallback if and only if some deployment to its place stood as succeeded when it was requested, and it is the artifact of the newest such |
| ReleaseHistory.RollbackShipsNewest | backend/deployment.py:181-216 | an automatic rollback ships the artifact of the newest deployment that stood there when the failed one was requested |
| ReleaseHistory.ProductionWasStaged | backend/deployment.py:37-44 | whatever is shipped for a deployment recorded as production was first shipped to staging, reported as succeeded, accepted by a user and only then requested, with a passed validation |
| ReleaseScenarios.RelabelledInstanceIsShippedTo | backend/deployment.py:129-145 | a history in which an instance that is production at delivery receives an artifact nobody staged or accepted |
| ReleaseScenarios.ChainIsGuaranteedIffRecorded | backend/main.py:1578-1598 | a shipment to an instance that is production now is guaranteed to have its staging chain if and only if the request recorded production |
| ReleaseRollbacks.RecoveryTells | backend/deployment.py:181-216 | a deployment's recovery state is the outcome of its last failed smoke test |
| ReleaseRollbacks.SuccessTells | backend/deployment.py:219-233 | a deployment stands as succeeded exactly when its last refresh left it so |
| ReleaseRollbacks.StagedThoughRolledBack | backend/deployment.py:222-233 | exactly which histories leave a rolled-back deployment standing as succeeded, hence as staged |
| ReleaseRollbacks.StagedThoughFailed | backend/deployment.py:222-233 | exactly which histories leave a deployment standing as succeeded although its last smoke test failed |
| ReleaseScenarios.FailedFirstCountsAsStaged | backend/deployment.py:187-190 | a first staging deployment that fails its smoke tests has nothing to fall back to and counts as staged |
| ReleaseScenarios.FailedStagingReachesProduction | backend/deployment.py:37-44 | a history in which an artifact is shipped to production although its only staging deployment failed its smoke tests and was rolled back |
| ReleaseHistory.EvidenceWasAccepted | backend/main.py:2877-2888 | acceptance evidence exists if and only if somebody accepted the artifact while it was staged |
| ReleaseHistory.ServedExactly | backend/main.py:3142-3159 | the link answers exactly when the last thing that happened to the deployment was an approval, an execution, a delivery or a refresh that read a waiting job, and then only with its own artifact as packaged |
| ReleaseHistory.ExecutionIsServedItsArtifact | backend/main.py:3142-3159 | an execution is served, exactly while its link answers, nothing but the artifact its job pinned |
| ReleaseHistory.RollbackIsServedIff | backend/deployment.py:181-216 | the bundle a rollback's job pinned is served if and only if a later refresh, the last thing to happen, read the job as waiting and both artifacts have the same digest |
| ReleaseScenarios.WrongBundleIsServed | backend/main.py:3142-3159 | a history in which the rollback's link serves the very artifact being rolled back |
| Phases.Project.UpdatePhase | backend/main.py:2910-2919 | the phase moves exactly when no phase is skipped and the target's facts are all there |
| Phases.PhaseWasEarned | backend/main.py:2891-2919 | a project of rank r has passed the gates of ranks 1 to r one after another in that order, whatever its backward moves |
| Phases.ReadyWentThroughUat | backend/main.py:2894-2907 | a project ready for production was earlier admitted to acceptance on a passed validation |
| Phases.ReadyPassedEveryGate | backend/main.py:2894-2907 | such a project showed everything the six gates ask for, one gate after another |
| BridgeJobs.JobTable.CreateJob | odoo_addons/primacy_deployment_bridge/controllers/bridge.py:21-31 | a job with exactly the expected fields is appended as queued, any other is refused |
| BridgeJobs.JobTable.NextJob | odoo_addons/primacy_deployment_bridge/controllers/bridge.py:33-45 | the oldest queued unexpired job is given out and marked running |
| BridgeJobs.JobTable.JobResult | odoo_addons/primacy_deployment_bridge/controllers/bridge.py:55-64 | a permitted result is written to the newest record of the identifier; an unknown identifier and an unpermitted state are refused |
| BridgeJobs.ResultIsStored | odoo_addons/primacy_deployment_bridge/controllers/bridge.py:55-64 | a result is stored as reported on the newest record of its identifier and nowhere else |
| BridgeJobs.FirstWaitingIsGiven | odoo_addons/primacy_deployment_bridge/controllers/bridge.py:33-45 | a poll gives out the first queued record that has not expired, and only that one changes |
| BridgeJobs.LastWordStands | odoo_addons/primacy_deployment_bridge/controllers/bridge.py:33-64 | in every history a record has the status of the last poll or result to reach it |
| BridgeJobs.UnwrittenIsQueued | odoo_addons/primacy_deployment_bridge/controllers/bridge.py:33-64 | and a record none of them reached is queued |
| BridgeJobs.LeavesQueueOnce | odoo_addons/primacy_deployment_bridge/controllers/bridge.py:33-64 | a record leaves the queue at most once, by exactly one of two doors: it is given out or a result overtakes it |
| BridgeJobs.DispatchedExactlyOnce | odoo_addons/primacy_deployment_bridge/controllers/bridge.py:33-64 | with identifiers used once and runners reporting only on their jobs, a record has left the queue if and only if it was dispatched, exactly once |
| BridgeJobs.OldestFirst | odoo_addons/primacy_deployment_bridge/controllers/bridge.py:36-38 | the records before a dispatched one have left the queue or expired |
| BridgeJobs.ReusedIdSkipsDispatch | backend/deployment.py:87-103 | the rollback of a job that was reported as succeeded finishes under the reused identifier without ever being dispatched, on a report sent again |
| Permissions.Top | backend/permissions.py:366-381 | the grant that decides is the first of the highest rank among the matching ones, as the stable descending sort puts it |
| Permissions.DenyWins | backend/permissions.py:366-396 | a matching deny decides if and only if there is one |
| Permissions.ApprovalIsNotAllowed | backend/permissions.py:231-364 | no decision both allows and asks for approval |
| Permissions.ResourceNamesTool | backend/permissions.py:32-40 | outside the always-allowed tools equal resources mean equal tools, except among the workspace writers |
| Permissions.KeyDetermines | backend/permissions.py:258-295 | requests with the same cache key and capabilities get the same decision although the key omits the tool |
| Permissions.EntriesAreComputed | backend/permissions.py:104-135 | every entry of the cache was computed for its key at a moment of the trace and has not been invalidated since |
| Permissions.BoundedStaleness | backend/permissions.py:231-295 | in every trace each answer is, up to the cached flag, the uncached decision of some moment in the last sixty seconds that no later invalidation covered |
| Permissions.EngineStaleness | backend/permissions.py:177-229 | the same for the engine's own tool classes, without any assumption on them |
| PermissionCacheObject.PermissionCache.Clear | backend/permissions.py:137-139 | clearing is invalidating every scope |
| PermissionCacheObject.PermissionCache.Get | backend/permissions.py:104-120 | a live entry is returned marked as cached and an expired one removed |
| PermissionCacheObject.PermissionCache.Invalidate | backend/permissions.py:126-135 | the loop removes every entry of the scope and no other |
| PermissionCacheObject.PermissionCache.CheckPermission | backend/permissions.py:231-295 | the check with its cache as one change of the store; what it answers is stated by the laws of PermissionLaws |
| PermissionLaws.OneVoice | backend/permissions.py:366-396 | on every resource the applicable grants say exactly one thing: nothing, or the decision of the first that none outranks |
| PermissionLaws.AllowedIff | backend/permissions.py:258-364 | exactly when a call is allowed and exactly when it waits for approval, from what the grants on its resource and its tool say, the instance, the tool classes and the approval |
| PermissionLaws.DenialIsFinal | backend/permissions.py:320-338 | an explicit denial of the resource a call touches is final, whatever else was granted or approved |
| PermissionLaws.ToolDenialIsFinal | backend/permissions.py:340-344 | so is a denial of the tool, unless the layer of the path or command decides first |
| PermissionLaws.ResourceIsTouched | backend/permissions.py:32-40 | the resource of a call, case by case |
| PermissionLaws.LiveEntryAnswers | backend/permissions.py:258-267 | a live entry of the call's own key answers, marked as cached |
| PermissionLaws.ChainAnswers | backend/permissions.py:269-295 | otherwise the chain answers, and the answer is kept for sixty seconds unless it waits for approval |
| PermissionLaws.ColdDenial | backend/permissions.py:231-295 | on an empty cache a denied call is refused |
| Schedules.Dispatcher.DispatchDueSchedules | backend/worker.py:126-162 | one sweep over a batch, stopped anywhere, and the number of runs it started |
| Schedules.NextRunAfterSweep | backend/worker.py:74-92 | a claimed schedule runs next after its interval, or after five minutes at most if the project was busy; every other keeps its time |
| Schedules.StepAhead | backend/worker.py:66-90 | a step that leaves a due schedule alone lets nobody new get ahead of it, and a complete sweep removes twenty of those ahead |
| Schedules.NoStarvation | backend/worker.py:66-90 | an enabled due schedule with k due ones ahead of it is claimed within k / 20 + 1 complete sweeps, whatever else becomes due |
| Schedules.MinimumSpacing | backend/worker.py:74-90 | two dispatches of one schedule are at least the smallest interval configured between them apart |
| LoginLimiter.Limiter.Login | backend/main.py:163-175 | the pruning loop, the verdict and the new deque; no other client's deque changes |
| LoginLimiter.ClientsAreIndependent | backend/main.py:164-166 | a client's deque is that of its own requests alone |
| LoginLimiter.DequeIsWindow | backend/main.py:167-175 | the deque holds exactly the admissions of the last sixty seconds, never more than twenty |
| LoginLimiter.RefusedIffWindowFull | backend/main.py:169-173 | a request is refused if and only if exactly twenty admissions lie in the sixty seconds before it |
| LoginLimiter.TwentyAMinute | backend/main.py:163-175 | the same in the numbers of the route, and what counts as recent |
| LoginLimiter.AdmissionsAreSpread | backend/main.py:163-175 | any twenty-one consecutive admissions span at least sixty seconds |
| LoginLimiter.VerdictInStream | backend/main.py:163-175 | the same in a stream of requests from many clients |
| Outbox.PickedFrom | backend/worker.py:534-545 | the claimed row is the eligible one with the smallest identifier |
| Outbox.Table.Enqueue | backend/worker.py:257-258 | one unclaimed row with no attempts is appended |
| Outbox.Table.ClaimOutbox | backend/worker.py:526-552 | one claim as a change of the table |
| Outbox.Table.Settle | backend/worker.py:1303-1314 | completion or return of a handled row |
| Outbox.Table.ReleaseStale | backend/worker.py:517-522 | every stale lease on an unfinished row and no other is released |
| Outbox.ClaimLeasesFirst | backend/worker.py:526-552 | a claim leases the first row that is unfinished, free, due and of an aggregate nobody holds, and counts the attempt |
| Outbox.NothingToClaim | backend/worker.py:545-546 | without such a row it changes nothing |
| Outbox.LeasesLapse | backend/worker.py:517-522 | a lease is ended exactly if its row is unfinished and it is more than five minutes old |
| Outbox.BusyRowBacksOff | backend/worker.py:1308-1314 | a row given back because the project is busy cannot be claimed for two seconds, and every other row stays |
| Outbox.MutualExclusion | backend/worker.py:526-552 | under any interleaving at most one unfinished row of an aggregate is held |
| Outbox.NothingLost | backend/worker.py:257-258 | the table is the enqueued events in their order |
| Outbox.LeasesBalance | backend/worker.py:546-547 | attempts equals the number of claims, and each claim beyond the first follows a return of that row |
| Outbox.CompletedIsFinal | backend/worker.py:1356-1359 | a completed row is never claimed again |
| Outbox.EarlierRowsFirst | backend/worker.py:534-545 | when a row is claimed the earlier rows of its aggregate have completed or are backing off |
| Outbox.RoundsDrain | backend/worker.py:526-552 | once leases have lapsed, as many rounds as unfinished rows finish them all |
| WorkspacePath.Workspace.Resolve | backend/workspace.py:31-43 | the prefix loop ends with a relative name; walking it from the root decides: outside, missing though it must exist, or the path |
| WorkspacePath.PrefixesMeanNothing | backend/workspace.py:32-37 | dropping the prefixes does not change where the parts lead |
| WorkspacePath.AcceptsIffBelow | backend/workspace.py:38-43 | a name is accepted if and only if its parts lead from the root to somewhere below it |
| WorkspacePath.ReResolves | backend/workspace.py:31-43 | the relative form of a path resolves to that path if and only if it has no outer white space |

## Left out

- The language model, the graph library, tool bodies, HTTP, RPC and database clients: their outcomes are arbitrary inputs of the steps.
- Cryptography, hashing, JSON, ZIP encoding and glob matching: predicates and uninterpreted functions; a JSON codec is assumed to read back what it wrote and to write one line.
- One `run.start` per run, unique task identifiers, one live worker per run; a second handler after a stale release is not modelled. A run's log begins with its first handled transaction.
- RunLineage: any run may be retried, whatever its status; the route's own guard only leaves fewer lineages. A retry of a read-only run, or of one that never had a graph, plans anew and begins a lineage of its own.
- Heartbeat times: the watchdog and the whole-run fallback may act at any moment, which covers every timing.
- The whole-run fallback has no budget, so it is not among the bounded steps.
- RunTheorems.OneTaskAtATime: the interruption by the API process clears the active task but leaves its status, so "the active one" is stated up to an interruption.
- A stream that paused while the status read fails is followed again, as the code does; waiting times between retries are not modelled.
- Strings are sequences of characters; byte decoding in the browser and surrogate pairs are not modelled.
- DeployRunner.Compensation: file moves and report writes succeed, extraction writes only under the module's directory, and nonces hold no line break. Jobs for other modules appear through their own files only.
- DeploySite: the backup directory, by default a hidden one beside the modules, is not part of the tree.
- Extraction.ExtractsInside: no symbolic links are on the way; device errors are not modelled.
- ReleaseModel.DeploymentRow.ExecuteDeployment: the status `queued` is accepted by the code but written nowhere, so it is not a status of the model.
- Packaging: paths are compared relative to the module root, which orders them as the full paths do; symbolic links in the tree are not modelled.
- WorkspacePath: a missing path argument is the empty string; symbolic links are not modelled.
- The push to a hosted repository is one delivery like a bridge job; its git commands are not modelled.
- Reads and writes of one transaction are atomic; races inside a claim at the database's isolation level are not modelled.
- Permissions.BoundedStaleness: the cache key omits capabilities and grants, so the bound is on when, not on which of their values, the answer was right.
- Schedules: the limited query's ties may be resolved in any way; re-enabling a disabled schedule is outside the starvation bound, as its overdue time would overtake the queue.
- Prompt classifiers, source indexers, validators of XML and manifests, authentication routes, migrations, telemetry and the user interface: flat checks without a property across functions.
