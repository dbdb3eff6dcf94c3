# JobSlayer: a verified model of its durable state

JobSlayer keeps the truth about a run in append-only ledgers and journals, compare-and-swap rows, Git
refs and small files, and promises that crashes, retries and concurrent clients cannot break it. This
project models those stores in Dafny and proves what the promise amounts to, and exactly where the
code does not keep it.

The files, from the largest claim to the smallest:

- `LocalRun`, `LocalRunCoordinator`, `Recovery`: one local run (execute, review, apply_decision,
  integrate, cleanup) and its recovery. Each call is the list of durable writes it makes on a given
  state; a crash is a prefix of that list. `RunInvariant`, `RunExecution`, `RunCalls`, `RunRecovery`
  and `RunTheorems` prove what holds in every state that any calls, cut anywhere, can reach; `RunRoutes`
  says which states a task passes through, `RunAnswers` when each call succeeds and what it then leaves;
  `RunWitnesses` leads, from any repository, to a finished run, to a refused one and to each defect.
- `GitIntegration`: the one commit and the fast-forward, and their retries.
- `WorkerLeases`, `Budgets`, `GovernedExecutor`, `IsoTimestamps`: leases, budgets, and the decorator
  that composes them around an agent while other clients and orphan recovery interfere.
- `StateTransactions`, `AdvisoryLocks`, `LockedTransactions`: expected-sequence transactions with a
  mandatory outbox, the PostgreSQL locks that admit them, and both in one system.
- `DurableLaunch`: the launch of one provider start key by a restarting API and racing workers.
- `QuickAgentWindow`, `RunEvents`, `CollectLoop`, `PlanningGraph`, `RevisionJournals`, `LongRuns`: the
  in-memory window, the sealed event log and its threads, the collection deadline, the planning graph
  and its cycle check, the three revision journals, and the long-run projection.

Classes carry the fields the source updates and their methods make the same checks and writes in the
same order; each method is proved against a function of the old state, and the lemmas are about those
functions. `dafny verify dfyconfig.toml` checks everything.

## Where the code falls short of its promise

Each of these is proved on the model of the code as it is: an input or a run that shows it, and, for all
inputs, exactly when the code does what it promises.

- A completed review that asks for changes leaves all stores in agreement, but `assess` calls it
  invalid evidence (`RunTheorems.RejectedReviewIsCalledInvalid`, `RunWitnesses.RejectedReviewHappens`).
- A crash between creating and filling `decision-card.json` leaves a card that is never repaired
  (`RunTheorems.TornCardIsForEver`, `RunTheorems.TwoRecoversSuffice`, `RunWitnesses.TornCardHappens`).
- `apply_decision` judges the approval authority at the time of the call, recovery at the time written
  on the transition; if the authority ends between the two, the gap is not recoverable
  (`RunTheorems.DecisionGapNeedsALivingAuthority`, `RunWitnesses.LateApprovalIsLost`).
- Validation commands run in the worktree after the patch was collected; an unrecorded execution is
  recoverable exactly when they left it unchanged (`RunWitnesses.ExecutionGapNeedsAnUnchangedWorktree`).
- A resumed integration checks HEAD but merges the branch by name, so a branch moved away from HEAD can
  take the target to an unreviewed commit (`GitIntegration.TargetSafeUnlessAnotherTip`,
  `GitIntegration.ResumedMergeCanTakeAnUnreviewedTip`).
- Copies of lease and budget rows are not validated when written; a clock behind the acquisition time
  leaves a row that can never be read again, and one such lease blocks its run for ever and every
  recovery pass once it is due (`WorkerLeases.LoadableIffClockNotBehind`,
  `WorkerLeases.ClockThatStepsBackStrandsARun`, `Budgets.LoadableIffClockNotBehind`,
  `Budgets.ClockThatStepsBackStrandsAReservation`). With it goes the whole event history, which can be
  read exactly while the row can (`WorkerLeases.EventsReadIff`, `Budgets.EventsReadIff`,
  `WorkerLeases.ClockThatStepsBackHidesTheEvents`). Marking an outbox event published before its
  creation time makes its run's events unreadable (`StateTransactions.PublicationReadableIff`,
  `StateTransactions.EarlyPublicationHidesTheEvents`).
- Collecting twice rereads the event log from its start; the second pass is accepted only if every
  reading equals the total (`GovernedExecutor.RereadingALog`,
  `GovernedExecutor.TwoReadingsAreRefusedTheSecondTime`).
- A worker that dies between its lock and its claim wedges the start key for ever
  (`DurableLaunch.ClaimableIffNotWedged`, `DurableLaunch.WorkerThatDiesWedges`).
- A clock that goes back during a Codex run leaves it without a result for ever
  (`RunEvents.ResultIffClockForward`, `RunEvents.ClockThatWentBack`).
- Task descriptions may have 12,000 characters, but the planning agent fails on more than 7,979
  (`PlanningGraph.InitialGraphFitsIff`).
- `append` of a long run accepts any unused checkpoint count; its checkpoints can be read exactly while
  the accepted counts are an initial segment (`LongRuns.CheckpointsReadableIffInitialSegment`,
  `LongRuns.FirstCheckpointMayLeaveAGap`).
- The orphan query compares text. It is right for all instants exactly when query and expiry carry one
  offset; an expiry at a larger offset can hide an orphan, one at a smaller offset can end a live lease
  (`IsoTimestamps.QueryIsTimeOrderIffOneOffset`, `IsoTimestamps.MixedOffsetsHideAnOrphan`,
  `IsoTimestamps.MixedOffsetsExpireALiveLease`).

## Model

| member | source | states |
|---|---|---|
| `RunTheorems.LedgerAndJournalKeepStep` | src/jobslayer/application/local_run.py:118-661 | After any calls cut anywhere, the ledger is a prefix of the five stages, the journal is never behind it and at most one stage ahead, every transition was allowed and authorized, and the agent started at most once. |
| `RunTheorems.RepairAppendsTheOwedRecord` | src/jobslayer/adapters/local_recovery.py:192-342 | For every ledger gap assess calls recoverable, recover leaves the state unchanged except for the one record the interrupted call would have appended, up to its time stamp. |
| `RunTheorems.RecoverClosesOneGap` | src/jobslayer/adapters/local_recovery.py:192-399 | Each recover of a recoverable run closes exactly one open gap, also when it then raises; it succeeds exactly when no gap remains and the card is not torn. |
| `RunTheorems.TwoRecoversSuffice` | src/jobslayer/adapters/local_recovery.py:82-399 | From every reachable recoverable state two recovers end consistent if and only if the decision card is not torn. |
| `RunTheorems.MissingOutcomeIsRefused` | src/jobslayer/adapters/local_recovery.py:401-478 | An intent without an outcome is assessed as manual, recover refuses it, and no later call changes any store or starts the agent again. |
| `RunTheorems.UnrecordedReviewIsRefused` | src/jobslayer/application/local_run.py:325-401 | A review transition without its ledger record is assessed as manual and stays as it is for ever. |
| `RunTheorems.RejectedReviewIsCalledInvalid` | src/jobslayer/adapters/local_recovery.py:594-639 | With two records and no decision transition the stores agree; assess reports the card's status, except that it calls a changes-requested review invalid evidence. |
| `RunTheorems.TornCardIsForEver` | src/jobslayer/application/local_run.py:1020-1030 | A card file a crash left unfilled stays so through every later call, and the run is never consistent again. |
| `RunTheorems.DecisionGapNeedsALivingAuthority` | src/jobslayer/adapters/local_recovery.py:641-771 | A decision cut before its record is recoverable exactly when the authority covers the time on the transition, else its evidence is invalid. |
| `RunTheorems.TargetIsUntouchedOrSanctioned` | src/jobslayer/application/local_run.py:485-611 | In every reachable state the target is where it was, or it is the one commit allowed by a patch with a passing report, cited by an approval of an authorized actor. |
| `RunTheorems.TargetMovesOnceApproved` | src/jobslayer/application/local_run.py:508-546 | If the target moved, the ledger holds the approving decision and the target is the sanctioned child of the base it started from. |
| `RunTheorems.MovedTargetIsTheNamedBranch` | src/jobslayer/adapters/local_git_integration.py:59-157 | Whenever the target moved, over all calls cut anywhere, the branch checked out there is the one the runbook named, and the checkout is clean. |
| `RunTheorems.MovedTargetIsTheReviewedCommit` | src/jobslayer/application/local_run.py:485-611 | It then stands at a commit on the base whose difference is the reviewed patch, within the allowed paths, with the approver in its message. |
| `RunTheorems.StuckForever` | src/jobslayer/adapters/local_recovery.py:340-346 | A state in which no call writes is left by no sequence of calls. |
| `RunTheorems.LevelAfterRepair` | src/jobslayer/adapters/local_recovery.py:224-342 | After a ledger repair no ledger gap is open, a missing card is still missing, and assess answers accordingly. |
| `RunTheorems.CardRepairClosesIt` | src/jobslayer/adapters/local_recovery.py:344-399 | Restoring the card writes exactly the card of the review record and nothing else. |
| `RunRoutes.EveryRunIsOnTheWay` | src/jobslayer/workflow/kernel.py:31-236 | Whatever calls are made and however they die, the states of a task are a beginning of one of six written-out ways; only the last of them, verified, reviewed, approved and integrated, reaches COMPLETED. |
| `RunRoutes.RecordedDecisionLeadsWhereItSays` | src/jobslayer/supervision/application.py:36-110 | Over all calls cut anywhere a recorded approval went to INTEGRATING, a change request to REPAIRING, a rejection to CANCELLED, by the person who decided; after the last two the run ends there with the target untouched. |
| `RunRoutes.KernelDecidesIff` | src/jobslayer/workflow/kernel.py:31-236 | The kernel accepts a transition exactly if it is one of the listed steps, made by someone who may, with the passing or failing report and the integration result the step needs; and what it then cites. |
| `RunRoutes.OnlyWayInto` | src/jobslayer/workflow/kernel.py:31-88 | In every legal journal INTEGRATING is entered only from MERGE_REVIEW and COMPLETED only from INTEGRATING, each by a person; the two review states have one entrance each. |
| `RunRoutes.EndsAreFinal` | src/jobslayer/workflow/kernel.py:31-88 | Nothing follows an end state, which only a person enters, and no agent puts a task into IMPLEMENTING. |
| `RunRoutes.CompletedWasApprovedAndReviewed` | src/jobslayer/workflow/kernel.py:31-236 | The last four transitions of any completed task: verified, sent to merge review, approved by a person, integrated by a person. |
| `RunAnswers.ExecuteSucceedsIff` | src/jobslayer/application/local_run.py:118-218 | In every reachable state execute succeeds exactly for an admitted and authorized attempt on a fresh directory and workspace, not made by an agent, that the agent survives. |
| `RunAnswers.ExecutionRecords` | src/jobslayer/application/controller.py:111-361 | Its outcome is FAILED exactly for an unusable run, a path outside the task or an empty patch; otherwise it is the verdict on the collected patch. |
| `RunAnswers.ReviewSucceedsIff` | src/jobslayer/application/local_run.py:325-401 | Review succeeds exactly for an agent or person on a run that awaits review. |
| `RunAnswers.DecisionSucceedsIff` | src/jobslayer/supervision/application.py:48-110 | A decision is applied exactly when it is about this card with this evidence, lists an option, and its actor may merge at that time. |
| `RunAnswers.IntegrateSucceedsIff` | src/jobslayer/application/local_run.py:485-611 | Integration succeeds exactly for a recorded approval, and either Git can be taken to the commit or the task was completed before. |
| `RunAnswers.CleanupSucceedsIff` | src/jobslayer/application/local_run.py:613-661 | In every reachable state cleanup succeeds exactly after four records: the worktree is then always clean and on its branch. |
| `RunAnswers.OnlyACleanWorktreeIsRemoved` | src/jobslayer/application/local_run.py:613-661 | In any stores whatever, a worktree is removed exactly if the run is integrated and the worktree clean and on its branch. |
| `RunAnswers.ReviewLeaves` | src/jobslayer/application/controller.py:363-460 | The documents, transition, record and card a review writes, in order, each literally. |
| `RunAnswers.DecisionLeavesInOrder` | src/jobslayer/supervision/application.py:48-110 | The documents, transition and record of a decision, with what the transition cites and where it leads. |
| `RunAnswers.IntegrationLeaves` | src/jobslayer/application/local_run.py:508-611 | A first integration commits, then fast-forwards, then files the result, then completes the task by the approver, and only then is recorded. |
| `RunAnswers.ConsistentMeansAgreement` | src/jobslayer/adapters/local_recovery.py:62-190 | Whatever became of the stores, assess says consistent only if ledger, journal, documents, worktree and card agree. |
| `RunAnswers.ExecutionIsEvident` | src/jobslayer/adapters/local_recovery.py:480-592 | Whatever became of the stores, an execution is recovered only from the one intent and outcome on file, for a worktree that still holds the patch. |
| `RunAnswers.DecisionIsEvident` | src/jobslayer/adapters/local_recovery.py:641-771 | A decision only from the decision and authority its transition cites, about this card, valid when it was made, and leading where it says. |
| `RunAnswers.IntegrationIsEvident` | src/jobslayer/adapters/local_recovery.py:224-342 | An integration only from the one result its transition cites, following the recorded decision and attested by Git. |
| `RunAnswers.CleanupIsEvident` | src/jobslayer/adapters/local_recovery.py:224-342 | A cleanup only of an integrated run without a worktree whose branch stands at the integrated commit. |
| `RunWitnesses.FiveCallsFinish` | src/jobslayer/application/local_run.py:118-661 | Any workable attempt whose checks pass and change nothing, accepted and approved in time on a clean target at its base, is integrated and cleaned up by the five calls: five records, consistent, the target at the sanctioned commit. |
| `RunWitnesses.DecisionAgainstEndsTheRun` | src/jobslayer/application/local_run.py:403-483 | Any accepted attempt can be decided against: rejected it ends CANCELLED, with changes requested REPAIRING, consistent, the target untouched, and no integration is possible any more. |
| `RunWitnesses.ExecutionLeaves` | src/jobslayer/application/controller.py:111-361 | Every artifact and every transition of any workable execution, in order, with who filed it and what it cites. |
| `RunWitnesses.ExecutionGapNeedsAnUnchangedWorktree` | src/jobslayer/adapters/local_recovery.py:480-592 | Any workable execution that dies before its record is recoverable if and only if the checks left the worktree as the agent did; otherwise its evidence is called invalid. |
| `RunWitnesses.LateApprovalIsLost` | src/jobslayer/application/local_run.py:403-483 | Any approval in time when applied, cut before its record, is recoverable if and only if its transition is dated before the authority ends. |
| `RunWitnesses.RejectedReviewHappens` | src/jobslayer/application/local_run.py:325-401 | Any workable attempt can be sent back for changes, after which inspect agrees and assess says invalid. |
| `RunWitnesses.TornCardHappens` | src/jobslayer/application/local_run.py:1020-1030 | Any accepted review that dies between the two writes of its card leaves it torn and the run invalid. |
| `RunRecovery.AssessSays` | src/jobslayer/adapters/local_recovery.py:62-190 | In every reachable state assess equals a verdict read off the stages, the journal, the worktree and the card, without looking for evidence. |
| `RunRecovery.RecoverAppendsTheOwedRecord` | src/jobslayer/adapters/local_recovery.py:192-342 | A ledger repair writes one append, of the owed record, in every state that satisfies the invariant. |
| `RunRecovery.EveryCallKeepsTheInvariant` | src/jobslayer/application/local_run.py:118-661 | Any call, dying after any of its writes or running to its end, keeps the invariant of the run. |
| `RunRecovery.EveryRunKeepsTheInvariant` | src/jobslayer/application/local_run.py:118-661 | So does every sequence of calls, crashes and recoveries. |
| `RunRecovery.LoadsExecution` | src/jobslayer/adapters/local_recovery.py:480-592 | The execution gap loader rebuilds the owed record exactly when the worktree still holds the recorded patch. |
| `RunRecovery.LoadsDecision` | src/jobslayer/adapters/local_recovery.py:641-771 | The decision gap loader rebuilds the owed record exactly when the authority covers the transition. |
| `RunRecovery.DecisionCites` | src/jobslayer/adapters/local_recovery.py:671-700 | Among everything a decision transition cites there is exactly one decision and one authority artifact, those filed for it. |
| `RunExecution.ExecuteAlong` | src/jobslayer/application/local_run.py:118-218 | Execution keeps the invariant at each of its durable writes, for every behaviour of agent, checks and authorities. |
| `RunExecution.ImplementFlow` | src/jobslayer/application/controller.py:111-361 | Whatever happens, the controller's transitions are legal from DRAFT and end in the state its outcome names. |
| `RunExecution.ImplementWithin` | src/jobslayer/application/controller.py:111-361 | An outcome refers only to files registered before it, is within the task's paths, and is reviewable when it says reviewing. |
| `RunExecution.OutcomeStands` | src/jobslayer/application/local_run.py:187-196 | The outcome artifact is the only one, fits the intent, the journal and the worktree, so recovery can rely on it. |
| `RunCalls.ReviewAlong` | src/jobslayer/application/local_run.py:325-401 | A review keeps the invariant at each write, the card's two writes included. |
| `RunCalls.DecideAlong` | src/jobslayer/application/local_run.py:403-483 | So does apply_decision, refused or not. |
| `RunCalls.IntegrateAlong` | src/jobslayer/application/local_run.py:485-611 | So does integrate, first run, resumed after any of its writes, or re-entered after completion. |
| `RunCalls.CleanupAlong` | src/jobslayer/application/local_run.py:613-661 | So does cleanup, before and after the worktree is gone. |
| `RunCalls.GitMoves` | src/jobslayer/adapters/local_git_integration.py:42-157 | From wherever an earlier attempt left Git, the integrator ends merged with matching evidence or stops before its first command. |
| `RunCalls.DecisionIsOnFile` | src/jobslayer/supervision/application.py:48-110 | An accepted decision's artifacts and transition are the ones recovery validates later. |
| `RunCalls.CompletionIsOnFile` | src/jobslayer/application/local_run.py:523-565 | The completed transition cites decision, authority, artifact, report and integration, as the resumed branch requires. |
| `RunCalls.EvidenceGivesTheOwedRecord` | src/jobslayer/application/local_run.py:566-600 | Re-entered after COMPLETED, integrate rebuilds the very record that was owed from journal, registry and Git. |
| `LocalRunCoordinators.LocalRunCoordinator.Execute` | src/jobslayer/application/local_run.py:118-218 | Makes the writes of the execution plan, in order, and answers as it does. |
| `LocalRunCoordinators.LocalRunCoordinator.Implement` | src/jobslayer/application/controller.py:111-361 | The controller's writes and outcome, every kernel transition accepted. |
| `LocalRunCoordinators.LocalRunCoordinator.FinishRun` | src/jobslayer/application/controller.py:177-361 | From the agent's end: lifecycle failure, unusable run, rejected or empty patch, or verification. |
| `LocalRunCoordinators.LocalRunCoordinator.VerifyPatch` | src/jobslayer/application/controller.py:283-361 | Verifying, the checks' artifacts, the report, and the verdict transition. |
| `LocalRunCoordinators.LocalRunCoordinator.Review` | src/jobslayer/application/local_run.py:325-401 | Makes the writes of a review in order, the card last. |
| `LocalRunCoordinators.LocalRunCoordinator.PrepareMergeReview` | src/jobslayer/application/controller.py:363-460 | Review artifact, card artifact if accepted, transition, and the disposition. |
| `LocalRunCoordinators.LocalRunCoordinator.ApplyDecision` | src/jobslayer/application/local_run.py:403-483 | Files both documents, then applies the decision, then records it; approval, change request and rejection go where `RunAnswers.DecisionLeavesInOrder` says. |
| `LocalRunCoordinators.LocalRunCoordinator.ApplyToWorkflow` | src/jobslayer/supervision/application.py:48-110 | Binding, authority, state and option checks before the kernel is asked for INTEGRATING, REPAIRING or CANCELLED. |
| `LocalRunCoordinators.LocalRunCoordinator.Integrate` | src/jobslayer/application/local_run.py:485-611 | Integrates afresh in INTEGRATING, re-reads the evidence in COMPLETED, then records. |
| `LocalRunCoordinators.LocalRunCoordinator.IntegrateSource` | src/jobslayer/application/local_run.py:523-565 | Git commands, result artifact and completed transition, stopping at the first refusal. |
| `LocalRunCoordinators.LocalRunCoordinator.Cleanup` | src/jobslayer/application/local_run.py:613-661 | Removes a clean worktree on its branch, checks the preserved tip, then records. |
| `LocalRunCoordinators.LocalRunCoordinator.Advance` | src/jobslayer/workflow/kernel.py:90-236 | A transition is journalled only if allowed, authorized and through its gate. |
| `LocalRunCoordinators.LocalRunCoordinator.CreateCard` | src/jobslayer/application/local_run.py:1020-1030 | The card file is created exclusively, then filled: two writes. |
| `LocalRunCoordinators.LocalRunCoordinator.WritesAdvance` | src/jobslayer/application/local_run.py:118-661 | The stores are always what the writes so far made of them, so a crash leaves a prefix. |
| `LocalRunCoordinators.KernelReviews` | src/jobslayer/application/controller.py:404-450 | The kernel accepts both review transitions from REVIEWING by an agent or a human. |
| `LocalRunCoordinators.KernelGivesVerdict` | src/jobslayer/application/controller.py:312-350 | The verification gate lets a passing report to review and a failing one to repair. |
| `Recovery.LocalRunRecoveryManager.Recover` | src/jobslayer/adapters/local_recovery.py:192-399 | Assesses, repairs one gap, assesses again, and raises unless the run is then consistent. |
| `Recovery.LocalRunRecoveryManager.Repair` | src/jobslayer/adapters/local_recovery.py:196-399 | Each repair writes through the same stores as the call it completes. |
| `LocalRun.Select` | src/jobslayer/adapters/local_artifacts.py:144-171 | Lists registered manifests of one kind, oldest first. |
| `GitIntegration.IntegrationIsExactlyOnce` | src/jobslayer/adapters/local_git_integration.py:42-157 | Over any sequence of attempts cut anywhere there is one commit, that of the first attempt to reach it, and a finished attempt leaves target and workspace at it. |
| `GitIntegration.AttestationIsIdempotence` | src/jobslayer/adapters/local_git_integration.py:159-230 | verify_existing_integration accepts exactly the states in which integrating again changes nothing and returns that evidence. |
| `GitIntegration.IntegrationAttests` | src/jobslayer/adapters/local_git_integration.py:144-230 | Every returned result passes the attestation, and every retry returns it again. |
| `GitIntegration.ResultIsBackedByGit` | src/jobslayer/adapters/local_git_integration.py:126-157 | A result means target and workspace stand, clean, at one sanctioned commit, reached only from the base or from that commit. |
| `GitIntegration.IntegratesIff` | src/jobslayer/adapters/local_git_integration.py:42-157 | For every repository and request integration succeeds if and only if the request is addressed to this task, workspace and target branch, the target is clean and the patch applies, and either the workspace can be committed or the sanctioned commit can be taken on. |
| `GitIntegration.SuccessLeaves` | src/jobslayer/adapters/local_git_integration.py:85-157 | The whole repository and the whole evidence after a success, field by field. |
| `GitIntegration.MisaddressedChangesNothing` | src/jobslayer/adapters/local_git_integration.py:51-84 | With another branch checked out, or for another task, workspace, patch or base, nothing is committed, nothing moves, and nothing is attested. |
| `GitIntegration.RefusalChangesNothing` | src/jobslayer/adapters/local_git_integration.py:42-157 | With the branch checked out a refusal leaves the whole repository as it was. |
| `GitIntegration.AttestsIff` | src/jobslayer/adapters/local_git_integration.py:159-230 | An attestation is given exactly on the named branch, with target and clean workspace at one sanctioned commit, for that evidence. |
| `GitIntegration.PhasesKeepTheRest` | src/jobslayer/adapters/local_git_integration.py:85-136 | The commit moves the workspace and its branch only, the merge the target only. |
| `GitIntegration.ValidatedIsSanctioned` | src/jobslayer/adapters/local_git_integration.py:311-345 | The commit check accepts exactly the commits one step past the base, with the reviewed tree and the approval's message. |
| `GitIntegration.TargetSafeUnlessAnotherTip` | src/jobslayer/adapters/local_git_integration.py:107-140 | The target stays, or moves from the base to a returned sanctioned commit, if and only if the branch does not stand at another fast-forwardable tip. |
| `GitIntegration.RefusalLeavesTheTarget` | src/jobslayer/adapters/local_git_integration.py:126-140 | With the branch checked out, a refused integration leaves the target where it was. |
| `GitIntegration.ResumedMergeCanTakeAnUnreviewedTip` | src/jobslayer/adapters/local_git_integration.py:107-140 | A repository in which a refused, resumed integration moves the target to an unreviewed commit. |
| `GitIntegration.PatchRoundTrip` | src/jobslayer/adapters/local_git_integration.py:347-369 | Applying the difference of two trees to the first gives the second. |
| `GitIntegration.ChildIsOneAhead` | src/jobslayer/adapters/local_git_integration.py:311-322 | A commit whose only parent is the base is exactly one commit ahead of it. |
| `GitIntegration.CommitIsTheFirstStep` | src/jobslayer/adapters/local_git_integration.py:85-125 | From a reviewed workspace the commit phase makes one sanctioned commit and moves nothing else. |
| `GitIntegration.MergeIsTheSecondStep` | src/jobslayer/adapters/local_git_integration.py:107-157 | Resumed after the commit, integration keeps that commit and fast-forwards the target to it. |
| `GitIntegration.MergedIsFinal` | src/jobslayer/adapters/local_git_integration.py:107-157 | Re-entered after the fast-forward, integration changes nothing and returns the same evidence. |
| `GitIntegration.LocalGitIntegrator.Integrate` | src/jobslayer/adapters/local_git_integration.py:42-157 | The checks, commit and merge in the source's order, equal to the specification on every repository; its answer is `GitIntegration.IntegratesIff`, its effect `GitIntegration.SuccessLeaves`. |
| `GitIntegration.LocalGitIntegrator.VerifyExistingIntegration` | src/jobslayer/adapters/local_git_integration.py:159-230 | The attestation, equal to its specification, changing nothing. |
| `GitIntegration.LocalGitIntegrator.MergeFastForwardOnly` | src/jobslayer/adapters/local_git_integration.py:126-136 | Fast-forwards the target to the branch tip or refuses, changing nothing else. |
| `WorkerLeases.EveryHistoryIsSound` | src/jobslayer/adapters/sqlite_workers.py:62-282 | After any operations of any clients at any clock: at most one live lease per run, each row equals its last event, versions are 1..n, each event legally follows the one before. |
| `WorkerLeases.TerminalIsAbsorbing` | src/jobslayer/adapters/sqlite_workers.py:156-207 | A released or expired row is never changed again. |
| `WorkerLeases.AcceptedOnlyAgainstTheVersionRead` | src/jobslayer/adapters/sqlite_workers.py:231-282 | A client's change is accepted only at the version it read, adds one event on top of it, and leaves other leases alone. |
| `WorkerLeases.AcquireGrantedIff` | src/jobslayer/adapters/sqlite_workers.py:62-102 | A lease is granted exactly for one second to an hour, to a run none of whose leases is live. |
| `WorkerLeases.ChangesGrantedIff` | src/jobslayer/adapters/sqlite_workers.py:104-180 | Heartbeat, cancellation and release are granted exactly on the version read, in time and in the right status; a heartbeat for one second to an hour. |
| `WorkerLeases.AcquiredLeaseLasts` | src/jobslayer/adapters/sqlite_workers.py:62-102 | After any operations that are no change to this lease by its own client and no recovery at or after its expiry, a successful recovery expires it if and only if its time is not before now plus the seconds asked for; until then it stays as acquired. |
| `WorkerLeases.RenewedLeaseLasts` | src/jobslayer/adapters/sqlite_workers.py:104-129 | The same of a renewed lease, with the seconds counted from the heartbeat. |
| `WorkerLeases.StoppedLeases` | src/jobslayer/adapters/sqlite_workers.py:131-180 | A cancellation does not prolong a lease; a released one never changes again. |
| `WorkerLeases.RecoveryFreesOrphanedRuns` | src/jobslayer/adapters/sqlite_workers.py:182-207 | After recovery every live lease outlasts the given time, and a run can be leased again exactly if all its live leases were due. |
| `WorkerLeases.RewritesLiveLoadableRowsOnly` | src/jobslayer/adapters/sqlite_workers.py:104-207 | An operation rewrites only live rows that can be read. |
| `WorkerLeases.LoadableIffClockNotBehind` | src/jobslayer/adapters/sqlite_workers.py:104-180 | A rewritten row can be read again exactly when the clock is not behind its acquisition. |
| `WorkerLeases.UnloadableRowIsStuck` | src/jobslayer/adapters/sqlite_workers.py:182-207 | An unreadable row never changes, and once due it makes every recovery pass fail. |
| `WorkerLeases.ClockThatStepsBackStrandsARun` | src/jobslayer/adapters/sqlite_workers.py:131-207 | A lease acquired at one clock and asked to stop at an earlier one: its run is never leased again, and from the expiry on every recovery pass fails. |
| `WorkerLeases.SteadyClockKeepsRowsLoadable` | src/jobslayer/adapters/sqlite_workers.py:62-207 | While clocks do not step back every row can be read and every recovery pass succeeds. |
| `WorkerLeases.VersionsHaveNoGap` | src/jobslayer/adapters/sqlite_workers.py:217-229 | The events of a lease are versions 1..n. |
| `WorkerLeases.EventsReadIff` | src/jobslayer/adapters/sqlite_workers.py:217-229 | Over all histories the events of a lease can be read if and only if there are none or its row can be loaded: only the last can fail to decode. |
| `WorkerLeases.ClockThatStepsBackHidesTheEvents` | src/jobslayer/adapters/sqlite_workers.py:131-154 | A lease acquired at one clock and asked to stop at an earlier one has gap-free versions and a history that can never be read again. |
| `WorkerLeases.SqliteWorkerLeaseStore.Acquire` | src/jobslayer/adapters/sqlite_workers.py:62-102 | Grants a lease only to a run without a live one. |
| `WorkerLeases.SqliteWorkerLeaseStore.Heartbeat` | src/jobslayer/adapters/sqlite_workers.py:104-129 | Extends an active, unexpired lease at the version read to the time asked for, as `WorkerLeases.RenewedLeaseLasts` says. |
| `WorkerLeases.SqliteWorkerLeaseStore.RequestCancel` | src/jobslayer/adapters/sqlite_workers.py:131-154 | Marks an active, unexpired lease at the version read. |
| `WorkerLeases.SqliteWorkerLeaseStore.Release` | src/jobslayer/adapters/sqlite_workers.py:156-180 | Ends a live lease at the version read, capping the heartbeat below the expiry. |
| `WorkerLeases.SqliteWorkerLeaseStore.RecoverOrphans` | src/jobslayer/adapters/sqlite_workers.py:182-207 | Expires every due lease in id order, or rolls back at the first unreadable one. |
| `WorkerLeases.SqliteWorkerLeaseStore.ExpireRows` | src/jobslayer/adapters/sqlite_workers.py:189-207 | The loop: each due row expired once, all or none. |
| `WorkerLeases.SqliteWorkerLeaseStore.Events` | src/jobslayer/adapters/sqlite_workers.py:217-229 | Returns the lease's events, refusing one that does not decode or a gap; in every reachable store exactly when the row cannot be loaded. |
| `WorkerLeases.SqliteWorkerLeaseStore.Checked` | src/jobslayer/adapters/sqlite_workers.py:217-229 | The loops that accept exactly decodable records with versions 1..n. |
| `Ordering.InOrder` | src/jobslayer/adapters/sqlite_workers.py:189-195 | ORDER BY: the elements of a set, ascending, each once. |
| `IsoTimestamps.OrphanQueryIsTimeOrder` | src/jobslayer/adapters/sqlite_workers.py:189-195 | For all UTC instants comparing the stored text is comparing the instants, with or without a fraction. |
| `IsoTimestamps.ZoneDesignatorMustPrecedeThePoint` | src/jobslayer/adapters/sqlite_workers.py:94 | Text order is time order exactly for zone designators whose first character sorts before the decimal point. |
| `IsoTimestamps.MixedOffsetsHideAnOrphan` | src/jobslayer/adapters/sqlite_workers.py:182-207 | For two whole-minute offsets, some expired lease is missed by the query if and only if the expiry is written at the larger offset. |
| `IsoTimestamps.MixedOffsetsExpireALiveLease` | src/jobslayer/adapters/sqlite_workers.py:182-207 | Some live lease is expired by the query if and only if the expiry is written at the smaller offset. |
| `IsoTimestamps.QueryIsTimeOrderIffOneOffset` | src/jobslayer/adapters/sqlite_workers.py:189-195 | The query agrees with the instants for all times if and only if both sides carry one offset. |
| `IsoTimestamps.QueryIsRightIff` | src/jobslayer/adapters/sqlite_workers.py:189-195 | For one lease and one query time: right exactly when the difference of the written times is not between zero and that of the offsets, and a tie falls the right way. |
| `IsoTimestamps.DueComparesWrittenFields` | src/jobslayer/adapters/sqlite_workers.py:189-195 | The query compares the fields as written, to the microsecond; offsets only break a tie. |
| `IsoTimestamps.IsoReadsBack` | src/jobslayer/adapters/sqlite_workers.py:318-323 | Reading a written time gives the same fields back. |
| `IsoTimestamps.FieldsOrderInstants` | src/jobslayer/adapters/sqlite_workers.py:318-323 | Calendar fields in lexicographic order are instants in time order, leap years included. |
| `Budgets.EveryHistoryIsSound` | src/jobslayer/adapters/sqlite_budgets.py:61-300 | After any operations every snapshot is its last event, versions are 1..n, active and released ones are within every limit with repairs 0 or fewer than attempts, nothing follows an exhausted or released one. |
| `Budgets.TotalsAreTheAcceptedOperations` | src/jobslayer/adapters/sqlite_budgets.py:104-211 | Conservation: spent totals, attempts and repairs are exactly the sum of the operations clients were told were recorded. |
| `Budgets.OvershootIsOneCharge` | src/jobslayer/adapters/sqlite_budgets.py:146-211 | An exceeding charge overshoots each limit by at most itself and exhausts the reservation. |
| `Budgets.ChargeGrantedIff` | src/jobslayer/adapters/sqlite_budgets.py:146-211 | A charge is granted exactly when made on the active snapshot read and within every limit. |
| `Budgets.RepairGrantedIff` | src/jobslayer/adapters/sqlite_budgets.py:104-144 | A repair is authorized exactly after a first attempt and within both limits. |
| `Budgets.ReserveGrantedIff` | src/jobslayer/adapters/sqlite_budgets.py:61-102 | A reservation is granted exactly for a new id, run and budget, with nothing spent. |
| `Budgets.AuthorizeDoes` | src/jobslayer/adapters/sqlite_budgets.py:104-144 | Attempts and repairs are granted exactly up to their limits and counted either way; a refused one exhausts the reservation. |
| `Budgets.ChargeDoes` | src/jobslayer/adapters/sqlite_budgets.py:146-211 | A charge adds to each of the four totals, whether or not that is too much; exceeding any limit exhausts the reservation. |
| `Budgets.ReleaseDoes` | src/jobslayer/adapters/sqlite_budgets.py:213-233 | A release closes exactly an active reservation at the version read and keeps what was spent. |
| `Budgets.LoadableIffClockNotBehind` | src/jobslayer/adapters/sqlite_budgets.py:258-300 | A rewritten snapshot can be read again exactly when the clock is not behind the reservation. |
| `Budgets.ClockThatStepsBackStrandsAReservation` | src/jobslayer/adapters/sqlite_budgets.py:61-144 | A reservation made at one clock and started at an earlier one stays active and can never be used, released or read back. |
| `Budgets.UnloadableSnapshotIsStuck` | src/jobslayer/adapters/sqlite_budgets.py:104-300 | A snapshot that cannot be read is never changed again. |
| `Budgets.EventsReadIff` | src/jobslayer/adapters/sqlite_budgets.py:244-256 | Over all histories the events of a reservation can be read if and only if there are none or its row can be loaded. |
| `Budgets.SqliteBudgetStore.Reserve` | src/jobslayer/adapters/sqlite_budgets.py:61-102 | Creates a reservation once per id. |
| `Budgets.SqliteBudgetStore.AuthorizeAttempt` | src/jobslayer/adapters/sqlite_budgets.py:104-144 | Counts an attempt or repair, or exhausts the reservation at its limit. |
| `Budgets.SqliteBudgetStore.Charge` | src/jobslayer/adapters/sqlite_budgets.py:146-211 | Records usage even when it exceeds, then refuses. |
| `Budgets.SqliteBudgetStore.Release` | src/jobslayer/adapters/sqlite_budgets.py:213-233 | Closes an active reservation at the version read. |
| `Budgets.SqliteBudgetStore.Events` | src/jobslayer/adapters/sqlite_budgets.py:244-256 | Returns the reservation's events, refusing one that does not decode or a gap; in every reachable store exactly when the row cannot be loaded. |
| `Budgets.SqliteBudgetStore.Checked` | src/jobslayer/adapters/sqlite_budgets.py:244-256 | The loops that accept exactly decodable snapshots with versions 1..n. |
| `GovernedExecutor.RereadingALog` | src/jobslayer/application/governed_executor.py:141-163 | A log accepted once is accepted again exactly when every reading repeats the total, and then adds nothing. |
| `GovernedExecutor.TwoReadingsAreRefusedTheSecondTime` | src/jobslayer/application/governed_executor.py:141-163 | A log with two different readings is accepted once and refused when it is read again. |
| `GovernedExecutor.AbsorbAppend` | src/jobslayer/application/governed_executor.py:255-299 | Absorbing one more reading continues from the total of the earlier ones. |
| `GovernedExecutor.BackwardsIff` | src/jobslayer/application/governed_executor.py:262-290 | A reading moves backwards exactly when one of its fields is below the total; a field left out keeps it, one that is no integer counts as zero. |
| `GovernedExecutor.Executor.StopForUsage` | src/jobslayer/application/governed_executor.py:287-296 | Over the budget: unless the call raises, the agent is signalled and the held lease is not active any more. |
| `GovernedExecutor.Executor.Events` | src/jobslayer/application/governed_executor.py:255-260 | Reads the log, then renews the lease if that is due: unless the call raises, an agent whose reading exceeded the budget was signalled and its lease is not active. |
| `GovernedExecutor.Executor.Start` | src/jobslayer/application/governed_executor.py:93-125 | On success a reservation, a lease and the agent exist; a refused admission can leave the reservation active. |
| `GovernedExecutor.Executor.Admit` | src/jobslayer/application/governed_executor.py:93-119 | Reservation, attempt and lease are held together or not at all. |
| `GovernedExecutor.Executor.Cancel` | src/jobslayer/application/governed_executor.py:135-139 | Under any interference the agent is signalled only when the stored lease is not active. |
| `GovernedExecutor.Executor.RequestCancelBeforeSignal` | src/jobslayer/application/governed_executor.py:337-350 | The cancel request is persisted before the one signal. |
| `GovernedExecutor.Executor.ChargeAbsoluteUsage` | src/jobslayer/application/governed_executor.py:262-299 | Charges the difference to the last absolute reading; a reading over the limit or below the last one marks the budget exceeded, and unless the call raises it has the agent stopped and the lease not active. |
| `GovernedExecutor.Executor.Observe` | src/jobslayer/application/governed_executor.py:255-260 | Stored totals equal the absorbed log, and a reading that exceeded the budget has the agent stopped, unless the call raises. |
| `GovernedExecutor.Executor.ChargeDuration` | src/jobslayer/application/governed_executor.py:301-316 | Charges the run's duration once, leaving the other totals. |
| `GovernedExecutor.Executor.HeartbeatIfDue` | src/jobslayer/application/governed_executor.py:318-335 | Renews the lease by its full length exactly when a third of it, or a second, has passed; a lost lease raises without signalling out of order. |
| `GovernedExecutor.Executor.ReleaseAfterTerminal` | src/jobslayer/application/governed_executor.py:352-368 | Releases the lease, closes the reservation and revokes the credential, in that order. |
| `GovernedExecutor.Executor.Finish` | src/jobslayer/application/governed_executor.py:141-163 | From the result on: it is charged, everything is given back, and only then is it answered. |
| `GovernedExecutor.Executor.Collect` | src/jobslayer/application/governed_executor.py:141-163 | When it returns, the lease is released, the reservation is not active, the credential was revoked exactly once, and COMPLETED means all four totals are within limits and equal the result's; a lost lease means it never returns. |
| `StateTransactions.HistoriesOnlyGrow` | src/jobslayer/adapters/sqlite_state.py:75-232 | From any store in the invariant, which the empty one is, over every interleaving each task's and each run's history stays one gap-free chain, only grows at its end, and events keep their first publication time. |
| `StateTransactions.EmptyIsInv` | src/jobslayer/adapters/sqlite_state.py:75-110 | The empty store, with no transaction open, satisfies the invariant. |
| `StateTransactions.RunsFollowTheStages` | src/jobslayer/adapters/sqlite_state.py:75-232 | Over every interleaving from the empty store, the stages stored for each run are a beginning of execution, implementation review, decision application, source integration, workspace cleanup. |
| `StateTransactions.AppendAcceptedIff` | src/jobslayer/adapters/sqlite_state.py:116-133 | A record is staged exactly if the stages with it are such a beginning; then it is the next of its run's chain, with the payload and time given. |
| `StateTransactions.TransitionAcceptedIff` | src/jobslayer/persistence/transactional_journal.py:58-75 | A transition is staged exactly as the next of this task's chain, from the state the task is in. |
| `StateTransactions.CompanionsAcceptedIff` | src/jobslayer/adapters/sqlite_state.py:135-151 | Artifacts and events are staged exactly for this task and run, events only unpublished. |
| `StateTransactions.EntersIff` | src/jobslayer/adapters/sqlite_state.py:75-100 | A transaction opens exactly on the sequences its caller expects, for a run of its own task, with what is stored. |
| `StateTransactions.PublishesOnce` | src/jobslayer/adapters/sqlite_state.py:376-410 | Marking publishes the named event if it was not published before, at that time, and nothing else. |
| `StateTransactions.CommitIsAtomic` | src/jobslayer/adapters/sqlite_state.py:153-232 | A commit makes exactly the staged histories, artifacts and events and changes nothing else. |
| `StateTransactions.CommitsIff` | src/jobslayer/adapters/sqlite_state.py:153-232 | Sequences never conflict: a commit is refused exactly for a truth change without an event or for an id already used. |
| `StateTransactions.CommitEnds` | src/jobslayer/adapters/sqlite_state.py:153-232 | A commit ends its transaction, rolled back on a used id, exactly unless it brings a truth change without an event. |
| `StateTransactions.EveryStepExtends` | src/jobslayer/adapters/sqlite_state.py:153-174 | No step changes truth without new events, all of the one task and run whose histories changed. |
| `StateTransactions.OnlyCommitsAndPublicationsWrite` | src/jobslayer/adapters/sqlite_state.py:102-110 | A refused or abandoned transaction leaves no trace. |
| `StateTransactions.EveryStepKeepsInv` | src/jobslayer/adapters/postgres_state.py:81-114 | What an open transaction read stays what the store holds for its task and run. |
| `StateTransactions.PublicationReadableIff` | src/jobslayer/adapters/sqlite_state.py:376-410 | After marking, the run's events can be read exactly when the time given is not before the event's creation. |
| `StateTransactions.EarlyPublicationHidesTheEvents` | src/jobslayer/adapters/sqlite_state.py:376-410 | One committed event marked published at a given time: its run can be read exactly when that is not before its creation. |
| `StateTransactions.EventsReadIff` | src/jobslayer/adapters/sqlite_state.py:350-360 | Reading a run's events succeeds exactly when each of them decodes. |
| `StateTransactions.FullHistory` | src/jobslayer/adapters/sqlite_state.py:436-453 | Rows with sequences 1..n read in order are the history of length n. |
| `StateTransactions.StateTransaction.Enter` | src/jobslayer/adapters/sqlite_state.py:75-100 | Opens only on verified histories of the expected lengths and of the run's task. |
| `StateTransactions.StateTransaction.AppendRunRecord` | src/jobslayer/adapters/sqlite_state.py:116-133 | Stages the next stage's hash-linked record; which stage that is, and when it is refused, is `StateTransactions.AppendAcceptedIff`. |
| `StateTransactions.StateTransaction.AppendTransitionRecord` | src/jobslayer/persistence/transactional_journal.py:58-75 | Stages a transition only if it continues task, sequence, state and chain. |
| `StateTransactions.StateTransaction.AddArtifact` | src/jobslayer/adapters/sqlite_state.py:135-139 | Stages an artifact of this task and run. |
| `StateTransactions.StateTransaction.Enqueue` | src/jobslayer/adapters/sqlite_state.py:145-151 | Stages an unpublished event of this task and run. |
| `StateTransactions.StateTransaction.Commit` | src/jobslayer/adapters/sqlite_state.py:153-232 | Writes all staged rows or none. |
| `StateTransactions.StateTransaction.InsertStaged` | src/jobslayer/adapters/sqlite_state.py:167-197 | The insert loops stop at the first violated key or unique hash. |
| `StateTransactions.StateTransaction.InsertCompanions` | src/jobslayer/adapters/sqlite_state.py:198-226 | So do those for artifacts and events. |
| `StateTransactions.ControlPlaneStore.MarkOutboxPublished` | src/jobslayer/adapters/sqlite_state.py:376-410 | Publishes an event at most once; a second call changes nothing. |
| `AdvisoryLocks.DeadlockIffCrossCollision` | src/jobslayer/adapters/postgres_state.py:81-93 | For any number of transactions a circle of any length can deadlock if and only if each one's task key equals the next one's run key. |
| `AdvisoryLocks.NeverDeadlocks` | src/jobslayer/adapters/postgres_state.py:81-93 | Without a collision between a run's and a task's key there is no deadlock. |
| `AdvisoryLocks.RunsBeforeTasks` | src/jobslayer/adapters/postgres_state.py:86-88 | Whatever the identifiers, the sorted names are the run's, then the task's. |
| `AdvisoryLocks.LocksExclude` | src/jobslayer/adapters/postgres_state.py:86-93 | No key is ever held by two transactions. |
| `AdvisoryLocks.OpenTransactionsAreApart` | src/jobslayer/adapters/postgres_state.py:86-104 | Two transactions that hold their locks have different runs and different tasks. |
| `AdvisoryLocks.EndedHoldsNothing` | src/jobslayer/adapters/postgres_state.py:86-93 | A transaction that ended holds no key and is waited for by nobody, whatever happens then. |
| `AdvisoryLocks.InjectiveHashSeparates` | src/jobslayer/adapters/postgres_state.py:90-93 | A collision-free hash keeps run keys and task keys apart. |
| `AdvisoryLocks.SomeoneCanLock` | src/jobslayer/adapters/postgres_state.py:86-93 | While one is waiting and none is ready to commit, some transaction can take its next lock. |
| `LockedTransactions.LocksMakeEachHistoryOneChain` | src/jobslayer/adapters/postgres_state.py:81-251 | From the empty store, for any transactions, any hash and any interleaving of locking, reading, staging, committing and giving up: at most one transaction is open per task and per run, what it read is what is stored, and each history is one gap-free chain that only grows. |
| `LockedTransactions.LocksAdmit` | src/jobslayer/adapters/postgres_state.py:86-104 | Whoever holds both locks finds no transaction open on its task or on its run. |
| `LockedTransactions.NobodyIsShutOut` | src/jobslayer/adapters/postgres_state.py:81-114 | Whatever locks and transactions the others hold, one that has not begun can still be opened, once they end, if and only if its run is of its task. |
| `LockedTransactions.StepRefines` | src/jobslayer/adapters/postgres_state.py:81-114 | Every step of locks and tables together keeps the joint invariant and is a step of the store that admits one transaction per task and run. |
| `DurableLaunch.LaunchedAtMostOnce` | src/jobslayer/adapters/task_manager_codex_worker.py:39-198 | Over any restarts and any workers at most one agent process starts, with the prompt and envelope first written; once there is a terminal result it never changes. |
| `DurableLaunch.WedgedForEver` | src/jobslayer/adapters/task_manager_codex_worker.py:39-56 | If the worker that took the lock dies before its claim, nothing is ever claimed, launched or ended. |
| `DurableLaunch.WorkerThatDiesWedges` | src/jobslayer/adapters/task_manager_codex_worker.py:39-56 | A prepared key whose first worker dies between its lock and its claim is wedged for ever. |
| `DurableLaunch.ClaimableIffNotWedged` | src/jobslayer/adapters/task_manager_codex.py:473-504 | A prepared, unclaimed key can still be claimed if and only if it is not wedged. |
| `DurableLaunch.RunnableIffNotWedged` | src/jobslayer/adapters/task_manager_codex_worker.py:113-198 | It can still run its agent once, with the prompt and envelope on file, to either end, if and only if it is not wedged. |
| `DurableLaunch.TerminalTellsTheEnd` | src/jobslayer/adapters/task_manager_codex_worker.py:113-198 | Over all histories the terminal file says succeeded exactly if the launched agent exited with zero, in time and without a protocol failure, and failed exactly if it ended otherwise or its worker failed after the claim. |
| `DurableLaunch.LaunchedIffStarted` | src/jobslayer/adapters/task_manager_codex_worker.py:113-198 | Over all histories an agent ran exactly if a worker got from its claim to the launch. |
| `DurableLaunch.RunIsLater` | src/jobslayer/adapters/task_manager_codex.py:114-217 | Files keep their first content; workers and launches only accumulate. |
| `DurableLaunch.DurableTaskManagerCodexExecutor.StartOrLocate` | src/jobslayer/adapters/task_manager_codex.py:114-217 | With crashes at any write and workers in between: a successful call returns the reference first persisted, with the launch claimed; it refuses exactly a reused key, drifted inputs or a prompt that is too long, spawns one worker if it finds no claim and none if it does; on a wedged key it never succeeds. |
| `DurableLaunch.DurableTaskManagerCodexExecutor.Persist` | src/jobslayer/adapters/task_manager_codex.py:132-214 | The four files, each written once or compared with what is there. |
| `DurableLaunch.DurableTaskManagerCodexExecutor.EnsureWorker` | src/jobslayer/adapters/task_manager_codex.py:473-504 | Spawns exactly one worker, unless there is a claim or an end, and reports a claim only if there is one. |
| `DurableLaunch.DurableTaskManagerCodexExecutor.Workers` | src/jobslayer/adapters/task_manager_codex_worker.py:113-198 | Workers leave the API's files alone and keep the launch invariant. |
| `QuickAgentWindow.AppendRefines` | src/jobslayer/adapters/codex_quick_agent.py:948-977 | Dropping the oldest event and shifting the index map is what an unbounded log forgets on eviction. |
| `QuickAgentWindow.WindowIsSound` | src/jobslayer/adapters/codex_quick_agent.py:948-977 | Indices are in range and injective, sequence numbers consecutive, at most 1000 events of at most 24,000 characters. |
| `QuickAgentWindow.LogStaysSound` | src/jobslayer/adapters/codex_quick_agent.py:752-809 | After every operation each remembered position is at an event created for its item. |
| `QuickAgentWindow.ShowsAllIffItFits` | src/jobslayer/adapters/codex_quick_agent.py:752-778 | A stream shows exactly what was sent if and only if all of it fits the bound. |
| `QuickAgentWindow.ReaderSeesTheDeltas` | src/jobslayer/adapters/codex_quick_agent.py:752-977 | While an item's event is still shown, the window holds at its index exactly its deltas in order, whatever was interleaved; complete if and only if they fit. |
| `QuickAgentWindow.OneWindowPerLog` | src/jobslayer/adapters/codex_quick_agent.py:948-977 | Events, indices and next sequence are determined by the log. |
| `QuickAgentWindow.ItemsAreShown` | src/jobslayer/adapters/codex_quick_agent.py:752-809 | What a delta or a new status does to an item's event, created or not: kind, status, text, place; no other event changes. |
| `QuickAgentWindow.TurnsStartAfresh` | src/jobslayer/adapters/codex_quick_agent.py:216-262 | A turn begins with the prompt and no remembered item, a session with nothing. |
| `QuickAgentWindow.Bounded` | src/jobslayer/adapters/codex_quick_agent.py:1021-1025 | Text within the bound is kept, longer text is cut and marked, and never exceeds it. |
| `QuickAgentWindow.CodexQuickAgent.AppendEvent` | src/jobslayer/adapters/codex_quick_agent.py:948-977 | Appends to the window as the log does. |
| `QuickAgentWindow.CodexQuickAgent.AppendStreamDelta` | src/jobslayer/adapters/codex_quick_agent.py:752-778 | Creates or extends the item's event, as on the log. |
| `QuickAgentWindow.CodexQuickAgent.SetStreamContent` | src/jobslayer/adapters/codex_quick_agent.py:780-809 | Creates or rewrites the item's event, as on the log. |
| `QuickAgentWindow.CodexQuickAgent.BeginTurn` | src/jobslayer/adapters/codex_quick_agent.py:216-262 | Refused while running; otherwise running without a turn id, streamed items, requests to stop or an error. |
| `QuickAgentWindow.CodexQuickAgent.TurnStarted` | src/jobslayer/adapters/codex_quick_agent.py:657-664 | A turn id is taken only while running. |
| `QuickAgentWindow.CodexQuickAgent.CompleteTurn` | src/jobslayer/adapters/codex_quick_agent.py:811-844 | Timeout outranks cancellation outranks the provider's status; state, last error and the event of each case, word for word. |
| `QuickAgentWindow.CodexQuickAgent.FailRunning` | src/jobslayer/adapters/codex_quick_agent.py:857-946 | A running turn fails with this error; without one nothing changes. |
| `QuickAgentWindow.CodexQuickAgent.RecordProtocolError` | src/jobslayer/adapters/codex_quick_agent.py:857-871 | A protocol error is always the last error, and fails a running turn. |
| `QuickAgentWindow.CodexQuickAgent.ProcessEnded` | src/jobslayer/adapters/codex_quick_agent.py:921-941 | The end of the current provider process fails a running turn, unless the agent was closed, and changes nothing else of the session. |
| `QuickAgentWindow.CodexQuickAgent.Cancel` | src/jobslayer/adapters/codex_quick_agent.py:315-336 | Only a running turn with a known id is asked to stop. |
| `QuickAgentWindow.CodexQuickAgent.RequestTimeout` | src/jobslayer/adapters/codex_quick_agent.py:894-919 | The watchdog leaves ended turns and other turns alone. |
| `QuickAgentWindow.CodexQuickAgent.NewSession` | src/jobslayer/adapters/codex_quick_agent.py:338-360 | Refused while running; otherwise everything starts again at sequence one. |
| `RunEvents.LogIsSealedOnce` | src/jobslayer/adapters/codex_cli.py:268-573 | In every interleaving the log verifies, the monitor never blocks on its own lock, and a result means exactly one terminal event, last, of its status, counted with all others. |
| `RunEvents.SealedForEver` | src/jobslayer/agents/events.py:43-63 | After the terminal event nothing is appended and the result never changes. |
| `RunEvents.AppendedIff` | src/jobslayer/agents/events.py:43-63 | An event is appended, as the next of its run, exactly while the last is none of the four that end it. |
| `RunEvents.EndsAsItWent` | src/jobslayer/adapters/codex_cli.py:505-548 | After any history: which status, exit code, count and terminal event are published, for each combination of cancellation, timeout, errors and exit code. |
| `RunEvents.CancelledRunsEndCancelled` | src/jobslayer/adapters/codex_cli.py:268-292 | A cancellation of a live process is logged, and whatever happens then no other status is published. |
| `RunEvents.FlagsAreRaised` | src/jobslayer/adapters/codex_cli.py:402-481 | Error flags are never lowered, the exit code is the first one, a timeout needs a live process. |
| `RunEvents.LoggedNames` | src/jobslayer/adapters/codex_cli.py:402-481 | The names that thread, turn and error lines, and lines that are not JSON, are logged under. |
| `RunEvents.LoggedItems` | src/jobslayer/adapters/codex_cli.py:402-481 | Those of commands and file changes. |
| `RunEvents.LoggedPlans` | src/jobslayer/adapters/codex_cli.py:402-481 | Those of messages and plans. |
| `RunEvents.OtherLinesKeepTheirSource` | src/jobslayer/adapters/codex_cli.py:402-481 | Every other line is logged under its own type, prefixed. |
| `RunEvents.ReaderNeverEndsTheLog` | src/jobslayer/adapters/codex_cli.py:402-481 | Nothing the process prints is logged under a terminal event type. |
| `RunEvents.ResultIffClockForward` | src/jobslayer/adapters/codex_cli.py:505-548 | In every interleaving, once the monitor sealed the log there is ever a result if and only if the finish time it then reads is not before the start time; the log is closed either way. |
| `RunEvents.ClockThatWentBack` | src/jobslayer/adapters/codex_cli.py:505-548 | A run whose clock is one tick back at its end has no result, whatever happens later. |
| `RunEvents.RunEventBuffer.Append` | src/jobslayer/agents/events.py:43-63 | Refuses after a terminal event, else appends the next sealed event. |
| `RunEvents.RunEventBuffer.Verify` | src/jobslayer/agents/events.py:80-91 | The loop accepts exactly verified logs. |
| `RunEvents.CodexRun.Cancel` | src/jobslayer/adapters/codex_cli.py:268-292 | Requests cancellation only of a live process and never touches a closed log. |
| `RunEvents.CodexRun.AppendEventSafely` | src/jobslayer/adapters/codex_cli.py:563-573 | An event after the terminal one only raises a flag. |
| `RunEvents.CodexRun.PublishResult` | src/jobslayer/adapters/codex_cli.py:507-548 | The monitor's critical section, with the reader appending between its statements. |
| `RunEvents.CodexRun.BuildResult` | src/jobslayer/adapters/codex_cli.py:520-548 | The event count is the length of the sealed log. |
| `CollectLoop.CollectAgent` | src/jobslayer/application/controller.py:462-484 | At most ceil((T+g)/p) + ceil(g/p) + 1 collects and one cancel; with exact sleeps and instant calls it ends before T + 2g + 2p; it gives up only after both deadlines. |
| `PlanningGraph.EveryDiscussionIsAcyclic` | src/jobslayer/adapters/local_planning_agent.py:20-128 | Over every sequence of messages ids stay unique, edges closed, and no walk returns to its start. |
| `PlanningGraph.EveryDraftIsAcyclic` | src/jobslayer/adapters/local_planning_agent.py:20-128 | From the empty draft on, over every sequence of messages, ids stay unique, edges closed, and no walk returns to its start. |
| `PlanningGraph.Validate` | src/jobslayer/orchestration/__init__.py:102-138 | The depth-first search accepts exactly the graphs with unique ids, closed edges and no cycle. |
| `PlanningGraph.Visit` | src/jobslayer/orchestration/__init__.py:123-135 | Refusal exhibits a cycle; acceptance leaves the nodes in finish order. |
| `PlanningGraph.SoundIsAcyclic` | src/jobslayer/orchestration/__init__.py:102-138 | A graph whose edges all go up in some rank has no cyclic walk. |
| `PlanningGraph.ProposalIsSound` | src/jobslayer/adapters/local_planning_agent.py:34-128 | Every proposal made from a sound graph is sound. |
| `PlanningGraph.ProposalDoes` | src/jobslayer/adapters/local_planning_agent.py:34-128 | For every draft and message: a deletion removes exactly the selected node and its edges; a change keeps its id, kind and other fields and every other node and edge; an addition keeps everything and hangs one new node off the selected one, or the last without a selection, by the relation its words ask for. |
| `PlanningGraph.OtherProposals` | src/jobslayer/adapters/local_planning_agent.py:20-60 | A selection that is not in the draft is refused; an empty draft becomes the five phases in line, each quoting the description. |
| `PlanningGraph.TitleIs` | src/jobslayer/adapters/local_planning_agent.py:221-224 | A title is the first 72 characters of the message without the punctuation and blanks around it, or a placeholder. |
| `PlanningGraph.ContainsIff` | src/jobslayer/adapters/local_planning_agent.py:34-60 | The word search finds exactly substrings. |
| `PlanningGraph.Propose` | src/jobslayer/adapters/local_planning_agent.py:20-128 | The branches of propose, whose result always passes the validator. |
| `PlanningGraph.SearchName` | src/jobslayer/adapters/local_planning_agent.py:236-249 | The search for a fresh name ends, at the first free index. |
| `PlanningGraph.FreshIndexIsFree` | src/jobslayer/adapters/local_planning_agent.py:236-249 | By the pigeonhole principle the first free index is at most the start plus the number of known names. |
| `PlanningGraph.FreshNodeId` | src/jobslayer/adapters/local_planning_agent.py:236-241 | With n nodes the fresh index is at most 2n + 1. |
| `PlanningGraph.DecimalIsInjective` | src/jobslayer/adapters/local_planning_agent.py:236-249 | Different numbers print differently. |
| `PlanningGraph.InitialGraphFitsIff` | src/jobslayer/adapters/local_planning_agent.py:131-218 | The initial graph can be built exactly for descriptions of at most 7,979 characters. |
| `RevisionJournals.SameLastHashSameHistory` | src/jobslayer/adapters/local_task_manager_runs.py:124-155 | Two verified histories with the same last hash are equal. |
| `RevisionJournals.RunHistoriesVerify` | src/jobslayer/adapters/local_task_manager_runs.py:44-155 | Any run history built by appends verifies and extends what was there. |
| `RevisionJournals.RunRevisionsFollow` | src/jobslayer/adapters/local_task_manager_runs.py:62-104 | Between any two revisions the binding and graph are the same and transition and interaction lists only grew at their ends. |
| `RevisionJournals.RunAppendAcceptedIff` | src/jobslayer/adapters/local_task_manager_runs.py:62-104 | A run revision is published exactly if it is the next and continues the last, as the next link of the chain. |
| `RevisionJournals.RunRevisionsContinue` | src/jobslayer/adapters/local_task_manager_runs.py:62-104 | Any later revision of a run continues any earlier one, field by field. |
| `RevisionJournals.VerifiedMeans` | src/jobslayer/adapters/local_task_manager_runs.py:124-155 | What the verifier accepts, record by record: number, link and hash. |
| `RevisionJournals.CoordinatorHistoriesVerify` | src/jobslayer/adapters/local_task_manager_coordinator.py:46-127 | Any coordinator history built by appends verifies and extends what was there. |
| `RevisionJournals.CoordinatorMovesForward` | src/jobslayer/adapters/local_task_manager_coordinator.py:61-71 | Identity is fixed, time and run revision never go back. |
| `RevisionJournals.IntentsPassThroughNone` | src/jobslayer/adapters/local_task_manager_coordinator.py:72-79 | An unresolved intent stays, at one run revision, until a revision without any. |
| `RevisionJournals.CoordinatorAppendAcceptedIff` | src/jobslayer/adapters/local_task_manager_coordinator.py:46-94 | A coordinator revision is published exactly if it is the next of the same run, not back in time or run revision, and keeps an unresolved intent. |
| `RevisionJournals.PlanHistoriesVerify` | src/jobslayer/adapters/local_orchestration.py:42-100 | Any plan history built by appends verifies and extends what was there. |
| `RevisionJournals.PlanAppendAcceptedIff` | src/jobslayer/adapters/local_orchestration.py:185-232 | A plan revision is published exactly as the next of the same plan. |
| `RevisionJournals.Verify` | src/jobslayer/adapters/local_task_manager_runs.py:124-155 | The verifier's loop accepts exactly verified histories. |
| `RevisionJournals.LocalTaskManagerRunStore.Append` | src/jobslayer/adapters/local_task_manager_runs.py:220-269 | Publishes the next record or leaves the history as it was. |
| `RevisionJournals.LocalTaskManagerRunStore.Follows` | src/jobslayer/adapters/local_task_manager_runs.py:62-104 | The loop over nodes accepts exactly the snapshots that may follow. |
| `RevisionJournals.LocalTaskManagerCoordinatorStore.Append` | src/jobslayer/adapters/local_task_manager_coordinator.py:46-94 | Publishes the next record unless identity, time, run revision or intent forbid it. |
| `RevisionJournals.LocalTaskPlanStore.Append` | src/jobslayer/adapters/local_orchestration.py:185-232 | Publishes the next record of the same plan. |
| `LongRuns.ProjectionIsTheLastEvent` | src/jobslayer/adapters/sqlite_long_runs.py:82-214 | After any calls every run reads back: its history verifies, its handle is its last event's, its version is its number of events. |
| `LongRuns.AcceptedOnlyAtTheNextVersion` | src/jobslayer/adapters/sqlite_long_runs.py:114-157 | An event is accepted only at the next version, with the same identity and chain, and after a terminal status only to authorize a retry. |
| `LongRuns.AdmittedIff` | src/jobslayer/adapters/sqlite_long_runs.py:82-112 | A run is admitted exactly once, by an honest first event in the admitted state. |
| `LongRuns.AcceptedIff` | src/jobslayer/adapters/sqlite_long_runs.py:114-182 | An event is accepted exactly as the next link of its run, of the same identity, from a state that is not final or for a retry, with the checkpoint its kind asks for; and what is stored then. |
| `LongRuns.CheckpointsReadableIff` | src/jobslayer/adapters/sqlite_long_runs.py:216-256 | While the checkpoints can be read, they still can after an accepted one exactly when its count is the next. |
| `LongRuns.CheckpointsReadableIffInitialSegment` | src/jobslayer/adapters/sqlite_long_runs.py:114-256 | Over all histories of calls a run's checkpoints can be read if and only if the counts accepted for it are 1..n, in any order. |
| `LongRuns.FirstCheckpointMayLeaveAGap` | src/jobslayer/adapters/sqlite_long_runs.py:114-256 | A first checkpoint with any count from one on is accepted, and can be read back if and only if the count is one. |
| `LongRuns.SqliteLongRunStore.CreateRun` | src/jobslayer/adapters/sqlite_long_runs.py:82-112 | Admits a run once, at version one. |
| `LongRuns.SqliteLongRunStore.AppendEvent` | src/jobslayer/adapters/sqlite_long_runs.py:114-182 | Updates the projection, appends the event and its checkpoint, all or none. |
| `LongRuns.SqliteLongRunStore.History` | src/jobslayer/adapters/sqlite_long_runs.py:198-214 | The loop returns a history exactly if it verifies. |
| `LongRuns.SqliteLongRunStore.Get` | src/jobslayer/adapters/sqlite_long_runs.py:184-196 | Returns the projection, refusing one that is not the last event's handle. |

## Left out

What a member states less than the source does:

- LocalRun.Select: the artifact registry is a grow-only set of manifests whose stored content is never altered; the integrity checks on reading it then always pass.
- RunTheorems.LedgerAndJournalKeepStep: the states are those the modelled calls, crashes and recoveries reach from a fresh run directory; edits from outside and two coordinators working on one run directory at the same time are not among them.
- RunTheorems.TargetIsUntouchedOrSanctioned: nobody but the coordinator moves the refs between its Git commands; `GitIntegration` states what the integrator does from an arbitrary repository.
- RunRecovery.AssessSays: decision and authority identifiers are assumed not to start with `artifact-`, the prefix of registry identifiers, and a run directory serves one task and one run, so identifiers binding records to both are not compared again.
- GitIntegration.LocalGitIntegrator.Integrate: a tree is a map from path to content and a patch the changed entries of one; staging and committing are one step, and nothing is claimed of a stop between `git add` and `git commit`, where the source compares patch text.
- GitIntegration.PatchRoundTrip: the text of a Git patch, renames and file modes are not part of this model.
- WorkerLeases.SqliteWorkerLeaseStore.RecoverOrphans: each store call is one transaction; SQLite's own locking and its busy timeout are not part of this model.
- WorkerLeases.SteadyClockKeepsRowsLoadable: assumes that clocks do not step back, which the code does not check; the exact condition is in the two members beside it.
- GovernedExecutor.Executor.Collect: the wrapped agent, the credential broker and the interference of other clients are inputs; the only claim on the agent is that it reports a log and, in the end, a result.
- StateTransactions.StateTransaction.Commit: reuse of a transaction after a failed commit is not modelled, and the PostgreSQL and SQLite stores share one model of their tables.
- AdvisoryLocks.SomeoneCanLock: waiting ends at once when a lock is free, and a lock timeout is the end of its transaction; fairness between waiters is not claimed.
- DurableLaunch.DurableTaskManagerCodexExecutor.StartOrLocate: one API process at a time uses a start key, as its lock is local to the process; the check of the stored evidence behind a reference is assumed to pass.
- QuickAgentWindow.CodexQuickAgent.CompleteTurn: notices that name an older turn, models, token usage and the provider process are not modelled.
- RunEvents.LogIsSealedOnce: each critical section of the three threads is a step; a printed line is a raw line with its source and item kind, and the payload of its event is not modelled.
- CollectLoop.CollectAgent: how long a sleep or a call takes is an input, and the time bound is claimed for exact sleeps and instantaneous calls only.
- PlanningGraph.Propose: node fields that `propose` copies without looking at them are one opaque value, and the validator's recursion is unbounded; in Python a chain of about a thousand nodes exceeds the recursion limit.
- IsoTimestamps.QueryIsTimeOrderIffOneOffset: offsets are whole minutes of less than a day; Python also writes offsets with seconds.
- RunCalls.DecisionIsOnFile: evidence identifiers on cards, decisions and transitions are sets; the source compares a decision's evidence with its card's as ordered tuples, so one that lists it in another order is refused there and accepted here.
- RunRecovery.DecisionCites: names, registry numbers and integration identifiers are three constructors, so no decision, authority or report identifier equals a registry identifier; where one did, the recovery of its decision could fail.
- RevisionJournals.Verify: reading and rewriting a journal file is one step, and its records are values.
- LongRuns.ProjectionIsTheLastEvent: handles are assumed valid; usage, limits, leases and evidence inside them are one opaque value, so decoding a stored handle or event that was built from an unvalidated copy, and would be refused, is not modelled.

Throughout:

- SHA-256 is an injective constructor and JSON encoding is the identity.
- Authorization is a flag: HMAC signatures, roles and their registries decide it elsewhere.
- Clocks, identifiers drawn at random, sleeps, agent behaviour and check results are parameters.
- Appending to a ledger, journal or registry is one durable step that happens entirely or not at all; only the decision card and the launch files have a step between creation and content.
- `observe`, `collect_verification_evidence` and the summary that `inspect` returns: read-only reports.
- Workspace creation is reduced to whether the worktree and branch are free and the paths allowed.
- The command line, web servers, React files, dashboards, bootstrap and start scripts: wiring and I/O.
- Subprocess handling, sandbox arguments, prompts and the normalisers of Codex output.
