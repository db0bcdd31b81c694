# Local First: proofs of its effect protocols and of the checks that guard them

Local First drives coding work across a ledger, a Git repository, a task board
and paid models. Any step may crash, be replayed or race another controller, so
its code is mostly protocols that write down what they are about to do, do it,
look, and write down what came of it. This project models those protocols and
the validators in front of them, and proves what they keep.

Two forms are used. What several processes do to one another is a step machine
on values: a state, one event for each external command or transaction, a crash
possible between any two, and theorems about every state a run can reach
(`IntegrationHead`, `PaidCalls`, `CommentDelivery`, `CardProjection`). What one
controller does by changing things step by step is a class with methods: a run
is given the replies its commands will get, or the number of durable steps it
lives, and a history method strings any number of such runs together
(`RepairInsertion`, `PlannerJournal`, `ImplementationStage`, `ReviewStage`,
`ReleaseActivation`, `Corrections`, `Daemon`, the three searches and the plan
validator).

| files | what they model |
|---|---|
| `DependencyGraph`, `CycleSearch`, `PlanValidation` | the three depth-first cycle checks, what an accepted plan is good for, and for which lists of ids |
| `CommitGraph`, `IntegrationHead`, `IntegrationSafety`, `IntegrationReplay`, `IntegrationCommits`, `IntegrationOutcome`, `IntegrationInspection`, `GitAdapter` | one integration head per tranche, moved by compare-and-swap, and the commit that is made and installed once |
| `RepairGraph`, `RepairInsertion` | putting a repair task between a finished task and its children |
| `PaidCalls`, `FurtherCalls`, `PlannerJournal`, `ModelStages`, `ImplementationStage`, `ReviewStage` | calls that are placed at most once, and when another is still possible |
| `Options`, `Decimals`, `Json`, `JsonSyntax`, `JsonText`, `ApprovalDocument` | canonical approval documents, as bytes and as values |
| `Snapshot`, `ActivationSnapshot`, `ContinuationSnapshot`, `ContinuationExample`, `ReleaseActivation` | releasing a task: the exact change that is accepted, and the activation around it |
| `Lease`, `CommentDelivery`, `CardProjection` | deliveries under leases, in real time |
| `Corrections`, `CorrectionsExample`, `CardFraming`, `ExecutionHandoff`, `Daemon` | correction names and authority, contracts in card bodies, the daemon's counters and waits |

Some laws hold only under a condition the code does not enforce. Each is proved
as an equivalence, or with a run that breaks it:

- A plan whose active ticket ids are neither all distinct nor all the same can pass
  with a cycle, and only such a plan can (`PlanIdsDecide`, `TrancheIdsDecide`).
- A reservation refused for good, or whose outcome was declared unknown, can still
  see a call, exactly when a process is already past its check
  (`ClosedReservationIff`, and `FurtherCallIff` for every state). Two runs do it:
  a process authorized before the refusal (`StaleAuthorizationCallsAgain`), and a
  claimant overtaken before its first call (`DisownedClaimStillCalls`). When
  requests do not overlap it does not happen (`CallsAreAuthorizedInTurn`).
- A string with a surrogate pair held as two code points prints like the one
  code point and does not come back (`LoadsUndoesDumps`, `DumpsLosesPairs`).
- A history under the name `task_events` is read, and the validator then refuses
  the snapshot whatever else it holds (`OlderSpellingIsRefused`).
- The handoff validator does not compare the claim it sees with the claim seen
  while running, so start second and payload may differ (`HistoryGrowsIffSameClaim`,
  `ClaimsMayDisagree`).
- The comment policy accepts leases under which two copies can appear
  (`NeverTwoIffLeaseLongEnough`, and with living workers only
  `NeverTwoWhileWorkersLive`); a delivery that outlives its worker is bounded by
  nothing, so no lease excludes them all (`NoLeaseOutlastsEveryOrphan`). The card
  policy has no such gap, because creating under one key gives one task.
- Where others have been in a worktree, controllers can commit in it again exactly
  when its files differ from HEAD, or something else is staged while a controller
  is between its staging and its commit (`FurtherCommitIff`).
- The checks before the commit leave out new files that were not approved, and the
  commit does not; so a worktree that holds one in an authorized path is committed
  and then refused for good (`CommittedAndRefused`, `IntegratesIffReady`).
- From a triage card the controller needs more of a contract than the worker does:
  three ticks anywhere in it cut it short (`ControllerReadsNative`,
  `ReadersDisagree`).
- A document whose version is `true` passes for version 1, as in Python the two
  are equal; so every accepted document has a twin, equal in Python, with other
  accepted bytes (`VersionMayBeTrue`, `BothVersionsOccur`).
- A recheck can be recorded while a plan is only planned; it grants authority
  exactly when every plan is materialized (`RecordRecheck`, `RecheckedTooEarly`).

Hashes are modelled by what they are taken of, so equal hashes mean equal things;
signatures, processes, clocks and what models, Git and Hermes answer are
parameters. `dafny verify dfyconfig.toml` checks everything.

## Model

| member | source | states |
|---|---|---|
| CycleSearch.TrancheHasCycle | local_first_orchestrator/decomposition.py:39-44 | the search of one tranche terminates and answers true exactly when the dependency map has a cycle, listed names or not |
| CycleSearch.PlanHasCycle | local_first_orchestrator/decomposition.py:76-83 | the search of the active tranche, which skips unlisted names, answers true exactly when there is a cycle |
| CycleSearch.CorrectionHasCycle | local_first_orchestrator/corrections.py:219-229 | the search that marks a node visited on exit answers true exactly when there is a cycle |
| CycleSearch.CorrectionRefuses | local_first_orchestrator/corrections.py:214-229 | as far as its dependencies go, a correction is refused exactly for one outside its plan or for a cycle |
| CycleSearch.SearchesAgree | local_first_orchestrator/decomposition.py:39-83 | on every dependency map the first two searches give one answer, and the correction check differs from it only by refusing unlisted names |
| CycleSearch.TrancheSearch.Dfs | local_first_orchestrator/decomposition.py:40-43 | one call with shared mutable sets: what is finished stays finished, a cycle through the stack is found, and the call terminates |
| CycleSearch.CorrectionSearch.Cycle | local_first_orchestrator/corrections.py:221-227 | the same for marking on exit, where a node leaves the stack before it counts as visited |
| CycleSearch.UnlistedNamesCloseNoCycle | local_first_orchestrator/decomposition.py:79-79 | a name that is no key of the map lies on no cycle, so skipping it is harmless |
| DependencyGraph.AcyclicIffOrdered | local_first_orchestrator/decomposition.py:76-86 | a finite graph has no cycle exactly when it has an order in which everything follows what it depends on |
| PlanValidation.PlanValidator.Validate | local_first_orchestrator/decomposition.py:46-86 | a plan passes exactly when every check holds, with the cycle reason given exactly for a cyclic active tranche |
| PlanValidation.PlanValidator.ValidateTranche | local_first_orchestrator/decomposition.py:28-45 | the same for one tranche against its coarse outline |
| PlanValidation.AcceptedPlanIsSchedulable | local_first_orchestrator/decomposition.py:64-86 | an accepted plan whose active ticket ids are all distinct or all the same declares no cycle and no dependency outside the tranche |
| PlanValidation.AcceptedTrancheIsSchedulable | local_first_orchestrator/decomposition.py:28-45 | the same for an accepted tranche |
| PlanValidation.SchedulableHasOrder | local_first_orchestrator/decomposition.py:67-83 | such tickets have a topological order |
| PlanValidation.NeverStuck | local_first_orchestrator/decomposition.py:67-83 | while some are not done, one of them has all its dependencies done |
| PlanValidation.AcceptedPlanCovers | local_first_orchestrator/decomposition.py:50-63 | every feature criterion is covered by existing tickets that declare it, in tranches that declare it |
| PlanValidation.AcceptedTicketsFit | local_first_orchestrator/decomposition.py:68-86 | every active ticket of an accepted plan is sound, names its files, keeps within the budget, and no open choice or scope change is left |
| PlanValidation.MentionsIff | local_first_orchestrator/decomposition.py:84-84 | a text mentions a word exactly when the word stands somewhere in it |
| PlanValidation.PlanIdsDecide | local_first_orchestrator/decomposition.py:64-83 | every accepted plan whose active tranche has these ids can be scheduled exactly when the ids are all distinct, or all the same, or too many to be accepted, or the validator allows no file |
| PlanValidation.TrancheIdsDecide | local_first_orchestrator/decomposition.py:28-45 | every accepted tranche with these ids can be scheduled exactly when they are all distinct or all the same, or the validator allows no file |
| PlanValidation.HiddenCycleInPlan | local_first_orchestrator/decomposition.py:76-83 | for every other list of ids, and any validator that allows a file, there is an accepted plan with a cycle that a repeated id hides |
| GitAdapter.GitWorktreeAdapter.ResolveExecutionBase | local_first_orchestrator/git_adapter.py:62-84 | whatever others do meanwhile, it returns a value the head had, and creates it only where there was none |
| GitAdapter.GitWorktreeAdapter.ExistingExecutionBase | local_first_orchestrator/git_adapter.py:86-97 | reads the head or refuses, and changes nothing |
| GitAdapter.GitWorktreeAdapter.AdvanceIntegrationHead | local_first_orchestrator/git_adapter.py:99-108 | moves the head only from the expected value; the head then moves forward exactly when the accepted commit descends from it |
| IntegrationSafety.HeadsNeverComeBack | local_first_orchestrator/git_adapter.py:62-108 | over every interleaving and crash, the values of a head are strict ancestors one of the next, so none returns |
| IntegrationSafety.HeadMovesToDescendants | local_first_orchestrator/controller.py:3378-3394 | whatever happens next, a head stays or moves to a strict descendant |
| IntegrationSafety.IntegrationInstallsTheCandidate | local_first_orchestrator/controller.py:3326-3394 | integration installs only a commit on the frozen base with the accepted diff, and so the accepted tree, and the accepted paths and message |
| IntegrationSafety.ReplayReturnsTheSameCommit | local_first_orchestrator/controller.py:3326-3404 | every controller that returns is on record, and all that return for a ticket return one commit |
| IntegrationReplay.AtMostOneCommit | local_first_orchestrator/controller.py:3332-3372 | any number of controllers, crashes and replays make at most one commit in a worktree nobody else changes |
| IntegrationInspection.CheckedCommitIsInspected | local_first_orchestrator/controller.py:3334-3372 | over every interleaving: what a controller commits, as long as nobody changed the worktree or committed in it since it looked, sits on the base, is the files it looked at, changes only authorized paths, and what is accepted of it is the accepted diff |
| IntegrationOutcome.IntegratesIffReady | local_first_orchestrator/controller.py:3326-3404 | a worktree at its base is integrated exactly when it is ready and else refused with nothing installed; if what is looked at before the commit does not pass, nothing at all is changed |
| IntegrationOutcome.ReplaysIffCommitted | local_first_orchestrator/controller.py:3358-3404 | once HEAD has left the base it is returned exactly when it is the accepted commit in a clean worktree under an intent, and else nothing is changed |
| IntegrationOutcome.CommittedAndRefused | local_first_orchestrator/controller.py:3334-3384 | a worktree that passes while it holds a new file that is authorized but not approved is committed once, and then refused by every run |
| IntegrationOutcome.ForwardsIffAccepted | local_first_orchestrator/controller.py:3997-4008 | the fast-forward path moves the head to the named commit, or finds it there, exactly when the commit is linear over the base and holds the accepted diff in authorized paths; else nothing changes |
| IntegrationOutcome.ResolvesTheHead | local_first_orchestrator/git_adapter.py:62-84 | left to itself, resolving gives the head there is, or makes it of the planning base |
| IntegrationOutcome.OvertakenTakesTheHead | local_first_orchestrator/git_adapter.py:77-84 | a controller overtaken between looking for the head and creating it takes the head the other one made |
| IntegrationOutcome.OvertakenIntegrationIsRefused | local_first_orchestrator/controller.py:3353-3401 | whatever others changed between two commands that integration looks at again - the head, the worktree, the intent - stops it where it finds it, with nothing changed |
| IntegrationOutcome.DirectCommits | local_first_orchestrator/git_adapter.py:138-146 | the direct path commits whatever is in the worktree, and stops only if that is what HEAD has |
| IntegrationOutcome.DirectAdvances | local_first_orchestrator/controller.py:4200-4200 | and then moves the head from the base to its commit, or fails if it is elsewhere |
| IntegrationCommits.FurtherCommitIff | local_first_orchestrator/controller.py:3332-3372 | whatever others did before, a further commit in a worktree now left alone is possible exactly when its files differ from HEAD, or something else is staged and a controller is between its staging and its commit |
| IntegrationCommits.LaterIntegrationsNeverCommit | local_first_orchestrator/controller.py:3326-3404 | once HEAD has left the base and no controller that saw it there is on its way, integration commits no more, whatever others do to the worktree |
| IntegrationReplay.EveryCrashPointRecovers | local_first_orchestrator/controller.py:3326-3404 | started any number of times, each cut off after any number of commands, and then once more, integration ends with one and the same commit installed |
| RepairGraph.ReachabilityIsKept | local_first_orchestrator/hermes_board.py:522-543 | while every moved child hangs below the repair task and that below the predecessor, old tasks reach one another as before |
| RepairGraph.StaysAcyclic | local_first_orchestrator/hermes_board.py:522-543 | no graph met on the way has a cycle if the old one had none |
| RepairInsertion.EveryMomentIsSafe | local_first_orchestrator/hermes_board.py:482-549 | at every moment each child has one of the two as a parent and is parked once moved, there is no new cycle, and reachability under a done predecessor is unchanged |
| RepairInsertion.HermesBoard.MoveChild | local_first_orchestrator/hermes_board.py:522-543 | one child, with every command applied, ignored or fatal: parked, linked, unlinked, and safe wherever it stops |
| RepairInsertion.HermesBoard.CreateRepairTask | local_first_orchestrator/hermes_board.py:461-555 | success means the rewritten graph and a repair task in a status it may have; undisturbed, with a workspace it ends ready and without one it stays blocked; a list that lacks a child already moved or names the predecessor is refused, a child that has started is left alone, and a predecessor that is not finished stops it before anything is done |
| RepairInsertion.RepairActivation.ActivateGeneratedWork | local_first_orchestrator/cli.py:299-392 | the intent freezes the children first, and the run uses that list |
| RepairInsertion.RepairActivation.RunUntilDone | local_first_orchestrator/cli.py:309-363 | any number of runs cut off anywhere and one that is not: always the same final graph, and a repair task that is ready if it has a workspace |
| PaidCalls.CallsNeverOverlap | local_first_orchestrator/paid_model.py:82-159 | over every interleaving and crash, each call but the newest was refused, and calls are at most one more than refusals |
| PaidCalls.NothingFollowsDoubt | local_first_orchestrator/paid_model.py:104-124 | no call follows one whose outcome is not a refusal |
| PaidCalls.OneProposal | local_first_orchestrator/paid_model.py:92-159 | all returns of one reservation carry the one proposal the provider gave |
| PaidCalls.AnsweredRequestReturns | local_first_orchestrator/paid_model.py:112-159 | a first request that is answered stores and returns the answer |
| PaidCalls.CompletedRequestReplays | local_first_orchestrator/paid_model.py:92-94 | a completed request is answered from its row without a call |
| PaidCalls.LostCallIsNotRepeated | local_first_orchestrator/paid_model.py:104-111 | a row left in flight closes the request for good |
| PaidCalls.RefusedRequestIsRetried | local_first_orchestrator/paid_model.py:95-103 | a refusal that may be retried leads to another call once it is due and within budget, and not before |
| PaidCalls.GrantedRequestWaits | local_first_orchestrator/usage_governor.py:50-102 | a request granted with the row free is soon the one call under way; without budget nothing happens |
| PaidCalls.RefusalIsRecorded | local_first_orchestrator/usage_governor.py:104-150 | a refusal is stored as what it was, one that may be retried or one for good, and frees the row |
| PaidCalls.DoubtIsRecorded | local_first_orchestrator/paid_model.py:150-154 | a call that failed leaves reservation and row unknown |
| PaidCalls.AnswerIsRecorded | local_first_orchestrator/paid_model.py:155-159 | an answer completes both and is returned |
| PaidCalls.RefusedThenAnswered | local_first_orchestrator/paid_model.py:82-159 | a whole life: refused with leave to retry, asked again, answered, and returned, in two calls |
| PaidCalls.ClosedForGood | local_first_orchestrator/usage_governor.py:50-102 | what is refused for good, or failed, is not granted again whatever is due and within budget |
| FurtherCalls.FurtherCallIff | local_first_orchestrator/paid_model.py:83-159 | in every state a reservation can get into, some continuation places another call exactly when a process is past its check with the row free to it, a request would be granted with the row free, or a call under way may still be recorded as refused |
| FurtherCalls.ClosedReservationIff | local_first_orchestrator/paid_model.py:83-134 | once refused for good or unknown, a reservation sees another call exactly if some process is past its check with the row free to it |
| FurtherCalls.StaleAuthorizationCallsAgain | local_first_orchestrator/paid_model.py:83-103 | the run in which a process authorized before a refusal for good sends the request again |
| FurtherCalls.DisownedClaimStillCalls | local_first_orchestrator/paid_model.py:104-124 | the run in which a second process declares the outcome unknown before the first has called, and the first then calls |
| FurtherCalls.CallsAreAuthorizedInTurn | local_first_orchestrator/usage_governor.py:50-102 | when requests do not overlap, every call is made under a reservation in flight |
| PlannerJournal.Planner.ProposeNext | local_first_orchestrator/decomposition_planner.py:270-376 | a call is placed exactly when the directory holds no file of an earlier run; what is in it when a run dies, step by step; a plan is returned only for a repository that is as it was before the call |
| PlannerJournal.Planner.Replay | local_first_orchestrator/decomposition_planner.py:288-333 | whatever the files say nothing is called, and a plan returned is the one the single call from this request gave |
| PlannerJournal.RunMany | local_first_orchestrator/decomposition_planner.py:288-376 | any runs over one directory, cut off between any two file operations: one call at most, one plan returned, one state of the repository it is returned for, and every later run that asks the same is answered the same |
| ModelStages.InvocationLog.Conclude | local_first_orchestrator/ledger.py:7628-7657 | from the launch row through the call to the recorded artifact, dying anywhere: what the row says, what is recorded and what is answered, for every outcome and every point of death |
| ModelStages.CallsFit | local_first_orchestrator/controller.py:1826-1840 | one call a slot and slots up to a limit mean calls up to the limit |
| ImplementationStage.Implementation.ChooseAttempt | local_first_orchestrator/controller.py:1814-1827 | the attempt a run is for: reconciled, newest with a worktree, or next |
| ImplementationStage.Implementation.Execute | local_first_orchestrator/controller.py:1783-1952 | what a run does and answers, case by case: what it refuses before it writes anything, what it answers for an attempt that is known, and how far it gets with a new one wherever it dies |
| ImplementationStage.History | local_first_orchestrator/controller.py:1815-1952 | over any history of runs and operators: one call an attempt, at most max_attempts, one result an attempt |
| ReviewStage.Review.Authorize | local_first_orchestrator/ledger.py:7717-7736 | a retry is authorized exactly for the latest launch, failed, of the candidate under review, within the budget, while there is no verdict |
| ReviewStage.Review.LaunchAuthorized | local_first_orchestrator/ledger.py:7738-7753 | an authorization is used up together with the launch it allows |
| ReviewStage.Review.Execute | local_first_orchestrator/controller.py:2906-2993 | what a run does and answers, case by case: the recorded verdict, the recovered one, a launch or an authorized relaunch as far as it lives, or the refusal of both |
| ReviewStage.LaunchesCounted | local_first_orchestrator/ledger.py:7738-7753 | launches are one more than the authorizations used |
| ReviewStage.History | local_first_orchestrator/controller.py:2906-2993 | over any history: calls at most one plus the authorizations used, at most three, and one verdict returned |
| ReviewStage.Triage.Execute | local_first_orchestrator/controller.py:3052-3140 | a triage is launched once, as far as the run lives, then replayed or refused, and exactly how |
| ReviewStage.TriageHistory | local_first_orchestrator/controller.py:3052-3140 | over any runs: one call, one proposal |
| JsonSyntax.ReadShow | local_first_orchestrator/native_release_approval.py:89-89 | reading undoes canonical writing for every syntax tree, whatever may follow it |
| JsonSyntax.ShowIsInjective | local_first_orchestrator/native_release_approval.py:89-89 | trees with one text are one tree |
| JsonText.LoadsUndoesDumps | local_first_orchestrator/native_release_approval.py:121-142 | loading undoes dumping exactly for documents without a surrogate pair held as two code points |
| JsonText.OnlySpaceMayFollow | local_first_orchestrator/native_release_approval.py:126-128 | a document may be followed by space and nothing else: of two values in a row none is read |
| JsonText.SameTextSameTree | local_first_orchestrator/native_release_approval.py:89-89 | two documents print alike exactly when their syntax trees are equal |
| JsonText.DumpsIsInjective | local_first_orchestrator/native_release_approval.py:89-89 | so printing tells apart documents that have no such pair |
| JsonText.DumpsLosesPairs | local_first_orchestrator/native_release_approval.py:89-89 | and does not tell a pair from the code point it stands for |
| JsonText.LoadedIsClean | local_first_orchestrator/native_release_approval.py:126-126 | whatever is loaded survives printing and loading unchanged |
| JsonText.NoDuplicates | local_first_orchestrator/native_release_approval.py:112-118 | the loop over one object's pairs ends with a dict of exactly these pairs, or refuses a key that comes twice |
| JsonText.AssembleIsNoDuplicates | local_first_orchestrator/native_release_approval.py:126-126 | and that is what loading makes of every object |
| JsonText.LoadObject | local_first_orchestrator/native_release_approval.py:112-118 | running that loop over the pairs of an object gives exactly what loading makes of it, refusals included |
| JsonText.DuplicateKeyRefused | local_first_orchestrator/native_release_approval.py:112-118 | a key that occurs twice in an object is refused wherever the two stand |
| JsonText.Sorted | local_first_orchestrator/native_release_approval.py:89-89 | the members of a dict are listed once each in code point order |
| ApprovalDocument.AcceptedIffCanonical | local_first_orchestrator/native_release_approval.py:77-142 | bytes are accepted exactly when they are the canonical bytes of a valid document that survives printing |
| ApprovalDocument.PurposesNeverCoincide | local_first_orchestrator/native_release_approval.py:92-109 | bytes made for one purpose are never bytes made for another, whatever else the documents hold |
| ApprovalDocument.AcceptedIsComplete | local_first_orchestrator/native_release_approval.py:77-87 | whatever is accepted has the eight fields and no other, a domain and operation of one purpose, four fields that are not blank and an authority that is not empty |
| ApprovalDocument.AcceptedBytesAreOneDocument | local_first_orchestrator/native_release_approval.py:121-142 | two accepted byte strings with one document are one byte string |
| ApprovalDocument.VersionMayBeTrue | local_first_orchestrator/native_release_approval.py:80-80 | the version of an accepted document is 1 or true, and its twin with the other one is accepted too, as other bytes |
| ApprovalDocument.BothVersionsOccur | local_first_orchestrator/native_release_approval.py:77-89 | for every purpose documents with either are accepted |
| Decimals.ValueOfDecimal | local_first_orchestrator/native_release_approval.py:89-89 | a number written in decimal reads back as itself |
| Snapshot.PyEqTransitive | local_first_orchestrator/native_release_approval.py:178-181 | Python's equality on loaded JSON, where True equals 1, is transitive |
| ActivationSnapshot.ValidatePost | local_first_orchestrator/native_release_approval.py:293-338 | a snapshot passes exactly when it is the unblock effect on the signed one: ready, one marker comment, one event, nothing else |
| ActivationSnapshot.CheckDelta | local_first_orchestrator/native_release_approval.py:305-338 | the checks on a local copy, overwritten field by field, come to that |
| ActivationSnapshot.EffectIsNotIdle | local_first_orchestrator/native_release_approval.py:305-337 | an accepted snapshot differs from the signed one, only in status, comments and events |
| ActivationSnapshot.OlderSpellingIsRefused | local_first_orchestrator/native_release_approval.py:24-26 | the validator reads a history under its older name and refuses every pair in which one snapshot lacks the newer name |
| ContinuationSnapshot.ChainKeeps | local_first_orchestrator/native_release_approval.py:162-284 | along released, running, handed off: nothing outside the lifecycle changes, one run is added, acknowledged before started before ended |
| ContinuationSnapshot.AcceptedIsTheTask | local_first_orchestrator/native_release_approval.py:162-190 | either verdict is about the released task in its worktree, on its branch, under its profile, with a newest run of that profile begun after the acknowledgement |
| ContinuationSnapshot.RunningMeans | local_first_orchestrator/native_release_approval.py:191-224 | accepted as running: a worker, a session, nothing to show yet, and one event that says when and until when it was claimed |
| ContinuationSnapshot.TerminalMeans | local_first_orchestrator/native_release_approval.py:225-262 | accepted as handed off: a run ended blocked with the handoff as summary and reason, without session or worker |
| ContinuationSnapshot.TerminalWasSeen | local_first_orchestrator/native_release_approval.py:240-284 | and an observation of that very run, itself accepted as running |
| ContinuationSnapshot.HistoryGrowsIffSameClaim | local_first_orchestrator/native_release_approval.py:225-240 | the handoff's events extend those seen running exactly when both claim at one second with one payload |
| ContinuationExample.ClaimsMayDisagree | local_first_orchestrator/native_release_approval.py:225-283 | and the validator accepts a chain in which they do not |
| ReleaseActivation.Release.Unblock | local_first_orchestrator/hermes_board.py:417-436 | one unblock of a task still scheduled |
| ReleaseActivation.Release.Replay | local_first_orchestrator/controller.py:717-746 | a run that finds an intent acknowledges an exact effect, or goes on only from the exact signed state |
| ReleaseActivation.Release.Activate | local_first_orchestrator/controller.py:658-791 | one run, with others writing to the board between its steps: without leave it looks at nothing, without a pause or with a conflict it unblocks nothing, and it unblocks only the task still as signed |
| ReleaseActivation.Release.Perform | local_first_orchestrator/controller.py:747-772 | the command and the look at what it did, for every effect and every point of death: only its exact effect, with one live marker, is marked |
| ReleaseActivation.Release.Confirm | local_first_orchestrator/controller.py:773-791 | the last look and the acknowledgement, for everything others may have written meanwhile |
| ReleaseActivation.History | local_first_orchestrator/controller.py:697-791 | over any history of crashes, replays and outside writes: at most one unblock, by a run that was ready, paused and routed, and one acknowledged snapshot that is exact with one marker |
| ReleaseActivation.RunUntilDone | local_first_orchestrator/controller.py:697-791 | undisturbed, runs cut off anywhere are made good by one that is not |
| ReleaseActivation.ExactHasOneMarker | local_first_orchestrator/hermes_board.py:407-415 | a marker read once on the live board is there once in the snapshot taken before |
| Lease.LeaseCovers | local_first_orchestrator/generated_projection.py:36-45 | a lease counted in whole seconds outlasts a span of time, wherever in a second it was claimed, exactly when it is a second longer |
| CommentDelivery.NeverTwoCopies | local_first_orchestrator/comment_delivery.py:79-142 | with a lease a second longer than a lookup and the longest delivery that outlives its worker, over every run in real time, the remote holds at most one copy, and exactly one of a delivered comment |
| CommentDelivery.NeverTwoIffLeaseLongEnough | local_first_orchestrator/comment_delivery.py:32-50 | and with no shorter one: some run then leaves two copies, though the policy allows it |
| CommentDelivery.NoLeaseOutlastsEveryOrphan | local_first_orchestrator/comment_delivery.py:115-119 | the code bounds a delivery only while its worker lives, so for every policy an orphan can linger long enough for a second copy |
| CommentDelivery.NeverTwoWhileWorkersLive | local_first_orchestrator/comment_delivery.py:79-142 | over the runs in which no worker dies, two copies are excluded exactly by a lease a second longer than two calls |
| CommentDelivery.DelayGrows | local_first_orchestrator/comment_delivery.py:131-133 | retry waits never shrink and stay between the base and the maximum |
| CommentDelivery.DelayDoubles | local_first_orchestrator/comment_delivery.py:131-133 | the wait is the base first and doubles with every attempt up to the maximum |
| CommentDelivery.AttemptLeaves | local_first_orchestrator/comment_delivery.py:79-142 | one attempt left to itself, for every way it can go: the row it leaves and what has landed |
| CommentDelivery.NotDueIsLeftAlone | local_first_orchestrator/comment_delivery.py:83-87 | a comment that is not due, or leased, is not claimed |
| CommentDelivery.TimeAndCopiesOnlyGrow | local_first_orchestrator/comment_delivery.py:79-142 | nothing that happens takes time or a landed copy back |
| CommentDelivery.LostDeliveryIsFound | local_first_orchestrator/comment_delivery.py:98-105 | a delivery that landed unrecorded is found at the next claim and not repeated |
| CardProjection.WindowsNeverOverlap | local_first_orchestrator/generated_projection.py:172-203 | under a policy that validates, no two workers call for one row at once, and a delivered row holds the one task of its key, though creates that failed or lost their worker may land at any time |
| CardProjection.NoOverlapIffMargin | local_first_orchestrator/generated_projection.py:36-45 | windows never overlap exactly when the lease has a second to spare |
| CardProjection.DeliveryLeaves | local_first_orchestrator/generated_projection.py:172-203 | one delivery left to itself, for every way it can go: recorded, tried again later, or failed |
| CardProjection.OnlyClaimableIsClaimed | local_first_orchestrator/generated_projection.py:172-178 | a row delivered, failed, leased or waiting for its retry is not claimed |
| CardProjection.RetryWaits | local_first_orchestrator/generated_projection.py:166-170 | a failed call is not tried again within the second |
| CardProjection.LateRecordIsRefused | local_first_orchestrator/generated_projection.py:161-203 | a worker without the lease records nothing |
| CardProjection.LateCreateTakesEffect | local_first_orchestrator/generated_projection.py:190-192 | a create that lands late makes the one task of its key, or none if there is one |
| Corrections.TicketIdIsInjective | local_first_orchestrator/corrections.py:273-273 | ticket names tell tranche, ordinal and position apart, whatever tranches are called |
| Corrections.OrdinalsAreOneToN | local_first_orchestrator/corrections.py:241-242 | the ordinals of a tranche are exactly 1 to n in the order of its plans |
| Corrections.NamesNeverCollide | local_first_orchestrator/corrections.py:262-278 | names of two plans, or two places of one, differ |
| Corrections.CorrectionService.CreatePlan | local_first_orchestrator/corrections.py:232-246 | a finding seen before gets no second plan; a new one gets the next ordinal and revokes authority |
| Corrections.CorrectionService.Materialize | local_first_orchestrator/corrections.py:262-290 | all tickets of a plan or none; a name can only be taken by a ticket that is no correction |
| Corrections.CorrectionService.RecordRecheck | local_first_orchestrator/ledger.py:11285-11359 | recorded exactly when every ticket is done with its accepted commit in the head's history; the newest recheck then names the current plans, tickets, commits and head, and gives a completed tranche authority at that head exactly when every plan is materialized |
| CorrectionsExample.RecheckedTooEarly | local_first_orchestrator/ledger.py:11293-11359 | the run: rechecked with one correction done and one only planned, a tranche gets no authority; rechecked again with both done, it does |
| Corrections.FindingRevokes | local_first_orchestrator/corrections.py:372-423 | a plan that no recheck of its tranche names leaves the tranche without authority |
| Corrections.NothingButARecheck | local_first_orchestrator/corrections.py:336-423 | after a new finding, over every run without a recheck of its tranche, the tranche has no authority |
| Corrections.AuthorityLeavesNothingOpen | local_first_orchestrator/corrections.py:372-423 | authority means completion evidence, every correction accepted, and a newest recheck of exactly the current plans and tickets |
| Corrections.AuthorityHoldsEveryCorrection | local_first_orchestrator/ledger.py:11330-11335 | the head that authority names has every accepted correction commit of the tranche in its history |
| CardFraming.WorkerReadsEscaped | local_first_orchestrator/generated_projection.py:61-78 | from a generated card the worker gets the contract back exactly when its encoding has no marker, fence or terminator |
| CardFraming.ControllerReadsEscaped | local_first_orchestrator/controller.py:306-321 | the controller exactly when it has no native fence and no terminator |
| CardFraming.WorkerReadsNative | local_first_orchestrator/generated_projection.py:61-78 | the same for a triage card, with its own terminator |
| CardFraming.ControllerReadsNative | local_first_orchestrator/controller.py:306-321 | for a triage card the controller needs it free of three ticks |
| CardFraming.ReadersDisagree | local_first_orchestrator/controller.py:306-321 | on every triage card with a certain contract of eleven characters the worker gets the contract back and the controller does not |
| CardFraming.OtherCardsAreNotRead | local_first_orchestrator/controller.py:306-321 | a card without the marker, or without a fence, is read by neither |
| ExecutionHandoff.InstructionsFit | local_first_orchestrator/execution_handoff.py:7-13 | the handoff text has its own marker, not the card's, and no fence |
| ExecutionHandoff.AttachedCardReads | local_first_orchestrator/execution_handoff.py:3-19 | with it attached both readers still get the contract of a generated card, and it is attached once |
| CardFraming.AttachIsIdempotent | local_first_orchestrator/execution_handoff.py:16-19 | attaching it twice is attaching it once |
| Daemon.SchedulerDaemon.RunIteration | local_first_orchestrator/daemon.py:298-358 | a tick adds one entry to the log, leaves every counter the clamp of its true count, and sleeps as the true counts say, whenever a stop is asked for |
| Daemon.SchedulerDaemon.Run | local_first_orchestrator/daemon.py:360-375 | runs up to the limit, stops when asked, and ends on an error only if told to |
| Daemon.SchedulerDaemon.Resume | local_first_orchestrator/daemon.py:148-170 | a daemon started again counts on from the ticks last written down, or from nothing if the row no longer validates |
| Daemon.SaturationIsUnseen | local_first_orchestrator/daemon.py:33-45 | a saturated counter gives the wait the true count would give, overflow included |
| Daemon.DelaysGrow | local_first_orchestrator/daemon.py:335-341 | waits in a streak never shrink and never pass the maximum |
| Daemon.DelayDoubles | local_first_orchestrator/daemon.py:33-45 | the wait is the base first and doubles with every failure up to the maximum |
| Daemon.TickMeans | local_first_orchestrator/daemon.py:298-330 | what a tick comes to: when it fails, when the external runner decides, and when its outcome counts |
| Daemon.CountersFit | local_first_orchestrator/daemon.py:244-256 | every counter, and every counter written down, is one that SQLite can hold |
| Daemon.EveryTickCounted | local_first_orchestrator/daemon.py:298-358 | ticks are successes and errors, and the idle, busy and paused ones are among the successes |
| Daemon.CountersAddUp | local_first_orchestrator/daemon.py:244-256 | so do the counters reported, until one saturates |
| Daemon.StreakIsTrailing | local_first_orchestrator/daemon.py:328-346 | consecutive errors are the failures at the end of the log |

## Left out

- Concurrent protocols are step machines on values, not objects changed in place: aliasing between two controllers' views is not captured.
- Integration: the branch and root checks, the manual native common-dir check and the removal of `__pycache__` are left out, and reads made one after another without a write between them are one step.
- IntegrationReplay.AtMostOneCommit: others change a worktree by committing on top of its head, not by resetting or amending, and `update-ref` fails only when the head has another value.
- `execute` appears only as its last two commands, commit and advance (`DirectAdvance`); tranche landing has the shape of integration and is left out.
- PlanValidation.PlanValidator.Validate: reasons are a set, so their order and repetition are not modelled; of `validate_ticket` the count of declared files is modelled, and the rest is a field of the ticket.
- The three searches recurse as deep as the graph is; Python's recursion limit is not modelled.
- Repair insertion: the frozen list is taken to be the predecessor's children when the intent was recorded, nobody else edits the graph meanwhile, and the revision rows written after the rewrite are left out.
- Model stages, planner and release: one controller at a time works on a ticket, an artifact directory or a release; the scheduler's claims that see to it are left out.
- ReviewStage.Review.Execute: which launch is read as the latest is left open, because rows begun in one second are ordered by random names.
- PlannerJournal.Planner.ProposeNext: the prompt, the packet and the parsing of a plan are a table from outputs to plans.
- ReleaseActivation.Release.Activate: the pinning of the board file by device and inode is left out; others may add comments and events and change every other part of the board, but take no comment or event out.
- JSON: floats (with them a version of `1.0` would pass as well), Python's limits on digits and depth, and UTF-8 itself are left out; a text stands for its bytes.
- Snapshot.PyEqTransitive: strings in snapshots hold no lone surrogates, and numbers are integers and booleans.
- ContinuationSnapshot.ChainKeeps: the observation's text is the document it parses to, and its numbers are already integers.
- CommentDelivery.NeverTwoCopies: a worker's name is not shared, reading the clock and claiming take no time, and the lookup is faithful; redaction of errors is left out.
- CardProjection.WindowsNeverOverlap: Hermes is taken to create one task for one key; the identity checks on payload and shown task are two booleans.
- Corrections.CorrectionService.CreatePlan: plan ids are told apart by the finding's key, though the code cuts its hash to twenty digits; validation of scope and lineage is one boolean.
- Corrections.CorrectionService.RecordRecheck: repository, base and snapshot being one for all tickets is a boolean; generations and the hash chain between rechecks are their order in a list.
- Daemon.SchedulerDaemon.RunIteration: the texts of reasons and errors are left out, and delays are reals within the range of finite floats.
- Ed25519, SHA-256, sudo, file locks, argument parsing, profiles, the dashboard, metrics, context packets, admission, reconciliation and SQL: foreign calls, or single checks that would add only easy members.
