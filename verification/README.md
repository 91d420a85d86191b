# Sentinel: the remediation core, modelled and proved in Dafny

Sentinel watches API changes and drives remediation jobs from a durable queue through staged workers
to a pull request. This project models the parts whose correctness does not follow from reading one
function: two lease protocols that any number of crashing processes use at the same time, the
structural OpenAPI diff with its classifier, and three small string algorithms.

`dafny verify dfyconfig.toml` checks everything.

## How the model is built

**Job queue and workers.** `JobTable` gives the effect of every SQL statement of the queue on one row;
`JobQueue` is the queue as a class. `WorkerProtocol` is one state machine for the table, every worker
inside `run_once`, every approver and the clock. All choices of the environment (scheduling, time, row
locks, handler results, audit failures, lost replies after a committed write, crashes, restarts under
the same worker id) are arguments of a `Step`, so a theorem about every sequence of steps is a theorem
about every interleaving. `WorkerInvariant` and `WorkerPreservation` are the inductive invariant and its
preservation, `JobHistory` and `JobHistoryTheorems` say what the recorded table events imply, and
`WorkerTheorems` and `WorkerProgress` hold the results. `LiveLeases` says what everybody else can do to
the holder of a lease. `RemediationWorker` is `run_once` with its local variables, statement by statement;
between any two statements everybody else acts, and any statement may fail before it takes effect or lose
its reply afterwards. All of that is one argument, the environment: the methods are proved to be runs of
the protocol for every environment, and their results are tied to it. `Heartbeat` is the lease renewal thread.

**Delivery.** `GitHub` is the provider (refs, pull requests, commits identified with their content) and
the request validation; `DeliveryStore` is the attempt table as a class; `DeliveryProtocol` is the state
machine of all executors, the store, the provider and everybody else who uses the repository.
`DeliveryInvariant`, `DeliveryPreservation` and `DeliveryTheorems` are its invariant, its preservation and
its results; `DeliveryBases` follows the commit that a delivery is made on; `DeliveryRuns` builds runs phase by phase, with which `DeliveryDeadEnds` and `DeliveryLimits`
state exactly when recovery works and when it attributes correctly. `DeliveryExecutor` holds `execute`, `deliver`
and `_reconcile` as programs that are proved to be runs of the protocol, with the environment of
`DeliveryTurns` as an argument.

**Diff.** `OpenApiDiff` is `_walk` as a function and as the method that appends to a list; a change
carries its position as a sequence of keys beside the rendered path. `DiffTheorems` proves it a correct,
minimal and reversible patch, `Endpoints` treats endpoint extraction and `Classifier` the classification.

**Strings.** `RepositoryPaths`, `PatchTool` and `Utf8Artifacts`, on top of `Strings` and `Basics`.

## What the proofs show about the code

These places promise less than a reader may expect; each has a lemma with the exact condition, a
concrete input, or both.

- Starting a stage handler is not fenced. A handler that is about to start repeats a stage checkpointed since
  the last failure if and only if the stored job is past the worker's local one
  (`WorkerTheorems.HandlerRepeatsIffBehind`). An owner of the row never repeats a stage
  (`WorkerTheorems.OwnerRunsFreshStage`); a worker that lost its lease can
  (`WorkerTheorems.StaleWorkerRepeatsStage` is such a run). Only the write of a stale worker is refused.
- A failure inside `_resume` requeues the job as it was claimed. It keeps the stored content if and only if
  the worker is past `_resume` or has changed nothing but the status since its claim
  (`WorkerTheorems.FailureRestoresClaimedJob`); otherwise checkpointed content is lost, a patch for instance
  (`WorkerTheorems.FailureDropsPatch`). The docstring of `_resume` speaks of continuing from the last
  persisted stage, which holds after a crash (`JobHistoryTheorems.ClaimHandsOverLatest`), not after a failure.
- Delivery keys that agree in job, repository and base branch but differ in tenant or change event share
  one branch. Some run records another key's pull request if and only if a request for another key shares
  the slot (`DeliveryLimits.ForeignRecordIffSharedSlot`).
- At most once is bought with dead ends. Take an attempt in progress for whose key nobody is delivering and
  nobody knows a delivery. The system itself can still bring it to record its own delivery if and only if the
  pull request of that delivery is open at the provider, under a branch name that the lookup accepts; if no
  other attempt shares the slot, if and only if the provider shows an open pull request from the branch into
  the base (`DeliveryDeadEnds.RecoverableIffPullOpen`). A pull request that was closed or merged before anybody
  looked is never recorded, although it exists (`DeliveryDeadEnds.ClosedPullIsNeverRecorded`). Exactly three
  kinds of steps leave no pull request at all: a `begin` that commits without an answer, stopping inside
  `deliver`, and a failing request of `deliver` (`DeliveryDeadEnds.LosingSteps`). A branch left behind blocks
  every later attempt for its job in that repository (`DeliveryDeadEnds.AbandonedBranchBlocksForever`). The
  error text "reconcile before retrying" has no successful outcome in these cases.
- `validate_relative_path` accepts a path that begins with a backslash and returns an absolute path; the
  result is in the form that delivery accepts if and only if the input does not begin with a backslash
  (`RepositoryPaths.AcceptedPathsAreValid`, `RepositoryPaths.LeadingBackslashEscapes`).
- The patch tool reads files with newline translation, so everything around the match is kept if and only if
  the file has no carriage return (`PatchTool.RestIsKeptIffNoReturn`, with the input in
  `PatchTool.LineEndsAreRewritten`); text copied with its carriage returns is never found.
- `count(old) == 1` means that `old` occurs once, in every file that the tool patches, if and only if `old`
  cannot overlap itself within the file size limit (`PatchTool.UniqueIffNoOverlap`).
- Endpoint extraction recovers the endpoint if and only if the changed value holds no method key and no
  segment of the endpoint is spelled like a method (`Endpoints.ExtractionUndoesRendering`).
- Output is unchanged by truncation if and only if it fits or its cut last character is itself U+FFFD
  (`Utf8Artifacts.UnchangedIffFits`).

## Model

| member | source | states |
|---|---|---|
| `Jobs.CreateRemediationJob` | src/sentinel/orchestrator.py:24-60 | a job is created exactly for non-blank tenants, a matching blast radius and a dry run; it is held exactly for new features and queued otherwise |
| `Jobs.WorkflowIsOnePath` | src/sentinel/orchestrator.py:63-81 | the lists of transitions that a queued job accepts are exactly the initial parts of the stages in order, and the stages before verification followed by `failed`; only the status changes |
| `Jobs.ApproveRemediation` | src/sentinel/approval_gate.py:37-58 | approval succeeds exactly for a held job with complete identity, approver and zoned time; the released copy differs from the held job in its status only |
| `JobTable.NextJob` | src/sentinel/job_queue.py:80-98 | the claim query picks the earliest unlocked claimable row by creation time and id, and none exactly if there is none |
| `JobTable.NextJobIsOldest` | src/sentinel/job_queue.py:83-90 | the order written out: every other unlocked claimable row was created later, or at the same time with a job id that is not smaller |
| `JobQueue.PostgresJobQueue.Enqueue` | src/sentinel/job_queue.py:32-54 | the new table; a duplicate id changes nothing |
| `JobQueue.PostgresJobQueue.Get` | src/sentinel/job_queue.py:56-68 | refuses a blank id, else returns the stored payload or nothing |
| `JobQueue.PostgresJobQueue.Claim` | src/sentinel/job_queue.py:70-104 | which inputs are refused, which row is claimed for which payload, and the whole new table |
| `JobQueue.PostgresJobQueue.RenewLease` | src/sentinel/job_queue.py:106-131 | accepted exactly under a live lease of the worker; only the lease changes |
| `JobQueue.PostgresJobQueue.ReleaseApproval` | src/sentinel/job_queue.py:133-162 | accepted exactly for a queued copy of a row that is awaiting approval for the same tenant |
| `JobQueue.PostgresJobQueue.Checkpoint` | src/sentinel/job_queue.py:164-190 | accepted exactly for a completed stage of the same job under a live lease; only the payload changes |
| `JobQueue.PostgresJobQueue.Complete` | src/sentinel/job_queue.py:192-198 | accepted exactly for a terminal status under a live lease; the row takes the payload's status and loses its owner |
| `JobQueue.PostgresJobQueue.Fail` | src/sentinel/job_queue.py:200-213 | accepted exactly for a delay within the hour under a live lease; the row is queued again, becomes available at the current time plus the delay, and keeps every other column |
| `WorkerPreservation.StepInv` | src/sentinel/remediation_worker.py:102-240 | every step of every worker, approver and clock keeps the invariant that ties durable payloads to workers' local jobs |
| `WorkerPreservation.StepsInv` | src/sentinel/remediation_worker.py:102-240 | any further sequence of steps keeps the invariant |
| `WorkerPreservation.RunInv` | src/sentinel/remediation_worker.py:102-240 | the invariant holds after every sequence of steps from the empty table |
| `WorkerTheorems.EveryHistoryIsDisciplined` | src/sentinel/job_queue.py:70-266 | the table events of every interleaving obey the discipline from which the history theorems follow |
| `JobHistoryTheorems.ActsOnlyUnderLatestClaim` | src/sentinel/job_queue.py:116-127 | renew, checkpoint, complete and fail succeed only if the same worker made the latest claim of the job, has not given the job back since, and acts within the lease as last renewed |
| `JobHistoryTheorems.ClaimHandsOverLatest` | src/sentinel/job_queue.py:92-102 | a claim hands over exactly what the latest statement before it left in the row |
| `JobHistoryTheorems.HolderWroteContent` | src/sentinel/job_queue.py:164-190 | while a job has a holder, the durable payload is what that holder last claimed or checkpointed, and only renewals follow |
| `JobHistoryTheorems.TenuresDoNotOverlap` | src/sentinel/job_queue.py:83-98 | a later claim follows a failure of the earlier claimer, or comes strictly after its lease as last renewed has expired; nothing the earlier claimer did is later than that claim |
| `JobHistoryTheorems.StageRises` | src/sentinel/job_queue.py:164-190 | after a first claim the durable stage is taken back by failures only |
| `JobHistoryTheorems.SavedIffUpToStage` | src/sentinel/job_queue.py:164-190 | the stages checkpointed since the last failure are exactly those from the first up to the durable one |
| `JobHistoryTheorems.NoStageTwice` | src/sentinel/remediation_worker.py:170-206 | between two failures no stage of a job is checkpointed twice, and stages come in order |
| `JobHistoryTheorems.CompletesOnce` | src/sentinel/job_queue.py:192-198 | at most one completion per job, and no claim or owner statement after it |
| `JobHistoryTheorems.NoClaimBeforeRetry` | src/sentinel/job_queue.py:200-247 | after an accepted failure of a job no claim of that job comes within 30 seconds, in any interleaving |
| `JobHistoryTheorems.HeldJobNeedsRelease` | src/sentinel/job_queue.py:83-87 | a job enqueued as awaiting approval is claimed only after a release |
| `JobHistoryTheorems.ReleasesOnce` | src/sentinel/job_queue.py:133-158 | of any number of concurrent approvals at most one is accepted |
| `WorkerTheorems.OwnerOrReclaim` | src/sentinel/job_queue.py:83-98 | at every instant exactly one of "its owner may act" and "it may be reclaimed" holds of a running row |
| `WorkerTheorems.RunningRowHoldsOwnersLatest` | src/sentinel/job_queue.py:70-190 | whether its owner works, fails or has crashed, a running row holds what the owner itself last claimed or checkpointed according to the recorded events |
| `WorkerTheorems.OwnerKnowsDurableJob` | src/sentinel/remediation_worker.py:121-147 | a worker in the `try` block that owns its row holds locally exactly what is stored |
| `WorkerTheorems.HandlerRepeatsIffBehind` | src/sentinel/remediation_worker.py:170-224 | for every run and every worker about to start a handler: the stage was checkpointed since the last failure exactly if the stored job is past the worker's local one |
| `WorkerTheorems.OwnerRunsFreshStage` | src/sentinel/remediation_worker.py:208-224 | a handler started by the owner of the row gets the stored job advanced by one stage, which was not checkpointed since the last failure |
| `WorkerTheorems.StaleWorkerRepeatsStage` | src/sentinel/remediation_worker.py:216-224 | a reachable state in which a worker without the row starts a stage that was checkpointed since the last failure |
| `WorkerTheorems.StepMoves` | src/sentinel/job_queue.py:164-262 | a step leaves a row alone, or moves an unfinished row up one stage, keeps its stage or resets it by an accepted failure; never back to the gate |
| `WorkerTheorems.StageNeverDrops` | src/sentinel/remediation_worker.py:102-206 | over any stretch of any run without an accepted failure of the job its durable stage does not drop |
| `WorkerTheorems.FailureRestoresClaimedJob` | src/sentinel/remediation_worker.py:148-163 | an accepted failure inside `_resume` stores the job as claimed; the stored content survives exactly if the worker is past `_resume` or changed only the status since its claim |
| `WorkerTheorems.FailureDropsPatch` | src/sentinel/remediation_worker.py:148-163 | for any patch a reachable state in which it is checkpointed and an accepted failure leaves none |
| `WorkerTheorems.RowsAreWellFormed` | src/sentinel/job_queue.py:215-262 | running exactly if owner and lease are set, payload status equal to the column otherwise, identity columns equal to the payload, no durable `failed` |
| `WorkerTheorems.UnsupportedStatusIsUnreachable` | src/sentinel/remediation_worker.py:201-205 | no worker of any run ends with the unsupported-checkpoint error |
| `WorkerTheorems.ClaimsAreConserved` | src/sentinel/job_queue.py:92-98 | attempts equal claims, which equal completions plus failures plus reclaims plus one if running; completions equal one exactly for a finished row |
| `WorkerTheorems.FinishedRowsAreFinal` | src/sentinel/job_queue.py:192-198 | no step ever changes a finished row, and no row returns to awaiting approval |
| `WorkerTheorems.ReleaseChangesOnlyStatus` | src/sentinel/api.py:206-214 | the get, approve and release sequence changes nothing in the payload but the status, however long it took |
| `WorkerTheorems.EverythingIsClaimableAfterAnHour` | src/sentinel/job_queue.py:74-87 | after every run, and after any further steps among which there is no claim, renewal or requeue for more than an hour, the claimable rows are exactly the queued and running ones |
| `WorkerTheorems.ClaimAfterAnHour` | src/sentinel/job_queue.py:70-104 | a claim then takes the least unlocked one by creation time and id with its payload, and nothing exactly if there is none |
| `WorkerProgress.TenantsAreNamed` | src/sentinel/orchestrator.py:38-39 | in every reachable state every row has non-blank tenant columns |
| `WorkerProgress.EveryJobCanFinish` | src/sentinel/remediation_worker.py:102-168 | from every reachable state some continuation finishes any given job through any given worker, a held one after an approval: no crash, lost reply or stale worker makes a job unfinishable |
| `RemediationWorker.Worker.RunStage` | src/sentinel/remediation_worker.py:208-240 | a returned job is what the handler made of the staged job and what the worker checkpointed; every exception, also after a checkpoint whose reply was lost, leaves the claimed job as the one to fail; if every call is served, the handler behaves and the lease holds, it returns |
| `RemediationWorker.Worker.Resume` | src/sentinel/remediation_worker.py:170-206 | it returns the job after its remaining stages in order, verified or sealed, or raises out of a stage; the final check never fails, and undisturbed stages within the lease return |
| `RemediationWorker.Worker.Drive` | src/sentinel/remediation_worker.py:121-147 | the `try` block ends with its own accepted completion of a final row, or in the `except` branch; undisturbed within the lease it completes |
| `RemediationWorker.Worker.Recover` | src/sentinel/remediation_worker.py:148-168 | a reported failure is its own accepted `fail`, with the job queued again as claimed; it goes unreported only if its audit event or the statement failed, or the row is not its own |
| `RemediationWorker.Worker.RunOnce` | src/sentinel/remediation_worker.py:102-168 | no job exactly if the claim was served and no unlocked row was claimable; if one was, and everything is served within the lease, that earliest job is completed with what the handlers made of it; an exception exactly for an invalid lease or a claim not served, and otherwise only if the failure could not be reported or the row is not its own; every result is what the table says, and every call is a run of the protocol ending idle |
| `Heartbeat.IntervalFitsLease` | src/sentinel/remediation_worker.py:61-63 | the interval is one second up to leases of three, a third of the lease below ninety and thirty seconds from there on; it is below the lease exactly for leases of two seconds and more; delays up to d are harmless exactly if d fits into the rest |
| `Heartbeat.LeaseHeartbeat.Run` | src/sentinel/remediation_worker.py:61-73 | no error exactly if every renewal lands within the lease left by the one before; then the lease runs from the last renewal, and nothing but the lease of this row changed |
| `LiveLeases.LiveLeaseIsUntouchable` | src/sentinel/job_queue.py:83-127 | no step of anybody else changes a row whose lease is live |
| `LiveLeases.GapKeepsHold` | src/sentinel/job_queue.py:83-127 | whatever everybody else does for however many steps, a worker keeps its row while less time passes than its lease has left |
| `Heartbeat.HeartbeatKeepsOwnership` | src/sentinel/remediation_worker.py:218-224 | with renewals at most a lease apart, a worker owns its row and payload at every moment of any interleaving, however long the handler takes |
| `GitHub.ValidateRequest` | src/sentinel/github_delivery.py:216-253 | accepts exactly the requests with open gates, a repository of two names, a base branch, title and body without the refused forms, and 1 to 32 valid changes with unique paths, written out |
| `GitHub.OverlayReplacesExactly` | src/sentinel/github_delivery.py:158-179 | the delivered tree is the base tree with exactly the requested files replaced or added |
| `GitHub.FoundIsDelivery` | src/sentinel/github_delivery.py:100-122 | what is found is an open pull request from the branch into the base with the branch's commit; nothing is found only if there is none |
| `GitHub.FindDelivery` | src/sentinel/github_delivery.py:82-122 | refuses exactly invalid names, else returns the first match |
| `GitHub.BranchNameInjective` | src/sentinel/github_delivery.py:152 | the branch is `sentinel/remediation/` followed by the job id, so different jobs have different branches |
| `DeliveryStore.KeyIdentifiesDelivery` | src/sentinel/delivery_idempotency.py:32-50 | two deliveries have the same key exactly if they agree in job, tenant, installation, change event, provider, repository and base branch |
| `DeliveryStore.DeliveryAttemptStore.Acquire` | src/sentinel/delivery_idempotency.py:59-131 | which calls are refused, and the inserted, taken-over or unchanged row |
| `DeliveryStore.DeliveryAttemptStore.Begin` | src/sentinel/delivery_idempotency.py:133-157 | accepted exactly for a pending row under the owner's live lease; the row becomes in progress with a new lease |
| `DeliveryStore.DeliveryAttemptStore.RecordSuccess` | src/sentinel/delivery_idempotency.py:159-234 | accepted exactly for a row in progress under the owner's live lease; the row holds the result and no lease |
| `DeliveryStore.ResultIsComplete` | src/sentinel/delivery_execution.py:170-182 | a durable result is returned exactly if number, url and commit are there and the url is not empty, and it is those columns |
| `DeliveryPreservation.StepInv` | src/sentinel/delivery_execution.py:52-167 | every step of every executor, of the provider and of everybody else keeps the delivery invariant |
| `DeliveryPreservation.RunInv` | src/sentinel/delivery_execution.py:52-167 | the invariant holds after every sequence of steps from a provider without remediation branches |
| `DeliveryPreservation.SoleDeliverer` | src/sentinel/delivery_execution.py:96-114 | two executors never deliver for the same key |
| `DeliveryPreservation.FoundIsDelivered` | src/sentinel/delivery_reconciliation.py:35-57 | what the provider shows for a remediation branch is what a delivery made there |
| `DeliveryTheorems.DeliversAtMostOnce` | src/sentinel/delivery_execution.py:77-114 | over every interleaving `client.deliver` is invoked at most once per key |
| `DeliveryTheorems.RowsOnlyAdvance` | src/sentinel/delivery_idempotency.py:82-131 | no step returns a row to pending or changes a recorded result |
| `DeliveryTheorems.ResultsAreFinal` | src/sentinel/delivery_idempotency.py:206-222 | the same over any further sequence of steps: `succeeded` is absorbing and written once |
| `DeliveryTheorems.ExecutorsAgree` | src/sentinel/delivery_execution.py:89-132 | all calls that return for one key return the identical result |
| `DeliveryTheorems.OwnerOrTakeover` | src/sentinel/delivery_idempotency.py:91-105 | a row has no lease exactly if it succeeded, so the owner may act exactly if nobody can take over |
| `DeliveryTheorems.ExistingRemoteStateIsKept` | src/sentinel/github_delivery.py:146-214 | no step changes an existing ref or an existing pull request, wherever `deliver` stops |
| `DeliveryTheorems.OnlyDelivererWrites` | src/sentinel/delivery_execution.py:105-118 | every remote change is made by the only `deliver` call of its key, on its own branch, for a verified job that is not a dry run and a request that allows writes; everybody else writes nothing |
| `DeliveryTheorems.PullNeedsBranch` | src/sentinel/github_delivery.py:190-204 | a pull request from a remediation branch exists only with its branch, is the only one, and has the title and body of the delivered request |
| `DeliveryBases.DeliveredOnTopOfBase` | src/sentinel/github_delivery.py:146-189 | every delivered commit has one parent, to which the base branch pointed in some state of the run after `deliver` was invoked; every file of that base which the request does not name is unchanged in it |
| `DeliveryBases.InvokedAreValid` | src/sentinel/delivery_execution.py:52-114 | `deliver` is invoked with valid requests only |
| `DeliveryTheorems.RecordedResultIsWhatWasMade` | src/sentinel/delivery_execution.py:120-167 | a recorded number, url and commit are those of the one pull request of the slot, which the provider lists from that branch into that base, and whose commit delivers the request; it is the key's own if no other attempted key shares the slot |
| `DeliveryTheorems.RecoveryRecordsOrLeaves` | src/sentinel/delivery_execution.py:134-167 | a later executor records exactly the delivery that was made, or leaves the row in progress, and writes nothing remotely |
| `DeliveryTheorems.RecoveryFindsOpenDelivery` | src/sentinel/github_delivery.py:82-122 | an answered lookup finds the open pull request of the slot exactly if the branch name is one that the lookup accepts |
| `DeliveryDeadEnds.LosingSteps` | src/sentinel/delivery_execution.py:96-118 | a step loses a delivery exactly if it is a `begin` that takes effect without an answer, a stop inside `deliver`, or a failing request of `deliver` before the pull request exists |
| `DeliveryDeadEnds.LostDeliveryIsNeverRepaired` | src/sentinel/delivery_execution.py:91-118 | in every continuation such a key has no pull request of its own, and its attempt stays in progress or records another key's |
| `DeliveryDeadEnds.OpenPullCanBeRecorded` | src/sentinel/delivery_execution.py:134-167 | from every reachable state with the attempt in progress and an open pull request of its slot, any executor can go on to record its number, url and commit, with nothing changed remotely |
| `DeliveryDeadEnds.RecoverableIffPullOpen` | src/sentinel/delivery_execution.py:91-167 | an attempt in progress for which nobody delivers or knows a delivery can be brought to record its own delivery, without outside help, exactly if its pull request is open and its branch name accepted; if the slot is unshared, exactly if the provider shows an open pull request from the branch into the base |
| `DeliveryDeadEnds.ClosedPullIsNeverRecorded` | src/sentinel/github_delivery.py:93-96 | for any admitted call a reachable state in which its pull request exists and the attempt stays in progress whatever is called |
| `DeliveryDeadEnds.AbandonedBranchBlocksForever` | src/sentinel/github_delivery.py:152-156 | if a lost delivery left its branch behind, no attempt for that branch, under any key, succeeds in any continuation |
| `DeliveryDeadEnds.BranchCanBeAbandoned` | src/sentinel/github_delivery.py:190-204 | for any admitted call a reachable state with such a branch |
| `DeliveryLimits.SharedSlotRecordsForeignDelivery` | src/sentinel/delivery_idempotency.py:32-50 | for any two valid requests with different keys for one job, repository and base, a run in which the second key records the first one's pull request |
| `DeliveryLimits.ForeignRecordIffSharedSlot` | src/sentinel/delivery_idempotency.py:32-50 | among any set of requests, some run records another key's pull request for a request with a findable branch name exactly if a request for another key shares its slot |
| `DeliveryExecutor.Executor.PostBlobs` | src/sentinel/github_delivery.py:158-172 | the tree entries are the requested changes, in order, unless a request fails; undisturbed uploads succeed |
| `DeliveryExecutor.Executor.Publish` | src/sentinel/github_delivery.py:190-214 | it returns the pull request made from the branch with the given commit, or raises; it returns if both requests are answered, the branch is free and the number unused |
| `DeliveryExecutor.Executor.Deliver` | src/sentinel/github_delivery.py:124-214 | the returned commit puts the requested files and title on top of a commit that the base branch pointed to during the call; an undisturbed call returns it on top of the base branch as it is |
| `DeliveryExecutor.Executor.Reconcile` | src/sentinel/delivery_execution.py:134-167 | a returned result is the durable result of the key's row at that moment; an open pull request that the lookup finds is recorded and returned if nothing disturbs it within the lease |
| `DeliveryExecutor.Executor.Acquire` | src/sentinel/delivery_execution.py:77-94 | refused exactly if the statement is not answered or somebody else holds the attempt under a live lease; what the acquired row lets the call do next, and that a free row is then held for the lease |
| `DeliveryExecutor.Executor.Start` | src/sentinel/delivery_execution.py:96-132 | begin, deliver and record, with any reply refused or lost, form a run of the protocol; a returned result is durable, and undisturbed it is the requested delivery |
| `DeliveryExecutor.Executor.Execute` | src/sentinel/delivery_execution.py:52-132 | `Invalid` exactly for invalid requests, which touch nothing; not acquired exactly if unanswered, held by another or failed; the result of a finished attempt is returned as it is; a free attempt that is not disturbed is delivered, an abandoned one whose pull request is open is recovered; every returned result is the durable result of the key |
| `OpenApiDiff.WalkDocuments` | src/sentinel/diff.py:17-33 | the appending loops compute the specified list of changes |
| `OpenApiDiff.PyEqSymmetric` | src/sentinel/diff.py:28-32 | Python equality of JSON values, with `True == 1`, does not depend on the order of its operands |
| `OpenApiDiff.PyEqIsPlainEquality` | src/sentinel/diff.py:28-32 | two documents are equal in Python exactly if they are identical once their booleans are replaced by numbers |
| `DiffTheorems.DiffIsCorrectPatch` | src/sentinel/diff.py:17-38 | applying the changes to `before` by position gives `after` |
| `DiffTheorems.DiffIsEmptyIffEqual` | src/sentinel/diff.py:17-33 | nothing is reported exactly for equal documents |
| `DiffTheorems.DiffIsExactPatch` | src/sentinel/diff.py:17-38 | for documents without booleans the patched document is exactly `after` |
| `DiffTheorems.NoDiffIffSame` | src/sentinel/diff.py:17-33 | for documents without booleans nothing is reported exactly if they are identical |
| `DiffTheorems.DiffIsMinimal` | src/sentinel/diff.py:17-33 | no position is reported twice or together with a position inside it |
| `DiffTheorems.DiffIsReversible` | src/sentinel/diff.py:17-33 | swapping the arguments gives the inverse changes as a multiset |
| `Endpoints.RenderedPaths` | src/sentinel/diff.py:20-32 | the path of every change is the rendering of its key sequence |
| `Endpoints.ExtractionUndoesRendering` | src/sentinel/diff.py:44-70 | the endpoint is recovered exactly if the value holds no method key and no endpoint segment is a method |
| `Endpoints.MethodNames` | src/sentinel/diff.py:41 | a segment is a method exactly if its lower-case form is one of the eight names |
| `Endpoints.ExtractionForEachMethod` | src/sentinel/diff.py:44-70 | recovery of the endpoint below each of the eight literal method names |
| `Endpoints.ExtractionSpelledOut` | src/sentinel/diff.py:53-70 | a path has no endpoint exactly if it is not below `/paths/`, or no value key and no segment is a method; a value that holds a method key is at its endpoint |
| `Endpoints.FirstMethodEndsEndpoint` | src/sentinel/diff.py:63-68 | below the first method the endpoint is what comes before it, and `/` if that is empty |
| `Endpoints.DiffAttributesEndpoint` | src/sentinel/diff.py:41-70 | the same for every change that the diff reports below a method |
| `Endpoints.DiffAttributesPathItem` | src/sentinel/diff.py:53-70 | for a change at a path item itself the whole endpoint is returned exactly if the value holds a method key, and nothing exactly if it does not and no endpoint segment is a method |
| `Classifier.Classify` | src/sentinel/diff.py:77-110 | the loop with its sets and flags computes the meaning of the change list |
| `Classifier.TypeSpelledOut` | src/sentinel/diff.py:94-110 | which kinds of changes at which paths give which type and severity, written out |
| `Classifier.ListsSpelledOut` | src/sentinel/diff.py:84-110 | the lists hold exactly the endpoints of the changes and the removed paths without an endpoint, in order and without repetition |
| `Classifier.ClassificationIsHomomorphism` | src/sentinel/diff.py:77-110 | classifying a concatenation gives the higher type and the sorted unions |
| `Classifier.ClassificationIgnoresOrder` | src/sentinel/diff.py:84-110 | order and repetition of changes do not matter |
| `Classifier.WalkKinds` | src/sentinel/diff.py:19-26 | a removal is reported exactly if a key was dropped, and only additions exactly if only keys were added |
| `Classifier.DroppedKeyIsBreaking` | src/sentinel/diff.py:94-105 | a dropped key anywhere makes the diff breaking with high severity |
| `Classifier.AddedKeysAreNotBreaking` | src/sentinel/diff.py:101-110 | a document that only gains keys is never breaking, and a fix exactly if nothing changed |
| `Classifier.ContractChangeIsBreaking` | src/sentinel/diff.py:94-105 | a changed non-null value at or below a key that begins with `required`, `requestBody` or `schema` makes the diff breaking |
| `Classifier.DeprecationIsReported` | src/sentinel/diff.py:94-110 | a `deprecated` key that becomes true makes the diff a deprecation of medium severity, unless something breaks |
| `RepositoryPaths.ValidPathsAreNormal` | src/sentinel/github_delivery.py:303-309 | every path that delivery accepts passes the validator unchanged |
| `RepositoryPaths.AcceptedPathsAreValid` | src/sentinel/repository.py:31-38 | an accepted path normalises to a form that delivery accepts and that is a fixed point, exactly if it does not begin with a backslash |
| `RepositoryPaths.RefusedIffOutside` | src/sentinel/repository.py:31-38 | a path is refused exactly if it is empty, absolute or has a NUL, or does not begin with a backslash and leads above the root at some point or ends at the root; an accepted one is the path of its resolved components |
| `RepositoryPaths.ParentCancels` | src/sentinel/repository.py:35 | a component followed by `..` resolves to nothing, wherever they stand |
| `RepositoryPaths.SameDirectoryIsSkipped` | src/sentinel/repository.py:35 | an empty component or `.` resolves to nothing, wherever it stands |
| `RepositoryPaths.DetoursCancel` | src/sentinel/repository.py:31-38 | relative paths that differ by such a detour are refused alike or name the same file |
| `RepositoryPaths.LeadingBackslashEscapes` | src/sentinel/repository.py:33-38 | every input that begins with a backslash and has no NUL is accepted and turned into an absolute path |
| `RepositoryPaths.RootedResult` | src/sentinel/repository.py:33-38 | what such an input turns into: two slashes if it begins with exactly two, else one, before the resolved components, among which no `..` is left |
| `PatchTool.RepositoryFiles.ApplyPatch` | src/sentinel/patch_tool.py:39-55 | which patches are accepted, on the text after newline translation; only the target file changes, to that text with one replacement |
| `PatchTool.ReadTextIsIdentityIff` | src/sentinel/patch_tool.py:47 | reading changes exactly the files with a carriage return |
| `PatchTool.ReadTextConcat` | src/sentinel/patch_tool.py:47 | text is read piece by piece, unless a carriage return and its newline are torn apart |
| `PatchTool.LineEnds` | src/sentinel/patch_tool.py:47 | each of the three line ends is read as a newline, and every other character as itself |
| `PatchTool.RestIsKeptIffNoReturn` | src/sentinel/patch_tool.py:47-55 | an accepted patch keeps everything around the match exactly if the file has no carriage return |
| `PatchTool.LineEndsAreRewritten` | src/sentinel/patch_tool.py:47-55 | a file whose line end is changed by a patch elsewhere, and whose own text is refused |
| `PatchTool.PatchReplacesTheMatch` | src/sentinel/patch_tool.py:50-54 | in the text that was read, prefix and suffix around the leftmost match are kept, with the length that follows, and every other occurrence overlaps the match |
| `PatchTool.UniqueIffNoOverlap` | src/sentinel/patch_tool.py:47-52 | a count of one can hide a second occurrence, in some file within the size limit, exactly for texts without carriage return that overlap themselves within that limit |
| `PatchTool.ReversePatchRestores` | src/sentinel/patch_tool.py:47-55 | a patch and its accepted reverse, whose text has no border, leave the text that was read, which is the file itself exactly if it had no carriage return |
| `Utf8Artifacts.FittingIsLongest` | src/sentinel/worker.py:68-69 | the number of characters kept is the largest that fits |
| `Utf8Artifacts.CutKeepsLongestPrefix` | src/sentinel/worker.py:68-69 | the output is the longest prefix of whole characters that fits, and one U+FFFD exactly if a character was cut in the middle |
| `Utf8Artifacts.CutIsBounded` | src/sentinel/worker.py:68-69 | at most n characters, and at most n + 2 bytes when encoded again |
| `Utf8Artifacts.UnchangedIffFits` | src/sentinel/worker.py:68-69 | exactly which outputs are unchanged |
| `Utf8Artifacts.DecodeUndoesEncode` | src/sentinel/worker.py:68-69 | decoding undoes the encoding of section 3 of RFC 3629 |
| `Utf8Artifacts.BoundedArtifact` | src/sentinel/worker.py:58-76 | refused exactly for a non-positive limit; both outputs are bounded and kept if they fit, and the status is failed exactly for a non-zero exit code |

## Left out

- SQL parsing, connection pools and MVCC: a statement is an atomic guarded update at one timestamp; `updated_at` and `completed_at` are not modelled, and job ids are ordered by code point.
- Fencing tokens do not exist in the source, so worker ids are assumed distinct and one `run_once` per id is active at a time; a crash and restart under the same id is covered.
- The content of audit events: an audit write only succeeds or raises.
- `complete_job`, `fail_job` and the `github_delivery` route of the API, which bypass the worker or the store; of `api.py` only the approval sequence is used.
- HTTP and JSON details of `github_delivery.py`, the page size of the pull request list, and `github_reconciliation.py`: a request is answered, refused or carried out without an answer.
- GitHub's rules for ref names, which refuse `..` and control characters: the provider of the model accepts any unused name, so the name check of the lookup appears as a condition.
- Hashing: a delivery key is identified with the seven fields it hashes, and a commit with its content.
- Other users of a repository leave the branches below `sentinel/remediation/` alone, and close or reopen pull requests from them but do not edit their title, body or base; everything else they may do. Those branches are unused in the beginning.
- ValidateRequest: does not model the separate error message of each field, because callers only see one exception class.
- `NaN` and float rounding in documents: JSON numbers are reals. Lower-casing is ASCII, which is where method names live.
- `posixpath.normpath` is a library function; its component stack is modelled from its documented behaviour.
- ApplyPatch: starts after the JSON argument was parsed and the path resolved by `_safe_path`, which depends on the file system; decoding errors of the file and platforms whose line separator is not a newline are left out.
- Strings with lone surrogates, which Python refuses to encode; Dafny's characters exclude them.
- Execute: does not say when a delivery succeeds although others act on its repository or its attempt between the calls; the success case asks that they do not, the other cases and the safety results hold for everything they may do.
- LLM adapter, tools and their policy, sandbox, verification engine, matcher, blast radius, webhooks, migrations, metrics, the worker service and its supervisor: mostly single checks or library behaviour, which would add easy members only.
