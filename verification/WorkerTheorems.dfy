/** The main results about every run of the job queue, its workers and its approvers. */
module WorkerTheorems {
  import opened Basics
  import opened Jobs
  import opened JobTable
  import opened WorkerProtocol
  import opened JobHistory
  import opened WorkerInvariant
  import opened WorkerPreservation
  import opened JobHistoryTheorems

  // ---- fencing ----

  /** Every history that any interleaving produces obeys the discipline. */
  lemma EveryHistoryIsDisciplined(steps: seq<Step>)
    ensures Disciplined(Run(Init, steps).log)
  {
    RunInv(steps);
  }

  /** At every instant a running row is either usable by its owner or reclaimable, never both. */
  lemma OwnerOrReclaim(steps: seq<Step>, j: JobId)
    requires j in Run(Init, steps).table && Run(Init, steps).table[j].status == Running
    ensures var s := Run(Init, steps);
            var row := s.table[j];
            && row.workerId.Some? && row.leaseUntil.Some? && row.availableAt <= s.now
            && (Owns(row, row.workerId.value, s.now) <==> !Claimable(row, s.now))
            && (forall w :: Owns(row, w, s.now) ==> w == row.workerId.value)
            && Holder(s.log, j) == Some(Lease(row.workerId.value, row.leaseUntil.value))
  {
    RunInv(steps);
    var s := Run(Init, steps);
    assert RowShape(j, s.table[j], s.now) && RowRecord(j, s.table[j], s.log);
  }

  // ---- durable and local state ----

  /** A worker that owns the row of its job knows exactly what is stored there. */
  lemma OwnerKnowsDurableJob(steps: seq<Step>, w: WorkerId)
    requires Run(Init, steps).PcOf(w).Working()
    ensures var s := Run(Init, steps);
            var pc := s.PcOf(w);
            var j := pc.Visible().jobId;
            j in s.table && (s.table[j].workerId == Some(w) ==> s.table[j].payload == pc.Durable())
  {
    RunInv(steps);
    var s := Run(Init, steps);
    assert PcInv(w, s.workers[w], s.table);
  }

  /**
    Whatever became of its owner, a running row holds what the owner itself last claimed or
    checkpointed, and nothing but renewals has happened to the row since.
   */
  lemma RunningRowHoldsOwnersLatest(steps: seq<Step>, j: JobId) returns (i: nat)
    requires j in Run(Init, steps).table && Run(Init, steps).table[j].status == Running
    ensures var s := Run(Init, steps);
            && i < |s.log| && s.log[i].job == j && (s.log[i].Claim? || s.log[i].Checkpoint?)
            && s.table[j].workerId == Some(s.log[i].worker) && s.table[j].payload == s.log[i].payload
            && forall k :: i < k < |s.log| && s.log[k].job == j ==> s.log[k].Renew?
  {
    RunInv(steps);
    var s := Run(Init, steps);
    assert RowShape(j, s.table[j], s.now) && RowRecord(j, s.table[j], s.log);
    assert s.log[..|s.log|] == s.log;
    i := HolderWroteContent(s.log, |s.log|, j);
  }

  lemma StagedIsNext(s: State, w: WorkerId)
    requires s.PcOf(w).Resuming? && Do(s, NextStage(w)).PcOf(w).Handling?
    ensures var current, staged := s.PcOf(w).current, Do(s, NextStage(w)).PcOf(w).staged;
            && staged == current.(status := staged.status)
            && Rank(staged.status) == Rank(current.status) + 1 && 0 <= Rank(current.status)
  {
    var Resuming(claimed, current) := s.PcOf(w);
    assert Do(s, NextStage(w)).PcOf(w) == ResumeFrom(claimed, current);
  }

  /** A handler gets the worker's local job advanced by one stage, for a job that is in the table. */
  lemma HandlerGetsNextStage(steps: seq<Step>, w: WorkerId)
    requires var s := Run(Init, steps);
             s.PcOf(w).Resuming? && Do(s, NextStage(w)).PcOf(w).Handling?
    ensures var s := Run(Init, steps);
            var current := s.PcOf(w).current;
            var staged := Do(s, NextStage(w)).PcOf(w).staged;
            && staged == current.(status := staged.status)
            && Rank(staged.status) == Rank(current.status) + 1 && 0 <= Rank(current.status)
            && staged.jobId in s.table && s.PcOf(w).claimed.jobId == staged.jobId
  {
    StagedIsNext(Run(Init, steps), w);
    assert Run(Init, steps).PcOf(w).claimed.jobId == Run(Init, steps).PcOf(w).current.jobId
           && Run(Init, steps).PcOf(w).current.jobId in Run(Init, steps).table by {
      OwnRow(Run(Init, steps), w) by { RunInv(steps); }
    }
  }

  /**
    Exactly when a handler that is about to start repeats a stage that was checkpointed since the last
    failure of the job: if the stored job, which `get` shows, is past the worker's local one.
   */
  lemma HandlerRepeatsIffBehind(steps: seq<Step>, w: WorkerId)
    requires var s := Run(Init, steps);
             s.PcOf(w).Resuming? && Do(s, NextStage(w)).PcOf(w).Handling?
    ensures var s := Run(Init, steps);
            var staged := Do(s, NextStage(w)).PcOf(w).staged;
            && staged.jobId in s.table
            && (SavedSinceFailure(s.log, staged.jobId, staged.status) <==>
                  Rank(s.PcOf(w).current.status) < Rank(s.table[staged.jobId].payload.status))
  {
    HandlerGetsNextStage(steps, w);
    var s := Run(Init, steps);
    var staged := Do(s, NextStage(w)).PcOf(w).staged;
    var j := staged.jobId;
    assert Disciplined(s.log) && Content(s.log, j) == Some(s.table[j].payload) by {
      RunInv(steps);
      assert RowRecord(j, s.table[j], s.log);
    }
    SavedIffUpToStage(s.log, j, staged.status);
  }

  /** While a worker owns its row its handlers get the stored job, and never repeat a saved stage. */
  lemma OwnerRunsFreshStage(steps: seq<Step>, w: WorkerId)
    requires var s := Run(Init, steps);
             s.PcOf(w).Resuming? && Do(s, NextStage(w)).PcOf(w).Handling?
    ensures var s := Run(Init, steps);
            var staged := Do(s, NextStage(w)).PcOf(w).staged;
            && staged.jobId in s.table
            && (s.table[staged.jobId].workerId == Some(w) ==>
                  && staged == s.table[staged.jobId].payload.(status := staged.status)
                  && !SavedSinceFailure(s.log, staged.jobId, staged.status))
  {
    HandlerGetsNextStage(steps, w);
    HandlerRepeatsIffBehind(steps, w);
    OwnerKnowsDurableJob(steps, w);
  }

  /** Some steps take `s` to `s'`. */
  ghost predicate Leads(s: State, s': State) {
    exists steps :: s' == Run(s, steps)
  }

  ghost predicate Reachable(s: State) {
    Leads(Init, s)
  }

  lemma LeadsStep(origin: State, s: State, step: Step)
    requires Leads(origin, s)
    ensures Leads(origin, Do(s, step))
  {
    var steps :| s == Run(origin, steps);
    assert (steps + [step])[..|steps + [step]| - 1] == steps;
    assert Do(s, step) == Run(origin, steps + [step]);
  }

  /** A claim when there is only one row. */
  lemma ClaimsOnlyJob(s: State, w: WorkerId, j: JobId, lease: int) returns (s': State)
    requires Reachable(s) && s.table.Keys == {j} && Claimable(s.table[j], s.now)
    requires !Blank(w) && LeaseInRange(lease) && s.PcOf(w).Idle?
    ensures Reachable(s') && s' == ClaimOf(s, w, j, lease, false)
  {
    assert j in Candidates(s.table, s.now, {});
    s' := Do(s, ClaimJob(w, lease, {}, false));
    LeadsStep(Init, s, ClaimJob(w, lease, {}, false));
  }

  /** What a handler may return for the next stage without being rejected. */
  predicate Acceptable(current: Job, result: Job) {
    && StageAfter(current.status) == Some(result.status) && result.SameIdentity(current)
    && (result.status == VerificationPending ==> result == current.(status := VerificationPending))
  }

  /** A handler runs and returns `result`. */
  lemma HandledOnce(origin: State, s: State, w: WorkerId, claimed: Job, current: Job, result: Job) returns (s': State)
    requires Leads(origin, s) && s.PcOf(w) == Resuming(claimed, current) && Acceptable(current, result)
    ensures Leads(origin, s') && s'.table == s.table && s'.now == s.now
    ensures s'.PcOf(w) == Persisting(claimed, current, result) && forall v :: v != w ==> s'.PcOf(v) == s.PcOf(v)
  {
    var s1 := Do(s, NextStage(w));
    LeadsStep(origin, s, NextStage(w));
    assert s1 == Goto(s, w, Handling(claimed, current, current.(status := result.status)));
    s' := Do(s1, HandlerReturns(w, result));
    LeadsStep(origin, s1, HandlerReturns(w, result));
    assert s' == Goto(s1, w, Persisting(claimed, current, result));
  }

  /** A worker that owns its row takes its job through one more stage. */
  lemma OneStage(origin: State, s: State, w: WorkerId, claimed: Job, current: Job, result: Job) returns (s': State)
    requires Leads(origin, s) && s.PcOf(w) == Resuming(claimed, current) && Acceptable(current, result)
    requires OwnedIn(s.table, current.jobId, w, s.now)
    ensures Leads(origin, s') && s'.PcOf(w) == Resuming(claimed, result) && OwnedIn(s'.table, current.jobId, w, s'.now)
    ensures s'.table[current.jobId].payload == result
    ensures forall v :: v != w ==> s'.PcOf(v) == s.PcOf(v)
  {
    var s1 := HandledOnce(origin, s, w, claimed, current, result);
    s' := Do(s1, SaveStage(w, false));
    LeadsStep(origin, s1, SaveStage(w, false));
  }

  /** One worker loses its lease before its first stage, another one takes over and runs that stage. */
  lemma Overtaken(s: State, v: WorkerId, w: WorkerId, job: Job) returns (s': State)
    requires Reachable(s) && v != w && !Blank(v) && !Blank(w) && s.PcOf(v).Idle? && s.PcOf(w).Idle?
    requires s.table.Keys == {job.jobId} && job.status == Queued
    requires s.table[job.jobId] == NewRow(job, s.now)
    ensures Reachable(s') && s'.PcOf(v) == Resuming(job, job)
    ensures job.jobId in s'.table && s'.table[job.jobId].payload == job.(status := ReadyForRemediation)
  {
    s' := ClaimsOnlyJob(s, v, job.jobId, 1);
    LeadsStep(Init, s', Tick(2.0));
    s' := ClaimsOnlyJob(Do(s', Tick(2.0)), w, job.jobId, 300);
    s' := OneStage(Init, s', w, job, job, job.(status := ReadyForRemediation));
  }

  /** A run with one queued job. */
  lemma OneJob() returns (s: State, job: Job)
    ensures Reachable(s) && s.table == map[job.jobId := NewRow(job, s.now)] && s.workers == map[]
    ensures job.status == Queued && job.patchDiff == None && !Blank("a") && !Blank("b")
  {
    assert !Blank("j") && !Blank("o") && !Blank("a") && !Blank("b") by {
      assert !IsSpace("j"[0]) && !IsSpace("o"[0]) && !IsSpace("a"[0]) && !IsSpace("b"[0]);
    }
    job := Job("j", "o", "o", "e", Queued, true, None, [], None, None);
    var create := CreateJob("j", Breaking, "e", "e", "o", "o", true);
    assert Init == Run(Init, []);
    LeadsStep(Init, Init, create);
    s := Do(Init, create);
  }

  /**
    Starting a handler is not fenced: a worker that was suspended after its claim, and lost the row to
    another worker, runs the first stage again although that stage is already checkpointed.
   */
  lemma StaleWorkerRepeatsStage() returns (s: State, w: WorkerId)
    ensures Reachable(s) && s.PcOf(w).Resuming? && Do(s, NextStage(w)).PcOf(w).Handling?
    ensures var staged := Do(s, NextStage(w)).PcOf(w).staged;
            && staged.jobId in s.table && s.table[staged.jobId].payload.status == staged.status
            && SavedSinceFailure(s.log, staged.jobId, staged.status)
  {
    var s0, job := OneJob();
    w := "a";
    s := Overtaken(s0, w, "b", job);
    var steps :| s == Run(Init, steps);
    HandlerRepeatsIffBehind(steps, w);
  }

  lemma OwnRow(s: State, w: WorkerId)
    requires Inv(s)
    ensures PcInv(w, s.PcOf(w), s.table)
  {
  }

  /** The step recorded an accepted failure of `j`. */
  predicate JustFailed(log: History, log': History, j: JobId) {
    |log'| == |log| + 1 && log'[|log|].Fail? && log'[|log|].job == j
  }

  /**
    What one step may do to an existing row: nothing; or, to a row that is not finished, move the
    durable stage up by one, leave it, or reset it by an accepted failure, never back to the gate.
   */
  predicate Moves(s: State, s': State, j: JobId) {
    && j in s.table && j in s'.table
    && var before, after := s.table[j], s'.table[j];
       || after == before
       || (&& before.status != DryRunComplete
           && after.status != AwaitingApproval
           && (|| after.payload.status == before.payload.status
               || Rank(after.payload.status) == Rank(before.payload.status) + 1
               || (JustFailed(s.log, s'.log, j) && after.payload.status == Queued)))
  }

  lemma CheckpointMoves(s: State, w: WorkerId, payload: Job, lost: bool, good: Pc, bad: Pc, j: JobId)
    requires j in s.table
    requires OwnedIn(s.table, payload.jobId, w, s.now) ==>
               Rank(payload.status) == Rank(s.table[payload.jobId].payload.status) + 1
    ensures Moves(s, DoCheckpoint(s, w, payload, lost, good, bad), j)
  {
  }

  /** The owner's next checkpoint is one stage above the stored one. */
  lemma NextCheckpointClimbs(s: State, w: WorkerId)
    requires Inv(s) && (s.PcOf(w).Persisting? || s.PcOf(w).Sealing?)
    ensures var next := if s.PcOf(w).Persisting? then s.PcOf(w).updated else s.PcOf(w).sealed;
            OwnedIn(s.table, next.jobId, w, s.now) ==>
              Rank(next.status) == Rank(s.table[next.jobId].payload.status) + 1
  {
    OwnRow(s, w);
  }

  lemma SaveStageMoves(s: State, w: WorkerId, lost: bool, j: JobId)
    requires Inv(s) && j in s.table
    ensures Moves(s, Do(s, SaveStage(w, lost)), j)
  {
    if s.PcOf(w).Persisting? {
      var Persisting(claimed, current, updated) := s.PcOf(w);
      CheckpointMoves(s, w, updated, lost, Resuming(claimed, updated), Failing(claimed, QueueRejected), j) by {
        NextCheckpointClimbs(s, w);
      }
    }
  }

  lemma SealMoves(s: State, w: WorkerId, lost: bool, j: JobId)
    requires Inv(s) && j in s.table
    ensures Moves(s, Do(s, Seal(w, lost)), j)
  {
    if s.PcOf(w).Sealing? {
      var Sealing(sealed) := s.PcOf(w);
      CheckpointMoves(s, w, sealed, lost, Completing(sealed), Failing(sealed, QueueRejected), j) by {
        NextCheckpointClimbs(s, w);
      }
    }
  }

  lemma FinishMoves(s: State, w: WorkerId, lost: bool, j: JobId)
    requires Inv(s) && j in s.table
    ensures Moves(s, Do(s, Finish(w, lost)), j)
  {
    OwnRow(s, w);
  }

  lemma RequeueMoves(s: State, w: WorkerId, j: JobId)
    requires j in s.table
    ensures Moves(s, Do(s, Requeue(w)), j)
  {
  }

  lemma ClaimMoves(s: State, w: WorkerId, lease: int, locked: set<JobId>, lost: bool, j: JobId)
    requires j in s.table
    ensures Moves(s, Do(s, ClaimJob(w, lease, locked, lost)), j)
  {
  }

  lemma ReleaseMoves(s: State, a: ApproverId, j: JobId)
    requires Inv(s) && j in s.table
    ensures Moves(s, Do(s, ReleaseJob(a)), j)
  {
    if a in s.approvers {
      assert ApprovalInv(s.approvers[a], s.table);
    }
  }

  lemma CreateMoves(s: State, id: JobId, change: ChangeType, event: string, report: string,
                    organization: TenantId, installation: TenantId, dryRun: bool, j: JobId)
    requires j in s.table
    ensures Moves(s, Do(s, CreateJob(id, change, event, report, organization, installation, dryRun)), j)
  {
  }

  lemma RenewMoves(s: State, w: WorkerId, k: JobId, lease: int, j: JobId)
    requires j in s.table
    ensures Moves(s, Do(s, RenewLease(w, k, lease)), j)
  {
  }

  /** The steps that leave the table alone. */
  predicate Silent(step: Step) {
    step.Tick? || step.NextStage? || step.HandlerReturns? || step.RaiseIn? || step.GiveUp? || step.Review?
  }

  lemma SilentSteps(s: State, step: Step)
    requires Silent(step)
    ensures Do(s, step).table == s.table && Do(s, step).log == s.log
  {
  }

  /** The statements by which a worker or an approver writes what it knows about the job. */
  predicate Informed(step: Step) {
    step.SaveStage? || step.Seal? || step.Finish? || step.ReleaseJob?
  }

  lemma InformedMoves(s: State, step: Step, j: JobId)
    requires Inv(s) && j in s.table && Informed(step)
    ensures Moves(s, Do(s, step), j)
  {
    match step
    case SaveStage(w, lost) => SaveStageMoves(s, w, lost, j);
    case Seal(w, lost) => SealMoves(s, w, lost, j);
    case Finish(w, lost) => FinishMoves(s, w, lost, j);
    case ReleaseJob(a) => ReleaseMoves(s, a, j);
  }

  lemma UninformedMoves(s: State, step: Step, j: JobId)
    requires j in s.table && !Informed(step)
    ensures Moves(s, Do(s, step), j)
  {
    match step
    case CreateJob(id, change, event, report, organization, installation, dryRun) =>
      CreateMoves(s, id, change, event, report, organization, installation, dryRun, j);
    case ClaimJob(w, lease, locked, lost) => ClaimMoves(s, w, lease, locked, lost, j);
    case RenewLease(w, k, lease) => RenewMoves(s, w, k, lease, j);
    case Requeue(w) => RequeueMoves(s, w, j);
    case _ => SilentSteps(s, step);
  }

  /** Every step moves every row within these bounds. */
  lemma StepMoves(s: State, step: Step, j: JobId)
    requires Inv(s) && j in s.table
    ensures Moves(s, Do(s, step), j)
  {
    if Informed(step) {
      InformedMoves(s, step, j);
    } else {
      UninformedMoves(s, step, j);
    }
  }

  ghost function After(steps: seq<Step>, more: seq<Step>): State {
    Run(Run(Init, steps), more)
  }

  lemma AfterInv(steps: seq<Step>, more: seq<Step>)
    ensures Inv(After(steps, more))
  {
    RunInv(steps);
    StepsInv(Run(Init, steps), more);
  }

  /** A step records at most one event, and forgets none. */
  lemma LogGrows(s: State, step: Step)
    ensures s.log <= Do(s, step).log && |Do(s, step).log| <= |s.log| + 1
  {
  }

  lemma FailuresGrow(log: History, log': History, j: JobId)
    requires log <= log' && |log'| <= |log| + 1
    ensures Tally(log', j, Failures) == Tally(log, j, Failures) + (if JustFailed(log, log', j) then 1 else 0)
  {
    if |log'| == |log| {
      assert log' == log;
    } else {
      assert log' == log + [log'[|log|]];
      Append(log, log'[|log|], j);
    }
  }

  /** Over any stretch of any run without an accepted failure of `j`, its durable stage never drops. */
  lemma {:induction false} StageNeverDrops(steps: seq<Step>, more: seq<Step>, j: JobId)
    requires j in Run(Init, steps).table
    ensures j in After(steps, more).table
    ensures Tally(Run(Init, steps).log, j, Failures) <= Tally(After(steps, more).log, j, Failures)
    ensures Tally(Run(Init, steps).log, j, Failures) == Tally(After(steps, more).log, j, Failures) ==>
              Rank(Run(Init, steps).table[j].payload.status) <= Rank(After(steps, more).table[j].payload.status)
  {
    if more != [] {
      var init, last := more[..|more| - 1], more[|more| - 1];
      AfterInv(steps, init);
      StageNeverDrops(steps, init, j);
      StepMoves(After(steps, init), last, j);
      LogGrows(After(steps, init), last);
      FailuresGrow(After(steps, init).log, After(steps, more).log, j);
    }
  }

  /** Equal except for the status. */
  predicate SameContent(a: Job, b: Job) {
    a == b.(status := a.status)
  }

  /** After an exception in the `try` block and an accepted `fail`. */
  function Failed(s: State, w: WorkerId): State {
    Do(Do(s, RaiseIn(w)), Requeue(w))
  }

  lemma FailedRow(s: State, w: WorkerId)
    requires s.PcOf(w).Working() && OwnedIn(s.table, s.PcOf(w).Visible().jobId, w, s.now)
    ensures var failed := s.PcOf(w).Visible();
            failed.jobId in Failed(s, w).table && Failed(s, w).table[failed.jobId].payload == failed.(status := Queued)
  {
    assert Do(s, RaiseIn(w)) == Goto(s, w, Failing(s.PcOf(w).Visible(), Raised));
  }

  /**
    An accepted failure inside `_resume` puts back the job as it was claimed. So it keeps the content
    that is stored exactly if the worker is past `_resume`, or has changed nothing but the status since
    its claim.
   */
  lemma FailureRestoresClaimedJob(steps: seq<Step>, w: WorkerId)
    requires var s := Run(Init, steps);
             s.PcOf(w).Working() && OwnedIn(s.table, s.PcOf(w).Visible().jobId, w, s.now)
    ensures var s := Run(Init, steps);
            var pc := s.PcOf(w);
            var j := pc.Visible().jobId;
            && j in Failed(s, w).table
            && (!pc.Sealing? && !pc.Completing? ==>
                  s.table[j].payload == pc.current && Failed(s, w).table[j].payload == pc.claimed.(status := Queued))
            && (SameContent(Failed(s, w).table[j].payload, s.table[j].payload) <==>
                  pc.Sealing? || pc.Completing? || SameContent(pc.claimed, pc.current))
  {
    OwnerKnowsDurableJob(steps, w);
    FailedRow(Run(Init, steps), w);
  }

  /** A checkpointed patch that a failure drops: the row had it, and has none afterwards. */
  lemma FailureDropsPatch(patch: string) returns (s: State, w: WorkerId, j: JobId)
    ensures Reachable(s) && s.PcOf(w).Resuming? && OwnedIn(s.table, j, w, s.now)
    ensures s.table[j].payload.patchDiff == Some(patch)
    ensures j in Failed(s, w).table && Failed(s, w).table[j].payload.patchDiff == None
  {
    var s0, job := OneJob();
    w, j := "a", job.jobId;
    var s1 := ClaimsOnlyJob(s0, w, j, 300);
    s := OneStage(Init, s1, w, job, job, job.(status := ReadyForRemediation, patchDiff := Some(patch)));
    FailedRow(s, w);
  }

  // ---- shape of rows ----

  lemma RowsAreWellFormed(steps: seq<Step>, j: JobId)
    requires j in Run(Init, steps).table
    ensures var row := Run(Init, steps).table[j];
            && (row.status == Running <==> row.workerId.Some?)
            && (row.status == Running <==> row.leaseUntil.Some?)
            && (row.status != Running ==> row.payload.status == row.status)
            && row.status in {Queued, AwaitingApproval, Running, DryRunComplete}
            && row.payload.status !in {FailedStatus, Running, Completed} && !row.payload.status.Other?
            && row.payload.jobId == j
            && row.payload.organizationId == row.organizationId
            && row.payload.installationId == row.installationId
  {
    RunInv(steps);
    var s := Run(Init, steps);
    assert RowShape(j, s.table[j], s.now);
  }

  /** `_resume` never meets a status that it does not support. */
  lemma UnsupportedStatusIsUnreachable(steps: seq<Step>, w: WorkerId)
    ensures var pc := Run(Init, steps).PcOf(w);
            pc.Failing? ==> pc.cause != Unsupported
  {
    RunInv(steps);
    OwnRow(Run(Init, steps), w);
  }

  // ---- conservation and completion ----

  /** Claims are paid for by completions, failures, takeovers and the tenure in progress. */
  lemma ClaimsAreConserved(steps: seq<Step>, j: JobId)
    requires j in Run(Init, steps).table
    ensures var s := Run(Init, steps);
            && s.table[j].attempts == Tally(s.log, j, Claims)
            && s.table[j].attempts == Tally(s.log, j, Completions) + Tally(s.log, j, Failures) + Tally(s.log, j, Reclaims)
                                      + (if s.table[j].status == Running then 1 else 0)
            && Tally(s.log, j, Completions) == (if s.table[j].status == DryRunComplete then 1 else 0)
  {
    RunInv(steps);
    var s := Run(Init, steps);
    assert RowRecord(j, s.table[j], s.log);
  }

  /** A finished row is final, and no row ever returns to the approval gate. */
  lemma {:induction false} FinishedRowsAreFinal(steps: seq<Step>, more: seq<Step>, j: JobId)
    requires j in Run(Init, steps).table
    ensures j in After(steps, more).table
    ensures Run(Init, steps).table[j].status == DryRunComplete ==> After(steps, more).table[j] == Run(Init, steps).table[j]
    ensures Run(Init, steps).table[j].status != AwaitingApproval ==> After(steps, more).table[j].status != AwaitingApproval
  {
    if more != [] {
      var init := more[..|more| - 1];
      FinishedRowsAreFinal(steps, init, j);
      AfterInv(steps, init);
      StepMoves(After(steps, init), more[|more| - 1], j);
    }
  }

  // ---- approval ----

  /** A release changes nothing in the payload but the status, whatever happened since the job was read. */
  lemma ReleaseChangesOnlyStatus(steps: seq<Step>, a: ApproverId)
    requires var s := Run(Init, steps);
             |Do(s, ReleaseJob(a)).log| > |s.log|
    ensures var s := Run(Init, steps);
            var s' := Do(s, ReleaseJob(a));
            && a in s.approvers
            && var j := s.approvers[a].jobId;
               && j in s.table && j in s'.table
               && s.table[j].status == AwaitingApproval
               && s'.table[j] == s.table[j].(status := Queued, availableAt := s.now,
                                  payload := s.table[j].payload.(status := Queued))
  {
    RunInv(steps);
    var s := Run(Init, steps);
    assert ApprovalInv(s.approvers[a], s.table);
    var j := s.approvers[a].jobId;
    assert RowShape(j, s.table[j], s.now);
  }

  // ---- recovery ----

  /** The rows a claim could take if no lease or delay stood in the way. */
  function Unfinished(t: Table): set<JobId> {
    set j | j in t && (t[j].status == Queued || t[j].status == Running)
  }

  /** The steps that set a lease or a delay: claims, renewals and requeues. */
  predicate Extends(step: Step) {
    step.ClaimJob? || step.RenewLease? || step.Requeue?
  }

  predicate NoneExtends(steps: seq<Step>) {
    forall i :: 0 <= i < |steps| ==> !Extends(steps[i])
  }

  /** No lease reaches beyond `limit`, and no delay beyond `limit` and `now`. */
  ghost predicate Limited(t: Table, limit: Time, now: Time) {
    forall j :: j in t ==> LimitedRow(t[j], limit, now)
  }

  predicate LimitedRow(row: Row, limit: Time, now: Time) {
    (row.leaseUntil.Some? ==> row.leaseUntil.value <= limit) && (row.availableAt <= limit || row.availableAt <= now)
  }

  lemma StepKeepsLimit(s: State, step: Step, limit: Time)
    requires !Extends(step) && Limited(s.table, limit, s.now)
    ensures Limited(Do(s, step).table, limit, Do(s, step).now)
  {
    if Silent(step) {
      SilentSteps(s, step);
      assert s.now <= Do(s, step).now;
    }
  }

  lemma {:induction false} StepsKeepLimit(s: State, more: seq<Step>, limit: Time)
    requires NoneExtends(more) && Limited(s.table, limit, s.now)
    ensures Limited(Run(s, more).table, limit, Run(s, more).now)
  {
    if more != [] {
      StepsKeepLimit(s, more[..|more| - 1], limit);
      StepKeepsLimit(Run(s, more[..|more| - 1]), more[|more| - 1], limit);
    }
  }

  /**
    Bounded recovery: whatever happened, and whatever else happens, once more than an hour has passed
    without a claim, a renewal or a requeue, the claimable rows are exactly the unfinished ones.
   */
  lemma EverythingIsClaimableAfterAnHour(steps: seq<Step>, more: seq<Step>)
    requires NoneExtends(more) && After(steps, more).now > Run(Init, steps).now + MAX_LEASE
    ensures var s := After(steps, more);
            Candidates(s.table, s.now, {}) == Unfinished(s.table)
  {
    var s0, s := Run(Init, steps), After(steps, more);
    assert Limited(s0.table, s0.now + MAX_LEASE, s0.now) by {
      RunInv(steps);
      assert forall j :: j in s0.table ==> RowShape(j, s0.table[j], s0.now);
    }
    StepsKeepLimit(s0, more, s0.now + MAX_LEASE);
    AfterInv(steps, more);
    assert forall j :: j in s.table ==> RowShape(j, s.table[j], s.now) && LimitedRow(s.table[j], s0.now + MAX_LEASE, s.now);
  }

  /** A claim by an idle worker takes the earliest candidate, and hands over its payload. */
  lemma ClaimTakesEarliest(s: State, w: WorkerId, lease: int, locked: set<JobId>)
    requires Inv(s) && !Blank(w) && LeaseInRange(lease) && s.PcOf(w).Idle?
    ensures var s' := Do(s, ClaimJob(w, lease, locked, false));
            var free := Candidates(s.table, s.now, locked);
            && (free == {} ==> s' == s)
            && (free != {} ==>
                  && s'.PcOf(w).Resuming?
                  && var j := s'.PcOf(w).claimed.jobId;
                     && Earliest(s.table, free, j)
                     && s'.table == s.table[j := ClaimRow(s.table[j], w, lease, s.now)]
                     && s'.PcOf(w).current == s.table[j].payload)
  {
    var next := NextJob(s.table, s.now, locked);
    if next.Some? {
      assert RowShape(next.value, s.table[next.value], s.now);
    }
  }

  /** And a claim then takes the oldest unlocked one, or none only if there is none. */
  lemma ClaimAfterAnHour(steps: seq<Step>, more: seq<Step>, w: WorkerId, lease: int, locked: set<JobId>)
    requires NoneExtends(more) && After(steps, more).now > Run(Init, steps).now + MAX_LEASE
    requires !Blank(w) && LeaseInRange(lease) && After(steps, more).PcOf(w).Idle?
    ensures var s := After(steps, more);
            var s' := Do(s, ClaimJob(w, lease, locked, false));
            var free := Unfinished(s.table) - locked;
            && (free == {} ==> s' == s)
            && (free != {} ==>
                  && s'.PcOf(w).Resuming?
                  && var j := s'.PcOf(w).claimed.jobId;
                     && j in free
                     && (forall k :: k in free ==> Before(s.table, j, k))
                     && s'.table == s.table[j := ClaimRow(s.table[j], w, lease, s.now)]
                     && s'.PcOf(w).current == s.table[j].payload)
  {
    var s := After(steps, more);
    EverythingIsClaimableAfterAnHour(steps, more);
    assert Candidates(s.table, s.now, locked) == Candidates(s.table, s.now, {}) - locked;
    ClaimTakesEarliest(s, w, lease, locked) by { AfterInv(steps, more); }
  }
}
