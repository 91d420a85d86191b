/** Every step of every actor keeps the invariant. */
module WorkerPreservation {
  import opened Basics
  import opened Jobs
  import opened JobTable
  import opened WorkerProtocol
  import opened JobHistory
  import opened WorkerInvariant

  lemma InitInv()
    ensures Inv(Init)
  {
  }

  lemma TickInv(s: State, dt: Time)
    requires Inv(s)
    ensures Inv(Do(s, Tick(dt)))
  {
  }

  lemma CreateRecord(job: Job, now: Time, h: History)
    requires NoRecord(job.jobId, h) && !Blank(job.jobId)
    requires job.status == Queued || job.status == AwaitingApproval
    ensures var e := Enqueue(job.jobId, now, job);
            && Admissible(h, e)
            && RowShape(job.jobId, NewRow(job, now), now)
            && RowRecord(job.jobId, NewRow(job, now), h + [e])
  {
    Append(h, Enqueue(job.jobId, now, job), job.jobId);
  }

  /** A new row concerns no worker and no approver. */
  lemma FreshRowOthers(s: State, j: JobId, row: Row)
    requires Inv(s) && j !in s.table
    ensures WorkersInv(s.workers, s.table[j := row]) && ApproversInv(s.approvers, s.table[j := row])
  {
    forall w | w in s.workers
      ensures PcInv(w, s.workers[w], s.table[j := row])
    {
      assert PcInv(w, s.workers[w], s.table);
    }
  }

  lemma CreateInv(s: State, id: JobId, change: ChangeType, event: string, report: string,
                  organization: TenantId, installation: TenantId, dryRun: bool)
    requires Inv(s)
    ensures Inv(DoCreate(s, id, change, event, report, organization, installation, dryRun))
  {
    var r := CreateRemediationJob(id, change, event, report, organization, installation, dryRun);
    if !Blank(id) && r.Ok? && id !in s.table {
      CreateRecord(r.value, s.now, s.log);
      WriteTable(s, id, NewRow(r.value, s.now), Enqueue(id, s.now, r.value));
      FreshRowOthers(s, id, NewRow(r.value, s.now));
    }
  }

  /** Event `e` may turn row `j` into `row`. */
  ghost predicate Permitted(s: State, j: JobId, row: Row, e: Event) {
    && e.job == j && e.at == s.now && Admissible(s.log, e)
    && RowShape(j, row, s.now) && RowRecord(j, row, s.log + [e]) && row.status != AwaitingApproval
  }

  /** Row `j` changes in a way that no worker has to notice. */
  lemma QuietInv(s: State, j: JobId, row: Row, e: Event)
    requires Inv(s) && j in s.table && Permitted(s, j, row, e) && Fenced(s.table[j], row, None)
    ensures Inv(Write(s, j, row, e))
  {
    WriteTable(s, j, row, e);
    WriteOthers(s, j, row, None);
  }

  /** `w` itself writes row `j` and moves to `pc`. */
  lemma ActInv(s: State, w: WorkerId, j: JobId, row: Row, e: Event, pc: Pc)
    requires Inv(s) && j in s.table && !Blank(w) && Permitted(s, j, row, e) && Fenced(s.table[j], row, Some(w))
    requires PcInv(w, pc, s.table[j := row])
    ensures Inv(Goto(Write(s, j, row, e), w, pc))
  {
    WriteTable(s, j, row, e);
    WriteOthers(s, j, row, Some(w));
  }

  lemma ClaimRecord(j: JobId, row: Row, w: WorkerId, lease: int, now: Time, h: History)
    requires RowShape(j, row, now) && RowRecord(j, row, h) && Claimable(row, now) && LeaseInRange(lease)
    ensures var e := Claim(j, now, w, now + lease as real, row.status == Running, row.payload);
            && Admissible(h, e)
            && RowShape(j, ClaimRow(row, w, lease, now), now)
            && RowRecord(j, ClaimRow(row, w, lease, now), h + [e])
  {
    Append(h, Claim(j, now, w, now + lease as real, row.status == Running, row.payload), j);
  }

  /** A worker that claimed a row knows what is in it. */
  lemma ClaimedShape(t: Table, w: WorkerId, j: JobId, lease: int, now: Time)
    requires j in t && RowShape(j, t[j], now) && Claimable(t[j], now) && !Blank(w)
    ensures PcInv(w, Resuming(Adopt(t[j].payload), Adopt(t[j].payload)), t[j := ClaimRow(t[j], w, lease, now)])
  {
    assert Adopt(t[j].payload) == t[j].payload;
  }

  lemma ClaimPermitted(s: State, w: WorkerId, j: JobId, lease: int)
    requires TableInv(s.table, s.now, s.log) && j in s.table && Claimable(s.table[j], s.now) && LeaseInRange(lease)
    ensures Permitted(s, j, ClaimRow(s.table[j], w, lease, s.now),
                      Claim(j, s.now, w, s.now + lease as real, s.table[j].status == Running, s.table[j].payload))
    ensures Fenced(s.table[j], ClaimRow(s.table[j], w, lease, s.now), Some(w))
  {
    ClaimRecord(j, s.table[j], w, lease, s.now, s.log);
  }

  lemma ClaimOfInv(s: State, w: WorkerId, j: JobId, lease: int, lost: bool)
    requires Inv(s) && j in s.table && Claimable(s.table[j], s.now) && LeaseInRange(lease)
    requires !Blank(w) && s.PcOf(w).Idle?
    ensures Inv(ClaimOf(s, w, j, lease, lost))
  {
    var row := s.table[j];
    var pc := if lost then Idle else Resuming(Adopt(row.payload), Adopt(row.payload));
    var row' := ClaimRow(row, w, lease, s.now);
    var e := Claim(j, s.now, w, s.now + lease as real, row.status == Running, row.payload);
    assert ClaimOf(s, w, j, lease, lost) == Goto(Write(s, j, row', e), w, pc);
    assert Inv(Goto(Write(s, j, row', e), w, pc)) by {
      ClaimPermitted(s, w, j, lease);
      ClaimedShape(s.table, w, j, lease, s.now);
      ActInv(s, w, j, row', e, pc);
    }
  }

  lemma ClaimInv(s: State, w: WorkerId, lease: int, locked: set<JobId>, lost: bool)
    requires Inv(s)
    ensures Inv(DoClaim(s, w, lease, locked, lost))
  {
    var next := NextJob(s.table, s.now, locked);
    if !Blank(w) && LeaseInRange(lease) && s.PcOf(w).Idle? && next.Some? {
      ClaimOfInv(s, w, next.value, lease, lost);
    }
  }

  lemma RenewRecord(j: JobId, row: Row, w: WorkerId, lease: int, now: Time, h: History)
    requires RowShape(j, row, now) && RowRecord(j, row, h) && Owns(row, w, now) && LeaseInRange(lease)
    ensures var e := Renew(j, now, w, now + lease as real);
            && Admissible(h, e)
            && RowShape(j, RenewRow(row, lease, now), now)
            && RowRecord(j, RenewRow(row, lease, now), h + [e])
  {
    Append(h, Renew(j, now, w, now + lease as real), j);
  }

  lemma RenewPermitted(s: State, w: WorkerId, j: JobId, lease: int)
    requires TableInv(s.table, s.now, s.log) && OwnedIn(s.table, j, w, s.now) && LeaseInRange(lease)
    ensures Permitted(s, j, RenewRow(s.table[j], lease, s.now), Renew(j, s.now, w, s.now + lease as real))
    ensures Fenced(s.table[j], RenewRow(s.table[j], lease, s.now), None)
  {
    RenewRecord(j, s.table[j], w, lease, s.now, s.log);
  }

  lemma RenewInv(s: State, w: WorkerId, j: JobId, lease: int)
    requires Inv(s)
    ensures Inv(DoRenew(s, w, j, lease))
  {
    if !Blank(w) && LeaseInRange(lease) && OwnedIn(s.table, j, w, s.now) {
      var row, e := RenewRow(s.table[j], lease, s.now), Renew(j, s.now, w, s.now + lease as real);
      assert DoRenew(s, w, j, lease) == Write(s, j, row, e);
      assert Inv(Write(s, j, row, e)) by {
        RenewPermitted(s, w, j, lease);
        QuietInv(s, j, row, e);
      }
    }
  }

  /** `w` moves on without touching the table. */
  lemma GotoInv(s: State, w: WorkerId, pc: Pc)
    requires Inv(s) && PcInv(w, pc, s.table)
    ensures Inv(Goto(s, w, pc))
  {
  }

  lemma ResumeFromShape(w: WorkerId, claimed: Job, current: Job, t: Table)
    requires PcInv(w, Resuming(claimed, current), t)
    ensures PcInv(w, ResumeFrom(claimed, current), t)
  {
  }

  lemma NextStageInv(s: State, w: WorkerId)
    requires Inv(s)
    ensures Inv(DoNextStage(s, w))
  {
    if s.PcOf(w).Resuming? {
      var Resuming(claimed, current) := s.PcOf(w);
      ResumeFromShape(w, claimed, current, s.table);
      GotoInv(s, w, ResumeFrom(claimed, current));
    }
  }

  lemma AfterHandlerShape(w: WorkerId, claimed: Job, current: Job, staged: Job, result: Job, t: Table)
    requires PcInv(w, Handling(claimed, current, staged), t)
    ensures PcInv(w, AfterHandler(claimed, current, staged, result), t)
  {
  }

  lemma HandlerInv(s: State, w: WorkerId, result: Job)
    requires Inv(s)
    ensures Inv(DoHandler(s, w, result))
  {
    if s.PcOf(w).Handling? {
      var Handling(claimed, current, staged) := s.PcOf(w);
      AfterHandlerShape(w, claimed, current, staged, result, s.table);
      GotoInv(s, w, AfterHandler(claimed, current, staged, result));
    }
  }

  lemma CheckpointRecord(j: JobId, row: Row, w: WorkerId, payload: Job, now: Time, h: History)
    requires RowShape(j, row, now) && RowRecord(j, row, h) && Owns(row, w, now)
    requires Fits(payload, j, row) && Rank(payload.status) == Rank(row.payload.status) + 1
    ensures var e := Checkpoint(j, now, w, payload);
            && Admissible(h, e)
            && RowShape(j, CheckpointRow(row, payload), now)
            && RowRecord(j, CheckpointRow(row, payload), h + [e])
  {
    Append(h, Checkpoint(j, now, w, payload), j);
  }

  /** A checkpoint by a worker whose next durable job is `payload`. */
  lemma CheckpointInv(s: State, w: WorkerId, j: JobId, payload: Job, lost: bool, good: Pc, bad: Pc)
    requires Inv(s) && OwnedIn(s.table, j, w, s.now) && !Blank(w) && Fits(payload, j, s.table[j])
    requires Rank(payload.status) == Rank(s.table[j].payload.status) + 1
    requires good.Working() && good.Durable() == payload && good.Visible().jobId == j
    requires bad.Failing? && bad.failed.jobId == j
    requires LocalShape(good, j, s.table[j]) && LocalShape(bad, j, s.table[j])
    ensures Inv(DoCheckpoint(s, w, payload, lost, good, bad))
  {
    CheckpointRecord(j, s.table[j], w, payload, s.now, s.log);
    ActInv(s, w, j, CheckpointRow(s.table[j], payload), Checkpoint(j, s.now, w, payload),
           if lost then bad else good);
  }

  lemma SaveStageInv(s: State, w: WorkerId, lost: bool)
    requires Inv(s)
    ensures Inv(DoSaveStage(s, w, lost))
  {
    if s.PcOf(w).Persisting? {
      var Persisting(claimed, current, updated) := s.PcOf(w);
      assert PcInv(w, s.workers[w], s.table);
      if OwnedIn(s.table, updated.jobId, w, s.now) {
        CheckpointInv(s, w, updated.jobId, updated, lost, Resuming(claimed, updated), Failing(claimed, QueueRejected));
      } else {
        GotoInv(s, w, Failing(claimed, QueueRejected));
      }
    }
  }

  lemma SealInv(s: State, w: WorkerId, lost: bool)
    requires Inv(s)
    ensures Inv(DoSeal(s, w, lost))
  {
    if s.PcOf(w).Sealing? {
      var Sealing(sealed) := s.PcOf(w);
      assert PcInv(w, s.workers[w], s.table);
      if OwnedIn(s.table, sealed.jobId, w, s.now) {
        CheckpointInv(s, w, sealed.jobId, sealed, lost, Completing(sealed), Failing(sealed, QueueRejected));
      } else {
        GotoInv(s, w, Failing(sealed, QueueRejected));
      }
    }
  }

  lemma CompleteRecord(j: JobId, row: Row, w: WorkerId, now: Time, h: History)
    requires RowShape(j, row, now) && RowRecord(j, row, h) && Owns(row, w, now)
    requires row.payload.status == DryRunComplete
    ensures var e := Complete(j, now, w, row.payload);
            && Admissible(h, e)
            && RowShape(j, CompleteRow(row, row.payload), now)
            && RowRecord(j, CompleteRow(row, row.payload), h + [e])
  {
    Append(h, Complete(j, now, w, row.payload), j);
  }

  lemma FinishInv(s: State, w: WorkerId, lost: bool)
    requires Inv(s)
    ensures Inv(DoFinish(s, w, lost))
  {
    if s.PcOf(w).Completing? {
      var Completing(sealed) := s.PcOf(w);
      var j := sealed.jobId;
      assert PcInv(w, s.workers[w], s.table);
      if OwnedIn(s.table, j, w, s.now) {
        CompleteRecord(j, s.table[j], w, s.now, s.log);
        ActInv(s, w, j, CompleteRow(s.table[j], sealed), Complete(j, s.now, w, sealed),
               if lost then Failing(sealed, QueueRejected) else Idle);
      } else {
        GotoInv(s, w, Failing(sealed, QueueRejected));
      }
    }
  }

  lemma RaiseInv(s: State, w: WorkerId)
    requires Inv(s)
    ensures Inv(DoRaise(s, w))
  {
    if s.PcOf(w).Working() {
      assert PcInv(w, s.workers[w], s.table);
    }
  }

  lemma FailRecord(j: JobId, row: Row, w: WorkerId, payload: Job, now: Time, h: History)
    requires RowShape(j, row, now) && RowRecord(j, row, h) && Owns(row, w, now)
    requires Fits(payload, j, row) && payload.status == Queued
    ensures var e := Fail(j, now, w, payload);
            && Admissible(h, e)
            && RowShape(j, FailRow(row, payload, RETRY_SECONDS, now), now)
            && RowRecord(j, FailRow(row, payload, RETRY_SECONDS, now), h + [e])
  {
    Append(h, Fail(j, now, w, payload), j);
  }

  lemma RequeueInv(s: State, w: WorkerId)
    requires Inv(s)
    ensures Inv(DoRequeue(s, w))
  {
    if s.PcOf(w).Failing? {
      var Failing(failed, _) := s.PcOf(w);
      var j := failed.jobId;
      assert PcInv(w, s.workers[w], s.table);
      if OwnedIn(s.table, j, w, s.now) {
        FailRecord(j, s.table[j], w, failed.(status := Queued), s.now, s.log);
        ActInv(s, w, j, FailRow(s.table[j], failed.(status := Queued), RETRY_SECONDS, s.now), Fail(j, s.now, w, failed.(status := Queued)), Idle);
      } else {
        GotoInv(s, w, Idle);
      }
    }
  }

  lemma ReviewInv(s: State, a: ApproverId, j: JobId, who: string, at: Time, zoned: bool)
    requires Inv(s)
    ensures Inv(DoReview(s, a, j, who, at, zoned))
  {
    if !Blank(j) && j in s.table {
      assert RowShape(j, s.table[j], s.now);
    }
  }

  lemma ReleaseRecord(j: JobId, row: Row, job: Job, now: Time, h: History)
    requires RowShape(j, row, now) && RowRecord(j, row, h) && Releasable(row, job)
    requires Fits(job, j, row) && job.status == Queued
    ensures Admissible(h, Release(j, now, job))
    ensures RowShape(j, ReleaseRow(row, job, now), now) && RowRecord(j, ReleaseRow(row, job, now), h + [Release(j, now, job)])
  {
    Append(h, Release(j, now, job), j);
  }

  lemma ReleaseInv(s: State, a: ApproverId)
    requires Inv(s)
    ensures Inv(DoRelease(s, a))
  {
    if a in s.approvers {
      var job := s.approvers[a];
      var j := job.jobId;
      var rest := s.(approvers := s.approvers - {a});
      assert ApprovalInv(job, s.table);
      if Releasable(s.table[j], job) {
        ReleaseRecord(j, s.table[j], job, s.now, s.log);
        QuietInv(rest, j, ReleaseRow(s.table[j], job, s.now), Release(j, s.now, job));
        assert DoRelease(s, a) == Write(rest, j, ReleaseRow(s.table[j], job, s.now), Release(j, s.now, job));
      }
    }
  }

  lemma StepInv(s: State, step: Step)
    requires Inv(s)
    ensures Inv(Do(s, step))
  {
    match step
    case Tick(dt) => TickInv(s, dt);
    case CreateJob(id, change, event, report, organization, installation, dryRun) =>
      CreateInv(s, id, change, event, report, organization, installation, dryRun);
    case ClaimJob(w, lease, locked, lost) => ClaimInv(s, w, lease, locked, lost);
    case RenewLease(w, j, lease) => RenewInv(s, w, j, lease);
    case NextStage(w) => NextStageInv(s, w);
    case HandlerReturns(w, result) => HandlerInv(s, w, result);
    case SaveStage(w, lost) => SaveStageInv(s, w, lost);
    case Seal(w, lost) => SealInv(s, w, lost);
    case Finish(w, lost) => FinishInv(s, w, lost);
    case RaiseIn(w) => RaiseInv(s, w);
    case Requeue(w) => RequeueInv(s, w);
    case GiveUp(w) =>
    case Review(a, j, who, at, zoned) => ReviewInv(s, a, j, who, at, zoned);
    case ReleaseJob(a) => ReleaseInv(s, a);
  }

  /** Steps that start where the invariant holds keep it. */
  lemma {:induction false} StepsInv(s: State, steps: seq<Step>)
    requires Inv(s)
    ensures Inv(Run(s, steps))
  {
    if steps != [] {
      StepsInv(s, steps[..|steps| - 1]);
      StepInv(Run(s, steps[..|steps| - 1]), steps[|steps| - 1]);
    }
  }

  /** The invariant holds after every run. */
  lemma RunInv(steps: seq<Step>)
    ensures Inv(Run(Init, steps))
  {
    InitInv();
    StepsInv(Init, steps);
  }
}
