/** `PostgresJobQueue`: each method runs one guarded statement at one database timestamp `now`. */
module JobQueue {
  import opened Basics
  import opened Jobs
  import opened JobTable

  datatype QueueError =
    | JobIdRequired | WorkerRequired | IdentityRequired | LeaseOutOfRange | RetryOutOfRange
    | NotOwned | NotQueued | NotAwaiting | IdentityMismatch | StageNotCompleted | NotTerminal

  class PostgresJobQueue {
    var table: Table

    constructor ()
      ensures table == map[]
    {
      table := map[];
    }

    method Enqueue(job: Job, now: Time)
      modifies this
      ensures job.jobId in old(table) ==> table == old(table)
      ensures job.jobId !in old(table) ==>
                table == old(table)[job.jobId := Row(
                                      organizationId := job.organizationId, installationId := job.installationId,
                                      changeEventId := job.changeEventId, status := job.status, payload := job,
                                      attempts := 0, workerId := None, leaseUntil := None,
                                      availableAt := now, createdAt := now)]
    {
      if job.jobId !in table {
        table := table[job.jobId := NewRow(job, now)];
      }
    }

    method Get(jobId: JobId) returns (r: Result<Option<Job>, QueueError>)
      ensures r == if Blank(jobId) then Err(JobIdRequired)
                   else if jobId in table then Ok(Some(table[jobId].payload))
                   else Ok(None)
    {
      if Blank(jobId) {
        return Err(JobIdRequired);
      }
      r := Ok(if jobId in table then Some(table[jobId].payload) else None);
    }

    /** Claims the earliest claimable row that no concurrent transaction has locked. */
    method Claim(workerId: WorkerId, leaseSeconds: int, now: Time, locked: set<JobId>)
      returns (r: Result<Option<Job>, QueueError>)
      modifies this
      ensures r.Ok? <==> !Blank(workerId) && 1 <= leaseSeconds <= 3600
      ensures r.Err? ==> table == old(table)
      ensures r.Ok? ==>
                var next := NextJob(old(table), now, locked);
                && (next.None? ==> r.value.None? && table == old(table))
                && (next.Some? ==>
                      && r.value == Some(old(table)[next.value].payload)
                      && table == old(table)[next.value := old(table)[next.value].(
                                               status := Running, workerId := Some(workerId),
                                               attempts := old(table)[next.value].attempts + 1,
                                               leaseUntil := Some(now + leaseSeconds as real))])
    {
      if Blank(workerId) {
        return Err(WorkerRequired);
      }
      if !LeaseInRange(leaseSeconds) {
        return Err(LeaseOutOfRange);
      }
      var next := NextJob(table, now, locked);
      if next.None? {
        return Ok(None);
      }
      var j := next.value;
      r := Ok(Some(table[j].payload));
      table := table[j := ClaimRow(table[j], workerId, leaseSeconds, now)];
    }

    method RenewLease(jobId: JobId, workerId: WorkerId, leaseSeconds: int, now: Time)
      returns (r: Result<(), QueueError>)
      modifies this
      ensures r.Ok? <==>
              && !Blank(jobId) && !Blank(workerId) && 1 <= leaseSeconds <= 3600
              && jobId in old(table) && old(table)[jobId].status == Running && old(table)[jobId].workerId == Some(workerId)
              && old(table)[jobId].leaseUntil.Some? && now <= old(table)[jobId].leaseUntil.value
      ensures r.Ok? ==>
                && jobId in old(table)
                && table == old(table)[jobId := old(table)[jobId].(leaseUntil := Some(now + leaseSeconds as real))]
      ensures r.Err? ==> table == old(table)
    {
      if Blank(jobId) || Blank(workerId) {
        return Err(IdentityRequired);
      }
      if !LeaseInRange(leaseSeconds) {
        return Err(LeaseOutOfRange);
      }
      if !OwnedIn(table, jobId, workerId, now) {
        return Err(NotOwned);
      }
      table := table[jobId := RenewRow(table[jobId], leaseSeconds, now)];
      r := Ok(());
    }

    method ReleaseApproval(job: Job, now: Time) returns (r: Result<(), QueueError>)
      modifies this
      ensures r.Ok? <==>
              && job.status == Queued && job.jobId in old(table) && old(table)[job.jobId].status == AwaitingApproval
              && old(table)[job.jobId].organizationId == job.organizationId
              && old(table)[job.jobId].installationId == job.installationId
      ensures r.Ok? ==>
                && job.jobId in old(table)
                && table == old(table)[job.jobId := old(table)[job.jobId].(
                                         status := Queued, payload := job, workerId := None, leaseUntil := None,
                                         availableAt := now)]
      ensures r.Err? ==> table == old(table)
    {
      if job.status != Queued {
        return Err(NotQueued);
      }
      if job.jobId !in table || !Releasable(table[job.jobId], job) {
        return Err(NotAwaiting);
      }
      table := table[job.jobId := ReleaseRow(table[job.jobId], job, now)];
      r := Ok(());
    }

    method Checkpoint(jobId: JobId, workerId: WorkerId, payload: Job, now: Time)
      returns (r: Result<(), QueueError>)
      modifies this
      ensures r.Ok? <==>
              && !Blank(jobId) && !Blank(workerId) && payload.jobId == jobId
              && payload.status !in {Queued, Running, FailedStatus, AwaitingApproval}
              && jobId in old(table) && old(table)[jobId].status == Running && old(table)[jobId].workerId == Some(workerId)
              && old(table)[jobId].leaseUntil.Some? && now <= old(table)[jobId].leaseUntil.value
      ensures r.Ok? ==> jobId in old(table) && table == old(table)[jobId := old(table)[jobId].(payload := payload)]
      ensures r.Err? ==> table == old(table)
    {
      if Blank(jobId) || Blank(workerId) {
        return Err(IdentityRequired);
      }
      if payload.jobId != jobId {
        return Err(IdentityMismatch);
      }
      if !CheckpointStatus(payload.status) {
        return Err(StageNotCompleted);
      }
      if !OwnedIn(table, jobId, workerId, now) {
        return Err(NotOwned);
      }
      table := table[jobId := CheckpointRow(table[jobId], payload)];
      r := Ok(());
    }

    method Complete(jobId: JobId, workerId: WorkerId, payload: Job, now: Time)
      returns (r: Result<(), QueueError>)
      modifies this
      ensures r.Ok? <==>
              && !Blank(jobId) && !Blank(workerId) && payload.jobId == jobId
              && payload.status in {DryRunComplete, Completed}
              && jobId in old(table) && old(table)[jobId].status == Running && old(table)[jobId].workerId == Some(workerId)
              && old(table)[jobId].leaseUntil.Some? && now <= old(table)[jobId].leaseUntil.value
      ensures r.Ok? ==>
                && jobId in old(table)
                && table == old(table)[jobId := old(table)[jobId].(
                                         status := payload.status, payload := payload, workerId := None, leaseUntil := None)]
      ensures r.Err? ==> table == old(table)
    {
      if payload.jobId != jobId {
        return Err(IdentityMismatch);
      }
      if !CompletionStatus(payload.status) {
        return Err(NotTerminal);
      }
      if Blank(jobId) || Blank(workerId) {
        return Err(IdentityRequired);
      }
      if !OwnedIn(table, jobId, workerId, now) {
        return Err(NotOwned);
      }
      table := table[jobId := CompleteRow(table[jobId], payload)];
      r := Ok(());
    }

    method Fail(jobId: JobId, workerId: WorkerId, payload: Job, retryAfter: int, now: Time)
      returns (r: Result<(), QueueError>)
      modifies this
      ensures r.Ok? <==>
              && !Blank(jobId) && !Blank(workerId) && payload.jobId == jobId && 0 <= retryAfter <= 3600
              && jobId in old(table) && old(table)[jobId].status == Running && old(table)[jobId].workerId == Some(workerId)
              && old(table)[jobId].leaseUntil.Some? && now <= old(table)[jobId].leaseUntil.value
      ensures r.Ok? ==>
                && jobId in old(table)
                && table == old(table)[jobId := old(table)[jobId].(
                                         status := Queued, payload := payload, workerId := None, leaseUntil := None,
                                         availableAt := now + retryAfter as real)]
      ensures r.Err? ==> table == old(table)
    {
      if payload.jobId != jobId {
        return Err(IdentityMismatch);
      }
      if !(0 <= retryAfter <= 3600) {
        return Err(RetryOutOfRange);
      }
      if Blank(jobId) || Blank(workerId) {
        return Err(IdentityRequired);
      }
      if !OwnedIn(table, jobId, workerId, now) {
        return Err(NotOwned);
      }
      table := table[jobId := FailRow(table[jobId], payload, retryAfter, now)];
      r := Ok(());
    }
  }
}
