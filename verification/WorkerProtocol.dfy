/**
  The queue, its workers and its approvers as one state machine. Every choice that the environment
  makes (scheduling, time, row locks, handler results, lost replies, crashes) is an argument of a
  `Step`, so a run is a sequence of steps and a statement about all sequences is about all interleavings.
 */
module WorkerProtocol {
  import opened Basics
  import opened Jobs
  import opened JobTable

  type ApproverId = string

  // ---- what the table went through ----

  /** One event per statement that changed a row, with the payload that the row holds then. */
  datatype Event =
    | Enqueue(job: JobId, at: Time, payload: Job)
    | Claim(job: JobId, at: Time, worker: WorkerId, until: Time, reclaimed: bool, payload: Job)
    | Renew(job: JobId, at: Time, worker: WorkerId, until: Time)
    | Checkpoint(job: JobId, at: Time, worker: WorkerId, payload: Job)
    | Complete(job: JobId, at: Time, worker: WorkerId, payload: Job)
    | Fail(job: JobId, at: Time, worker: WorkerId, payload: Job)
    | Release(job: JobId, at: Time, payload: Job)

  type History = seq<Event>

  // ---- one worker inside `run_once` ----

  datatype Cause = Unsupported | StageRejected | Raised | QueueRejected

  datatype Pc =
    | Idle
      // in `_resume`: `current` is its local job, `claimed` is still `current` of `run_once`
    | Resuming(claimed: Job, current: Job)
      // in `_run_stage`: the handler is running on `staged`
    | Handling(claimed: Job, current: Job, staged: Job)
      // in `_run_stage`: the handler returned `updated`, which passed the three checks
    | Persisting(claimed: Job, current: Job, updated: Job)
      // `current` of `run_once` is already dry-run-complete, its checkpoint comes next
    | Sealing(sealed: Job)
    | Completing(sealed: Job)
      // in the `except` branch with `current` of `run_once`
    | Failing(failed: Job, cause: Cause)
  {
    /** The worker still believes that it is making progress. */
    predicate Working() {
      !Idle? && !Failing?
    }

    /** What the worker last claimed or checkpointed. */
    function Durable(): Job
      requires Working()
    {
      match this
      case Resuming(_, current) => current
      case Handling(_, current, _) => current
      case Persisting(_, current, _) => current
      case Sealing(sealed) => sealed.(status := Verified)
      case Completing(sealed) => sealed
    }

    /** `current` of `run_once`, which the `except` branch sees. */
    function Visible(): Job
      requires !Idle?
    {
      match this
      case Resuming(claimed, _) => claimed
      case Handling(claimed, _, _) => claimed
      case Persisting(claimed, _, _) => claimed
      case Sealing(sealed) => sealed
      case Completing(sealed) => sealed
      case Failing(failed, _) => failed
    }
  }

  datatype State = State(
    now: Time,
    table: Table,
    workers: map<WorkerId, Pc>,
    approvers: map<ApproverId, Job>,   // approved copies that are about to be released
    log: History)
  {
    function PcOf(w: WorkerId): Pc {
      if w in workers then workers[w] else Idle
    }
  }

  const Init := State(0.0, map[], map[], map[], [])

  datatype Step =
    | Tick(dt: Time)
    | CreateJob(id: JobId, change: ChangeType, event: string, report: string,
                organization: TenantId, installation: TenantId, dryRun: bool)
    | ClaimJob(w: WorkerId, lease: int, locked: set<JobId>, lost: bool)
    | RenewLease(w: WorkerId, job: JobId, lease: int)
    | NextStage(w: WorkerId)
    | HandlerReturns(w: WorkerId, result: Job)
    | SaveStage(w: WorkerId, lost: bool)
    | Seal(w: WorkerId, lost: bool)
    | Finish(w: WorkerId, lost: bool)
    | RaiseIn(w: WorkerId)
    | Requeue(w: WorkerId)
    | GiveUp(w: WorkerId)
    | Review(a: ApproverId, job: JobId, who: string, at: Time, zoned: bool)
    | ReleaseJob(a: ApproverId)

  /** A statement that replaces row `j` and is recorded as `e`. */
  function Write(s: State, j: JobId, row: Row, e: Event): State {
    s.(table := s.table[j := row], log := s.log + [e])
  }

  function Goto(s: State, w: WorkerId, pc: Pc): State {
    s.(workers := s.workers[w := pc])
  }

  function DoCreate(s: State, id: JobId, change: ChangeType, event: string, report: string,
                    organization: TenantId, installation: TenantId, dryRun: bool): State
  {
    var r := CreateRemediationJob(id, change, event, report, organization, installation, dryRun);
    if Blank(id) || r.Err? || id in s.table then s
    else Write(s, id, NewRow(r.value, s.now), Enqueue(id, s.now, r.value))
  }

  /** `current` of `run_once` after a successful claim. */
  function Adopt(job: Job): Job {
    job.(status := if job.status == Running then Queued else job.status)
  }

  /** The claim statement locked row `j`. */
  function ClaimOf(s: State, w: WorkerId, j: JobId, lease: int, lost: bool): State
    requires j in s.table
  {
    var row := s.table[j];
    Goto(Write(s, j, ClaimRow(row, w, lease, s.now),
               Claim(j, s.now, w, s.now + lease as real, row.status == Running, row.payload)),
         w, if lost then Idle else Resuming(Adopt(row.payload), Adopt(row.payload)))
  }

  function DoClaim(s: State, w: WorkerId, lease: int, locked: set<JobId>, lost: bool): State {
    var next := NextJob(s.table, s.now, locked);
    if Blank(w) || !LeaseInRange(lease) || !s.PcOf(w).Idle? || next.None? then s
    else ClaimOf(s, w, next.value, lease, lost)
  }

  function DoRenew(s: State, w: WorkerId, j: JobId, lease: int): State {
    if Blank(w) || !LeaseInRange(lease) || !OwnedIn(s.table, j, w, s.now) then s
    else Write(s, j, RenewRow(s.table[j], lease, s.now), Renew(j, s.now, w, s.now + lease as real))
  }

  /** The stage that `_resume` runs next, if the status is one it knows how to continue. */
  function StageAfter(status: Status): Option<Status> {
    match status
    case Queued => Some(ReadyForRemediation)
    case ReadyForRemediation => Some(PatchGenerated)
    case PatchGenerated => Some(VerificationPending)
    case VerificationPending => Some(Verified)
    case _ => None
  }

  function ResumeFrom(claimed: Job, current: Job): Pc {
    var target := StageAfter(current.status);
    if target.Some? then
      var staged := TransitionJob(current, target.value);
      if staged.Ok? then Handling(claimed, current, staged.value) else Failing(claimed, Raised)
    else if current.status == Verified then
      var sealed := TransitionJob(current, DryRunComplete);
      if sealed.Ok? then Sealing(sealed.value) else Failing(current, Raised)
    else if current.status == DryRunComplete then Completing(current)
    else Failing(claimed, Unsupported)
  }

  function DoNextStage(s: State, w: WorkerId): State {
    match s.PcOf(w)
    case Resuming(claimed, current) => Goto(s, w, ResumeFrom(claimed, current))
    case _ => s
  }

  /** The three checks after the handler; the verification-pending stage has the identity handler. */
  function AfterHandler(claimed: Job, current: Job, staged: Job, result: Job): Pc {
    var updated := if staged.status == VerificationPending then staged else result;
    if updated.SameIdentity(current) && updated.status == staged.status
    then Persisting(claimed, current, updated)
    else Failing(claimed, StageRejected)
  }

  function DoHandler(s: State, w: WorkerId, result: Job): State {
    match s.PcOf(w)
    case Handling(claimed, current, staged) => Goto(s, w, AfterHandler(claimed, current, staged, result))
    case _ => s
  }

  /** `checkpoint` by `w`; the worker goes to `good` if it hears the reply, else to `bad`. */
  function DoCheckpoint(s: State, w: WorkerId, payload: Job, lost: bool, good: Pc, bad: Pc): State {
    var j := payload.jobId;
    if !OwnedIn(s.table, j, w, s.now) then Goto(s, w, bad)
    else Goto(Write(s, j, CheckpointRow(s.table[j], payload), Checkpoint(j, s.now, w, payload)),
              w, if lost then bad else good)
  }

  function DoSaveStage(s: State, w: WorkerId, lost: bool): State {
    match s.PcOf(w)
    case Persisting(claimed, _, updated) =>
      DoCheckpoint(s, w, updated, lost, Resuming(claimed, updated), Failing(claimed, QueueRejected))
    case _ => s
  }

  function DoSeal(s: State, w: WorkerId, lost: bool): State {
    match s.PcOf(w)
    case Sealing(sealed) =>
      DoCheckpoint(s, w, sealed, lost, Completing(sealed), Failing(sealed, QueueRejected))
    case _ => s
  }

  function DoFinish(s: State, w: WorkerId, lost: bool): State {
    match s.PcOf(w)
    case Completing(sealed) =>
      var j := sealed.jobId;
      if !OwnedIn(s.table, j, w, s.now) then Goto(s, w, Failing(sealed, QueueRejected))
      else Goto(Write(s, j, CompleteRow(s.table[j], sealed), Complete(j, s.now, w, sealed)),
                w, if lost then Failing(sealed, QueueRejected) else Idle)
    case _ => s
  }

  /** Anything inside the `try` raises: audit, handler, heartbeat, connection. */
  function DoRaise(s: State, w: WorkerId): State {
    if s.PcOf(w).Working() then Goto(s, w, Failing(s.PcOf(w).Visible(), Raised)) else s
  }

  /** `fail` with the retry payload; whether or not it is accepted, `run_once` ends here. */
  function DoRequeue(s: State, w: WorkerId): State {
    match s.PcOf(w)
    case Failing(failed, _) =>
      var j, retry := failed.jobId, failed.(status := Queued);
      if !OwnedIn(s.table, j, w, s.now) then Goto(s, w, Idle)
      else Goto(Write(s, j, FailRow(s.table[j], retry, RETRY_SECONDS, s.now), Fail(j, s.now, w, retry)), w, Idle)
    case _ => s
  }

  function DoReview(s: State, a: ApproverId, j: JobId, who: string, at: Time, zoned: bool): State {
    if Blank(j) || j !in s.table then s
    else
      var r := ApproveRemediation(s.table[j].payload, who, at, zoned);
      if r.Err? then s else s.(approvers := s.approvers[a := r.value.0])
  }

  function DoRelease(s: State, a: ApproverId): State {
    if a !in s.approvers then s
    else
      var job := s.approvers[a];
      var s' := s.(approvers := s.approvers - {a});
      if job.status != Queued || job.jobId !in s.table || !Releasable(s.table[job.jobId], job) then s'
      else Write(s', job.jobId, ReleaseRow(s.table[job.jobId], job, s.now), Release(job.jobId, s.now, job))
  }

  /** One atomic step; a step that is not enabled leaves the state as it is. */
  function Do(s: State, step: Step): State {
    match step
    case Tick(dt) => if dt < 0.0 then s else s.(now := s.now + dt)
    case CreateJob(id, change, event, report, organization, installation, dryRun) =>
      DoCreate(s, id, change, event, report, organization, installation, dryRun)
    case ClaimJob(w, lease, locked, lost) => DoClaim(s, w, lease, locked, lost)
    case RenewLease(w, j, lease) => DoRenew(s, w, j, lease)
    case NextStage(w) => DoNextStage(s, w)
    case HandlerReturns(w, result) => DoHandler(s, w, result)
    case SaveStage(w, lost) => DoSaveStage(s, w, lost)
    case Seal(w, lost) => DoSeal(s, w, lost)
    case Finish(w, lost) => DoFinish(s, w, lost)
    case RaiseIn(w) => DoRaise(s, w)
    case Requeue(w) => DoRequeue(s, w)
    // the process dies, or the failure cannot be reported; the id is then used by a new `run_once`
    case GiveUp(w) => Goto(s, w, Idle)
    case Review(a, j, who, at, zoned) => DoReview(s, a, j, who, at, zoned)
    case ReleaseJob(a) => DoRelease(s, a)
  }

  function Run(s: State, steps: seq<Step>): State {
    if steps == [] then s else Do(Run(s, steps[..|steps| - 1]), steps[|steps| - 1])
  }
}
