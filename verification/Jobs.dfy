/** Remediation jobs, their workflow statuses, and the pure functions that create, move and approve them. */
module Jobs {
  import opened Basics

  type JobId = string
  type TenantId = string

  /** Every status string the system names, and any other string a caller may put there. */
  datatype Status =
    | Queued
    | AwaitingApproval
    | ReadyForRemediation
    | PatchGenerated
    | VerificationPending
    | Verified
    | FailedStatus
    | DryRunComplete
    | Running          // a value of the status column, not of the workflow enumeration
    | Completed        // accepted by `complete`, not of the workflow enumeration
    | Other(text: string)
  {
    /** `RemediationStatus(text)` succeeds. */
    predicate InWorkflow() {
      !Running? && !Completed? && !Other?
    }
  }

  datatype VerificationResult = VerificationResult(
    passed: bool, command: string, exitCode: int, stdout: string, stderr: string, durationMs: int)

  datatype Job = Job(
    jobId: JobId,
    organizationId: TenantId,
    installationId: TenantId,
    changeEventId: string,
    status: Status,
    dryRun: bool,
    patchDiff: Option<string>,
    verification: seq<VerificationResult>,
    modelVersion: Option<string>,
    promptVersion: Option<string>)
  {
    /** The part of a job that a stage may not alter. */
    predicate SameIdentity(other: Job) {
      jobId == other.jobId && organizationId == other.organizationId && installationId == other.installationId
    }
  }

  datatype ChangeType = Breaking | Deprecation | NewFeature | NonBreakingFix

  datatype WorkflowError =
    | TenantRequired | ForeignBlastRadius | WritesDisabled
    | UnknownStatus | InvalidTransition
    | NotAwaitingApproval | ApprovalFieldRequired | NaiveTimestamp

  /** `create_remediation_job`; `freshId` stands for the generated uuid. */
  function CreateRemediationJob(
    freshId: JobId, changeType: ChangeType, eventId: string, reportEventId: string,
    organizationId: TenantId, installationId: TenantId, dryRun: bool): (r: Result<Job, WorkflowError>)
    ensures r.Ok? <==>
            !Blank(organizationId) && !Blank(installationId) && reportEventId == eventId && dryRun
    ensures r.Ok? ==>
              && r.value.jobId == freshId && r.value.dryRun && r.value.changeEventId == eventId
              && r.value.organizationId == organizationId && r.value.installationId == installationId
              && r.value.patchDiff == None && r.value.verification == []
              && r.value.modelVersion == None && r.value.promptVersion == None
              && (r.value.status == AwaitingApproval <==> changeType == NewFeature)
              && (r.value.status == Queued <==> changeType != NewFeature)
  {
    if Blank(organizationId) || Blank(installationId) then Err(TenantRequired)
    else if reportEventId != eventId then Err(ForeignBlastRadius)
    else if !dryRun then Err(WritesDisabled)
    else
      var status := if changeType == NewFeature then AwaitingApproval else Queued;
      Ok(Job(freshId, organizationId, installationId, eventId, status, true, None, [], None, None))
  }

  /** The edges of the workflow. */
  predicate Allowed(current: Status, target: Status) {
    match current
    case Queued => target == ReadyForRemediation
    case ReadyForRemediation => target == PatchGenerated
    case PatchGenerated => target == VerificationPending
    case VerificationPending => target == Verified || target == FailedStatus
    case Verified => target == DryRunComplete
    case _ => false
  }

  function TransitionJob(job: Job, target: Status): (r: Result<Job, WorkflowError>)
  {
    if !job.status.InWorkflow() then Err(UnknownStatus)
    else if !Allowed(job.status, target) then Err(InvalidTransition)
    else Ok(job.(status := target))
  }

  /** How far a job has come; held jobs are before the start. */
  function Rank(s: Status): int {
    match s
    case AwaitingApproval => -1
    case Queued => 0
    case ReadyForRemediation => 1
    case PatchGenerated => 2
    case VerificationPending => 3
    case Verified => 4
    case DryRunComplete => 5
    case _ => -2
  }

  /** The stages in order. */
  const STAGES := [ReadyForRemediation, PatchGenerated, VerificationPending, Verified, DryRunComplete]

  /** A job taken through a list of transitions, as long as they are accepted. */
  function Follow(job: Job, targets: seq<Status>): Result<Job, WorkflowError> {
    if targets == [] then Ok(job)
    else
      var before := Follow(job, targets[..|targets| - 1]);
      if before.Err? then before else TransitionJob(before.value, targets[|targets| - 1])
  }

  /** Where a list of accepted transitions from the queue can lead. */
  predicate OnPath(targets: seq<Status>) {
    targets <= STAGES || targets == STAGES[..3] + [FailedStatus]
  }

  function StatusAfter(targets: seq<Status>): Status {
    if targets == [] then Queued else targets[|targets| - 1]
  }

  lemma PathStep(past: seq<Status>, last: Status)
    ensures OnPath(past + [last]) <==> OnPath(past) && Allowed(StatusAfter(past), last)
  {
    var targets := past + [last];
    assert targets[..|past|] == past;
    if past <= STAGES {
      assert past != [] ==> past[|past| - 1] == STAGES[|past| - 1];
      assert targets <= STAGES <==> |past| < |STAGES| && last == STAGES[|past|];
      assert targets == STAGES[..3] + [FailedStatus] <==> |past| == 3 && last == FailedStatus;
    } else {
      assert |past| == 3 && past == STAGES[..3] ==> past <= STAGES;
      assert past == STAGES[..3] + [FailedStatus] ==> StatusAfter(past) == FailedStatus;
    }
  }

  /**
    The workflow is one path: the lists of transitions that a queued job accepts are exactly the initial
    parts of the stages in order, and the three stages before verification followed by `failed`; only the
    status changes on the way.
   */
  lemma {:induction false} WorkflowIsOnePath(job: Job, targets: seq<Status>)
    requires job.status == Queued
    ensures Follow(job, targets).Ok? <==> OnPath(targets)
    ensures Follow(job, targets).Ok? ==> Follow(job, targets).value == job.(status := StatusAfter(targets))
  {
    if targets != [] {
      var past, last := targets[..|targets| - 1], targets[|targets| - 1];
      WorkflowIsOnePath(job, past);
      assert OnPath(targets) <==> OnPath(past) && Allowed(StatusAfter(past), last) by {
        assert targets == past + [last];
        PathStep(past, last);
      }
    }
  }

  datatype Approval = Approval(
    jobId: JobId, organizationId: TenantId, installationId: TenantId, approvedBy: string, approvedAt: real)

  /** `approve_remediation`; `zoned` says whether the supplied time carries a time zone. */
  function ApproveRemediation(job: Job, approvedBy: string, approvedAt: real, zoned: bool)
    : (r: Result<(Job, Approval), WorkflowError>)
    ensures r.Ok? <==>
            && job.status == AwaitingApproval && zoned
            && !Blank(job.jobId) && !Blank(job.organizationId) && !Blank(job.installationId) && !Blank(approvedBy)
    ensures r.Ok? ==>
              && r.value.0.status == Queued
              && r.value.0.(status := AwaitingApproval) == job
              && r.value.1.jobId == job.jobId && r.value.1.organizationId == job.organizationId
              && r.value.1.installationId == job.installationId
              && r.value.1.approvedBy == approvedBy && r.value.1.approvedAt == approvedAt
  {
    if job.status != AwaitingApproval then Err(NotAwaitingApproval)
    else if Blank(job.jobId) || Blank(job.organizationId) || Blank(job.installationId) || Blank(approvedBy)
    then Err(ApprovalFieldRequired)
    else if !zoned then Err(NaiveTimestamp)
    else Ok((job.(status := Queued),
             Approval(job.jobId, job.organizationId, job.installationId, approvedBy, approvedAt)))
  }
}
