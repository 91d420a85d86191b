/** The inductive invariant of the queue and its workers, and what a change of one row keeps of it. */
module WorkerInvariant {
  import opened Basics
  import opened Jobs
  import opened JobTable
  import opened WorkerProtocol
  import opened JobHistory

  /** The identity columns of a row agree with a job. */
  predicate Fits(job: Job, j: JobId, row: Row) {
    job.jobId == j && job.organizationId == row.organizationId && job.installationId == row.installationId
  }

  /** What every row looks like. */
  predicate RowShape(j: JobId, row: Row, now: Time) {
    && !Blank(j)
    && Fits(row.payload, j, row)
    && (row.status == Running <==> row.workerId.Some?)
    && (row.status == Running <==> row.leaseUntil.Some?)
    && (match row.status
        case Queued => row.payload.status == Queued
        case AwaitingApproval => row.payload.status == AwaitingApproval
        case DryRunComplete => row.payload.status == DryRunComplete
        case Running => 0 <= Rank(row.payload.status) && row.availableAt <= now
        case _ => false)
    && (row.leaseUntil.Some? ==> row.leaseUntil.value <= now + MAX_LEASE)
    && row.availableAt <= now + MAX_LEASE
    && row.createdAt <= now
  }

  /** How a row reflects the history of its job. */
  ghost predicate RowRecord(j: JobId, row: Row, h: History) {
    && Holder(h, j) ==
       (if row.workerId.Some? && row.leaseUntil.Some?
        then Some(Lease(row.workerId.value, row.leaseUntil.value)) else None)
    && Content(h, j) == Some(row.payload) && Available(h, j) == Some(row.availableAt)
    && row.attempts == Tally(h, j, Claims)
    && Tally(h, j, Claims) ==
       Tally(h, j, Completions) + Tally(h, j, Failures) + Tally(h, j, Reclaims)
       + (if row.status == Running then 1 else 0)
    && Tally(h, j, Completions) == (if row.status == DryRunComplete then 1 else 0)
    && Tally(h, j, Creations) == 1
    && Tally(h, j, Releases) <= Tally(h, j, Holds) <= 1
    && (row.status == AwaitingApproval <==> Tally(h, j, Releases) < Tally(h, j, Holds))
    && (row.status == AwaitingApproval ==> row.attempts == 0)
  }

  ghost predicate NoRecord(j: JobId, h: History) {
    Holder(h, j) == None && forall k :: Tally(h, j, k) == 0
  }

  ghost predicate TableInv(t: Table, now: Time, h: History) {
    && (forall j :: j in t ==> RowShape(j, t[j], now) && RowRecord(j, t[j], h))
    && (forall j :: j !in t ==> NoRecord(j, h))
  }

  ghost predicate LogInv(h: History, now: Time) {
    Disciplined(h) && OverBy(h, now)
  }

  /** The jobs in a worker's local variables belong together and have the statuses the code expects. */
  predicate LocalShape(pc: Pc, j: JobId, row: Row) {
    match pc
    case Idle => true
    case Resuming(claimed, current) => Fits(claimed, j, row) && Fits(current, j, row) && 0 <= Rank(current.status)
    case Handling(claimed, current, staged) =>
      && Fits(claimed, j, row) && Fits(current, j, row)
      && StageAfter(current.status) == Some(staged.status) && staged == current.(status := staged.status)
    case Persisting(claimed, current, updated) =>
      && Fits(claimed, j, row) && Fits(current, j, row) && Fits(updated, j, row)
      && StageAfter(current.status) == Some(updated.status)
    case Sealing(sealed) => Fits(sealed, j, row) && sealed.status == DryRunComplete
    case Completing(sealed) => Fits(sealed, j, row) && sealed.status == DryRunComplete
    case Failing(failed, cause) => Fits(failed, j, row) && cause != Unsupported
  }

  /** The link between durable and local state: a worker that owns the row knows what is in it. */
  predicate Linked(pc: Pc, w: WorkerId, row: Row) {
    pc.Working() && row.workerId == Some(w) ==> row.payload == pc.Durable()
  }

  predicate PcInv(w: WorkerId, pc: Pc, t: Table) {
    pc.Idle? ||
    (var j := pc.Visible().jobId;
     j in t && !Blank(w) && LocalShape(pc, j, t[j]) && Linked(pc, w, t[j]))
  }

  ghost predicate WorkersInv(workers: map<WorkerId, Pc>, t: Table) {
    forall w :: w in workers ==> PcInv(w, workers[w], t)
  }

  /** An approved copy differs from the held payload in its status only. */
  predicate ApprovalInv(job: Job, t: Table) {
    && job.jobId in t && Fits(job, job.jobId, t[job.jobId]) && job.status == Queued
    && (t[job.jobId].status == AwaitingApproval ==> t[job.jobId].payload == job.(status := AwaitingApproval))
  }

  ghost predicate ApproversInv(approvers: map<ApproverId, Job>, t: Table) {
    forall a :: a in approvers ==> ApprovalInv(approvers[a], t)
  }

  ghost predicate Inv(s: State) {
    && TableInv(s.table, s.now, s.log)
    && LogInv(s.log, s.now)
    && WorkersInv(s.workers, s.table)
    && ApproversInv(s.approvers, s.table)
  }

  // ---- one row changes ----

  lemma WriteTable(s: State, j: JobId, row: Row, e: Event)
    requires TableInv(s.table, s.now, s.log) && LogInv(s.log, s.now)
    requires e.job == j && e.at == s.now && Admissible(s.log, e)
    requires RowShape(j, row, s.now) && RowRecord(j, row, s.log + [e])
    ensures TableInv(Write(s, j, row, e).table, s.now, s.log + [e]) && LogInv(s.log + [e], s.now)
  {
    forall k
      ensures k != j && k in s.table ==> RowRecord(k, s.table[k], s.log + [e])
      ensures k != j && k !in s.table ==> NoRecord(k, s.log + [e])
    {
      Append(s.log, e, k);
    }
    DisciplinedAppend(s.log, e);
  }

  /** A change of row `j` that no worker but `actor` can mistake for its own. */
  predicate Fenced(before: Row, after: Row, actor: Option<WorkerId>) {
    && before.organizationId == after.organizationId && before.installationId == after.installationId
    && (|| after.workerId.None?
        || after.workerId == actor
        || (after.workerId == before.workerId && after.payload == before.payload))
  }

  lemma WriteOtherPc(w: WorkerId, pc: Pc, t: Table, j: JobId, row: Row, actor: Option<WorkerId>)
    requires PcInv(w, pc, t) && j in t && Fenced(t[j], row, actor) && Some(w) != actor
    ensures PcInv(w, pc, t[j := row])
  {
  }

  lemma WriteApproval(job: Job, t: Table, j: JobId, row: Row, actor: Option<WorkerId>)
    requires ApprovalInv(job, t) && j in t && Fenced(t[j], row, actor)
    requires row.status == AwaitingApproval ==> row.payload == t[j].payload && t[j].status == AwaitingApproval
    ensures ApprovalInv(job, t[j := row])
  {
  }

  /** Such a change keeps every other worker's invariant, and every approver's. */
  lemma WriteOthers(s: State, j: JobId, row: Row, actor: Option<WorkerId>)
    requires Inv(s) && j in s.table && Fenced(s.table[j], row, actor)
    requires row.status == AwaitingApproval ==> row.payload == s.table[j].payload && s.table[j].status == AwaitingApproval
    ensures ApproversInv(s.approvers, s.table[j := row])
    ensures forall w :: w in s.workers && Some(w) != actor ==> PcInv(w, s.workers[w], s.table[j := row])
  {
    forall w | w in s.workers && Some(w) != actor
      ensures PcInv(w, s.workers[w], s.table[j := row])
    {
      WriteOtherPc(w, s.workers[w], s.table, j, row, actor);
    }
    forall a | a in s.approvers
      ensures ApprovalInv(s.approvers[a], s.table[j := row])
    {
      WriteApproval(s.approvers[a], s.table, j, row, actor);
    }
  }
}
