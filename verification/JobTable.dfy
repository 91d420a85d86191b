/** The `remediation_jobs` table and the effect of each guarded SQL statement on it. */
module JobTable {
  import opened Basics
  import opened Jobs

  type WorkerId = string

  const RETRY_SECONDS := 30

  datatype Row = Row(
    organizationId: TenantId,
    installationId: TenantId,
    changeEventId: string,
    status: Status,
    payload: Job,
    attempts: nat,
    workerId: Option<WorkerId>,
    leaseUntil: Option<Time>,
    availableAt: Time,
    createdAt: Time)

  type Table = map<JobId, Row>

  // ---- enqueue ----

  function NewRow(job: Job, now: Time): Row {
    Row(job.organizationId, job.installationId, job.changeEventId, job.status, job, 0, None, None, now, now)
  }

  /** INSERT ... ON CONFLICT DO NOTHING */
  function Enqueued(t: Table, job: Job, now: Time): Table {
    if job.jobId in t then t else t[job.jobId := NewRow(job, now)]
  }

  // ---- claim ----

  predicate Claimable(row: Row, now: Time) {
    && row.availableAt <= now
    && (|| row.status == Queued
        || (row.status == Running && row.leaseUntil.Some? && row.leaseUntil.value < now))
  }

  /** Rows the claim query may pick while other transactions hold locks on `locked`. */
  function Candidates(t: Table, now: Time, locked: set<JobId>): set<JobId> {
    set j | j in t && j !in locked && Claimable(t[j], now)
  }

  /** ORDER BY created_at ASC, job_id ASC */
  predicate Before(t: Table, j: JobId, k: JobId)
    requires j in t && k in t
  {
    t[j].createdAt < t[k].createdAt || (t[j].createdAt == t[k].createdAt && StrLe(j, k))
  }

  predicate Earliest(t: Table, c: set<JobId>, j: JobId)
    requires c <= t.Keys
  {
    j in c && forall k :: k in c ==> Before(t, j, k)
  }

  lemma BeforeTransitive(t: Table, j: JobId, k: JobId, l: JobId)
    requires j in t && k in t && l in t && Before(t, j, k) && Before(t, k, l)
    ensures Before(t, j, l)
  {
    if t[j].createdAt == t[k].createdAt && t[k].createdAt == t[l].createdAt {
      StrLeTransitive(j, k, l);
    }
  }

  lemma {:induction false} EarliestExists(t: Table, c: set<JobId>)
    requires c <= t.Keys && c != {}
    ensures exists j :: Earliest(t, c, j)
  {
    var x :| x in c;
    StrLeTotal(x, x);
    var rest := c - {x};
    if rest == {} {
      assert c == {x};
      assert Earliest(t, c, x);
    } else {
      EarliestExists(t, rest);
      var m :| Earliest(t, rest, m);
      StrLeTotal(x, m);
      var first := if Before(t, m, x) then m else x;
      forall k | k in c
        ensures Before(t, first, k)
      {
        if k != x {
          assert Before(t, m, k);
          BeforeTransitive(t, first, m, k);
        }
      }
      assert Earliest(t, c, first);
    }
  }

  lemma EarliestUnique(t: Table, c: set<JobId>)
    requires c <= t.Keys
    ensures forall j, k :: Earliest(t, c, j) && Earliest(t, c, k) ==> j == k
  {
    forall j, k | Earliest(t, c, j) && Earliest(t, c, k)
      ensures j == k
    {
      assert Before(t, j, k) && Before(t, k, j);
      StrLeAntisymmetric(j, k);
    }
  }

  /** The row the claim query locks: the earliest unlocked candidate, or none. */
  function NextJob(t: Table, now: Time, locked: set<JobId>): (r: Option<JobId>)
    ensures r.None? <==> Candidates(t, now, locked) == {}
    ensures r.Some? ==> r.value in t && r.value !in locked && Claimable(t[r.value], now)
    ensures r.Some? ==> Earliest(t, Candidates(t, now, locked), r.value)
  {
    var c := Candidates(t, now, locked);
    if c == {} then None
    else
      EarliestExists(t, c);
      EarliestUnique(t, c);
      var j :| j in c && Earliest(t, c, j);
      Some(j)
  }

  /** First in, first out: the oldest claimable row that nobody has locked, by creation time and then by id. */
  lemma NextJobIsOldest(t: Table, now: Time, locked: set<JobId>)
    ensures var next := NextJob(t, now, locked);
            && (next.None? <==> forall k :: k in t && k !in locked ==> !Claimable(t[k], now))
            && (next.Some? ==>
                  && next.value in t && next.value !in locked && Claimable(t[next.value], now)
                  && forall k :: k in t && k !in locked && Claimable(t[k], now) ==>
                       || t[next.value].createdAt < t[k].createdAt
                       || (t[next.value].createdAt == t[k].createdAt && StrLe(next.value, k)))
  {
    var next, c := NextJob(t, now, locked), Candidates(t, now, locked);
    assert forall k :: k in c <==> k in t && k !in locked && Claimable(t[k], now);
    if next.Some? {
      assert forall k :: k in c ==> Before(t, next.value, k);
    }
  }

  function ClaimRow(row: Row, w: WorkerId, leaseSeconds: int, now: Time): Row {
    row.(status := Running, workerId := Some(w), attempts := row.attempts + 1,
    leaseUntil := Some(now + leaseSeconds as real))
  }

  // ---- statements fenced by a live lease ----

  /** The ownership predicate shared by renew, checkpoint, complete and fail. */
  predicate Owns(row: Row, w: WorkerId, now: Time) {
    row.workerId == Some(w) && row.status == Running && row.leaseUntil.Some? && now <= row.leaseUntil.value
  }

  predicate OwnedIn(t: Table, j: JobId, w: WorkerId, now: Time) {
    j in t && Owns(t[j], w, now)
  }

  function RenewRow(row: Row, leaseSeconds: int, now: Time): Row {
    row.(leaseUntil := Some(now + leaseSeconds as real))
  }

  function CheckpointRow(row: Row, payload: Job): Row {
    row.(payload := payload)
  }

  function CompleteRow(row: Row, payload: Job): Row {
    row.(status := payload.status, payload := payload, workerId := None, leaseUntil := None)
  }

  function FailRow(row: Row, payload: Job, retryAfter: int, now: Time): Row {
    row.(status := Queued, payload := payload, workerId := None, leaseUntil := None,
    availableAt := now + retryAfter as real)
  }

  // ---- approval ----

  predicate Releasable(row: Row, job: Job) {
    && row.organizationId == job.organizationId
    && row.installationId == job.installationId
    && row.status == AwaitingApproval
  }

  function ReleaseRow(row: Row, payload: Job, now: Time): Row {
    row.(status := Queued, payload := payload, workerId := None, leaseUntil := None, availableAt := now)
  }

  predicate CheckpointStatus(s: Status) {
    s != Queued && s != Running && s != FailedStatus && s != AwaitingApproval
  }

  predicate CompletionStatus(s: Status) {
    s == DryRunComplete || s == Completed
  }
}
