/** `DeliveryAttemptStore`: durable delivery intents, their owners and their results. */
module DeliveryStore {
  import opened Basics
  import opened Jobs
  import opened GitHub

  type Owner = string

  /** The hashed material; an injective hash of it identifies as much. */
  datatype DeliveryKey = DeliveryKey(
    jobId: JobId, organizationId: TenantId, installationId: TenantId, changeEventId: string,
    provider: string, repository: string, baseBranch: string)

  function BuildDeliveryKey(job: Job, provider: string, repository: string, baseBranch: string): DeliveryKey {
    DeliveryKey(job.jobId, job.organizationId, job.installationId, job.changeEventId, provider, repository, baseBranch)
  }

  /** Two deliveries have the same key exactly if they agree in every identity input. */
  lemma KeyIdentifiesDelivery(a: Job, b: Job, p: string, q: string, r: string, s: string, c: string, d: string)
    ensures BuildDeliveryKey(a, p, r, c) == BuildDeliveryKey(b, q, s, d) <==>
            && a.SameIdentity(b) && a.changeEventId == b.changeEventId
            && p == q && r == s && c == d
  {
  }

  datatype AttemptStatus = Pending | InProgress | Succeeded | FailedAttempt

  datatype Attempt = Attempt(
    status: AttemptStatus,
    owner: Owner,
    leaseUntil: Option<Time>,
    number: Option<int>,
    url: Option<string>,
    commit: Option<Commit>)
  {
    predicate Unresolved() {
      status == Pending || status == InProgress
    }
  }

  type Attempts = map<DeliveryKey, Attempt>

  /** An unresolved attempt whose lease has run out, or that has none. */
  predicate Takeable(a: Attempt, now: Time) {
    a.Unresolved() && (a.leaseUntil.None? || a.leaseUntil.value < now)
  }

  function AcquireRow(a: Attempt, owner: Owner, leaseSeconds: int, now: Time): Attempt {
    if Takeable(a, now) then a.(owner := owner, leaseUntil := Some(now + leaseSeconds as real)) else a
  }

  function NewAttempt(owner: Owner, leaseSeconds: int, now: Time): Attempt {
    Attempt(Pending, owner, Some(now + leaseSeconds as real), None, None, None)
  }

  /** INSERT ... ON CONFLICT DO UPDATE */
  function AcquiredRow(t: Attempts, k: DeliveryKey, owner: Owner, leaseSeconds: int, now: Time): Attempt {
    if k in t then AcquireRow(t[k], owner, leaseSeconds, now) else NewAttempt(owner, leaseSeconds, now)
  }

  /** The fence shared by `begin` and `_record_success`. */
  predicate MayAct(t: Attempts, k: DeliveryKey, status: AttemptStatus, owner: Owner, now: Time) {
    && k in t && t[k].status == status && t[k].owner == owner
    && (t[k].leaseUntil.None? || now <= t[k].leaseUntil.value)
  }

  function BeginRow(a: Attempt, leaseSeconds: int, now: Time): Attempt {
    a.(status := InProgress, leaseUntil := Some(now + leaseSeconds as real))
  }

  function SuccessRow(a: Attempt, d: Delivery): Attempt {
    a.(status := Succeeded, leaseUntil := None, number := Some(d.number), url := Some(d.url), commit := Some(d.commit))
  }

  /** `_result`: a durable result is usable if it is complete. */
  function DurableResult(a: Attempt): Option<Delivery> {
    if a.number.Some? && a.url.Some? && a.url.value != "" && a.commit.Some?
    then Some(Delivery(a.number.value, a.url.value, a.commit.value)) else None
  }

  /** A result is returned exactly if all three of its columns are filled, and it is those columns. */
  lemma ResultIsComplete(a: Attempt, d: Delivery)
    ensures DurableResult(a) == Some(d) <==>
            a.number == Some(d.number) && a.url == Some(d.url) && d.url != "" && a.commit == Some(d.commit)
  {
  }

  datatype StoreError =
    | OwnerRequired | TargetRequired | LeaseOutOfRange | OwnedByAnother | NotStarted | NotFenced

  class DeliveryAttemptStore {
    var attempts: Attempts

    constructor ()
      ensures attempts == map[]
    {
      attempts := map[];
    }

    /** Inserts, takes over or returns the intent; only a foreign unresolved intent is refused. */
    method Acquire(job: Job, provider: string, owner: Owner, repository: string, baseBranch: string,
                   leaseSeconds: int, now: Time)
      returns (r: Result<Attempt, StoreError>)
      modifies this
      ensures var k := BuildDeliveryKey(job, provider, repository, baseBranch);
              var lease := Some(now + leaseSeconds as real);
              var valid := !Blank(provider) && !Blank(owner) && !Blank(repository) && !Blank(baseBranch) && 1 <= leaseSeconds <= 3600;
              if !valid then r.Err? && attempts == old(attempts)
              else if k !in old(attempts) then
                // inserted
                && attempts == old(attempts)[k := Attempt(
                                 status := Pending, owner := owner, leaseUntil := lease,
                                 number := None, url := None, commit := None)]
                && r == Ok(attempts[k])
              else if && old(attempts)[k].status in {Pending, InProgress}
                      && (old(attempts)[k].leaseUntil.None? || old(attempts)[k].leaseUntil.value < now) then
                // taken over
                && attempts == old(attempts)[k := old(attempts)[k].(owner := owner, leaseUntil := lease)]
                && r == Ok(attempts[k])
              else
                // left alone, and refused if it is unresolved and somebody else's
                && attempts == old(attempts)
                && (r.Err? <==> old(attempts)[k].status in {Pending, InProgress} && old(attempts)[k].owner != owner)
                && (r.Ok? ==> r.value == old(attempts)[k])
    {
      if Blank(provider) || Blank(owner) {
        return Err(OwnerRequired);
      }
      if Blank(repository) || Blank(baseBranch) {
        return Err(TargetRequired);
      }
      if !LeaseInRange(leaseSeconds) {
        return Err(LeaseOutOfRange);
      }
      var k := BuildDeliveryKey(job, provider, repository, baseBranch);
      var row := AcquiredRow(attempts, k, owner, leaseSeconds, now);
      assert k in attempts ==> attempts[k := attempts[k]] == attempts;
      attempts := attempts[k := row];
      if row.Unresolved() && row.owner != owner {
        return Err(OwnedByAnother);
      }
      r := Ok(row);
    }

    method Begin(k: DeliveryKey, owner: Owner, leaseSeconds: int, now: Time) returns (r: Result<Attempt, StoreError>)
      modifies this
      ensures r.Ok? <==>
              && !Blank(owner) && 1 <= leaseSeconds <= 3600
              && k in old(attempts) && old(attempts)[k].status == Pending && old(attempts)[k].owner == owner
              && (old(attempts)[k].leaseUntil.None? || now <= old(attempts)[k].leaseUntil.value)
      ensures r.Ok? ==>
                && k in old(attempts)
                && r.value == old(attempts)[k].(status := InProgress, leaseUntil := Some(now + leaseSeconds as real))
                && attempts == old(attempts)[k := r.value]
      ensures r.Err? ==> attempts == old(attempts)
    {
      if Blank(owner) {
        return Err(OwnerRequired);
      }
      if !LeaseInRange(leaseSeconds) {
        return Err(LeaseOutOfRange);
      }
      if !MayAct(attempts, k, Pending, owner, now) {
        return Err(NotStarted);
      }
      var row := BeginRow(attempts[k], leaseSeconds, now);
      attempts := attempts[k := row];
      r := Ok(row);
    }

    /** `record_result` and `record_reconciled_result` */
    method RecordSuccess(k: DeliveryKey, owner: Owner, d: Delivery, now: Time) returns (r: Result<Attempt, StoreError>)
      modifies this
      ensures r.Ok? <==>
              && k in old(attempts) && old(attempts)[k].status == InProgress && old(attempts)[k].owner == owner
              && (old(attempts)[k].leaseUntil.None? || now <= old(attempts)[k].leaseUntil.value)
      ensures r.Ok? ==>
                && k in old(attempts)
                && r.value == old(attempts)[k].(status := Succeeded, leaseUntil := None, number := Some(d.number),
                              url := Some(d.url), commit := Some(d.commit))
                && attempts == old(attempts)[k := r.value]
      ensures r.Err? ==> attempts == old(attempts)
    {
      if !MayAct(attempts, k, InProgress, owner, now) {
        return Err(NotFenced);
      }
      var row := SuccessRow(attempts[k], d);
      attempts := attempts[k := row];
      r := Ok(row);
    }
  }
}
