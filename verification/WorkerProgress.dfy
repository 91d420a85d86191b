/** No job gets stuck: whatever happened, every job can still be finished, a held one after an approval. */
module WorkerProgress {
  import opened Basics
  import opened Jobs
  import opened JobTable
  import opened WorkerProtocol
  import opened WorkerInvariant
  import opened WorkerPreservation
  import opened WorkerTheorems

  /** The owner of a row takes its job through all remaining stages. */
  lemma {:induction false} AllStages(origin: State, s: State, w: WorkerId, claimed: Job, current: Job)
    returns (s': State, last: Job)
    requires Leads(origin, s) && s.PcOf(w) == Resuming(claimed, current) && 0 <= Rank(current.status)
    requires OwnedIn(s.table, current.jobId, w, s.now)
    ensures Leads(origin, s') && s'.PcOf(w) == Resuming(claimed, last) && last.jobId == current.jobId
    ensures OwnedIn(s'.table, last.jobId, w, s'.now) && last.status in {Verified, DryRunComplete}
    decreases 5 - Rank(current.status)
  {
    if StageAfter(current.status).None? {
      s', last := s, current;
    } else {
      var next := current.(status := StageAfter(current.status).value);
      var s1 := OneStage(origin, s, w, claimed, current, next);
      s', last := AllStages(origin, s1, w, claimed, next);
    }
  }

  /** A verified job is sealed. */
  lemma Sealed(origin: State, s: State, w: WorkerId, claimed: Job, current: Job) returns (s': State, sealed: Job)
    requires Leads(origin, s) && s.PcOf(w) == Resuming(claimed, current)
    requires OwnedIn(s.table, current.jobId, w, s.now) && current.status in {Verified, DryRunComplete}
    ensures Leads(origin, s') && sealed == current.(status := DryRunComplete) && s'.PcOf(w) == Completing(sealed)
    ensures OwnedIn(s'.table, sealed.jobId, w, s'.now)
  {
    sealed := current.(status := DryRunComplete);
    var s1 := Do(s, NextStage(w));
    LeadsStep(origin, s, NextStage(w));
    if current.status == DryRunComplete {
      assert s1 == Goto(s, w, Completing(sealed));
      s' := s1;
    } else {
      assert s1 == Goto(s, w, Sealing(sealed));
      s' := Do(s1, Seal(w, false));
      LeadsStep(origin, s1, Seal(w, false));
    }
  }

  lemma Completed(origin: State, s: State, w: WorkerId, sealed: Job) returns (s': State)
    requires Leads(origin, s) && s.PcOf(w) == Completing(sealed) && sealed.status == DryRunComplete
    requires OwnedIn(s.table, sealed.jobId, w, s.now)
    ensures Leads(origin, s') && sealed.jobId in s'.table && s'.table[sealed.jobId].status == DryRunComplete
  {
    s' := Do(s, Finish(w, false));
    LeadsStep(origin, s, Finish(w, false));
  }

  /** After an hour without steps, with all other rows locked, an unfinished row is the one to claim. */
  lemma OnlyCandidate(s: State, dt: Time, j: JobId)
    requires Inv(s) && dt > MAX_LEASE && j in s.table && s.table[j].status in {Queued, Running}
    ensures Candidates(s.table, s.now + dt, s.table.Keys - {j}) == {j}
  {
    assert RowShape(j, s.table[j], s.now);
    assert Claimable(s.table[j], s.now + dt);
  }

  /** A worker gives up whatever it was doing, and time passes. */
  lemma Rested(origin: State, s: State, w: WorkerId, dt: Time) returns (s': State)
    requires Leads(origin, s) && dt >= 0.0
    ensures Leads(origin, s') && s' == s.(now := s.now + dt, workers := s.workers[w := Idle])
  {
    LeadsStep(origin, s, GiveUp(w));
    LeadsStep(origin, Do(s, GiveUp(w)), Tick(dt));
    s' := Do(Do(s, GiveUp(w)), Tick(dt));
  }

  /** The only candidate is claimed. */
  lemma Claimed(origin: State, s: State, w: WorkerId, j: JobId) returns (s': State)
    requires Leads(origin, s) && s.PcOf(w).Idle? && !Blank(w) && j in s.table
    requires Candidates(s.table, s.now, s.table.Keys - {j}) == {j}
    ensures Leads(origin, s') && s' == ClaimOf(s, w, j, 300, false)
  {
    var claim := ClaimJob(w, 300, s.table.Keys - {j}, false);
    LeadsStep(origin, s, claim);
    s' := Do(s, claim);
  }

  /** Any worker, even one that just gave up, can get hold of any unfinished job. */
  lemma TakenOver(origin: State, s: State, j: JobId, w: WorkerId) returns (s': State, job: Job)
    requires Leads(origin, s) && Inv(s) && j in s.table && s.table[j].status in {Queued, Running} && !Blank(w)
    ensures Leads(origin, s') && s'.PcOf(w) == Resuming(job, job) && job.jobId == j && 0 <= Rank(job.status)
    ensures OwnedIn(s'.table, j, w, s'.now)
  {
    var dt := MAX_LEASE + 1.0;
    job := s.table[j].payload;
    assert RowShape(j, s.table[j], s.now);
    OnlyCandidate(s, dt, j);
    var s1 := Rested(origin, s, w, dt);
    s' := Claimed(origin, s1, w, j);
    assert Adopt(job) == job;
  }

  // ---- tenants ----

  predicate Named(row: Row) {
    !Blank(row.organizationId) && !Blank(row.installationId)
  }

  predicate SameTenant(a: Row, b: Row) {
    a.organizationId == b.organizationId && a.installationId == b.installationId
  }

  /** What a step can do to the tenant columns: name them once, when it creates the row. */
  predicate TenantsKept(t: Table, t': Table) {
    forall j :: j in t' ==> if j in t then SameTenant(t[j], t'[j]) else Named(t'[j])
  }

  lemma WriteKeepsTenants(t: Table, j: JobId, row: Row)
    requires if j in t then SameTenant(t[j], row) else Named(row)
    ensures TenantsKept(t, t[j := row])
  {
  }

  lemma ClaimKeepsTenants(s: State, w: WorkerId, lease: int, locked: set<JobId>, lost: bool)
    ensures TenantsKept(s.table, DoClaim(s, w, lease, locked, lost).table)
  {
    var next := NextJob(s.table, s.now, locked);
    if next.Some? {
      WriteKeepsTenants(s.table, next.value, ClaimRow(s.table[next.value], w, lease, s.now));
    }
  }

  lemma CreateKeepsTenants(s: State, id: JobId, change: ChangeType, event: string, report: string,
                           organization: TenantId, installation: TenantId, dryRun: bool)
    ensures TenantsKept(s.table, DoCreate(s, id, change, event, report, organization, installation, dryRun).table)
  {
  }

  lemma StepKeepsTenants(s: State, step: Step)
    ensures TenantsKept(s.table, Do(s, step).table)
  {
    if Silent(step) {
      SilentSteps(s, step);
    } else {
      match step
      case CreateJob(id, change, event, report, organization, installation, dryRun) =>
        CreateKeepsTenants(s, id, change, event, report, organization, installation, dryRun);
      case ClaimJob(w, lease, locked, lost) => ClaimKeepsTenants(s, w, lease, locked, lost);
      case _ =>
    }
  }

  lemma {:induction false} TenantsAreNamed(steps: seq<Step>, j: JobId)
    requires j in Run(Init, steps).table
    ensures Named(Run(Init, steps).table[j])
  {
    if steps != [] {
      var past := Run(Init, steps[..|steps| - 1]);
      StepKeepsTenants(past, steps[|steps| - 1]);
      if j in past.table {
        TenantsAreNamed(steps[..|steps| - 1], j);
      }
    }
  }

  // ---- the gate ----

  /** The reviewed copy of a held job. */
  lemma Reviewed(s: State, j: JobId, who: string) returns (s': State)
    requires Inv(s) && j in s.table && s.table[j].status == AwaitingApproval && Named(s.table[j]) && !Blank(who)
    ensures Leads(s, s') && s' == s.(approvers := s.approvers["a" := s.table[j].payload.(status := Queued)])
  {
    assert RowShape(j, s.table[j], s.now);
    assert s == Run(s, []);
    LeadsStep(s, s, Review("a", j, who, s.now, true));
    s' := Do(s, Review("a", j, who, s.now, true));
  }

  /** A held job is reviewed and released. */
  lemma Approved(s: State, j: JobId, who: string) returns (s': State)
    requires Inv(s) && j in s.table && s.table[j].status == AwaitingApproval && Named(s.table[j]) && !Blank(who)
    ensures Leads(s, s') && j in s'.table && s'.table[j].status == Queued
  {
    var s1 := Reviewed(s, j, who);
    assert Fits(s.table[j].payload, j, s.table[j]) by { assert RowShape(j, s.table[j], s.now); }
    LeadsStep(s, s1, ReleaseJob("a"));
    s' := Do(s1, ReleaseJob("a"));
  }

  /** The row of `j` is not held any more. */
  lemma Released(s: State, j: JobId, who: string) returns (s': State)
    requires Inv(s) && j in s.table && s.table[j].status != DryRunComplete && Named(s.table[j]) && !Blank(who)
    ensures Leads(s, s') && Inv(s') && j in s'.table && s'.table[j].status in {Queued, Running}
  {
    if s.table[j].status == AwaitingApproval {
      s' := Approved(s, j, who);
    } else {
      assert RowShape(j, s.table[j], s.now);
      assert s == Run(s, []);
      s' := s;
    }
    LeadsInv(s, s');
  }

  lemma LeadsInv(s: State, s': State)
    requires Inv(s) && Leads(s, s')
    ensures Inv(s')
  {
    var steps :| s' == Run(s, steps);
    StepsInv(s, steps);
  }

  /**
    From every reachable state some continuation finishes any given job, through any given worker: no
    crash, lost reply, expired lease or stale worker can make a job unfinishable.
   */
  lemma EveryJobCanFinish(s: State, j: JobId, w: WorkerId, who: string) returns (s': State)
    requires Reachable(s) && j in s.table && !Blank(w) && !Blank(who)
    ensures Leads(s, s') && j in s'.table && s'.table[j].status == DryRunComplete
  {
    if s.table[j].status == DryRunComplete {
      assert s == Run(s, []);
      s' := s;
    } else {
      LeadsInv(Init, s) by { InitInv(); }
      assert Named(s.table[j]) by {
        var steps :| s == Run(Init, steps);
        TenantsAreNamed(steps, j);
      }
      var s1 := Released(s, j, who);
      var s2, job := TakenOver(s, s1, j, w);
      var s3, last := AllStages(s, s2, w, job, job);
      var s4, sealed := Sealed(s, s3, w, job, last);
      s' := Completed(s, s4, w, sealed);
    }
  }
}
