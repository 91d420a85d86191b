/**
  The limit of recovery: delivery keys that differ only in their tenant or change event share one
  remediation branch and one base, and then an attempt can record the pull request of another key.
 */
module DeliveryLimits {
  import opened Basics
  import opened Jobs
  import opened Strings
  import opened GitHub
  import opened DeliveryStore
  import opened DeliveryProtocol
  import opened DeliveryInvariant
  import opened DeliveryPreservation
  import opened DeliveryTheorems
  import opened DeliveryRuns

  /** `k` is recorded with a pull request that another key's delivery made. */
  predicate RecordsForeign(s: State, k: DeliveryKey) {
    && k in s.attempts && s.attempts[k].status == Succeeded
    && SiteOf(k) in s.made && s.made[SiteOf(k)].key != k
  }

  /** Two valid requests for the same job, repository and base, but with different keys. */
  predicate Colliding(a: Request, b: Request) {
    && ValidRequest(a) && ValidRequest(b)
    && a.job.jobId == b.job.jobId && a.repository == b.repository && a.baseBranch == b.baseBranch
    && KeyOf(a) != KeyOf(b)
  }

  /** Whenever two keys share a slot, one of them can end up with the other's pull request. */
  lemma SharedSlotRecordsForeignDelivery(a: Request, b: Request, requests: set<Request>, repos: Repositories) returns (s: State)
    requires Colliding(a, b) && a in requests && b in requests && ValidBranch(BranchName(b.job.jobId))
    requires Clean(repos) && b.repository in repos && b.baseBranch in repos[b.repository].refs
    ensures Within(Scope(Init(repos), requests, true), s) && RecordsForeign(s, KeyOf(b))
  {
    var sc := Scope(Init(repos), requests, true);
    assert !Blank("w") by { assert !IsSpace("w"[0]); }
    var first, second := Call("w", 300, a), Call("w", 300, b);
    s := DeliveredFirst(sc, "first", first);
    s := Overlooked(sc, s, "second", second);
  }

  // ---- the exact condition ----

  lemma SucceedAddsNoKey(s: State, e: ExecutorId, call: Call, d: Delivery, reply: Reply)
    ensures DoSucceed(s, e, call, d, reply).attempts.Keys == s.attempts.Keys
  {
  }

  lemma ExecuteAddsItsKey(s: State, e: ExecutorId, call: Call, reply: Reply, k: DeliveryKey)
    requires k !in s.attempts && k in DoExecute(s, e, call, reply).attempts
    ensures Admitted(call) && KeyOf(call.request) == k
  {
    if s.PcOf(e).Ready? && Admitted(call) && !reply.Refused? {
      var row := AcquiredRow(s.attempts, call.Key(), call.owner, call.leaseSeconds, s.now);
      AcquiredKeepsRows(s.(attempts := s.attempts[call.Key() := row]), e, call, row);
    }
  }

  /** A key is attempted only by an admitted call of `execute` for it. */
  lemma NewKeyWasCalled(s: State, step: Step, k: DeliveryKey)
    requires k !in s.attempts && k in Do(s, step).attempts
    ensures step.Execute? && Admitted(step.call) && KeyOf(step.call.request) == k
  {
    match step
    case Execute(e, call, reply) => ExecuteAddsItsKey(s, e, call, reply, k);
    case Deliver(e, reply, number, url) => DeliverKeepsRows(s, e, reply, number, url);
    case Record(e, reply) =>
      if s.PcOf(e).Recording? {
        SucceedAddsNoKey(s, e, s.PcOf(e).call, s.PcOf(e).delivery, reply);
      }
    case Confirm(e, reply) =>
      if s.PcOf(e).Confirming? {
        SucceedAddsNoKey(s, e, s.PcOf(e).call, s.PcOf(e).delivery, reply);
      }
    case _ =>
  }

  lemma {:induction false} KeysComeFromRequests(repos: Repositories, steps: seq<Step>, requests: set<Request>, k: DeliveryKey)
    returns (a: Request)
    requires AllInScope(steps, Scope(Init(repos), requests, true)) && k in Run(Init(repos), steps).attempts
    ensures a in requests && ValidRequest(a) && KeyOf(a) == k
  {
    var past, last := steps[..|steps| - 1], steps[|steps| - 1];
    assert InScope(last, Scope(Init(repos), requests, true));
    if k in Run(Init(repos), past).attempts {
      a := KeysComeFromRequests(repos, past, requests, k);
    } else {
      NewKeyWasCalled(Run(Init(repos), past), last, k);
      a := last.call.request;
    }
  }

  /** A foreign record comes from a request that shares the slot. */
  lemma ForeignRecordHasRival(b: Request, requests: set<Request>, repos: Repositories, s: State) returns (a: Request)
    requires ValidRequest(b) && Clean(repos) && Within(Scope(Init(repos), requests, true), s) && RecordsForeign(s, KeyOf(b))
    ensures a in requests && Colliding(a, b)
    ensures !a.job.SameIdentity(b.job) || a.job.changeEventId != b.job.changeEventId
  {
    var steps :| AllInScope(steps, Scope(Init(repos), requests, true)) && s == Run(Init(repos), steps);
    assert Reachable(s);
    RecordedResultIsWhatWasMade(s, KeyOf(b));
    var rival := s.made[SiteOf(KeyOf(b))].key;
    a := KeysComeFromRequests(repos, steps, requests, rival);
    BranchNameInjective(a.job.jobId, b.job.jobId);
    KeyIdentifiesDelivery(a.job, b.job, "github", "github", a.repository, b.repository, a.baseBranch, b.baseBranch);
  }

  /**
    Exactly when recovery can attribute wrongly: among any set of requests against a repository that has
    the base branch, some run records another key's pull request for a valid request with a findable
    branch name if and only if a request for another key shares its job, repository and base.
   */
  lemma ForeignRecordIffSharedSlot(b: Request, requests: set<Request>, repos: Repositories)
    requires ValidRequest(b) && b in requests && ValidBranch(BranchName(b.job.jobId))
    requires Clean(repos) && b.repository in repos && b.baseBranch in repos[b.repository].refs
    ensures (exists s :: Within(Scope(Init(repos), requests, true), s) && RecordsForeign(s, KeyOf(b))) <==>
            (exists a :: a in requests && Colliding(a, b))
  {
    if a :| a in requests && Colliding(a, b) {
      var s := SharedSlotRecordsForeignDelivery(a, b, requests, repos);
    }
    if s :| Within(Scope(Init(repos), requests, true), s) && RecordsForeign(s, KeyOf(b)) {
      var a := ForeignRecordHasRival(b, requests, repos, s);
    }
  }
}
