/**
  What at-most-once costs, and what it does not: once an attempt has begun, and nobody is delivering for
  its key or knows its delivery, it can still be recorded if and only if its pull request is open.
 */
module DeliveryDeadEnds {
  import opened Basics
  import opened Jobs
  import opened GitHub
  import opened DeliveryStore
  import opened DeliveryProtocol
  import opened DeliveryInvariant
  import opened DeliveryPreservation
  import opened DeliveryTheorems
  import opened DeliveryRuns

  predicate DeliversFor(pc: Pc, k: DeliveryKey) {
    pc.Delivering? && pc.call.Key() == k
  }

  /** No executor is inside `deliver` for `k`. */
  ghost predicate NobodyDelivers(executors: map<ExecutorId, Pc>, k: DeliveryKey) {
    forall e :: e in executors ==> !DeliversFor(executors[e], k)
  }

  /** A pull request was made on behalf of `k`. */
  predicate HasPull(made: map<Site, Creation>, k: DeliveryKey) {
    SiteOf(k) in made && made[SiteOf(k)].key == k && made[SiteOf(k)].pull.Some?
  }

  /** The attempt has begun, its call of `deliver` is over, and there is no pull request of its own. */
  ghost predicate LostDelivery(s: State, k: DeliveryKey) {
    Started(s.attempts, k) && NobodyDelivers(s.executors, k) && !HasPull(s.made, k)
  }

  lemma ExecuteStartsNoDelivery(s: State, e: ExecutorId, call: Call, reply: Reply, k: DeliveryKey)
    requires NobodyDelivers(s.executors, k)
    ensures NobodyDelivers(DoExecute(s, e, call, reply).executors, k)
  {
    ExecuteExecutors(s, e, call, reply);
  }

  lemma BeginStartsNoDelivery(s: State, e: ExecutorId, reply: Reply, k: DeliveryKey)
    requires NobodyDelivers(s.executors, k) && Started(s.attempts, k)
    ensures NobodyDelivers(DoBegin(s, e, reply).executors, k)
  {
  }

  lemma DeliverStartsNoDelivery(s: State, e: ExecutorId, reply: Reply, number: int, url: string, k: DeliveryKey)
    requires NobodyDelivers(s.executors, k)
    ensures NobodyDelivers(DoDeliver(s, e, reply, number, url).executors, k)
  {
    if s.PcOf(e).Delivering? {
      assert !DeliversFor(s.executors[e], k);
    }
  }

  lemma SucceedStartsNoDelivery(s: State, e: ExecutorId, call: Call, d: Delivery, reply: Reply, k: DeliveryKey)
    requires NobodyDelivers(s.executors, k)
    ensures NobodyDelivers(DoSucceed(s, e, call, d, reply).executors, k)
  {
  }

  /** Nobody starts delivering for a key whose attempt has begun. */
  lemma StepStartsNoDelivery(s: State, step: Step, k: DeliveryKey)
    requires NobodyDelivers(s.executors, k) && Started(s.attempts, k)
    ensures NobodyDelivers(Do(s, step).executors, k)
  {
    match step
    case Execute(e, call, reply) => ExecuteStartsNoDelivery(s, e, call, reply, k);
    case Begin(e, reply) => BeginStartsNoDelivery(s, e, reply, k);
    case Deliver(e, reply, number, url) => DeliverStartsNoDelivery(s, e, reply, number, url, k);
    case Record(e, reply) =>
      if s.PcOf(e).Recording? {
        SucceedStartsNoDelivery(s, e, s.PcOf(e).call, s.PcOf(e).delivery, reply, k);
      }
    case Confirm(e, reply) =>
      if s.PcOf(e).Confirming? {
        SucceedStartsNoDelivery(s, e, s.PcOf(e).call, s.PcOf(e).delivery, reply, k);
      }
    case _ =>
  }

  /** What was made for another key, or on behalf of nobody, does not become a pull request of `k`. */
  lemma PostRefMakesNoPull(s: State, e: ExecutorId, call: Call, commit: Commit, reply: Reply, k: DeliveryKey)
    requires !HasPull(s.made, k)
    ensures !HasPull(DoPostRef(s, e, call, commit, reply).made, k)
  {
  }

  lemma PostPullMakesNoPull(s: State, e: ExecutorId, call: Call, commit: Commit, reply: Reply, number: int, url: string, k: DeliveryKey)
    requires !HasPull(s.made, k) && call.Key() != k && ProgressInv(call, PostPull(commit), s.made)
    ensures !HasPull(DoPostPull(s, e, call, commit, reply, number, url).made, k)
  {
  }

  lemma DeliverMakesNoPull(s: State, e: ExecutorId, reply: Reply, number: int, url: string, k: DeliveryKey)
    requires s.PcOf(e).Delivering? && s.PcOf(e).call.Key() != k && ProgressInv(s.PcOf(e).call, s.PcOf(e).at, s.made)
    requires !HasPull(s.made, k)
    ensures !HasPull(DoDeliver(s, e, reply, number, url).made, k)
  {
    var Delivering(call, at) := s.PcOf(e);
    if at.PostRef? {
      PostRefMakesNoPull(s, e, call, at.commit, reply, k);
    } else if at.PostPull? {
      PostPullMakesNoPull(s, e, call, at.commit, reply, number, url, k);
    }
  }

  lemma StepMakesNoPull(s: State, step: Step, k: DeliveryKey)
    requires ExecutorsInv(s.executors, s.attempts, s.made, s.invoked)
    requires NobodyDelivers(s.executors, k) && !HasPull(s.made, k)
    ensures !HasPull(Do(s, step).made, k)
  {
    if step.Deliver? && s.PcOf(step.e).Delivering? {
      assert PcInv(step.e, s.executors[step.e], s.attempts, s.made, s.invoked);
      assert !DeliversFor(s.executors[step.e], k);
      DeliverMakesNoPull(s, step.e, step.reply, step.number, step.url, k);
    } else if !step.Outside? {
      OthersWriteNothing(s, step);
    }
  }

  lemma LostStays(s: State, step: Step, k: DeliveryKey)
    requires Inv(s) && LostDelivery(s, k)
    ensures LostDelivery(Do(s, step), k)
  {
    RowsOnlyAdvance(s, step, k);
    StepStartsNoDelivery(s, step, k);
    StepMakesNoPull(s, step, k);
  }

  lemma {:induction false} LostForGood(s: State, steps: seq<Step>, k: DeliveryKey)
    requires Inv(s) && LostDelivery(s, k)
    ensures Inv(Run(s, steps)) && LostDelivery(Run(s, steps), k)
  {
    if steps != [] {
      LostForGood(s, steps[..|steps| - 1], k);
      StepInv(Run(s, steps[..|steps| - 1]), steps[|steps| - 1]);
      LostStays(Run(s, steps[..|steps| - 1]), steps[|steps| - 1], k);
    }
  }

  /**
    A lost delivery is never repaired: in every continuation the key has no pull request of its own,
    and if its attempt ever succeeds, it has recorded the pull request of another key.
   */
  lemma LostDeliveryIsNeverRepaired(s: State, steps: seq<Step>, k: DeliveryKey)
    requires Reachable(s) && LostDelivery(s, k)
    ensures var s' := Run(s, steps);
            && k in s'.attempts && s'.attempts[k].status in {InProgress, Succeeded} && !HasPull(s'.made, k)
            && (s'.attempts[k].status == Succeeded ==> SiteOf(k) in s'.made && s'.made[SiteOf(k)].key != k)
  {
    ReachableInv(s);
    LostForGood(s, steps, k);
    assert RowInv(k, Run(s, steps).attempts[k], Run(s, steps).made);
  }

  // ---- which steps lose a delivery ----

  /** The next request of `deliver` fails, or its answer is lost, without leaving a pull request. */
  predicate Fails(repos: Repositories, call: Call, at: Progress, reply: Reply, number: int) {
    var r, branch := call.request.repository, BranchName(call.request.job.jobId);
    || reply.Refused? || r !in repos
    || (match at
        case ReadBase => reply.Lost? || call.request.baseBranch !in repos[r].refs
        case CheckBranch(_) => reply.Lost? || branch in repos[r].refs
        case PostBlobs(_, _) => reply.Lost?
        case PostRef(_) => reply.Lost? || branch in repos[r].refs
        case PostPull(_) => NumberTaken(repos[r], number))
  }

  /**
    A `begin` that takes effect but is not answered; stopping inside `deliver`; or a failing request of
    `deliver`. A pull request that is created without an answer is not among them.
   */
  predicate Loses(s: State, step: Step, k: DeliveryKey) {
    match step
    case Begin(e, reply) =>
      && reply.Lost? && s.PcOf(e).Starting? && s.PcOf(e).call.Key() == k
      && MayAct(s.attempts, k, Pending, s.PcOf(e).call.owner, s.now)
    case Stop(e) => DeliversFor(s.PcOf(e), k)
    case Deliver(e, reply, number, _) =>
      DeliversFor(s.PcOf(e), k) && Fails(s.repos, s.PcOf(e).call, s.PcOf(e).at, reply, number)
    case _ => false
  }

  /** What happens to the one executor that delivers for `k`. */
  predicate EndsWithout(s: State, e: ExecutorId, k: DeliveryKey) {
    s.PcOf(e).Ready? && !HasPull(s.made, k)
  }

  predicate GoesOn(s: State, e: ExecutorId, k: DeliveryKey) {
    DeliversFor(s.PcOf(e), k) || HasPull(s.made, k)
  }

  lemma AdvanceOutcome(s: State, e: ExecutorId, call: Call, at: Progress, reply: Reply, number: int)
    requires !at.PostRef? && !at.PostPull? && !HasPull(s.made, call.Key()) && !reply.Refused?
    ensures var s' := DoAdvance(s, e, call, at, reply);
            if Fails(s.repos, call, at, reply, number) then EndsWithout(s', e, call.Key()) else GoesOn(s', e, call.Key())
  {
  }

  lemma PostRefOutcome(s: State, e: ExecutorId, call: Call, commit: Commit, reply: Reply, number: int)
    requires !HasPull(s.made, call.Key()) && !reply.Refused?
    ensures var s' := DoPostRef(s, e, call, commit, reply);
            if Fails(s.repos, call, PostRef(commit), reply, number) then EndsWithout(s', e, call.Key()) else GoesOn(s', e, call.Key())
  {
    PostRefMakesNoPull(s, e, call, commit, reply, call.Key());
  }

  lemma PostPullOutcome(s: State, e: ExecutorId, call: Call, commit: Commit, reply: Reply, number: int, url: string)
    requires !HasPull(s.made, call.Key()) && !reply.Refused? && ReposInv(s.repos, s.made)
    requires ProgressInv(call, PostPull(commit), s.made)
    ensures var s' := DoPostPull(s, e, call, commit, reply, number, url);
            if Fails(s.repos, call, PostPull(commit), reply, number) then EndsWithout(s', e, call.Key()) else GoesOn(s', e, call.Key())
  {
  }

  lemma DeliverOutcome(s: State, e: ExecutorId, reply: Reply, number: int, url: string)
    requires s.PcOf(e).Delivering? && ReposInv(s.repos, s.made)
    requires ProgressInv(s.PcOf(e).call, s.PcOf(e).at, s.made)
    ensures var s' := DoDeliver(s, e, reply, number, url);
            var Delivering(call, at) := s.PcOf(e);
            if Fails(s.repos, call, at, reply, number) then EndsWithout(s', e, call.Key()) else GoesOn(s', e, call.Key())
  {
    var Delivering(call, at) := s.PcOf(e);
    UnfinishedHasNoPull(call, at, s.made);
    if !reply.Refused? {
      if at.PostRef? {
        PostRefOutcome(s, e, call, at.commit, reply, number);
      } else if at.PostPull? {
        PostPullOutcome(s, e, call, at.commit, reply, number, url);
      } else {
        AdvanceOutcome(s, e, call, at, reply, number);
      }
    }
  }

  lemma UnfinishedHasNoPull(call: Call, at: Progress, made: map<Site, Creation>)
    requires ProgressInv(call, at, made)
    ensures !HasPull(made, call.Key())
  {
  }

  /** Before an attempt has begun nothing was delivered for its key. */
  lemma NotBegunIsUntouched(s: State, k: DeliveryKey)
    requires Inv(s) && !Started(s.attempts, k)
    ensures NobodyDelivers(s.executors, k) && !HasPull(s.made, k)
  {
    forall e | e in s.executors
      ensures !DeliversFor(s.executors[e], k)
    {
      assert PcInv(e, s.executors[e], s.attempts, s.made, s.invoked);
    }
  }

  /** If `e` delivered for `k` and is the only one to move, then afterwards nobody but `e` can. */
  lemma OthersDoNotDeliver(s: State, s': State, e: ExecutorId, k: DeliveryKey)
    requires Inv(s) && DeliversFor(s.PcOf(e), k) && !DeliversFor(s'.PcOf(e), k)
    requires forall f :: f != e ==> s'.PcOf(f) == s.PcOf(f)
    ensures NobodyDelivers(s'.executors, k)
  {
    forall f | f in s'.executors
      ensures !DeliversFor(s'.executors[f], k)
    {
      assert s'.executors[f] == s'.PcOf(f);
      if f != e && DeliversFor(s.PcOf(f), k) {
        SoleDeliverer(s, e, f);
      }
    }
  }

  /** The losing steps do lose the delivery. */
  lemma LosingStepLoses(s: State, step: Step, k: DeliveryKey)
    requires Inv(s) && Loses(s, step, k)
    ensures LostDelivery(Do(s, step), k)
  {
    match step
    case Begin(e, reply) =>
      NotBegunIsUntouched(s, k);
    case Stop(e) =>
      assert PcInv(e, s.executors[e], s.attempts, s.made, s.invoked);
      UnfinishedHasNoPull(s.PcOf(e).call, s.PcOf(e).at, s.made);
      OthersDoNotDeliver(s, Do(s, step), e, k);
    case Deliver(e, reply, number, url) =>
      FailingRequestLoses(s, e, reply, number, url, k);
  }

  lemma FailingRequestLoses(s: State, e: ExecutorId, reply: Reply, number: int, url: string, k: DeliveryKey)
    requires Inv(s) && DeliversFor(s.PcOf(e), k) && Fails(s.repos, s.PcOf(e).call, s.PcOf(e).at, reply, number)
    ensures LostDelivery(DoDeliver(s, e, reply, number, url), k)
  {
    var s' := DoDeliver(s, e, reply, number, url);
    assert PcInv(e, s.executors[e], s.attempts, s.made, s.invoked);
    DeliverOutcome(s, e, reply, number, url);
    DeliverKeepsRows(s, e, reply, number, url);
    forall f | f != e
      ensures s'.PcOf(f) == s.PcOf(f)
    {
      DeliverMovesOnly(s, e, reply, number, url, f);
    }
    OthersDoNotDeliver(s, s', e, k);
  }

  lemma DeliverKeepsPull(s: State, e: ExecutorId, reply: Reply, number: int, url: string, k: DeliveryKey)
    requires ReposInv(s.repos, s.made) && s.PcOf(e).Delivering? && HasPull(s.made, k)
    ensures HasPull(DoDeliver(s, e, reply, number, url).made, k)
  {
    var Delivering(call, at) := s.PcOf(e);
    if at.PostRef? {
      PostRefCases(s, e, call, at.commit, reply);
    }
  }

  /** A pull request that was made remains made. */
  lemma PullStays(s: State, step: Step, k: DeliveryKey)
    requires ReposInv(s.repos, s.made) && HasPull(s.made, k)
    ensures HasPull(Do(s, step).made, k)
  {
    if step.Deliver? && s.PcOf(step.e).Delivering? {
      DeliverKeepsPull(s, step.e, step.reply, step.number, step.url, k);
    } else if !step.Outside? {
      OthersWriteNothing(s, step);
    }
  }

  lemma ExecuteBeginsNothing(s: State, e: ExecutorId, call: Call, reply: Reply, k: DeliveryKey)
    requires !Started(s.attempts, k)
    ensures !Started(DoExecute(s, e, call, reply).attempts, k)
  {
    if s.PcOf(e).Ready? && Admitted(call) && !reply.Refused? {
      var row := AcquiredRow(s.attempts, call.Key(), call.owner, call.leaseSeconds, s.now);
      AcquiredKeepsRows(s.(attempts := s.attempts[call.Key() := row]), e, call, row);
    }
  }

  lemma SucceedBeginsNothing(s: State, e: ExecutorId, call: Call, d: Delivery, reply: Reply, k: DeliveryKey)
    requires !Started(s.attempts, k)
    ensures !Started(DoSucceed(s, e, call, d, reply).attempts, k)
  {
    SucceedWrites(s, e, call, d, reply);
  }

  /** Only an accepted `begin` starts an attempt, and if it is answered, its executor delivers. */
  lemma OnlyBeginStarts(s: State, step: Step, k: DeliveryKey)
    requires !Started(s.attempts, k) && LostDelivery(Do(s, step), k)
    ensures Loses(s, step, k)
  {
    match step
    case Execute(e, call, reply) => ExecuteBeginsNothing(s, e, call, reply, k);
    case Begin(e, reply) =>
      assert !DeliversFor(Do(s, step).PcOf(e), k);
    case Deliver(e, reply, number, url) => DeliverKeepsRows(s, e, reply, number, url);
    case Record(e, reply) =>
      if s.PcOf(e).Recording? {
        SucceedBeginsNothing(s, e, s.PcOf(e).call, s.PcOf(e).delivery, reply, k);
      }
    case Confirm(e, reply) =>
      if s.PcOf(e).Confirming? {
        SucceedBeginsNothing(s, e, s.PcOf(e).call, s.PcOf(e).delivery, reply, k);
      }
    case _ =>
  }

  /** An executor leaves `deliver` only by stopping or by a failing or last request. */
  lemma LeavingDeliver(s: State, step: Step, e: ExecutorId, k: DeliveryKey)
    requires Inv(s) && DeliversFor(s.PcOf(e), k) && LostDelivery(Do(s, step), k)
    ensures Loses(s, step, k)
  {
    assert !DeliversFor(Do(s, step).PcOf(e), k);
    if Foreign(step, e) {
      ForeignKeepsPc(s, step, e);
    } else if step.Deliver? {
      assert PcInv(e, s.executors[e], s.attempts, s.made, s.invoked);
      DeliverOutcome(s, e, step.reply, step.number, step.url);
    }
  }

  /** Exactly these steps turn a delivery that is not lost into a lost one. */
  lemma LosingSteps(s: State, step: Step, k: DeliveryKey)
    requires Reachable(s) && !LostDelivery(s, k)
    ensures LostDelivery(Do(s, step), k) <==> Loses(s, step, k)
  {
    ReachableInv(s);
    if Loses(s, step, k) {
      LosingStepLoses(s, step, k);
    } else if LostDelivery(Do(s, step), k) {
      if !Started(s.attempts, k) {
        OnlyBeginStarts(s, step, k);
      } else if HasPull(s.made, k) {
        PullStays(s, step, k);
      } else {
        var e :| e in s.executors && DeliversFor(s.executors[e], k);
        LeavingDeliver(s, step, e, k);
      }
    }
  }

  // ---- when an attempt can still be recorded ----

  /** `k` is recorded with the pull request that its own delivery made. */
  predicate RecordsOwn(s: State, k: DeliveryKey) {
    && k in s.attempts && s.attempts[k].status == Succeeded
    && SiteOf(k) in s.made && s.made[SiteOf(k)].key == k
  }

  /** An executor drops what it was doing, and the lease of the attempt runs out. */
  lemma LeaseRunsOut(sc: Scope, s: State, e: ExecutorId, k: DeliveryKey) returns (s': State)
    requires Within(sc, s) && k in s.attempts && s.attempts[k].Unresolved()
    ensures Within(sc, s') && s'.PcOf(e).Ready?
    ensures s'.attempts == s.attempts && s'.repos == s.repos && s'.made == s.made && Takeable(s'.attempts[k], s'.now)
  {
    var lease := s.attempts[k].leaseUntil;
    var dt := if lease.Some? && lease.value >= s.now then lease.value - s.now + 1.0 else 0.0;
    WithinStep(sc, s, Stop(e));
    WithinStep(sc, Do(s, Stop(e)), Tick(dt));
    s' := Do(Do(s, Stop(e)), Tick(dt));
  }

  /**
    From every reachable state with the attempt in progress and an open pull request of its slot, any
    executor can go on to record exactly that pull request, without anything changing remotely.
   */
  lemma OpenPullCanBeRecorded(sc: Scope, s: State, e: ExecutorId, call: Call, i: nat) returns (s': State)
    requires Reachable(s) && Within(sc, s) && Admitted(call) && call.request in sc.requests
    requires call.Key() in s.attempts && s.attempts[call.Key()].status == InProgress
    requires call.request.repository in s.repos && i < |s.repos[call.request.repository].pulls|
    requires IsDelivery(s.repos[call.request.repository].pulls[i], BranchName(call.request.job.jobId), call.request.baseBranch)
    requires ValidBranch(BranchName(call.request.job.jobId))
    ensures Within(sc, s') && s'.made == s.made && s'.repos == s.repos && call.Key() in s'.attempts
    ensures var a, repo := s'.attempts[call.Key()], s.repos[call.request.repository];
            var p := repo.pulls[i];
            && a.status == Succeeded && a.number == Some(p.number) && a.url == Some(p.url)
            && p.head in repo.refs && a.commit == Some(repo.refs[p.head])
  {
    var p := s.repos[call.request.repository].pulls[i];
    SentinelSite(call.Key());
    OpenDeliveryIsFound(s, call.request.repository, i);
    var s1 := LeaseRunsOut(sc, s, e, call.Key());
    s' := Reconciled(sc, s1, e, call, Delivery(p.number, p.url, s.repos[call.request.repository].refs[p.head]));
  }

  // ---- and when it cannot ----

  /** The executor has heard of a delivery for `k`, and records it next. */
  predicate KnowsDelivery(pc: Pc, k: DeliveryKey) {
    (pc.Recording? || pc.Confirming?) && pc.call.Key() == k
  }

  ghost predicate NobodyKnows(executors: map<ExecutorId, Pc>, k: DeliveryKey) {
    forall e :: e in executors ==> !KnowsDelivery(executors[e], k)
  }

  /** The provider lists an open pull request from the branch of `k` into its base. */
  ghost predicate PullIsOpen(repos: Repositories, k: DeliveryKey) {
    && k.repository in repos
    && exists i :: 0 <= i < |repos[k.repository].pulls|
                   && IsDelivery(repos[k.repository].pulls[i], BranchName(k.jobId), k.baseBranch)
  }

  /** What a lookup for `k` can find: the pull request is open and the branch name is accepted. */
  ghost predicate Visible(repos: Repositories, k: DeliveryKey) {
    PullIsOpen(repos, k) && ValidBranch(BranchName(k.jobId))
  }

  /** The pull request of the attempt exists, but nobody knows it and no lookup can find it. */
  ghost predicate Hidden(s: State, k: DeliveryKey) {
    && k in s.attempts && s.attempts[k].status == InProgress && HasPull(s.made, k)
    && NobodyKnows(s.executors, k) && !Visible(s.repos, k)
  }

  lemma FoundIsVisible(repos: Repositories, k: DeliveryKey)
    requires k.repository in repos && ValidBranch(BranchName(k.jobId))
    requires Found(repos[k.repository], BranchName(k.jobId), k.baseBranch).Some?
    ensures Visible(repos, k)
  {
    FoundIsDelivery(repos[k.repository], BranchName(k.jobId), k.baseBranch, 0);
  }

  lemma LookLearnsNothing(s: State, e: ExecutorId, reply: Reply, k: DeliveryKey)
    requires NobodyKnows(s.executors, k) && !Visible(s.repos, k)
    ensures NobodyKnows(DoLook(s, e, reply).executors, k)
  {
    if s.PcOf(e).Reconciling? && s.PcOf(e).call.Key() == k && k.repository in s.repos
       && ValidBranch(BranchName(k.jobId)) && Found(s.repos[k.repository], BranchName(k.jobId), k.baseBranch).Some? {
      FoundIsVisible(s.repos, k);
    }
  }

  lemma DeliverLearnsNothing(s: State, e: ExecutorId, reply: Reply, number: int, url: string, k: DeliveryKey)
    requires NobodyKnows(s.executors, k) && NobodyDelivers(s.executors, k)
    ensures NobodyKnows(DoDeliver(s, e, reply, number, url).executors, k)
  {
    if s.PcOf(e).Delivering? {
      assert !DeliversFor(s.executors[e], k);
    }
  }

  lemma ExecuteLearnsNothing(s: State, e: ExecutorId, call: Call, reply: Reply, k: DeliveryKey)
    requires NobodyKnows(s.executors, k)
    ensures NobodyKnows(DoExecute(s, e, call, reply).executors, k)
  {
    ExecuteExecutors(s, e, call, reply);
  }

  lemma SucceedLearnsNothing(s: State, e: ExecutorId, call: Call, d: Delivery, reply: Reply, k: DeliveryKey)
    requires NobodyKnows(s.executors, k)
    ensures NobodyKnows(DoSucceed(s, e, call, d, reply).executors, k)
  {
  }

  lemma StepLearnsNothing(s: State, step: Step, k: DeliveryKey)
    requires NobodyKnows(s.executors, k) && NobodyDelivers(s.executors, k) && !Visible(s.repos, k)
    ensures NobodyKnows(Do(s, step).executors, k)
  {
    match step
    case Execute(e, call, reply) => ExecuteLearnsNothing(s, e, call, reply, k);
    case Deliver(e, reply, number, url) => DeliverLearnsNothing(s, e, reply, number, url, k);
    case Look(e, reply) => LookLearnsNothing(s, e, reply, k);
    case Record(e, reply) =>
      if s.PcOf(e).Recording? {
        SucceedLearnsNothing(s, e, s.PcOf(e).call, s.PcOf(e).delivery, reply, k);
      }
    case Confirm(e, reply) =>
      if s.PcOf(e).Confirming? {
        SucceedLearnsNothing(s, e, s.PcOf(e).call, s.PcOf(e).delivery, reply, k);
      }
    case _ =>
  }

  /** A pull request that is posted elsewhere does not open one in the slot of `k`. */
  lemma PostPullShowsNothing(s: State, e: ExecutorId, call: Call, commit: Commit, reply: Reply, number: int, url: string, k: DeliveryKey)
    requires HasPull(s.made, k) && ProgressInv(call, PostPull(commit), s.made)
    ensures PullIsOpen(DoPostPull(s, e, call, commit, reply, number, url).repos, k) ==> PullIsOpen(s.repos, k)
  {
    var repos' := DoPostPull(s, e, call, commit, reply, number, url).repos;
    assert SiteOf(call.Key()) != SiteOf(k);
    if i :| k.repository in repos' && 0 <= i < |repos'[k.repository].pulls|
            && IsDelivery(repos'[k.repository].pulls[i], BranchName(k.jobId), k.baseBranch) {
      assert i < |s.repos[k.repository].pulls| && s.repos[k.repository].pulls[i] == repos'[k.repository].pulls[i];
    }
  }

  lemma PostRefShowsNothing(s: State, e: ExecutorId, call: Call, commit: Commit, reply: Reply, k: DeliveryKey)
    ensures PullIsOpen(DoPostRef(s, e, call, commit, reply).repos, k) ==> PullIsOpen(s.repos, k)
  {
    var repos' := DoPostRef(s, e, call, commit, reply).repos;
    assert forall r :: r in repos' ==> r in s.repos && repos'[r].pulls == s.repos[r].pulls;
  }

  lemma StepShowsNothing(s: State, step: Step, k: DeliveryKey)
    requires ExecutorsInv(s.executors, s.attempts, s.made, s.invoked)
    requires !step.Outside? && HasPull(s.made, k) && !PullIsOpen(s.repos, k)
    ensures !PullIsOpen(Do(s, step).repos, k)
  {
    if step.Deliver? && s.PcOf(step.e).Delivering? {
      var Delivering(call, at) := s.PcOf(step.e);
      assert PcInv(step.e, s.executors[step.e], s.attempts, s.made, s.invoked);
      if step.reply.Refused? {
      } else if at.PostRef? {
        PostRefShowsNothing(s, step.e, call, at.commit, step.reply, k);
      } else if at.PostPull? {
        PostPullShowsNothing(s, step.e, call, at.commit, step.reply, step.number, step.url, k);
      }
    } else {
      OthersWriteNothing(s, step);
    }
  }

  lemma ExecuteRecordsNothing(s: State, e: ExecutorId, call: Call, reply: Reply, k: DeliveryKey)
    requires k in s.attempts && s.attempts[k].status == InProgress
    ensures k in DoExecute(s, e, call, reply).attempts && DoExecute(s, e, call, reply).attempts[k].status == InProgress
  {
    if s.PcOf(e).Ready? && Admitted(call) && !reply.Refused? {
      var row := AcquiredRow(s.attempts, call.Key(), call.owner, call.leaseSeconds, s.now);
      AcquiredKeepsRows(s.(attempts := s.attempts[call.Key() := row]), e, call, row);
    }
  }

  /** Only an executor that knows a delivery for `k` can record one. */
  lemma StepRecordsNothing(s: State, step: Step, k: DeliveryKey)
    requires k in s.attempts && s.attempts[k].status == InProgress && NobodyKnows(s.executors, k)
    ensures k in Do(s, step).attempts && Do(s, step).attempts[k].status == InProgress
  {
    match step
    case Execute(e, call, reply) => ExecuteRecordsNothing(s, e, call, reply, k);
    case Deliver(e, reply, number, url) => DeliverKeepsRows(s, e, reply, number, url);
    case Record(e, reply) =>
      if s.PcOf(e).Recording? {
        assert !KnowsDelivery(s.executors[e], k);
        SucceedWrites(s, e, s.PcOf(e).call, s.PcOf(e).delivery, reply);
      }
    case Confirm(e, reply) =>
      if s.PcOf(e).Confirming? {
        assert !KnowsDelivery(s.executors[e], k);
        SucceedWrites(s, e, s.PcOf(e).call, s.PcOf(e).delivery, reply);
      }
    case _ =>
  }

  /** A key with a pull request has nobody delivering for it. */
  lemma PulledIsNotDelivered(s: State, k: DeliveryKey)
    requires ExecutorsInv(s.executors, s.attempts, s.made, s.invoked) && HasPull(s.made, k)
    ensures NobodyDelivers(s.executors, k)
  {
    forall e | e in s.executors
      ensures !DeliversFor(s.executors[e], k)
    {
      assert PcInv(e, s.executors[e], s.attempts, s.made, s.invoked);
      if DeliversFor(s.executors[e], k) {
        UnfinishedHasNoPull(s.executors[e].call, s.executors[e].at, s.made);
      }
    }
  }

  lemma HiddenStays(s: State, step: Step, k: DeliveryKey)
    requires Inv(s) && Hidden(s, k) && !step.Outside?
    ensures Hidden(Do(s, step), k)
  {
    PulledIsNotDelivered(s, k);
    StepRecordsNothing(s, step, k);
    PullStays(s, step, k);
    StepLearnsNothing(s, step, k);
    if !PullIsOpen(s.repos, k) {
      StepShowsNothing(s, step, k);
    }
  }

  lemma {:induction false} HiddenForGood(sc: Scope, steps: seq<Step>, k: DeliveryKey)
    requires Inv(sc.origin) && Hidden(sc.origin, k) && AllInScope(steps, sc) && !sc.outsiders
    ensures Inv(Run(sc.origin, steps)) && Hidden(Run(sc.origin, steps), k)
  {
    if steps != [] {
      var past, last := steps[..|steps| - 1], steps[|steps| - 1];
      assert InScope(last, sc);
      HiddenForGood(sc, past, k);
      StepInv(Run(sc.origin, past), last);
      HiddenStays(Run(sc.origin, past), last, k);
    }
  }

  /** An open pull request of an unshared slot is the key's own. */
  lemma OpenPullIsOwn(s: State, k: DeliveryKey)
    requires Reachable(s) && Unshared(s.attempts, k) && PullIsOpen(s.repos, k)
    ensures HasPull(s.made, k)
  {
    var i :| 0 <= i < |s.repos[k.repository].pulls|
             && IsDelivery(s.repos[k.repository].pulls[i], BranchName(k.jobId), k.baseBranch);
    SentinelSite(k);
    PullNeedsBranch(s, k.repository, i);
    ReachableInv(s);
    var maker := s.made[SiteOf(k)].key;
    assert CreationInv(SiteOf(k), s.made[SiteOf(k)], s.invoked);
    var n :| 0 <= n < |s.invoked| && s.invoked[n].key == maker && s.invoked[n].request == s.made[SiteOf(k)].request;
    assert Started(s.attempts, s.invoked[n].key);
    assert SameSlot(maker, k);
  }

  lemma VisibleCanBeRecorded(s: State, call: Call, requests: set<Request>) returns (s': State)
    requires Reachable(s) && Admitted(call) && call.request in requests && HasPull(s.made, call.Key())
    requires call.Key() in s.attempts && s.attempts[call.Key()].status == InProgress && Visible(s.repos, call.Key())
    ensures Within(Scope(s, requests, false), s') && RecordsOwn(s', call.Key())
  {
    var sc, k := Scope(s, requests, false), call.Key();
    var i :| 0 <= i < |s.repos[k.repository].pulls|
             && IsDelivery(s.repos[k.repository].pulls[i], BranchName(k.jobId), k.baseBranch);
    WithinOrigin(sc);
    s' := OpenPullCanBeRecorded(sc, s, "e", call, i);
  }

  lemma RecordedWasVisible(s: State, k: DeliveryKey, requests: set<Request>, s': State)
    requires Reachable(s) && k in s.attempts && s.attempts[k].status == InProgress
    requires NobodyDelivers(s.executors, k) && NobodyKnows(s.executors, k)
    requires Within(Scope(s, requests, false), s') && RecordsOwn(s', k)
    ensures HasPull(s.made, k) && Visible(s.repos, k)
  {
    var sc := Scope(s, requests, false);
    var steps :| AllInScope(steps, sc) && s' == Run(s, steps);
    if !HasPull(s.made, k) {
      LostDeliveryIsNeverRepaired(s, steps, k);
    } else if !Visible(s.repos, k) {
      ReachableInv(s);
      HiddenForGood(sc, steps, k);
    }
  }

  /**
    The exact condition. Take an attempt in progress for whose key nobody is delivering and nobody knows
    a delivery. Whatever requests are made, the system itself can still bring it to record its own
    delivery if and only if that delivery has made a pull request, which the provider shows open, from a
    branch whose name the lookup accepts. If no other attempt shares the slot, that is if and only if the
    provider shows an open pull request from the branch into the base.
   */
  lemma RecoverableIffPullOpen(s: State, call: Call, requests: set<Request>)
    requires Reachable(s) && Admitted(call) && call.request in requests
    requires call.Key() in s.attempts && s.attempts[call.Key()].status == InProgress
    requires NobodyDelivers(s.executors, call.Key()) && NobodyKnows(s.executors, call.Key())
    ensures var recordable := exists s' :: Within(Scope(s, requests, false), s') && RecordsOwn(s', call.Key());
            && (recordable <==> HasPull(s.made, call.Key()) && Visible(s.repos, call.Key()))
            && (Unshared(s.attempts, call.Key()) ==> (recordable <==> Visible(s.repos, call.Key())))
  {
    var k := call.Key();
    if HasPull(s.made, k) && Visible(s.repos, k) {
      var s' := VisibleCanBeRecorded(s, call, requests);
    }
    if s' :| Within(Scope(s, requests, false), s') && RecordsOwn(s', k) {
      RecordedWasVisible(s, k, requests, s');
    }
    if Unshared(s.attempts, k) && Visible(s.repos, k) {
      OpenPullIsOwn(s, k);
    }
  }

  // ---- a closed pull request ----

  function WithOpen(repo: Repository, b: string, open: bool): Repository {
    repo.(pulls := seq(|repo.pulls|, i requires 0 <= i < |repo.pulls| =>
                         if repo.pulls[i].head == b then repo.pulls[i].(open := open) else repo.pulls[i]))
  }

  /** Anybody may close the pull requests from a branch. */
  lemma ClosingIsOutside(repo: Repository, b: string)
    ensures OutsideChange(repo, WithOpen(repo, b, false))
    ensures forall i :: 0 <= i < |repo.pulls| ==> !IsDelivery(WithOpen(repo, b, false).pulls[i], b, WithOpen(repo, b, false).pulls[i].base)
  {
  }

  lemma Closed(sc: Scope, s: State, k: DeliveryKey) returns (s': State)
    requires Within(sc, s) && sc.outsiders && k.repository in s.repos
    ensures Within(sc, s') && s' == s.(repos := s'.repos) && !PullIsOpen(s'.repos, k)
  {
    var repo, b := s.repos[k.repository], BranchName(k.jobId);
    ClosingIsOutside(repo, b);
    WithinStep(sc, s, Outside(k.repository, WithOpen(repo, b, false)));
    s' := Do(s, Outside(k.repository, WithOpen(repo, b, false)));
  }

  lemma HiddenIsNeverRecorded(s: State, k: DeliveryKey, requests: set<Request>, s': State)
    requires Reachable(s) && Hidden(s, k) && Within(Scope(s, requests, false), s')
    ensures k in s'.attempts && s'.attempts[k].status == InProgress
  {
    var sc := Scope(s, requests, false);
    var steps :| AllInScope(steps, sc) && s' == Run(s, steps);
    HiddenForGood(sc, steps, k) by { ReachableInv(s); }
  }

  /** The pull request was created, its executor was lost, and somebody closed it before anybody looked. */
  lemma ClosedUnseen(repos: Repositories, call: Call) returns (s: State)
    requires Clean(repos) && Admitted(call) && call.request.repository in repos
    requires call.request.baseBranch in repos[call.request.repository].refs
    ensures Reachable(s) && Hidden(s, call.Key())
  {
    var sc, k := Scope(Init(repos), {call.request}, true), call.Key();
    assert Reachable(Init(repos)) by { assert Init(repos) == Run(Init(repos), []); }
    var s1 := DeliveredFirst(sc, "e", call);
    WithinStep(sc, s1, Stop("e"));
    var s2 := Do(s1, Stop("e"));
    s := Closed(sc, s2, k);
    WithinReachable(sc, s);
    forall f | f in s.executors
      ensures s.executors[f].Ready?
    {
      assert s.executors[f] == s.PcOf(f) == s2.PcOf(f);
      assert f != "e" ==> s2.PcOf(f) == s1.PcOf(f);
    }
  }

  /**
    A delivery whose pull request exists and whose attempt the system by itself can never record: for
    any admitted call there is such a state, and the attempt stays in progress whatever is called then.
   */
  lemma ClosedPullIsNeverRecorded(repos: Repositories, call: Call) returns (s: State)
    requires Clean(repos) && Admitted(call) && call.request.repository in repos
    requires call.request.baseBranch in repos[call.request.repository].refs
    ensures Reachable(s) && HasPull(s.made, call.Key())
    ensures forall requests, s' :: Within(Scope(s, requests, false), s') ==>
              call.Key() in s'.attempts && s'.attempts[call.Key()].status == InProgress
  {
    s := ClosedUnseen(repos, call);
    forall requests, s' | Within(Scope(s, requests, false), s')
      ensures call.Key() in s'.attempts && s'.attempts[call.Key()].status == InProgress
    {
      HiddenIsNeverRecorded(s, call.Key(), requests, s');
    }
  }

  // ---- a branch without a pull request ----

  lemma PostRefKeepsMaker(s: State, e: ExecutorId, call: Call, commit: Commit, reply: Reply, site: Site)
    requires site in s.made && site.repository in s.repos && site.branch in s.repos[site.repository].refs
    ensures var made' := DoPostRef(s, e, call, commit, reply).made;
            site in made' && made'[site].key == s.made[site].key
  {
  }

  lemma PostPullKeepsMaker(s: State, e: ExecutorId, call: Call, commit: Commit, reply: Reply, number: int, url: string, site: Site)
    requires site in s.made
    ensures var made' := DoPostPull(s, e, call, commit, reply, number, url).made;
            site in made' && made'[site].key == s.made[site].key
  {
  }

  lemma DeliverKeepsMaker(s: State, e: ExecutorId, reply: Reply, number: int, url: string, site: Site)
    requires s.PcOf(e).Delivering?
    requires site in s.made && site.repository in s.repos && site.branch in s.repos[site.repository].refs
    ensures var made' := DoDeliver(s, e, reply, number, url).made;
            site in made' && made'[site].key == s.made[site].key
  {
    var Delivering(call, at) := s.PcOf(e);
    if at.PostRef? {
      PostRefKeepsMaker(s, e, call, at.commit, reply, site);
    } else if at.PostPull? {
      PostPullKeepsMaker(s, e, call, at.commit, reply, number, url, site);
    }
  }

  /** Whoever made a branch remains its maker. */
  lemma MakerStays(s: State, step: Step, site: Site)
    requires ReposInv(s.repos, s.made) && site in s.made
    ensures site in Do(s, step).made && Do(s, step).made[site].key == s.made[site].key
  {
    if step.Deliver? && s.PcOf(step.e).Delivering? {
      DeliverKeepsMaker(s, step.e, step.reply, step.number, step.url, site);
    } else if !step.Outside? {
      OthersWriteNothing(s, step);
    }
  }

  lemma {:induction false} MakerStaysForever(s: State, steps: seq<Step>, site: Site)
    requires Inv(s) && site in s.made
    ensures Inv(Run(s, steps))
    ensures site in Run(s, steps).made && Run(s, steps).made[site].key == s.made[site].key
  {
    if steps != [] {
      MakerStaysForever(s, steps[..|steps| - 1], site);
      StepInv(Run(s, steps[..|steps| - 1]), steps[|steps| - 1]);
      MakerStays(Run(s, steps[..|steps| - 1]), steps[|steps| - 1], site);
    }
  }

  /**
    A branch that a lost delivery left behind blocks its slot: no attempt for that branch, under this
    key or any other, succeeds in any continuation.
   */
  lemma AbandonedBranchBlocksForever(s: State, steps: seq<Step>, k: DeliveryKey, other: DeliveryKey)
    requires Reachable(s) && LostDelivery(s, k) && SiteOf(k) in s.made && s.made[SiteOf(k)].key == k
    requires SiteOf(other) == SiteOf(k) && other in Run(s, steps).attempts
    ensures Run(s, steps).attempts[other].status in {Pending, InProgress}
  {
    ReachableInv(s);
    LostForGood(s, steps, k);
    MakerStaysForever(s, steps, SiteOf(k));
    assert RowInv(other, Run(s, steps).attempts[other], Run(s, steps).made);
  }

  /** Such a branch is left behind by an executor that stops between its two writing requests. */
  lemma BranchCanBeAbandoned(repos: Repositories, call: Call) returns (s: State)
    requires Clean(repos) && Admitted(call) && call.request.repository in repos
    requires call.request.baseBranch in repos[call.request.repository].refs
    ensures Reachable(s) && LostDelivery(s, call.Key())
    ensures SiteOf(call.Key()) in s.made && s.made[SiteOf(call.Key())].key == call.Key()
  {
    var sc, k := Scope(Init(repos), {call.request}, false), call.Key();
    assert Reachable(Init(repos)) by { assert Init(repos) == Run(Init(repos), []); }
    WithinOrigin(sc);
    SentinelSite(k);
    var s1, commit := Readied(sc, Init(repos), "e", call);
    var s2 := RefPosted(sc, s1, "e", call, commit);
    WithinReachable(sc, s2);
    s := Do(s2, Stop("e"));
    ReachableStep(s2, Stop("e"));
    LosingStepLoses(s2, Stop("e"), k) by { ReachableInv(s2); }
  }
}
