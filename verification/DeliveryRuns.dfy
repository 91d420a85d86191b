/**
  Building runs of delivery step by step: a scope says where they start and which requests are made,
  and each lemma adds the steps of one phase.
 */
module DeliveryRuns {
  import opened Basics
  import opened Jobs
  import opened Strings
  import opened GitHub
  import opened DeliveryStore
  import opened DeliveryProtocol
  import opened DeliveryInvariant
  import opened DeliveryPreservation
  import opened DeliveryTheorems

  datatype Scope = Scope(origin: State, requests: set<Request>, outsiders: bool)

  /** `execute` is called with these requests only, and others act on the provider only if they may. */
  predicate InScope(step: Step, sc: Scope) {
    (step.Execute? ==> step.call.request in sc.requests) && (step.Outside? ==> sc.outsiders)
  }

  predicate AllInScope(steps: seq<Step>, sc: Scope) {
    forall i :: 0 <= i < |steps| ==> InScope(steps[i], sc)
  }

  ghost predicate Within(sc: Scope, s: State) {
    exists steps :: AllInScope(steps, sc) && s == Run(sc.origin, steps)
  }

  lemma WithinOrigin(sc: Scope)
    ensures Within(sc, sc.origin)
  {
    assert AllInScope([], sc) && sc.origin == Run(sc.origin, []);
  }

  lemma WithinStep(sc: Scope, s: State, step: Step)
    requires Within(sc, s) && InScope(step, sc)
    ensures Within(sc, Do(s, step))
  {
    var steps :| AllInScope(steps, sc) && s == Run(sc.origin, steps);
    var more := steps + [step];
    assert more[..|more| - 1] == steps;
    assert AllInScope(more, sc) && Do(s, step) == Run(sc.origin, more);
  }

  lemma {:induction false} ReachableRun(s: State, steps: seq<Step>)
    requires Reachable(s)
    ensures Reachable(Run(s, steps))
  {
    if steps != [] {
      ReachableRun(s, steps[..|steps| - 1]);
      ReachableStep(Run(s, steps[..|steps| - 1]), steps[|steps| - 1]);
    }
  }

  lemma WithinReachable(sc: Scope, s: State)
    requires Reachable(sc.origin) && Within(sc, s)
    ensures Reachable(s)
  {
    var steps :| AllInScope(steps, sc) && s == Run(sc.origin, steps);
    ReachableRun(sc.origin, steps);
  }

  /** Only `e` has moved. */
  ghost predicate OnlyMoved(s: State, s': State, e: ExecutorId) {
    s' == s.(executors := s'.executors) && forall f :: f != e ==> s'.PcOf(f) == s.PcOf(f)
  }

  /** A first call of `execute` for a key inserts a pending attempt. */
  lemma Inserted(sc: Scope, s: State, e: ExecutorId, call: Call) returns (s': State)
    requires call.request in sc.requests && Within(sc, s) && s.PcOf(e).Ready? && Admitted(call) && call.Key() !in s.attempts
    ensures Within(sc, s') && s'.PcOf(e) == Starting(call)
    ensures OnlyMoved(s.(attempts := s.attempts[call.Key() := NewAttempt(call.owner, call.leaseSeconds, s.now)]), s', e)
  {
    s' := Do(s, Execute(e, call, Served));
    WithinStep(sc, s, Execute(e, call, Served));
  }

  lemma Begun(sc: Scope, s: State, e: ExecutorId, call: Call) returns (s': State)
    requires Within(sc, s) && s.PcOf(e) == Starting(call) && MayAct(s.attempts, call.Key(), Pending, call.owner, s.now)
    ensures Within(sc, s') && s'.PcOf(e) == Delivering(call, ReadBase)
    ensures OnlyMoved(s.(attempts := s.attempts[call.Key() := BeginRow(s.attempts[call.Key()], call.leaseSeconds, s.now)],
                      invoked := s'.invoked), s', e)
  {
    s' := Do(s, Begin(e, Served));
    WithinStep(sc, s, Begin(e, Served));
  }

  /** A first attempt for a key gets as far as calling `deliver`. */
  lemma Launched(sc: Scope, s: State, e: ExecutorId, call: Call) returns (s': State)
    requires call.request in sc.requests && Within(sc, s) && s.PcOf(e).Ready? && Admitted(call) && call.Key() !in s.attempts
    ensures Within(sc, s') && s'.PcOf(e) == Delivering(call, ReadBase)
    ensures s'.repos == s.repos && s'.made == s.made && s'.now == s.now
    ensures s'.attempts.Keys == s.attempts.Keys + {call.Key()}
    ensures var a := s'.attempts[call.Key()]; a.status == InProgress && a.owner == call.owner && !Takeable(a, s'.now)
    ensures forall f :: f != e ==> s'.PcOf(f) == s.PcOf(f)
  {
    var s1 := Inserted(sc, s, e, call);
    s' := Begun(sc, s1, e, call);
    forall f | f != e
      ensures s'.PcOf(f) == s.PcOf(f)
    {
      assert s'.PcOf(f) == s1.PcOf(f) && s1.PcOf(f) == s.PcOf(f);
    }
  }

  /** One request of `deliver` that changes nothing remotely. */
  lemma Advanced(sc: Scope, s: State, e: ExecutorId, call: Call, at: Progress, next: Progress) returns (s': State)
    requires Within(sc, s) && s.PcOf(e) == Delivering(call, at) && !at.PostRef? && !at.PostPull?
    requires call.request.repository in s.repos
    requires Advance(s.repos[call.request.repository], call.request, at) == Some(next)
    ensures Within(sc, s') && OnlyMoved(s, s', e) && s'.PcOf(e) == Delivering(call, next)
  {
    s' := Do(s, Deliver(e, Served, 0, ""));
    WithinStep(sc, s, Deliver(e, Served, 0, ""));
  }

  /** The remaining uploads. */
  lemma {:induction false} Uploaded(sc: Scope, s: State, e: ExecutorId, call: Call, base: Commit, entries: seq<FileChange>)
    returns (s': State)
    requires Within(sc, s) && s.PcOf(e) == Delivering(call, PostBlobs(base, entries)) && call.request.repository in s.repos
    requires |entries| <= |call.request.changes| && entries == call.request.changes[..|entries|]
    ensures Within(sc, s') && OnlyMoved(s, s', e) && s'.PcOf(e) == Delivering(call, PostBlobs(base, call.request.changes))
    decreases |call.request.changes| - |entries|
  {
    if |entries| == |call.request.changes| {
      assert entries == call.request.changes;
      s' := s;
    } else {
      var more := entries + [call.request.changes[|entries|]];
      var s1 := Advanced(sc, s, e, call, PostBlobs(base, entries), PostBlobs(base, more));
      s' := Uploaded(sc, s1, e, call, base, more);
    }
  }

  /** The requests of `deliver` before it writes a ref. */
  lemma Prepared(sc: Scope, s: State, e: ExecutorId, call: Call) returns (s': State, commit: Commit)
    requires Within(sc, s) && s.PcOf(e) == Delivering(call, ReadBase)
    requires call.request.repository in s.repos
    requires call.request.baseBranch in s.repos[call.request.repository].refs
    requires BranchName(call.request.job.jobId) !in s.repos[call.request.repository].refs
    ensures Within(sc, s') && OnlyMoved(s, s', e) && s'.PcOf(e) == Delivering(call, PostRef(commit))
  {
    var request := call.request;
    var base := s.repos[request.repository].refs[request.baseBranch];
    commit := Commit(Overlay(base.files, request.changes), [base], request.title);
    s' := Advanced(sc, s, e, call, ReadBase, CheckBranch(base));
    s' := Advanced(sc, s', e, call, CheckBranch(base), PostBlobs(base, []));
    s' := Uploaded(sc, s', e, call, base, []);
    s' := Advanced(sc, s', e, call, PostBlobs(base, request.changes), PostRef(commit));
  }

  /** The first request of `deliver` that writes. */
  lemma RefPosted(sc: Scope, s: State, e: ExecutorId, call: Call, commit: Commit) returns (s': State)
    requires Within(sc, s) && s.PcOf(e) == Delivering(call, PostRef(commit))
    requires call.request.repository in s.repos
    requires BranchName(call.request.job.jobId) !in s.repos[call.request.repository].refs
    ensures Within(sc, s') && s' == WithRef(s, e, call, commit, Delivering(call, PostPull(commit)))
  {
    s' := Do(s, Deliver(e, Served, 0, ""));
    WithinStep(sc, s, Deliver(e, Served, 0, ""));
    PostRefCases(s, e, call, commit, Served);
  }

  /** The second one. */
  lemma PullPosted(sc: Scope, s: State, e: ExecutorId, call: Call, commit: Commit, number: int, url: string) returns (s': State)
    requires Within(sc, s) && s.PcOf(e) == Delivering(call, PostPull(commit))
    requires SiteOf(call.Key()) in s.made && call.request.repository in s.repos
    requires BranchName(call.request.job.jobId) in s.repos[call.request.repository].refs
    requires !NumberTaken(s.repos[call.request.repository], number)
    ensures Within(sc, s') && s' == WithPull(s, e, call, number, url, Recording(call, Delivery(number, url, commit)))
  {
    s' := Do(s, Deliver(e, Served, number, url));
    WithinStep(sc, s, Deliver(e, Served, number, url));
  }

  /** A new pull request is found. */
  lemma NewPullIsFound(repo: Repository, p: PullRequest)
    requires p.open && p.head in repo.refs
    ensures Found(repo.(pulls := repo.pulls + [p]), p.head, p.base).Some?
  {
    var repo' := repo.(pulls := repo.pulls + [p]);
    FoundIsDelivery(repo', p.head, p.base, 0);
    assert IsDelivery(repo'.pulls[|repo.pulls|], p.head, p.base);
  }

  /** The two requests of `deliver` that write. */
  lemma Published(sc: Scope, s: State, e: ExecutorId, call: Call, commit: Commit, number: int, url: string) returns (s': State)
    requires Within(sc, s) && s.PcOf(e) == Delivering(call, PostRef(commit))
    requires call.request.repository in s.repos
    requires BranchName(call.request.job.jobId) !in s.repos[call.request.repository].refs
    requires !NumberTaken(s.repos[call.request.repository], number)
    ensures Within(sc, s') && s'.now == s.now && s'.attempts == s.attempts && s'.PcOf(e).Recording?
    ensures forall f :: f != e ==> s'.PcOf(f) == s.PcOf(f)
    ensures var site := SiteOf(call.Key());
            && site in s'.made && s'.made[site] == Creation(call.Key(), call.request, commit, Some((number, url)))
            && site.repository in s'.repos
            && Found(s'.repos[site.repository], site.branch, call.request.baseBranch).Some?
            && s'.repos[site.repository].refs == s.repos[site.repository].refs[site.branch := commit]
  {
    var site := SiteOf(call.Key());
    var s1 := RefPosted(sc, s, e, call, commit);
    s' := PullPosted(sc, s1, e, call, commit, number, url);
    NewPullIsFound(s1.repos[site.repository],
                   PullRequest(number, url, site.branch, call.Key().baseBranch, true, call.request.title, call.request.body));
  }

  /** `deliver` gives up because the branch exists; the attempt stays in progress. */
  lemma Blocked(sc: Scope, s: State, e: ExecutorId, call: Call) returns (s': State)
    requires Within(sc, s) && s.PcOf(e) == Delivering(call, ReadBase)
    requires call.request.repository in s.repos
    requires call.request.baseBranch in s.repos[call.request.repository].refs
    requires BranchName(call.request.job.jobId) in s.repos[call.request.repository].refs
    ensures Within(sc, s') && OnlyMoved(s, s', e) && s'.PcOf(e).Ready?
  {
    var base := s.repos[call.request.repository].refs[call.request.baseBranch];
    var s1 := Advanced(sc, s, e, call, ReadBase, CheckBranch(base));
    s' := Do(s1, Deliver(e, Served, 0, ""));
    WithinStep(sc, s1, Deliver(e, Served, 0, ""));
  }

  /** The owner of an attempt in progress, or anybody after its lease, calls `execute` again. */
  lemma Resumed(sc: Scope, s: State, e: ExecutorId, call: Call) returns (s': State)
    requires call.request in sc.requests && Within(sc, s) && s.PcOf(e).Ready? && Admitted(call) && call.Key() in s.attempts
    requires var a := s.attempts[call.Key()]; a.status == InProgress && (a.owner == call.owner || Takeable(a, s.now))
    ensures Within(sc, s') && s'.PcOf(e) == Reconciling(call)
    ensures s'.repos == s.repos && s'.made == s.made && MayAct(s'.attempts, call.Key(), InProgress, call.owner, s'.now)
  {
    s' := Do(s, Execute(e, call, Served));
    WithinStep(sc, s, Execute(e, call, Served));
  }

  lemma Looked(sc: Scope, s: State, e: ExecutorId, call: Call) returns (s': State)
    requires Within(sc, s) && s.PcOf(e) == Reconciling(call) && call.request.repository in s.repos
    requires Findable(call.request.repository, BranchName(call.request.job.jobId), call.request.baseBranch)
    requires Found(s.repos[call.request.repository], BranchName(call.request.job.jobId), call.request.baseBranch).Some?
    ensures Within(sc, s') && OnlyMoved(s, s', e)
    ensures s'.PcOf(e) ==
            Confirming(call, Found(s.repos[call.request.repository], BranchName(call.request.job.jobId), call.request.baseBranch).value)
  {
    s' := Do(s, Look(e, Served));
    WithinStep(sc, s, Look(e, Served));
  }

  lemma Confirmed(sc: Scope, s: State, e: ExecutorId, call: Call, d: Delivery) returns (s': State)
    requires Within(sc, s) && s.PcOf(e) == Confirming(call, d)
    requires MayAct(s.attempts, call.Key(), InProgress, call.owner, s.now)
    ensures Within(sc, s') && s'.made == s.made && s'.repos == s.repos
    ensures s'.attempts == s.attempts[call.Key() := SuccessRow(s.attempts[call.Key()], d)]
  {
    s' := Do(s, Confirm(e, Served));
    WithinStep(sc, s, Confirm(e, Served));
  }

  /** An attempt in progress is reconciled with what the provider shows. */
  lemma Reconciled(sc: Scope, s: State, e: ExecutorId, call: Call, d: Delivery) returns (s': State)
    requires call.request in sc.requests && Within(sc, s) && s.PcOf(e).Ready? && Admitted(call) && call.Key() in s.attempts
    requires var a := s.attempts[call.Key()]; a.status == InProgress && (a.owner == call.owner || Takeable(a, s.now))
    requires call.request.repository in s.repos
    requires Findable(call.request.repository, BranchName(call.request.job.jobId), call.request.baseBranch)
    requires Found(s.repos[call.request.repository], BranchName(call.request.job.jobId), call.request.baseBranch) == Some(d)
    ensures Within(sc, s') && s'.made == s.made && s'.repos == s.repos && call.Key() in s'.attempts
    ensures var a := s'.attempts[call.Key()];
            a.status == Succeeded && a.number == Some(d.number) && a.url == Some(d.url) && a.commit == Some(d.commit)
  {
    var s1 := Resumed(sc, s, e, call);
    var s2 := Looked(sc, s1, e, call);
    s' := Confirmed(sc, s2, e, call, d);
  }

  /** A whole attempt whose branch somebody else has made: blocked, retried, and reconciled with that. */
  lemma Overlooked(sc: Scope, s: State, e: ExecutorId, call: Call) returns (s': State)
    requires call.request in sc.requests && Within(sc, s) && s.PcOf(e).Ready? && Admitted(call) && call.Key() !in s.attempts
    requires call.request.repository in s.repos
    requires call.request.baseBranch in s.repos[call.request.repository].refs
    requires BranchName(call.request.job.jobId) in s.repos[call.request.repository].refs
    requires Findable(call.request.repository, BranchName(call.request.job.jobId), call.request.baseBranch)
    requires Found(s.repos[call.request.repository], BranchName(call.request.job.jobId), call.request.baseBranch).Some?
    ensures Within(sc, s') && s'.made == s.made
    ensures call.Key() in s'.attempts && s'.attempts[call.Key()].status == Succeeded
  {
    s' := Launched(sc, s, e, call);
    s' := Blocked(sc, s', e, call);
    s' := Reconciled(sc, s', e, call, Found(s.repos[call.request.repository], BranchName(call.request.job.jobId), call.request.baseBranch).value);
  }

  /** A first attempt up to its last request that writes nothing. */
  lemma Readied(sc: Scope, s: State, e: ExecutorId, call: Call) returns (s': State, commit: Commit)
    requires Within(sc, s) && s.executors == map[] && s.attempts == map[]
    requires call.request in sc.requests && Admitted(call) && call.request.repository in s.repos
    requires call.request.baseBranch in s.repos[call.request.repository].refs
    requires BranchName(call.request.job.jobId) !in s.repos[call.request.repository].refs
    ensures Within(sc, s') && s'.PcOf(e) == Delivering(call, PostRef(commit)) && s'.repos == s.repos
    ensures s'.attempts.Keys == {call.Key()} && s'.attempts[call.Key()].status == InProgress
    ensures forall f :: f != e ==> s'.PcOf(f).Ready?
  {
    s' := Launched(sc, s, e, call);
    s', commit := Prepared(sc, s', e, call);
  }

  /** An unused number. */
  lemma {:induction false} FreshNumber(pulls: seq<PullRequest>) returns (n: int)
    ensures forall i :: 0 <= i < |pulls| ==> pulls[i].number < n
  {
    if pulls == [] {
      n := 0;
    } else {
      var last := |pulls| - 1;
      n := FreshNumber(pulls[..last]);
      n := if pulls[last].number < n then n else pulls[last].number + 1;
    }
  }

  /** A whole attempt that delivers and then hears nothing. */
  lemma DeliveredFirst(sc: Scope, e: ExecutorId, call: Call) returns (s: State)
    requires Clean(sc.origin.repos) && sc.origin == Init(sc.origin.repos) && call.request in sc.requests && Admitted(call)
    requires call.request.repository in sc.origin.repos
    requires call.request.baseBranch in sc.origin.repos[call.request.repository].refs
    ensures Within(sc, s) && s.attempts.Keys == {call.Key()} && s.attempts[call.Key()].status == InProgress
    ensures s.PcOf(e).Recording? && forall f :: f != e ==> s.PcOf(f).Ready?
    ensures var site := SiteOf(call.Key());
            && site in s.made && s.made[site].key == call.Key() && s.made[site].pull.Some?
            && site.repository in s.repos && site.branch in s.repos[site.repository].refs
            && call.request.baseBranch in s.repos[site.repository].refs
            && Found(s.repos[site.repository], site.branch, call.request.baseBranch).Some?
  {
    var repo := sc.origin.repos[call.request.repository];
    WithinOrigin(sc);
    SentinelSite(call.Key());
    var number := FreshNumber(repo.pulls);
    var commit;
    s, commit := Readied(sc, sc.origin, e, call);
    s := Published(sc, s, e, call, commit, number, "");
  }
}
