/** The main results about every run of delivery, from any provider without remediation branches. */
module DeliveryTheorems {
  import opened Basics
  import opened Jobs
  import opened Strings
  import opened GitHub
  import opened DeliveryStore
  import opened DeliveryProtocol
  import opened DeliveryInvariant
  import opened DeliveryPreservation

  ghost predicate Reachable(s: State) {
    exists repos, steps :: Clean(repos) && s == Run(Init(repos), steps)
  }

  lemma ReachableInv(s: State)
    requires Reachable(s)
    ensures Inv(s)
  {
    var repos, steps :| Clean(repos) && s == Run(Init(repos), steps);
    RunInv(repos, steps);
  }

  lemma ReachableStep(s: State, step: Step)
    requires Reachable(s)
    ensures Reachable(Do(s, step))
  {
    var repos, steps :| Clean(repos) && s == Run(Init(repos), steps);
    assert (steps + [step])[..|steps + [step]| - 1] == steps;
    assert Do(s, step) == Run(Init(repos), steps + [step]);
  }

  // ---- executors move by themselves ----

  /** A step that `e` itself does not take. */
  predicate Foreign(step: Step, e: ExecutorId) {
    match step
    case Tick(_) => true
    case Outside(_, _) => true
    case _ => step.e != e
  }

  lemma ExecuteMovesOnly(s: State, f: ExecutorId, call: Call, reply: Reply, e: ExecutorId)
    requires f != e
    ensures DoExecute(s, f, call, reply).PcOf(e) == s.PcOf(e)
  {
  }

  lemma PostRefMovesOnly(s: State, f: ExecutorId, call: Call, commit: Commit, reply: Reply, e: ExecutorId)
    requires f != e
    ensures DoPostRef(s, f, call, commit, reply).PcOf(e) == s.PcOf(e)
  {
  }

  lemma PostPullMovesOnly(s: State, f: ExecutorId, call: Call, commit: Commit, reply: Reply, number: int, url: string, e: ExecutorId)
    requires f != e
    ensures DoPostPull(s, f, call, commit, reply, number, url).PcOf(e) == s.PcOf(e)
  {
  }

  lemma DeliverMovesOnly(s: State, f: ExecutorId, reply: Reply, number: int, url: string, e: ExecutorId)
    requires f != e
    ensures DoDeliver(s, f, reply, number, url).PcOf(e) == s.PcOf(e)
  {
    var pc := s.PcOf(f);
    if pc.Delivering? && !reply.Refused? {
      if pc.at.PostRef? {
        PostRefMovesOnly(s, f, pc.call, pc.at.commit, reply, e);
      } else if pc.at.PostPull? {
        PostPullMovesOnly(s, f, pc.call, pc.at.commit, reply, number, url, e);
      }
    }
  }

  lemma SucceedMovesOnly(s: State, f: ExecutorId, call: Call, d: Delivery, reply: Reply, e: ExecutorId)
    requires f != e
    ensures DoSucceed(s, f, call, d, reply).PcOf(e) == s.PcOf(e)
  {
  }

  lemma ForeignKeepsPc(s: State, step: Step, e: ExecutorId)
    requires Foreign(step, e)
    ensures Do(s, step).PcOf(e) == s.PcOf(e)
  {
    match step
    case Execute(f, call, reply) => ExecuteMovesOnly(s, f, call, reply, e);
    case Deliver(f, reply, number, url) => DeliverMovesOnly(s, f, reply, number, url, e);
    case Record(f, reply) =>
      if s.PcOf(f).Recording? {
        SucceedMovesOnly(s, f, s.PcOf(f).call, s.PcOf(f).delivery, reply, e);
      }
    case Confirm(f, reply) =>
      if s.PcOf(f).Confirming? {
        SucceedMovesOnly(s, f, s.PcOf(f).call, s.PcOf(f).delivery, reply, e);
      }
    case _ =>
  }

  lemma ReturnExecutors(s: State, e: ExecutorId, k: DeliveryKey, a: Attempt)
    ensures Return(s, e, k, a).executors == s.executors[e := Ready]
  {
  }

  /** Where acquiring leads an executor. */
  lemma AcquiredExecutors(s: State, e: ExecutorId, call: Call, row: Attempt)
    ensures var after := Acquired(s, e, call, row).executors;
            || after == s.executors[e := Ready]
            || after == s.executors[e := Starting(call)]
            || after == s.executors[e := Reconciling(call)]
  {
    var after := Acquired(s, e, call, row);
    if row.Unresolved() && row.owner != call.owner {
      assert after == Goto(s, e, Ready);
    } else {
      match row.status
      case Succeeded =>
        assert after == Return(s, e, call.Key(), row);
        ReturnExecutors(s, e, call.Key(), row);
      case InProgress => assert after == Goto(s, e, Reconciling(call));
      case Pending => assert after == Goto(s, e, Starting(call));
      case FailedAttempt => assert after == Goto(s, e, Ready);
    }
  }

  lemma ExecuteExecutors(s: State, e: ExecutorId, call: Call, reply: Reply)
    ensures var after := DoExecute(s, e, call, reply).executors;
            || after == s.executors
            || after == s.executors[e := Ready]
            || after == s.executors[e := Starting(call)]
            || after == s.executors[e := Reconciling(call)]
  {
    if s.PcOf(e).Ready? && Admitted(call) && reply.Served? {
      var row := AcquiredRow(s.attempts, call.Key(), call.owner, call.leaseSeconds, s.now);
      AcquiredExecutors(s.(attempts := s.attempts[call.Key() := row]), e, call, row);
    }
  }

  // ---- at most once ----

  /** In every run `client.deliver` is invoked at most once per delivery key. */
  lemma DeliversAtMostOnce(s: State, i: nat, k: nat)
    requires Reachable(s) && i < k < |s.invoked|
    ensures s.invoked[i].key != s.invoked[k].key
  {
    ReachableInv(s);
  }

  lemma AcquiredKeepsRows(s: State, e: ExecutorId, call: Call, row: Attempt)
    ensures Acquired(s, e, call, row).attempts == s.attempts
  {
  }

  lemma ExecuteAdvances(s: State, e: ExecutorId, call: Call, reply: Reply, k: DeliveryKey)
    requires k in s.attempts
    ensures k in DoExecute(s, e, call, reply).attempts && RowAdvances(s.attempts, k, DoExecute(s, e, call, reply).attempts[k])
  {
    if s.PcOf(e).Ready? && Admitted(call) && !reply.Refused? {
      var row := AcquiredRow(s.attempts, call.Key(), call.owner, call.leaseSeconds, s.now);
      AcquiredKeepsRows(s.(attempts := s.attempts[call.Key() := row]), e, call, row);
    }
  }

  lemma SucceedAdvances(s: State, e: ExecutorId, call: Call, d: Delivery, reply: Reply, k: DeliveryKey)
    requires k in s.attempts
    ensures k in DoSucceed(s, e, call, d, reply).attempts
    ensures RowAdvances(s.attempts, k, DoSucceed(s, e, call, d, reply).attempts[k])
  {
  }

  lemma DeliverKeepsRows(s: State, e: ExecutorId, reply: Reply, number: int, url: string)
    ensures DoDeliver(s, e, reply, number, url).attempts == s.attempts
  {
  }

  /** No row ever returns to `pending`, and a recorded result never changes again. */
  lemma RowsOnlyAdvance(s: State, step: Step, k: DeliveryKey)
    requires k in s.attempts
    ensures k in Do(s, step).attempts && RowAdvances(s.attempts, k, Do(s, step).attempts[k])
  {
    match step
    case Execute(e, call, reply) => ExecuteAdvances(s, e, call, reply, k);
    case Deliver(e, reply, number, url) => DeliverKeepsRows(s, e, reply, number, url);
    case Record(e, reply) =>
      if s.PcOf(e).Recording? {
        SucceedAdvances(s, e, s.PcOf(e).call, s.PcOf(e).delivery, reply, k);
      }
    case Confirm(e, reply) =>
      if s.PcOf(e).Confirming? {
        SucceedAdvances(s, e, s.PcOf(e).call, s.PcOf(e).delivery, reply, k);
      }
    case _ =>
  }

  lemma {:induction false} ResultsAreFinal(s: State, steps: seq<Step>, k: DeliveryKey)
    requires k in s.attempts
    ensures k in Run(s, steps).attempts && RowAdvances(s.attempts, k, Run(s, steps).attempts[k])
  {
    if steps != [] {
      ResultsAreFinal(s, steps[..|steps| - 1], k);
      RowsOnlyAdvance(Run(s, steps[..|steps| - 1]), steps[|steps| - 1], k);
    }
  }

  // ---- agreement ----

  /** All calls of `execute` that return for one key, on whatever worker, return the same result. */
  lemma ExecutorsAgree(s: State, i: nat, k: nat)
    requires Reachable(s) && i < |s.returned| && k < |s.returned| && s.returned[i].0 == s.returned[k].0
    ensures s.returned[i].1 == s.returned[k].1
  {
    ReachableInv(s);
  }

  /** A row has a lease exactly until it has a result, so at every instant either its owner may act or it may be taken over. */
  lemma OwnerOrTakeover(s: State, k: DeliveryKey)
    requires Reachable(s) && k in s.attempts
    ensures var a := s.attempts[k];
            && (a.leaseUntil.None? <==> a.status == Succeeded)
            && (a.Unresolved() <==> a.status != Succeeded)
            && (a.Unresolved() ==> (MayAct(s.attempts, k, a.status, a.owner, s.now) <==> !Takeable(a, s.now)))
            && (a.status == Succeeded ==> !Takeable(a, s.now) && !MayAct(s.attempts, k, InProgress, a.owner, s.now))
  {
    ReachableInv(s);
    assert RowInv(k, s.attempts[k], s.made);
  }

  // ---- what happens remotely ----

  /** Recording touches one row, if it is fenced to its owner, and nothing remote. */
  lemma SucceedWrites(s: State, e: ExecutorId, call: Call, d: Delivery, reply: Reply)
    ensures var s' := DoSucceed(s, e, call, d, reply);
            && s'.repos == s.repos && s'.made == s.made && s'.invoked == s.invoked
            && (|| s'.attempts == s.attempts
                || (&& MayAct(s.attempts, call.Key(), InProgress, call.owner, s.now)
                    && s'.attempts == s.attempts[call.Key() := SuccessRow(s.attempts[call.Key()], d)]))
  {
  }

  lemma ExecuteIsLocal(s: State, e: ExecutorId, call: Call, reply: Reply)
    ensures DoExecute(s, e, call, reply).repos == s.repos && DoExecute(s, e, call, reply).made == s.made
  {
  }

  /** Only the requests of `deliver` reach the provider's refs and pull requests. */
  lemma OthersWriteNothing(s: State, step: Step)
    requires !step.Outside? && !(step.Deliver? && s.PcOf(step.e).Delivering?)
    ensures Do(s, step).repos == s.repos && Do(s, step).made == s.made
  {
    match step
    case Execute(e, call, reply) => ExecuteIsLocal(s, e, call, reply);
    case Record(e, reply) =>
      if s.PcOf(e).Recording? {
        SucceedWrites(s, e, s.PcOf(e).call, s.PcOf(e).delivery, reply);
      }
    case Confirm(e, reply) =>
      if s.PcOf(e).Confirming? {
        SucceedWrites(s, e, s.PcOf(e).call, s.PcOf(e).delivery, reply);
      }
    case _ =>
  }

  /** What one request of `deliver` can do to the repositories. */
  predicate OnlyAdds(before: Repositories, after: Repositories, site: Site) {
    && after.Keys == before.Keys
    && (after != before ==> site.repository in before)
    && (forall r :: r in before && r != site.repository ==> after[r] == before[r])
    && (site.repository in before ==>
          var x, y := before[site.repository], after[site.repository];
          && (forall b :: b in x.refs ==> b in y.refs && y.refs[b] == x.refs[b])
          && (forall b :: b in y.refs && b != site.branch ==> b in x.refs)
          && x.pulls <= y.pulls)
  }

  lemma PostRefOnlyAdds(s: State, e: ExecutorId, call: Call, commit: Commit, reply: Reply)
    ensures OnlyAdds(s.repos, DoPostRef(s, e, call, commit, reply).repos, SiteOf(call.Key()))
  {
  }

  lemma PostPullOnlyAdds(s: State, e: ExecutorId, call: Call, commit: Commit, reply: Reply, number: int, url: string)
    ensures OnlyAdds(s.repos, DoPostPull(s, e, call, commit, reply, number, url).repos, SiteOf(call.Key()))
  {
  }

  lemma DeliverOnlyAdds(s: State, e: ExecutorId, reply: Reply, number: int, url: string)
    requires s.PcOf(e).Delivering?
    ensures OnlyAdds(s.repos, DoDeliver(s, e, reply, number, url).repos, SiteOf(s.PcOf(e).call.Key()))
  {
    var Delivering(call, at) := s.PcOf(e);
    if at.PostRef? {
      PostRefOnlyAdds(s, e, call, at.commit, reply);
    } else if at.PostPull? {
      PostPullOnlyAdds(s, e, call, at.commit, reply, number, url);
    }
  }

  /** A step of the system itself keeps every existing ref and every existing pull request as it is. */
  lemma ExistingRemoteStateIsKept(s: State, step: Step, r: string)
    requires r in s.repos && !step.Outside?
    ensures var repos' := Do(s, step).repos;
            && r in repos'
            && (forall b :: b in s.repos[r].refs ==> b in repos'[r].refs && repos'[r].refs[b] == s.repos[r].refs[b])
            && s.repos[r].pulls <= repos'[r].pulls
  {
    if step.Deliver? && s.PcOf(step.e).Delivering? {
      DeliverOnlyAdds(s, step.e, step.reply, step.number, step.url);
    } else {
      OthersWriteNothing(s, step);
    }
  }

  /** The one call of `deliver` for `k` that runs on `e`. */
  ghost predicate OnlyDeliverer(s: State, e: ExecutorId, k: DeliveryKey) {
    exists i :: 0 <= i < |s.invoked| && s.invoked[i].key == k && s.invoked[i].executor == e
                && forall n :: 0 <= n < |s.invoked| && n != i ==> s.invoked[n].key != k
  }

  /**
    Whatever changes remotely is the work of the only `deliver` call of its key, on its own branch, for a
    verified job that is no dry run and was explicitly allowed to write; everybody who comes later,
    whether it reconciles, records or gives up, writes nothing remotely.
   */
  lemma OnlyDelivererWrites(s: State, step: Step)
    requires Reachable(s) && !step.Outside? && Do(s, step).repos != s.repos
    ensures step.Deliver? && s.PcOf(step.e).Delivering?
    ensures OnlyDeliverer(s, step.e, s.PcOf(step.e).call.Key())
    ensures OnlyAdds(s.repos, Do(s, step).repos, SiteOf(s.PcOf(step.e).call.Key()))
    ensures var request := s.PcOf(step.e).call.request;
            request.allowWrite && request.job.status == Verified && !request.job.dryRun
  {
    if !(step.Deliver? && s.PcOf(step.e).Delivering?) {
      OthersWriteNothing(s, step);
    } else {
      DeliverOnlyAdds(s, step.e, step.reply, step.number, step.url);
      ReachableInv(s);
      DelivererIsOnly(s, step.e);
      assert PcInv(step.e, s.executors[step.e], s.attempts, s.made, s.invoked);
    }
  }

  lemma DelivererIsOnly(s: State, e: ExecutorId)
    requires Inv(s) && s.PcOf(e).Delivering?
    ensures OnlyDeliverer(s, e, s.PcOf(e).call.Key())
  {
    assert PcInv(e, s.executors[e], s.attempts, s.made, s.invoked);
    var call := s.PcOf(e).call;
    var i :| 0 <= i < |s.invoked| && s.invoked[i] == Invocation(call.Key(), e, call.request);
  }

  /**
    A pull request from a remediation branch exists only if the branch does, there is at most one, and
    it carries the title and the body of the request that was delivered.
   */
  lemma PullNeedsBranch(s: State, r: string, i: nat)
    requires Reachable(s) && r in s.repos && i < |s.repos[r].pulls| && IsSentinelBranch(s.repos[r].pulls[i].head)
    ensures var p := s.repos[r].pulls[i];
            && p.head in s.repos[r].refs
            && Delivered(s.made, Site(r, p.head), p.base, Delivery(p.number, p.url, s.repos[r].refs[p.head]))
            && p.title == s.made[Site(r, p.head)].request.title && p.body == s.made[Site(r, p.head)].request.body
            && forall k :: 0 <= k < |s.repos[r].pulls| && k != i ==> s.repos[r].pulls[k].head != p.head
  {
    ReachableInv(s);
    assert RepoInv(r, s.repos[r], s.made);
    assert PullInv(r, s.repos[r].pulls[i], s.made);
  }

  // ---- recovery ----

  /** The repository, the branch and the base of a delivery. */
  predicate SameSlot(a: DeliveryKey, b: DeliveryKey) {
    SiteOf(a) == SiteOf(b) && a.baseBranch == b.baseBranch
  }

  /** No other key was ever attempted for the same repository, job and base. */
  predicate Unshared(t: Attempts, k: DeliveryKey) {
    forall other :: other in t && SameSlot(other, k) ==> other == k
  }

  /**
    A recorded result describes the one pull request of its slot, which the provider lists with this
    number, url, branch and base, and whose commit puts the requested files on top of the base; if no
    other key shares the slot, that is what this key's own call made.
   */
  lemma RecordedResultIsWhatWasMade(s: State, k: DeliveryKey)
    requires Reachable(s) && k in s.attempts && s.attempts[k].status == Succeeded
    ensures var a := s.attempts[k];
            var site := SiteOf(k);
            && a.number.Some? && a.url.Some? && a.commit.Some?
            && site in s.made
            && SameSlot(s.made[site].key, k) && s.made[site].key in s.attempts
            && s.made[site].pull == Some((a.number.value, a.url.value)) && s.made[site].commit == a.commit.value
            && (Unshared(s.attempts, k) ==> s.made[site].key == k)
            && Delivers(a.commit.value, s.made[site].request)
            && (exists i :: 0 <= i < |s.invoked| && s.invoked[i].key == s.made[site].key && s.invoked[i].request == s.made[site].request)
            && site.repository in s.repos
            && exists i :: 0 <= i < |s.repos[site.repository].pulls| && IsPullOf(s.repos[site.repository].pulls[i], site, s.made[site])
  {
    ReachableInv(s);
    assert RowInv(k, s.attempts[k], s.made);
    var site := SiteOf(k);
    assert CreationInv(site, s.made[site], s.invoked);
    var i :| 0 <= i < |s.invoked| && s.invoked[i].key == s.made[site].key && s.invoked[i].request == s.made[site].request;
    assert Started(s.attempts, s.invoked[i].key);
    assert Listed(s.repos, site, s.made[site]);
  }

  /**
    An executor that finds the attempt in progress only reads, until it knows the pull request that the
    earlier call left behind; then it records exactly that, or changes nothing.
   */
  lemma RecoveryRecordsOrLeaves(s: State, e: ExecutorId, reply: Reply)
    requires Reachable(s) && s.PcOf(e).Confirming?
    ensures var s' := DoConfirm(s, e, reply);
            var k := s.PcOf(e).call.Key();
            && s'.repos == s.repos && s'.made == s.made && s'.invoked == s.invoked
            && Delivered(s.made, SiteOf(k), k.baseBranch, s.PcOf(e).delivery)
            && (|| s'.attempts == s.attempts
                || (&& k in s.attempts && s.attempts[k].status == InProgress
                    && s'.attempts == s.attempts[k := SuccessRow(s.attempts[k], s.PcOf(e).delivery)]))
  {
    SucceedWrites(s, e, s.PcOf(e).call, s.PcOf(e).delivery, reply);
    assert Delivered(s.made, SiteOf(s.PcOf(e).call.Key()), s.PcOf(e).call.request.baseBranch, s.PcOf(e).delivery) by {
      ReachableInv(s);
      assert PcInv(e, s.executors[e], s.attempts, s.made, s.invoked);
    }
  }

  lemma OpenDeliveryIsFound(s: State, r: string, i: nat)
    requires Reachable(s) && r in s.repos && i < |s.repos[r].pulls|
    requires IsSentinelBranch(s.repos[r].pulls[i].head) && s.repos[r].pulls[i].open
    ensures var p := s.repos[r].pulls[i];
            && p.head in s.repos[r].refs
            && Found(s.repos[r], p.head, p.base) == Some(Delivery(p.number, p.url, s.repos[r].refs[p.head]))
  {
    var p := s.repos[r].pulls[i];
    PullNeedsBranch(s, r, i);
    FoundIsDelivery(s.repos[r], p.head, p.base, 0);
    assert IsDelivery(p, p.head, p.base);
  }

  /**
    If the pull request of the slot is still open, an answered look finds it, with its number, url and
    commit, exactly if the lookup accepts the branch name, which delivery itself never validates.
   */
  lemma RecoveryFindsOpenDelivery(s: State, e: ExecutorId, i: nat)
    requires Reachable(s) && s.PcOf(e).Reconciling?
    requires var request := s.PcOf(e).call.request;
             && request.repository in s.repos && i < |s.repos[request.repository].pulls|
             && IsDelivery(s.repos[request.repository].pulls[i], BranchName(request.job.jobId), request.baseBranch)
    ensures var call := s.PcOf(e).call;
            var repo := s.repos[call.request.repository];
            var p := repo.pulls[i];
            && p.head in repo.refs
            && DoLook(s, e, Served).PcOf(e) ==
               (if ValidBranch(p.head) then Confirming(call, Delivery(p.number, p.url, repo.refs[p.head])) else Ready)
  {
    var call := s.PcOf(e).call;
    SentinelSite(call.Key());
    OpenDeliveryIsFound(s, call.request.repository, i);
    assert Admitted(call) by {
      ReachableInv(s);
      assert PcInv(e, s.executors[e], s.attempts, s.made, s.invoked);
    }
  }
}
