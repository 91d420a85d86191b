/** Every step of delivery keeps the invariant. */
module DeliveryPreservation {
  import opened Basics
  import opened Jobs
  import opened Strings
  import opened GitHub
  import opened DeliveryStore
  import opened DeliveryProtocol
  import opened DeliveryInvariant

  lemma InitInv(repos: Repositories)
    requires Clean(repos)
    ensures Inv(Init(repos))
  {
  }

  lemma AcquiredInv(s: State, e: ExecutorId, call: Call)
    requires Inv(s) && Admitted(call) && call.Key() in s.attempts
    ensures Inv(Acquired(s, e, call, s.attempts[call.Key()]))
  {
    var row := s.attempts[call.Key()];
    if row.Unresolved() && row.owner != call.owner {
      GotoInv(s, e, Ready);
    } else {
      match row.status
      case Succeeded => ReturnInv(s, e, call.Key());
      case InProgress => GotoInv(s, e, Reconciling(call));
      case Pending => GotoInv(s, e, Starting(call));
      case FailedAttempt => GotoInv(s, e, Ready);
    }
  }

  lemma ExecuteInv(s: State, e: ExecutorId, call: Call, reply: Reply)
    requires Inv(s)
    ensures Inv(DoExecute(s, e, call, reply))
  {
    if s.PcOf(e).Ready? && Admitted(call) && !reply.Refused? {
      var row := AcquiredRow(s.attempts, call.Key(), call.owner, call.leaseSeconds, s.now);
      var s' := s.(attempts := s.attempts[call.Key() := row]);
      RowWriteInv(s, call.Key(), row);
      if reply.Lost? {
        GotoInv(s', e, Ready);
      } else {
        AcquiredInv(s', e, call);
      }
    }
  }

  lemma InvokedGrowsMade(made: map<Site, Creation>, invoked: seq<Invocation>, inv: Invocation)
    requires MadeInv(made, invoked)
    ensures MadeInv(made, invoked + [inv])
  {
    forall site | site in made
      ensures CreationInv(site, made[site], invoked + [inv])
    {
      assert CreationInv(site, made[site], invoked);
      var i :| 0 <= i < |invoked| && invoked[i].key == made[site].key && invoked[i].request == made[site].request;
      assert (invoked + [inv])[i] == invoked[i];
    }
  }

  lemma InvokedGrowsExecutors(s: State, inv: Invocation)
    requires ExecutorsInv(s.executors, s.attempts, s.made, s.invoked)
    ensures ExecutorsInv(s.executors, s.attempts, s.made, s.invoked + [inv])
  {
    forall f | f in s.executors
      ensures PcInv(f, s.executors[f], s.attempts, s.made, s.invoked + [inv])
    {
      assert PcInv(f, s.executors[f], s.attempts, s.made, s.invoked);
    }
  }

  lemma InvokeInv(s: State, e: ExecutorId, call: Call)
    requires Inv(s) && Admitted(call) && Started(s.attempts, call.Key())
    requires forall i :: 0 <= i < |s.invoked| ==> s.invoked[i].key != call.Key()
    ensures Inv(Goto(s.(invoked := s.invoked + [Invocation(call.Key(), e, call.request)]), e, Delivering(call, ReadBase)))
  {
    var inv := Invocation(call.Key(), e, call.request);
    var s' := s.(invoked := s.invoked + [inv]);
    InvokedGrowsMade(s.made, s.invoked, inv);
    InvokedGrowsExecutors(s, inv);
    var site := SiteOf(call.Key());
    if site in s.made {
      assert CreationInv(site, s.made[site], s.invoked);
    }
    assert s'.invoked[|s.invoked|] == inv;
    GotoInv(s', e, Delivering(call, ReadBase));
  }

  lemma BeginInv(s: State, e: ExecutorId, reply: Reply)
    requires Inv(s)
    ensures Inv(DoBegin(s, e, reply))
  {
    if s.PcOf(e).Starting? {
      var call := s.PcOf(e).call;
      var k := call.Key();
      assert Admitted(call) by { assert PcInv(e, s.executors[e], s.attempts, s.made, s.invoked); }
      if !reply.Refused? && MayAct(s.attempts, k, Pending, call.owner, s.now) {
        var row := BeginRow(s.attempts[k], call.leaseSeconds, s.now);
        var s' := s.(attempts := s.attempts[k := row]);
        assert forall i :: 0 <= i < |s.invoked| ==> s.invoked[i].key != k;
        RowWriteInv(s, k, row);
        if reply.Lost? {
          GotoInv(s', e, Ready);
        } else {
          InvokeInv(s', e, call);
        }
      } else {
        GotoInv(s, e, Ready);
      }
    }
  }

  lemma AdvanceInv(s: State, e: ExecutorId, reply: Reply)
    requires Inv(s) && s.PcOf(e).Delivering? && !s.PcOf(e).at.PostRef? && !s.PcOf(e).at.PostPull?
    ensures Inv(DoAdvance(s, e, s.PcOf(e).call, s.PcOf(e).at, reply))
  {
    var Delivering(call, at) := s.PcOf(e);
    assert PcInv(e, Delivering(call, at), s.attempts, s.made, s.invoked);
    if call.request.repository in s.repos && reply.Served? {
      var next := Advance(s.repos[call.request.repository], call.request, at);
      if at.PostBlobs? && |at.entries| == |call.request.changes| {
        assert at.entries == call.request.changes;
      }
      GotoInv(s, e, if next.Some? then Delivering(call, next.value) else Ready);
    } else {
      GotoInv(s, e, Ready);
    }
  }

  /** Two executors never deliver for the same key. */
  lemma SoleDeliverer(s: State, e: ExecutorId, f: ExecutorId)
    requires Inv(s) && s.PcOf(e).Delivering? && s.PcOf(f).Delivering?
    requires s.PcOf(e).call.Key() == s.PcOf(f).call.Key()
    ensures e == f
  {
    assert PcInv(e, s.executors[e], s.attempts, s.made, s.invoked);
    assert PcInv(f, s.executors[f], s.attempts, s.made, s.invoked);
    var i :| 0 <= i < |s.invoked| && s.invoked[i] == Invocation(s.PcOf(e).call.Key(), e, s.PcOf(e).call.request);
    var k :| 0 <= k < |s.invoked| && s.invoked[k] == Invocation(s.PcOf(f).call.Key(), f, s.PcOf(f).call.request);
  }

  /** What was made on a site changes on behalf of a key that `pc` does not deliver. */
  lemma SiteWritePc(f: ExecutorId, pc: Pc, t: Attempts, made: map<Site, Creation>, invoked: seq<Invocation>,
                    site: Site, c: Creation)
    requires PcInv(f, pc, t, made, invoked) && SiteOf(c.key) == site
    requires site in made ==> made[site].key == c.key && made[site].pull == None
    requires pc.Delivering? ==> pc.call.Key() != c.key
    ensures PcInv(f, pc, t, made[site := c], invoked)
  {
  }

  lemma SiteWriteExecutor(s: State, e: ExecutorId, f: ExecutorId, site: Site, c: Creation)
    requires Inv(s) && s.PcOf(e).Delivering? && s.PcOf(e).call.Key() == c.key && SiteOf(c.key) == site
    requires site in s.made ==> s.made[site].key == c.key && s.made[site].pull == None
    requires f in s.executors && f != e
    ensures PcInv(f, s.executors[f], s.attempts, s.made[site := c], s.invoked)
  {
    if s.executors[f].Delivering? && s.executors[f].call.Key() == c.key {
      SoleDeliverer(s, e, f);
    }
    SiteWritePc(f, s.executors[f], s.attempts, s.made, s.invoked, site, c);
  }

  lemma SiteWriteExecutors(s: State, e: ExecutorId, site: Site, c: Creation, pc: Pc)
    requires Inv(s) && s.PcOf(e).Delivering? && s.PcOf(e).call.Key() == c.key && SiteOf(c.key) == site
    requires site in s.made ==> s.made[site].key == c.key && s.made[site].pull == None
    requires PcInv(e, pc, s.attempts, s.made[site := c], s.invoked)
    ensures ExecutorsInv(s.executors[e := pc], s.attempts, s.made[site := c], s.invoked)
  {
    forall f | f in s.executors && f != e
      ensures PcInv(f, s.executors[f], s.attempts, s.made[site := c], s.invoked)
    {
      SiteWriteExecutor(s, e, f, site, c);
    }
  }

  /** Rows and creations do not notice such a change either. */
  lemma SiteWriteRows(s: State, site: Site, c: Creation)
    requires Inv(s) && CreationInv(site, c, s.invoked)
    requires site in s.made ==> s.made[site].pull == None
    ensures RowsInv(s.attempts, s.made[site := c]) && MadeInv(s.made[site := c], s.invoked)
  {
    forall k | k in s.attempts
      ensures RowInv(k, s.attempts[k], s.made[site := c])
    {
      assert RowInv(k, s.attempts[k], s.made);
    }
  }

  lemma SentinelSite(k: DeliveryKey)
    ensures IsSentinelBranch(SiteOf(k).branch)
  {
    assert BranchName(k.jobId)[..|PREFIX|] == PREFIX;
  }

  /** The other repositories do not notice a change on `site`. */
  lemma OtherReposInv(repos: Repositories, made: map<Site, Creation>, site: Site, c: Creation, repo': Repository)
    requires ReposInv(repos, made) && site.repository in repos
    requires RepoInv(site.repository, repo', made[site := c])
    requires site.branch in repo'.refs && repos[site.repository].refs.Keys <= repo'.refs.Keys
    ensures ReposInv(repos[site.repository := repo'], made[site := c])
  {
    forall r | r in repos && r != site.repository
      ensures RepoInv(r, repos[r], made[site := c])
    {
      assert RepoInv(r, repos[r], made);
    }
  }

  lemma RefRepoInv(r: string, repo: Repository, made: map<Site, Creation>, branch: string, c: Creation)
    requires RepoInv(r, repo, made) && branch !in repo.refs && Site(r, branch) !in made
    ensures RepoInv(r, CreateRef(repo, branch, c.commit).value, made[Site(r, branch) := c])
  {
  }

  lemma PullRepoInv(r: string, repo: Repository, made: map<Site, Creation>, c: Creation, p: PullRequest)
    requires RepoInv(r, repo, made) && Site(r, p.head) in made && made[Site(r, p.head)].pull == None
    requires c == made[Site(r, p.head)].(pull := Some((p.number, p.url))) && IsPullOf(p, Site(r, p.head), c)
    ensures RepoInv(r, repo.(pulls := repo.pulls + [p]), made[Site(r, p.head) := c])
  {
    var site := Site(r, p.head);
    forall i | 0 <= i < |repo.pulls| && IsSentinelBranch(repo.pulls[i].head)
      ensures repo.pulls[i].head != p.head && PullInv(r, repo.pulls[i], made[site := c])
    {
      assert PullInv(r, repo.pulls[i], made);
    }
  }

  lemma RefReposInv(repos: Repositories, made: map<Site, Creation>, site: Site, c: Creation)
    requires ReposInv(repos, made) && site.repository in repos && site.branch !in repos[site.repository].refs
    ensures site !in made
    ensures ReposInv(repos[site.repository := CreateRef(repos[site.repository], site.branch, c.commit).value], made[site := c])
  {
    RefRepoInv(site.repository, repos[site.repository], made, site.branch, c);
    OtherReposInv(repos, made, site, c, CreateRef(repos[site.repository], site.branch, c.commit).value);
  }

  lemma PullReposInv(repos: Repositories, made: map<Site, Creation>, site: Site, c: Creation, p: PullRequest)
    requires ReposInv(repos, made) && site in made && made[site].pull == None
    requires c == made[site].(pull := Some((p.number, p.url))) && IsPullOf(p, site, c)
    ensures site.repository in repos
    ensures ReposInv(repos[site.repository := repos[site.repository].(pulls := repos[site.repository].pulls + [p])], made[site := c])
  {
    PullRepoInv(site.repository, repos[site.repository], made, c, p);
    OtherReposInv(repos, made, site, c, repos[site.repository].(pulls := repos[site.repository].pulls + [p]));
  }

  lemma ListedStays(repos: Repositories, r: string, repo': Repository, site: Site, c: Creation)
    requires r in repos && PullsKept(repos[r], repo') && Listed(repos, site, c) && IsSentinelBranch(site.branch)
    ensures Listed(repos[r := repo'], site, c)
  {
    if c.pull.Some? {
      var i :| 0 <= i < |repos[site.repository].pulls| && IsPullOf(repos[site.repository].pulls[i], site, c);
      assert IsPullOf(repos[r := repo'][site.repository].pulls[i], site, c);
    }
  }

  lemma ListedInvStays(repos: Repositories, made: map<Site, Creation>, r: string, repo': Repository)
    requires ListedInv(repos, made) && r in repos && PullsKept(repos[r], repo')
    requires forall site :: site in made ==> IsSentinelBranch(site.branch)
    ensures ListedInv(repos[r := repo'], made)
  {
    forall site | site in made
      ensures Listed(repos[r := repo'], site, made[site])
    {
      ListedStays(repos, r, repo', site, made[site]);
    }
  }

  lemma NewPullIsListed(repos: Repositories, site: Site, c: Creation, repo': Repository)
    requires site.repository in repos && |repo'.pulls| > 0 && IsPullOf(repo'.pulls[|repo'.pulls| - 1], site, c)
    ensures Listed(repos[site.repository := repo'], site, c)
  {
    assert IsPullOf(repos[site.repository := repo'][site.repository].pulls[|repo'.pulls| - 1], site, c);
  }

  /** A request of `deliver` that leaves `c` on `site` and moves `e` to `pc`. */
  lemma SiteWriteInv(s: State, e: ExecutorId, site: Site, c: Creation, repo': Repository, pc: Pc)
    requires Inv(s) && s.PcOf(e).Delivering? && s.PcOf(e).call.Key() == c.key && SiteOf(c.key) == site
    requires site in s.made ==> s.made[site].key == c.key && s.made[site].pull == None
    requires CreationInv(site, c, s.invoked) && site.repository in s.repos
    requires ReposInv(s.repos[site.repository := repo'], s.made[site := c])
    requires PullsKept(s.repos[site.repository], repo') && Listed(s.repos[site.repository := repo'], site, c)
    requires PcInv(e, pc, s.attempts, s.made[site := c], s.invoked)
    ensures Inv(Goto(s.(repos := s.repos[site.repository := repo'], made := s.made[site := c]), e, pc))
  {
    SiteWriteRows(s, site, c);
    SiteWriteExecutors(s, e, site, c, pc);
    MadeBranchesAreSentinel(s);
    ListedInvStays(s.repos, s.made, site.repository, repo');
  }

  /** The provider created the branch of `call`, and `e` moved to `pc`. */
  function WithRef(s: State, e: ExecutorId, call: Call, commit: Commit, pc: Pc): State
    requires SiteOf(call.Key()).repository in s.repos
  {
    var site := SiteOf(call.Key());
    var repo := s.repos[site.repository];
    Goto(s.(repos := s.repos[site.repository := repo.(refs := repo.refs[site.branch := commit])],
         made := s.made[site := Creation(call.Key(), call.request, commit, None)]), e, pc)
  }

  lemma WithRefInv(s: State, e: ExecutorId, call: Call, commit: Commit, pc: Pc)
    requires Inv(s) && s.PcOf(e) == Delivering(call, PostRef(commit))
    requires pc.Ready? || pc == Delivering(call, PostPull(commit))
    requires var site := SiteOf(call.Key()); site.repository in s.repos && site.branch !in s.repos[site.repository].refs
    ensures Inv(WithRef(s, e, call, commit, pc))
  {
    var site, c := SiteOf(call.Key()), Creation(call.Key(), call.request, commit, None);
    assert PcInv(e, s.executors[e], s.attempts, s.made, s.invoked);
    RefReposInv(s.repos, s.made, site, c);
    assert CreationInv(site, c, s.invoked) by {
      var i :| 0 <= i < |s.invoked| && s.invoked[i] == Invocation(call.Key(), e, call.request);
    }
    SiteWriteInv(s, e, site, c, CreateRef(s.repos[site.repository], site.branch, commit).value, pc);
  }

  lemma PostRefCases(s: State, e: ExecutorId, call: Call, commit: Commit, reply: Reply)
    ensures var site, after := SiteOf(call.Key()), DoPostRef(s, e, call, commit, reply);
            if site.repository in s.repos && site.branch !in s.repos[site.repository].refs
            then after == WithRef(s, e, call, commit, if reply.Lost? then Ready else Delivering(call, PostPull(commit)))
            else after == Goto(s, e, Ready)
  {
  }

  lemma PostRefInv(s: State, e: ExecutorId, call: Call, commit: Commit, reply: Reply)
    requires Inv(s) && s.PcOf(e) == Delivering(call, PostRef(commit))
    ensures Inv(DoPostRef(s, e, call, commit, reply))
  {
    var site := SiteOf(call.Key());
    PostRefCases(s, e, call, commit, reply);
    if site.repository in s.repos && site.branch !in s.repos[site.repository].refs {
      WithRefInv(s, e, call, commit, if reply.Lost? then Ready else Delivering(call, PostPull(commit)));
    } else {
      GotoInv(s, e, Ready);
    }
  }

  /** The provider accepted the pull request of `call`, and `e` moved to `pc`. */
  function WithPull(s: State, e: ExecutorId, call: Call, number: int, url: string, pc: Pc): State
    requires SiteOf(call.Key()) in s.made && SiteOf(call.Key()).repository in s.repos
  {
    var site := SiteOf(call.Key());
    var repo := s.repos[site.repository];
    var p := PullRequest(number, url, site.branch, call.Key().baseBranch, true, call.request.title, call.request.body);
    Goto(s.(repos := s.repos[site.repository := repo.(pulls := repo.pulls + [p])],
         made := s.made[site := s.made[site].(pull := Some((number, url)))]), e, pc)
  }

  lemma WithPullInv(s: State, e: ExecutorId, call: Call, commit: Commit, number: int, url: string, pc: Pc)
    requires Inv(s) && s.PcOf(e) == Delivering(call, PostPull(commit))
    requires pc.Ready? || pc == Recording(call, Delivery(number, url, commit))
    ensures SiteOf(call.Key()) in s.made && SiteOf(call.Key()).repository in s.repos
    ensures Inv(WithPull(s, e, call, number, url, pc))
  {
    var site := SiteOf(call.Key());
    var p := PullRequest(number, url, site.branch, call.Key().baseBranch, true, call.request.title, call.request.body);
    assert PcInv(e, s.executors[e], s.attempts, s.made, s.invoked);
    assert CreationInv(site, s.made[site], s.invoked);
    var c := s.made[site].(pull := Some((number, url)));
    PullReposInv(s.repos, s.made, site, c, p);
    var repo := s.repos[site.repository];
    NewPullIsListed(s.repos, site, c, repo.(pulls := repo.pulls + [p]));
    SiteWriteInv(s, e, site, c, repo.(pulls := repo.pulls + [p]), pc);
  }

  lemma PostPullCases(s: State, e: ExecutorId, call: Call, commit: Commit, reply: Reply, number: int, url: string)
    requires SiteOf(call.Key()) in s.made && SiteOf(call.Key()).repository in s.repos
    ensures var after := DoPostPull(s, e, call, commit, reply, number, url);
            || after == Goto(s, e, Ready)
            || after == WithPull(s, e, call, number, url,
                                 if reply.Lost? then Ready else Recording(call, Delivery(number, url, commit)))
  {
  }

  lemma PostPullInv(s: State, e: ExecutorId, call: Call, commit: Commit, reply: Reply, number: int, url: string)
    requires Inv(s) && s.PcOf(e) == Delivering(call, PostPull(commit))
    ensures Inv(DoPostPull(s, e, call, commit, reply, number, url))
  {
    var pc := if reply.Lost? then Ready else Recording(call, Delivery(number, url, commit));
    WithPullInv(s, e, call, commit, number, url, pc);
    GotoInv(s, e, Ready);
    PostPullCases(s, e, call, commit, reply, number, url);
  }

  lemma DeliverInv(s: State, e: ExecutorId, reply: Reply, number: int, url: string)
    requires Inv(s)
    ensures Inv(DoDeliver(s, e, reply, number, url))
  {
    if s.PcOf(e).Delivering? {
      if reply.Refused? {
        GotoInv(s, e, Ready);
      } else if s.PcOf(e).at.PostRef? {
        PostRefInv(s, e, s.PcOf(e).call, s.PcOf(e).at.commit, reply);
      } else if s.PcOf(e).at.PostPull? {
        PostPullInv(s, e, s.PcOf(e).call, s.PcOf(e).at.commit, reply, number, url);
      } else {
        AdvanceInv(s, e, reply);
      }
    }
  }

  lemma SucceedInv(s: State, e: ExecutorId, call: Call, d: Delivery, reply: Reply)
    requires Inv(s) && HasDelivery(call, d, s.attempts, s.made)
    ensures Inv(DoSucceed(s, e, call, d, reply))
  {
    var k := call.Key();
    if !reply.Refused? && MayAct(s.attempts, k, InProgress, call.owner, s.now) {
      var row := SuccessRow(s.attempts[k], d);
      var s' := s.(attempts := s.attempts[k := row]);
      RowWriteInv(s, k, row);
      if reply.Lost? {
        GotoInv(s', e, Ready);
      } else {
        ReturnInv(s', e, k);
      }
    } else {
      GotoInv(s, e, Ready);
    }
  }

  /** What the provider shows for a remediation branch is what was made there. */
  lemma FoundIsDelivered(s: State, site: Site, base: string)
    requires Inv(s) && site.repository in s.repos && IsSentinelBranch(site.branch)
    requires Found(s.repos[site.repository], site.branch, base).Some?
    ensures Delivered(s.made, site, base, Found(s.repos[site.repository], site.branch, base).value)
  {
    var repo := s.repos[site.repository];
    FoundIsDelivery(repo, site.branch, base, 0);
    assert RepoInv(site.repository, repo, s.made);
    var d := Found(repo, site.branch, base).value;
    var k :| 0 <= k < |repo.pulls| && IsDelivery(repo.pulls[k], site.branch, base)
             && repo.pulls[k].number == d.number && repo.pulls[k].url == d.url;
    assert PullInv(site.repository, repo.pulls[k], s.made);
    assert Site(site.repository, repo.pulls[k].head) == site;
  }

  lemma LookInv(s: State, e: ExecutorId, reply: Reply)
    requires Inv(s)
    ensures Inv(DoLook(s, e, reply))
  {
    if s.PcOf(e).Reconciling? {
      var call := s.PcOf(e).call;
      var site := SiteOf(call.Key());
      assert PcInv(e, s.executors[e], s.attempts, s.made, s.invoked);
      if reply.Served? && site.repository in s.repos && Findable(site.repository, site.branch, call.request.baseBranch)
         && Found(s.repos[site.repository], site.branch, call.request.baseBranch).Some? {
        SentinelSite(call.Key());
        FoundIsDelivered(s, site, call.request.baseBranch);
        GotoInv(s, e, Confirming(call, Found(s.repos[site.repository], site.branch, call.request.baseBranch).value));
      } else {
        GotoInv(s, e, Ready);
      }
    }
  }

  lemma OutsideInv(s: State, r: string, after: Repository)
    requires Inv(s)
    ensures Inv(DoOutside(s, r, after))
  {
    if r in s.repos && OutsideChange(s.repos[r], after) {
      assert RepoInv(r, s.repos[r], s.made);
      assert RepoInv(r, after, s.made) by {
        forall i | 0 <= i < |after.pulls| && IsSentinelBranch(after.pulls[i].head)
          ensures PullInv(r, after.pulls[i], s.made)
        {
          assert PullInv(r, s.repos[r].pulls[i], s.made);
        }
      }
      MadeBranchesAreSentinel(s);
      ListedInvStays(s.repos, s.made, r, after);
    }
  }

  lemma MadeBranchesAreSentinel(s: State)
    requires Inv(s)
    ensures forall site :: site in s.made ==> IsSentinelBranch(site.branch)
  {
    forall site | site in s.made
      ensures IsSentinelBranch(site.branch)
    {
      assert CreationInv(site, s.made[site], s.invoked);
      SentinelSite(s.made[site].key);
    }
  }

  lemma StepInv(s: State, step: Step)
    requires Inv(s)
    ensures Inv(Do(s, step))
  {
    match step
    case Tick(_) =>
    case Execute(e, call, reply) => ExecuteInv(s, e, call, reply);
    case Begin(e, reply) => BeginInv(s, e, reply);
    case Deliver(e, reply, number, url) => DeliverInv(s, e, reply, number, url);
    case Record(e, reply) =>
      if s.PcOf(e).Recording? {
        assert PcInv(e, s.executors[e], s.attempts, s.made, s.invoked);
        SucceedInv(s, e, s.PcOf(e).call, s.PcOf(e).delivery, reply);
      }
    case Look(e, reply) => LookInv(s, e, reply);
    case Confirm(e, reply) =>
      if s.PcOf(e).Confirming? {
        assert PcInv(e, s.executors[e], s.attempts, s.made, s.invoked);
        SucceedInv(s, e, s.PcOf(e).call, s.PcOf(e).delivery, reply);
      }
    case Stop(e) => GotoInv(s, e, Ready);
    case Outside(r, after) => OutsideInv(s, r, after);
  }

  lemma {:induction false} RunInv(repos: Repositories, steps: seq<Step>)
    requires Clean(repos)
    ensures Inv(Run(Init(repos), steps))
  {
    if steps == [] {
      InitInv(repos);
    } else {
      RunInv(repos, steps[..|steps| - 1]);
      StepInv(Run(Init(repos), steps[..|steps| - 1]), steps[|steps| - 1]);
    }
  }
}
