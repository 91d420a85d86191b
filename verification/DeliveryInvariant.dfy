/** The inductive invariant of delivery. */
module DeliveryInvariant {
  import opened Basics
  import opened Jobs
  import opened GitHub
  import opened DeliveryStore
  import opened DeliveryProtocol

  /** A pull request into `base` exists from the remediation branch of `site`, and `d` describes it. */
  predicate Delivered(made: map<Site, Creation>, site: Site, base: string, d: Delivery) {
    && site in made && made[site].key.baseBranch == base
    && made[site].pull == Some((d.number, d.url)) && made[site].commit == d.commit
  }

  /** Rows have a lease exactly until they have a result, and the result is what was made. */
  predicate RowInv(k: DeliveryKey, a: Attempt, made: map<Site, Creation>) {
    && a.status != FailedAttempt
    && (a.leaseUntil.None? <==> a.status == Succeeded)
    && (a.status == Succeeded <==> a.number.Some?) && (a.number.Some? <==> a.url.Some?) && (a.number.Some? <==> a.commit.Some?)
    && (a.status == Succeeded ==>
          Delivered(made, SiteOf(k), k.baseBranch, Delivery(a.number.value, a.url.value, a.commit.value)))
  }

  ghost predicate RowsInv(t: Attempts, made: map<Site, Creation>) {
    forall k :: k in t ==> RowInv(k, t[k], made)
  }

  predicate Started(t: Attempts, k: DeliveryKey) {
    k in t && t[k].status != Pending
  }

  /** `deliver` was called at most once per key, after the attempt had left `pending`. */
  ghost predicate InvokedInv(invoked: seq<Invocation>, t: Attempts) {
    && (forall i :: 0 <= i < |invoked| ==> Started(t, invoked[i].key))
    && (forall i, k :: 0 <= i < k < |invoked| ==> invoked[i].key != invoked[k].key)
  }

  /** A commit that delivers the request on top of its parent. */
  predicate Delivers(c: Commit, r: Request) {
    |c.parents| == 1 && c == DeliveredCommit(c.parents[0], r)
  }

  /** A branch was made by the one call of `deliver` for its key, with the requested content. */
  predicate CreationInv(site: Site, c: Creation, invoked: seq<Invocation>) {
    && SiteOf(c.key) == site && Delivers(c.commit, c.request)
    && exists i :: 0 <= i < |invoked| && invoked[i].key == c.key && invoked[i].request == c.request
  }

  ghost predicate MadeInv(made: map<Site, Creation>, invoked: seq<Invocation>) {
    forall site :: site in made ==> CreationInv(site, made[site], invoked)
  }

  /** The remediation branches of a repository, and the pull requests from them, are those that were made. */
  ghost predicate RepoInv(r: string, repo: Repository, made: map<Site, Creation>) {
    && (forall b :: b in repo.refs && IsSentinelBranch(b) ==>
          Site(r, b) in made && made[Site(r, b)].commit == repo.refs[b])
    && (forall i :: 0 <= i < |repo.pulls| && IsSentinelBranch(repo.pulls[i].head) ==>
          PullInv(r, repo.pulls[i], made))
    && (forall i, k :: 0 <= i < k < |repo.pulls| && IsSentinelBranch(repo.pulls[i].head) ==>
          repo.pulls[i].head != repo.pulls[k].head)
  }

  predicate PullInv(r: string, p: PullRequest, made: map<Site, Creation>) {
    Site(r, p.head) in made && IsPullOf(p, Site(r, p.head), made[Site(r, p.head)])
  }

  /** `p` is the pull request that was made from the branch of `site`. */
  predicate IsPullOf(p: PullRequest, site: Site, c: Creation) {
    && p.head == site.branch && p.base == c.key.baseBranch && c.pull == Some((p.number, p.url))
    && p.title == c.request.title && p.body == c.request.body
  }

  ghost predicate ReposInv(repos: Repositories, made: map<Site, Creation>) {
    && (forall r :: r in repos ==> RepoInv(r, repos[r], made))
    && (forall site :: site in made ==> site.repository in repos && site.branch in repos[site.repository].refs)
  }

  /** The provider lists the pull request that was made from the branch of `site`. */
  ghost predicate Listed(repos: Repositories, site: Site, c: Creation) {
    c.pull.Some? ==>
      && site.repository in repos
      && exists i :: 0 <= i < |repos[site.repository].pulls| && IsPullOf(repos[site.repository].pulls[i], site, c)
  }

  ghost predicate ListedInv(repos: Repositories, made: map<Site, Creation>) {
    forall site :: site in made ==> Listed(repos, site, made[site])
  }

  /** How far `deliver` got is what was made so far on behalf of its key. */
  predicate ProgressInv(call: Call, at: Progress, made: map<Site, Creation>) {
    var site := SiteOf(call.Key());
    match at
    case PostPull(commit) =>
      site in made && made[site] == Creation(call.Key(), call.request, commit, None)
    case PostRef(commit) => Delivers(commit, call.request) && Unmade(made, site, call.Key())
    case PostBlobs(base, entries) =>
      && |entries| <= |call.request.changes| && entries == call.request.changes[..|entries|]
      && Unmade(made, site, call.Key())
    case _ => Unmade(made, site, call.Key())
  }

  predicate Unmade(made: map<Site, Creation>, site: Site, k: DeliveryKey) {
    site in made ==> made[site].key != k
  }

  predicate PcInv(e: ExecutorId, pc: Pc, t: Attempts, made: map<Site, Creation>, invoked: seq<Invocation>) {
    match pc
    case Ready => true
    case Starting(call) => Admitted(call)
    case Reconciling(call) => Admitted(call) && Started(t, call.Key())
    case Delivering(call, at) =>
      && Admitted(call) && Started(t, call.Key())
      && Invocation(call.Key(), e, call.request) in invoked
      && ProgressInv(call, at, made)
    case Recording(call, d) => HasDelivery(call, d, t, made)
    case Confirming(call, d) => HasDelivery(call, d, t, made)
  }

  predicate HasDelivery(call: Call, d: Delivery, t: Attempts, made: map<Site, Creation>) {
    && Admitted(call) && Started(t, call.Key())
    && Delivered(made, SiteOf(call.Key()), call.request.baseBranch, d)
  }

  ghost predicate ExecutorsInv(
    executors: map<ExecutorId, Pc>, t: Attempts, made: map<Site, Creation>, invoked: seq<Invocation>)
  {
    forall e :: e in executors ==> PcInv(e, executors[e], t, made, invoked)
  }

  /** What was returned for a key is the durable result of its row. */
  predicate ReturnedInv(returned: seq<(DeliveryKey, Delivery)>, t: Attempts) {
    forall i :: 0 <= i < |returned| ==>
                  && returned[i].0 in t && t[returned[i].0].status == Succeeded
                  && DurableResult(t[returned[i].0]) == Some(returned[i].1)
  }

  ghost predicate Inv(s: State) {
    && RowsInv(s.attempts, s.made)
    && InvokedInv(s.invoked, s.attempts)
    && MadeInv(s.made, s.invoked)
    && ReposInv(s.repos, s.made)
    && ListedInv(s.repos, s.made)
    && ExecutorsInv(s.executors, s.attempts, s.made, s.invoked)
    && ReturnedInv(s.returned, s.attempts)
  }

  // ---- one component changes ----

  lemma GotoInv(s: State, e: ExecutorId, pc: Pc)
    requires Inv(s) && PcInv(e, pc, s.attempts, s.made, s.invoked)
    ensures Inv(Goto(s, e, pc))
  {
  }

  /** A row changes without losing progress: started rows stay started, results stay. */
  predicate RowAdvances(before: Attempts, k: DeliveryKey, after: Attempt) {
    k in before ==>
      && (before[k].status != Pending ==> after.status != Pending)
      && (before[k].status == Succeeded ==> after == before[k])
  }

  lemma StartedStays(t: Attempts, k: DeliveryKey, row: Attempt)
    requires RowAdvances(t, k, row)
    ensures forall j :: Started(t, j) ==> Started(t[k := row], j)
  {
  }

  lemma RowWriteExecutors(s: State, k: DeliveryKey, row: Attempt)
    requires ExecutorsInv(s.executors, s.attempts, s.made, s.invoked) && RowAdvances(s.attempts, k, row)
    ensures ExecutorsInv(s.executors, s.attempts[k := row], s.made, s.invoked)
  {
    StartedStays(s.attempts, k, row);
    forall e | e in s.executors
      ensures PcInv(e, s.executors[e], s.attempts[k := row], s.made, s.invoked)
    {
      assert PcInv(e, s.executors[e], s.attempts, s.made, s.invoked);
    }
  }

  lemma RowWriteHistory(s: State, k: DeliveryKey, row: Attempt)
    requires InvokedInv(s.invoked, s.attempts) && ReturnedInv(s.returned, s.attempts) && RowAdvances(s.attempts, k, row)
    ensures InvokedInv(s.invoked, s.attempts[k := row]) && ReturnedInv(s.returned, s.attempts[k := row])
  {
    StartedStays(s.attempts, k, row);
  }

  lemma RowWriteInv(s: State, k: DeliveryKey, row: Attempt)
    requires Inv(s) && RowInv(k, row, s.made) && RowAdvances(s.attempts, k, row)
    ensures Inv(s.(attempts := s.attempts[k := row]))
  {
    RowWriteExecutors(s, k, row);
    RowWriteHistory(s, k, row);
  }

  lemma ReturnInv(s: State, e: ExecutorId, k: DeliveryKey)
    requires Inv(s) && k in s.attempts && s.attempts[k].status == Succeeded
    ensures Inv(Return(s, e, k, s.attempts[k]))
  {
    var r := DurableResult(s.attempts[k]);
    GotoInv(if r.Some? then s.(returned := s.returned + [(k, r.value)]) else s, e, Ready);
  }
}
