/** On which commit a delivery is made: one that the base branch pointed to while the delivery was under way. */
module DeliveryBases {
  import opened Basics
  import opened Jobs
  import opened GitHub
  import opened DeliveryStore
  import opened DeliveryProtocol
  import opened DeliveryInvariant
  import opened DeliveryPreservation
  import opened DeliveryTheorems

  /** The base branch of `k` points to `b`. */
  predicate PointsTo(s: State, k: DeliveryKey, b: Commit) {
    && k.repository in s.repos && k.baseBranch in s.repos[k.repository].refs
    && s.repos[k.repository].refs[k.baseBranch] == b
  }

  predicate Invoked(s: State, k: DeliveryKey) {
    exists i :: 0 <= i < |s.invoked| && s.invoked[i].key == k
  }

  /** In some state of the run, after `deliver` was called for `k`, its base branch pointed to `b`. */
  ghost predicate Seen(repos: Repositories, steps: seq<Step>, k: DeliveryKey, b: Commit) {
    exists n :: 0 <= n <= |steps| && SeenAt(Run(Init(repos), steps[..n]), k, b)
  }

  predicate SeenAt(s: State, k: DeliveryKey, b: Commit) {
    Invoked(s, k) && PointsTo(s, k, b)
  }

  // ---- what is remembered along a run ----

  type Sights = iset<(DeliveryKey, Commit)>

  /** The commit has one parent, which was seen for `k`. */
  ghost predicate OnSeen(sights: Sights, k: DeliveryKey, c: Commit) {
    |c.parents| == 1 && (k, c.parents[0]) in sights
  }

  ghost predicate ProgressSeen(sights: Sights, k: DeliveryKey, at: Progress) {
    match at
    case ReadBase => true
    case CheckBranch(base) => (k, base) in sights
    case PostBlobs(base, _) => (k, base) in sights
    case PostRef(commit) => OnSeen(sights, k, commit)
    case PostPull(commit) => OnSeen(sights, k, commit)
  }

  ghost predicate PcSeen(sights: Sights, pc: Pc) {
    match pc
    case Delivering(call, at) => ProgressSeen(sights, call.Key(), at)
    case Recording(call, d) => OnSeen(sights, call.Key(), d.commit)
    case _ => true
  }

  ghost predicate AllSeen(sights: Sights, s: State) {
    && (forall e :: e in s.executors ==> PcSeen(sights, s.executors[e]))
    && (forall site :: site in s.made ==> OnSeen(sights, s.made[site].key, s.made[site].commit))
  }

  ghost function SeenNow(s: State): Sights {
    iset k, b | SeenAt(s, k, b) :: (k, b)
  }

  ghost function SeenSoFar(repos: Repositories, steps: seq<Step>): Sights {
    iset k, b | Seen(repos, steps, k, b) :: (k, b)
  }

  lemma SightsGrow(repos: Repositories, steps: seq<Step>, step: Step)
    ensures SeenSoFar(repos, steps) + SeenNow(Run(Init(repos), steps)) <= SeenSoFar(repos, steps + [step])
  {
    var more := steps + [step];
    forall k, b | Seen(repos, steps, k, b) || SeenAt(Run(Init(repos), steps), k, b)
      ensures Seen(repos, more, k, b)
    {
      assert forall n :: 0 <= n <= |steps| ==> more[..n] == steps[..n];
      assert steps[..|steps|] == steps;
      if SeenAt(Run(Init(repos), steps), k, b) {
        assert SeenAt(Run(Init(repos), more[..|steps|]), k, b);
      } else {
        var n :| 0 <= n <= |steps| && SeenAt(Run(Init(repos), steps[..n]), k, b);
        assert SeenAt(Run(Init(repos), more[..n]), k, b);
      }
    }
  }

  lemma MoreSights(few: Sights, many: Sights, s: State)
    requires AllSeen(few, s) && few <= many
    ensures AllSeen(many, s)
  {
    forall e | e in s.executors
      ensures PcSeen(many, s.executors[e])
    {
      assert PcSeen(few, s.executors[e]);
    }
  }

  lemma GotoSeen(sights: Sights, s: State, e: ExecutorId, pc: Pc)
    requires AllSeen(sights, s) && PcSeen(sights, pc)
    ensures AllSeen(sights, Goto(s, e, pc))
  {
  }

  // ---- one step ----

  /** A read of the base sees it; everything else keeps the base it has. */
  lemma AdvanceSeen(sights: Sights, s: State, e: ExecutorId, call: Call, at: Progress, reply: Reply)
    requires AllSeen(sights, s) && SeenNow(s) <= sights && Invoked(s, call.Key()) && ProgressSeen(sights, call.Key(), at)
    ensures AllSeen(sights, DoAdvance(s, e, call, at, reply))
  {
    var k := call.Key();
    var pc := DoAdvance(s, e, call, at, reply).PcOf(e);
    if k.repository in s.repos && k.baseBranch in s.repos[k.repository].refs {
      assert SeenAt(s, k, s.repos[k.repository].refs[k.baseBranch]);
    }
    assert PcSeen(sights, pc);
    GotoSeen(sights, s, e, pc);
  }

  lemma PostRefSeen(sights: Sights, s: State, e: ExecutorId, call: Call, commit: Commit, reply: Reply)
    requires AllSeen(sights, s) && OnSeen(sights, call.Key(), commit)
    ensures AllSeen(sights, DoPostRef(s, e, call, commit, reply))
  {
    PostRefCases(s, e, call, commit, reply);
  }

  lemma PostPullSeen(sights: Sights, s: State, e: ExecutorId, call: Call, commit: Commit, reply: Reply, number: int, url: string)
    requires AllSeen(sights, s) && OnSeen(sights, call.Key(), commit)
    ensures AllSeen(sights, DoPostPull(s, e, call, commit, reply, number, url))
  {
    if SiteOf(call.Key()) in s.made && SiteOf(call.Key()).repository in s.repos {
      PostPullCases(s, e, call, commit, reply, number, url);
    }
  }

  lemma DeliverSeen(sights: Sights, s: State, e: ExecutorId, reply: Reply, number: int, url: string)
    requires Inv(s) && AllSeen(sights, s) && SeenNow(s) <= sights && s.PcOf(e).Delivering?
    ensures AllSeen(sights, DoDeliver(s, e, reply, number, url))
  {
    var Delivering(call, at) := s.PcOf(e);
    assert PcSeen(sights, s.executors[e]);
    if reply.Refused? {
      GotoSeen(sights, s, e, Ready);
    } else if at.PostRef? {
      PostRefSeen(sights, s, e, call, at.commit, reply);
    } else if at.PostPull? {
      PostPullSeen(sights, s, e, call, at.commit, reply, number, url);
    } else {
      assert Invoked(s, call.Key()) by { assert PcInv(e, s.executors[e], s.attempts, s.made, s.invoked); }
      AdvanceSeen(sights, s, e, call, at, reply);
    }
  }

  lemma ExecuteSeen(sights: Sights, s: State, e: ExecutorId, call: Call, reply: Reply)
    requires AllSeen(sights, s)
    ensures AllSeen(sights, DoExecute(s, e, call, reply))
  {
    ExecuteIsLocal(s, e, call, reply);
    ExecuteExecutors(s, e, call, reply);
  }

  lemma SucceedSeen(sights: Sights, s: State, e: ExecutorId, call: Call, d: Delivery, reply: Reply)
    requires AllSeen(sights, s)
    ensures AllSeen(sights, DoSucceed(s, e, call, d, reply))
  {
    SucceedWrites(s, e, call, d, reply);
  }

  lemma BeginSeen(sights: Sights, s: State, e: ExecutorId, reply: Reply)
    requires AllSeen(sights, s)
    ensures AllSeen(sights, DoBegin(s, e, reply))
  {
  }

  lemma LookSeen(sights: Sights, s: State, e: ExecutorId, reply: Reply)
    requires AllSeen(sights, s)
    ensures AllSeen(sights, DoLook(s, e, reply))
  {
  }

  lemma StepSeen(sights: Sights, s: State, step: Step)
    requires Inv(s) && AllSeen(sights, s) && SeenNow(s) <= sights
    ensures AllSeen(sights, Do(s, step))
  {
    if step.Deliver? {
      if s.PcOf(step.e).Delivering? {
        DeliverSeen(sights, s, step.e, step.reply, step.number, step.url);
      }
    } else {
      OtherStepSeen(sights, s, step);
    }
  }

  lemma OtherStepSeen(sights: Sights, s: State, step: Step)
    requires AllSeen(sights, s) && !step.Deliver?
    ensures AllSeen(sights, Do(s, step))
  {
    match step
    case Tick(_) =>
    case Outside(_, _) =>
    case Execute(e, call, reply) => ExecuteSeen(sights, s, e, call, reply);
    case Begin(e, reply) => BeginSeen(sights, s, e, reply);
    case Look(e, reply) => LookSeen(sights, s, e, reply);
    case Stop(e) => GotoSeen(sights, s, e, Ready);
    case Record(e, reply) =>
      if s.PcOf(e).Recording? {
        SucceedSeen(sights, s, e, s.PcOf(e).call, s.PcOf(e).delivery, reply);
      }
    case Confirm(e, reply) =>
      if s.PcOf(e).Confirming? {
        SucceedSeen(sights, s, e, s.PcOf(e).call, s.PcOf(e).delivery, reply);
      }
  }

  lemma RunSeenStep(repos: Repositories, past: seq<Step>, last: Step)
    requires Clean(repos) && AllSeen(SeenSoFar(repos, past), Run(Init(repos), past))
    ensures AllSeen(SeenSoFar(repos, past + [last]), Do(Run(Init(repos), past), last))
  {
    var s, sights := Run(Init(repos), past), SeenSoFar(repos, past + [last]);
    SightsGrow(repos, past, last);
    MoreSights(SeenSoFar(repos, past), sights, s);
    StepSeen(sights, s, last) by { RunInv(repos, past); }
  }

  lemma NothingToSee(sights: Sights, repos: Repositories)
    ensures AllSeen(sights, Init(repos))
  {
  }

  lemma {:induction false} RunSeen(repos: Repositories, steps: seq<Step>)
    requires Clean(repos)
    ensures AllSeen(SeenSoFar(repos, steps), Run(Init(repos), steps))
  {
    if steps == [] {
      NothingToSee(SeenSoFar(repos, steps), repos);
    } else {
      var past, last := steps[..|steps| - 1], steps[|steps| - 1];
      RunSeen(repos, past);
      var more := past + [last];
      assert more == steps;
      assert AllSeen(SeenSoFar(repos, more), Do(Run(Init(repos), past), last)) by {
        RunSeenStep(repos, past, last);
      }
    }
  }

  // ---- only valid requests ----

  lemma InvokedGrows(s: State, step: Step)
    ensures var after := Do(s, step).invoked;
            || after == s.invoked
            || (&& step.Begin? && s.PcOf(step.e).Starting?
                && after == s.invoked + [Invocation(s.PcOf(step.e).call.Key(), step.e, s.PcOf(step.e).call.request)])
  {
    match step
    case Record(e, reply) =>
      if s.PcOf(e).Recording? {
        SucceedWrites(s, e, s.PcOf(e).call, s.PcOf(e).delivery, reply);
      }
    case Confirm(e, reply) =>
      if s.PcOf(e).Confirming? {
        SucceedWrites(s, e, s.PcOf(e).call, s.PcOf(e).delivery, reply);
      }
    case _ =>
  }

  /** `deliver` is called with valid requests only. */
  lemma {:induction false} InvokedAreValid(repos: Repositories, steps: seq<Step>, i: nat)
    requires Clean(repos) && i < |Run(Init(repos), steps).invoked|
    ensures ValidRequest(Run(Init(repos), steps).invoked[i].request)
  {
    if steps != [] {
      var past, last := steps[..|steps| - 1], steps[|steps| - 1];
      var s := Run(Init(repos), past);
      InvokedGrows(s, last);
      if i < |s.invoked| {
        InvokedAreValid(repos, past, i);
      } else {
        assert Admitted(s.PcOf(last.e).call) by {
          RunInv(repos, past);
          assert PcInv(last.e, s.executors[last.e], s.attempts, s.made, s.invoked);
        }
      }
    }
  }

  // ---- the result ----

  /** `c` holds exactly the files of `b`, with the requested ones replaced or added. */
  ghost predicate OnlyRequestedChange(c: Commit, b: Commit, r: Request) {
    && (forall p :: p in c.files <==> p in b.files || exists i :: 0 <= i < |r.changes| && r.changes[i].path == p)
    && (forall i :: 0 <= i < |r.changes| ==> c.files[r.changes[i].path] == r.changes[i].content)
    && (forall p :: p in b.files && (forall i :: 0 <= i < |r.changes| ==> r.changes[i].path != p) ==> c.files[p] == b.files[p])
  }

  /**
    Every delivered commit has exactly one parent, to which the base branch of its repository pointed in
    some state of the run after the delivery was begun; it carries the requested title, and every file
    of that base which the request does not name is unchanged.
   */
  lemma DeliveredOnTopOfBase(repos: Repositories, steps: seq<Step>, site: Site) returns (b: Commit)
    requires Clean(repos) && site in Run(Init(repos), steps).made
    ensures var c := Run(Init(repos), steps).made[site];
            && c.commit.parents == [b] && c.commit.message == c.request.title
            && Seen(repos, steps, c.key, b) && OnlyRequestedChange(c.commit, b, c.request)
  {
    var s := Run(Init(repos), steps);
    var c := s.made[site];
    RunSeen(repos, steps);
    assert CreationInv(site, c, s.invoked) by { RunInv(repos, steps); }
    var i :| 0 <= i < |s.invoked| && s.invoked[i].key == c.key && s.invoked[i].request == c.request;
    InvokedAreValid(repos, steps, i);
    b := c.commit.parents[0];
    OverlayReplacesExactly(b.files, c.request.changes);
  }
}
