/**
  `GitHubDeliveryExecutor.execute` and `GitHubDeliveryClient.deliver` as programs. Between any two of
  their statements all other executors and everybody else may act, and any request may fail before or
  after it took effect; these choices are given as an argument, the environment. The programs are shown to
  be runs of the protocol, and their results are tied to the environment.
 */
module DeliveryExecutor {
  import opened Basics
  import opened Jobs
  import opened Strings
  import opened GitHub
  import opened DeliveryStore
  import Protocol = DeliveryProtocol
  import opened DeliveryInvariant
  import opened DeliveryPreservation
  import Runs = DeliveryTheorems
  import opened DeliveryBases
  import opened DeliveryTurns

  datatype ExecutionError = Invalid | NotAcquired | NotBegun | Ambiguous | Incomplete

  /** A read or upload of `deliver` makes the expected progress exactly if it is answered; else it raises. */
  lemma AdvanceStep(s: Protocol.State, e: Protocol.ExecutorId, reply: Protocol.Reply)
    requires s.PcOf(e).Delivering? && !s.PcOf(e).at.PostRef? && !s.PcOf(e).at.PostPull?
    ensures var s' := Protocol.Do(s, Protocol.Deliver(e, reply, 0, ""));
            var call, at := s.PcOf(e).call, s.PcOf(e).at;
            var repo := RepoAt(s, call.Key());
            var next := if repo.Some? then Protocol.Advance(repo.value, call.request, at) else None;
            && s'.attempts == s.attempts && Kept(s, s', call.Key(), 0.0)
            && s'.PcOf(e) == if reply.Served? && next.Some? then Protocol.Delivering(call, next.value) else Protocol.Ready
  {
  }

  lemma PostRefStep(s: Protocol.State, e: Protocol.ExecutorId, reply: Protocol.Reply)
    requires s.PcOf(e).Delivering? && s.PcOf(e).at.PostRef?
    ensures var s' := Protocol.Do(s, Protocol.Deliver(e, reply, 0, ""));
            var Delivering(call, at) := s.PcOf(e);
            var k := call.Key();
            && s'.attempts == s.attempts && s'.now == s.now
            && (s'.PcOf(e).Ready? || s'.PcOf(e) == Protocol.Delivering(call, Protocol.PostPull(at.commit)))
            && (reply.Served? && BranchFree(s, k) ==>
                  && s'.PcOf(e).Delivering? && BranchMade(s', k)
                  && s'.repos[k.repository].pulls == s.repos[k.repository].pulls)
  {
  }

  lemma PostPullStep(s: Protocol.State, e: Protocol.ExecutorId, reply: Protocol.Reply, number: int, url: string)
    requires s.PcOf(e).Delivering? && s.PcOf(e).at.PostPull?
    ensures var s' := Protocol.Do(s, Protocol.Deliver(e, reply, number, url));
            var Delivering(call, at) := s.PcOf(e);
            var k := call.Key();
            && s'.attempts == s.attempts && s'.now == s.now
            && (s'.PcOf(e).Ready? || s'.PcOf(e) == Protocol.Recording(call, Delivery(number, url, at.commit)))
            && (reply.Served? && BranchMade(s, k) && !NumberTaken(s.repos[k.repository], number) ==> s'.PcOf(e).Recording?)
  {
  }

  /** Recording in the protocol is the store's recording, followed by `_result` if the reply arrives. */
  lemma SucceedStep(s: Protocol.State, e: Protocol.ExecutorId, call: Protocol.Call, d: Delivery, reply: Protocol.Reply)
    ensures var s' := Protocol.DoSucceed(s, e, call, d, reply);
            var k := call.Key();
            && s'.PcOf(e).Ready?
            && (if MayAct(s.attempts, k, InProgress, call.owner, s.now) && !reply.Refused?
                then && s'.attempts == s.attempts[k := SuccessRow(s.attempts[k], d)]
                     && (reply.Served? ==>
                           var r := DurableResult(SuccessRow(s.attempts[k], d));
                           r.Some? ==> |s'.returned| > 0 && s'.returned[|s'.returned| - 1] == (k, r.value))
                else s'.attempts == s.attempts)
  {
  }

  /** A valid request passes the store's checks on blank fields. */
  lemma ValidRequestIsNotBlank(r: GitHub.Request)
    requires ValidRequest(r)
    ensures !Blank("github") && !Blank(r.repository) && !Blank(r.baseBranch)
  {
    assert !IsSpace("github"[0]);
    if SLASH !in r.repository {
      SplitWithoutSeparator(r.repository, SLASH);
    }
    var i :| 0 <= i < |r.repository| && r.repository[i] == SLASH;
    assert !IsSpace(r.repository[i]);
  }

  /** `_result` at the end of `execute`. */
  lemma ReturnStep(s: Protocol.State, e: Protocol.ExecutorId, k: DeliveryKey, a: Attempt)
    ensures var s' := Protocol.Return(s, e, k, a);
            && s'.attempts == s.attempts && s'.PcOf(e).Ready? && Kept(s, s', k, 0.0)
            && (DurableResult(a).Some? ==> |s'.returned| > 0 && s'.returned[|s'.returned| - 1] == (k, DurableResult(a).value))
  {
  }

  /** What follows the acquisition, case by case. */
  lemma AcquiredStep(s: Protocol.State, e: Protocol.ExecutorId, call: Protocol.Call, row: Attempt)
    ensures var s' := Protocol.Acquired(s, e, call, row);
            var foreign := row.Unresolved() && row.owner != call.owner;
            && s'.attempts == s.attempts && Kept(s, s', call.Key(), 0.0)
            && (foreign || row.status == FailedAttempt ==> s'.PcOf(e).Ready?)
            && (!foreign && row.status == InProgress ==> s'.PcOf(e) == Protocol.Reconciling(call))
            && (!foreign && row.status == Pending ==> s'.PcOf(e) == Protocol.Starting(call))
            && (row.status == Succeeded ==>
                  && s'.PcOf(e).Ready?
                  && (DurableResult(row).Some? ==>
                        |s'.returned| > 0 && s'.returned[|s'.returned| - 1] == (call.Key(), DurableResult(row).value)))
  {
    if row.status == Succeeded {
      assert Protocol.Acquired(s, e, call, row) == Protocol.Return(s, e, call.Key(), row);
      ReturnStep(s, e, call.Key(), row);
    }
  }

  /** The row that `acquire` leaves. */
  lemma AcquiredRowMeans(s: Protocol.State, call: Protocol.Call)
    ensures var k := call.Key();
            var row := AcquiredRow(s.attempts, k, call.owner, call.leaseSeconds, s.now);
            && (row.Unresolved() && row.owner != call.owner <==> HeldByAnother(s, call))
            && row.status == (if k in s.attempts then s.attempts[k].status else Pending)
            && (!row.Unresolved() ==> k in s.attempts && row == s.attempts[k])
            && (Free(s, k, row.status) ==>
                  row.owner == call.owner && row.leaseUntil == Some(s.now + call.leaseSeconds as real))
  {
  }

  lemma ExecuteStep(s: Protocol.State, e: Protocol.ExecutorId, call: Protocol.Call, reply: Protocol.Reply)
    requires s.PcOf(e).Ready? && Protocol.Admitted(call)
    ensures var row := AcquiredRow(s.attempts, call.Key(), call.owner, call.leaseSeconds, s.now);
            var s' := Protocol.Do(s, Protocol.Execute(e, call, reply));
            var acquired := s.(attempts := s.attempts[call.Key() := row]);
            match reply
            case Refused => s' == s
            case Lost => s'.attempts == acquired.attempts && s'.PcOf(e).Ready?
            case Served => s' == Protocol.Acquired(acquired, e, call, row)
  {
  }

  lemma BeginStep(s: Protocol.State, e: Protocol.ExecutorId, call: Protocol.Call, reply: Protocol.Reply)
    requires s.PcOf(e) == Protocol.Starting(call)
    ensures var s' := Protocol.Do(s, Protocol.Begin(e, reply));
            var k := call.Key();
            if MayAct(s.attempts, k, Pending, call.owner, s.now) && !reply.Refused?
            then && s'.attempts == s.attempts[k := BeginRow(s.attempts[k], call.leaseSeconds, s.now)]
                 && s'.PcOf(e) == (if reply.Lost? then Protocol.Ready else Protocol.Delivering(call, Protocol.ReadBase))
                 && s'.repos == s.repos && s'.made == s.made && s'.now == s.now
            else s'.attempts == s.attempts && s'.PcOf(e).Ready?
  {
  }

  lemma LookStep(s: Protocol.State, e: Protocol.ExecutorId, call: Protocol.Call, reply: Protocol.Reply)
    requires s.PcOf(e) == Protocol.Reconciling(call)
    ensures var s' := Protocol.Do(s, Protocol.Look(e, reply));
            var r := call.request.repository;
            && s'.attempts == s.attempts && Kept(s, s', call.Key(), 0.0)
            && (if reply.Served? && r in s.repos && Findable(r, BranchName(call.request.job.jobId), call.request.baseBranch)
                   && Found(s.repos[r], BranchName(call.request.job.jobId), call.request.baseBranch).Some?
                then s'.PcOf(e) == Protocol.Confirming(call, Found(s.repos[r], BranchName(call.request.job.jobId), call.request.baseBranch).value)
                else s'.PcOf(e).Ready?)
  {
  }

  /**
    What `execute` returns, by cases of the attempt in the state `s` of its acquisition. It is not acquired
    exactly if the statement is not answered, somebody else holds it under a live lease, or it failed. The
    result of a finished attempt is returned as it is. A free attempt that is not disturbed is delivered on top
    of what the base branch points to, and one that was abandoned after its delivery is recovered.
   */
  predicate Settles(s: Protocol.State, call: Protocol.Call, env: Environment, r: Result<Delivery, ExecutionError>) {
    var k, answered := call.Key(), env.acquire.reply.Served?;
    && (r == Err(NotAcquired) <==>
        !answered || HeldByAnother(s, call) || (k in s.attempts && s.attempts[k].status == FailedAttempt))
    && (answered && k in s.attempts && s.attempts[k].status == Succeeded ==>
          r == if DurableResult(s.attempts[k]).Some? then Ok(DurableResult(s.attempts[k]).value) else Err(Incomplete))
    && (answered && DeliversIn(s, call, env) ==> r == Ok(env.Expected(s, call)))
    && (answered && RecoversIn(s, call, env) ==> r == Ok(FoundAt(s, k).value))
    && r != Err(Invalid)
  }

  predicate BranchFree(s: Protocol.State, k: DeliveryKey) {
    k.repository in s.repos && BranchName(k.jobId) !in s.repos[k.repository].refs
  }

  predicate BranchMade(s: Protocol.State, k: DeliveryKey) {
    k.repository in s.repos && BranchName(k.jobId) in s.repos[k.repository].refs && Protocol.SiteOf(k) in s.made
  }

  /** After step `from` of the run, its base branch pointed to `b` at some moment. */
  ghost predicate ReadSince(repos: Repositories, trace: seq<Protocol.Step>, from: nat, k: DeliveryKey, b: Commit) {
    exists n :: from <= n <= |trace| && PointsTo(Protocol.Run(Protocol.Init(repos), trace[..n]), k, b)
  }

  lemma ReadSinceGrows(repos: Repositories, trace: seq<Protocol.Step>, more: seq<Protocol.Step>, from: nat, k: DeliveryKey, b: Commit)
    requires ReadSince(repos, trace, from, k, b) && trace <= more
    ensures ReadSince(repos, more, from, k, b)
  {
    var n :| from <= n <= |trace| && PointsTo(Protocol.Run(Protocol.Init(repos), trace[..n]), k, b);
    assert more[..n] == trace[..n];
  }

  class Executor {
    const id: Protocol.ExecutorId
    const owner: Owner
    const leaseSeconds: int
    const store: DeliveryAttemptStore
    ghost const origin: Repositories
    ghost var trace: seq<Protocol.Step>
    var state: Protocol.State

    constructor (id: Protocol.ExecutorId, owner: Owner, leaseSeconds: int, store: DeliveryAttemptStore, repos: Repositories)
      requires !Blank(owner) && LeaseInRange(leaseSeconds) && store.attempts == map[] && Protocol.Clean(repos)
      ensures Valid() && Pc().Ready? && this.id == id && this.store == store
      ensures this.owner == owner && this.leaseSeconds == leaseSeconds && state.repos == repos
    {
      this.id := id;
      this.owner := owner;
      this.leaseSeconds := leaseSeconds;
      this.store := store;
      origin := repos;
      trace := [];
      state := Protocol.Init(repos);
    }

    ghost predicate Valid()
      reads this, store
    {
      && !Blank(owner) && LeaseInRange(leaseSeconds) && Protocol.Clean(origin)
      && state == Protocol.Run(Protocol.Init(origin), trace) && store.attempts == state.attempts
    }

    function Pc(): Protocol.Pc
      reads this
    {
      state.PcOf(id)
    }

    method Take(step: Protocol.Step)
      requires state == Protocol.Run(Protocol.Init(origin), trace)
      modifies this
      ensures state == Protocol.Do(old(state), step) && trace == old(trace) + [step]
      ensures state == Protocol.Run(Protocol.Init(origin), trace)
    {
      state := Protocol.Do(state, step);
      assert (trace + [step])[..|trace + [step]| - 1] == trace;
      trace := trace + [step];
    }

    /** Everybody else takes the steps of `gap`. */
    method Interfere(gap: seq<Protocol.Step>)
      requires Valid()
      modifies this, store
      ensures Valid() && Pc() == old(Pc()) && old(trace) <= trace
      ensures state == AfterOthers(old(state), gap, id)
    {
      for i := 0 to |gap|
        invariant Valid() && Pc() == old(Pc()) && old(trace) <= trace
        invariant state == AfterOthers(old(state), gap[..i], id)
      {
        assert gap[..i + 1][..i] == gap[..i];
        if Runs.Foreign(gap[i], id) {
          Runs.ForeignKeepsPc(state, gap[i], id);
          Take(gap[i]);
          store.attempts := state.attempts;
        }
      }
      assert gap[..|gap|] == gap;
    }

    /** The same, when a call for `k` comes next. */
    method Wait(turn: Turn, ghost k: DeliveryKey)
      requires Valid()
      modifies this, store
      ensures Valid() && Pc() == old(Pc()) && old(trace) <= trace
      ensures turn.Quiet(k) ==> Kept(old(state), state, k, Ticks(turn.gap))
    {
      Interfere(turn.gap);
      if turn.Quiet(k) {
        QuietGapKeeps(old(state), turn, k, id);
      }
    }

    /** One read or upload request. */
    method Request(call: Protocol.Call, at: Protocol.Progress, turn: Turn) returns (next: Option<Protocol.Progress>)
      requires Valid() && Pc() == Protocol.Delivering(call, at) && !at.PostRef? && !at.PostPull?
      modifies this, store
      ensures Valid() && old(trace) <= trace
      ensures next.None? ==> Pc().Ready?
      ensures next.Some? ==> Pc() == Protocol.Delivering(call, next.value) && turn.reply.Served?
      ensures next.Some? && at.ReadBase? ==>
                next.value.CheckBranch? && ReadSince(origin, trace, |old(trace)|, call.Key(), next.value.base)
      ensures next.Some? && at.CheckBranch? ==> next.value == Protocol.PostBlobs(at.base, [])
      ensures next.Some? && at.PostBlobs? && |at.entries| < |call.request.changes| ==>
                next.value == Protocol.PostBlobs(at.base, at.entries + [call.request.changes[|at.entries|]])
      ensures next.Some? && at.PostBlobs? && |at.entries| >= |call.request.changes| ==>
                next.value == Protocol.PostRef(Commit(Overlay(at.base.files, at.entries), [at.base], call.request.title))
      ensures turn.Smooth(call.Key()) ==>
                && Kept(old(state), state, call.Key(), Ticks(turn.gap))
                && next == if RepoAt(old(state), call.Key()).Some?
                           then Protocol.Advance(RepoAt(old(state), call.Key()).value, call.request, at) else None
    {
      Wait(turn, call.Key());
      ghost var seen := trace;
      AdvanceStep(state, id, turn.reply);
      Take(Protocol.Deliver(id, turn.reply, 0, ""));
      next := if Pc().Ready? then None else Some(Pc().at);
      assert trace[..|seen|] == seen;
    }

    /** The blob uploads: one tree entry per change, in order. */
    method PostBlobs(call: Protocol.Call, base: Commit, turns: DeliverTurns) returns (entries: Option<seq<FileChange>>)
      requires Valid() && Pc() == Protocol.Delivering(call, Protocol.PostBlobs(base, []))
      modifies this, store
      ensures Valid() && old(trace) <= trace
      ensures entries.None? ==> Pc().Ready?
      ensures entries.Some? ==> entries.value == call.request.changes && Pc() == Protocol.Delivering(call, Protocol.PostBlobs(base, entries.value))
      ensures turns.BlobsSmooth(call.Key(), |call.request.changes|) && RepoAt(old(state), call.Key()).Some? ==>
                entries.Some? && Kept(old(state), state, call.Key(), turns.BlobsTime(|call.request.changes|))
    {
      var treeEntries: seq<FileChange> := [];
      ghost var smooth := turns.BlobsSmooth(call.Key(), |call.request.changes|) && RepoAt(old(state), call.Key()).Some?;
      while |treeEntries| < |call.request.changes|
        invariant Valid() && old(trace) <= trace
        invariant |treeEntries| <= |call.request.changes| && treeEntries == call.request.changes[..|treeEntries|]
        invariant Pc() == Protocol.Delivering(call, Protocol.PostBlobs(base, treeEntries))
        invariant smooth ==> Kept(old(state), state, call.Key(), turns.BlobsTime(|treeEntries|))
        decreases |call.request.changes| - |treeEntries|
      {
        var next := Request(call, Protocol.PostBlobs(base, treeEntries), turns.blobs(|treeEntries|));
        if next.None? {
          return None;
        }
        treeEntries := treeEntries + [call.request.changes[|treeEntries|]];
      }
      entries := Some(treeEntries);
    }

    /** The two requests that write: the branch, then the pull request. */
    method Publish(call: Protocol.Call, commit: Commit, turns: DeliverTurns) returns (d: Option<Delivery>)
      requires Valid() && Pc() == Protocol.Delivering(call, Protocol.PostRef(commit))
      modifies this, store
      ensures Valid() && old(trace) <= trace
      ensures d.None? ==> Pc().Ready?
      ensures d.Some? ==> d.value == Delivery(turns.number, turns.url, commit) && Pc() == Protocol.Recording(call, d.value)
      ensures turns.ref.Smooth(call.Key()) && turns.pull.Smooth(call.Key()) && Clear(old(state), call.Key(), turns.number) ==>
                && d.Some? && RowAt(state, call.Key()) == RowAt(old(state), call.Key())
                && state.now <= old(state).now + turns.PublishTime()
    {
      Wait(turns.ref, call.Key());
      PostRefStep(state, id, turns.ref.reply);
      Take(Protocol.Deliver(id, turns.ref.reply, 0, ""));
      if Pc().Ready? {
        return None;
      }
      Wait(turns.pull, call.Key());
      PostPullStep(state, id, turns.pull.reply, turns.number, turns.url);
      Take(Protocol.Deliver(id, turns.pull.reply, turns.number, turns.url));
      d := if Pc().Ready? then None else Some(Delivery(turns.number, turns.url, commit));
    }

    /** The uploads of `deliver`, up to the commit object. */
    method Upload(call: Protocol.Call, base: Commit, turns: DeliverTurns) returns (commit: Option<Commit>)
      requires Valid() && Pc() == Protocol.Delivering(call, Protocol.PostBlobs(base, []))
      modifies this, store
      ensures Valid() && old(trace) <= trace
      ensures commit.None? ==> Pc().Ready?
      ensures commit.Some? ==>
                && Pc() == Protocol.Delivering(call, Protocol.PostRef(commit.value))
                && commit.value == DeliveredCommit(base, call.request)
      ensures (&& turns.BlobsSmooth(call.Key(), |call.request.changes|) && turns.commit.Smooth(call.Key())
               && RepoAt(old(state), call.Key()).Some?) ==>
                commit.Some? && Kept(old(state), state, call.Key(), turns.UploadTime(|call.request.changes|))
    {
      var entries := PostBlobs(call, base, turns);
      if entries.None? {
        return None;
      }
      var next := Request(call, Protocol.PostBlobs(base, entries.value), turns.commit);
      commit := if next.None? then None else Some(next.value.commit);
    }

    /** The reads and uploads of `deliver`. */
    method Prepare(call: Protocol.Call, turns: DeliverTurns) returns (commit: Option<Commit>)
      requires Valid() && Pc() == Protocol.Delivering(call, Protocol.ReadBase)
      modifies this, store
      ensures Valid() && old(trace) <= trace
      ensures commit.None? ==> Pc().Ready?
      ensures commit.Some? ==>
                && Pc() == Protocol.Delivering(call, Protocol.PostRef(commit.value)) && |commit.value.parents| == 1
                && commit.value == DeliveredCommit(commit.value.parents[0], call.request)
                && ReadSince(origin, trace, |old(trace)|, call.Key(), commit.value.parents[0])
      ensures turns.Smooth(call.Key(), |call.request.changes|) && Clear(old(state), call.Key(), turns.number) ==>
                && commit == Some(DeliveredCommit(BaseOf(old(state), call.Key()), call.request))
                && Kept(old(state), state, call.Key(), turns.PrepareTime(|call.request.changes|))
    {
      var next := Request(call, Protocol.ReadBase, turns.readBase);
      if next.None? {
        return None;
      }
      var base := next.value.base;
      ghost var read := trace;
      next := Request(call, Protocol.CheckBranch(base), turns.checkBranch);
      if next.None? {
        return None;
      }
      commit := Upload(call, base, turns);
      ReadSinceGrows(origin, read, trace, |old(trace)|, call.Key(), base);
    }

    /**
      `deliver`: what it returns is the requested content on top of a commit that the base branch pointed
      to during the call; it succeeds if every request is answered and nothing is in the way.
     */
    method Deliver(call: Protocol.Call, turns: DeliverTurns) returns (d: Option<Delivery>)
      requires Valid() && Pc() == Protocol.Delivering(call, Protocol.ReadBase)
      modifies this, store
      ensures Valid() && old(trace) <= trace
      ensures d.None? ==> Pc().Ready?
      ensures d.Some? ==> Pc() == Protocol.Recording(call, d.value) && d.value.number == turns.number && d.value.url == turns.url
      ensures d.Some? ==>
                && |d.value.commit.parents| == 1
                && d.value.commit == DeliveredCommit(d.value.commit.parents[0], call.request)
                && ReadSince(origin, trace, |old(trace)|, call.Key(), d.value.commit.parents[0])
      ensures turns.Smooth(call.Key(), |call.request.changes|) && Clear(old(state), call.Key(), turns.number) ==>
                && d == Some(Delivery(turns.number, turns.url, DeliveredCommit(BaseOf(old(state), call.Key()), call.request)))
                && RowAt(state, call.Key()) == RowAt(old(state), call.Key())
                && state.now <= old(state).now + turns.Time(|call.request.changes|)
    {
      var commit := Prepare(call, turns);
      if commit.None? {
        return None;
      }
      ghost var read := trace;
      d := Publish(call, commit.value, turns);
      if d.Some? {
        ReadSinceGrows(origin, read, trace, |old(trace)|, call.Key(), commit.value.parents[0]);
      }
    }

    /** The durable result of the call's row is `d`, and `execute` has just returned it. */
    ghost predicate ReturnedHere(k: DeliveryKey, d: Delivery)
      reads this, store
    {
      && k in store.attempts && store.attempts[k].status == Succeeded && DurableResult(store.attempts[k]) == Some(d)
      && |state.returned| > 0 && state.returned[|state.returned| - 1] == (k, d)
    }

    /** `record_result` or `record_reconciled_result` is carried out, then `_result`. */
    method RecordNow(call: Protocol.Call, d: Delivery, step: Protocol.Step) returns (r: Result<Delivery, ExecutionError>)
      requires Valid() && call.owner == owner && (step.Record? || step.Confirm?) && !step.reply.Refused?
      requires || (step == Protocol.Confirm(id, step.reply) && Pc() == Protocol.Confirming(call, d))
               || (step == Protocol.Record(id, step.reply) && Pc() == Protocol.Recording(call, d))
      modifies this, store
      ensures Valid() && old(trace) <= trace && Pc().Ready?
      ensures r.Ok? ==> r.value == d && ReturnedHere(call.Key(), d)
      ensures r.Err? ==> r.error in {Ambiguous, Incomplete}
      ensures step.reply.Served? && Held(old(state), call.Key(), InProgress, owner, 0.0) && d.url != "" ==> r == Ok(d)
    {
      SucceedStep(state, id, call, d, step.reply);
      var recorded := store.RecordSuccess(call.Key(), owner, d, state.now);
      Take(step);
      if recorded.Err? || step.reply.Lost? {
        return Err(Ambiguous);
      }
      var result := DurableResult(recorded.value);
      r := if result.Some? then Ok(result.value) else Err(Incomplete);
    }

    /** The fenced recording, which may be refused or lose its reply. */
    method Succeed(call: Protocol.Call, d: Delivery, confirm: bool, turn: Turn) returns (r: Result<Delivery, ExecutionError>)
      requires Valid() && call.owner == owner
      requires Pc() == if confirm then Protocol.Confirming(call, d) else Protocol.Recording(call, d)
      modifies this, store
      ensures Valid() && old(trace) <= trace && Pc().Ready?
      ensures r.Ok? ==> r.value == d && ReturnedHere(call.Key(), d)
      ensures r.Err? ==> r.error in {Ambiguous, Incomplete}
      ensures turn.Smooth(call.Key()) && Held(old(state), call.Key(), InProgress, owner, Ticks(turn.gap)) && d.url != "" ==> r == Ok(d)
    {
      Wait(turn, call.Key());
      var step := if confirm then Protocol.Confirm(id, turn.reply) else Protocol.Record(id, turn.reply);
      if turn.reply.Refused? {
        Take(step);
        r := Err(Ambiguous);
      } else {
        r := RecordNow(call, d, step);
      }
    }

    /** `_reconcile` */
    method Reconcile(call: Protocol.Call, env: Environment) returns (r: Result<Delivery, ExecutionError>)
      requires Valid() && call.owner == owner && Pc() == Protocol.Reconciling(call)
      modifies this, store
      ensures Valid() && old(trace) <= trace && Pc().Ready?
      ensures r.Ok? ==> ReturnedHere(call.Key(), r.value)
      ensures r.Err? ==> r.error in {Ambiguous, Incomplete}
      ensures (&& env.look.Smooth(call.Key()) && env.confirm.Smooth(call.Key()) && FindsIn(old(state), call.Key())
               && Held(old(state), call.Key(), InProgress, owner, Ticks(env.look.gap) + Ticks(env.confirm.gap))) ==>
                r == Ok(FoundAt(old(state), call.Key()).value)
    {
      Wait(env.look, call.Key());
      var repository := call.request.repository;
      LookStep(state, id, call, env.look.reply);
      if env.look.reply.Served? && repository in state.repos {
        var found := FindDelivery(state.repos[repository], repository, BranchName(call.request.job.jobId), call.request.baseBranch);
        Take(Protocol.Look(id, env.look.reply));
        if found.Err? || found.value.None? {
          return Err(Ambiguous);
        }
        r := Succeed(call, found.value.value, true, env.confirm);
      } else {
        Take(Protocol.Look(id, env.look.reply));
        r := Err(Ambiguous);
      }
    }

    /** `deliver` and `record_result`, for an attempt that this call began. */
    method DeliverAndRecord(call: Protocol.Call, env: Environment) returns (r: Result<Delivery, ExecutionError>)
      requires Valid() && call.owner == owner && Pc() == Protocol.Delivering(call, Protocol.ReadBase)
      modifies this, store
      ensures Valid() && old(trace) <= trace && Pc().Ready?
      ensures r.Ok? ==> ReturnedHere(call.Key(), r.value)
      ensures r.Err? ==> r.error in {Ambiguous, Incomplete}
      ensures (&& env.DeliverySmooth(call) && Clear(old(state), call.Key(), env.deliver.number)
               && Held(old(state), call.Key(), InProgress, owner, env.DeliveryTime(call))) ==>
                r == Ok(env.Expected(old(state), call))
    {
      var d := Deliver(call, env.deliver);
      if d.None? {
        return Err(Ambiguous);
      }
      r := Succeed(call, d.value, false, env.record);
    }

    /** `begin`; false if it is refused or its reply is lost. */
    method Begin(call: Protocol.Call, turn: Turn) returns (begun: bool)
      requires Valid() && call.owner == owner && call.leaseSeconds == leaseSeconds && Pc() == Protocol.Starting(call)
      modifies this, store
      ensures Valid() && old(trace) <= trace
      ensures Pc() == if begun then Protocol.Delivering(call, Protocol.ReadBase) else Protocol.Ready
      ensures turn.Smooth(call.Key()) && Held(old(state), call.Key(), Pending, owner, Ticks(turn.gap)) ==>
                && begun && Held(state, call.Key(), InProgress, owner, leaseSeconds as real)
                && RepoAt(state, call.Key()) == RepoAt(old(state), call.Key())
    {
      Wait(turn, call.Key());
      BeginStep(state, id, call, turn.reply);
      if turn.reply.Refused? {
        Take(Protocol.Begin(id, turn.reply));
        return false;
      }
      var r := store.Begin(call.Key(), owner, leaseSeconds, state.now);
      Take(Protocol.Begin(id, turn.reply));
      begun := r.Ok? && turn.reply.Served?;
    }

    /** `begin`, `deliver` and `record_result`, for an attempt that is still pending. */
    method Start(call: Protocol.Call, env: Environment) returns (r: Result<Delivery, ExecutionError>)
      requires Valid() && call.owner == owner && call.leaseSeconds == leaseSeconds && Pc() == Protocol.Starting(call)
      modifies this, store
      ensures Valid() && old(trace) <= trace && Pc().Ready?
      ensures r.Ok? ==> ReturnedHere(call.Key(), r.value)
      ensures r.Err? ==> r.error in {NotBegun, Ambiguous, Incomplete}
      ensures (&& env.begin.Smooth(call.Key()) && env.DeliverySmooth(call) && Clear(old(state), call.Key(), env.deliver.number)
               && Held(old(state), call.Key(), Pending, owner, Ticks(env.begin.gap))
               && env.DeliveryTime(call) <= leaseSeconds as real) ==>
                r == Ok(env.Expected(old(state), call))
    {
      var begun := Begin(call, env.begin);
      if !begun {
        return Err(NotBegun);
      }
      r := DeliverAndRecord(call, env);
    }

    /** `acquire`, whose reply may be lost after the row was inserted or taken over. */
    method Acquire(call: Protocol.Call, reply: Protocol.Reply) returns (r: Result<Attempt, ExecutionError>)
      requires Valid() && Pc().Ready? && Protocol.Admitted(call) && call.owner == owner && call.leaseSeconds == leaseSeconds
      modifies this, store
      ensures Valid() && old(trace) <= trace
      ensures r.Err? <==> !reply.Served? || HeldByAnother(old(state), call)
      ensures r.Err? ==> r.error == NotAcquired
      ensures r.Err? || r.value.status == FailedAttempt ==> Pc().Ready?
      ensures r.Ok? && r.value.status == InProgress ==> Pc() == Protocol.Reconciling(call)
      ensures r.Ok? && r.value.status == Pending ==> Pc() == Protocol.Starting(call)
      ensures r.Ok? && r.value.status == Succeeded ==>
                && Pc().Ready?
                && (DurableResult(r.value).Some? ==> ReturnedHere(call.Key(), DurableResult(r.value).value))
      ensures r.Ok? ==>
                var k := call.Key();
                && r.value.status == (if k in old(state).attempts then old(state).attempts[k].status else Pending)
                && (r.value.status in {Succeeded, FailedAttempt} ==> r.value == old(state).attempts[k])
                && RepoAt(state, k) == RepoAt(old(state), k) && state.now == old(state).now
                && (Free(old(state), k, r.value.status) ==> Held(state, k, r.value.status, owner, leaseSeconds as real))
    {
      ghost var row := AcquiredRow(state.attempts, call.Key(), owner, leaseSeconds, state.now);
      ValidRequestIsNotBlank(call.request);
      AcquiredRowMeans(state, call);
      ExecuteStep(state, id, call, reply);
      AcquiredStep(state.(attempts := state.attempts[call.Key() := row]), id, call, row);
      if reply.Refused? {
        Take(Protocol.Execute(id, call, reply));
        return Err(NotAcquired);
      }
      var request := call.request;
      var acquired := store.Acquire(request.job, "github", owner, request.repository, request.baseBranch, leaseSeconds, state.now);
      Take(Protocol.Execute(id, call, reply));
      r := if acquired.Err? || reply.Lost? then Err(NotAcquired) else Ok(acquired.value);
    }

    /** `execute` after its checks. */
    method ExecuteValid(call: Protocol.Call, env: Environment) returns (r: Result<Delivery, ExecutionError>)
      requires Valid() && Pc().Ready? && Protocol.Admitted(call) && call.owner == owner && call.leaseSeconds == leaseSeconds
      modifies this, store
      ensures Valid() && old(trace) <= trace && Pc().Ready?
      ensures r.Ok? ==> ReturnedHere(call.Key(), r.value)
      ensures Settles(old(state), call, env, r)
    {
      var acquired := Acquire(call, env.acquire.reply);
      if acquired.Err? || acquired.value.status == FailedAttempt {
        return Err(NotAcquired);
      }
      if acquired.value.status == Succeeded {
        var result := DurableResult(acquired.value);
        return if result.Some? then Ok(result.value) else Err(Incomplete);
      }
      if acquired.value.status == InProgress {
        r := Reconcile(call, env);
      } else {
        r := Start(call, env);
      }
    }

    /**
      `execute`: an invalid request touches nothing, a valid one is settled by the attempt that is acquired. A
      result is the durable result of the row at that moment, and the call was a run of the protocol.
     */
    method Execute(request: GitHub.Request, env: Environment) returns (r: Result<Delivery, ExecutionError>)
      requires Valid() && Pc().Ready?
      modifies this, store
      ensures Valid() && old(trace) <= trace && Pc().Ready?
      ensures r.Ok? ==> ReturnedHere(Protocol.KeyOf(request), r.value)
      ensures r == Err(Invalid) <==> !ValidRequest(request)
      ensures !ValidRequest(request) ==> state == old(state)
      ensures ValidRequest(request) ==>
                Settles(AfterOthers(old(state), env.acquire.gap, id), Protocol.Call(owner, leaseSeconds, request), env, r)
    {
      var valid := ValidateRequest(request);
      if valid.Err? {
        return Err(Invalid);
      }
      Interfere(env.acquire.gap);
      r := ExecuteValid(Protocol.Call(owner, leaseSeconds, request), env);
    }
  }
}
