/**
  Any number of delivery executors, under any owner names, against one attempt store and one provider.
  As with the workers, every choice of the environment is an argument of a step.
 */
module DeliveryProtocol {
  import opened Basics
  import opened Jobs
  import opened GitHub
  import opened DeliveryStore

  type ExecutorId = string

  function KeyOf(request: Request): DeliveryKey {
    BuildDeliveryKey(request.job, "github", request.repository, request.baseBranch)
  }

  /** One call of `execute`. */
  datatype Call = Call(owner: Owner, leaseSeconds: int, request: Request) {
    function Key(): DeliveryKey {
      KeyOf(request)
    }
  }

  /** A remediation branch of a repository. */
  datatype Site = Site(repository: string, branch: string)

  function SiteOf(k: DeliveryKey): Site {
    Site(k.repository, BranchName(k.jobId))
  }

  /** Where `deliver` stands between two requests. */
  datatype Progress =
    | ReadBase
    | CheckBranch(base: Commit)
    | PostBlobs(base: Commit, entries: seq<FileChange>)
    | PostRef(commit: Commit)
    | PostPull(commit: Commit)

  datatype Pc =
    | Ready
    | Starting(call: Call)                         // holds a pending attempt, `begin` comes next
    | Delivering(call: Call, at: Progress)         // inside `deliver`
    | Recording(call: Call, delivery: Delivery)    // `deliver` returned
    | Reconciling(call: Call)                      // holds an attempt that somebody began
    | Confirming(call: Call, delivery: Delivery)   // the provider knows a delivery

  /** Who made a remediation branch, for which request and with which commit, and the pull request from it. */
  datatype Creation = Creation(key: DeliveryKey, request: Request, commit: Commit, pull: Option<(int, string)>)

  datatype Invocation = Invocation(key: DeliveryKey, executor: ExecutorId, request: Request)

  datatype State = State(
    now: Time,
    attempts: Attempts,
    repos: Repositories,
    executors: map<ExecutorId, Pc>,
    made: map<Site, Creation>,                  // history: what deliveries created remotely
    invoked: seq<Invocation>,                   // history: calls of `client.deliver`
    returned: seq<(DeliveryKey, Delivery)>)     // history: results that `execute` returned
  {
    function PcOf(e: ExecutorId): Pc {
      if e in executors then executors[e] else Ready
    }
  }

  /** Nobody has delivered anything, and the remediation branches are unused. */
  predicate Clean(repos: Repositories) {
    forall r :: r in repos ==>
      && (forall b :: b in repos[r].refs ==> !IsSentinelBranch(b))
      && (forall i :: 0 <= i < |repos[r].pulls| ==> !IsSentinelBranch(repos[r].pulls[i].head))
  }

  function Init(repos: Repositories): State {
    State(0.0, map[], repos, map[], map[], [], [])
  }

  /** A request is answered; it is refused; or it is carried out but the answer is lost. */
  datatype Reply = Served | Refused | Lost

  datatype Step =
    | Tick(dt: Time)
    | Execute(e: ExecutorId, call: Call, reply: Reply)
    | Begin(e: ExecutorId, reply: Reply)
    | Deliver(e: ExecutorId, reply: Reply, number: int, url: string)
    | Record(e: ExecutorId, reply: Reply)
    | Look(e: ExecutorId, reply: Reply)
    | Confirm(e: ExecutorId, reply: Reply)
    | Stop(e: ExecutorId)
    | Outside(repository: string, after: Repository)

  function Goto(s: State, e: ExecutorId, pc: Pc): State {
    s.(executors := s.executors[e := pc])
  }

  /** `execute` ends by returning the durable result of a row, if that is complete. */
  function Return(s: State, e: ExecutorId, k: DeliveryKey, a: Attempt): State {
    var r := DurableResult(a);
    Goto(if r.Some? then s.(returned := s.returned + [(k, r.value)]) else s, e, Ready)
  }

  /** A call that passes `validate_request` and the checks on owner and lease. */
  predicate Admitted(call: Call) {
    ValidRequest(call.request) && !Blank(call.owner) && LeaseInRange(call.leaseSeconds)
  }

  /** `execute` after the store answered with `row`. */
  function Acquired(s: State, e: ExecutorId, call: Call, row: Attempt): State {
    if row.Unresolved() && row.owner != call.owner then Goto(s, e, Ready)
    else match row.status
      case Succeeded => Return(s, e, call.Key(), row)
      case InProgress => Goto(s, e, Reconciling(call))
      case Pending => Goto(s, e, Starting(call))
      case FailedAttempt => Goto(s, e, Ready)
  }

  function DoExecute(s: State, e: ExecutorId, call: Call, reply: Reply): State {
    if !s.PcOf(e).Ready? || !Admitted(call) || reply.Refused? then s
    else
      var row := AcquiredRow(s.attempts, call.Key(), call.owner, call.leaseSeconds, s.now);
      var s' := s.(attempts := s.attempts[call.Key() := row]);
      if reply.Lost? then Goto(s', e, Ready) else Acquired(s', e, call, row)
  }

  function DoBegin(s: State, e: ExecutorId, reply: Reply): State {
    match s.PcOf(e)
    case Starting(call) =>
      var k := call.Key();
      if reply.Refused? || !MayAct(s.attempts, k, Pending, call.owner, s.now) then Goto(s, e, Ready)
      else
        var s' := s.(attempts := s.attempts[k := BeginRow(s.attempts[k], call.leaseSeconds, s.now)]);
        if reply.Lost? then Goto(s', e, Ready)
        else Goto(s'.(invoked := s'.invoked + [Invocation(k, e, call.request)]), e, Delivering(call, ReadBase))
    case _ => s
  }

  /** A request of `deliver` that changes nothing remotely; None is an exception. */
  function Advance(repo: Repository, request: Request, at: Progress): Option<Progress> {
    match at
    case ReadBase =>
      if request.baseBranch in repo.refs then Some(CheckBranch(repo.refs[request.baseBranch])) else None
    case CheckBranch(base) =>
      if BranchName(request.job.jobId) in repo.refs then None else Some(PostBlobs(base, []))
    case PostBlobs(base, entries) =>
      if |entries| < |request.changes| then Some(PostBlobs(base, entries + [request.changes[|entries|]]))
      else Some(PostRef(Commit(Overlay(base.files, entries), [base], request.title)))
    case _ => None
  }

  function DoPostRef(s: State, e: ExecutorId, call: Call, commit: Commit, reply: Reply): State {
    var k := call.Key();
    var site := SiteOf(k);
    if site.repository !in s.repos then Goto(s, e, Ready)
    else
      var repo := CreateRef(s.repos[site.repository], site.branch, commit);
      if repo.None? then Goto(s, e, Ready)
      else
        Goto(s.(repos := s.repos[site.repository := repo.value], made := s.made[site := Creation(k, call.request, commit, None)]),
             e, if reply.Lost? then Ready else Delivering(call, PostPull(commit)))
  }

  function DoPostPull(s: State, e: ExecutorId, call: Call, commit: Commit, reply: Reply, number: int, url: string): State {
    var k := call.Key();
    var site := SiteOf(k);
    if site.repository !in s.repos || site !in s.made then Goto(s, e, Ready)
    else
      var repo := CreatePull(s.repos[site.repository], number, url, site.branch, k.baseBranch,
                             call.request.title, call.request.body);
      if repo.None? then Goto(s, e, Ready)
      else
        Goto(s.(repos := s.repos[site.repository := repo.value],
             made := s.made[site := s.made[site].(pull := Some((number, url)))]),
             e, if reply.Lost? then Ready else Recording(call, Delivery(number, url, commit)))
  }

  /** A read or an upload: nothing that a ref or a pull request shows. */
  function DoAdvance(s: State, e: ExecutorId, call: Call, at: Progress, reply: Reply): State {
    if call.request.repository !in s.repos || !reply.Served? then Goto(s, e, Ready)
    else
      var next := Advance(s.repos[call.request.repository], call.request, at);
      Goto(s, e, if next.Some? then Delivering(call, next.value) else Ready)
  }

  function DoDeliver(s: State, e: ExecutorId, reply: Reply, number: int, url: string): State {
    var pc := s.PcOf(e);
    if !pc.Delivering? then s
    else if reply.Refused? then Goto(s, e, Ready)
    else if pc.at.PostRef? then DoPostRef(s, e, pc.call, pc.at.commit, reply)
    else if pc.at.PostPull? then DoPostPull(s, e, pc.call, pc.at.commit, reply, number, url)
    else DoAdvance(s, e, pc.call, pc.at, reply)
  }

  /** `record_result` or `record_reconciled_result`, then `_result`. */
  function DoSucceed(s: State, e: ExecutorId, call: Call, d: Delivery, reply: Reply): State {
    var k := call.Key();
    if reply.Refused? || !MayAct(s.attempts, k, InProgress, call.owner, s.now) then Goto(s, e, Ready)
    else
      var row := SuccessRow(s.attempts[k], d);
      var s' := s.(attempts := s.attempts[k := row]);
      if reply.Lost? then Goto(s', e, Ready) else Return(s', e, k, row)
  }

  function DoRecord(s: State, e: ExecutorId, reply: Reply): State {
    match s.PcOf(e)
    case Recording(call, d) => DoSucceed(s, e, call, d, reply)
    case _ => s
  }

  /** `reconcile`: it only reads, and without a result the call ends as still ambiguous. */
  function DoLook(s: State, e: ExecutorId, reply: Reply): State {
    match s.PcOf(e)
    case Reconciling(call) =>
      var site := SiteOf(call.Key());
      if !reply.Served? || site.repository !in s.repos
         || !Findable(site.repository, site.branch, call.request.baseBranch) then Goto(s, e, Ready)
      else
        var found := Found(s.repos[site.repository], site.branch, call.request.baseBranch);
        Goto(s, e, if found.Some? then Confirming(call, found.value) else Ready)
    case _ => s
  }

  function DoConfirm(s: State, e: ExecutorId, reply: Reply): State {
    match s.PcOf(e)
    case Confirming(call, d) => DoSucceed(s, e, call, d, reply)
    case _ => s
  }

  function DoOutside(s: State, r: string, after: Repository): State {
    if r in s.repos && OutsideChange(s.repos[r], after) then s.(repos := s.repos[r := after]) else s
  }

  function Do(s: State, step: Step): State {
    match step
    case Tick(dt) => if dt < 0.0 then s else s.(now := s.now + dt)
    case Execute(e, call, reply) => DoExecute(s, e, call, reply)
    case Begin(e, reply) => DoBegin(s, e, reply)
    case Deliver(e, reply, number, url) => DoDeliver(s, e, reply, number, url)
    case Record(e, reply) => DoRecord(s, e, reply)
    case Look(e, reply) => DoLook(s, e, reply)
    case Confirm(e, reply) => DoConfirm(s, e, reply)
    case Stop(e) => Goto(s, e, Ready)
    case Outside(r, after) => DoOutside(s, r, after)
  }

  function Run(s: State, steps: seq<Step>): State {
    if steps == [] then s else Do(Run(s, steps[..|steps| - 1]), steps[|steps| - 1])
  }
}
