/** What surrounds the calls of one executor: the steps of everybody else, and what becomes of each call. */
module DeliveryTurns {
  import opened Basics
  import opened Jobs
  import opened GitHub
  import opened DeliveryStore
  import opened DeliveryProtocol
  import opened DeliveryTheorems

  // ---- the steps of everybody else ----

  /** The state after the foreign steps of `gap`. */
  function AfterOthers(s: State, gap: seq<Step>, e: ExecutorId): State {
    if gap == [] then s
    else
      var s' := AfterOthers(s, gap[..|gap| - 1], e);
      if Foreign(gap[|gap| - 1], e) then Do(s', gap[|gap| - 1]) else s'
  }

  function Ticks(gap: seq<Step>): (t: Time)
    ensures t >= 0.0
  {
    if gap == [] then 0.0
    else
      var last := gap[|gap| - 1];
      Ticks(gap[..|gap| - 1]) + (if last.Tick? && last.dt > 0.0 then last.dt else 0.0)
  }

  /** A step that concerns neither the attempt `k` nor its repository. */
  predicate QuietStep(step: Step, k: DeliveryKey) {
    match step
    case Tick(_) => true
    case Execute(_, call, _) => call.Key() != k
    case Look(_, _) => true
    case Stop(_) => true
    case Outside(r, _) => r != k.repository
    case _ => false
  }

  function RowAt(s: State, k: DeliveryKey): Option<Attempt> {
    if k in s.attempts then Some(s.attempts[k]) else None
  }

  function RepoAt(s: State, k: DeliveryKey): Option<Repository> {
    if k.repository in s.repos then Some(s.repos[k.repository]) else None
  }

  /** The attempt and its repository are as they were, and no more than `dt` has passed. */
  predicate Kept(s: State, s': State, k: DeliveryKey, dt: Time) {
    RowAt(s', k) == RowAt(s, k) && RepoAt(s', k) == RepoAt(s, k) && s.made.Keys <= s'.made.Keys && s.now <= s'.now <= s.now + dt
  }

  lemma AcquiredTouches(s: State, e: ExecutorId, call: Call, row: Attempt)
    ensures var s' := Acquired(s, e, call, row);
            s'.attempts == s.attempts && s'.repos == s.repos && s'.made == s.made && s'.now == s.now
  {
  }

  lemma QuietStepKeeps(s: State, step: Step, k: DeliveryKey)
    requires QuietStep(step, k)
    ensures Kept(s, Do(s, step), k, if step.Tick? && step.dt > 0.0 then step.dt else 0.0)
  {
    match step
    case Execute(e, call, reply) =>
      var row := AcquiredRow(s.attempts, call.Key(), call.owner, call.leaseSeconds, s.now);
      AcquiredTouches(s.(attempts := s.attempts[call.Key() := row]), e, call, row);
    case _ =>
  }

  // ---- turns ----

  /** Before a call everybody else takes the steps of `gap`; then the call gets its reply. */
  datatype Turn = Turn(gap: seq<Step>, reply: Reply) {
    predicate Quiet(k: DeliveryKey) {
      forall i :: 0 <= i < |gap| ==> QuietStep(gap[i], k)
    }

    /** The call is answered, and nobody touches the attempt or its repository before it. */
    predicate Smooth(k: DeliveryKey) {
      reply.Served? && Quiet(k)
    }
  }

  lemma {:induction false} QuietGapKeeps(s: State, turn: Turn, k: DeliveryKey, e: ExecutorId)
    requires turn.Quiet(k)
    ensures Kept(s, AfterOthers(s, turn.gap, e), k, Ticks(turn.gap))
    decreases |turn.gap|
  {
    var gap := turn.gap;
    if gap != [] {
      var past, last := gap[..|gap| - 1], gap[|gap| - 1];
      QuietGapKeeps(s, Turn(past, turn.reply), k, e);
      QuietStepKeeps(AfterOthers(s, past, e), last, k);
    }
  }

  /** The turns of `deliver`, and the number and url that the provider gives to the pull request. */
  datatype DeliverTurns = DeliverTurns(
    readBase: Turn, checkBranch: Turn, blobs: nat -> Turn, commit: Turn, ref: Turn, pull: Turn,
    number: int, url: string)
  {
    /** The time before the first `n` uploads. */
    function BlobsTime(n: nat): (t: Time)
      ensures t >= 0.0
    {
      if n == 0 then 0.0 else BlobsTime(n - 1) + Ticks(blobs(n - 1).gap)
    }

    function PrepareTime(n: nat): (t: Time)
      ensures t >= 0.0
    {
      Ticks(readBase.gap) + Ticks(checkBranch.gap) + UploadTime(n)
    }

    function UploadTime(n: nat): (t: Time)
      ensures t >= 0.0
    {
      BlobsTime(n) + Ticks(commit.gap)
    }

    function Time(n: nat): (t: Time)
      ensures t >= 0.0
    {
      PrepareTime(n) + PublishTime()
    }

    function PublishTime(): (t: Time)
      ensures t >= 0.0
    {
      Ticks(ref.gap) + Ticks(pull.gap)
    }

    predicate BlobsSmooth(k: DeliveryKey, n: nat) {
      forall i :: 0 <= i < n ==> blobs(i).Smooth(k)
    }

    predicate Smooth(k: DeliveryKey, n: nat) {
      && readBase.Smooth(k) && checkBranch.Smooth(k) && BlobsSmooth(k, n) && commit.Smooth(k)
      && ref.Smooth(k) && pull.Smooth(k)
    }
  }

  /** Everything that `execute` does not decide itself. */
  datatype Environment = Environment(acquire: Turn, begin: Turn, deliver: DeliverTurns, record: Turn, look: Turn, confirm: Turn) {
    predicate DeliverySmooth(call: Call) {
      deliver.Smooth(call.Key(), |call.request.changes|) && deliver.url != "" && record.Smooth(call.Key())
    }

    /** The time from `begin` to `record_result`. */
    function DeliveryTime(call: Call): (t: Time)
      ensures t >= 0.0
    {
      deliver.Time(|call.request.changes|) + Ticks(record.gap)
    }

    /** What an undisturbed delivery makes: the requested files on top of the base branch. */
    function Expected(s: State, call: Call): Delivery
      requires Clear(s, call.Key(), deliver.number)
    {
      Delivery(deliver.number, deliver.url, DeliveredCommit(BaseOf(s, call.Key()), call.request))
    }
  }

  // ---- when a call succeeds ----

  /** The base branch exists, the remediation branch does not, and the number is unused. */
  predicate Clear(s: State, k: DeliveryKey, number: int) {
    && k.repository in s.repos && k.baseBranch in s.repos[k.repository].refs
    && BranchName(k.jobId) !in s.repos[k.repository].refs && !NumberTaken(s.repos[k.repository], number)
  }

  function BaseOf(s: State, k: DeliveryKey): Commit
    requires k.repository in s.repos && k.baseBranch in s.repos[k.repository].refs
  {
    s.repos[k.repository].refs[k.baseBranch]
  }

  /** What the lookup shows for `k`, if it can look and finds anything. */
  function FoundAt(s: State, k: DeliveryKey): Option<Delivery> {
    if k.repository in s.repos && Findable(k.repository, BranchName(k.jobId), k.baseBranch)
    then Found(s.repos[k.repository], BranchName(k.jobId), k.baseBranch) else None
  }

  predicate FindsIn(s: State, k: DeliveryKey) {
    FoundAt(s, k).Some? && FoundAt(s, k).value.url != ""
  }

  /** Nobody holds the attempt: there is none, or it has this status and its lease ran out. */
  predicate Free(s: State, k: DeliveryKey, status: AttemptStatus) {
    if k !in s.attempts then status == Pending
    else
      && status in {Pending, InProgress} && s.attempts[k].status == status
      && (s.attempts[k].leaseUntil.None? || s.attempts[k].leaseUntil.value < s.now)
  }

  /** An unresolved attempt under the live lease of another owner. */
  predicate HeldByAnother(s: State, call: Call) {
    var k := call.Key();
    && k in s.attempts && s.attempts[k].status in {Pending, InProgress} && s.attempts[k].owner != call.owner
    && s.attempts[k].leaseUntil.Some? && s.now <= s.attempts[k].leaseUntil.value
  }

  /** `k` is in this status, owned, with a lease of at least `dt`. */
  predicate Held(s: State, k: DeliveryKey, status: AttemptStatus, owner: Owner, dt: Time) {
    && k in s.attempts && s.attempts[k].status == status && s.attempts[k].owner == owner
    && s.attempts[k].leaseUntil.Some? && s.now + dt <= s.attempts[k].leaseUntil.value
  }

  /** Acquired in `s`, an attempt that is delivered without any disturbance within its leases. */
  predicate DeliversIn(s: State, call: Call, env: Environment) {
    && Free(s, call.Key(), Pending) && Clear(s, call.Key(), env.deliver.number)
    && env.begin.Smooth(call.Key()) && env.DeliverySmooth(call)
    && Ticks(env.begin.gap) <= call.leaseSeconds as real && env.DeliveryTime(call) <= call.leaseSeconds as real
  }

  /** Acquired in `s`, an abandoned attempt whose delivery is found and recorded without disturbance. */
  predicate RecoversIn(s: State, call: Call, env: Environment) {
    && Free(s, call.Key(), InProgress) && FindsIn(s, call.Key())
    && env.look.Smooth(call.Key()) && env.confirm.Smooth(call.Key())
    && Ticks(env.look.gap) + Ticks(env.confirm.gap) <= call.leaseSeconds as real
  }
}
