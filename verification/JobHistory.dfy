/** What a history of table events says about each job, and the discipline that histories obey. */
module JobHistory {
  import opened Basics
  import opened Jobs
  import opened JobTable
  import opened WorkerProtocol

  datatype Lease = Lease(worker: WorkerId, until: Time)

  /** Who holds the job after `e`, given who held it before. */
  function HolderAfter(before: Option<Lease>, e: Event): Option<Lease> {
    match e
    case Claim(_, _, w, until, _, _) => Some(Lease(w, until))
    case Renew(_, _, w, until) => Some(Lease(w, until))
    case Complete(_, _, _, _) => None
    case Fail(_, _, _, _) => None
    case _ => before
  }

  /** The worker of the latest claim of `j` and its lease as last renewed, unless the job was given back. */
  function Holder(h: History, j: JobId): Option<Lease> {
    if h == [] then None
    else
      var before := Holder(h[..|h| - 1], j);
      var e := h[|h| - 1];
      if e.job == j then HolderAfter(before, e) else before
  }

  function ContentAfter(before: Option<Job>, e: Event): Option<Job> {
    if e.Renew? then before else Some(e.payload)
  }

  /** The durable payload of `j`. */
  function Content(h: History, j: JobId): Option<Job> {
    if h == [] then None
    else
      var before := Content(h[..|h| - 1], j);
      var e := h[|h| - 1];
      if e.job == j then ContentAfter(before, e) else before
  }

  /** The workflow stage that is durable for `j`. */
  function Stage(h: History, j: JobId): Status {
    match Content(h, j)
    case None => AwaitingApproval
    case Some(payload) => payload.status
  }

  function AvailableAfter(before: Option<Time>, e: Event): Option<Time> {
    match e
    case Enqueue(_, at, _) => Some(at)
    case Release(_, at, _) => Some(at)
    case Fail(_, at, _, _) => Some(at + 30.0)
    case _ => before
  }

  /** From when on `j` may be claimed: at once when it is created or released, half a minute after a failure. */
  function Available(h: History, j: JobId): Option<Time> {
    if h == [] then None
    else
      var before := Available(h[..|h| - 1], j);
      var e := h[|h| - 1];
      if e.job == j then AvailableAfter(before, e) else before
  }

  datatype Kind = Creations | Holds | Claims | Reclaims | Completions | Failures | Releases

  predicate Is(e: Event, k: Kind) {
    match k
    case Creations => e.Enqueue?
    case Holds => e.Enqueue? && e.payload.status == AwaitingApproval
    case Claims => e.Claim?
    case Reclaims => e.Claim? && e.reclaimed
    case Completions => e.Complete?
    case Failures => e.Fail?
    case Releases => e.Release?
  }

  /** How many events of kind `k` job `j` has had. */
  function Tally(h: History, j: JobId, k: Kind): nat {
    if h == [] then 0
    else
      var e := h[|h| - 1];
      Tally(h[..|h| - 1], j, k) + (if e.job == j && Is(e, k) then 1 else 0)
  }

  /** What may happen next to a job with history `h`. */
  predicate Admissible(h: History, e: Event) {
    var holder := Holder(h, e.job);
    match e
    case Enqueue(j, _, payload) => Tally(h, j, Creations) == 0 && payload.status in {Queued, AwaitingApproval}
    case Claim(j, at, _, until, reclaimed, payload) =>
      && Content(h, j) == Some(payload) && 0 <= Rank(payload.status)
      && Available(h, j).Some? && Available(h, j).value <= at
      && (reclaimed <==> holder.Some?)
      && (reclaimed ==> holder.value.until < at)
      && at < until <= at + MAX_LEASE
      && Tally(h, j, Creations) == 1
      && Tally(h, j, Completions) == 0
      && Tally(h, j, Holds) == Tally(h, j, Releases)
    case Renew(_, at, w, until) => HeldBy(holder, w, at) && at < until <= at + MAX_LEASE
    case Checkpoint(j, at, w, payload) => HeldBy(holder, w, at) && Rank(payload.status) == Rank(Stage(h, j)) + 1
    case Complete(j, at, w, payload) =>
      HeldBy(holder, w, at) && Content(h, j) == Some(payload) && payload.status == DryRunComplete
    case Fail(_, at, w, payload) => HeldBy(holder, w, at) && payload.status == Queued
    case Release(j, _, payload) =>
      && Tally(h, j, Holds) == 1 && Tally(h, j, Releases) == 0 && Tally(h, j, Claims) == 0
      && payload.status == Queued
  }

  predicate HeldBy(holder: Option<Lease>, w: WorkerId, at: Time) {
    holder.Some? && holder.value.worker == w && at <= holder.value.until
  }

  /** When the latest event happened, if there was one. */
  predicate OverBy(h: History, now: Time) {
    h == [] || h[|h| - 1].at <= now
  }

  /** Every event was admissible when it happened, and time did not run backwards. */
  predicate Disciplined(h: History) {
    h == [] ||
    (var past, e := h[..|h| - 1], h[|h| - 1];
     Disciplined(past) && Admissible(past, e) && OverBy(past, e.at))
  }

  /** The readings of a history after one more event. */
  lemma Append(h: History, e: Event, j: JobId)
    ensures Holder(h + [e], j) == if e.job == j then HolderAfter(Holder(h, j), e) else Holder(h, j)
    ensures Content(h + [e], j) == if e.job == j then ContentAfter(Content(h, j), e) else Content(h, j)
    ensures Available(h + [e], j) == if e.job == j then AvailableAfter(Available(h, j), e) else Available(h, j)
    ensures forall k :: Tally(h + [e], j, k) == Tally(h, j, k) + (if e.job == j && Is(e, k) then 1 else 0)
  {
    assert (h + [e])[..|h + [e]| - 1] == h;
  }

  lemma DisciplinedAppend(h: History, e: Event)
    requires Disciplined(h) && Admissible(h, e) && OverBy(h, e.at)
    ensures Disciplined(h + [e])
  {
    assert (h + [e])[..|h + [e]| - 1] == h;
  }

  /** The discipline read off at any position. */
  lemma {:induction false} DisciplinedAt(h: History, i: nat)
    requires Disciplined(h) && i < |h|
    ensures Disciplined(h[..i]) && Admissible(h[..i], h[i])
    ensures forall k :: 0 <= k < i ==> h[k].at <= h[i].at
  {
    var past := h[..|h| - 1];
    if i < |h| - 1 {
      DisciplinedAt(past, i);
      assert past[..i] == h[..i];
    } else if i > 0 {
      DisciplinedAt(past, i - 1);
    }
  }
}
