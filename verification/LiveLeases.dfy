/** What everybody else may do to a worker whose lease is live: nothing. */
module LiveLeases {
  import opened Basics
  import opened Jobs
  import opened JobTable
  import Protocol = WorkerProtocol

  /** A step that is not a statement of the main thread of `w`. */
  predicate Foreign(step: Protocol.Step, w: WorkerId) {
    match step
    case ClaimJob(v, _, _, _) => v != w
    case NextStage(v) => v != w
    case HandlerReturns(v, _) => v != w
    case SaveStage(v, _) => v != w
    case Seal(v, _) => v != w
    case Finish(v, _) => v != w
    case RaiseIn(v) => v != w
    case Requeue(v) => v != w
    case GiveUp(v) => v != w
    case _ => true
  }

  lemma ForeignKeepsPc(s: Protocol.State, step: Protocol.Step, w: WorkerId)
    requires Foreign(step, w)
    ensures Protocol.Do(s, step).PcOf(w) == s.PcOf(w)
  {
  }

  /** The row belongs to `w` with at least `until` on its lease. */
  predicate HeldUntil(t: Table, j: JobId, w: WorkerId, until: Time) {
    && j in t && t[j].status == Running && t[j].workerId == Some(w)
    && t[j].leaseUntil.Some? && until <= t[j].leaseUntil.value
  }

  /** Nobody else can touch a row whose lease is live. */
  lemma LiveLeaseIsUntouchable(s: Protocol.State, step: Protocol.Step, w: WorkerId, j: JobId, until: Time)
    requires HeldUntil(s.table, j, w, until) && s.now <= until && Foreign(step, w)
    requires !(step.RenewLease? && step.w == w && step.job == j)
    ensures j in Protocol.Do(s, step).table && Protocol.Do(s, step).table[j] == s.table[j]
  {
    match step
    case ClaimJob(v, lease, locked, lost) =>
    case _ =>
  }

  // ---- a stretch of steps by everybody else ----

  /** The state after the foreign steps of `gap`. */
  function AfterOthers(s: Protocol.State, gap: seq<Protocol.Step>, w: WorkerId): Protocol.State {
    if gap == [] then s
    else
      var s' := AfterOthers(s, gap[..|gap| - 1], w);
      if Foreign(gap[|gap| - 1], w) then Protocol.Do(s', gap[|gap| - 1]) else s'
  }

  /** How much time passes. */
  function Ticks(gap: seq<Protocol.Step>): (t: Time)
    ensures t >= 0.0
  {
    if gap == [] then 0.0
    else
      var last := gap[|gap| - 1];
      Ticks(gap[..|gap| - 1]) + (if last.Tick? && last.dt > 0.0 then last.dt else 0.0)
  }

  /** The heartbeat of `w` asks for the lease of its `run_once` only. */
  predicate Loyal(gap: seq<Protocol.Step>, w: WorkerId, lease: int) {
    forall i :: 0 <= i < |gap| && gap[i].RenewLease? && gap[i].w == w ==> gap[i].lease == lease
  }

  /** `w` holds `j` until at least `until`, which is `dt` away or more, and no further than a new lease reaches. */
  predicate OnTime(s: Protocol.State, w: WorkerId, j: JobId, until: Time, lease: int, dt: Time) {
    HeldUntil(s.table, j, w, until) && s.now + dt <= until <= s.now + lease as real
  }

  /** `w` still holds `j`, and no more than `dt` has passed. */
  predicate StillHeld(s: Protocol.State, s': Protocol.State, w: WorkerId, j: JobId, until: Time, dt: Time) {
    HeldUntil(s'.table, j, w, until) && s.now <= s'.now <= s.now + dt
  }

  lemma ClockTicks(s: Protocol.State, step: Protocol.Step)
    ensures Protocol.Do(s, step).now == s.now + (if step.Tick? && step.dt > 0.0 then step.dt else 0.0)
  {
  }

  lemma OwnRenewalKeeps(s: Protocol.State, w: WorkerId, j: JobId, lease: int, until: Time)
    requires HeldUntil(s.table, j, w, until) && until <= s.now + lease as real
    ensures HeldUntil(Protocol.Do(s, Protocol.RenewLease(w, j, lease)).table, j, w, until)
  {
  }

  lemma {:induction false} GapKeepsHold(s: Protocol.State, gap: seq<Protocol.Step>, w: WorkerId, j: JobId, until: Time, lease: int)
    requires Loyal(gap, w, lease) && OnTime(s, w, j, until, lease, Ticks(gap))
    ensures StillHeld(s, AfterOthers(s, gap, w), w, j, until, Ticks(gap))
  {
    if gap != [] {
      var past, last := gap[..|gap| - 1], gap[|gap| - 1];
      var mid := AfterOthers(s, past, w);
      GapKeepsHold(s, past, w, j, until, lease);
      if Foreign(last, w) {
        ClockTicks(mid, last);
        if last.RenewLease? && last.w == w && last.job == j {
          OwnRenewalKeeps(mid, w, j, last.lease, until);
        } else {
          LiveLeaseIsUntouchable(mid, last, w, j, until);
        }
      }
    }
  }
}
