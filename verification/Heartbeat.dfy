/** `_LeaseHeartbeat`: renewing a lease while a stage handler runs for an unbounded time. */
module Heartbeat {
  import opened Basics
  import opened Jobs
  import opened JobTable
  import opened JobQueue
  import Protocol = WorkerProtocol
  import opened LiveLeases

  /** max(1.0, min(30.0, lease_seconds / 3)) */
  function Interval(leaseSeconds: int): Time {
    var third := leaseSeconds as real / 3.0;
    var capped := if third < 30.0 then third else 30.0;
    if capped < 1.0 then 1.0 else capped
  }

  /** A renewal that lands at `t`, at most `d` after the tick that follows a renewal at `last`. */
  predicate LandsWithin(leaseSeconds: int, d: Time, last: Time, t: Time) {
    last + Interval(leaseSeconds) <= t <= last + Interval(leaseSeconds) + d
  }

  /**
    The tick comes before the lease ends exactly for leases of at least two seconds; delays of up to
    `d` after each tick are harmless exactly if `d` fits into the rest of the lease.
   */
  lemma IntervalFitsLease(leaseSeconds: int, d: Time)
    requires LeaseInRange(leaseSeconds) && 0.0 <= d
    ensures Interval(leaseSeconds) == if leaseSeconds <= 3 then 1.0 else if leaseSeconds < 90 then leaseSeconds as real / 3.0 else 30.0
    ensures 2 <= leaseSeconds <==> Interval(leaseSeconds) < leaseSeconds as real
    ensures d <= leaseSeconds as real - Interval(leaseSeconds) <==>
            forall last, t :: LandsWithin(leaseSeconds, d, last, t) ==> t <= last + leaseSeconds as real
  {
    if d > leaseSeconds as real - Interval(leaseSeconds) {
      assert LandsWithin(leaseSeconds, d, 0.0, Interval(leaseSeconds) + d);
    }
  }

  class LeaseHeartbeat {
    const queue: PostgresJobQueue
    const jobId: JobId
    const workerId: WorkerId
    const leaseSeconds: int
    var error: Option<QueueError>
    var clock: Time

    constructor (queue: PostgresJobQueue, jobId: JobId, workerId: WorkerId, leaseSeconds: int, start: Time)
      ensures this.queue == queue && this.jobId == jobId && this.workerId == workerId
      ensures this.leaseSeconds == leaseSeconds && error == None && clock == start
    {
      this.queue := queue;
      this.jobId := jobId;
      this.workerId := workerId;
      this.leaseSeconds := leaseSeconds;
      error := None;
      clock := start;
    }

    /**
      `_run`: one renewal per element of `late`, which says how long after its tick the renewal lands;
      the end of `late` is the stop event. The heartbeat reports no error exactly if every renewal
      lands within the lease left by the one before; nothing but the lease of this row changes.
     */
    method Run(late: seq<Time>)
      requires error == None && !Blank(jobId) && !Blank(workerId) && LeaseInRange(leaseSeconds)
      requires forall k :: 0 <= k < |late| ==> 0.0 <= late[k]
      modifies this, queue
      ensures error == None <==>
              || late == []
              || (&& Held(old(queue.table))
                  && forall k :: 0 <= k < |late| ==>
                    InTime(late[k], if k == 0 then old(queue.table)[jobId].leaseUntil.value - old(clock) else leaseSeconds as real))
      ensures error == None && late != [] ==> Held(queue.table) && queue.table[jobId].leaseUntil == Some(clock + leaseSeconds as real)
      ensures OnlyLeaseChanged(old(queue.table), queue.table)
    {
      var k := 0;
      while k < |late|
        invariant 0 <= k <= |late| && error == None
        invariant OnlyLeaseChanged(old(queue.table), queue.table)
        invariant k == 0 ==> clock == old(clock) && queue.table == old(queue.table)
        invariant k > 0 ==> Held(old(queue.table)) && Held(queue.table) && queue.table[jobId].leaseUntil == Some(clock + leaseSeconds as real)
        invariant forall i :: 0 <= i < k ==>
                    InTime(late[i], if i == 0 then old(queue.table)[jobId].leaseUntil.value - old(clock) else leaseSeconds as real)
      {
        clock := clock + Interval(leaseSeconds) + late[k];
        var r := queue.RenewLease(jobId, workerId, leaseSeconds, clock);
        if r.Err? {
          error := Some(r.error);
          return;
        }
        k := k + 1;
      }
    }

    /** The row is this worker's, whether or not its lease is still live. */
    predicate Held(t: Table) {
      jobId in t && t[jobId].status == Running && t[jobId].workerId == Some(workerId) && t[jobId].leaseUntil.Some?
    }

    predicate OnlyLeaseChanged(before: Table, after: Table) {
      after == before ||
      (jobId in before && jobId in after && after == before[jobId := before[jobId].(leaseUntil := after[jobId].leaseUntil)])
    }

    /** The renewal lands while at least `left` seconds of lease were left at the renewal before. */
    predicate InTime(late: Time, left: Time) {
      Interval(leaseSeconds) + late <= left
    }
  }

  // ---- the same promise against every interleaving ----

  /** When `w` last renewed `j` on the way from `s` through `steps`; the start counts as a renewal. */
  ghost function LastBeat(s: Protocol.State, steps: seq<Protocol.Step>, w: WorkerId, j: JobId): Time {
    if steps == [] then s.now
    else
      var past, last := steps[..|steps| - 1], steps[|steps| - 1];
      if last.RenewLease? && last.w == w && last.job == j then Protocol.Run(s, past).now
      else LastBeat(s, past, w, j)
  }

  /** All steps are foreign to the main thread of `w`, which renews `j` for `lease` seconds at most `gap` apart. */
  ghost predicate Paced(s: Protocol.State, steps: seq<Protocol.Step>, w: WorkerId, j: JobId, lease: int, gap: Time) {
    && Protocol.Run(s, steps).now <= LastBeat(s, steps, w, j) + gap
    && (steps != [] ==>
          var past, last := steps[..|steps| - 1], steps[|steps| - 1];
          && Paced(s, past, w, j, lease, gap)
          && Foreign(last, w)
          && (last.RenewLease? && last.w == w && last.job == j ==> last.lease == lease))
  }

  /**
    A worker that renews at most `gap` apart, with `gap` no longer than the lease it asks for, owns its
    row and its payload at every moment of any interleaving, however long the handler runs.
   */
  lemma {:induction false} HeartbeatKeepsOwnership(
    s: Protocol.State, steps: seq<Protocol.Step>, w: WorkerId, j: JobId, lease: int, gap: Time)
    requires !Blank(w) && LeaseInRange(lease) && gap <= lease as real
    requires HeldUntil(s.table, j, w, s.now + gap)
    requires Paced(s, steps, w, j, lease, gap)
    ensures var s' := Protocol.Run(s, steps);
            && HeldUntil(s'.table, j, w, LastBeat(s, steps, w, j) + gap)
            && OwnedIn(s'.table, j, w, s'.now)
            && s'.table[j].payload == s.table[j].payload
  {
    if steps != [] {
      var past, last := steps[..|steps| - 1], steps[|steps| - 1];
      HeartbeatKeepsOwnership(s, past, w, j, lease, gap);
      var mid := Protocol.Run(s, past);
      if !(last.RenewLease? && last.w == w && last.job == j) {
        LiveLeaseIsUntouchable(mid, last, w, j, LastBeat(s, past, w, j) + gap);
      }
    }
  }
}
