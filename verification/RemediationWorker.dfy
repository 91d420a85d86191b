/**
  `RemediationWorker.run_once` as a program on the queue. Between any two of its statements all other
  actors, and its own lease heartbeat, may run; audit writes, handlers and heartbeats may raise, and any
  statement may fail before it takes effect or lose its reply afterwards. All these choices are given as
  an argument, the environment. The program is shown to be a run of the protocol, with its local variables
  in the protocol's worker state, and its result is tied to the environment.
 */
module RemediationWorker {
  import opened Basics
  import opened Jobs
  import opened JobTable
  import opened JobQueue
  import Protocol = WorkerProtocol
  import opened JobHistory
  import opened WorkerInvariant
  import opened WorkerPreservation
  import opened LiveLeases

  datatype HandlerOutcome = Returned(job: Job) | RaisedError

  // ---- the environment ----

  /** What becomes of a call: it is carried out and answered, not carried out, or carried out without an answer. */
  datatype Fate = Served | Refused | Lost

  /** Before a call everybody else takes the steps of `gap`; an audit write or a handler raises unless it is served. */
  datatype Turn = Turn(gap: seq<Protocol.Step>, fate: Fate)

  /** The turns of one stage: its first audit event, its handler, its checkpoint and its second audit event. */
  datatype StageTurns = StageTurns(started: Turn, handled: Turn, saved: Turn, noted: Turn) {
    predicate AllServed() {
      started.fate.Served? && handled.fate.Served? && saved.fate.Served? && noted.fate.Served?
    }

    function Time(): (t: Time)
      ensures t >= 0.0
    {
      Ticks(started.gap) + Ticks(handled.gap) + Ticks(saved.gap) + Ticks(noted.gap)
    }

    predicate AllLoyal(w: WorkerId, lease: int) {
      Loyal(started.gap, w, lease) && Loyal(handled.gap, w, lease) && Loyal(saved.gap, w, lease) && Loyal(noted.gap, w, lease)
    }

    /** Nothing goes wrong in this stage as long as the lease holds. */
    ghost predicate Smooth(w: WorkerId, lease: int, handler: Handler) {
      AllServed() && AllLoyal(w, lease) && WellBehaved(handler)
    }
  }

  /** Everything that `run_once` does not decide itself; `locked` are the rows that other transactions lock. */
  datatype Environment = Environment(
    claim: Turn, locked: set<JobId>, claimed: Turn,
    prepare: StageTurns, generate: StageTurns, await: StageTurns, verify: StageTurns,
    seal: Turn, completed: Turn, finish: Turn,
    reported: Turn, fail: Turn)
  {
    ghost predicate StagesSmooth(w: WorkerId, lease: int, handler: Handler) {
      && prepare.Smooth(w, lease, handler) && generate.Smooth(w, lease, handler)
      && await.Smooth(w, lease, handler) && verify.Smooth(w, lease, handler)
    }

    predicate ClosingSmooth(w: WorkerId, lease: int) {
      && seal.fate.Served? && completed.fate.Served? && finish.fate.Served?
      && Loyal(seal.gap, w, lease) && Loyal(completed.gap, w, lease) && Loyal(finish.gap, w, lease)
    }

    /** Nothing goes wrong after the claim as long as the lease holds. */
    ghost predicate Smooth(w: WorkerId, lease: int, handler: Handler) {
      claimed.fate.Served? && Loyal(claimed.gap, w, lease) && StagesSmooth(w, lease, handler) && ClosingSmooth(w, lease)
    }

    /** The time that passes after the claim, at most. */
    function Time(): (t: Time)
      ensures t >= 0.0
    {
      Ticks(claimed.gap) + StagesTime() + ClosingTime()
    }

    function ClosingTime(): (t: Time)
      ensures t >= 0.0
    {
      Ticks(seal.gap) + Ticks(completed.gap) + Ticks(finish.gap)
    }

    function StagesTime(): (t: Time)
      ensures t >= 0.0
    {
      prepare.Time() + generate.Time() + await.Time() + verify.Time()
    }
  }

  /** The stage handlers, which see from the status which stage they are. */
  type Handler = Job -> HandlerOutcome

  /** The handlers return, and change neither the identity nor the status of the job. */
  ghost predicate WellBehaved(handler: Handler) {
    forall staged :: && handler(staged).Returned?
                     && handler(staged).job.SameIdentity(staged) && handler(staged).job.status == staged.status
  }

  /** The stage up to `target`: its handler gets the job in the new status, awaiting verification has no handler. */
  function Staged(job: Job, handler: Handler, target: Status): Job {
    var staged := job.(status := target);
    if Protocol.StageAfter(job.status) != Some(target) then job
    else if target == VerificationPending || handler(staged).RaisedError? then staged
    else handler(staged).job
  }

  /** The four stages in order, from whichever status the job is in. */
  function Resumed(job: Job, handler: Handler): Job {
    Staged(Staged(Staged(Staged(job, handler, ReadyForRemediation), handler, PatchGenerated),
                  handler, VerificationPending), handler, Verified)
  }

  /** What `run_once` returns or raises. */
  datatype Outcome = NoJob | Ended(job: Job, completed: bool) | WorkerError

  lemma NextStageStep(s: Protocol.State, w: WorkerId, target: Status)
    requires s.PcOf(w).Resuming? && Protocol.StageAfter(s.PcOf(w).current.status) == Some(target)
    ensures var s' := Protocol.Do(s, Protocol.NextStage(w));
            var Resuming(claimed, current) := s.PcOf(w);
            && s'.table == s.table && s'.now == s.now
            && s'.PcOf(w) == Protocol.Handling(claimed, current, current.(status := target))
  {
  }

  lemma HandlerStep(s: Protocol.State, w: WorkerId, result: Job)
    requires s.PcOf(w).Handling?
    ensures var s' := Protocol.Do(s, Protocol.HandlerReturns(w, result));
            var Handling(claimed, current, staged) := s.PcOf(w);
            && s'.table == s.table && s'.now == s.now
            && s'.PcOf(w) == Protocol.AfterHandler(claimed, current, staged, result)
  {
  }

  /** A stage checkpoint in the protocol is the queue's checkpoint. */
  lemma SaveStageIsCheckpoint(s: Protocol.State, w: WorkerId, lost: bool)
    requires Inv(s) && s.PcOf(w).Persisting?
    ensures var Persisting(claimed, _, updated) := s.PcOf(w);
            var j := updated.jobId;
            var s' := Protocol.Do(s, Protocol.SaveStage(w, lost));
            && !Blank(j) && CheckpointStatus(updated.status) && s'.now == s.now
            && (OwnedIn(s.table, j, w, s.now) ==>
                  && s'.table == s.table[j := CheckpointRow(s.table[j], updated)]
                  && s'.PcOf(w) == if lost then Protocol.Failing(claimed, Protocol.QueueRejected) else Protocol.Resuming(claimed, updated))
            && (!OwnedIn(s.table, j, w, s.now) ==>
                  s'.table == s.table && s'.PcOf(w) == Protocol.Failing(claimed, Protocol.QueueRejected))
  {
    assert PcInv(w, s.workers[w], s.table);
    assert RowShape(s.PcOf(w).updated.jobId, s.table[s.PcOf(w).updated.jobId], s.now);
  }

  lemma SealIsCheckpoint(s: Protocol.State, w: WorkerId, lost: bool)
    requires Inv(s) && s.PcOf(w).Sealing?
    ensures var sealed := s.PcOf(w).sealed;
            var j := sealed.jobId;
            var s' := Protocol.Do(s, Protocol.Seal(w, lost));
            && !Blank(j) && CheckpointStatus(sealed.status) && s'.now == s.now
            && (OwnedIn(s.table, j, w, s.now) ==>
                  && s'.table == s.table[j := CheckpointRow(s.table[j], sealed)]
                  && s'.PcOf(w) == if lost then Protocol.Failing(sealed, Protocol.QueueRejected) else Protocol.Completing(sealed))
            && (!OwnedIn(s.table, j, w, s.now) ==>
                  s'.table == s.table && s'.PcOf(w) == Protocol.Failing(sealed, Protocol.QueueRejected))
  {
    assert PcInv(w, s.workers[w], s.table);
    assert RowShape(s.PcOf(w).sealed.jobId, s.table[s.PcOf(w).sealed.jobId], s.now);
  }

  lemma FinishIsComplete(s: Protocol.State, w: WorkerId, lost: bool)
    requires Inv(s) && s.PcOf(w).Completing?
    ensures var sealed := s.PcOf(w).sealed;
            var j := sealed.jobId;
            var s' := Protocol.Do(s, Protocol.Finish(w, lost));
            && !Blank(j) && sealed.status == DryRunComplete && s'.now == s.now
            && (OwnedIn(s.table, j, w, s.now) ==>
                  && s'.table == s.table[j := CompleteRow(s.table[j], sealed)]
                  && s'.PcOf(w) == (if lost then Protocol.Failing(sealed, Protocol.QueueRejected) else Protocol.Idle)
                  && s'.log == s.log + [Protocol.Complete(j, s.now, w, sealed)])
            && (!OwnedIn(s.table, j, w, s.now) ==>
                  s'.table == s.table && s'.PcOf(w) == Protocol.Failing(sealed, Protocol.QueueRejected))
  {
    assert PcInv(w, s.workers[w], s.table);
    assert RowShape(s.PcOf(w).sealed.jobId, s.table[s.PcOf(w).sealed.jobId], s.now);
  }

  lemma RequeueIsFail(s: Protocol.State, w: WorkerId)
    requires Inv(s) && s.PcOf(w).Failing?
    ensures var retry := s.PcOf(w).failed.(status := Queued);
            var j := retry.jobId;
            var s' := Protocol.Do(s, Protocol.Requeue(w));
            && !Blank(j) && s'.PcOf(w) == Protocol.Idle && s'.now == s.now
            && (OwnedIn(s.table, j, w, s.now) ==>
                  && s'.table == s.table[j := s.table[j].(status := Queued, payload := retry, workerId := None, leaseUntil := None,
                                                          availableAt := s.now + RETRY_SECONDS as real)]
                  && s'.log == s.log + [Protocol.Fail(j, s.now, w, retry)])
            && (!OwnedIn(s.table, j, w, s.now) ==> s'.table == s.table)
            && !OwnedIn(s'.table, j, w, s'.now)
  {
    assert PcInv(w, s.workers[w], s.table);
    assert RowShape(s.PcOf(w).failed.jobId, s.table[s.PcOf(w).failed.jobId], s.now);
  }

  /** Leaving `_resume` with a verified or sealed job. */
  lemma SealingStep(s: Protocol.State, w: WorkerId)
    requires s.PcOf(w).Resuming? && s.PcOf(w).current.status in {Verified, DryRunComplete}
    ensures var s' := Protocol.Do(s, Protocol.NextStage(w));
            var current := s.PcOf(w).current;
            && s'.table == s.table && s'.now == s.now
            && s'.PcOf(w) == if current.status == Verified then Protocol.Sealing(current.(status := DryRunComplete))
                             else Protocol.Completing(current)
  {
  }

  /** A claim in the protocol is the queue's claim, and its claimer holds the row for the lease. */
  lemma ClaimStep(steps: seq<Protocol.Step>, w: WorkerId, lease: int, locked: set<JobId>, lost: bool)
    requires Protocol.Run(Protocol.Init, steps).PcOf(w).Idle? && !Blank(w)
    ensures var s := Protocol.Run(Protocol.Init, steps);
            var s' := Protocol.Do(s, Protocol.ClaimJob(w, lease, locked, lost));
            var next := NextJob(s.table, s.now, locked);
            && s'.now == s.now
            && (if LeaseInRange(lease) && next.Some? then
                  && s'.table == s.table[next.value := ClaimRow(s.table[next.value], w, lease, s.now)]
                  && s.table[next.value].payload.jobId == next.value
                  && s'.PcOf(w) == (if lost then Protocol.Idle
                                    else Protocol.Resuming(Protocol.Adopt(s.table[next.value].payload), Protocol.Adopt(s.table[next.value].payload)))
                  && OnTime(s', w, next.value, s.now + lease as real, lease, lease as real)
                else s'.table == s.table && s'.PcOf(w) == Protocol.Idle)
  {
    var s := Protocol.Run(Protocol.Init, steps);
    var next := NextJob(s.table, s.now, locked);
    if next.Some? {
      RunInv(steps);
      assert RowShape(next.value, s.table[next.value], s.now);
    }
  }

  /** A worker in `_resume` holds a job in one of the statuses that `_resume` can continue. */
  lemma ResumesKnownStatus(steps: seq<Protocol.Step>, w: WorkerId)
    requires Protocol.Run(Protocol.Init, steps).PcOf(w).Resuming?
    ensures Protocol.Run(Protocol.Init, steps).PcOf(w).current.status
            in {Queued, ReadyForRemediation, PatchGenerated, VerificationPending, Verified, DryRunComplete}
  {
    RunInv(steps);
    var s := Protocol.Run(Protocol.Init, steps);
    assert PcInv(w, s.workers[w], s.table);
  }

  class Worker {
    const id: WorkerId
    const queue: PostgresJobQueue
    ghost var trace: seq<Protocol.Step>
    var state: Protocol.State

    constructor (id: WorkerId, queue: PostgresJobQueue)
      requires !Blank(id) && queue.table == map[]
      ensures Valid() && Pc().Idle? && this.id == id && this.queue == queue
    {
      this.id := id;
      this.queue := queue;
      trace := [];
      state := Protocol.Init;
    }

    /** The queue is in the state that the steps so far lead to. */
    ghost predicate Valid()
      reads this, queue
    {
      !Blank(id) && state == Protocol.Run(Protocol.Init, trace) && queue.table == state.table
    }

    function Pc(): Protocol.Pc
      reads this
    {
      state.PcOf(id)
    }

    /** Records one step, after the queue has carried it out. */
    method Take(step: Protocol.Step)
      requires state == Protocol.Run(Protocol.Init, trace)
      modifies this
      ensures state == Protocol.Do(old(state), step) && trace == old(trace) + [step]
      ensures state == Protocol.Run(Protocol.Init, trace)
    {
      state := Protocol.Do(state, step);
      assert (trace + [step])[..|trace + [step]| - 1] == trace;
      trace := trace + [step];
    }

    /** Everybody else takes the steps of `gap`. */
    method Interfere(gap: seq<Protocol.Step>)
      requires Valid()
      modifies this, queue
      ensures Valid() && Pc() == old(Pc()) && old(trace) <= trace
      ensures state == AfterOthers(old(state), gap, id)
    {
      for i := 0 to |gap|
        invariant Valid() && Pc() == old(Pc()) && old(trace) <= trace
        invariant state == AfterOthers(old(state), gap[..i], id)
      {
        assert gap[..i + 1][..i] == gap[..i];
        if Foreign(gap[i], id) {
          ForeignKeepsPc(state, gap[i], id);
          Take(gap[i]);
          queue.table := state.table;
        }
      }
      assert gap[..|gap|] == gap;
    }

    /** An exception inside the `try` block. */
    method Raise()
      requires Valid() && Pc().Working()
      modifies this
      ensures Valid() && old(trace) <= trace
      ensures Pc() == Protocol.Failing(old(Pc()).Visible(), Protocol.Raised)
      ensures state.table == old(state.table) && state.now == old(state.now)
    {
      Take(Protocol.RaiseIn(id));
    }

    /** `emit`: an audit write that may raise. */
    method Emit(turn: Turn, lease: int, ghost j: JobId, ghost until: Time) returns (ok: bool)
      requires Valid() && Pc().Working()
      modifies this, queue
      ensures Valid() && old(trace) <= trace
      ensures ok == turn.fate.Served?
      ensures Pc() == if ok then old(Pc()) else Protocol.Failing(old(Pc()).Visible(), Protocol.Raised)
      ensures Loyal(turn.gap, id, lease) && OnTime(old(state), id, j, until, lease, Ticks(turn.gap)) ==>
                StillHeld(old(state), state, id, j, until, Ticks(turn.gap))
    {
      Interfere(turn.gap);
      if Loyal(turn.gap, id, lease) && OnTime(old(state), id, j, until, lease, Ticks(turn.gap)) {
        GapKeepsHold(old(state), turn.gap, id, j, until, lease);
      }
      ok := turn.fate.Served?;
      if !ok {
        Raise();
      }
    }

    /** What the handler returned is checked before it is kept. */
    method Check(current: Job, target: Status, result: Job) returns (r: Result<Job, ()>)
      requires Valid() && Pc().Handling? && Pc().current == current && Pc().staged == current.(status := target)
      requires target == VerificationPending ==> result == Pc().staged
      modifies this
      ensures Valid() && old(trace) <= trace
      ensures r == if result.SameIdentity(current) && result.status == target then Ok(result) else Err(())
      ensures r.Ok? ==> Pc() == Protocol.Persisting(old(Pc()).claimed, current, result)
      ensures r.Err? ==> Pc().Failing? && Pc().failed == old(Pc()).claimed
      ensures state.table == old(state.table) && state.now == old(state.now)
    {
      HandlerStep(state, id, result);
      Take(Protocol.HandlerReturns(id, result));
      r := if result.SameIdentity(current) && result.status == target then Ok(result) else Err(());
    }

    /** The handler runs under its heartbeat; either may raise, and the result is checked. */
    method Handle(current: Job, target: Status, turn: Turn, handler: Handler, lease: int, ghost j: JobId, ghost until: Time)
      returns (r: Result<Job, ()>)
      requires Valid() && Pc().Resuming? && Pc().current == current
      requires Protocol.StageAfter(current.status) == Some(target)
      modifies this, queue
      ensures Valid() && old(trace) <= trace
      ensures r.Ok? ==> Pc() == Protocol.Persisting(old(Pc()).claimed, current, r.value) && r.value.status == target
      ensures r.Err? ==> Pc().Failing? && Pc().failed == old(Pc()).claimed
      ensures r.Ok? ==> turn.fate.Served? && r.value.SameIdentity(current) && r.value == Staged(current, handler, target)
      ensures turn.fate.Served? && WellBehaved(handler) ==> r.Ok?
      ensures Loyal(turn.gap, id, lease) && OnTime(old(state), id, j, until, lease, Ticks(turn.gap)) ==>
                StillHeld(old(state), state, id, j, until, Ticks(turn.gap))
    {
      var staged := TransitionJob(current, target).value;
      NextStageStep(state, id, target);
      Take(Protocol.NextStage(id));
      ghost var begun := state;
      Interfere(turn.gap);
      if Loyal(turn.gap, id, lease) && OnTime(begun, id, j, until, lease, Ticks(turn.gap)) {
        GapKeepsHold(begun, turn.gap, id, j, until, lease);
      }
      var outcome := if target == VerificationPending then Returned(staged) else handler(staged);
      if outcome.Returned? && turn.fate.Served? {
        r := Check(current, target, outcome.job);
      } else {
        Raise();
        r := Err(());
      }
    }

    /** `checkpoint` after a stage. */
    method SaveStage(updated: Job, turn: Turn, lease: int, ghost until: Time) returns (ok: bool)
      requires Valid() && Pc().Persisting? && Pc().updated == updated
      modifies this, queue
      ensures Valid() && old(trace) <= trace
      ensures ok ==> Pc() == Protocol.Resuming(old(Pc()).claimed, updated) && turn.fate.Served?
      ensures !ok ==> Pc().Failing? && Pc().failed == old(Pc()).claimed
      ensures var j := updated.jobId;
              Loyal(turn.gap, id, lease) && OnTime(old(state), id, j, until, lease, Ticks(turn.gap)) && turn.fate.Served? ==>
                ok && StillHeld(old(state), state, id, j, until, Ticks(turn.gap))
    {
      Interfere(turn.gap);
      if Loyal(turn.gap, id, lease) && OnTime(old(state), id, updated.jobId, until, lease, Ticks(turn.gap)) {
        GapKeepsHold(old(state), turn.gap, id, updated.jobId, until, lease);
      }
      ok := false;
      if turn.fate.Refused? {
        Raise();
      } else {
        SaveStageIsCheckpoint(state, id, turn.fate.Lost?) by { RunInv(trace); }
        var saved := queue.Checkpoint(updated.jobId, id, updated, state.now);
        Take(Protocol.SaveStage(id, turn.fate.Lost?));
        ok := saved.Ok? && turn.fate.Served?;
      }
    }

    /** `checkpoint` of the sealed job. */
    method Seal(sealed: Job, turn: Turn, lease: int, ghost until: Time) returns (ok: bool)
      requires Valid() && Pc() == Protocol.Sealing(sealed)
      modifies this, queue
      ensures Valid() && old(trace) <= trace
      ensures ok ==> Pc() == Protocol.Completing(sealed) && turn.fate.Served?
      ensures !ok ==> Pc().Failing? && Pc().failed == sealed
      ensures var j := sealed.jobId;
              Loyal(turn.gap, id, lease) && OnTime(old(state), id, j, until, lease, Ticks(turn.gap)) && turn.fate.Served? ==>
                ok && StillHeld(old(state), state, id, j, until, Ticks(turn.gap))
    {
      Interfere(turn.gap);
      if Loyal(turn.gap, id, lease) && OnTime(old(state), id, sealed.jobId, until, lease, Ticks(turn.gap)) {
        GapKeepsHold(old(state), turn.gap, id, sealed.jobId, until, lease);
      }
      ok := false;
      if turn.fate.Refused? {
        Raise();
      } else {
        SealIsCheckpoint(state, id, turn.fate.Lost?) by { RunInv(trace); }
        var saved := queue.Checkpoint(sealed.jobId, id, sealed, state.now);
        Take(Protocol.Seal(id, turn.fate.Lost?));
        ok := saved.Ok? && turn.fate.Served?;
      }
    }

    /** `complete` */
    method Finish(sealed: Job, turn: Turn, lease: int, ghost until: Time) returns (ok: bool)
      requires Valid() && Pc() == Protocol.Completing(sealed)
      modifies this, queue
      ensures Valid() && old(trace) <= trace
      ensures ok ==> Pc().Idle? && CompletedHere(sealed) && turn.fate.Served?
      ensures !ok ==> Pc().Failing? && Pc().failed == sealed
      ensures Loyal(turn.gap, id, lease) && OnTime(old(state), id, sealed.jobId, until, lease, Ticks(turn.gap)) && turn.fate.Served? ==> ok
    {
      Interfere(turn.gap);
      if Loyal(turn.gap, id, lease) && OnTime(old(state), id, sealed.jobId, until, lease, Ticks(turn.gap)) {
        GapKeepsHold(old(state), turn.gap, id, sealed.jobId, until, lease);
      }
      ok := false;
      if turn.fate.Refused? {
        Raise();
      } else {
        FinishIsComplete(state, id, turn.fate.Lost?) by { RunInv(trace); }
        var completed := queue.Complete(sealed.jobId, id, sealed, state.now);
        Take(Protocol.Finish(id, turn.fate.Lost?));
        ok := completed.Ok? && turn.fate.Served?;
      }
    }

    /** This worker's completion is the latest event of the table, and the row holds `job` for good. */
    ghost predicate CompletedHere(job: Job)
      reads this, queue
    {
      && job.status == DryRunComplete
      && |state.log| > 0 && state.log[|state.log| - 1] == Protocol.Complete(job.jobId, state.now, id, job)
      && job.jobId in queue.table
      && queue.table[job.jobId].status == DryRunComplete && queue.table[job.jobId].payload == job
    }

    /** This worker's failure is the latest event of the table, and the job is queued again. */
    ghost predicate RequeuedHere(failed: Job)
      reads this, queue
    {
      && failed.status == FailedStatus
      && |state.log| > 0 && state.log[|state.log| - 1] == Protocol.Fail(failed.jobId, state.now, id, failed.(status := Queued))
      && failed.jobId in queue.table
      && queue.table[failed.jobId].status == Queued && queue.table[failed.jobId].payload == failed.(status := Queued)
    }

    /** `_run_stage`: it succeeds exactly if every call is served, the handler behaves and the lease holds. */
    method RunStage(current: Job, target: Status, turns: StageTurns, handler: Handler, lease: int, ghost until: Time)
      returns (r: Result<Job, ()>)
      requires Valid() && Pc().Resuming? && Pc().current == current
      requires Protocol.StageAfter(current.status) == Some(target)
      modifies this, queue
      ensures Valid() && old(trace) <= trace
      ensures r.Ok? ==> Pc() == Protocol.Resuming(old(Pc()).claimed, r.value) && r.value.status == target
      ensures r.Ok? ==> turns.AllServed() && r.value.SameIdentity(current) && r.value == Staged(current, handler, target)
      ensures r.Err? ==> Pc().Failing? && Pc().failed == old(Pc()).claimed
      ensures turns.Smooth(id, lease, handler) && OnTime(old(state), id, current.jobId, until, lease, turns.Time()) ==>
                r.Ok? && StillHeld(old(state), state, id, current.jobId, until, turns.Time())
    {
      var ok := Emit(turns.started, lease, current.jobId, until);
      if !ok {
        return Err(());
      }
      r := Handle(current, target, turns.handled, handler, lease, current.jobId, until);
      if r.Err? {
        return;
      }
      ok := SaveStage(r.value, turns.saved, lease, until);
      if !ok {
        return Err(());
      }
      ok := Emit(turns.noted, lease, current.jobId, until);
      if !ok {
        r := Err(());
      }
    }

    /** A stage of `_resume`, skipped if the job is in another status than the one before it. */
    method RunIfIn(job: Job, from: Status, target: Status, turns: StageTurns, handler: Handler, lease: int, ghost until: Time)
      returns (r: Result<Job, ()>)
      requires Valid() && Pc().Resuming? && Pc().current == job
      requires Protocol.StageAfter(from) == Some(target)
      modifies this, queue
      ensures Valid() && old(trace) <= trace
      ensures r.Ok? ==> Pc() == Protocol.Resuming(old(Pc()).claimed, r.value) && r.value.SameIdentity(job)
      ensures r.Ok? ==> r.value.status == if job.status == from then target else job.status
      ensures r.Ok? ==> r.value == Staged(job, handler, target)
      ensures r.Ok? && job.status == from ==> turns.AllServed()
      ensures r.Err? ==> Pc().Failing? && Pc().failed == old(Pc()).claimed
      ensures turns.Smooth(id, lease, handler) && OnTime(old(state), id, job.jobId, until, lease, turns.Time()) ==>
                r.Ok? && StillHeld(old(state), state, id, job.jobId, until, turns.Time())
    {
      r := Ok(job);
      if job.status == from {
        r := RunStage(job, target, turns, handler, lease, until);
      }
    }

    /** The first two stages of `_resume`. */
    method ResumeToPatch(job: Job, env: Environment, handler: Handler, lease: int, ghost until: Time) returns (r: Result<Job, ()>)
      requires Valid() && Pc().Resuming? && Pc().current == job
      modifies this, queue
      ensures Valid() && old(trace) <= trace
      ensures r.Ok? ==> Pc() == Protocol.Resuming(old(Pc()).claimed, r.value) && r.value.SameIdentity(job)
      ensures r.Ok? ==> r.value == Staged(Staged(job, handler, ReadyForRemediation), handler, PatchGenerated)
      ensures r.Ok? ==> r.value.status == if job.status in {Queued, ReadyForRemediation} then PatchGenerated else job.status
      ensures r.Err? ==> Pc().Failing? && Pc().failed == old(Pc()).claimed
      ensures (&& env.prepare.Smooth(id, lease, handler) && env.generate.Smooth(id, lease, handler)
               && OnTime(old(state), id, job.jobId, until, lease, env.prepare.Time() + env.generate.Time())) ==>
                r.Ok? && StillHeld(old(state), state, id, job.jobId, until, env.prepare.Time() + env.generate.Time())
    {
      r := RunIfIn(job, Queued, ReadyForRemediation, env.prepare, handler, lease, until);
      if r.Ok? {
        r := RunIfIn(r.value, ReadyForRemediation, PatchGenerated, env.generate, handler, lease, until);
      }
    }

    /** The last two stages of `_resume`. */
    method ResumeToVerified(job: Job, env: Environment, handler: Handler, lease: int, ghost until: Time) returns (r: Result<Job, ()>)
      requires Valid() && Pc().Resuming? && Pc().current == job
      modifies this, queue
      ensures Valid() && old(trace) <= trace
      ensures r.Ok? ==> Pc() == Protocol.Resuming(old(Pc()).claimed, r.value) && r.value.SameIdentity(job)
      ensures r.Ok? ==> r.value == Staged(Staged(job, handler, VerificationPending), handler, Verified)
      ensures r.Ok? ==> r.value.status == if job.status in {PatchGenerated, VerificationPending} then Verified else job.status
      ensures r.Err? ==> Pc().Failing? && Pc().failed == old(Pc()).claimed
      ensures (&& env.await.Smooth(id, lease, handler) && env.verify.Smooth(id, lease, handler)
               && OnTime(old(state), id, job.jobId, until, lease, env.await.Time() + env.verify.Time())) ==>
                r.Ok? && StillHeld(old(state), state, id, job.jobId, until, env.await.Time() + env.verify.Time())
    {
      r := RunIfIn(job, PatchGenerated, VerificationPending, env.await, handler, lease, until);
      if r.Ok? {
        r := RunIfIn(r.value, VerificationPending, Verified, env.verify, handler, lease, until);
      }
    }

    /** `_resume`; the invariant of the protocol rules out its "unsupported checkpoint status". */
    method Resume(job: Job, env: Environment, handler: Handler, lease: int, ghost until: Time) returns (r: Result<Job, ()>)
      requires Valid() && Pc().Resuming? && Pc().current == job
      modifies this, queue
      ensures Valid() && old(trace) <= trace
      ensures r.Ok? ==> Pc() == Protocol.Resuming(old(Pc()).claimed, r.value) && r.value.SameIdentity(job)
      ensures r.Ok? ==> r.value == Resumed(job, handler)
      ensures r.Ok? ==> r.value.status == Verified || r.value.status == DryRunComplete
      ensures r.Err? ==> Pc().Failing? && Pc().failed == old(Pc()).claimed
      ensures env.StagesSmooth(id, lease, handler) && OnTime(old(state), id, job.jobId, until, lease, env.StagesTime()) ==>
                r.Ok? && StillHeld(old(state), state, id, job.jobId, until, env.StagesTime())
    {
      ResumesKnownStatus(trace, id);
      r := ResumeToPatch(job, env, handler, lease, until);
      if r.Ok? {
        r := ResumeToVerified(r.value, env, handler, lease, until);
      }
    }

    /** A verified job is sealed as dry-run-complete, a sealed one is taken as it is. */
    method SealIfVerified(job: Job, turn: Turn, lease: int, ghost until: Time) returns (r: Result<Job, ()>)
      requires Valid() && Pc().Resuming? && Pc().current == job
      requires job.status == Verified || job.status == DryRunComplete
      modifies this, queue
      ensures Valid() && old(trace) <= trace
      ensures r.Ok? ==> Pc() == Protocol.Completing(r.value) && r.value == job.(status := DryRunComplete)
      ensures r.Err? ==> Pc().Failing? && Pc().failed.jobId == job.jobId
      ensures turn.fate.Served? && Loyal(turn.gap, id, lease) && OnTime(old(state), id, job.jobId, until, lease, Ticks(turn.gap)) ==>
                r.Ok? && StillHeld(old(state), state, id, job.jobId, until, Ticks(turn.gap))
    {
      SealingStep(state, id);
      Take(Protocol.NextStage(id));
      r := Ok(job);
      if job.status == Verified {
        var sealed := job.(status := DryRunComplete);
        assert TransitionJob(job, DryRunComplete) == Ok(sealed);
        var ok := Seal(sealed, turn, lease, until);
        r := if ok then Ok(sealed) else Err(());
      }
    }

    /** The statements of the `try` block after `_resume`. */
    method SealAndFinish(job: Job, env: Environment, lease: int, ghost until: Time) returns (done: Option<Job>)
      requires Valid() && Pc().Resuming? && Pc().current == job
      requires job.status == Verified || job.status == DryRunComplete
      modifies this, queue
      ensures Valid() && old(trace) <= trace
      ensures done.Some? ==> Pc().Idle? && CompletedHere(done.value) && done.value == job.(status := DryRunComplete)
      ensures done.Some? ==> env.completed.fate.Served? && env.finish.fate.Served?
      ensures done.None? ==> Pc().Failing? && Pc().failed.jobId == job.jobId
      ensures env.ClosingSmooth(id, lease) && OnTime(old(state), id, job.jobId, until, lease, env.ClosingTime()) ==> done.Some?
    {
      var current := SealIfVerified(job, env.seal, lease, until);
      if current.Err? {
        return None;
      }
      var ok := Emit(env.completed, lease, job.jobId, until);
      if !ok {
        return None;
      }
      ok := Finish(current.value, env.finish, lease, until);
      done := if ok then Some(current.value) else None;
    }

    /** The statements of the `try` block after the job was claimed. */
    method Drive(job: Job, env: Environment, handler: Handler, lease: int, ghost until: Time) returns (done: Option<Job>)
      requires Valid() && Pc() == Protocol.Resuming(job, job)
      modifies this, queue
      ensures Valid() && old(trace) <= trace
      ensures done.Some? ==> Pc().Idle? && CompletedHere(done.value) && done.value.jobId == job.jobId
      ensures done.Some? ==> done.value == Resumed(job, handler).(status := DryRunComplete)
      ensures done.Some? ==> env.claimed.fate.Served? && env.completed.fate.Served? && env.finish.fate.Served?
      ensures done.None? ==> Pc().Failing? && Pc().failed.jobId == job.jobId
      ensures env.Smooth(id, lease, handler) && OnTime(old(state), id, job.jobId, until, lease, env.Time()) ==> done.Some?
    {
      var ok := Emit(env.claimed, lease, job.jobId, until);
      if !ok {
        return None;
      }
      var current := Resume(job, env, handler, lease, until);
      if current.Err? {
        return None;
      }
      done := SealAndFinish(current.value, env, lease, until);
    }

    /** `fail` with the retry payload, carried out by the queue. */
    method FailNow(failed: Job) returns (accepted: bool)
      requires Valid() && Pc().Failing? && failed == Pc().failed.(status := FailedStatus)
      modifies this, queue
      ensures Valid() && old(trace) <= trace && Pc().Idle?
      ensures accepted ==> RequeuedHere(failed)
      ensures !OwnedIn(queue.table, failed.jobId, id, state.now)
    {
      var retry := failed.(status := Queued);
      assert retry == Pc().failed.(status := Queued);
      RequeueIsFail(state, id) by { RunInv(trace); }
      var r := queue.Fail(retry.jobId, id, retry, RETRY_SECONDS, state.now);
      Take(Protocol.Requeue(id));
      accepted := r.Ok?;
    }

    /** `fail`, which may fail itself or lose its reply. */
    method Requeue(failed: Job, turn: Turn) returns (requeued: bool)
      requires Valid() && Pc().Failing? && failed == Pc().failed.(status := FailedStatus)
      modifies this, queue
      ensures Valid() && old(trace) <= trace && Pc().Idle?
      ensures requeued ==> RequeuedHere(failed) && turn.fate.Served?
      ensures !requeued ==> !turn.fate.Served? || !OwnedIn(queue.table, failed.jobId, id, state.now)
    {
      Interfere(turn.gap);
      if turn.fate.Refused? {
        Take(Protocol.GiveUp(id));
        requeued := false;
      } else {
        requeued := FailNow(failed);
        requeued := requeued && turn.fate.Served?;
      }
    }

    /** The `except` branch. */
    method Recover(env: Environment) returns (failed: Job, requeued: bool)
      requires Valid() && Pc().Failing?
      modifies this, queue
      ensures Valid() && old(trace) <= trace && Pc().Idle?
      ensures failed == old(Pc()).failed.(status := FailedStatus)
      ensures requeued ==> RequeuedHere(failed) && env.reported.fate.Served? && env.fail.fate.Served?
      ensures !requeued ==>
                !env.reported.fate.Served? || !env.fail.fate.Served? || !OwnedIn(queue.table, failed.jobId, id, state.now)
    {
      failed := Pc().failed.(status := FailedStatus);
      Interfere(env.reported.gap);
      if env.reported.fate.Served? {
        requeued := Requeue(failed, env.fail);
      } else {
        Take(Protocol.GiveUp(id));
        requeued := false;
      }
    }

    /** `claim`; an error is an invalid lease, a failed statement, or a lost reply although a row may be claimed. */
    method ClaimNext(leaseSeconds: int, env: Environment) returns (r: Result<Option<Job>, ()>)
      requires Valid() && Pc().Idle?
      modifies this, queue
      ensures Valid() && old(trace) <= trace
      ensures r.Ok? <==> LeaseInRange(leaseSeconds) && env.claim.fate.Served?
      ensures r.Ok? ==>
                var s := AfterOthers(old(state), env.claim.gap, id);
                var next := NextJob(s.table, s.now, env.locked);
                && (r.value.Some? <==> next.Some?)
                && (r.value.Some? ==>
                      && r.value.value == Protocol.Adopt(s.table[next.value].payload) && r.value.value.jobId == next.value
                      && Pc() == Protocol.Resuming(r.value.value, r.value.value)
                      && OnTime(state, id, next.value, s.now + leaseSeconds as real, leaseSeconds, leaseSeconds as real))
      ensures r.Err? || r.value.None? ==> Pc().Idle?
    {
      Interfere(env.claim.gap);
      if env.claim.fate.Refused? {
        return Err(());
      }
      ClaimStep(trace, id, leaseSeconds, env.locked, env.claim.fate.Lost?);
      var claim := queue.Claim(id, leaseSeconds, state.now, env.locked);
      Take(Protocol.ClaimJob(id, leaseSeconds, env.locked, env.claim.fate.Lost?));
      if claim.Err? || env.claim.fate.Lost? {
        return Err(());
      }
      r := Ok(if claim.value.None? then None else Some(Protocol.Adopt(claim.value.value)));
    }

    /**
      `run_once`, by cases. There is no job exactly if the claim succeeded and no unlocked row was claimable
      at that moment. If a row was, everything is served, the handlers behave and no more time passes
      than the lease, the result is that earliest job, completed. The worker raises for an invalid lease,
      a claim that failed or whose reply was lost, and otherwise only if a failure could not be
      reported: its audit event or its `fail` failed, or the row is not the worker's any more. What is
      reported as completed or failed is what the table says, and every call is a run of the protocol
      that leaves the worker idle.
     */
    method RunOnce(leaseSeconds: int, env: Environment, handler: Handler) returns (r: Outcome)
      requires Valid() && Pc().Idle?
      modifies this, queue
      ensures Valid() && Pc().Idle? && old(trace) <= trace
      ensures r.Ended? && r.completed ==> CompletedHere(r.job)
      ensures r.Ended? && !r.completed ==> RequeuedHere(r.job)
      ensures !LeaseInRange(leaseSeconds) || !env.claim.fate.Served? ==> r == WorkerError
      ensures var s := AfterOthers(old(state), env.claim.gap, id);
              var next := NextJob(s.table, s.now, env.locked);
              LeaseInRange(leaseSeconds) && env.claim.fate.Served? ==>
                && (r == NoJob <==> next.None?)
                && (r.Ended? ==> next.Some? && r.job.jobId == next.value)
                && (r.Ended? && r.completed ==>
                      && env.claimed.fate.Served? && env.completed.fate.Served? && env.finish.fate.Served?
                      && r.job == Resumed(Protocol.Adopt(s.table[next.value].payload), handler).(status := DryRunComplete))
                && (r.Ended? && !r.completed ==> env.reported.fate.Served? && env.fail.fate.Served?)
                && (r == WorkerError ==>
                      && next.Some?
                      && (|| !env.reported.fate.Served? || !env.fail.fate.Served?
                          || !OwnedIn(queue.table, next.value, id, state.now)))
                && (next.Some? && env.Smooth(id, leaseSeconds, handler) && env.Time() <= leaseSeconds as real ==>
                      r.Ended? && r.completed)
    {
      var claim := ClaimNext(leaseSeconds, env);
      if claim.Err? {
        return WorkerError;
      }
      if claim.value.None? {
        return NoJob;
      }
      ghost var until := state.now + leaseSeconds as real;
      var done := Drive(claim.value.value, env, handler, leaseSeconds, until);
      if done.Some? {
        return Ended(done.value, true);
      }
      var failed, requeued := Recover(env);
      r := if requeued then Ended(failed, false) else WorkerError;
    }
  }
}
