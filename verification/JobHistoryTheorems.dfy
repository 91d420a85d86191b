/** What the discipline of a history implies, position by position. */
module JobHistoryTheorems {
  import opened Basics
  import opened Jobs
  import opened JobTable
  import opened WorkerProtocol
  import opened JobHistory

  /** A statement that only the lease holder may run. */
  predicate ByHolder(e: Event) {
    e.Renew? || e.Checkpoint? || e.Complete? || e.Fail?
  }

  /** The prefix of length `i + 1` extends the one of length `i` by `h[i]`. */
  lemma Prefix(h: History, i: nat, j: JobId)
    requires i < |h|
    ensures h[..i + 1] == h[..i] + [h[i]]
    ensures Holder(h[..i + 1], j) == if h[i].job == j then HolderAfter(Holder(h[..i], j), h[i]) else Holder(h[..i], j)
    ensures Content(h[..i + 1], j) == if h[i].job == j then ContentAfter(Content(h[..i], j), h[i]) else Content(h[..i], j)
    ensures Available(h[..i + 1], j) ==
            if h[i].job == j then AvailableAfter(Available(h[..i], j), h[i]) else Available(h[..i], j)
    ensures forall k ::
              Tally(h[..i + 1], j, k) == Tally(h[..i], j, k) + (if h[i].job == j && Is(h[i], k) then 1 else 0)
  {
    assert h[..i + 1] == h[..i] + [h[i]];
    Append(h[..i], h[i], j);
  }

  lemma {:induction false} TallyGrows(h: History, a: nat, b: nat, j: JobId, k: Kind)
    requires a <= b <= |h|
    ensures Tally(h[..a], j, k) <= Tally(h[..b], j, k)
  {
    if a < b {
      TallyGrows(h, a, b - 1, j, k);
      Prefix(h, b - 1, j);
    }
  }

  lemma {:induction false} TallyWitness(h: History, n: nat, j: JobId, k: Kind) returns (i: nat)
    requires n <= |h| && Tally(h[..n], j, k) > 0
    ensures i < n && h[i].job == j && Is(h[i], k)
  {
    Prefix(h, n - 1, j);
    if h[n - 1].job == j && Is(h[n - 1], k) {
      i := n - 1;
    } else {
      i := TallyWitness(h, n - 1, j, k);
    }
  }

  lemma StageStep(h: History, i: nat, j: JobId)
    requires Disciplined(h) && i < |h| && (h[i].job == j ==> !h[i].Fail?)
    requires Tally(h[..i], j, Claims) >= 1 && Tally(h[..i], j, Creations) >= 1
    ensures Rank(Stage(h[..i], j)) <= Rank(Stage(h[..i + 1], j))
  {
    Prefix(h, i, j);
    DisciplinedAt(h, i);
  }

  lemma StageStepLater(h: History, a: nat, i: nat, j: JobId)
    requires Disciplined(h) && a <= i < |h| && (h[i].job == j ==> !h[i].Fail?)
    requires Tally(h[..a], j, Claims) >= 1 && Tally(h[..a], j, Creations) >= 1
    ensures Rank(Stage(h[..i], j)) <= Rank(Stage(h[..i + 1], j))
  {
    TallyGrows(h, a, i, j, Claims);
    TallyGrows(h, a, i, j, Creations);
    StageStep(h, i, j);
  }

  /** Once a job was claimed, its durable stage can only be taken back by a failure. */
  lemma {:induction false} StageRises(h: History, a: nat, b: nat, j: JobId)
    requires Disciplined(h) && a <= b <= |h|
    requires Tally(h[..a], j, Claims) >= 1 && Tally(h[..a], j, Creations) >= 1
    requires forall i :: a <= i < b && h[i].job == j ==> !h[i].Fail?
    ensures Rank(Stage(h[..a], j)) <= Rank(Stage(h[..b], j))
  {
    if a < b {
      StageRises(h, a, b - 1, j);
      StageStepLater(h, a, b - 1, j);
    }
  }

  // ---- which stages are saved ----

  /** Stage `t` of `j` was checkpointed, and no failure of `j` came later. */
  ghost predicate SavedSinceFailure(h: History, j: JobId, t: Status) {
    exists i :: 0 <= i < |h| && SavedAt(h, j, t, i)
  }

  predicate SavedAt(h: History, j: JobId, t: Status, i: nat)
    requires i < |h|
  {
    && h[i].job == j && h[i].Checkpoint? && h[i].payload.status == t
    && forall k :: i < k < |h| && h[k].job == j ==> !h[k].Fail?
  }

  /** How one more event changes what is saved. */
  lemma SavedAfter(h: History, e: Event, j: JobId, t: Status)
    ensures SavedSinceFailure(h + [e], j, t) <==>
            || (e.job == j && e.Checkpoint? && e.payload.status == t)
            || (!(e.job == j && e.Fail?) && SavedSinceFailure(h, j, t))
  {
    if SavedSinceFailure(h + [e], j, t) {
      SavedBefore(h, e, j, t);
    }
    if e.job == j && e.Checkpoint? && e.payload.status == t {
      assert SavedAt(h + [e], j, t, |h|);
    } else if !(e.job == j && e.Fail?) && SavedSinceFailure(h, j, t) {
      var i :| 0 <= i < |h| && SavedAt(h, j, t, i);
      assert SavedAt(h + [e], j, t, i);
    }
  }

  lemma SavedBefore(h: History, e: Event, j: JobId, t: Status)
    requires SavedSinceFailure(h + [e], j, t)
    ensures (e.job == j && e.Checkpoint? && e.payload.status == t) || (!(e.job == j && e.Fail?) && SavedSinceFailure(h, j, t))
  {
    var h' := h + [e];
    var i :| 0 <= i < |h'| && SavedAt(h', j, t, i);
    assert h'[|h|] == e;
    if i < |h| {
      assert forall k :: 0 <= k < |h| ==> h'[k] == h[k];
      assert SavedAt(h, j, t, i);
    }
  }

  /** Before its creation a job was never claimed, and before its first claim no stage is durable. */
  lemma {:induction false} UnclaimedIsAtTheStart(h: History, j: JobId)
    requires Disciplined(h)
    ensures Tally(h, j, Creations) == 0 ==> Tally(h, j, Claims) == 0
    ensures Tally(h, j, Claims) == 0 ==> Rank(Stage(h, j)) <= 0 && Holder(h, j).None?
  {
    if h != [] {
      UnclaimedIsAtTheStart(h[..|h| - 1], j);
    }
  }

  /** A job with a holder is in a stage that can be continued. */
  lemma {:induction false} HeldStageIsInWorkflow(h: History, j: JobId)
    requires Disciplined(h) && Holder(h, j).Some?
    ensures 0 <= Rank(Stage(h, j))
  {
    var past := h[..|h| - 1];
    if Holder(past, j).Some? {
      HeldStageIsInWorkflow(past, j);
      UnclaimedIsAtTheStart(past, j);
    }
  }

  /** The stages saved since the last failure are exactly those up to the durable one. */
  lemma {:induction false} SavedIffUpToStage(h: History, j: JobId, t: Status)
    requires Disciplined(h)
    ensures SavedSinceFailure(h, j, t) <==> 1 <= Rank(t) <= Rank(Stage(h, j))
  {
    if h != [] {
      var past, e := h[..|h| - 1], h[|h| - 1];
      assert h == past + [e];
      SavedAfter(past, e, j, t);
      SavedIffUpToStage(past, j, t);
      UnclaimedIsAtTheStart(past, j);
      if e.job == j && e.Checkpoint? {
        HeldStageIsInWorkflow(past, j);
      }
    }
  }

  /** Between two failures no stage of a job is checkpointed twice, and stages come in order. */
  lemma NoStageTwice(h: History, a: nat, b: nat)
    requires Disciplined(h) && a < b < |h|
    requires h[a].Checkpoint? && h[b].Checkpoint? && h[a].job == h[b].job
    requires forall i :: a < i < b && h[i].job == h[a].job ==> !h[i].Fail?
    ensures Rank(h[a].payload.status) < Rank(h[b].payload.status)
  {
    DisciplinedAt(h, b);
    assert SavedAt(h[..b], h[a].job, h[a].payload.status, a);
    SavedIffUpToStage(h[..b], h[a].job, h[a].payload.status);
  }

  /** Nobody gave `j` back strictly between positions `b` and `c`. */
  predicate NotGivenBack(h: History, b: nat, c: nat, j: JobId) {
    forall i :: b < i < c && i < |h| && h[i].job == j ==> !h[i].Complete? && !h[i].Fail?
  }

  /** Between a claim and the next one, the holder is the claimer or nobody. */
  lemma {:induction false} TenureHolder(h: History, b: nat, c: nat)
    requires Disciplined(h) && b < c <= |h| && h[b].Claim?
    requires forall i :: b < i < c && h[i].job == h[b].job ==> !h[i].Claim?
    ensures var holder := Holder(h[..c], h[b].job);
            && (holder.Some? ==> holder.value.worker == h[b].worker)
            && (holder.Some? <==> NotGivenBack(h, b, c, h[b].job))
  {
    var j := h[b].job;
    Prefix(h, c - 1, j);
    if b + 1 < c {
      TenureHolder(h, b, c - 1);
      DisciplinedAt(h, c - 1);
      assert NotGivenBack(h, b, c, j) <==>
             NotGivenBack(h, b, c - 1, j) && (h[c - 1].job == j ==> !h[c - 1].Complete? && !h[c - 1].Fail?);
    }
  }

  /** The latest claim of a job that has a holder. */
  lemma {:induction false} LatestClaim(h: History, c: nat, j: JobId) returns (b: nat)
    requires Disciplined(h) && c <= |h| && Holder(h[..c], j).Some?
    ensures b < c && h[b].Claim? && h[b].job == j
    ensures forall i :: b < i < c && h[i].job == j ==> !h[i].Claim?
  {
    var last := h[c - 1];
    Prefix(h, c - 1, j);
    if last.job == j && last.Claim? {
      b := c - 1;
    } else {
      DisciplinedAt(h, c - 1);
      b := LatestClaim(h, c - 1, j);
    }
  }

  /** What the holder of the latest claim may rely on when its statement is accepted. */
  lemma ActsUnderClaim(h: History, b: nat, c: nat)
    requires Disciplined(h) && b < c < |h| && h[b].Claim? && h[c].job == h[b].job && ByHolder(h[c])
    requires forall i :: b < i < c && h[i].job == h[b].job ==> !h[i].Claim?
    ensures h[c].worker == h[b].worker
    ensures NotGivenBack(h, b, c, h[b].job)
    ensures Holder(h[..c], h[c].job).Some? && h[b].at <= h[c].at <= Holder(h[..c], h[c].job).value.until
  {
    TenureHolder(h, b, c);
    DisciplinedAt(h, c);
  }

  /**
    Lease fencing: a renewal, checkpoint, completion or failure succeeds only if its worker made the
    latest claim of the job and has not given the job back, at a time within the lease as last renewed.
   */
  lemma ActsOnlyUnderLatestClaim(h: History, c: nat) returns (b: nat)
    requires Disciplined(h) && c < |h| && ByHolder(h[c])
    ensures b < c && h[b].Claim? && h[b].job == h[c].job && h[b].worker == h[c].worker
    ensures forall i :: b < i < c && h[i].job == h[c].job ==> !h[i].Claim? && !h[i].Complete? && !h[i].Fail?
    ensures Holder(h[..c], h[c].job).Some? && h[b].at <= h[c].at <= Holder(h[..c], h[c].job).value.until
  {
    DisciplinedAt(h, c);
    b := LatestClaim(h, c, h[c].job);
    ActsUnderClaim(h, b, c);
  }

  /** A statement after which the row holds the payload that the event records. */
  predicate Records(e: Event) {
    !e.Renew?
  }

  /** The durable payload is what the latest statement about the job, other than a renewal, left there. */
  lemma {:induction false} ContentIsLatest(h: History, c: nat, j: JobId) returns (i: nat)
    requires c <= |h| && Content(h[..c], j).Some?
    ensures i < c && h[i].job == j && Records(h[i]) && Content(h[..c], j) == Some(h[i].payload)
    ensures forall k :: i < k < c && h[k].job == j ==> !Records(h[k])
  {
    Prefix(h, c - 1, j);
    if h[c - 1].job == j && Records(h[c - 1]) {
      i := c - 1;
    } else {
      i := ContentIsLatest(h, c - 1, j);
    }
  }

  /** A claim hands over exactly what the latest statement before it left in the row. */
  lemma ClaimHandsOverLatest(h: History, c: nat) returns (i: nat)
    requires Disciplined(h) && c < |h| && h[c].Claim?
    ensures i < c && h[i].job == h[c].job && Records(h[i]) && h[i].payload == h[c].payload
    ensures forall k :: i < k < c && h[k].job == h[c].job ==> !Records(h[k])
  {
    DisciplinedAt(h, c);
    i := ContentIsLatest(h, c, h[c].job);
  }

  /**
    While a job has a holder, its durable payload is what that holder itself last claimed or
    checkpointed, whether or not the holder is still alive.
   */
  lemma HolderWroteContent(h: History, c: nat, j: JobId) returns (i: nat)
    requires Disciplined(h) && c <= |h| && Holder(h[..c], j).Some? && Content(h[..c], j).Some?
    ensures i < c && h[i].job == j && (h[i].Claim? || h[i].Checkpoint?)
    ensures h[i].worker == Holder(h[..c], j).value.worker && Content(h[..c], j) == Some(h[i].payload)
    ensures forall k :: i < k < c && h[k].job == j ==> h[k].Renew?
  {
    var b := LatestClaim(h, c, j);
    TenureHolder(h, b, c);
    i := ContentIsLatest(h, c, j);
    assert b <= i;
    if b < i {
      NothingElseWhileHeld(h, b, c, i);
    }
  }

  /** Between a claim and the position where its claimer still holds the job only the claimer acts. */
  lemma NothingElseWhileHeld(h: History, b: nat, c: nat, i: nat)
    requires Disciplined(h) && b < i < c <= |h| && h[b].Claim? && h[i].job == h[b].job
    requires forall k :: b < k < c && h[k].job == h[b].job ==> !h[k].Claim?
    requires NotGivenBack(h, b, c, h[b].job)
    ensures (h[i].Renew? || h[i].Checkpoint?) && h[i].worker == h[b].worker
  {
    var j := h[b].job;
    DisciplinedAt(h, i);
    DisciplinedAt(h, b);
    Prefix(h, b, j);
    TallyGrows(h, b + 1, i, j, Claims);
    TallyGrows(h, b + 1, i, j, Creations);
    if ByHolder(h[i]) {
      ActsUnderClaim(h, b, i);
    }
  }

  /** At most one completion per job. */
  lemma CompletesOnce(h: History, a: nat, b: nat)
    requires Disciplined(h) && a < b < |h| && h[a].Complete? && h[a].job == h[b].job
    ensures !h[b].Complete? && !h[b].Claim? && !ByHolder(h[b])
  {
    DisciplinedAt(h, b);
    TallyAfter(h, a, b, Completions);
    NothingAfterCompletion(h[..b], h[b]);
  }

  /** What happened is counted from then on. */
  lemma TallyAfter(h: History, a: nat, b: nat, k: Kind)
    requires a < b <= |h| && Is(h[a], k)
    ensures Tally(h[..b], h[a].job, k) >= 1
  {
    Prefix(h, a, h[a].job);
    TallyGrows(h, a + 1, b, h[a].job, k);
  }

  lemma NothingAfterCompletion(h: History, e: Event)
    requires Disciplined(h) && Admissible(h, e) && Tally(h, e.job, Completions) >= 1
    ensures !e.Claim? && !ByHolder(e)
  {
    CompletedHasNoHolder(h, e.job);
  }

  /** A completed job has no holder. */
  lemma {:induction false} CompletedHasNoHolder(h: History, j: JobId)
    requires Disciplined(h) && Tally(h, j, Completions) >= 1
    ensures Holder(h, j).None?
  {
    var past := h[..|h| - 1];
    if Tally(past, j, Completions) >= 1 {
      CompletedHasNoHolder(past, j);
    }
  }

  /** The job was given back somewhere in the open interval. */
  ghost predicate GivenBack(h: History, a: nat, b: nat, j: JobId) {
    exists i :: a < i < b < |h| && h[i].job == j && h[i].Fail?
  }

  /**
    Tenures do not overlap: a later claim of the same job comes after the earlier claimer gave the
    job back, or strictly after its lease, as last renewed, had run out; and the job was not completed.
   */
  lemma TenuresDoNotOverlap(h: History, a: nat, b: nat)
    requires Disciplined(h) && a < b < |h| && h[a].Claim? && h[b].Claim? && h[a].job == h[b].job
    requires forall i :: a < i < b && h[i].job == h[a].job ==> !h[i].Claim?
    ensures !h[b].reclaimed <==> GivenBack(h, a, b, h[a].job)
    ensures h[b].reclaimed ==>
              var lease := Holder(h[..b], h[a].job);
              lease.Some? && lease.value.worker == h[a].worker && lease.value.until < h[b].at
    ensures forall i :: a < i < b && h[i].job == h[a].job && ByHolder(h[i]) ==> h[i].worker == h[a].worker && h[i].at <= h[b].at
    ensures forall i :: a < i < b && h[i].job == h[a].job ==> !h[i].Complete?
  {
    TenureHolder(h, a, b);
    DisciplinedAt(h, b);
    forall i | a < i < b && h[i].job == h[a].job
      ensures !h[i].Complete?
      ensures ByHolder(h[i]) ==> h[i].worker == h[a].worker && h[i].at <= h[b].at
    {
      if ByHolder(h[i]) {
        ActsUnderClaim(h, a, i);
      }
      if h[i].Complete? {
        CompletesOnce(h, i, b);
      }
    }
  }

  // ---- the delay after a failure ----

  lemma {:induction false} AvailableOnlyLater(h: History, f: nat, c: nat)
    requires Disciplined(h) && f < c <= |h| && h[f].Fail?
    ensures Tally(h[..c], h[f].job, Claims) >= 1
    ensures Available(h[..c], h[f].job).Some? && h[f].at + 30.0 <= Available(h[..c], h[f].job).value
  {
    var j := h[f].job;
    DisciplinedAt(h, c - 1);
    Prefix(h, c - 1, j);
    if c == f + 1 {
      UnclaimedIsAtTheStart(h[..f], j);
    } else {
      AvailableOnlyLater(h, f, c - 1);
      UnclaimedIsAtTheStart(h[..c - 1], j);
    }
  }

  /** After an accepted failure of a job nobody claims it within half a minute. */
  lemma NoClaimBeforeRetry(h: History, f: nat, c: nat)
    requires Disciplined(h) && f < c < |h| && h[f].Fail? && h[c].Claim? && h[c].job == h[f].job
    ensures h[f].at + 30.0 <= h[c].at
  {
    DisciplinedAt(h, c);
    AvailableOnlyLater(h, f, c);
  }

  // ---- the approval gate ----

  /** A release comes after the creation of the held job. */
  lemma ReleaseFollowsCreation(h: History, release: nat, held: nat)
    requires Disciplined(h) && release < held < |h| && h[release].Release? && h[release].job == h[held].job
    ensures !h[held].Enqueue?
  {
    var j := h[held].job;
    DisciplinedAt(h, release);
    DisciplinedAt(h, held);
    var earlier := TallyWitness(h, release, j, Holds);
    Prefix(h, earlier, j);
    TallyGrows(h, earlier + 1, held, j, Creations);
  }

  /** The approval gate: a held job is released between its creation and its first claim. */
  lemma HeldJobNeedsRelease(h: History, held: nat, claim: nat) returns (release: nat)
    requires Disciplined(h) && held < claim < |h| && h[held].Enqueue? && h[held].payload.status == AwaitingApproval
    requires h[claim].Claim? && h[claim].job == h[held].job
    ensures held < release < claim && h[release].Release? && h[release].job == h[held].job
  {
    var j := h[held].job;
    assert Tally(h[..claim], j, Releases) > 0 by {
      DisciplinedAt(h, claim);
      Prefix(h, held, j);
      TallyGrows(h, held + 1, claim, j, Holds);
    }
    release := TallyWitness(h, claim, j, Releases);
    if release < held {
      ReleaseFollowsCreation(h, release, held);
    }
  }

  /** At most one of any number of concurrent approvals succeeds. */
  lemma ReleasesOnce(h: History, a: nat, b: nat)
    requires Disciplined(h) && a < b < |h| && h[a].Release? && h[b].Release?
    ensures h[a].job != h[b].job
  {
    DisciplinedAt(h, b);
    TallyAfter(h, a, b, Releases);
  }
}
