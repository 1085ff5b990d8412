// What IOSUCCESS and IOFAIL mean: no run reports a success without the copy or the sync having happened, nor a failed
// read before the third failed mapping.

module Outcomes {
  import opened Common
  import P = PoolProtocol
  import opened Lifecycle
  import opened RequestInvariants
  import opened Runs
  import opened Release
  import opened Statuses

  // ---------------------------------------------------------------- success

  /** The step that does a request's work: the memcpy of a read, the successful msync of a write. */
  ghost predicate DoesWork(s: State, e: Event, r: nat) {
    && (e.CopyOut? || e.Sync?) && Works(s, e.w) && Job(s, e.w) == r
    && if s.reqs[r].dir == Read then e.CopyOut? else e.Sync? && e.ok
  }

  /** A read's buffer holds what its file shows in state s from the request's offset on, byte for byte; past the end of the
      file that is zeros. */
  ghost predicate Shows(s: State, q: Request) {
    q.dir == Read ==>
      && q.buf.Caller? && |q.buf.bytes| == q.nbytes
      && forall k | 0 <= k < q.nbytes ::
           q.buf.bytes[k] ==
           if q.file < |s.files| && q.offset + k < |s.files[q.file]| then s.files[q.file][q.offset + k] else 0
  }

  ghost predicate WorkDone(ss: seq<State>, es: seq<Event>, k: nat, r: nat)
    requires k <= |es| < |ss| && r < |ss[k].reqs|
  {
    exists j {:trigger DoesWork(ss[j], es[j], r)} | 0 <= j < k :: DoesWork(ss[j], es[j], r) && Shows(ss[j], ss[k].reqs[r])
  }

  /** The request's work is said to be done: by its status, or by the verdict its worker is about to publish. */
  ghost predicate Claimed(q: Request, pl: Place) {
    q.status == IoSuccess || (pl.At? && pl.stage.Publishing? && pl.stage.ok)
  }

  /** Nothing but its own work changes what a read shows. */
  ghost predicate SameRead(q: Request, q': Request) {
    && q'.dir == q.dir && q'.file == q.file && q'.offset == q.offset && q'.nbytes == q.nbytes
    && (q.dir == Read ==> q'.buf == q.buf)
  }

  lemma ClaimStep(s: State, e: Event, r: nat)
    requires Core(s) && Enabled(s, e) && r < |s.reqs|
    requires Claimed(NextRequest(s, e, r), NextPlace(s, e, r))
    ensures (DoesWork(s, e, r) && Shows(s, NextRequest(s, e, r))) ||
            (Claimed(s.reqs[r], PlaceIn(s, r)) && SameRead(s.reqs[r], NextRequest(s, e, r)))
  {
    hide Core, RequestOk, StageOk, Claimed, DoesWork, Shows;
    if NextPlace(s, e, r) != PlaceIn(s, r) && !e.PutAppend? {
      SilentMoves(s, e, r);
    }
    if Target(s, e) == Some(r) {
      TargetPlace(s, e, r);
      TargetClaims(s, e, r);
    } else {
      StageKnown(s, r);
      OtherClaims(s, e, r);
    }
  }

  lemma StageKnown(s: State, r: nat)
    requires Core(s) && r < |s.reqs|
    ensures StageOk(s.reqs[r], PlaceIn(s, r))
  {
    assert RequestOk(s.reqs[r], PlaceIn(s, r));
  }

  lemma TargetClaims(s: State, e: Event, r: nat)
    requires Enabled(s, e) && Target(s, e) == Some(r) && RequestOk(s.reqs[r], PlaceIn(s, r))
    requires TaskWrites(e) ==> Works(s, e.w) && PlaceIn(s, r) == At(StageOf(s, e.w))
    requires Claimed(RequestStep(s, e), NextPlace(s, e, r))
    requires NextPlace(s, e, r) != PlaceIn(s, r) && !e.PutAppend? ==> TaskStep(e) || e.WorkerBusy? || e.WorkerIdle?
    ensures (DoesWork(s, e, r) && Shows(s, RequestStep(s, e))) ||
            (Claimed(s.reqs[r], PlaceIn(s, r)) && SameRead(s.reqs[r], RequestStep(s, e)))
  {
  }

  lemma OtherClaims(s: State, e: Event, r: nat)
    requires Enabled(s, e) && r < |s.reqs| && Target(s, e) != Some(r) && StageOk(s.reqs[r], PlaceIn(s, r))
    requires Claimed(s.reqs[r], NextPlace(s, e, r))
    requires NextPlace(s, e, r) != PlaceIn(s, r) && !e.PutAppend? ==> TaskStep(e) || e.WorkerBusy? || e.WorkerIdle?
    requires NextPlace(s, e, r) != PlaceIn(s, r) && TaskStep(e) ==>
               Works(s, e.w) && r == Job(s, e.w) && PlaceIn(s, r) == At(StageOf(s, e.w))
    ensures (DoesWork(s, e, r) && Shows(s, s.reqs[r])) || Claimed(s.reqs[r], PlaceIn(s, r))
  {
  }

  lemma ClaimInRun(ss: seq<State>, es: seq<Event>, k: nat, r: nat)
    requires IsRun(ss, es) && k < |es| && r < |ss[k + 1].reqs| && Claimed(ss[k + 1].reqs[r], PlaceIn(ss[k + 1], r))
    ensures r < |ss[k].reqs|
    ensures (DoesWork(ss[k], es[k], r) && Shows(ss[k], ss[k + 1].reqs[r])) ||
            (Claimed(ss[k].reqs[r], PlaceIn(ss[k], r)) && SameRead(ss[k].reqs[r], ss[k + 1].reqs[r]))
  {
    InvThroughoutRun(ss, es, k);
    assert StepAt(ss, es, k);
    PlaceAfterStep(ss[k], es[k], r);
    if r >= |ss[k].reqs| {
      NewRequestsClaimNothing(ss[k], es[k], r);
    } else {
      RequestAfterStep(ss[k], es[k], r);
      ClaimStep(ss[k], es[k], r);
    }
  }

  lemma NewRequestsClaimNothing(s: State, e: Event, r: nat)
    requires Core(s) && Enabled(s, e) && |s.reqs| <= r < |Step(s, e).reqs|
    ensures !Claimed(Step(s, e).reqs[r], NextPlace(s, e, r))
  {
    hide Lifecycle.Step, NextPlace;
    NewcomerAfterStep(s, e, r);
  }

  /** No run reports IOSUCCESS without the work having been done: a read's buffer is what its file showed at the moment
      of the copy, byte for byte, and a write has been synced. */
  lemma {:induction false} SuccessMeansDone(ss: seq<State>, es: seq<Event>, k: nat, r: nat)
    requires IsRun(ss, es) && k <= |es| && r < |ss[k].reqs| && Claimed(ss[k].reqs[r], PlaceIn(ss[k], r))
    ensures WorkDone(ss, es, k, r)
  {
    if k > 0 {
      ClaimInRun(ss, es, k - 1, r);
      if !(DoesWork(ss[k - 1], es[k - 1], r) && Shows(ss[k - 1], ss[k].reqs[r])) {
        SuccessMeansDone(ss, es, k - 1, r);
        var j :| 0 <= j < k - 1 && DoesWork(ss[j], es[j], r) && Shows(ss[j], ss[k - 1].reqs[r]);
        assert Shows(ss[j], ss[k].reqs[r]);
      }
    }
  }

  // ---------------------------------------------------------------- failure

  ghost function FailedMaps(r: nat): (State, Event) -> nat {
    (s: State, e: Event) => if e.TryMap? && e.addr.None? && Works(s, e.w) && Job(s, e.w) == r then 1 else 0
  }

  /** How many mapping attempts of a read have failed, read off its place and status. */
  ghost predicate Tally(q: Request, pl: Place, n: nat) {
    && (pl.NotQueued? || pl.Queued? || pl == At(P.FirstCheck) ==> n == 0)
    && (pl.At? && pl.stage.Mapping? ==> n == pl.stage.fails)
    && (pl.At? && pl.stage.Publishing? && !pl.stage.ok && q.dir == Read ==> n == MAX_RETRY_TIMES + 1)
    && (q.Accepted() && q.status == IoFail && q.dir == Read ==> n == MAX_RETRY_TIMES + 1)
  }

  lemma TallyStep(s: State, e: Event, r: nat, n: nat)
    requires Core(s) && Enabled(s, e) && r < |s.reqs| && Tally(s.reqs[r], PlaceIn(s, r), n)
    ensures Tally(NextRequest(s, e, r), NextPlace(s, e, r), n + FailedMaps(r)(s, e))
  {
    if e.TryMap? && Works(s, e.w) && Job(s, e.w) == r {
      WorkingPlace(s, e.w);
    }
    if NextPlace(s, e, r) != PlaceIn(s, r) && !e.PutAppend? {
      SilentMoves(s, e, r);
    }
    assert RequestOk(s.reqs[r], PlaceIn(s, r));
    if Target(s, e) == Some(r) {
      TargetPlace(s, e, r);
      TargetTally(s, e, r, n);
    } else {
      SilentTally(s, e, r, n);
      assert NextRequest(s, e, r) == s.reqs[r];
    }
  }

  /** A step that writes to the request is not a mapping attempt. */
  lemma TargetTally(s: State, e: Event, r: nat, n: nat)
    requires Enabled(s, e) && Target(s, e) == Some(r)
    requires RequestOk(s.reqs[r], PlaceIn(s, r)) && Tally(s.reqs[r], PlaceIn(s, r), n)
    requires TaskWrites(e) ==> Works(s, e.w) && PlaceIn(s, r) == At(StageOf(s, e.w))
    requires NextPlace(s, e, r) != PlaceIn(s, r) && !e.PutAppend? ==> TaskStep(e) && Works(s, e.w) && r == Job(s, e.w)
    ensures Tally(RequestStep(s, e), NextPlace(s, e, r), n) && FailedMaps(r)(s, e) == 0
  {
    if !TaskWrites(e) && !e.PutAppend? {
      assert NextPlace(s, e, r) == PlaceIn(s, r);
      hide NextPlace;
    }
  }

  lemma SilentTally(s: State, e: Event, r: nat, n: nat)
    requires Enabled(s, e) && Target(s, e) != Some(r)
    requires r < |s.reqs| && RequestOk(s.reqs[r], PlaceIn(s, r)) && Tally(s.reqs[r], PlaceIn(s, r), n)
    requires FailedMaps(r)(s, e) == 1 ==> r in s.pool.slots && s.pool.slots[r] == s.pool.workers[e.w].phase.i
                                          && PlaceIn(s, r) == At(StageOf(s, e.w))
    requires NextPlace(s, e, r) != PlaceIn(s, r) && !e.PutAppend? ==>
               (e.WorkerBusy? && PlaceIn(s, r) == Queued && NextPlace(s, e, r) == At(P.FirstCheck)) ||
               ((e.WorkerIdle? || TaskStep(e)) && Works(s, e.w) && r == Job(s, e.w) && PlaceIn(s, r) == At(StageOf(s, e.w)))
    ensures Tally(s.reqs[r], NextPlace(s, e, r), n + FailedMaps(r)(s, e))
  {
  }

  ghost function FailuresSoFar(ss: seq<State>, es: seq<Event>, k: nat, r: nat): nat
    requires k <= |es| < |ss|
  {
    Count(ss, es, 0, k, FailedMaps(r))
  }

  lemma TallyInRun(ss: seq<State>, es: seq<Event>, k: nat, r: nat, n: nat)
    requires IsRun(ss, es) && k < |es| && r < |ss[k].reqs| && Tally(ss[k].reqs[r], PlaceIn(ss[k], r), n)
    ensures r < |ss[k + 1].reqs| && Tally(ss[k + 1].reqs[r], PlaceIn(ss[k + 1], r), n + FailedMaps(r)(ss[k], es[k]))
  {
    InvThroughoutRun(ss, es, k);
    assert StepAt(ss, es, k);
    RequestAfterStep(ss[k], es[k], r);
    PlaceAfterStep(ss[k], es[k], r);
    TallyStep(ss[k], es[k], r, n);
  }

  lemma UnknownRequest(ss: seq<State>, es: seq<Event>, k: nat, r: nat)
    requires IsRun(ss, es) && k < |es| && r >= |ss[k].reqs|
    ensures FailedMaps(r)(ss[k], es[k]) == 0
    ensures r < |ss[k + 1].reqs| ==> Tally(ss[k + 1].reqs[r], PlaceIn(ss[k + 1], r), 0)
  {
    InvThroughoutRun(ss, es, k);
    assert StepAt(ss, es, k);
    if r < |ss[k + 1].reqs| {
      PlaceAfterStep(ss[k], es[k], r);
      NewTally(ss[k], es[k], r);
    }
  }

  lemma NewTally(s: State, e: Event, r: nat)
    requires Core(s) && Enabled(s, e) && |s.reqs| <= r < |Step(s, e).reqs|
    ensures Tally(Step(s, e).reqs[r], NextPlace(s, e, r), 0)
  {
    hide Lifecycle.Step, NextPlace;
    NewcomerAfterStep(s, e, r);
  }

  lemma {:induction false} TallyThroughoutRun(ss: seq<State>, es: seq<Event>, k: nat, r: nat)
    requires IsRun(ss, es) && k <= |es|
    ensures if r < |ss[k].reqs| then Tally(ss[k].reqs[r], PlaceIn(ss[k], r), FailuresSoFar(ss, es, k, r))
            else FailuresSoFar(ss, es, k, r) == 0
  {
    if k > 0 {
      TallyThroughoutRun(ss, es, k - 1, r);
      if r < |ss[k - 1].reqs| {
        TallyInRun(ss, es, k - 1, r, FailuresSoFar(ss, es, k - 1, r));
      } else {
        UnknownRequest(ss, es, k - 1, r);
      }
    }
  }

  /** A read that has been queued reports IOFAIL only after exactly three mapping attempts have failed. */
  lemma FailureMeansThreeAttempts(ss: seq<State>, es: seq<Event>, k: nat, r: nat)
    requires IsRun(ss, es) && k <= |es| && r < |ss[k].reqs|
    requires ss[k].reqs[r].Accepted() && ss[k].reqs[r].dir == Read && ss[k].reqs[r].status == IoFail
    ensures FailuresSoFar(ss, es, k, r) == 3
  {
    TallyThroughoutRun(ss, es, k, r);
  }

  // ---------------------------------------------------------------- the verdict is true

  ghost function WorkSteps(r: nat): (State, Event) -> nat {
    (s: State, e: Event) => if DoesWork(s, e, r) then 1 else 0
  }

  /** The msync of the request has failed. */
  ghost predicate SyncFails(s: State, e: Event, r: nat) {
    e.Sync? && !e.ok && Works(s, e.w) && Job(s, e.w) == r
  }

  ghost function FailedSyncs(r: nat): (State, Event) -> nat {
    (s: State, e: Event) => if SyncFails(s, e, r) then 1 else 0
  }

  /** The worker has given its verdict, or put has written SUBMITTED after it: an earlier IOFAIL is about the buffer. */
  ghost predicate Past(q: Request, pl: Place) {
    q.put.Put? || (q.put.Enqueued? && !pl.Unpublished())
  }

  /** How often a request's work has been done, and how often its msync has failed, read off its place and status. */
  ghost predicate Evidence(q: Request, pl: Place, done: nat, failed: nat) {
    && (pl.NotQueued? || pl.Queued? || (pl.At? && P.StageWeight(pl.stage) > P.StageWeight(P.Publishing(true, None))) ==>
          done == failed == 0)
    && (pl.At? && pl.stage.Publishing? ==>
          && done == (if pl.stage.ok then 1 else 0)
          && failed == (if q.dir == Write && !pl.stage.ok then 1 else 0))
    && (Past(q, pl) && q.status == IoSuccess ==> done == 1 && failed == 0)
    && (Past(q, pl) && q.status == IoFail ==> done == 0 && failed == if q.dir == Write then 1 else 0)
  }

  lemma EvidenceStep(s: State, e: Event, r: nat, done: nat, failed: nat)
    requires Core(s) && Enabled(s, e) && r < |s.reqs| && Evidence(s.reqs[r], PlaceIn(s, r), done, failed)
    ensures Evidence(NextRequest(s, e, r), NextPlace(s, e, r), done + WorkSteps(r)(s, e), failed + FailedSyncs(r)(s, e))
  {
    hide Core, RequestOk, Evidence, NextPlace, WorkSteps, FailedSyncs;
    if (e.Sync? || e.CopyOut?) && Works(s, e.w) && Job(s, e.w) == r {
      WorkingPlace(s, e.w);
    }
    if NextPlace(s, e, r) != PlaceIn(s, r) && !e.PutAppend? {
      SilentMoves(s, e, r);
    }
    KnownOk(s, r);
    if Target(s, e) == Some(r) {
      TargetPlace(s, e, r);
      TargetEvidence(s, e, r, done, failed);
    } else {
      SilentEvidence(s, e, r, done, failed);
      assert NextRequest(s, e, r) == s.reqs[r];
    }
  }

  lemma TargetEvidence(s: State, e: Event, r: nat, done: nat, failed: nat)
    requires Enabled(s, e) && Target(s, e) == Some(r)
    requires RequestOk(s.reqs[r], PlaceIn(s, r)) && Evidence(s.reqs[r], PlaceIn(s, r), done, failed)
    requires TaskWrites(e) ==> Works(s, e.w) && PlaceIn(s, r) == At(StageOf(s, e.w))
    requires NextPlace(s, e, r) != PlaceIn(s, r) && !e.PutAppend? ==> TaskStep(e) && Works(s, e.w) && r == Job(s, e.w)
    requires e.CopyOut? ==> r in s.pool.slots && s.pool.slots[r] == s.pool.workers[e.w].phase.i
    ensures Evidence(RequestStep(s, e), NextPlace(s, e, r), done + WorkSteps(r)(s, e), failed + FailedSyncs(r)(s, e))
  {
    if !TaskWrites(e) {
      if !e.PutAppend? {
        assert NextPlace(s, e, r) == PlaceIn(s, r);
        hide NextPlace;
      }
      assert WorkSteps(r)(s, e) == 0 && FailedSyncs(r)(s, e) == 0;
      hide WorkSteps, FailedSyncs;
    } else {
      TaskEvidence(s, e, r, done, failed);
    }
  }

  lemma TaskEvidence(s: State, e: Event, r: nat, done: nat, failed: nat)
    requires Enabled(s, e) && Target(s, e) == Some(r) && TaskWrites(e) && Works(s, e.w) && PlaceIn(s, r) == At(StageOf(s, e.w))
    requires RequestOk(s.reqs[r], PlaceIn(s, r)) && Evidence(s.reqs[r], PlaceIn(s, r), done, failed)
    requires e.CopyOut? ==> r in s.pool.slots && s.pool.slots[r] == s.pool.workers[e.w].phase.i
    ensures Evidence(RequestStep(s, e), NextPlace(s, e, r), done + WorkSteps(r)(s, e), failed + FailedSyncs(r)(s, e))
  {
    var q, q' := s.reqs[r], RequestStep(s, e);
    assert FailedSyncs(r)(s, e) == 0 && WorkSteps(r)(s, e) == (if e.CopyOut? then 1 else 0);
    if !e.Publish? {
      assert q'.status == q.status && q'.put == q.put && q'.dir == q.dir;
    }
    hide WorkSteps, FailedSyncs;
  }

  lemma SilentEvidence(s: State, e: Event, r: nat, done: nat, failed: nat)
    requires Enabled(s, e) && Target(s, e) != Some(r) && r < |s.reqs|
    requires RequestOk(s.reqs[r], PlaceIn(s, r)) && Evidence(s.reqs[r], PlaceIn(s, r), done, failed)
    requires e.Sync? && Works(s, e.w) && Job(s, e.w) == r ==>
               r in s.pool.slots && s.pool.slots[r] == s.pool.workers[e.w].phase.i && PlaceIn(s, r) == At(StageOf(s, e.w))
    requires NextPlace(s, e, r) != PlaceIn(s, r) && !e.PutAppend? ==>
               (e.WorkerBusy? && PlaceIn(s, r) == Queued && NextPlace(s, e, r) == At(P.FirstCheck)) ||
               ((e.WorkerIdle? || TaskStep(e)) && Works(s, e.w) && r == Job(s, e.w) && PlaceIn(s, r) == At(StageOf(s, e.w)))
    ensures Evidence(s.reqs[r], NextPlace(s, e, r), done + WorkSteps(r)(s, e), failed + FailedSyncs(r)(s, e))
  {
    if !(e.Sync? && Works(s, e.w) && Job(s, e.w) == r) {
      assert WorkSteps(r)(s, e) == 0 && FailedSyncs(r)(s, e) == 0;
      hide WorkSteps, FailedSyncs;
    } else {
      assert WorkSteps(r)(s, e) == (if e.ok then 1 else 0) && FailedSyncs(r)(s, e) == (if e.ok then 0 else 1);
      hide WorkSteps, FailedSyncs;
    }
  }

  lemma NewEvidence(s: State, e: Event, r: nat)
    requires Core(s) && Enabled(s, e) && |s.reqs| <= r
    ensures WorkSteps(r)(s, e) == FailedSyncs(r)(s, e) == 0
    ensures r < |Step(s, e).reqs| ==> Evidence(Step(s, e).reqs[r], NextPlace(s, e, r), 0, 0)
  {
    hide Lifecycle.Step, NextPlace;
    if r < |Step(s, e).reqs| {
      NewcomerAfterStep(s, e, r);
    }
  }

  lemma {:induction false} EvidenceThroughoutRun(ss: seq<State>, es: seq<Event>, k: nat, r: nat)
    requires IsRun(ss, es) && k <= |es|
    ensures var done, failed := Count(ss, es, 0, k, WorkSteps(r)), Count(ss, es, 0, k, FailedSyncs(r));
            if r < |ss[k].reqs| then Evidence(ss[k].reqs[r], PlaceIn(ss[k], r), done, failed) else done == failed == 0
  {
    if k > 0 {
      EvidenceThroughoutRun(ss, es, k - 1, r);
      EvidenceInRun(ss, es, k - 1, r, Count(ss, es, 0, k - 1, WorkSteps(r)), Count(ss, es, 0, k - 1, FailedSyncs(r)));
    } else {
      assert ss[0].reqs == [];
    }
  }

  lemma EvidenceInRun(ss: seq<State>, es: seq<Event>, k: nat, r: nat, done: nat, failed: nat)
    requires IsRun(ss, es) && k < |es|
    requires if r < |ss[k].reqs| then Evidence(ss[k].reqs[r], PlaceIn(ss[k], r), done, failed) else done == failed == 0
    ensures var done', failed' := done + WorkSteps(r)(ss[k], es[k]), failed + FailedSyncs(r)(ss[k], es[k]);
            if r < |ss[k + 1].reqs| then Evidence(ss[k + 1].reqs[r], PlaceIn(ss[k + 1], r), done', failed')
            else done' == failed' == 0
  {
    hide Evidence, Core, Lifecycle.Enabled, Lifecycle.Step, NextRequest, NextPlace, WorkSteps, FailedSyncs;
    InvThroughoutRun(ss, es, k);
    assert StepAt(ss, es, k);
    PlaceAfterStep(ss[k], es[k], r);
    if r < |ss[k].reqs| {
      RequestAfterStep(ss[k], es[k], r);
      EvidenceStep(ss[k], es[k], r, done, failed);
    } else {
      NewEvidence(ss[k], es[k], r);
    }
  }

  /** No step so far has done the request's work. */
  ghost predicate NeverDone(ss: seq<State>, es: seq<Event>, k: nat, r: nat)
    requires k <= |es| < |ss|
  {
    forall j {:trigger DoesWork(ss[j], es[j], r)} | 0 <= j < k :: !DoesWork(ss[j], es[j], r)
  }

  ghost predicate SyncFailed(ss: seq<State>, es: seq<Event>, k: nat, r: nat)
    requires k <= |es| < |ss|
  {
    exists j {:trigger SyncFails(ss[j], es[j], r)} | 0 <= j < k :: SyncFails(ss[j], es[j], r)
  }

  /** The worker's verdict is true both ways: IOSUCCESS if and only if the work has been done; and IOFAIL only of a read with
      three failed mappings, or of a write whose msync failed. */
  lemma VerdictIsTrue(ss: seq<State>, es: seq<Event>, k: nat, r: nat)
    requires IsRun(ss, es) && k <= |es| && r < |ss[k].reqs| && Past(ss[k].reqs[r], PlaceIn(ss[k], r))
    requires ss[k].reqs[r].status == IoSuccess || ss[k].reqs[r].status == IoFail
    ensures ss[k].reqs[r].status == IoSuccess <==> WorkDone(ss, es, k, r)
    ensures ss[k].reqs[r].status == IoFail <==> NeverDone(ss, es, k, r)
    ensures ss[k].reqs[r].status == IoFail && ss[k].reqs[r].dir == Read ==> FailuresSoFar(ss, es, k, r) == 3
    ensures ss[k].reqs[r].status == IoFail && ss[k].reqs[r].dir == Write ==> SyncFailed(ss, es, k, r)
  {
    EvidenceThroughoutRun(ss, es, k, r);
    if ss[k].reqs[r].status == IoSuccess {
      SuccessMeansDone(ss, es, k, r);
    } else {
      CountNone(ss, es, 0, k, WorkSteps(r));
      assert forall j | 0 <= j < k :: WorkSteps(r)(ss[j], es[j]) == 0;
      assert NeverDone(ss, es, k, r);
      if ss[k].reqs[r].dir == Read {
        FailureMeansThreeAttempts(ss, es, k, r);
      } else {
        var j := CountWitness(ss, es, 0, k, FailedSyncs(r));
        assert SyncFails(ss[j], es[j], r);
      }
    }
  }

  // ---------------------------------------------------------------- cancellation

  /** A cancel call or a timeout meets a SUBMITTED request, or a put is turned away. */
  ghost predicate Cancels(s: State, e: Event, r: nat) {
    && r < |s.reqs|
    && (|| (e.PutGate? && e.r == r && !s.pool.isRunning)
        || (s.reqs[r].status == Submitted &&
            (((e.CancelRequest? || e.CancelAllSection?) && e.r == r) ||
             (e.TimerFire? && e.t < |s.waiters| && s.waiters[e.t].On(r)))))
  }

  ghost predicate WasCancelled(ss: seq<State>, es: seq<Event>, k: nat, r: nat)
    requires k <= |es| < |ss|
  {
    exists j {:trigger Cancels(ss[j], es[j], r)} | 0 <= j < k :: Cancels(ss[j], es[j], r)
  }

  lemma CancelHasCause(s: State, e: Event, r: nat)
    requires Guard(s, e) && r < |s.reqs| && NextRequest(s, e, r).status == Cancel
    ensures s.reqs[r].status == Cancel || Cancels(s, e, r)
  {
  }

  lemma EnabledMeansGuard(s: State, e: Event)
    requires Enabled(s, e)
    ensures Guard(s, e)
  {
  }

  lemma NewcomerIsInit(s: State, e: Event, r: nat)
    requires Core(s) && Enabled(s, e) && |s.reqs| <= r < |Step(s, e).reqs|
    ensures Step(s, e).reqs[r].status == Init
  {
    NewcomerAfterStep(s, e, r);
  }

  lemma {:induction false} CancelMeansCancelled(ss: seq<State>, es: seq<Event>, k: nat, r: nat)
    requires IsRun(ss, es) && k <= |es| && r < |ss[k].reqs| && ss[k].reqs[r].status == Cancel
    ensures WasCancelled(ss, es, k, r)
  {
    hide Cancels, Core, Lifecycle.Enabled, Lifecycle.Step, NextRequest;
    if k > 0 {
      InvThroughoutRun(ss, es, k - 1);
      assert StepAt(ss, es, k - 1);
      if r < |ss[k - 1].reqs| {
        RequestAfterStep(ss[k - 1], es[k - 1], r);
        EnabledMeansGuard(ss[k - 1], es[k - 1]);
        CancelHasCause(ss[k - 1], es[k - 1], r);
        if ss[k - 1].reqs[r].status == Cancel {
          CancelMeansCancelled(ss, es, k - 1, r);
        }
      } else {
        NewcomerIsInit(ss[k - 1], es[k - 1], r);
        assert false;
      }
    }
  }

  lemma CancelTakesEffect(s: State, e: Event, r: nat)
    requires Core(s) && Enabled(s, e) && Cancels(s, e, r)
    ensures NextRequest(s, e, r).status == Cancel && NextRequest(s, e, r).Returned()
    ensures NextRequest(s, e, r).put == if e.PutGate? then Rejected else Put
  {
    hide Core, NextRequest, RequestOk;
    KnownOk(s, r);
    SubmittedMeansPut(s.reqs[r], PlaceIn(s, r));
    CancelStep(s, e, r);
  }

  lemma SubmittedMeansPut(q: Request, pl: Place)
    requires RequestOk(q, pl)
    ensures q.status == Submitted ==> q.put.Put?
  {
  }

  lemma CancelStep(s: State, e: Event, r: nat)
    requires Guard(s, e) && Cancels(s, e, r) && (s.reqs[r].status == Submitted ==> s.reqs[r].put.Put?)
    ensures NextRequest(s, e, r).status == Cancel && NextRequest(s, e, r).Returned()
    ensures NextRequest(s, e, r).put == if e.PutGate? then Rejected else Put
  {
  }

  /** A request whose put has returned is CANCEL exactly if its put was turned away, or a cancel call or a timeout met it
      while it was SUBMITTED. */
  lemma CancelIffCancelled(ss: seq<State>, es: seq<Event>, k: nat, r: nat)
    requires IsRun(ss, es) && k <= |es| && r < |ss[k].reqs|
    ensures ss[k].reqs[r].status == Cancel <==> WasCancelled(ss, es, k, r)
  {
    hide Cancels, Core, Lifecycle.Enabled, Lifecycle.Step, NextRequest;
    if ss[k].reqs[r].status == Cancel {
      CancelMeansCancelled(ss, es, k, r);
    }
    if WasCancelled(ss, es, k, r) {
      var j :| 0 <= j < k && Cancels(ss[j], es[j], r);
      InvThroughoutRun(ss, es, j);
      assert StepAt(ss, es, j);
      CancelTakesEffect(ss[j], es[j], r);
      CancelsKnown(ss[j], es[j], r);
      RequestAfterStep(ss[j], es[j], r);
      FinalForever(ss, es, j + 1, k, r);
    }
  }

  lemma CancelsKnown(s: State, e: Event, r: nat)
    requires Cancels(s, e, r)
    ensures r < |s.reqs|
  {
  }

  /** What a caller has after shutdown, in every timely run without a put behind the fifth sentinel: each accepted read is
      IOSUCCESS with its buffer filled from the file, or IOFAIL after three failed mappings, or CANCEL. */
  lemma ReadsEndToEnd(ss: seq<State>, es: seq<Event>, k: nat, r: nat)
    requires TimelyRun(ss, es) && InTimeRun(ss, es) && k <= |es| && ss[k].pool.joined == P.THREAD_POOL_SIZE
    requires r < |ss[k].reqs| && ss[k].reqs[r].Accepted() && ss[k].reqs[r].dir == Read
    ensures match ss[k].reqs[r].status
            case IoSuccess => WorkDone(ss, es, k, r)
            case IoFail => FailuresSoFar(ss, es, k, r) == 3 && NeverDone(ss, es, k, r)
            case other => other == Cancel && WasCancelled(ss, es, k, r)
  {
    ReleasedIsPast(ss, es, k, r);
    if ss[k].reqs[r].status == Cancel {
      CancelMeansCancelled(ss, es, k, r);
    } else {
      VerdictIsTrue(ss, es, k, r);
    }
  }

  lemma ReleasedIsPast(ss: seq<State>, es: seq<Event>, k: nat, r: nat)
    requires TimelyRun(ss, es) && InTimeRun(ss, es) && k <= |es| && ss[k].pool.joined == P.THREAD_POOL_SIZE
    requires r < |ss[k].reqs| && ss[k].reqs[r].Accepted()
    ensures ss[k].reqs[r].status.Final() && Past(ss[k].reqs[r], PlaceIn(ss[k], r))
  {
    ReleasedMeansDecided(ss, es, k, r);
    InTimeRunsDrain(ss, es, k);
  }

  /** The same for writes: IOSUCCESS after an msync that succeeded, IOFAIL after one that failed, or CANCEL. */
  lemma WritesEndToEnd(ss: seq<State>, es: seq<Event>, k: nat, r: nat)
    requires TimelyRun(ss, es) && InTimeRun(ss, es) && k <= |es| && ss[k].pool.joined == P.THREAD_POOL_SIZE
    requires r < |ss[k].reqs| && ss[k].reqs[r].Accepted() && ss[k].reqs[r].dir == Write
    ensures match ss[k].reqs[r].status
            case IoSuccess => WorkDone(ss, es, k, r)
            case IoFail => SyncFailed(ss, es, k, r) && NeverDone(ss, es, k, r)
            case other => other == Cancel && WasCancelled(ss, es, k, r)
  {
    ReleasedIsPast(ss, es, k, r);
    if ss[k].reqs[r].status == Cancel {
      CancelMeansCancelled(ss, es, k, r);
    } else {
      VerdictIsTrue(ss, es, k, r);
    }
  }
}
