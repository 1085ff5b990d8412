// The status of a request over whole runs: which values it takes, which are final, and what a final one means.

module Statuses {
  import opened Common
  import P = PoolProtocol
  import opened Lifecycle
  import opened RequestInvariants
  import opened Runs
  import opened Release

  // ---------------------------------------------------------------- final means final

  /** Once its put has returned, or its worker has given its verdict, the final status of an accepted request is
      overwritten by a step if and only if that step is the put's own late write of SUBMITTED. */
  lemma FinalLostOnlyToLateMark(s: State, e: Event, r: nat)
    requires Core(s) && Enabled(s, e)
    requires r < |s.reqs| && s.reqs[r].Accepted() && s.reqs[r].status.Final()
    requires s.reqs[r].put.Put? || !PlaceIn(s, r).Unpublished()
    ensures NextRequest(s, e, r).status != s.reqs[r].status <==> e == PutMark(r)
    ensures s.reqs[r].put.Put? ==> e != PutMark(r) && NextRequest(s, e, r).put.Put?
  {
    if Target(s, e) == Some(r) {
      TargetPlace(s, e, r);
      TargetKeepsFinal(s, e, r);
    } else {
      assert NextRequest(s, e, r) == s.reqs[r];
    }
  }

  lemma TargetKeepsFinal(s: State, e: Event, r: nat)
    requires Enabled(s, e) && Target(s, e) == Some(r) && RequestOk(s.reqs[r], PlaceIn(s, r))
    requires TaskWrites(e) ==> Works(s, e.w) && PlaceIn(s, r) == At(StageOf(s, e.w))
    requires s.reqs[r].Accepted() && s.reqs[r].status.Final()
    requires s.reqs[r].put.Put? || !PlaceIn(s, r).Unpublished()
    ensures RequestStep(s, e).status != s.reqs[r].status <==> e == PutMark(r)
    ensures s.reqs[r].put.Put? ==> e != PutMark(r) && RequestStep(s, e).put.Put?
  {
  }

  lemma EndedStays(s: State, e: Event, r: nat)
    requires Core(s) && Enabled(s, e)
    requires r < |s.reqs| && s.reqs[r].Ended()
    ensures var q' := NextRequest(s, e, r); q'.Ended() && q'.put == s.reqs[r].put && q'.status == s.reqs[r].status
  {
    if s.reqs[r].put.Put? {
      FinalLostOnlyToLateMark(s, e, r);
    } else {
      RejectedStays(s, e, r);
    }
  }

  lemma RejectedStays(s: State, e: Event, r: nat)
    requires Core(s) && Enabled(s, e) && r < |s.reqs| && s.reqs[r].put.Rejected?
    ensures NextRequest(s, e, r).put.Rejected? && NextRequest(s, e, r).status == s.reqs[r].status == Cancel
  {
    assert RequestOk(s.reqs[r], PlaceIn(s, r));
    if Target(s, e) == Some(r) {
      TargetPlace(s, e, r);
      RejectedTarget(s, e, r);
    }
  }

  lemma RejectedTarget(s: State, e: Event, r: nat)
    requires Guard(s, e) && Target(s, e) == Some(r) && s.reqs[r].put.Rejected? && s.reqs[r].status == Cancel
    ensures RequestStep(s, e).put.Rejected? && RequestStep(s, e).status == Cancel
  {
  }

  /** Once a put has returned, a final status stays to the end of every run. */
  lemma {:induction false} FinalForever(ss: seq<State>, es: seq<Event>, from: nat, to: nat, r: nat)
    requires IsRun(ss, es) && from <= to <= |es| && r < |ss[from].reqs| && ss[from].reqs[r].Ended()
    ensures r < |ss[to].reqs| && ss[to].reqs[r].Ended()
    ensures ss[to].reqs[r].put == ss[from].reqs[r].put && ss[to].reqs[r].status == ss[from].reqs[r].status
  {
    hide Core, Lifecycle.Enabled, Lifecycle.Step, NextRequest;
    if from < to {
      FinalForever(ss, es, from, to - 1, r);
      InvThroughoutRun(ss, es, to - 1);
      assert StepAt(ss, es, to - 1);
      EndedStays(ss[to - 1], es[to - 1], r);
      RequestAfterStep(ss[to - 1], es[to - 1], r);
    }
  }

  // ---------------------------------------------------------------- histories

  /** SUBMITTED is not written after the worker's verdict. A mark made before the task is picked up is never late. */
  ghost predicate Timely(s: State, e: Event) {
    e.PutMark? && e.r < |s.reqs| ==> PlaceIn(s, e.r).Unpublished()
  }

  /** The values before the put: IOFAIL follows INIT if no buffer could be prepared. */
  ghost function Born(q: Request): seq<Status> {
    if q.prep == PrepFailed then [Init] + [IoFail] else [Init]
  }

  /** INIT (and IOFAIL), then SUBMITTED, then at most one of IOSUCCESS, IOFAIL and CANCEL; a rejected put goes to CANCEL
      directly; a task past its verdict has one, even if its put has not come to write SUBMITTED. */
  ghost predicate HistoryOk(q: Request, pl: Place) {
    && |q.history| > 0 && q.status == q.history[|q.history| - 1]
    && match q.put
       case Put =>
         if q.status == Submitted then q.history == Born(q) + [Submitted] && pl.Unpublished()
         else q.status.Final() && q.history == Born(q) + [Submitted] + [q.status]
       case Enqueued =>
         if pl.Unpublished() then q.history == Born(q)
         else q.status.Final() && (q.history == Born(q) || q.history == Born(q) + [q.status])
       case Rejected => q.history == Born(q) + [Cancel]
       case _ => q.history == Born(q)
  }

  ghost predicate HistoriesOk(s: State) {
    forall r | 0 <= r < |s.reqs| :: HistoryOk(s.reqs[r], PlaceIn(s, r))
  }

  lemma TargetHistory(s: State, e: Event, r: nat)
    requires Enabled(s, e) && Timely(s, e) && Target(s, e) == Some(r)
    requires RequestOk(s.reqs[r], PlaceIn(s, r)) && HistoryOk(s.reqs[r], PlaceIn(s, r))
    requires TaskWrites(e) ==> Works(s, e.w) && PlaceIn(s, r) == At(StageOf(s, e.w))
    requires TaskWrites(e) ==> r in s.pool.slots && s.pool.slots[r] == s.pool.workers[e.w].phase.i
    ensures HistoryOk(RequestStep(s, e), NextPlace(s, e, r))
  {
    hide HistoryOk, RequestOk, RequestStep;
    if TaskWrites(e) {
      StageTargetStaysOk(s, e, e.w, PlaceIn(s, r));
      TaskHistory(s, e, r, At(PoolPart(s, e).value.stage));
    } else {
      CallerHistory(s, e, r);
    }
  }

  lemma TaskHistory(s: State, e: Event, r: nat, pl: Place)
    requires Guard(s, e) && TaskWrites(e) && Target(s, e) == Some(r) && PoolPart(s, e).Some?
    requires PoolPart(s, e).value.Move? && pl == At(PoolPart(s, e).value.stage)
    requires RequestOk(s.reqs[r], At(StageOf(s, e.w))) && HistoryOk(s.reqs[r], At(StageOf(s, e.w)))
    ensures HistoryOk(RequestStep(s, e), pl)
  {
    var q := s.reqs[r];
    if !e.Publish? {
      assert RequestStep(s, e).status == q.status && RequestStep(s, e).history == q.history
             && RequestStep(s, e).put == q.put;
    }
  }

  lemma CallerHistory(s: State, e: Event, r: nat)
    requires Enabled(s, e) && Timely(s, e) && !TaskWrites(e) && Target(s, e) == Some(r)
    requires RequestOk(s.reqs[r], PlaceIn(s, r)) && HistoryOk(s.reqs[r], PlaceIn(s, r))
    ensures HistoryOk(RequestStep(s, e), NextPlace(s, e, r))
  {
    assert e.PutAppend? || NextPlace(s, e, r) == PlaceIn(s, r);
  }

  /** A request the step does not write to: a worker moving on never passes its verdict without writing. */
  lemma OtherHistory(s: State, e: Event, r: nat)
    requires Core(s) && Enabled(s, e) && r < |s.reqs| && HistoryOk(s.reqs[r], PlaceIn(s, r)) && Target(s, e) != Some(r)
    ensures HistoryOk(s.reqs[r], NextPlace(s, e, r))
  {
    if NextPlace(s, e, r) != PlaceIn(s, r) {
      SilentMoves(s, e, r);
      MovedUnpublished(s, e, r);
    }
  }

  lemma MovedUnpublished(s: State, e: Event, r: nat)
    requires Enabled(s, e) && Target(s, e) != Some(r) && NextPlace(s, e, r) != PlaceIn(s, r)
    requires e.WorkerBusy? || e.WorkerIdle? || TaskStep(e)
    requires e.WorkerBusy? ==> PlaceIn(s, r) == Queued && NextPlace(s, e, r) == At(P.FirstCheck)
    requires !e.WorkerBusy? ==> Works(s, e.w) && r == Job(s, e.w) && PlaceIn(s, r) == At(StageOf(s, e.w))
    ensures PlaceIn(s, r).Unpublished() <==> NextPlace(s, e, r).Unpublished()
  {
  }

  lemma KnownHistory(s: State, e: Event, r: nat)
    requires Core(s) && HistoriesOk(s) && Enabled(s, e) && Timely(s, e) && r < |s.reqs|
    ensures HistoryOk(NextRequest(s, e, r), NextPlace(s, e, r))
  {
    if Target(s, e) == Some(r) {
      TargetPlace(s, e, r);
      if TaskWrites(e) {
        TaskStepsMove(s, e);
        WorkingPlace(s, e.w);
      }
      TargetHistory(s, e, r);
    } else {
      OtherHistory(s, e, r);
    }
  }

  lemma NewHistory(s: State, e: Event, r: nat)
    requires Core(s) && Enabled(s, e) && |s.reqs| <= r < |Step(s, e).reqs|
    ensures HistoryOk(Step(s, e).reqs[r], NextPlace(s, e, r))
  {
    hide Lifecycle.Step, NextPlace;
    NewcomerAfterStep(s, e, r);
  }

  lemma TimelyStepKeepsHistories(s: State, e: Event)
    requires Core(s) && HistoriesOk(s) && Enabled(s, e) && Timely(s, e)
    ensures HistoriesOk(Step(s, e))
  {
    var s' := Step(s, e);
    forall r | 0 <= r < |s'.reqs|
      ensures HistoryOk(s'.reqs[r], PlaceIn(s', r))
    {
      PlaceAfterStep(s, e, r);
      if r < |s.reqs| {
        RequestAfterStep(s, e, r);
        KnownHistory(s, e, r);
      } else {
        NewHistory(s, e, r);
      }
    }
  }

  /** A late mark makes a decided request look undecided. */
  lemma LateMarkBreaksHistory(s: State, r: nat)
    requires Core(s) && Enabled(s, PutMark(r)) && !PlaceIn(s, r).Unpublished()
    ensures !HistoriesOk(Step(s, PutMark(r)))
    ensures r < |Step(s, PutMark(r)).reqs| && Step(s, PutMark(r)).reqs[r].status == Submitted
    ensures !PlaceIn(Step(s, PutMark(r)), r).Unpublished()
  {
    hide Core, HistoryOk, PlaceIn;
    PlaceAfterStep(s, PutMark(r), r);
    RequestAfterStep(s, PutMark(r), r);
    MarkedLate(s.reqs[r], PlaceIn(s, r));
    assert NextRequest(s, PutMark(r), r) == s.reqs[r].(put := Put).Set(Submitted);
    assert NextPlace(s, PutMark(r), r) == PlaceIn(s, r);
  }

  lemma MarkedLate(q: Request, pl: Place)
    requires !pl.Unpublished()
    ensures q.(put := Put).Set(Submitted).status == Submitted && !HistoryOk(q.(put := Put).Set(Submitted), pl)
  {
  }

  /** A step keeps the histories admissible if and only if it is not a late write of SUBMITTED. */
  lemma StepKeepsHistories(s: State, e: Event)
    requires Core(s) && HistoriesOk(s) && Enabled(s, e)
    ensures HistoriesOk(Step(s, e)) <==> Timely(s, e)
  {
    if Timely(s, e) {
      TimelyStepKeepsHistories(s, e);
    } else {
      LateMarkBreaksHistory(s, e.r);
    }
  }

  ghost predicate TimelyRun(ss: seq<State>, es: seq<Event>) {
    IsRun(ss, es) && forall k {:trigger Timely(ss[k], es[k])} | 0 <= k < |es| :: Timely(ss[k], es[k])
  }

  lemma HistoriesInRunStep(ss: seq<State>, es: seq<Event>, k: nat)
    requires IsRun(ss, es) && k < |es| && HistoriesOk(ss[k])
    ensures HistoriesOk(ss[k + 1]) <==> Timely(ss[k], es[k])
  {
    InvThroughoutRun(ss, es, k);
    assert StepAt(ss, es, k);
    StepKeepsHistories(ss[k], es[k]);
  }

  lemma {:induction false} TimelyHistories(ss: seq<State>, es: seq<Event>, k: nat)
    requires TimelyRun(ss, es) && k <= |es|
    ensures HistoriesOk(ss[k])
  {
    if k > 0 {
      TimelyHistories(ss, es, k - 1);
      assert Timely(ss[k - 1], es[k - 1]);
      HistoriesInRunStep(ss, es, k - 1);
    }
  }

  /** Every request has an admissible status history throughout a run if and only if no put of that run writes SUBMITTED
      after the worker's verdict. */
  lemma HistoriesIffTimely(ss: seq<State>, es: seq<Event>)
    requires IsRun(ss, es)
    ensures TimelyRun(ss, es) <==> forall k | 0 <= k < |ss| :: HistoriesOk(ss[k])
  {
    if TimelyRun(ss, es) {
      forall k | 0 <= k < |ss|
        ensures HistoriesOk(ss[k])
      {
        TimelyHistories(ss, es, k);
      }
    }
    if forall k | 0 <= k < |ss| :: HistoriesOk(ss[k]) {
      forall k | 0 <= k < |es|
        ensures Timely(ss[k], es[k])
      {
        assert HistoriesOk(ss[k]) && HistoriesOk(ss[k + 1]);
        HistoriesInRunStep(ss, es, k);
      }
    }
  }

  /** In a timely run without a put behind the fifth sentinel, once all workers are joined, every accepted request has
      reached its one final status; only the write of SUBMITTED may still be missing, if its put has not returned. */
  lemma ReleasedMeansDecided(ss: seq<State>, es: seq<Event>, k: nat, r: nat)
    requires TimelyRun(ss, es) && InTimeRun(ss, es) && k <= |es| && ss[k].pool.joined == P.THREAD_POOL_SIZE
    requires r < |ss[k].reqs| && ss[k].reqs[r].Accepted()
    ensures ss[k].reqs[r].status.Final()
    ensures var q := ss[k].reqs[r];
            if q.put.Put? then q.history == Born(q) + [Submitted] + [q.status]
            else q.history == Born(q) || q.history == Born(q) + [q.status]
  {
    TimelyHistories(ss, es, k);
    InTimeRunsDrain(ss, es, k);
    assert HistoryOk(ss[k].reqs[r], PlaceIn(ss[k], r));
  }

  /** A request that is still SUBMITTED in a timely run has its verdict yet to come. */
  lemma SubmittedIsUnpublished(ss: seq<State>, es: seq<Event>, k: nat, r: nat)
    requires TimelyRun(ss, es) && k <= |es| && r < |ss[k].reqs| && ss[k].reqs[r].status == Submitted
    ensures ss[k].reqs[r].put.Put? && PlaceIn(ss[k], r).Unpublished()
  {
    TimelyHistories(ss, es, k);
    SubmittedHistory(ss[k].reqs[r], PlaceIn(ss[k], r));
  }

  lemma SubmittedHistory(q: Request, pl: Place)
    requires HistoryOk(q, pl) && q.status == Submitted
    ensures q.put.Put? && pl.Unpublished()
  {
    assert Born(q)[|Born(q)| - 1] != Submitted;
  }

  // ---------------------------------------------------------------- a cancelled request is not worked on

  /** The steps with which a task function touches the file. */
  ghost predicate IoOn(s: State, e: Event, r: nat) {
    (e.TryMap? || e.CopyOut? || e.Sync?) && Works(s, e.w) && Job(s, e.w) == r
  }

  /** Cancelled, and its worker has not gone past its first check. */
  ghost predicate CancelledInTime(s: State, r: nat) {
    && r < |s.reqs| && s.reqs[r].put.Put? && s.reqs[r].status == Cancel
    && Idle(PlaceIn(s, r))
  }

  ghost predicate Idle(pl: Place) {
    pl.At? ==> pl.stage.FirstCheck? || pl.stage.Returning?
  }

  lemma IdleMeansNoIo(s: State, e: Event, r: nat)
    requires Core(s) && Enabled(s, e) && Idle(PlaceIn(s, r))
    ensures !IoOn(s, e, r)
  {
    if IoOn(s, e, r) {
      WorkingPlace(s, e.w);
      IoStage(s, e);
      assert false;
    }
  }

  lemma IoStage(s: State, e: Event)
    requires Enabled(s, e) && (e.TryMap? || e.CopyOut? || e.Sync?)
    ensures Works(s, e.w)
    ensures StageOf(s, e.w) == s.pool.workers[e.w].phase.stage && !Idle(At(StageOf(s, e.w)))
  {
  }

  lemma CancelledKeepsIdle(s: State, e: Event, r: nat)
    requires Core(s) && CancelledInTime(s, r) && Enabled(s, e)
    ensures Idle(NextPlace(s, e, r))
  {
    if NextPlace(s, e, r) != PlaceIn(s, r) && !e.PutAppend? {
      SilentMoves(s, e, r);
      SkipsToTheEnd(s, e, r);
    }
  }

  lemma SkipsToTheEnd(s: State, e: Event, r: nat)
    requires Enabled(s, e) && CancelledInTime(s, r) && NextPlace(s, e, r) != PlaceIn(s, r)
    requires e.WorkerBusy? || e.WorkerIdle? || TaskStep(e)
    requires e.WorkerBusy? ==> PlaceIn(s, r) == Queued && NextPlace(s, e, r) == At(P.FirstCheck)
    requires !e.WorkerBusy? ==> Works(s, e.w) && r == Job(s, e.w) && PlaceIn(s, r) == At(StageOf(s, e.w))
    ensures Idle(NextPlace(s, e, r))
  {
  }

  lemma CancelledStaysIdle(s: State, e: Event, r: nat)
    requires Core(s) && CancelledInTime(s, r) && Enabled(s, e)
    ensures CancelledInTime(Step(s, e), r)
  {
    EndedStays(s, e, r);
    RequestAfterStep(s, e, r);
    PlaceAfterStep(s, e, r);
    CancelledKeepsIdle(s, e, r);
  }

  /** A request cancelled while still queued is dequeued and skipped: from then on no worker maps its file, copies from
      it or syncs it, to the end of any run. */
  lemma {:induction false} CancelledIsNeverRun(ss: seq<State>, es: seq<Event>, from: nat, to: nat, r: nat)
    requires IsRun(ss, es) && from <= to <= |es| && CancelledInTime(ss[from], r)
    ensures CancelledInTime(ss[to], r)
    ensures forall k {:trigger IoOn(ss[k], es[k], r)} | from <= k < to :: !IoOn(ss[k], es[k], r)
  {
    if from < to {
      CancelledIsNeverRun(ss, es, from, to - 1, r);
      CancelledRunStep(ss, es, to - 1, r);
    }
  }

  lemma CancelledRunStep(ss: seq<State>, es: seq<Event>, k: nat, r: nat)
    requires IsRun(ss, es) && k < |es| && CancelledInTime(ss[k], r)
    ensures CancelledInTime(ss[k + 1], r) && !IoOn(ss[k], es[k], r)
  {
    InvThroughoutRun(ss, es, k);
    assert StepAt(ss, es, k);
    IdleMeansNoIo(ss[k], es[k], r);
    CancelledStaysIdle(ss[k], es[k], r);
  }
}
