// What every step of the accessor keeps about one request, whatever the order of the steps: where the request stands
// between queue and worker decides what its fields can be.

module RequestInvariants {
  import opened Common
  import P = PoolProtocol
  import PI = PoolInvariants
  import Shutdown
  import opened Lifecycle

  /** Where a request stands: not in the queue, queued or just taken, inside its task function, or finished. */
  datatype Place = NotQueued | Queued | At(stage: P.Stage) | Finished {
    /** The worker has not yet written its verdict into status. */
    predicate Unpublished() {
      Queued? || (At? && P.StageWeight(stage) >= P.StageWeight(P.Publishing(true, None)))
    }

    /** The task function has cleaned up, or returned at its first check. */
    predicate Settled() {
      Finished? || (At? && stage.Returning?)
    }
  }

  ghost function PlaceOf(p: P.Pool, i: nat): Place
    requires i < |p.log|
  {
    var x := p.log[i];
    if x.runs > 0 then Finished
    else if x.taker.Some? && x.taker.value < |p.workers| && p.workers[x.taker.value].phase.Running?
            && p.workers[x.taker.value].phase.i == i then
      At(p.workers[x.taker.value].phase.stage)
    else Queued
  }

  /** The one queue entry whose place a step of the pool changes, and its new place. */
  ghost function Touched(p: P.Pool, e: P.Event): Option<(nat, Place)>
    requires P.Enabled(p, e)
  {
    match e
    case Move(w, stage) => Some((p.workers[w].phase.i, At(stage)))
    case CountBusy(w) => Some((p.workers[w].phase.i, At(P.FirstCheck)))
    case CountIdle(w) => Some((p.workers[w].phase.i, Finished))
    case _ => None
  }

  lemma PlacesAfterStep(p: P.Pool, e: P.Event, i: nat)
    requires PI.HoldersInv(p) && P.Enabled(p, e) && i < |p.log|
    ensures i < |P.Step(p, e).log|
    ensures PlaceOf(P.Step(p, e), i) ==
            if Touched(p, e).Some? && Touched(p, e).value.0 == i then Touched(p, e).value.1 else PlaceOf(p, i)
  {
    if Touched(p, e).Some? && Touched(p, e).value.0 == i {
      TouchedPlace(p, e, i);
    } else {
      UntouchedPlace(p, e, i);
    }
  }

  lemma TouchedPlace(p: P.Pool, e: P.Event, i: nat)
    requires PI.HoldersInv(p) && P.Enabled(p, e) && i < |p.log|
    requires Touched(p, e).Some? && Touched(p, e).value.0 == i
    ensures PlaceOf(P.Step(p, e), i) == Touched(p, e).value.1
  {
  }

  lemma UntouchedPlace(p: P.Pool, e: P.Event, i: nat)
    requires PI.HoldersInv(p) && P.Enabled(p, e) && i < |p.log|
    requires Touched(p, e).Some? ==> Touched(p, e).value.0 != i
    ensures i < |P.Step(p, e).log|
    ensures PlaceOf(P.Step(p, e), i) == PlaceOf(p, i)
  {
  }

  ghost function PlaceIn(s: State, r: nat): Place {
    if r in s.pool.slots && s.pool.slots[r] < |s.pool.log| then PlaceOf(s.pool, s.pool.slots[r]) else NotQueued
  }

  /** The queue holds exactly the requests whose put has appended them. */
  ghost predicate QueueInv(s: State) {
    forall r: nat {:trigger r in s.pool.slots} :: r in s.pool.slots <==> r < |s.reqs| && s.reqs[r].Accepted()
  }

  /** Buffers and directions fit; only the task functions of a write unmap its buffer. */
  ghost predicate BufferOk(q: Request, pl: Place) {
    && (q.buf.Mapped? ==> q.dir == Write)
    && (q.buf.Caller? ==> q.dir == Read && q.prep == Prepared)
    && (q.dir == Read && (q.put == Gated || q.Accepted()) ==> q.buf.Caller?)
    && (pl.Settled() ==> !q.buf.Mapped?)
    && (q.dir == Write && q.prep == Prepared && !pl.Settled() ==> q.buf.Mapped?)
    && (q.prep == Unprepared ==> q.put != NotPut || !q.buf.Mapped?)
  }

  /** The descriptor is closed by the clean-up and by nothing else; a skipped request is never cleaned up. */
  ghost predicate DescriptorOk(q: Request, pl: Place) {
    if pl.Settled() && !q.skipped then q.fd == (if q.fd0 > 0 then -1 else q.fd0)
    else q.fd == q.fd0 && (q.skipped ==> pl.Settled())
  }

  ghost predicate StageOk(q: Request, pl: Place) {
    pl.At? ==>
      match pl.stage
      case Mapping(k) => q.dir == Read && k <= MAX_RETRY_TIMES
      case Copying(_) => q.dir == Read
      case Syncing => q.dir == Write
      case Publishing(ok, tmp) => tmp.Some? <==> q.dir == Read && ok
      case Cleaning(tmp) => tmp.Some? ==> q.dir == Read
      case _ => true
  }

  /** The status a request is put with: IOFAIL if no buffer could be prepared. */
  ghost function FirstStatus(q: Request): Status {
    if q.prep == PrepFailed then IoFail else Init
  }

  /** Status against progress. Before SUBMITTED is written only the worker's verdict changes it; afterwards only that
      verdict and the cancellers. */
  ghost predicate StatusOk(q: Request, pl: Place) {
    match q.put
    case NotPut => q.status == FirstStatus(q)
    case Gated => q.status == FirstStatus(q)
    case Enqueued => if pl.Unpublished() then q.status == FirstStatus(q) else q.status == IoSuccess || q.status == IoFail
    case Put => q.status != Init && (pl.Unpublished() ==> q.status == Submitted || q.status == Cancel)
    case Rejected => q.status == Cancel
  }

  ghost predicate RequestOk(q: Request, pl: Place) {
    && (pl.NotQueued? <==> !q.Accepted())
    && BufferOk(q, pl) && DescriptorOk(q, pl) && StageOk(q, pl) && StatusOk(q, pl)
  }

  ghost predicate RequestsOk(s: State) {
    forall r | 0 <= r < |s.reqs| :: RequestOk(s.reqs[r], PlaceIn(s, r))
  }

  ghost predicate Core(s: State) {
    Shutdown.PoolInv(s.pool) && QueueInv(s) && RequestsOk(s)
  }

  // ---------------------------------------------------------------- preservation

  /** The pool after a step. */
  lemma PoolAfterStep(s: State, e: Event)
    requires Enabled(s, e)
    ensures if PoolPart(s, e).Some? then P.Enabled(s.pool, PoolPart(s, e).value) &&
                                        Step(s, e).pool == P.Step(s.pool, PoolPart(s, e).value)
            else Step(s, e).pool == s.pool
    ensures PoolPart(s, e).Some? && PoolPart(s, e).value.Submit? && PoolPart(s, e).value.task.Work? <==> e.PutAppend?
  {
    hide MapsStep, FdsStep, FilesStep, WaitersStep, RequestsStep, P.Enabled, P.Step;
  }

  lemma SlotsAfterPoolStep(p: P.Pool, e: P.Event)
    requires P.Enabled(p, e)
    ensures P.Step(p, e).slots == if e.Submit? && e.task.Work? then p.slots[e.task.req := |p.log|] else p.slots
    ensures |p.log| <= |P.Step(p, e).log|
    ensures e.Submit? ==> P.Step(p, e).log == p.log + [P.Entry(e.task, None, 0)]
  {
  }

  lemma SlotsAfterStep(s: State, e: Event)
    requires Enabled(s, e)
    ensures Step(s, e).pool.slots == if e.PutAppend? then s.pool.slots[e.r := |s.pool.log|] else s.pool.slots
    ensures |s.pool.log| <= |Step(s, e).pool.log|
    ensures e.PutAppend? ==> Step(s, e).pool.log == s.pool.log + [P.Entry(P.Work(e.r), None, 0)]
  {
    hide MapsStep, FdsStep, FilesStep, WaitersStep, RequestsStep;
    if PoolPart(s, e).Some? {
      SlotsAfterPoolStep(s.pool, PoolPart(s, e).value);
    }
  }

  /** Requests come from GetRequest only, and only the append makes one accepted. */
  lemma AcceptedAfterStep(s: State, e: Event)
    requires Enabled(s, e)
    ensures |Step(s, e).reqs| == |s.reqs| + (if e.GetRequest? then 1 else 0)
    ensures forall r | 0 <= r < |s.reqs| ::
              Step(s, e).reqs[r].Accepted() <==> s.reqs[r].Accepted() || (e.PutAppend? && e.r == r)
    ensures e.GetRequest? ==> !Step(s, e).reqs[|s.reqs|].Accepted()
  {
    assert Step(s, e).reqs == RequestsStep(s, e);
    hide Lifecycle.Step, RequestStep;
    if Target(s, e).Some? {
      AcceptedTarget(s, e);
    }
  }

  lemma AcceptedTarget(s: State, e: Event)
    requires Guard(s, e) && Target(s, e).Some?
    ensures RequestStep(s, e).Accepted() <==> s.reqs[Target(s, e).value].Accepted() || e.PutAppend?
    ensures e.PutAppend? ==> Target(s, e) == Some(e.r)
  {
  }

  lemma StepKeepsQueueInv(s: State, e: Event)
    requires QueueInv(s) && Enabled(s, e)
    ensures QueueInv(Step(s, e))
  {
    SlotsAfterStep(s, e);
    AcceptedAfterStep(s, e);
  }

  /** The place of a request after a step. */
  ghost function NextPlace(s: State, e: Event, r: nat): Place
    requires Enabled(s, e)
  {
    if e.PutAppend? && e.r == r then Queued
    else if PoolPart(s, e).Some? && r in s.pool.slots && Touched(s.pool, PoolPart(s, e).value).Some?
         && Touched(s.pool, PoolPart(s, e).value).value.0 == s.pool.slots[r] then
      Touched(s.pool, PoolPart(s, e).value).value.1
    else PlaceIn(s, r)
  }

  lemma PlaceAfterStep(s: State, e: Event, r: nat)
    requires Core(s) && Enabled(s, e)
    ensures PlaceIn(Step(s, e), r) == NextPlace(s, e, r)
  {
    hide MapsStep, FdsStep, FilesStep, WaitersStep, RequestsStep, QueueInv, RequestsOk;
    SlotsAfterStep(s, e);
    if r in s.pool.slots {
      assert s.pool.slots[r] < |s.pool.log|;
      if PoolPart(s, e).Some? {
        PlacesAfterStep(s.pool, PoolPart(s, e).value, s.pool.slots[r]);
      }
    }
  }

  /** A worker inside a task function works on the request whose queue entry it took. */
  lemma WorkingPlace(s: State, w: nat)
    requires Core(s) && w < |s.pool.workers| && s.pool.workers[w].phase.Running?
    ensures Works(s, w)
    ensures Job(s, w) in s.pool.slots && s.pool.slots[Job(s, w)] == s.pool.workers[w].phase.i
    ensures PlaceIn(s, Job(s, w)) == At(s.pool.workers[w].phase.stage)
    ensures s.reqs[Job(s, w)].Accepted()
  {
  }

  /** The steps of mmapRead and mmapWrite. */
  predicate TaskStep(e: Event) {
    e.FirstLook? || e.TryMap? || e.CopyOut? || e.Sync? || e.Publish? || e.Cleanup?
  }

  lemma TaskStepsMove(s: State, e: Event)
    requires Guard(s, e)
    ensures TaskStep(e) <==> PoolPart(s, e).Some? && PoolPart(s, e).value.Move?
    ensures TaskStep(e) ==> PoolPart(s, e).value.w == e.w && Works(s, e.w)
    ensures TaskStep(e) && Target(s, e).Some? ==> Target(s, e).value == Job(s, e.w)
  {
  }

  /** A request after a step. */
  ghost function NextRequest(s: State, e: Event, r: nat): Request
    requires Guard(s, e) && r < |s.reqs|
  {
    if Target(s, e) == Some(r) then RequestStep(s, e) else s.reqs[r]
  }

  lemma RequestAfterStep(s: State, e: Event, r: nat)
    requires Enabled(s, e) && r < |s.reqs|
    ensures r < |Step(s, e).reqs| && Step(s, e).reqs[r] == NextRequest(s, e, r)
  {
  }

  /** Two queue entries are never for the same request. */
  lemma OneEntryPerRequest(s: State, r: nat, w: nat)
    requires Core(s) && Works(s, w) && r in s.pool.slots && s.pool.slots[r] == s.pool.workers[w].phase.i
    ensures r == Job(s, w)
  {
  }

  /** The steps with which a task function writes to its request. */
  predicate TaskWrites(e: Event) {
    e.FirstLook? || e.CopyOut? || e.Publish? || e.Cleanup?
  }

  /** The request a step writes to stays well-formed, in its new place. */
  lemma TargetStaysOk(s: State, e: Event, r: nat)
    requires Core(s) && Enabled(s, e) && Target(s, e) == Some(r)
    ensures RequestOk(RequestStep(s, e), NextPlace(s, e, r))
  {
    if TaskWrites(e) {
      WorkingPlace(s, e.w);
      TaskTargetStaysOk(s, e, r);
    } else {
      CallerTargetStaysOk(s, e, r);
    }
  }

  lemma TaskTargetStaysOk(s: State, e: Event, r: nat)
    requires Enabled(s, e) && TaskWrites(e) && Target(s, e) == Some(r)
    requires r in s.pool.slots && s.pool.slots[r] == s.pool.workers[e.w].phase.i
    requires PlaceIn(s, r) == At(StageOf(s, e.w)) && RequestOk(s.reqs[r], PlaceIn(s, r))
    ensures RequestOk(RequestStep(s, e), NextPlace(s, e, r))
  {
    StageTargetStaysOk(s, e, e.w, PlaceIn(s, r));
  }

  lemma StageTargetStaysOk(s: State, e: Event, w: nat, pl: Place)
    requires Enabled(s, e) && TaskWrites(e) && e.w == w
    requires pl == At(StageOf(s, w)) && RequestOk(s.reqs[Job(s, w)], pl)
    ensures PoolPart(s, e).Some? && PoolPart(s, e).value.Move? && PoolPart(s, e).value.w == w
    ensures RequestOk(RequestStep(s, e), At(PoolPart(s, e).value.stage))
  {
  }

  lemma CallerTargetStaysOk(s: State, e: Event, r: nat)
    requires Enabled(s, e) && Target(s, e) == Some(r) && RequestOk(s.reqs[r], PlaceIn(s, r))
    requires !TaskWrites(e)
    ensures RequestOk(RequestStep(s, e), NextPlace(s, e, r))
  {
    assert e.PutAppend? || NextPlace(s, e, r) == PlaceIn(s, r);
  }

  /** The request a step writes to is well-formed before, and a task function writes to the request its worker is in. */
  lemma TargetPlace(s: State, e: Event, r: nat)
    requires Core(s) && Enabled(s, e) && Target(s, e) == Some(r)
    ensures RequestOk(s.reqs[r], PlaceIn(s, r))
    ensures TaskWrites(e) ==> Works(s, e.w) && PlaceIn(s, r) == At(StageOf(s, e.w))
  {
    if TaskWrites(e) {
      TaskStepsMove(s, e);
      WorkingPlace(s, e.w);
    }
  }

  /** How a request can move without being written to: its worker starts it, or goes from stage to stage. */
  lemma SilentMoves(s: State, e: Event, r: nat)
    requires Core(s) && Enabled(s, e) && r < |s.reqs| && NextPlace(s, e, r) != PlaceIn(s, r) && !e.PutAppend?
    ensures e.WorkerBusy? || e.WorkerIdle? || TaskStep(e)
    ensures e.WorkerBusy? ==> PlaceIn(s, r) == Queued && NextPlace(s, e, r) == At(P.FirstCheck)
    ensures !e.WorkerBusy? ==> Works(s, e.w) && r == Job(s, e.w) && PlaceIn(s, r) == At(StageOf(s, e.w))
  {
    MoverHolds(s, e, r);
    if e.WorkerBusy? {
      TakenIsQueued(s, e.w, r);
    } else {
      WorkingPlace(s, e.w);
      OneEntryPerRequest(s, r, e.w);
    }
  }

  lemma MoverHolds(s: State, e: Event, r: nat)
    requires Enabled(s, e) && NextPlace(s, e, r) != PlaceIn(s, r) && !e.PutAppend?
    ensures e.WorkerBusy? || e.WorkerIdle? || TaskStep(e)
    ensures e.w < |s.pool.workers| && r in s.pool.slots
    ensures s.pool.workers[e.w].phase.Holding? || s.pool.workers[e.w].phase.Running?
    ensures s.pool.slots[r] == s.pool.workers[e.w].phase.i
    ensures if e.WorkerBusy? then s.pool.workers[e.w].phase.Holding? && NextPlace(s, e, r) == At(P.FirstCheck)
            else s.pool.workers[e.w].phase.Running?
  {
  }

  /** A request the step does not write to stays well-formed too, though its worker may move on. */
  lemma OthersStayOk(s: State, e: Event, r: nat)
    requires Core(s) && Enabled(s, e) && r < |s.reqs| && Target(s, e) != Some(r)
    ensures RequestOk(s.reqs[r], NextPlace(s, e, r))
  {
    if NextPlace(s, e, r) != PlaceIn(s, r) {
      SilentMoves(s, e, r);
      SilentMovesOk(s, e, r);
    }
  }

  lemma SilentMovesOk(s: State, e: Event, r: nat)
    requires Enabled(s, e) && r < |s.reqs| && Target(s, e) != Some(r)
    requires NextPlace(s, e, r) != PlaceIn(s, r) && RequestOk(s.reqs[r], PlaceIn(s, r))
    requires e.WorkerBusy? || e.WorkerIdle? || TaskStep(e)
    requires e.WorkerBusy? ==> PlaceIn(s, r) == Queued && NextPlace(s, e, r) == At(P.FirstCheck)
    requires !e.WorkerBusy? ==> Works(s, e.w) && r == Job(s, e.w) && PlaceIn(s, r) == At(StageOf(s, e.w))
    ensures RequestOk(s.reqs[r], NextPlace(s, e, r))
  {
    if e.WorkerBusy? {
      assert NextPlace(s, e, r) == At(P.FirstCheck);
    } else if e.WorkerIdle? {
      assert NextPlace(s, e, r) == Finished;
    } else {
      assert e.TryMap? || e.Sync?;
    }
  }

  /** A task its worker holds but has not started is still in its queued place. */
  lemma TakenIsQueued(s: State, w: nat, r: nat)
    requires Core(s) && w < |s.pool.workers| && s.pool.workers[w].phase.Holding?
    requires r in s.pool.slots && s.pool.slots[r] == s.pool.workers[w].phase.i
    ensures PlaceIn(s, r) == Queued
  {
    assert s.pool.workers[w].Held() == Some(s.pool.workers[w].phase.i);
  }

  /** A request just handed out is new, and not queued. */
  lemma NewcomerAfterStep(s: State, e: Event, r: nat)
    requires QueueInv(s) && Enabled(s, e) && |s.reqs| <= r < |Step(s, e).reqs|
    ensures r == |s.reqs| && e.GetRequest? && Step(s, e).reqs[r] == NewRequest(e) && NextPlace(s, e, r) == NotQueued
  {
    assert Step(s, e).reqs == RequestsStep(s, e);
    hide Lifecycle.Step;
    assert r !in s.pool.slots;
  }

  lemma NewRequestOk(e: Event)
    requires e.GetRequest?
    ensures RequestOk(NewRequest(e), NotQueued)
  {
  }

  lemma StepKeepsRequestsOk(s: State, e: Event)
    requires Core(s) && Enabled(s, e)
    ensures RequestsOk(Step(s, e))
  {
    hide RequestOk, Shutdown.PoolInv, PlaceIn, NextPlace, QueueInv, Lifecycle.Step;
    var s' := Step(s, e);
    AcceptedAfterStep(s, e);
    forall r | 0 <= r < |s'.reqs|
      ensures RequestOk(s'.reqs[r], PlaceIn(s', r))
    {
      PlaceAfterStep(s, e, r);
      if r >= |s.reqs| {
        NewcomerAfterStep(s, e, r);
        NewRequestOk(e);
      } else {
        RequestAfterStep(s, e, r);
        if Target(s, e) == Some(r) {
          TargetStaysOk(s, e, r);
        } else {
          OthersStayOk(s, e, r);
        }
      }
    }
  }

  lemma StepKeepsCore(s: State, e: Event)
    requires Core(s) && Enabled(s, e)
    ensures Core(Step(s, e))
  {
    hide MapsStep, FdsStep, FilesStep, WaitersStep, RequestsStep, QueueInv, RequestsOk;
    if PoolPart(s, e).Some? {
      Shutdown.StepKeepsPoolInv(s.pool, PoolPart(s, e).value);
    }
    StepKeepsQueueInv(s, e);
    StepKeepsRequestsOk(s, e);
  }

  lemma EmptyCore(s: State)
    requires Shutdown.PoolInv(s.pool) && s.pool.slots == map[] && s.reqs == []
    ensures Core(s)
  {
  }

  lemma InitialCore(s: State)
    requires Initial(s)
    ensures Core(s)
  {
    Shutdown.InitialPoolInv();
    EmptyCore(s);
  }
}
