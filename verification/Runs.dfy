// Facts about whole runs of the accessor, for every order of the steps.

module Runs {
  import opened Common
  import P = PoolProtocol
  import PC = PoolCounters
  import Shutdown
  import opened Lifecycle
  import opened RequestInvariants
  import opened Resources

  /** What holds in every reachable state, whatever the callers do and however the threads are scheduled. */
  ghost predicate Inv(s: State) {
    Core(s) && MapsInv(s) && FdsInv(s)
  }

  lemma StepKeepsInv(s: State, e: Event)
    requires Inv(s) && Enabled(s, e)
    ensures Inv(Step(s, e))
  {
    StepKeepsCore(s, e);
    StepKeepsMaps(s, e);
    StepKeepsFds(s, e);
  }

  lemma {:induction false} InvThroughoutRun(ss: seq<State>, es: seq<Event>, k: nat)
    requires IsRun(ss, es) && k <= |es|
    ensures Inv(ss[k])
  {
    hide Core, MapsInv, FdsInv, Lifecycle.Enabled, Lifecycle.Step, Initial;
    if k == 0 {
      InitialCore(ss[0]);
      InitialTables(ss[0]);
    } else {
      InvThroughoutRun(ss, es, k - 1);
      assert StepAt(ss, es, k - 1);
      StepKeepsInv(ss[k - 1], es[k - 1]);
    }
  }

  lemma InitialTables(s: State)
    requires Initial(s)
    ensures MapsInv(s) && FdsInv(s)
  {
  }

  // ---------------------------------------------------------------- the pool in every reachable state

  /** No wake-up of a worker is lost: while a worker sleeps, every queued task has a woken worker on its way to it, so a
      queue with something to do never meets a pool whose live workers are all asleep, not even during shutdown. */
  lemma WorkersNotForgotten(ss: seq<State>, es: seq<Event>, k: nat, w: nat)
    requires IsRun(ss, es) && k <= |es|
    requires w < |ss[k].pool.workers| && ss[k].pool.workers[w].phase.Asleep?
    ensures ss[k].pool.Todo() <= Sum(ss[k].pool.workers, PC.WokenUp)
    ensures ss[k].pool.Todo() > 0 ==> exists v | 0 <= v < |ss[k].pool.workers| :: ss[k].pool.workers[v].phase.Woken?
  {
    InvThroughoutRun(ss, es, k);
    assert P.IsAsleep(ss[k].pool.workers[w]);
    if ss[k].pool.Todo() > 0 {
      var v := PC.NoLostWakeup(ss[k].pool, w);
    }
  }

  /** The thread counters are exact, small, and never wrap; indices of workers are distinct and below five. */
  lemma CountersExact(ss: seq<State>, es: seq<Event>, k: nat)
    requires IsRun(ss, es) && k <= |es|
    ensures var p := ss[k].pool;
            && p.busy == Sum(p.workers, PC.Busy) && p.alive == Sum(p.workers, PC.Alive)
            && p.busy + p.idle == p.alive <= P.THREAD_POOL_SIZE
            && (forall v, w | 0 <= v < w < |p.workers| && p.workers[v].idx.Some? && p.workers[w].idx.Some? ::
                  p.workers[v].idx != p.workers[w].idx)
            && (forall w | 0 <= w < |p.workers| && p.workers[w].idx.Some? :: p.workers[w].idx.value < P.THREAD_POOL_SIZE)
  {
    InvThroughoutRun(ss, es, k);
    PC.CountersFit(ss[k].pool.workers);
  }

  /** A worker that holds a sentinel finds isRunning off, so it leaves its loop and never calls the null function. */
  lemma SentinelsFindThePoolClosed(ss: seq<State>, es: seq<Event>, k: nat, w: nat)
    requires IsRun(ss, es) && k <= |es|
    requires w < |ss[k].pool.workers| && ss[k].pool.workers[w].phase.Holding?
    ensures ss[k].pool.workers[w].phase.i < |ss[k].pool.log|
    ensures ss[k].pool.log[ss[k].pool.workers[w].phase.i].task.Sentinel? ==>
              Next(ss[k], WorkerExit(w)).Some? && Next(ss[k], WorkerBusy(w)).None?
  {
    InvThroughoutRun(ss, es, k);
    HolderIsInQueue(ss[k].pool, w);
    SentinelEndsWorker(ss[k], w);
  }

  lemma HolderIsInQueue(p: P.Pool, w: nat)
    requires Shutdown.PoolInv(p) && w < |p.workers| && p.workers[w].phase.Holding?
    ensures p.workers[w].phase.i < |p.log|
    ensures p.log[p.workers[w].phase.i].task.Sentinel? ==> !p.isRunning
  {
  }

  lemma SentinelEndsWorker(s: State, w: nat)
    requires w < |s.pool.workers| && s.pool.workers[w].phase.Holding? && s.pool.workers[w].phase.i < |s.pool.log|
    requires s.pool.log[s.pool.workers[w].phase.i].task.Sentinel? ==> !s.pool.isRunning
    ensures s.pool.log[s.pool.workers[w].phase.i].task.Sentinel? ==>
              Next(s, WorkerExit(w)).Some? && Next(s, WorkerBusy(w)).None?
  {
  }

  // ---------------------------------------------------------------- nothing is unmapped or closed twice

  ghost function Allocations(r: nat): (State, Event) -> nat {
    (s, e) => if Guard(s, e) && ChangeOf(s, e).Acquire? && ChangeOf(s, e).o == OfRequest(r) then 1 else 0
  }

  /** The munmap a step calls, if it calls one on a pointer that is not null: for whom, and at which address. */
  ghost function MunmapCall(s: State, e: Event): Option<(Owner, nat)>
    requires Guard(s, e)
  {
    match e
    case PutGate(r) =>
      if !s.pool.isRunning && s.reqs[r].buf.Mapped? then Some((OfRequest(r), s.reqs[r].buf.addr)) else None
    case FirstLook(w) =>
      var q := s.reqs[Job(s, w)];
      if q.status == Cancel && q.dir == Write && q.buf.Mapped? then Some((OfRequest(Job(s, w)), q.buf.addr)) else None
    case Cleanup(w) =>
      var q := s.reqs[Job(s, w)];
      if q.dir == Write then (if q.buf.Mapped? then Some((OfRequest(Job(s, w)), q.buf.addr)) else None)
      else if StageOf(s, w).tmp.Some? then Some((OfWorker(w), StageOf(s, w).tmp.value))
      else None
    case _ => None
  }

  ghost function Unmappings(r: nat): (State, Event) -> nat {
    (s, e) => if Guard(s, e) && MunmapCall(s, e).Some? && MunmapCall(s, e).value.0 == OfRequest(r) then 1 else 0
  }

  ghost function Closes(r: nat): (State, Event) -> nat {
    (s, e) => if Guard(s, e) && e.Cleanup? && Job(s, e.w) == r && s.reqs[r].fd > 0 then 1 else 0
  }

  /** Conservation of mappings: over any run, munmap has been called on the buffer of a request as often as it has been
      mapped, once at most, except that one mapping is left exactly while the request owns it. */
  lemma {:induction false} MappingsConserved(ss: seq<State>, es: seq<Event>, k: nat, r: nat)
    requires IsRun(ss, es) && k <= |es|
    ensures Count(ss, es, 0, k, Allocations(r)) ==
            Count(ss, es, 0, k, Unmappings(r)) + if Owns(ss[k], OfRequest(r)).Some? then 1 else 0
    ensures Count(ss, es, 0, k, Allocations(r)) <= 1
    ensures r >= |ss[k].reqs| || ss[k].reqs[r].prep == Unprepared ==> Count(ss, es, 0, k, Allocations(r)) == 0
  {
    hide Inv, Lifecycle.Enabled, Lifecycle.Step, Unmappings, Owns;
    if k == 0 {
      NothingOwnedYet(ss[0], r);
    } else {
      MappingsConserved(ss, es, k - 1, r);
      InvThroughoutRun(ss, es, k - 1);
      assert StepAt(ss, es, k - 1);
      MappingBalance(ss[k - 1], es[k - 1], r);
      AllocationsPrepare(ss[k - 1], es[k - 1], r);
    }
  }

  lemma NothingOwnedYet(s: State, r: nat)
    requires Initial(s)
    ensures Owns(s, OfRequest(r)).None?
  {
  }

  lemma MappingBalance(s: State, e: Event, r: nat)
    requires Inv(s) && Enabled(s, e)
    ensures Allocations(r)(s, e) + (if Owns(s, OfRequest(r)).Some? then 1 else 0) ==
            Unmappings(r)(s, e) + (if Owns(Step(s, e), OfRequest(r)).Some? then 1 else 0)
  {
    RequestOwnsNext(s, e, r);
    MapsFollowOwners(s, e);
    CallsAreDrops(s, e);
  }

  /** A step calls munmap exactly when an owner gives up what it owns. */
  lemma CallsAreDrops(s: State, e: Event)
    requires Inv(s) && Enabled(s, e)
    ensures MunmapCall(s, e) ==
            if ChangeOf(s, e).Drop? && Owns(s, ChangeOf(s, e).o).Some?
            then Some((ChangeOf(s, e).o, Owns(s, ChangeOf(s, e).o).value)) else None
  {
    if Target(s, e).Some? {
      TargetPlace(s, e, Target(s, e).value);
      TargetCallsAreDrops(s, e, Target(s, e).value);
    } else {
      NoTargetCalls(s, e);
    }
  }

  lemma TargetCallsAreDrops(s: State, e: Event, r: nat)
    requires Enabled(s, e) && Target(s, e) == Some(r) && RequestOk(s.reqs[r], PlaceIn(s, r))
    requires TaskWrites(e) ==> Works(s, e.w) && PlaceIn(s, r) == At(StageOf(s, e.w))
    ensures MunmapCall(s, e) ==
            if ChangeOf(s, e).Drop? && Owns(s, ChangeOf(s, e).o).Some?
            then Some((ChangeOf(s, e).o, Owns(s, ChangeOf(s, e).o).value)) else None
  {
  }

  lemma NoTargetCalls(s: State, e: Event)
    requires Enabled(s, e) && Target(s, e).None?
    ensures MunmapCall(s, e).None? && !ChangeOf(s, e).Drop?
  {
  }

  lemma AllocationsPrepare(s: State, e: Event, r: nat)
    requires Enabled(s, e)
    ensures |s.reqs| <= |Step(s, e).reqs|
    ensures r < |s.reqs| && s.reqs[r].prep != Unprepared ==> Step(s, e).reqs[r].prep != Unprepared
    ensures Allocations(r)(s, e) == 1 ==>
              r < |s.reqs| && s.reqs[r].prep == Unprepared && Step(s, e).reqs[r].prep != Unprepared
  {
    if Target(s, e).Some? {
      assert RequestStep(s, e).prep == s.reqs[Target(s, e).value].prep || RequestStep(s, e).prep != Unprepared;
    }
  }

  /** Every munmap of a pointer that is not null, and every close, hits an address or descriptor that the kernel still has
      for that very owner, and takes it away: nothing is unmapped or closed twice, and nothing of anybody else's. */
  lemma ReleasesAreOwned(s: State, e: Event)
    requires Inv(s) && Enabled(s, e)
    ensures MunmapCall(s, e).Some? ==>
              var (o, a) := MunmapCall(s, e).value;
              Owns(s, o) == Some(a) && a in s.maps && s.maps[a] == o && a !in Step(s, e).maps
    ensures e.Cleanup? && s.reqs[Job(s, e.w)].fd > 0 ==>
              var fd := s.reqs[Job(s, e.w)].fd;
              fd in s.fds && s.fds[fd] == Job(s, e.w) && fd !in Step(s, e).fds
  {
    CallsAreDrops(s, e);
    MapsFollowOwners(s, e);
    ClosesAreOwned(s, e);
  }

  lemma ClosesAreOwned(s: State, e: Event)
    requires FdsInv(s) && Enabled(s, e)
    ensures e.Cleanup? && s.reqs[Job(s, e.w)].fd > 0 ==>
              var fd := s.reqs[Job(s, e.w)].fd;
              fd in s.fds && s.fds[fd] == Job(s, e.w) && fd !in Step(s, e).fds
  {
  }

  /** A task function works on what the kernel still has: it maps through the request's open descriptor, copies from its
      own live mapping into the caller's memory, and syncs a live mapping of the request unless none could be made. */
  lemma IoIsOnLiveResources(s: State, e: Event)
    requires Inv(s) && Enabled(s, e) && (e.TryMap? || e.CopyOut? || e.Sync?)
    ensures Works(s, e.w)
    ensures e.TryMap? ==>
              var r := Job(s, e.w);
              s.reqs[r].dir == Read && s.reqs[r].fd in s.fds && s.fds[s.reqs[r].fd] == r
    ensures e.CopyOut? ==>
              var q, a := s.reqs[Job(s, e.w)], StageOf(s, e.w).addr;
              q.dir == Read && q.buf.Caller? && a in s.maps && s.maps[a] == OfWorker(e.w)
    ensures e.Sync? && s.reqs[Job(s, e.w)].prep == Prepared ==>
              var r := Job(s, e.w);
              var q := s.reqs[r];
              q.dir == Write && q.buf.Mapped? && q.buf.addr in s.maps && s.maps[q.buf.addr] == OfRequest(r)
  {
    hide MapsInv, FdsInv, Core, RequestOk;
    WorkingPlace(s, e.w);
    var r := Job(s, e.w);
    KnownOk(s, r);
    WorkingBuffer(s.reqs[r], StageOf(s, e.w));
    OwnedIsLive(s, OfWorker(e.w));
    OwnedIsLive(s, OfRequest(r));
    DescriptorIsOpen(s, r);
  }

  lemma KnownOk(s: State, r: nat)
    requires Core(s) && r < |s.reqs|
    ensures RequestOk(s.reqs[r], PlaceIn(s, r))
  {
  }

  lemma WorkingBuffer(q: Request, stage: P.Stage)
    requires RequestOk(q, At(stage)) && q.Accepted()
    ensures stage.Mapping? || stage.Copying? ==> q.dir == Read && q.buf.Caller? && q.fd == q.fd0
    ensures stage.Syncing? ==> q.dir == Write && (q.prep == Prepared ==> q.buf.Mapped?)
  {
  }

  lemma OwnedIsLive(s: State, o: Owner)
    requires MapsInv(s)
    ensures Owns(s, o).Some? ==> Owns(s, o).value in s.maps && s.maps[Owns(s, o).value] == o
  {
  }

  lemma DescriptorIsOpen(s: State, r: nat)
    requires FdsInv(s) && r < |s.reqs|
    ensures s.reqs[r].fd >= 0 ==> s.reqs[r].fd in s.fds && s.fds[s.reqs[r].fd] == r
  {
  }

  /** No descriptor of a request is closed twice: one close at most, and exactly one iff the field has been reset. */
  lemma {:induction false} ClosedAtMostOnce(ss: seq<State>, es: seq<Event>, k: nat, r: nat)
    requires IsRun(ss, es) && k <= |es|
    ensures Count(ss, es, 0, k, Closes(r)) == if r < |ss[k].reqs| && ss[k].reqs[r].fd == -1 then 1 else 0
  {
    if k > 0 {
      ClosedAtMostOnce(ss, es, k - 1, r);
      InvThroughoutRun(ss, es, k - 1);
      assert StepAt(ss, es, k - 1);
      ClosesReset(ss[k - 1], es[k - 1], r);
    }
  }

  lemma ClosesReset(s: State, e: Event, r: nat)
    requires Core(s) && Enabled(s, e)
    ensures r < |Step(s, e).reqs| && Step(s, e).reqs[r].fd == -1 <==>
            (r < |s.reqs| && s.reqs[r].fd == -1) || Closes(r)(s, e) == 1
    ensures Closes(r)(s, e) == 1 ==> r < |s.reqs| && s.reqs[r].fd != -1
  {
    hide Lifecycle.Step, Closes, QueueInv, Shutdown.PoolInv;
    if Target(s, e) == Some(r) {
      TargetPlace(s, e, r);
      RequestAfterStep(s, e, r);
      TargetClosesReset(s, e, r);
    } else {
      OtherClosesReset(s, e, r);
    }
  }

  lemma OtherClosesReset(s: State, e: Event, r: nat)
    requires Enabled(s, e) && Target(s, e) != Some(r)
    ensures Closes(r)(s, e) == 0
    ensures r < |Step(s, e).reqs| && Step(s, e).reqs[r].fd == -1 <==> r < |s.reqs| && s.reqs[r].fd == -1
  {
  }

  lemma TargetClosesReset(s: State, e: Event, r: nat)
    requires Enabled(s, e) && Target(s, e) == Some(r) && DescriptorOk(s.reqs[r], PlaceIn(s, r))
    requires TaskWrites(e) ==> Works(s, e.w) && PlaceIn(s, r) == At(StageOf(s, e.w))
    ensures RequestStep(s, e).fd == -1 <==> s.reqs[r].fd == -1 || Closes(r)(s, e) == 1
    ensures Closes(r)(s, e) == 1 ==> s.reqs[r].fd != -1
  {
  }
}
