// Mappings and descriptors: the kernel's tables hold exactly what the accessor still owns, so nothing is unmapped or
// closed twice, and after shutdown one can say exactly what is left.

module Resources {
  import opened Common
  import P = PoolProtocol
  import opened Lifecycle
  import opened RequestInvariants

  // ---------------------------------------------------------------- who owns what

  /** The mapping a worker has made for itself and not yet unmapped. */
  ghost function Tmp(x: P.Worker): Option<nat> {
    if x.phase.Running? then TmpAt(x.phase.stage) else None
  }

  ghost function TmpAt(st: P.Stage): Option<nat> {
    match st
    case Copying(a) => Some(a)
    case Publishing(_, tmp) => tmp
    case Cleaning(tmp) => tmp
    case _ => None
  }

  /** The mapping an owner has to give back. The buffer field of a rejected put is left dangling and owns nothing. */
  ghost function Owns(s: State, o: Owner): Option<nat> {
    match o
    case OfRequest(r) =>
      if r < |s.reqs| && s.reqs[r].buf.Mapped? && !s.reqs[r].put.Rejected? then Some(s.reqs[r].buf.addr) else None
    case OfWorker(w) => if w < |s.pool.workers| then Tmp(s.pool.workers[w]) else None
  }

  ghost predicate MapsInv(s: State) {
    && (forall o {:trigger Owns(s, o)} :: Owns(s, o).Some? ==> Owns(s, o).value in s.maps && s.maps[Owns(s, o).value] == o)
    && (forall a | a in s.maps :: Owns(s, s.maps[a]) == Some(a))
  }

  ghost predicate FdsInv(s: State) {
    && (forall r | 0 <= r < |s.reqs| && s.reqs[r].fd >= 0 :: s.reqs[r].fd in s.fds && s.fds[s.reqs[r].fd] == r)
    && (forall f | f in s.fds :: s.fds[f] < |s.reqs| && s.reqs[s.fds[f]].fd == f)
  }

  // ---------------------------------------------------------------- what a step does to the mappings

  datatype Change = Keep | Acquire(o: Owner, addr: nat) | Drop(o: Owner)

  ghost function ChangeOf(s: State, e: Event): Change
    requires Guard(s, e)
  {
    match e
    case AllocWriteBuf(r, addr) => if addr.Some? then Acquire(OfRequest(r), addr.value) else Keep
    case PutGate(r) => if s.pool.isRunning then Keep else Drop(OfRequest(r))
    case FirstLook(w) =>
      var q := s.reqs[Job(s, w)];
      if q.status == Cancel && q.dir == Write then Drop(OfRequest(Job(s, w))) else Keep
    case TryMap(w, addr) => if addr.Some? then Acquire(OfWorker(w), addr.value) else Keep
    case Cleanup(w) => Drop(if s.reqs[Job(s, w)].dir == Write then OfRequest(Job(s, w)) else OfWorker(w))
    case _ => Keep
  }

  ghost function OwnsNext(s: State, e: Event, o: Owner): Option<nat>
    requires Guard(s, e)
  {
    match ChangeOf(s, e)
    case Keep => Owns(s, o)
    case Acquire(o', a) => if o == o' then Some(a) else Owns(s, o)
    case Drop(o') => if o == o' then None else Owns(s, o)
  }

  lemma RequestOwnsNext(s: State, e: Event, r: nat)
    requires Core(s) && Enabled(s, e)
    ensures Owns(Step(s, e), OfRequest(r)) == OwnsNext(s, e, OfRequest(r))
  {
    if Target(s, e) == Some(r) {
      TargetPlace(s, e, r);
      TargetOwnsNext(s, e, r);
    } else {
      OtherOwnsNext(s, e, r);
    }
  }

  lemma OtherOwnsNext(s: State, e: Event, r: nat)
    requires Enabled(s, e) && Target(s, e) != Some(r)
    ensures Owns(Step(s, e), OfRequest(r)) == OwnsNext(s, e, OfRequest(r))
  {
  }

  lemma TargetOwnsNext(s: State, e: Event, r: nat)
    requires Enabled(s, e) && Target(s, e) == Some(r) && RequestOk(s.reqs[r], PlaceIn(s, r))
    requires TaskWrites(e) ==> PlaceIn(s, r) == At(StageOf(s, e.w))
    ensures Owns(Step(s, e), OfRequest(r)) == OwnsNext(s, e, OfRequest(r))
  {
    hide FdsStep, MapsStep, WaitersStep, FilesStep, PoolStep;
  }

  lemma TmpAfterPoolStep(p: P.Pool, e: P.Event, w: nat)
    requires P.Enabled(p, e) && w < |p.workers|
    ensures |P.Step(p, e).workers| == |p.workers|
    ensures Tmp(P.Step(p, e).workers[w]) == if e.Move? && e.w == w then TmpAt(e.stage) else Tmp(p.workers[w])
  {
  }

  lemma WorkerOwnsNext(s: State, e: Event, w: nat)
    requires Core(s) && Enabled(s, e)
    ensures Owns(Step(s, e), OfWorker(w)) == OwnsNext(s, e, OfWorker(w))
  {
    if TaskStep(e) && e.w == w {
      TaskStepsMove(s, e);
      WorkingPlace(s, w);
      MoverOwnsNext(s, e, w);
    } else {
      TaskStepsMove(s, e);
      StayerTmp(s, e, w);
      StayerOwnsNext(s, e, w);
    }
  }

  lemma StayerTmp(s: State, e: Event, w: nat)
    requires Enabled(s, e) && !(PoolPart(s, e).Some? && PoolPart(s, e).value.Move? && PoolPart(s, e).value.w == w)
    ensures |PoolStep(s, e).workers| == |s.pool.workers|
    ensures w < |s.pool.workers| ==> Tmp(PoolStep(s, e).workers[w]) == Tmp(s.pool.workers[w])
  {
    if PoolPart(s, e).Some? {
      if w < |s.pool.workers| {
        TmpAfterPoolStep(s.pool, PoolPart(s, e).value, w);
      } else {
        assert |P.Step(s.pool, PoolPart(s, e).value).workers| == |s.pool.workers|;
      }
    }
  }

  lemma StayerOwnsNext(s: State, e: Event, w: nat)
    requires Enabled(s, e) && !(TaskStep(e) && e.w == w) && |PoolStep(s, e).workers| == |s.pool.workers|
    requires w < |s.pool.workers| ==> Tmp(PoolStep(s, e).workers[w]) == Tmp(s.pool.workers[w])
    ensures Owns(Step(s, e), OfWorker(w)) == OwnsNext(s, e, OfWorker(w))
  {
  }

  /** The stage a worker moves to carries its temporary mapping on, except where it maps or unmaps. */
  lemma MoverOwnsNext(s: State, e: Event, w: nat)
    requires Enabled(s, e) && TaskStep(e) && e.w == w && RequestOk(s.reqs[Job(s, w)], At(StageOf(s, w)))
    ensures Owns(Step(s, e), OfWorker(w)) == OwnsNext(s, e, OfWorker(w))
  {
    hide FdsStep, MapsStep, WaitersStep, FilesStep, RequestsStep;
  }

  /** A new mapping is at a free address for an owner that had none; what is unmapped is what its owner owns. */
  ghost predicate MapsFollow(s: State, e: Event, maps': map<nat, Owner>)
    requires Guard(s, e)
  {
    match ChangeOf(s, e)
    case Keep => maps' == s.maps
    case Acquire(o, a) => maps' == s.maps[a := o] && a !in s.maps && Owns(s, o).None?
    case Drop(o) => maps' == if Owns(s, o).Some? then s.maps - {Owns(s, o).value} else s.maps
  }

  /** mmap and munmap act on the kernel's table exactly as ownership changes. */
  lemma MapsFollowOwners(s: State, e: Event)
    requires Core(s) && Enabled(s, e)
    ensures MapsFollow(s, e, MapsStep(s, e))
  {
    if Target(s, e).Some? {
      TargetPlace(s, e, Target(s, e).value);
      TargetMapsChange(s, e, Target(s, e).value);
    } else {
      NoTargetMapsChange(s, e);
    }
  }

  lemma TargetMapsChange(s: State, e: Event, r: nat)
    requires Enabled(s, e) && Target(s, e) == Some(r) && RequestOk(s.reqs[r], PlaceIn(s, r))
    requires TaskWrites(e) ==> Works(s, e.w) && PlaceIn(s, r) == At(StageOf(s, e.w))
    ensures MapsFollow(s, e, MapsStep(s, e))
  {
  }

  lemma NoTargetMapsChange(s: State, e: Event)
    requires Enabled(s, e) && Target(s, e).None?
    ensures MapsFollow(s, e, MapsStep(s, e))
  {
  }

  lemma StepKeepsMaps(s: State, e: Event)
    requires Core(s) && MapsInv(s) && Enabled(s, e)
    ensures MapsInv(Step(s, e))
  {
    var s' := Step(s, e);
    forall o
      ensures Owns(s', o) == OwnsNext(s, e, o)
    {
      match o
      case OfRequest(r) => RequestOwnsNext(s, e, r);
      case OfWorker(w) => WorkerOwnsNext(s, e, w);
    }
    MapsFollowOwners(s, e);
    OwnersStayExact(s, s', e);
  }

  lemma OwnersStayExact(s: State, s': State, e: Event)
    requires Guard(s, e) && MapsInv(s)
    requires forall o {:trigger Owns(s', o)} :: Owns(s', o) == OwnsNext(s, e, o)
    requires MapsFollow(s, e, s'.maps)
    ensures MapsInv(s')
  {
  }

  lemma StepKeepsFds(s: State, e: Event)
    requires Core(s) && FdsInv(s) && Enabled(s, e)
    ensures FdsInv(Step(s, e))
  {
    if e.GetRequest? {
      GetKeepsFds(s, e);
    } else if e.Cleanup? {
      TargetPlace(s, e, Job(s, e.w));
      CleanupKeepsFds(s, e.w);
    } else {
      FdsUntouched(s, e);
    }
  }

  lemma GetKeepsFds(s: State, e: Event)
    requires FdsInv(s) && Enabled(s, e) && e.GetRequest?
    ensures FdsInv(Step(s, e))
  {
  }

  lemma CleanupKeepsFds(s: State, w: nat)
    requires FdsInv(s) && Enabled(s, Cleanup(w))
    ensures FdsInv(Step(s, Cleanup(w)))
  {
  }

  lemma FdsUntouched(s: State, e: Event)
    requires FdsInv(s) && Enabled(s, e) && !e.GetRequest? && !e.Cleanup?
    ensures FdsInv(Step(s, e))
  {
    hide MapsStep, WaitersStep, FilesStep, PoolStep, P.Enabled, PoolPart;
  }
}
