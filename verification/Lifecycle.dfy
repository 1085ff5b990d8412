// The mmap accessor as a whole: requests, the threads that wait for them, the thread pool, and the kernel objects they
// use. One step per section the C code runs under a lock, or alone between two such sections.

module Lifecycle {
  import opened Common
  import P = PoolProtocol

  datatype Prep = Unprepared | Prepared | PrepFailed

  /** How far mmap_put_request has come: past the isRunning gate, task appended, SUBMITTED written; or turned away. */
  datatype PutState = NotPut | Gated | Enqueued | Put | Rejected

  datatype Buf = Null | Mapped(addr: nat) | Caller(bytes: seq<byte>)

  /** mmap_request_t. fd0 is the descriptor open returned, skipped says that the worker returned at its first check,
      history lists the values of status so far. */
  datatype Request = Request(
    dir: Direction,
    file: nat,
    nbytes: nat,
    offset: nat,
    fd0: nat,
    fd: int,
    buf: Buf,
    prep: Prep,
    put: PutState,
    skipped: bool,
    status: Status,
    history: seq<Status>)
  {
    function Set(st: Status): Request {
      this.(status := st, history := if st == status then history else history + [st])
    }

    /** The update under the request's lock at the end of mmapRead and mmapWrite. */
    function Finish(ok: bool): Request {
      Set(if status == Cancel then status else if ok then IoSuccess else IoFail)
    }

    /** The update under the request's lock in mmap_cancel_request. */
    function CancelUnlessDone(): Request {
      if status == IoSuccess || status == IoFail then this else Set(Cancel)
    }

    /** The update under the request's lock in mmap_cancel_all_requests and in timeout_thread. */
    function CancelIfSubmitted(): Request {
      Set(if status == Submitted then Cancel else status)
    }

    /** The worker returns at its first check of a cancelled request; a write gives its buffer back. */
    function Skip(): Request {
      this.(buf := if dir == Write then Null else buf, skipped := true)
    }

    /** The end of mmapRead and mmapWrite: a write's buffer is unmapped, a descriptor above 0 is closed. */
    function Clean(): Request {
      this.(buf := if dir == Write then Null else buf, fd := if fd > 0 then -1 else fd)
    }

    predicate Accepted() {
      put.Enqueued? || put.Put?
    }

    /** mmap_put_request has come to its end, whether it took the request or turned it away. */
    predicate Returned() {
      put.Put? || put.Rejected?
    }

    /** Nothing is to come any more: the put has returned and the status is final. */
    predicate Ended() {
      Returned() && status.Final()
    }
  }

  /** A live memory mapping belongs to a write request or is the temporary read mapping of a worker. */
  datatype Owner = OfRequest(r: nat) | OfWorker(w: nat)

  /** A thread inside mmap_wait_request or one iteration of mmap_wait_all_requests. */
  datatype WaitPhase = Outside | AtLock(r: nat) | Blocked(r: nat) | Leaving(r: nat)

  datatype Timer = NoTimer | Armed | Fired

  datatype Waiter = Waiter(phase: WaitPhase, timer: Timer) {
    predicate On(r: nat) {
      !phase.Outside? && phase.r == r
    }
  }

  datatype State = State(
    pool: P.Pool,
    reqs: seq<Request>,
    waiters: seq<Waiter>,
    files: seq<seq<byte>>,
    maps: map<nat, Owner>,
    fds: map<nat, nat>)

  datatype Event =
    // the caller's side
    | GetRequest(dir: Direction, file: nat, nbytes: nat, offset: nat, fd: nat)
    | AllocWriteBuf(r: nat, addr: Option<nat>)
    | ImportReadBuf(r: nat, bytes: Option<seq<byte>>)
    | PutGate(r: nat)
    | PutAppend(r: nat, wakeWorkers: set<nat>)
    | PutMark(r: nat)
    | CancelRequest(r: nat, wake: set<nat>)
    | CancelAllSection(r: nat, wake: set<nat>)
    // waiting threads and their timers
    | WaitBegin(t: nat, r: nat, timed: bool)
    | WaitCheck(t: nat)
    | WaitSpurious(t: nat)
    | TimerFire(t: nat, wake: set<nat>)
    | WaitEnd(t: nat)
    // worker_thread
    | WorkerStart(w: nat)
    | WorkerCheck(w: nat)
    | WorkerSpurious(w: nat)
    | WorkerExit(w: nat)
    | WorkerBusy(w: nat)
    | WorkerIdle(w: nat)
    // mmapRead and mmapWrite
    | FirstLook(w: nat)
    | TryMap(w: nat, addr: Option<nat>)
    | CopyOut(w: nat)
    | Sync(w: nat, ok: bool)
    | Publish(w: nat, wake: set<nat>)
    | Cleanup(w: nat)
    // mmap_release_all_resources
    | ReleaseBegin
    | SendSentinel(wakeWorkers: set<nat>)
    | JoinWorker
    // whoever stores into a file
    | StoreFile(file: nat, content: seq<byte>)

  // ---------------------------------------------------------------- small parts

  /** What a mapping of n bytes at an offset shows; past the end of the file a mapped page reads as zeros. */
  function Slice(file: seq<byte>, offset: nat, n: nat): (r: seq<byte>)
    ensures |r| == n
  {
    seq(n, k requires 0 <= k < n => if offset + k < |file| then file[offset + k] else 0)
  }

  predicate BlockedOn(x: Waiter, r: nat) { x.phase == Blocked(r) }

  function BlockedThreads(ws: seq<Waiter>, r: nat): set<nat> {
    set t: nat | t < |ws| && BlockedOn(ws[t], r)
  }

  predicate SignalOk(ws: seq<Waiter>, r: nat, wake: set<nat>) {
    wake <= BlockedThreads(ws, r) && (BlockedThreads(ws, r) != {} ==> wake != {})
  }

  function WakeWaiters(ws: seq<Waiter>, r: nat, wake: set<nat>): (res: seq<Waiter>)
    ensures |res| == |ws|
  {
    seq(|ws|, t requires 0 <= t < |ws| =>
      if t in wake && BlockedOn(ws[t], r) then ws[t].(phase := AtLock(r)) else ws[t])
  }

  predicate Works(s: State, w: nat) {
    && w < |s.pool.workers| && s.pool.workers[w].phase.Running?
    && s.pool.workers[w].phase.i < |s.pool.log|
    && s.pool.log[s.pool.workers[w].phase.i].task.Work?
    && s.pool.log[s.pool.workers[w].phase.i].task.req < |s.reqs|
  }

  function StageOf(s: State, w: nat): P.Stage
    requires Works(s, w)
  {
    s.pool.workers[w].phase.stage
  }

  /** The request a worker is working on. */
  function Job(s: State, w: nat): (r: nat)
    requires Works(s, w)
    ensures r < |s.reqs|
  {
    s.pool.log[s.pool.workers[w].phase.i].task.req
  }

  /** The present content of a request's file. */
  function FileOf(s: State, q: Request): seq<byte> {
    if q.file < |s.files| then s.files[q.file] else []
  }

  /** munmap of a request's buffer; nothing is mapped at a null buffer. */
  function Unmap(maps: map<nat, Owner>, buf: Buf): map<nat, Owner> {
    if buf.Mapped? then maps - {buf.addr} else maps
  }

  // ---------------------------------------------------------------- the machine

  /** The part of a step's condition that does not concern the pool. */
  predicate Guard(s: State, e: Event) {
    match e
    case GetRequest(_, file, nbytes, _, fd) => file < |s.files| && 0 < nbytes && fd !in s.fds
    case AllocWriteBuf(r, addr) =>
      && r < |s.reqs| && s.reqs[r].prep == Unprepared && s.reqs[r].put == NotPut
      && (addr.Some? ==> s.reqs[r].dir == Write && addr.value !in s.maps)
    case ImportReadBuf(r, bytes) =>
      && r < |s.reqs| && s.reqs[r].prep == Unprepared && s.reqs[r].put == NotPut && s.reqs[r].dir == Read
      && (bytes.Some? ==> |bytes.value| == s.reqs[r].nbytes)
    case PutGate(r) => r < |s.reqs| && s.reqs[r].put == NotPut && (s.reqs[r].dir == Read ==> s.reqs[r].buf.Caller?)
    case PutAppend(r, _) => r < |s.reqs| && s.reqs[r].put == Gated
    case PutMark(r) => r < |s.reqs| && s.reqs[r].put == Enqueued
    case CancelRequest(r, wake) => r < |s.reqs| && s.reqs[r].status != Init && SignalOk(s.waiters, r, wake)
    case CancelAllSection(r, wake) => r < |s.reqs| && r in s.pool.slots && SignalOk(s.waiters, r, wake)
    case WaitBegin(t, r, _) => t < |s.waiters| && s.waiters[t].phase.Outside? && r < |s.reqs|
    case WaitCheck(t) => t < |s.waiters| && s.waiters[t].phase.AtLock? && s.waiters[t].phase.r < |s.reqs|
    case WaitSpurious(t) => t < |s.waiters| && s.waiters[t].phase.Blocked?
    case TimerFire(t, wake) =>
      && t < |s.waiters| && s.waiters[t].timer == Armed && !s.waiters[t].phase.Outside?
      && s.waiters[t].phase.r < |s.reqs| && SignalOk(s.waiters, s.waiters[t].phase.r, wake)
    case WaitEnd(t) => t < |s.waiters| && s.waiters[t].phase.Leaving?
    case FirstLook(w) => Works(s, w) && StageOf(s, w).FirstCheck?
    case TryMap(w, addr) => Works(s, w) && StageOf(s, w).Mapping? && (addr.Some? ==> addr.value !in s.maps)
    case CopyOut(w) => Works(s, w) && StageOf(s, w).Copying?
    case Sync(w, _) => Works(s, w) && StageOf(s, w).Syncing?
    case Publish(w, wake) => Works(s, w) && StageOf(s, w).Publishing? && SignalOk(s.waiters, Job(s, w), wake)
    case Cleanup(w) => Works(s, w) && StageOf(s, w).Cleaning?
    case StoreFile(file, _) => file < |s.files|
    case _ => true
  }

  /** What a step does in the pool, if anything. */
  function PoolPart(s: State, e: Event): Option<P.Event>
    requires Guard(s, e)
  {
    match e
    case PutAppend(r, wake) => Some(P.Submit(P.Work(r), wake))
    case WorkerStart(w) => Some(P.Start(w))
    case WorkerCheck(w) => Some(P.Check(w))
    case WorkerSpurious(w) => Some(P.Spurious(w))
    case WorkerExit(w) => Some(P.Exit(w))
    case WorkerBusy(w) => Some(P.CountBusy(w))
    case WorkerIdle(w) => Some(P.CountIdle(w))
    case FirstLook(w) =>
      var q := s.reqs[Job(s, w)];
      Some(P.Move(w, if q.status == Cancel then P.Returning else if q.dir == Read then P.Mapping(0) else P.Syncing))
    case TryMap(w, addr) =>
      var k := StageOf(s, w).fails;
      Some(P.Move(w, if addr.Some? then P.Copying(addr.value)
                     else if k < MAX_RETRY_TIMES then P.Mapping(k + 1)
                     else P.Publishing(false, None)))
    case CopyOut(w) => Some(P.Move(w, P.Publishing(true, Some(StageOf(s, w).addr))))
    case Sync(w, ok) => Some(P.Move(w, P.Publishing(ok, None)))
    case Publish(w, _) => Some(P.Move(w, P.Cleaning(StageOf(s, w).tmp)))
    case Cleanup(w) => Some(P.Move(w, P.Returning))
    case ReleaseBegin => Some(P.Close)
    case SendSentinel(wake) => Some(P.Submit(P.Sentinel(|s.pool.sentinels|), wake))
    case JoinWorker => Some(P.Join)
    case _ => None
  }

  predicate Enabled(s: State, e: Event) {
    Guard(s, e) && (PoolPart(s, e).Some? ==> P.Enabled(s.pool, PoolPart(s, e).value))
  }

  function PoolStep(s: State, e: Event): P.Pool
    requires Enabled(s, e)
  {
    if PoolPart(s, e).Some? then P.Step(s.pool, PoolPart(s, e).value) else s.pool
  }

  /** The request a step writes to, if any. */
  function Target(s: State, e: Event): (r: Option<nat>)
    requires Guard(s, e)
    ensures r.Some? ==> r.value < |s.reqs|
  {
    match e
    case AllocWriteBuf(r, _) => Some(r)
    case ImportReadBuf(r, _) => Some(r)
    case PutGate(r) => Some(r)
    case PutAppend(r, _) => Some(r)
    case PutMark(r) => Some(r)
    case CancelRequest(r, _) => Some(r)
    case CancelAllSection(r, _) => Some(r)
    case TimerFire(t, _) => Some(s.waiters[t].phase.r)
    case FirstLook(w) => Some(Job(s, w))
    case CopyOut(w) => Some(Job(s, w))
    case Publish(w, _) => Some(Job(s, w))
    case Cleanup(w) => Some(Job(s, w))
    case _ => None
  }

  /** What a step makes of the request it writes to. */
  function RequestStep(s: State, e: Event): Request
    requires Guard(s, e) && Target(s, e).Some?
  {
    var q := s.reqs[Target(s, e).value];
    match e
    case AllocWriteBuf(_, addr) =>
      if addr.Some? then q.(buf := Mapped(addr.value), prep := Prepared) else q.(prep := PrepFailed).Set(IoFail)
    case ImportReadBuf(_, bytes) =>
      if bytes.Some? then q.(buf := Caller(bytes.value), prep := Prepared) else q.(prep := PrepFailed).Set(IoFail)
    case PutGate(_) => if s.pool.isRunning then q.(put := Gated) else q.(put := Rejected).Set(Cancel)
    case PutAppend(_, _) => q.(put := Enqueued)
    case PutMark(_) => q.(put := Put).Set(Submitted)
    case CancelRequest(_, _) => q.CancelUnlessDone()
    case CancelAllSection(_, _) => q.CancelIfSubmitted()
    case TimerFire(_, _) => q.CancelIfSubmitted()
    case FirstLook(_) =>
      if q.status == Cancel then q.Skip() else q
    case CopyOut(_) => q.(buf := Caller(Slice(FileOf(s, q), q.offset, q.nbytes)))
    case Publish(w, _) => q.Finish(StageOf(s, w).ok)
    case Cleanup(_) => q.Clean()
  }

  function NewRequest(e: Event): Request
    requires e.GetRequest?
  {
    Request(e.dir, e.file, e.nbytes, e.offset, e.fd, e.fd, Null, Unprepared, NotPut, false, Init, [Init])
  }

  function RequestsStep(s: State, e: Event): seq<Request>
    requires Guard(s, e)
  {
    if e.GetRequest? then
      s.reqs + [NewRequest(e)]
    else if Target(s, e).Some? then s.reqs[Target(s, e).value := RequestStep(s, e)]
    else s.reqs
  }

  function WaitersStep(s: State, e: Event): seq<Waiter>
    requires Guard(s, e)
  {
    match e
    case CancelRequest(r, wake) => WakeWaiters(s.waiters, r, wake)
    case CancelAllSection(r, wake) => WakeWaiters(s.waiters, r, wake)
    case Publish(w, wake) => WakeWaiters(s.waiters, Job(s, w), wake)
    case TimerFire(t, wake) =>
      var ws := WakeWaiters(s.waiters, s.waiters[t].phase.r, wake);
      ws[t := ws[t].(timer := Fired)]
    case WaitBegin(t, r, timed) => s.waiters[t := Waiter(AtLock(r), if timed then Armed else NoTimer)]
    case WaitCheck(t) =>
      var r := s.waiters[t].phase.r;
      s.waiters[t := s.waiters[t].(phase := if s.reqs[r].status == Submitted then Blocked(r) else Leaving(r))]
    case WaitSpurious(t) => s.waiters[t := s.waiters[t].(phase := AtLock(s.waiters[t].phase.r))]
    case WaitEnd(t) => s.waiters[t := Waiter(Outside, NoTimer)]
    case _ => s.waiters
  }

  /** mmap and munmap. */
  function MapsStep(s: State, e: Event): map<nat, Owner>
    requires Guard(s, e)
  {
    match e
    case AllocWriteBuf(r, addr) => if addr.Some? then s.maps[addr.value := OfRequest(r)] else s.maps
    case PutGate(r) => if s.pool.isRunning then s.maps else Unmap(s.maps, s.reqs[r].buf)
    case FirstLook(w) =>
      var q := s.reqs[Job(s, w)];
      if q.status == Cancel && q.dir == Write then Unmap(s.maps, q.buf) else s.maps
    case TryMap(w, addr) => if addr.Some? then s.maps[addr.value := OfWorker(w)] else s.maps
    case Cleanup(w) =>
      var q := s.reqs[Job(s, w)];
      if q.dir == Write then Unmap(s.maps, q.buf)
      else if StageOf(s, w).tmp.Some? then s.maps - {StageOf(s, w).tmp.value}
      else s.maps
    case _ => s.maps
  }

  /** open and close. */
  function FdsStep(s: State, e: Event): map<nat, nat>
    requires Guard(s, e)
  {
    match e
    case GetRequest(_, _, _, _, fd) => s.fds[fd := |s.reqs|]
    case Cleanup(w) =>
      var q := s.reqs[Job(s, w)];
      if q.fd > 0 then s.fds - {q.fd} else s.fds
    case _ => s.fds
  }

  /** A file opened for writing is truncated and set to its new length; otherwise files change by stores only. */
  function FilesStep(s: State, e: Event): seq<seq<byte>>
    requires Guard(s, e)
  {
    match e
    case GetRequest(dir, file, nbytes, _, _) => if dir == Write then s.files[file := Slice([], 0, nbytes)] else s.files
    case StoreFile(file, content) => s.files[file := content]
    case _ => s.files
  }

  function Step(s: State, e: Event): State
    requires Enabled(s, e)
  {
    State(PoolStep(s, e), RequestsStep(s, e), WaitersStep(s, e), FilesStep(s, e), MapsStep(s, e), FdsStep(s, e))
  }

  /** The step function with its condition. */
  function Next(s: State, e: Event): Option<State> {
    if Enabled(s, e) then Some(Step(s, e)) else None
  }

  ghost predicate Initial(s: State) {
    && s.pool == P.InitialPool()
    && s.reqs == [] && s.maps == map[] && s.fds == map[]
    && (forall t | 0 <= t < |s.waiters| :: s.waiters[t] == Waiter(Outside, NoTimer))
  }

  /** The k-th step of a run leads from its k-th state to the next. */
  ghost predicate StepAt(ss: seq<State>, es: seq<Event>, k: nat)
    requires k < |es| < |ss|
  {
    Enabled(ss[k], es[k]) && ss[k + 1] == Step(ss[k], es[k])
  }

  /** ss is the sequence of states that the steps es lead through, from the state after initialisation. */
  ghost predicate IsRun(ss: seq<State>, es: seq<Event>) {
    && |ss| == |es| + 1
    && Initial(ss[0])
    && (forall k: nat | k < |es| :: StepAt(ss, es, k))
  }

  lemma RunExtends(ss: seq<State>, es: seq<Event>, e: Event)
    requires IsRun(ss, es) && Next(ss[|es|], e).Some?
    ensures IsRun(ss + [Next(ss[|es|], e).value], es + [e])
  {
    var ss', es' := ss + [Next(ss[|es|], e).value], es + [e];
    forall k: nat | k < |es'|
      ensures StepAt(ss', es', k)
    {
      if k < |es| {
        assert StepAt(ss, es, k);
      }
    }
  }
}
