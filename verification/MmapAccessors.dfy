// mmap_file_accessor_t and mmap_request_t in their imperative form. Each method of the first part is one section of the
// C code, proved to be one step of the accessor's state machine.

module MmapAccessors {
  import opened Common
  import P = PoolProtocol
  import opened Lifecycle
  import opened RequestInvariants
  import opened ThreadPools

  class MmapRequest {
    const dir: Direction
    const file: nat
    const nbytes: nat
    const offset: nat
    var fd: int
    /** The buffer; Mapped also says that isAlloced is TRUE. */
    var buf: Buf
    var status: Status

    // What the C code does not record but its specification speaks of.
    const fd0: nat
    var prep: Prep
    var put: PutState
    var skipped: bool
    var history: seq<Status>

    function View(): Request
      reads this
    {
      Request(dir, file, nbytes, offset, fd0, fd, buf, prep, put, skipped, status, history)
    }

    constructor (dir: Direction, file: nat, nbytes: nat, offset: nat, fd: nat)
      ensures View() == Request(dir, file, nbytes, offset, fd, fd, Null, Unprepared, NotPut, false, Init, [Init])
    {
      this.dir, this.file, this.nbytes, this.offset := dir, file, nbytes, offset;
      this.fd, fd0 := fd, fd;
      buf, status := Null, Init;
      prep, put, skipped, history := Unprepared, NotPut, false, [Init];
    }

    method SetStatus(st: Status)
      modifies `status, `history
      ensures View() == old(View()).Set(st)
    {
      history := if st == status then history else history + [st];
      status := st;
    }

    /** The end of the allocation or import of a buffer. */
    method Prepare(buffer: Buf)
      modifies `buf, `prep, `status, `history
      ensures View() == if buffer.Null? then old(View()).(prep := PrepFailed).Set(IoFail)
                        else old(View()).(buf := buffer, prep := Prepared)
    {
      if buffer.Null? {
        prep := PrepFailed;
        SetStatus(IoFail);
      } else {
        prep := Prepared;
        buf := buffer;
      }
    }

    /** The locked update at the end of mmapRead and mmapWrite. */
    method Finish(ok: bool)
      modifies `status, `history
      ensures status.Final() && (old(status) == Cancel ==> status == Cancel)
      ensures View() == old(View()).Finish(ok)
    {
      if status != Cancel {
        SetStatus(if ok then IoSuccess else IoFail);
      }
    }

    /** The locked update of mmap_cancel_request. */
    method CancelUnlessDone()
      modifies `status, `history
      ensures status.Final() && (old(status).Final() ==> status == old(status))
      ensures View() == old(View()).CancelUnlessDone()
    {
      if status != IoSuccess && status != IoFail {
        SetStatus(Cancel);
      }
    }

    /** The locked update of mmap_cancel_all_requests and timeout_thread. */
    method CancelIfSubmitted()
      modifies `status, `history
      ensures status != Submitted && (old(status) != Submitted ==> status == old(status))
      ensures View() == old(View()).CancelIfSubmitted()
    {
      SetStatus(if status == Submitted then Cancel else status);
    }

    /** The worker returns at its first check; a write gives up its buffer. */
    method Skip()
      modifies `buf, `skipped
      ensures View() == old(View()).Skip()
    {
      if dir == Write {
        buf := Null;
      }
      skipped := true;
    }

    /** The end of the task function: a write's buffer is gone, and a descriptor above 0 is closed. */
    method Clean()
      modifies `buf, `fd
      ensures View() == old(View()).Clean()
    {
      if dir == Write {
        buf := Null;
      }
      if fd > 0 {
        fd := -1;
      }
    }
  }

  function Views(rs: seq<MmapRequest>): (v: seq<Request>)
    reads rs
    ensures |v| == |rs| && forall r | 0 <= r < |rs| :: v[r] == rs[r].View()
  {
    seq(|rs|, r requires 0 <= r < |rs| reads rs => rs[r].View())
  }

  predicate Distinct(rs: seq<MmapRequest>) {
    forall r, r' | 0 <= r < r' < |rs| :: rs[r] != rs[r']
  }

  lemma OneChanged(before: seq<Request>, rs: seq<MmapRequest>, r: nat)
    requires r < |rs| == |before| && forall k | 0 <= k < |rs| && k != r :: rs[k].View() == before[k]
    ensures Views(rs) == before[r := rs[r].View()]
  {
  }

  /** A step of a task function: its worker moves on, and the request it works on, the waiting threads and the kernel's
      tables change as the machine says. */
  ghost function AfterTask(s: State, e: Event): State
    requires Guard(s, e) && TaskStep(e) && Works(s, e.w)
  {
    s.(pool := s.pool.At(e.w, P.Running(s.pool.workers[e.w].phase.i, PoolPart(s, e).value.stage)),
       reqs := if TaskWrites(e) then s.reqs[Job(s, e.w) := RequestStep(s, e)] else s.reqs,
       waiters := if e.Publish? then WakeWaiters(s.waiters, Job(s, e.w), e.wake) else s.waiters,
       maps := if e.FirstLook? || e.TryMap? || e.Cleanup? then MapsStep(s, e) else s.maps,
       fds := if e.Cleanup? then FdsStep(s, e) else s.fds)
  }

  lemma TaskMoves(s: State, e: Event)
    requires TaskStep(e) && Enabled(s, e)
    ensures Works(s, e.w)
    ensures PoolStep(s, e) == s.pool.At(e.w, P.Running(s.pool.workers[e.w].phase.i, PoolPart(s, e).value.stage))
  {
  }

  lemma TaskStepsAre(s: State, e: Event)
    requires TaskStep(e) && Next(s, e).Some?
    ensures Guard(s, e) && Works(s, e.w) && Next(s, e) == Some(AfterTask(s, e))
  {
    TaskMoves(s, e);
    hide PoolStep, PoolPart, RequestStep, WakeWaiters, Unmap;
  }

  /** The first check leaves a request alone unless it is cancelled. */
  lemma Looks(s: State, w: nat)
    requires Works(s, w) && StageOf(s, w).FirstCheck?
    ensures var q, s' := s.reqs[Job(s, w)], AfterTask(s, FirstLook(w));
            && s'.waiters == s.waiters && s'.files == s.files && s'.fds == s.fds
            && s'.reqs == (if q.status == Cancel then s.reqs[Job(s, w) := q.Skip()] else s.reqs)
            && s'.maps == (if q.status == Cancel && q.dir == Write then Unmap(s.maps, q.buf) else s.maps)
            && s'.pool == s.pool.At(w, P.Running(s.pool.workers[w].phase.i,
                 if q.status == Cancel then P.Returning else if q.dir == Read then P.Mapping(0) else P.Syncing))
  {
    assert s.reqs == s.reqs[Job(s, w) := s.reqs[Job(s, w)]];
  }

  /** The verdict goes to the request, and its waiters are signalled. */
  lemma Publishes(s: State, w: nat, wake: set<nat>)
    requires Works(s, w) && StageOf(s, w).Publishing? && SignalOk(s.waiters, Job(s, w), wake)
    ensures var r, s' := Job(s, w), AfterTask(s, Publish(w, wake));
            && s'.maps == s.maps && s'.files == s.files && s'.fds == s.fds
            && s'.waiters == WakeWaiters(s.waiters, r, wake)
            && s'.reqs == s.reqs[r := s.reqs[r].Finish(StageOf(s, w).ok)]
            && s'.pool == s.pool.At(w, P.Running(s.pool.workers[w].phase.i, P.Cleaning(StageOf(s, w).tmp)))
  {
  }

  lemma GetIs(s: State, e: Event)
    requires e.GetRequest? && e.file < |s.files| && 0 < e.nbytes && e.fd !in s.fds
    ensures Next(s, e) ==
            Some(s.(reqs := s.reqs + [NewRequest(e)], files := FilesStep(s, e), fds := s.fds[e.fd := |s.reqs|]))
  {
  }

  class MmapAccessor {
    const distributor: ThreadPool
    var reqs: seq<MmapRequest>
    var waiters: seq<Waiter>

    // The kernel objects the accessor uses.
    var files: seq<seq<byte>>
    var maps: map<nat, Owner>
    var fds: map<nat, nat>

    /** The run so far: the states the accessor has been in and the steps between them. */
    ghost var states: seq<State>
    ghost var steps: seq<Event>
    ghost var Repr: set<object>

    function View(): State
      reads this, distributor, distributor.taskQueue, reqs
    {
      State(distributor.View(), Views(reqs), waiters, files, maps, fds)
    }

    ghost function Objects(): set<object>
      reads this, distributor, distributor.taskQueue
    {
      var rs: set<object> := set q | q in reqs;
      {this} + distributor.Objects() + rs
    }

    // Most methods below change nothing that Valid() reads, and so keep it without saying so.
    ghost predicate Valid()
      reads `reqs, distributor`log, distributor`sentinels, distributor.taskQueue, distributor.taskQueue.requestQueue
    {
      distributor.Valid() && Distinct(reqs)
    }

    /** The run so far, of an accessor in good order: its present state is the last of the run. */
    ghost function Run(): Option<(seq<State>, seq<Event>)>
      reads this, distributor, distributor.taskQueue, distributor.taskQueue.requestQueue, reqs
    {
      if Valid() && Repr == Objects() && IsRun(states, steps) && states[|steps|] == View() then Some((states, steps))
      else None
    }

    constructor (threads: nat, files: seq<seq<byte>>)
      ensures Run() == Some(([View()], [])) && fresh(Repr) && reqs == []
      ensures Initial(View()) && |waiters| == threads && this.files == files
    {
      distributor := new ThreadPool();
      reqs, maps, fds := [], map[], map[];
      waiters := seq(threads, _ => Waiter(Outside, NoTimer));
      this.files := files;
      steps := [];
      new;
      states, Repr := [View()], Objects();
    }

    /** Adds a step just taken to the run. */
    ghost method Record(s: State, e: Event)
      requires Valid() && IsRun(states, steps) && states[|steps|] == s && Next(s, e) == Some(View())
      modifies `states, `steps, `Repr
      ensures Run().Some? && states == old(states) + [View()] && steps == old(steps) + [e] && Repr == Objects()
      ensures View() == old(View()) && Objects() == old(Objects())
    {
      RunExtends(states, steps, e);
      states, steps, Repr := states + [View()], steps + [e], Objects();
    }

    // ---------------------------------------------------------------- the caller's sections

    method GetRequest(dir: Direction, file: nat, nbytes: nat, offset: nat, fd: nat)
      requires Distinct(reqs) && file < |files| && 0 < nbytes && fd !in fds
      modifies `reqs, `files, `fds
      ensures Distinct(reqs) && |reqs| == |old(reqs)| + 1 && reqs[..|old(reqs)|] == old(reqs) && fresh(reqs[|old(reqs)|])
      ensures Next(old(View()), Event.GetRequest(dir, file, nbytes, offset, fd)) == Some(View())
    {
      GetIs(View(), Event.GetRequest(dir, file, nbytes, offset, fd));
      hide Lifecycle.Next;
      var q := new MmapRequest(dir, file, nbytes, offset, fd);
      fds := fds[fd := |reqs|];
      if dir == Write {
        files := files[file := Slice([], 0, nbytes)];
      }
      ghost var before := Views(reqs);
      reqs := reqs + [q];
      assert Views(reqs) == before + [q.View()];
    }

    method AllocWriteBuf(r: nat, addr: Option<nat>)
      requires Distinct(reqs) && Next(View(), Event.AllocWriteBuf(r, addr)).Some?
      modifies `maps, reqs
      ensures Next(old(View()), Event.AllocWriteBuf(r, addr)) == Some(View())
    {
      if addr.Some? {
        reqs[r].Prepare(Mapped(addr.value));
        maps := maps[addr.value := OfRequest(r)];
      } else {
        reqs[r].Prepare(Null);
      }
      OneChanged(old(Views(reqs)), reqs, r);
    }

    method ImportReadBuf(r: nat, bytes: Option<seq<byte>>)
      requires Distinct(reqs) && Next(View(), Event.ImportReadBuf(r, bytes)).Some?
      modifies reqs
      ensures Next(old(View()), Event.ImportReadBuf(r, bytes)) == Some(View())
    {
      reqs[r].Prepare(if bytes.Some? then Caller(bytes.value) else Null);
      OneChanged(old(Views(reqs)), reqs, r);
    }

    /** The isRunning gate of thread_pool_submit, and what mmap_put_request does when turned away. */
    method PutGate(r: nat)
      requires Distinct(reqs) && Next(View(), Event.PutGate(r)).Some?
      modifies `maps, reqs
      ensures Next(old(View()), Event.PutGate(r)) == Some(View())
    {
      var q := reqs[r];
      if distributor.isRunning {
        q.put := Gated;
      } else {
        maps := Unmap(maps, q.buf);
        q.put := Rejected;
        q.SetStatus(Cancel);
      }
      OneChanged(old(Views(reqs)), reqs, r);
    }

    /** The locked section of thread_pool_submit. */
    method PutAppend(r: nat, wakeWorkers: set<nat>)
      requires Valid() && Next(View(), Event.PutAppend(r, wakeWorkers)).Some?
      modifies distributor.Objects(), reqs
      ensures Valid() && fresh(distributor.Objects() - old(distributor.Objects()))
      ensures Next(old(View()), Event.PutAppend(r, wakeWorkers)) == Some(View())
    {
      ghost var before := Views(reqs);
      distributor.Submit(P.Work(r), wakeWorkers);
      assert Views(reqs) == before;
      reqs[r].put := Enqueued;
      OneChanged(before, reqs, r);
    }

    method PutMark(r: nat)
      requires Distinct(reqs) && Next(View(), Event.PutMark(r)).Some?
      modifies reqs
      ensures Next(old(View()), Event.PutMark(r)) == Some(View())
    {
      reqs[r].put := Put;
      reqs[r].SetStatus(Submitted);
      OneChanged(old(Views(reqs)), reqs, r);
    }

    /** The locked section of mmap_cancel_request. */
    method CancelSection(r: nat, wake: set<nat>)
      requires Distinct(reqs) && Next(View(), Event.CancelRequest(r, wake)).Some?
      modifies `waiters, reqs
      ensures Next(old(View()), Event.CancelRequest(r, wake)) == Some(View())
    {
      reqs[r].CancelUnlessDone();
      waiters := WakeWaiters(waiters, r, wake);
      OneChanged(old(Views(reqs)), reqs, r);
    }

    /** The locked section in the loop of mmap_cancel_all_requests. */
    method CancelAllSection(r: nat, wake: set<nat>)
      requires Distinct(reqs) && Next(View(), Event.CancelAllSection(r, wake)).Some?
      modifies `waiters, reqs
      ensures Next(old(View()), Event.CancelAllSection(r, wake)) == Some(View())
    {
      reqs[r].CancelIfSubmitted();
      waiters := WakeWaiters(waiters, r, wake);
      OneChanged(old(Views(reqs)), reqs, r);
    }

    // ---------------------------------------------------------------- waiting threads and timers

    method WaitBegin(t: nat, r: nat, timed: bool)
      requires Next(View(), Event.WaitBegin(t, r, timed)).Some?
      modifies `waiters
      ensures Next(old(View()), Event.WaitBegin(t, r, timed)) == Some(View())
    {
      waiters := waiters[t := Waiter(AtLock(r), if timed then Armed else NoTimer)];
    }

    /** One turn of the waiting loop, under the request's lock. */
    method WaitCheck(t: nat)
      requires Next(View(), Event.WaitCheck(t)).Some?
      modifies `waiters
      ensures Next(old(View()), Event.WaitCheck(t)) == Some(View())
    {
      var r := waiters[t].phase.r;
      waiters := waiters[t := waiters[t].(phase := if reqs[r].status == Submitted then Blocked(r) else Leaving(r))];
    }

    method WaitSpurious(t: nat)
      requires Next(View(), Event.WaitSpurious(t)).Some?
      modifies `waiters
      ensures Next(old(View()), Event.WaitSpurious(t)) == Some(View())
    {
      waiters := waiters[t := waiters[t].(phase := AtLock(waiters[t].phase.r))];
    }

    /** The locked section of timeout_thread. */
    method TimerFire(t: nat, wake: set<nat>)
      requires Distinct(reqs) && Next(View(), Event.TimerFire(t, wake)).Some?
      modifies `waiters, reqs
      ensures Next(old(View()), Event.TimerFire(t, wake)) == Some(View())
    {
      var r := waiters[t].phase.r;
      reqs[r].CancelIfSubmitted();
      waiters := WakeWaiters(waiters, r, wake);
      waiters := waiters[t := waiters[t].(timer := Fired)];
      OneChanged(old(Views(reqs)), reqs, r);
    }

    /** The end of a wait; a timer thread is cancelled and joined. */
    method WaitEnd(t: nat)
      requires Next(View(), Event.WaitEnd(t)).Some?
      modifies `waiters
      ensures Next(old(View()), Event.WaitEnd(t)) == Some(View())
    {
      waiters := waiters[t := Waiter(Outside, NoTimer)];
    }

    // ---------------------------------------------------------------- the task functions

    /** The request of the task a worker has in hand. */
    method JobOf(w: nat) returns (r: nat)
      requires Valid() && Works(View(), w)
      ensures r == Job(View(), w)
    {
      var queue := distributor.taskQueue;
      var i := distributor.workers[w].phase.i;
      assert queue.requestQueue[i] == queue.requestQueue[..queue.tail][i];
      r := queue.requestQueue[i].req;
    }

    /** The first check of mmapRead and mmapWrite. */
    method FirstLook(w: nat)
      requires Valid() && Next(View(), Event.FirstLook(w)).Some?
      modifies `maps, distributor`workers, reqs
      ensures Next(old(View()), Event.FirstLook(w)) == Some(View())
    {
      TaskStepsAre(View(), Event.FirstLook(w));
      var r := JobOf(w);
      LookAt(w, r);
    }

    method LookAt(w: nat, r: nat)
      requires Distinct(reqs) && Works(View(), w) && StageOf(View(), w).FirstCheck? && r == Job(View(), w)
      modifies `maps, distributor`workers, reqs
      ensures View() == AfterTask(old(View()), Event.FirstLook(w))
    {
      ghost var s := View();
      Looks(s, w);
      assert w < |distributor.workers| && distributor.workers[w].phase.Running?;
      hide AfterTask, Unmap, Works;
      var q := reqs[r];
      if q.status == Cancel {
        if q.dir == Write {
          maps := Unmap(maps, q.buf);
        }
        q.Skip();
        OneChanged(s.reqs, reqs, r);
        distributor.Move(w, P.Returning);
      } else {
        distributor.Move(w, if q.dir == Read then P.Mapping(0) else P.Syncing);
      }
    }

    /** One turn of the mapping loop of mmapRead. */
    method TryMap(w: nat, addr: Option<nat>)
      requires Next(View(), Event.TryMap(w, addr)).Some?
      modifies `maps, distributor`workers
      ensures Next(old(View()), Event.TryMap(w, addr)) == Some(View())
    {
      TaskStepsAre(View(), Event.TryMap(w, addr));
      hide Lifecycle.Next;
      var fails := distributor.workers[w].phase.stage.fails;
      if addr.Some? {
        maps := maps[addr.value := OfWorker(w)];
        distributor.Move(w, P.Copying(addr.value));
      } else if fails < MAX_RETRY_TIMES {
        distributor.Move(w, P.Mapping(fails + 1));
      } else {
        distributor.Move(w, P.Publishing(false, None));
      }
    }

    /** The memcpy of mmapRead. */
    method CopyOut(w: nat)
      requires Valid() && Next(View(), Event.CopyOut(w)).Some?
      modifies distributor`workers, reqs
      ensures Next(old(View()), Event.CopyOut(w)) == Some(View())
    {
      TaskStepsAre(View(), Event.CopyOut(w));
      var r := JobOf(w);
      CopyTo(w, r);
    }

    method CopyTo(w: nat, r: nat)
      requires Distinct(reqs) && Works(View(), w) && StageOf(View(), w).Copying? && r == Job(View(), w)
      modifies distributor`workers, reqs
      ensures View() == AfterTask(old(View()), Event.CopyOut(w))
    {
      hide MapsStep, FdsStep, WakeWaiters;
      var q := reqs[r];
      q.buf := Caller(Slice(if q.file < |files| then files[q.file] else [], q.offset, q.nbytes));
      OneChanged(old(Views(reqs)), reqs, r);
      distributor.Move(w, P.Publishing(true, Some(distributor.workers[w].phase.stage.addr)));
    }

    /** The msync of mmapWrite. */
    method Sync(w: nat, ok: bool)
      requires Next(View(), Event.Sync(w, ok)).Some?
      modifies distributor`workers
      ensures Next(old(View()), Event.Sync(w, ok)) == Some(View())
    {
      TaskStepsAre(View(), Event.Sync(w, ok));
      hide Lifecycle.Next;
      distributor.Move(w, P.Publishing(ok, None));
    }

    /** The locked section with which mmapRead and mmapWrite publish their verdict. */
    method Publish(w: nat, wake: set<nat>)
      requires Valid() && Next(View(), Event.Publish(w, wake)).Some?
      modifies `waiters, distributor`workers, reqs
      ensures Next(old(View()), Event.Publish(w, wake)) == Some(View())
    {
      TaskStepsAre(View(), Event.Publish(w, wake));
      var r := JobOf(w);
      PublishFor(w, r, wake);
    }

    method PublishFor(w: nat, r: nat, wake: set<nat>)
      requires Distinct(reqs) && Works(View(), w) && StageOf(View(), w).Publishing? && r == Job(View(), w)
      requires SignalOk(waiters, r, wake)
      modifies `waiters, distributor`workers, reqs
      ensures View() == AfterTask(old(View()), Event.Publish(w, wake))
    {
      ghost var s := View();
      Publishes(s, w, wake);
      hide AfterTask;
      var q := reqs[r];
      var stage := distributor.workers[w].phase.stage;
      q.Finish(stage.ok);
      OneChanged(s.reqs, reqs, r);
      waiters := WakeWaiters(waiters, r, wake);
      distributor.Move(w, P.Cleaning(stage.tmp));
    }

    /** munmap and close at the end of mmapRead and mmapWrite. */
    method Cleanup(w: nat)
      requires Valid() && Next(View(), Event.Cleanup(w)).Some?
      modifies `maps, `fds, distributor`workers, reqs
      ensures Next(old(View()), Event.Cleanup(w)) == Some(View())
    {
      TaskStepsAre(View(), Event.Cleanup(w));
      var r := JobOf(w);
      CleanUp(w, r);
    }

    method CleanUp(w: nat, r: nat)
      requires Distinct(reqs) && Works(View(), w) && StageOf(View(), w).Cleaning? && r == Job(View(), w)
      modifies `maps, `fds, distributor`workers, reqs
      ensures View() == AfterTask(old(View()), Event.Cleanup(w))
    {
      ghost var s := View();
      GiveBack(w, r);
      hide MapsStep, FdsStep;
      reqs[r].Clean();
      distributor.Move(w, P.Returning);
      OneChanged(s.reqs, reqs, r);
    }

    method GiveBack(w: nat, r: nat)
      requires Works(View(), w) && StageOf(View(), w).Cleaning? && r == Job(View(), w)
      modifies `maps, `fds
      ensures maps == MapsStep(old(View()), Event.Cleanup(w)) && fds == FdsStep(old(View()), Event.Cleanup(w))
    {
      var q := reqs[r];
      var tmp := distributor.workers[w].phase.stage.tmp;
      if q.dir == Write {
        maps := Unmap(maps, q.buf);
      } else if tmp.Some? {
        maps := maps - {tmp.value};
      }
      if q.fd > 0 {
        fds := fds - {q.fd};
      }
    }

    method StoreFile(file: nat, content: seq<byte>)
      requires file < |files|
      modifies `files
      ensures Next(old(View()), Event.StoreFile(file, content)) == Some(View())
    {
      files := files[file := content];
    }
  }
}
