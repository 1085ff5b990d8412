// Running the accessor: any enabled step is taken by the class as the state machine says, and a thread inside one of the
// accessor's operations is interrupted by arbitrary steps of the others.

module Schedules {
  import opened Common
  import P = PoolProtocol
  import opened Lifecycle
  import opened RequestInvariants
  import opened MmapAccessors
  import opened Traces

  // ---------------------------------------------------------------- one step

  predicate PrepareStep(e: Event) {
    e.GetRequest? || e.AllocWriteBuf? || e.ImportReadBuf? || e.StoreFile?
  }

  predicate CallerStep(e: Event) {
    e.PutGate? || e.PutAppend? || e.PutMark? || e.CancelRequest? || e.CancelAllSection?
  }

  predicate WaitStep(e: Event) {
    e.WaitBegin? || e.WaitCheck? || e.WaitSpurious? || e.TimerFire? || e.WaitEnd?
  }

  method PerformPrepare(acc: MmapAccessor, e: Event)
    requires Distinct(acc.reqs) && PrepareStep(e) && Next(acc.View(), e).Some?
    modifies acc`reqs, acc`files, acc`maps, acc`fds, acc.reqs
    ensures Distinct(acc.reqs) && forall q | q in acc.reqs && q !in old(acc.reqs) :: fresh(q)
    ensures Next(old(acc.View()), e) == Some(acc.View())
  {
    if e.GetRequest? {
      acc.GetRequest(e.dir, e.file, e.nbytes, e.offset, e.fd);
    } else if e.AllocWriteBuf? {
      acc.AllocWriteBuf(e.r, e.addr);
    } else if e.ImportReadBuf? {
      acc.ImportReadBuf(e.r, e.bytes);
    } else {
      acc.StoreFile(e.file, e.content);
    }
  }

  method PerformCaller(acc: MmapAccessor, e: Event)
    requires acc.Valid() && CallerStep(e) && Next(acc.View(), e).Some?
    modifies acc`waiters, acc`maps, acc.distributor.Objects(), acc.reqs
    ensures acc.Valid() && fresh(acc.distributor.Objects() - old(acc.distributor.Objects()))
    ensures Next(old(acc.View()), e) == Some(acc.View())
  {
    if e.PutGate? {
      acc.PutGate(e.r);
    } else if e.PutAppend? {
      acc.PutAppend(e.r, e.wakeWorkers);
    } else if e.PutMark? {
      acc.PutMark(e.r);
    } else if e.CancelRequest? {
      acc.CancelSection(e.r, e.wake);
    } else {
      acc.CancelAllSection(e.r, e.wake);
    }
  }

  method PerformWait(acc: MmapAccessor, e: Event)
    requires Distinct(acc.reqs) && WaitStep(e) && Next(acc.View(), e).Some?
    modifies acc`waiters, acc.reqs
    ensures Next(old(acc.View()), e) == Some(acc.View())
  {
    if e.WaitBegin? {
      acc.WaitBegin(e.t, e.r, e.timed);
    } else if e.WaitCheck? {
      acc.WaitCheck(e.t);
    } else if e.WaitSpurious? {
      acc.WaitSpurious(e.t);
    } else if e.TimerFire? {
      acc.TimerFire(e.t, e.wake);
    } else {
      acc.WaitEnd(e.t);
    }
  }

  method PerformTask(acc: MmapAccessor, e: Event)
    requires acc.Valid() && TaskStep(e) && Next(acc.View(), e).Some?
    modifies acc`waiters, acc`maps, acc`fds, acc.distributor`workers, acc.reqs
    ensures Next(old(acc.View()), e) == Some(acc.View())
  {
    if e.FirstLook? {
      acc.FirstLook(e.w);
    } else if e.TryMap? {
      acc.TryMap(e.w, e.addr);
    } else if e.CopyOut? {
      acc.CopyOut(e.w);
    } else if e.Sync? {
      acc.Sync(e.w, e.ok);
    } else if e.Publish? {
      acc.Publish(e.w, e.wake);
    } else {
      acc.Cleanup(e.w);
    }
  }

  lemma PoolOnly(s: State, e: Event)
    requires !PrepareStep(e) && !CallerStep(e) && !WaitStep(e) && !TaskStep(e) && Next(s, e).Some?
    ensures PoolPart(s, e).Some? && P.Next(s.pool, PoolPart(s, e).value).Some?
    ensures Next(s, e).value == s.(pool := P.Next(s.pool, PoolPart(s, e).value).value)
  {
  }

  /** The steps of worker_thread and of mmap_release_all_resources happen in the pool alone. */
  method PerformPool(acc: MmapAccessor, e: Event)
    requires acc.distributor.Valid() && !PrepareStep(e) && !CallerStep(e) && !WaitStep(e) && !TaskStep(e)
    requires Next(acc.View(), e).Some?
    modifies acc.distributor.Objects()
    ensures acc.distributor.Valid() && fresh(acc.distributor.Objects() - old(acc.distributor.Objects()))
    ensures Next(old(acc.View()), e) == Some(acc.View())
  {
    PoolOnly(acc.View(), e);
    acc.distributor.Perform(PoolPart(acc.View(), e).value);
  }

  method PerformThread(acc: MmapAccessor, e: Event)
    requires acc.Valid() && !PrepareStep(e) && !CallerStep(e) && Next(acc.View(), e).Some?
    modifies acc`waiters, acc`maps, acc`fds, acc.distributor.Objects(), acc.reqs
    ensures acc.distributor.Valid() && fresh(acc.distributor.Objects() - old(acc.distributor.Objects()))
    ensures Next(old(acc.View()), e) == Some(acc.View())
  {
    hide MmapAccessor.View, Lifecycle.Next;
    if WaitStep(e) {
      PerformWait(acc, e);
    } else if TaskStep(e) {
      PerformTask(acc, e);
    } else {
      PerformPool(acc, e);
    }
  }

  method Dispatch(acc: MmapAccessor, e: Event)
    requires acc.Valid() && Next(acc.View(), e).Some?
    modifies acc`reqs, acc`waiters, acc`files, acc`maps, acc`fds, acc.distributor.Objects(), acc.reqs
    ensures acc.Valid() && fresh(acc.Objects() - old(acc.Objects()))
    ensures Next(old(acc.View()), e) == Some(acc.View())
  {
    hide MmapAccessor.View, Lifecycle.Next;
    if PrepareStep(e) {
      PerformPrepare(acc, e);
    } else if CallerStep(e) {
      PerformCaller(acc, e);
    } else {
      PerformThread(acc, e);
    }
  }

  lemma RunMeans(acc: MmapAccessor)
    requires acc.Run().Some?
    ensures acc.Valid() && IsRun(acc.states, acc.steps) && acc.states[|acc.steps|] == acc.View()
    ensures acc.Repr == acc.Objects()
    ensures acc in acc.Repr && acc.distributor.Objects() <= acc.Repr
    ensures forall q | q in acc.reqs :: q in acc.Repr
  {
  }

  /** Takes an enabled step, whatever it is, and adds it to the run. */
  method Perform(acc: MmapAccessor, e: Event)
    requires acc.Run().Some? && Next(acc.View(), e).Some?
    modifies acc.Repr
    ensures acc.Run().Some? && acc.states == old(acc.states) + [acc.View()] && acc.steps == old(acc.steps) + [e]
    ensures fresh(acc.Repr - old(acc.Repr))
    ensures Next(old(acc.View()), e) == Some(acc.View())
  {
    hide MmapAccessor.Run, MmapAccessor.View, MmapAccessor.Objects, MmapAccessor.Valid, Lifecycle.Next, Lifecycle.IsRun;
    RunMeans(acc);
    ghost var s := acc.View();
    Dispatch(acc, e);
    acc.Record(s, e);
  }

  // ---------------------------------------------------------------- a thread among others

  /** A thread inside an operation of the accessor, by the steps that are its own to take. */
  datatype Thread = Waiting(t: nat) | Putting(r: nat) | Releasing | Elsewhere

  predicate Own(me: Thread, e: Event) {
    match me
    case Waiting(t) => (e.WaitBegin? || e.WaitCheck? || e.WaitEnd?) && e.t == t
    case Putting(r) => (e.PutGate? || e.PutAppend? || e.PutMark?) && e.r == r
    case Releasing => e.ReleaseBegin? || e.SendSentinel? || e.JoinWorker?
    case Elsewhere => false
  }

  /** The accessor has gone on from where it was: its run has been extended. */
  twostate predicate RanOn(acc: MmapAccessor)
    reads acc, acc.distributor, acc.distributor.taskQueue, acc.distributor.taskQueue.requestQueue, acc.reqs
  {
    && acc.Run().Some?
    && fresh(acc.Repr - old(acc.Repr))
    && old(acc.steps) <= acc.steps && old(acc.states) <= acc.states
  }

  /** What happens of a segment of other threads' steps, in order: a step that is not enabled in its turn does not, nor does
      one that belongs to the thread inside the operation. Also where it leads. */
  ghost function Played(s: State, me: Thread, es: seq<Event>): (seq<Event>, State) {
    if es == [] then ([], s)
    else
      var (before, s') := Played(s, me, es[..|es| - 1]);
      var e := es[|es| - 1];
      if !Own(me, e) && Next(s', e).Some? then (before + [e], Next(s', e).value) else (before, s')
  }

  ghost function Player(me: Thread): (State, seq<Event>) -> seq<Event> {
    (s, es) => Played(s, me, es).0
  }

  lemma {:induction false} PlayedIsOthers(s: State, me: Thread, es: seq<Event>)
    ensures forall e | e in Player(me)(s, es) :: e in es && !Own(me, e)
    ensures |Player(me)(s, es)| <= |es|
  {
    if es != [] {
      PlayedIsOthers(s, me, es[..|es| - 1]);
    }
  }

  lemma NonePlayed(s: State, me: Thread)
    ensures Played(s, me, []) == ([], s)
  {
  }

  lemma OnePlayed(s: State, me: Thread, es: seq<Event>, e: Event)
    ensures var (before, s') := Played(s, me, es);
            Played(s, me, es + [e]) ==
            if !Own(me, e) && Next(s', e).Some? then (before + [e], Next(s', e).value) else (before, s')
  {
    hide Lifecycle.Next;
    assert (es + [e])[..|es|] == es;
  }

  /** Other threads take their steps, in any order they like; what is not enabled does not happen. */
  method Interfere(acc: MmapAccessor, me: Thread, es: seq<Event>)
    requires acc.Run().Some?
    modifies acc.Repr
    ensures RanOn(acc) && |acc.steps| <= |old(acc.steps)| + |es|
    ensures acc.steps == old(acc.steps) + Player(me)(old(acc.View()), es)
    ensures forall k | |old(acc.steps)| <= k < |acc.steps| :: !Own(me, acc.steps[k])
  {
    hide MmapAccessor.Run, MmapAccessor.View, Lifecycle.Next, Played;
    ghost var s, before, taken := acc.View(), acc.steps, [];
    NonePlayed(s, me);
    assert es[..0] == [] && before + taken == before;
    for j := 0 to |es|
      invariant RanOn(acc) && acc.steps == before + taken && Played(s, me, es[..j]) == (taken, acc.View())
    {
      assert es[..j + 1] == es[..j] + [es[j]];
      OnePlayed(s, me, es[..j], es[j]);
      if !Own(me, es[j]) && Next(acc.View(), es[j]).Some? {
        Perform(acc, es[j]);
        taken := taken + [es[j]];
      }
    }
    assert es[..|es|] == es;
    PlayedIsOthers(s, me, es);
  }

  lemma RunLength(acc: MmapAccessor)
    requires acc.Run().Some?
    ensures |acc.states| == |acc.steps| + 1 && acc.states[|acc.steps|] == acc.View()
  {
  }

  /** The thread takes a step of its operation, the moves of which so far are given. */
  method Take(acc: MmapAccessor, e: Event, ghost me: Thread, ghost from: nat, ghost moves: seq<Move<Event>>)
    requires acc.Run().Some? && Next(acc.View(), e).Some?
    requires TracedFrom(acc.states, acc.steps, from, moves, Player(me))
    modifies acc.Repr
    ensures RanOn(acc) && acc.states == old(acc.states) + [acc.View()] && acc.steps == old(acc.steps) + [e]
    ensures Next(old(acc.View()), e) == Some(acc.View())
    ensures TracedFrom(acc.states, acc.steps, from, moves + [Act(e)], Player(me))
  {
    hide MmapAccessor.Run, MmapAccessor.View, Lifecycle.Next, TracedFrom;
    ghost var ss, es := acc.states, acc.steps;
    Perform(acc, e);
    RunLength(acc);
    ActTraced(ss, es, acc.states, acc.steps, from, moves, Player(me), e);
  }

  /** Between two of its steps the others run. */
  method LetRun(acc: MmapAccessor, me: Thread, es: seq<Event>, ghost from: nat, ghost moves: seq<Move<Event>>)
    requires acc.Run().Some? && TracedFrom(acc.states, acc.steps, from, moves, Player(me))
    modifies acc.Repr
    ensures RanOn(acc) && |acc.steps| <= |old(acc.steps)| + |es|
    ensures forall k | |old(acc.steps)| <= k < |acc.steps| :: !Own(me, acc.steps[k])
    ensures TracedFrom(acc.states, acc.steps, from, moves + [Others(es)], Player(me))
  {
    hide MmapAccessor.Run, MmapAccessor.View, Lifecycle.Next, TracedFrom, Player;
    ghost var ss, steps := acc.states, acc.steps;
    RunLength(acc);
    Interfere(acc, me, es);
    RunLength(acc);
    OthersTraced(ss, steps, acc.states, acc.steps, from, moves, Player(me), es);
  }

  /** pthread_cond_signal: some of the threads blocked on the condition are woken, at least one if there are any. */
  method Signalled(blocked: set<nat>) returns (wake: set<nat>)
    ensures wake <= blocked && (blocked != {} ==> wake != {})
  {
    wake :| wake <= blocked && (blocked != {} ==> wake != {});
  }
}
