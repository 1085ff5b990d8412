// Why the assumptions on callers and schedules are there: for each, a run of the code in which it fails and the
// guarantee that rests on it fails too.

module Races {
  import opened Common
  import P = PoolProtocol
  import opened Lifecycle
  import opened RequestInvariants
  import opened Runs
  import opened Release
  import opened Statuses
  import opened Waiters

  lemma Extend(ss: seq<State>, es: seq<Event>, e: Event) returns (ss': seq<State>, es': seq<Event>)
    requires IsRun(ss, es) && Next(ss[|es|], e).Some?
    ensures IsRun(ss', es') && es' == es + [e] && ss' == ss + [Step(ss[|es|], e)]
    ensures ss'[|es'|] == Step(ss[|es|], e)
  {
    ss', es' := ss + [Step(ss[|es|], e)], es + [e];
    RunExtends(ss, es, e);
  }

  /** A read of one byte of file 0 through descriptor 3, put and so far untouched. */
  function OneRead(put: PutState, st: Status, history: seq<Status>): Request {
    Request(Read, 0, 1, 0, 3, 3, Caller([0]), Prepared, put, false, st, history)
  }

  function Start(ws: seq<Waiter>): State {
    State(P.InitialPool(), [], ws, [[7]], map[], map[])
  }

  function QueuedRead(put: PutState, st: Status, history: seq<Status>, ws: seq<Waiter>): State {
    State(P.InitialPool().(log := [P.Entry(P.Work(0), None, 0)], slots := map[0 := 0]),
          [OneRead(put, st, history)], ws, [[7]], map[], map[3 := 0])
  }

  /** A caller gets a request, gives it a buffer and appends it. */
  lemma ReachQueued(ws: seq<Waiter>) returns (ss: seq<State>, es: seq<Event>)
    requires forall t | 0 <= t < |ws| :: ws[t] == Waiter(Outside, NoTimer)
    ensures IsRun(ss, es) && |es| > 0 && ss[|es|] == QueuedRead(Enqueued, Init, [Init], ws)
  {
    ss, es := [Start(ws)], [];
    ss, es := Extend(ss, es, GetRequest(Read, 0, 1, 0, 3));
    ss, es := Extend(ss, es, ImportReadBuf(0, Some([0])));
    ss, es := Extend(ss, es, PutGate(0));
    var s3 := ss[|es|];
    assert s3.reqs == [OneRead(Gated, Init, [Init])];
    assert P.Sleepers(s3.pool.workers) == {};
    ss, es := Extend(ss, es, PutAppend(0, {}));
    assert ss[|es|].pool.workers == s3.pool.workers;
  }

  /** Worker 0 inside the task function of request 0; the other workers have not started. */
  function Snap(stage: P.Stage, q: Request, ws: seq<Waiter>, maps: map<nat, Owner>): State {
    var idle := P.Worker(P.NotStarted, None);
    State(P.Pool([P.Entry(P.Work(0), Some(0), 0)], 1, [P.Worker(P.Running(0, stage), Some(0)), idle, idle, idle, idle],
                 map[0 := 0], [], true, 0, 1, 1, 0, 1),
          [q], ws, [[7]], maps, map[3 := 0])
  }

  lemma WorkerTakes(ss: seq<State>, es: seq<Event>, put: PutState, st: Status, history: seq<Status>, ws: seq<Waiter>)
    returns (ss': seq<State>, es': seq<Event>)
    requires IsRun(ss, es) && ss[|es|] == QueuedRead(put, st, history, ws)
    ensures IsRun(ss', es') && ss'[|es'|] == Snap(P.FirstCheck, OneRead(put, st, history), ws, map[])
  {
    ss', es' := Extend(ss, es, WorkerStart(0));
    ss', es' := Extend(ss', es', WorkerCheck(0));
    ss', es' := Extend(ss', es', WorkerBusy(0));
    var idle := P.Worker(P.NotStarted, None);
    assert ss'[|es'|].pool.workers == [P.Worker(P.Running(0, P.FirstCheck), Some(0)), idle, idle, idle, idle];
    assert ss'[|es'|].pool.log == [P.Entry(P.Work(0), Some(0), 0)];
  }

  /** A step of the task function on such a state. */
  lemma TaskStepOnSnap(stage: P.Stage, q: Request, ws: seq<Waiter>, maps: map<nat, Owner>, e: Event)
    requires var s := Snap(stage, q, ws, maps); Enabled(s, e) && TaskStep(e) && !e.Cleanup? && e.w == 0
    ensures var s := Snap(stage, q, ws, maps);
            && PoolPart(s, e).Some? && PoolPart(s, e).value.Move?
            && Step(s, e) == Snap(PoolPart(s, e).value.stage, NextRequest(s, e, 0), WaitersStep(s, e), MapsStep(s, e))
  {
    var s := Snap(stage, q, ws, maps);
    var s' := Step(s, e);
    var idle := P.Worker(P.NotStarted, None);
    assert s'.pool.workers == [P.Worker(P.Running(0, PoolPart(s, e).value.stage), Some(0)), idle, idle, idle, idle];
    assert s'.reqs == [NextRequest(s, e, 0)];
  }

  const READ_MAPPING: map<nat, Owner> := map[9 := OfWorker(0)]

  lemma Looks(q: Request, ws: seq<Waiter>)
    requires q.status != Cancel && q.dir == Read
    ensures Enabled(Snap(P.FirstCheck, q, ws, map[]), FirstLook(0))
    ensures Step(Snap(P.FirstCheck, q, ws, map[]), FirstLook(0)) == Snap(P.Mapping(0), q, ws, map[])
  {
    TaskStepOnSnap(P.FirstCheck, q, ws, map[], FirstLook(0));
  }

  lemma Maps(q: Request, ws: seq<Waiter>)
    ensures Enabled(Snap(P.Mapping(0), q, ws, map[]), TryMap(0, Some(9)))
    ensures Step(Snap(P.Mapping(0), q, ws, map[]), TryMap(0, Some(9))) == Snap(P.Copying(9), q, ws, READ_MAPPING)
  {
    TaskStepOnSnap(P.Mapping(0), q, ws, map[], TryMap(0, Some(9)));
  }

  lemma Copies(q: Request, ws: seq<Waiter>)
    requires q.file == 0 && q.offset == 0 && q.nbytes == 1
    ensures Enabled(Snap(P.Copying(9), q, ws, READ_MAPPING), CopyOut(0))
    ensures Step(Snap(P.Copying(9), q, ws, READ_MAPPING), CopyOut(0)) ==
            Snap(P.Publishing(true, Some(9)), q.(buf := Caller([7])), ws, READ_MAPPING)
  {
    TaskStepOnSnap(P.Copying(9), q, ws, READ_MAPPING, CopyOut(0));
    assert Slice([7], 0, 1) == [7];
  }

  lemma Publishes(q: Request, ws: seq<Waiter>, wake: set<nat>)
    requires SignalOk(ws, 0, wake)
    ensures Enabled(Snap(P.Publishing(true, Some(9)), q, ws, READ_MAPPING), Publish(0, wake))
    ensures Step(Snap(P.Publishing(true, Some(9)), q, ws, READ_MAPPING), Publish(0, wake)) ==
            Snap(P.Cleaning(Some(9)), q.Finish(true), WakeWaiters(ws, 0, wake), READ_MAPPING)
  {
    TaskStepOnSnap(P.Publishing(true, Some(9)), q, ws, READ_MAPPING, Publish(0, wake));
  }

  /** The worker reads the byte and publishes its verdict. */
  lemma WorkerFinishes(ss: seq<State>, es: seq<Event>, q: Request, ws: seq<Waiter>, wake: set<nat>)
    returns (ss': seq<State>, es': seq<Event>)
    requires IsRun(ss, es) && ss[|es|] == Snap(P.FirstCheck, q, ws, map[])
    requires q.status != Cancel && q.dir == Read && q.file == 0 && q.offset == 0 && q.nbytes == 1 && SignalOk(ws, 0, wake)
    ensures IsRun(ss', es')
    ensures ss'[|es'|] == Snap(P.Cleaning(Some(9)), q.(buf := Caller([7])).Finish(true), WakeWaiters(ws, 0, wake), READ_MAPPING)
  {
    Looks(q, ws);
    ss', es' := Extend(ss, es, FirstLook(0));
    Maps(q, ws);
    ss', es' := Extend(ss', es', TryMap(0, Some(9)));
    Copies(q, ws);
    ss', es' := Extend(ss', es', CopyOut(0));
    Publishes(q.(buf := Caller([7])), ws, wake);
    ss', es' := Extend(ss', es', Publish(0, wake));
  }

  // ---------------------------------------------------------------- SUBMITTED written too late

  /** A late write of SUBMITTED loses a final status: the worker finishes before put comes to write it, and from then on the
      request looks unfinished although its worker has already given its verdict. */
  lemma LateMarkLosesTheVerdict() returns (ss: seq<State>, es: seq<Event>)
    ensures IsRun(ss, es) && |es| > 0 && |ss[|es| - 1].reqs| == |ss[|es|].reqs| == 1
    ensures ss[|es| - 1].reqs[0].status == IoSuccess
    ensures ss[|es|].reqs[0].put.Put? && ss[|es|].reqs[0].history == [Init, IoSuccess, Submitted]
    ensures !PlaceIn(ss[|es|], 0).Unpublished() && !HistoriesOk(ss[|es|])
  {
    ss, es := ReachQueued([]);
    ss, es := WorkerTakes(ss, es, Enqueued, Init, [Init], []);
    ss, es := WorkerFinishes(ss, es, OneRead(Enqueued, Init, [Init]), [], {});
    LateMark(WakeWaiters([], 0, {}));
    ss, es := Extend(ss, es, PutMark(0));
  }

  lemma SnapPlace(stage: P.Stage, q: Request, ws: seq<Waiter>, maps: map<nat, Owner>)
    ensures PlaceIn(Snap(stage, q, ws, maps), 0) == At(stage)
  {
  }

  lemma LateMark(ws: seq<Waiter>)
    ensures var s := Snap(P.Cleaning(Some(9)), OneRead(Enqueued, Init, [Init]).(buf := Caller([7])).Finish(true), ws, READ_MAPPING);
            && Enabled(s, PutMark(0)) && s.reqs[0].status == IoSuccess
            && var s' := Step(s, PutMark(0));
            && |s'.reqs| == 1 && s'.reqs[0].put.Put? && s'.reqs[0].history == [Init, IoSuccess, Submitted]
            && !PlaceIn(s', 0).Unpublished() && !HistoriesOk(s')
  {
    var q := OneRead(Enqueued, Init, [Init]).(buf := Caller([7])).Finish(true);
    var s := Snap(P.Cleaning(Some(9)), q, ws, READ_MAPPING);
    SnapPlace(P.Cleaning(Some(9)), q, ws, READ_MAPPING);
    var s' := Step(s, PutMark(0));
    assert s'.pool == s.pool && PlaceIn(s', 0) == PlaceIn(s, 0);
    assert !HistoryOk(s'.reqs[0], PlaceIn(s', 0));
  }

  /** A wait that begins before put writes SUBMITTED ends at once, on a request nobody has worked on: so waitAll passes
      over a request that is queued but not yet marked. */
  lemma UnmarkedIsPassedOver() returns (ss: seq<State>, es: seq<Event>)
    ensures IsRun(ss, es) && |ss[|es|].waiters| == 1 && |ss[|es|].reqs| == 1
    ensures ss[|es|].waiters[0].phase == Leaving(0)
    ensures ss[|es|].reqs[0].Accepted() && ss[|es|].reqs[0].status == Init
  {
    ss, es := ReachQueued([Waiter(Outside, NoTimer)]);
    PassesOver();
    ss, es := Extend(ss, es, WaitBegin(0, 0, false));
    ss, es := Extend(ss, es, WaitCheck(0));
  }

  lemma PassesOver()
    ensures var s := QueuedRead(Enqueued, Init, [Init], [Waiter(Outside, NoTimer)]);
            && Next(s, WaitBegin(0, 0, false)).Some?
            && var s' := Next(s, WaitBegin(0, 0, false)).value;
            && s'.waiters == [Waiter(AtLock(0), NoTimer)] && s'.reqs == s.reqs
            && Next(s', WaitCheck(0)).Some?
            && Next(s', WaitCheck(0)).value.waiters == [Waiter(Leaving(0), NoTimer)]
            && Next(s', WaitCheck(0)).value.reqs == s.reqs
  {
  }

  // ---------------------------------------------------------------- two threads waiting for one request

  /** Two threads, both blocked on request 0, whose put has returned. */
  lemma ReachTwoBlocked() returns (ss: seq<State>, es: seq<Event>)
    ensures IsRun(ss, es)
    ensures ss[|es|] == QueuedRead(Put, Submitted, [Init, Submitted], [Waiter(Blocked(0), NoTimer), Waiter(Blocked(0), NoTimer)])
  {
    var out, at, blocked := Waiter(Outside, NoTimer), Waiter(AtLock(0), NoTimer), Waiter(Blocked(0), NoTimer);
    ss, es := ReachQueued([out, out]);
    Marks([out, out]);
    ss, es := Extend(ss, es, PutMark(0));
    Begins(0, [out, out]);
    ss, es := Extend(ss, es, WaitBegin(0, 0, false));
    Begins(1, [at, out]);
    ss, es := Extend(ss, es, WaitBegin(1, 0, false));
    Blocks(0, [at, at]);
    ss, es := Extend(ss, es, WaitCheck(0));
    Blocks(1, [blocked, at]);
    ss, es := Extend(ss, es, WaitCheck(1));
  }

  lemma Marks(ws: seq<Waiter>)
    ensures var s := QueuedRead(Enqueued, Init, [Init], ws);
            && Enabled(s, PutMark(0))
            && Step(s, PutMark(0)) == QueuedRead(Put, Submitted, [Init, Submitted], ws)
  {
    assert [Init] + [Submitted] == [Init, Submitted];
  }

  lemma Begins(t: nat, ws: seq<Waiter>)
    requires t < |ws| == 2 && ws[t] == Waiter(Outside, NoTimer)
    ensures var s := QueuedRead(Put, Submitted, [Init, Submitted], ws);
            && Enabled(s, WaitBegin(t, 0, false))
            && Step(s, WaitBegin(t, 0, false)) == QueuedRead(Put, Submitted, [Init, Submitted], ws[t := Waiter(AtLock(0), NoTimer)])
  {
  }

  lemma Blocks(t: nat, ws: seq<Waiter>)
    requires t < |ws| == 2 && ws[t] == Waiter(AtLock(0), NoTimer)
    ensures var s := QueuedRead(Put, Submitted, [Init, Submitted], ws);
            && Enabled(s, WaitCheck(t))
            && Step(s, WaitCheck(t)) == QueuedRead(Put, Submitted, [Init, Submitted], ws[t := Waiter(Blocked(0), NoTimer)])
  {
  }

  /** With two waiters on one request a wake-up is lost: pthread_cond_signal may wake one of them only, and the other
      stays blocked on a request that is finished. */
  lemma SecondWaiterForgotten() returns (ss: seq<State>, es: seq<Event>)
    ensures IsRun(ss, es) && |ss[|es|].waiters| == 2 && |ss[|es|].reqs| == 1
    ensures ss[|es|].waiters[1].phase == Blocked(0) && ss[|es|].reqs[0].status == IoSuccess
    ensures !SleepersInv(ss[|es|])
  {
    var ws := [Waiter(Blocked(0), NoTimer), Waiter(Blocked(0), NoTimer)];
    ss, es := ReachTwoBlocked();
    ss, es := WorkerTakes(ss, es, Put, Submitted, [Init, Submitted], ws);
    OneOfTwo(ws);
    ss, es := WorkerFinishes(ss, es, OneRead(Put, Submitted, [Init, Submitted]), ws, {0});
    assert ss[|es|].waiters == WakeWaiters(ws, 0, {0});
    assert ss[|es|].waiters[1] == ws[1];
  }

  lemma OneOfTwo(ws: seq<Waiter>)
    requires |ws| == 2 && BlockedOn(ws[0], 0)
    ensures SignalOk(ws, 0, {0})
  {
    assert 0 in BlockedThreads(ws, 0);
  }

  // ---------------------------------------------------------------- a put overtaken by releaseAll

  /** A put caught between the isRunning gate and the append by releaseAll appends behind the fifth sentinel. */
  lemma PutOvertaken() returns (ss: seq<State>, es: seq<Event>)
    ensures IsRun(ss, es) && BehindTheSentinels(ss[|es|], 1) && ss[|es|].reqs[1].Accepted()
  {
    ss, es := ReachSecondGated();
    ss, es := GatedCanBeOvertaken(ss, es, 1);
  }

  lemma ReachSecondGated() returns (ss: seq<State>, es: seq<Event>)
    ensures IsRun(ss, es) && |ss[|es|].reqs| == 2 && ss[|es|].reqs[1].put == Gated
    ensures ss[|es|].pool.isRunning && |ss[|es|].pool.log| == 1 && ss[|es|].pool.slots == map[0 := 0]
    ensures ss[|es|].pool.sentinels == []
  {
    ss, es := ReachQueued([]);
    ss, es := Extend(ss, es, GetRequest(Read, 0, 1, 0, 4));
    ss, es := Extend(ss, es, ImportReadBuf(1, Some([0])));
    ss, es := Extend(ss, es, PutGate(1));
  }

  lemma StaysBehind(s: State, e: Event, r: nat)
    requires Core(s) && Enabled(s, e) && BehindTheSentinels(s, r)
    ensures BehindTheSentinels(Step(s, e), r)
  {
    SlotsAfterStep(s, e);
    AcceptedAfterStep(s, e);
    if PoolPart(s, e).Some? {
      TasksAfterStep(s.pool, PoolPart(s, e).value);
    }
    assert r != (if e.PutAppend? then e.r else r + 1);
  }

  lemma BehindIsQueued(s: State, r: nat)
    requires Core(s) && BehindTheSentinels(s, r)
    ensures PlaceIn(s, r).Queued?
  {
    assert s.pool.log[s.pool.slots[r]].taker.None?;
  }

  /** Such a task is never run: in whatever way the run goes on, the request stays queued, also after the last join. */
  lemma {:induction false} OvertakenPutIsNeverRun(ss: seq<State>, es: seq<Event>, from: nat, to: nat, r: nat)
    requires IsRun(ss, es) && from <= to <= |es| && BehindTheSentinels(ss[from], r)
    ensures BehindTheSentinels(ss[to], r) && PlaceIn(ss[to], r).Queued?
  {
    if from < to {
      OvertakenPutIsNeverRun(ss, es, from, to - 1, r);
      BehindInRun(ss, es, to - 1, r);
    }
    QueuedInRun(ss, es, to, r);
  }

  lemma QueuedInRun(ss: seq<State>, es: seq<Event>, k: nat, r: nat)
    requires IsRun(ss, es) && k <= |es| && BehindTheSentinels(ss[k], r)
    ensures PlaceIn(ss[k], r).Queued?
  {
    InvThroughoutRun(ss, es, k);
    BehindIsQueued(ss[k], r);
  }

  lemma BehindInRun(ss: seq<State>, es: seq<Event>, k: nat, r: nat)
    requires IsRun(ss, es) && k < |es| && BehindTheSentinels(ss[k], r)
    ensures BehindTheSentinels(ss[k + 1], r)
  {
    InvThroughoutRun(ss, es, k);
    assert StepAt(ss, es, k);
    StaysBehind(ss[k], es[k], r);
  }
}
