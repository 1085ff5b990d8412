// releaseAll on the whole accessor: the drain, what it leaves behind, and its termination.

module Release {
  import opened Common
  import P = PoolProtocol
  import PI = PoolInvariants
  import Shutdown
  import opened Lifecycle
  import opened RequestInvariants
  import opened Resources
  import opened Runs

  // ---------------------------------------------------------------- the drain

  /** After the five joins, the accepted requests whose task has been run are exactly those queued before the fifth
      sentinel. Of these no mapping is left, and a descriptor exactly if the worker found CANCEL at its first check, or
      if open had returned 0, which the clean-up takes for "no descriptor". */
  lemma ReleasedRequests(s: State, r: nat)
    requires Inv(s) && s.pool.joined == P.THREAD_POOL_SIZE
    requires r < |s.reqs| && s.reqs[r].Accepted()
    ensures r in s.pool.slots && |s.pool.sentinels| == P.THREAD_POOL_SIZE
    ensures PlaceIn(s, r).Finished? <==> s.pool.slots[r] < s.pool.sentinels[4]
    ensures PlaceIn(s, r).Finished? ==> Owns(s, OfRequest(r)).None?
    ensures PlaceIn(s, r).Finished? ==> (s.reqs[r].fd >= 0 <==> s.reqs[r].skipped || s.reqs[r].fd0 == 0)
    ensures !PlaceIn(s, r).Finished? ==> PlaceIn(s, r).Queued? && s.reqs[r].fd == s.reqs[r].fd0
  {
    var i := s.pool.slots[r];
    assert s.pool.log[i].task == P.Work(r);
    Shutdown.Drained(s.pool);
    assert Shutdown.RunOnce(s.pool, i) <==> i < s.pool.sentinels[4];
    assert PlaceIn(s, r).Finished? <==> Shutdown.RunOnce(s.pool, i);
    assert RequestOk(s.reqs[r], PlaceIn(s, r));
  }

  /** With nothing queued behind the fifth sentinel, the mappings left are those of write requests that were allocated
      and never put, and the kernel's table lists no others. */
  lemma ReleasedMappings(s: State)
    requires Inv(s) && s.pool.joined == P.THREAD_POOL_SIZE && s.pool.Todo() == 0
    ensures forall a | a in s.maps :: s.maps[a].OfRequest? && s.maps[a].r < |s.reqs| &&
              (s.reqs[s.maps[a].r].put.NotPut? || s.reqs[s.maps[a].r].put.Gated?) && s.reqs[s.maps[a].r].buf == Mapped(a)
  {
    forall a | a in s.maps
      ensures s.maps[a].OfRequest? && s.maps[a].r < |s.reqs|
      ensures (s.reqs[s.maps[a].r].put.NotPut? || s.reqs[s.maps[a].r].put.Gated?) && s.reqs[s.maps[a].r].buf == Mapped(a)
    {
      assert Owns(s, s.maps[a]) == Some(a);
      match s.maps[a]
      case OfWorker(w) => Shutdown.JoinedWorkers(s.pool); JoinedOwnsNothing(s, w);
      case OfRequest(r) => if s.reqs[r].Accepted() { ProcessedOwnsNothing(s, r); }
    }
  }

  lemma JoinedOwnsNothing(s: State, w: nat)
    requires forall v | 0 <= v < |s.pool.workers| :: s.pool.workers[v].phase.Joined?
    ensures Owns(s, OfWorker(w)).None?
  {
  }

  lemma ProcessedOwnsNothing(s: State, r: nat)
    requires Inv(s) && s.pool.joined == P.THREAD_POOL_SIZE && s.pool.Todo() == 0
    requires r < |s.reqs| && s.reqs[r].Accepted()
    ensures PlaceIn(s, r).Finished? && Owns(s, OfRequest(r)).None?
  {
    ReleasedRequests(s, r);
    Shutdown.DrainedCompletely(s.pool);
  }

  // ---------------------------------------------------------------- the shape of the queue

  /** The queue is a run of ordinary tasks followed by the sentinels sent so far. */
  ghost predicate ShapeOk(p: P.Pool) {
    && (forall i | 0 <= i < |p.log| :: p.log[i].task.Sentinel? <==> i >= |p.log| - |p.sentinels|)
    && (forall k | 0 <= k < |p.sentinels| :: p.sentinels[k] == |p.log| - |p.sentinels| + k)
  }

  /** No task is appended while a sentinel is in the queue. */
  ghost predicate Orderly(s: State, e: Event) {
    e.PutAppend? ==> s.pool.sentinels == []
  }

  lemma TasksAfterStep(p: P.Pool, e: P.Event)
    requires P.Enabled(p, e)
    ensures var p' := P.Step(p, e);
            && |p'.log| == |p.log| + (if e.Submit? then 1 else 0)
            && (forall i | 0 <= i < |p.log| :: p'.log[i].task == p.log[i].task)
            && (e.Submit? ==> p'.log[|p.log|].task == e.task)
            && p'.sentinels == if e.Submit? && e.task.Sentinel? then p.sentinels + [|p.log|] else p.sentinels
  {
  }

  lemma SentinelsLast(p: P.Pool, e: P.Event)
    requires ShapeOk(p) && P.Enabled(p, e)
    ensures ShapeOk(P.Step(p, e)) <==> (e.Submit? && e.task.Work? ==> p.sentinels == [])
  {
    TasksAfterStep(p, e);
    if e.Submit? && e.task.Work? {
      assert P.Step(p, e).log[|p.log|].task.Work?;
    }
  }

  lemma StepKeepsShape(s: State, e: Event)
    requires ShapeOk(s.pool) && Enabled(s, e)
    ensures ShapeOk(Step(s, e).pool) <==> Orderly(s, e)
  {
    hide ShapeOk, Lifecycle.RequestsStep, MapsStep, FdsStep, FilesStep, WaitersStep;
    if PoolPart(s, e).Some? {
      SentinelsLast(s.pool, PoolPart(s, e).value);
    }
  }

  ghost predicate OrderlyRun(ss: seq<State>, es: seq<Event>) {
    IsRun(ss, es) && forall k {:trigger Orderly(ss[k], es[k])} | 0 <= k < |es| :: Orderly(ss[k], es[k])
  }

  lemma {:induction false} QueueShapeThroughoutRun(ss: seq<State>, es: seq<Event>, k: nat)
    requires OrderlyRun(ss, es) && k <= |es|
    ensures ShapeOk(ss[k].pool)
  {
    if k > 0 {
      QueueShapeThroughoutRun(ss, es, k - 1);
      assert StepAt(ss, es, k - 1) && Orderly(ss[k - 1], es[k - 1]);
      StepKeepsShape(ss[k - 1], es[k - 1]);
    }
  }

  /** The sentinels stand behind all ordinary tasks throughout a run if and only if no task is appended behind one. */
  lemma ShapeIffOrderly(ss: seq<State>, es: seq<Event>)
    requires IsRun(ss, es)
    ensures OrderlyRun(ss, es) <==> forall k | 0 <= k < |ss| :: ShapeOk(ss[k].pool)
  {
    hide ShapeOk, Orderly, Lifecycle.Enabled, Lifecycle.Step, Initial;
    if OrderlyRun(ss, es) {
      forall k | 0 <= k < |ss|
        ensures ShapeOk(ss[k].pool)
      {
        QueueShapeThroughoutRun(ss, es, k);
      }
    }
    if forall k | 0 <= k < |ss| :: ShapeOk(ss[k].pool) {
      forall k {:trigger Orderly(ss[k], es[k])} | 0 <= k < |es|
        ensures Orderly(ss[k], es[k])
      {
        assert StepAt(ss, es, k) && ShapeOk(ss[k].pool) && ShapeOk(ss[k + 1].pool);
        StepKeepsShape(ss[k], es[k]);
      }
    }
  }

  // ---------------------------------------------------------------- the complete drain

  /** Nothing stands behind the fifth sentinel. */
  ghost predicate NoneBehind(p: P.Pool) {
    |p.sentinels| == P.THREAD_POOL_SIZE ==> p.sentinels[4] == |p.log| - 1
  }

  /** No task is appended once the fifth sentinel is in the queue. */
  ghost predicate InTime(s: State, e: Event) {
    e.PutAppend? ==> |s.pool.sentinels| < P.THREAD_POOL_SIZE
  }

  lemma FifthStaysLast(p: P.Pool, e: P.Event)
    requires PI.IndexInv(p) && P.Enabled(p, e)
    ensures NoneBehind(P.Step(p, e)) <==>
            NoneBehind(p) && (e.Submit? && e.task.Work? ==> |p.sentinels| < P.THREAD_POOL_SIZE)
  {
    TasksAfterStep(p, e);
  }

  lemma StepKeepsNoneBehind(s: State, e: Event)
    requires Core(s) && Enabled(s, e)
    ensures NoneBehind(Step(s, e).pool) <==> NoneBehind(s.pool) && InTime(s, e)
  {
    hide NoneBehind, QueueInv, RequestsOk, Guard, Lifecycle.Step, PoolPart, P.Enabled, P.Step;
    PoolAfterStep(s, e);
    if PoolPart(s, e).Some? {
      FifthStaysLast(s.pool, PoolPart(s, e).value);
    }
  }

  ghost predicate InTimeUpTo(ss: seq<State>, es: seq<Event>, k: nat)
    requires k <= |es| < |ss|
  {
    forall j {:trigger InTime(ss[j], es[j])} | 0 <= j < k :: InTime(ss[j], es[j])
  }

  ghost predicate InTimeRun(ss: seq<State>, es: seq<Event>) {
    IsRun(ss, es) && InTimeUpTo(ss, es, |es|)
  }

  lemma InitiallyNoneBehind()
    ensures NoneBehind(P.InitialPool())
  {
  }

  lemma {:induction false} NoneBehindIffInTime(ss: seq<State>, es: seq<Event>, k: nat)
    requires IsRun(ss, es) && k <= |es|
    ensures NoneBehind(ss[k].pool) <==> InTimeUpTo(ss, es, k)
  {
    hide NoneBehind, InTime, Lifecycle.Enabled, Lifecycle.Step, Core;
    if k == 0 {
      assert ss[0].pool == P.InitialPool();
      InitiallyNoneBehind();
    } else {
      NoneBehindIffInTime(ss, es, k - 1);
      InvThroughoutRun(ss, es, k - 1);
      assert StepAt(ss, es, k - 1);
      StepKeepsNoneBehind(ss[k - 1], es[k - 1]);
      assert InTimeUpTo(ss, es, k) <==> InTimeUpTo(ss, es, k - 1) && InTime(ss[k - 1], es[k - 1]);
    }
  }

  /** Drain on shutdown: once all five workers are joined, the queue is empty if and only if every accepted request has
      been processed to the end, if and only if no put appended behind the fifth sentinel. */
  lemma DrainIffInTime(ss: seq<State>, es: seq<Event>, k: nat)
    requires IsRun(ss, es) && k <= |es| && ss[k].pool.joined == P.THREAD_POOL_SIZE
    ensures ss[k].pool.Todo() == 0 <==> InTimeUpTo(ss, es, k)
    ensures (forall r | 0 <= r < |ss[k].reqs| && ss[k].reqs[r].Accepted() :: PlaceIn(ss[k], r).Finished?) <==>
            InTimeUpTo(ss, es, k)
  {
    var s := ss[k];
    InvThroughoutRun(ss, es, k);
    NoneBehindIffInTime(ss, es, k);
    Shutdown.Drained(s.pool);
    Shutdown.DrainedCompletely(s.pool);
    forall r | 0 <= r < |s.reqs| && s.reqs[r].Accepted()
      ensures PlaceIn(s, r).Finished? <==> s.pool.slots[r] < s.pool.sentinels[4]
    {
      ReleasedRequests(s, r);
    }
    if s.pool.Todo() > 0 {
      LastIsUnfinished(s);
    }
  }

  lemma LastIsUnfinished(s: State)
    requires Inv(s) && s.pool.joined == P.THREAD_POOL_SIZE && s.pool.Todo() > 0
    ensures exists r :: 0 <= r < |s.reqs| && s.reqs[r].Accepted() && !PlaceIn(s, r).Finished?
  {
    Shutdown.DrainedCompletely(s.pool);
    var i :| 0 <= i < |s.pool.log| && s.pool.log[i].task.Work? && !Shutdown.RunOnce(s.pool, i);
    var r := s.pool.log[i].task.req;
    assert r in s.pool.slots && s.pool.slots[r] == i;
    ReleasedRequests(s, r);
    Shutdown.Drained(s.pool);
  }

  /** What a complete drain leaves: each accepted request's task function ran to its end exactly once, and its buffer has
      been given back. */
  lemma InTimeRunsDrain(ss: seq<State>, es: seq<Event>, k: nat)
    requires InTimeRun(ss, es) && k <= |es| && ss[k].pool.joined == P.THREAD_POOL_SIZE
    ensures ss[k].pool.head == |ss[k].pool.log| && ss[k].pool.Todo() == 0
    ensures forall i | 0 <= i < |ss[k].pool.log| && ss[k].pool.log[i].task.Work? :: Shutdown.RunOnce(ss[k].pool, i)
    ensures forall r | 0 <= r < |ss[k].reqs| && ss[k].reqs[r].Accepted() ::
              PlaceIn(ss[k], r).Finished? && Owns(ss[k], OfRequest(r)).None?
  {
    var s := ss[k];
    InvThroughoutRun(ss, es, k);
    DrainIffInTime(ss, es, k);
    Shutdown.DrainedCompletely(s.pool);
    forall r | 0 <= r < |s.reqs| && s.reqs[r].Accepted()
      ensures PlaceIn(s, r).Finished? && Owns(s, OfRequest(r)).None?
    {
      ProcessedOwnsNothing(s, r);
    }
  }

  // ---------------------------------------------------------------- what the caller of releaseAll can check

  /** No put stands between the isRunning gate and the append. */
  ghost predicate NoneGated(s: State) {
    forall r | 0 <= r < |s.reqs| :: !s.reqs[r].put.Gated?
  }

  /** The run goes on with releaseAll. */
  ghost predicate GoesOn(ss: seq<State>, es: seq<Event>, ss': seq<State>, es': seq<Event>) {
    IsRun(ss', es') && ss <= ss' && es + [ReleaseBegin] <= es'
  }

  lemma RunningShape(s: State)
    requires Core(s) && s.pool.isRunning
    ensures ShapeOk(s.pool)
  {
  }

  lemma OpenPool(s: State)
    requires Core(s) && s.pool.isRunning
    ensures s.pool.sentinels == []
  {
  }

  lemma ClosedStaysShut(s: State, e: Event)
    requires Enabled(s, e) && !s.pool.isRunning && NoneGated(s)
    ensures !Step(s, e).pool.isRunning && NoneGated(Step(s, e)) && Orderly(s, e)
  {
    hide MapsStep, FdsStep, FilesStep, WaitersStep, RequestStep;
    assert Step(s, e).reqs == RequestsStep(s, e);
    if Target(s, e).Some? {
      GateStaysShut(s, e);
    }
  }

  lemma GateStaysShut(s: State, e: Event)
    requires Guard(s, e) && Target(s, e).Some? && !s.pool.isRunning && !s.reqs[Target(s, e).value].put.Gated?
    ensures !RequestStep(s, e).put.Gated?
  {
  }

  lemma Closes(s: State)
    requires Enabled(s, ReleaseBegin)
    ensures s.pool.isRunning && !Step(s, ReleaseBegin).pool.isRunning && Step(s, ReleaseBegin).reqs == s.reqs
    ensures Step(s, ReleaseBegin).pool == s.pool.(isRunning := false)
  {
  }

  lemma {:induction false} QuietReleaseKeepsShape(ss: seq<State>, es: seq<Event>, from: nat, to: nat)
    requires IsRun(ss, es) && from < to <= |es| && es[from] == ReleaseBegin && NoneGated(ss[from])
    ensures ShapeOk(ss[to].pool) && !ss[to].pool.isRunning && NoneGated(ss[to])
  {
    var s, e := ss[to - 1], es[to - 1];
    assert StepAt(ss, es, to - 1);
    if to == from + 1 {
      InvThroughoutRun(ss, es, from);
      Closes(s);
      RunningShape(s);
    } else {
      QuietReleaseKeepsShape(ss, es, from, to - 1);
      ClosedStaysShut(s, e);
    }
    StepKeepsShape(s, e);
  }

  ghost predicate BehindTheSentinels(s: State, r: nat) {
    && r in s.pool.slots && r < |s.reqs| && |s.pool.sentinels| == P.THREAD_POOL_SIZE
    && s.pool.sentinels[4] < s.pool.slots[r]
  }

  /** Sends the rest of the sentinels; nothing else moves. */
  lemma {:induction false} SendRest(ss: seq<State>, es: seq<Event>) returns (ss': seq<State>, es': seq<Event>)
    requires IsRun(ss, es) && !ss[|es|].pool.isRunning && |ss[|es|].pool.sentinels| <= P.THREAD_POOL_SIZE
    ensures IsRun(ss', es') && ss <= ss' && es <= es'
    ensures !ss'[|es'|].pool.isRunning && |ss'[|es'|].pool.sentinels| == P.THREAD_POOL_SIZE
    ensures ss'[|es'|].reqs == ss[|es|].reqs && ss'[|es'|].pool.slots == ss[|es|].pool.slots
    ensures |ss'[|es'|].pool.log| - |ss'[|es'|].pool.sentinels| == |ss[|es|].pool.log| - |ss[|es|].pool.sentinels|
    decreases P.THREAD_POOL_SIZE - |ss[|es|].pool.sentinels|
  {
    if |ss[|es|].pool.sentinels| == P.THREAD_POOL_SIZE {
      ss', es' := ss, es;
    } else {
      var e := SendSentinel(P.Sleepers(ss[|es|].pool.workers));
      RunExtends(ss, es, e);
      Sent(ss[|es|], e);
      ss', es' := SendRest(ss + [Step(ss[|es|], e)], es + [e]);
    }
  }

  lemma Sent(s: State, e: Event)
    requires Enabled(s, e) && e.SendSentinel?
    ensures var s' := Step(s, e);
            && s'.reqs == s.reqs && s'.pool.slots == s.pool.slots && s'.pool.isRunning == s.pool.isRunning
            && |s'.pool.log| == |s.pool.log| + 1 && |s'.pool.sentinels| == |s.pool.sentinels| + 1
  {
  }

  lemma LateAppend(s: State, r: nat)
    requires Core(s) && r < |s.reqs| && s.reqs[r].put.Gated? && |s.pool.sentinels| == P.THREAD_POOL_SIZE
    requires |s.pool.log| - |s.pool.sentinels| < P.MAX_TASKS
    ensures var e := PutAppend(r, P.Sleepers(s.pool.workers));
            Enabled(s, e) && BehindTheSentinels(Step(s, e), r) && Step(s, e).reqs[r].put.Enqueued? && !InTime(s, e)
  {
    var e := PutAppend(r, P.Sleepers(s.pool.workers));
    assert s.pool.sentinels[4] < |s.pool.log|;
    assert r !in s.pool.slots;
    SlotsAfterStep(s, e);
    RequestAfterStep(s, e, r);
    TasksAfterStep(s.pool, PoolPart(s, e).value);
  }

  /** Every put that stands at the gate when releaseAll begins may be overtaken: the run can go on so that its task ends up
      behind the fifth sentinel. */
  lemma GatedCanBeOvertaken(ss: seq<State>, es: seq<Event>, r: nat) returns (ss': seq<State>, es': seq<Event>)
    requires IsRun(ss, es) && Enabled(ss[|es|], ReleaseBegin) && |ss[|es|].pool.log| < P.MAX_TASKS
    requires r < |ss[|es|].reqs| && ss[|es|].reqs[r].put.Gated?
    ensures GoesOn(ss, es, ss', es') && BehindTheSentinels(ss'[|es'|], r) && ss'[|es'|].reqs[r].put.Enqueued?
  {
    hide Core, Lifecycle.Enabled, Lifecycle.Step, BehindTheSentinels, InTime;
    InvThroughoutRun(ss, es, |es|);
    Closes(ss[|es|]);
    OpenPool(ss[|es|]);
    RunExtends(ss, es, ReleaseBegin);
    ss', es' := SendRest(ss + [Step(ss[|es|], ReleaseBegin)], es + [ReleaseBegin]);
    InvThroughoutRun(ss', es', |es'|);
    var s := ss'[|es'|];
    var e := PutAppend(r, P.Sleepers(s.pool.workers));
    LateAppend(s, r);
    RunExtends(ss', es', e);
    ss', es' := ss' + [Step(s, e)], es' + [e];
  }

  lemma BehindBreaksShape(s: State, r: nat)
    requires Core(s) && BehindTheSentinels(s, r)
    ensures !ShapeOk(s.pool) && !NoneBehind(s.pool)
  {
  }

  /** What the caller of releaseAll can check is exact: however the run goes on, the sentinels stay behind all ordinary
      tasks, and likewise the fifth one stays last, if and only if no put stands at the gate when releaseAll begins. */
  lemma ReleaseInOrderIffQuiet(ss: seq<State>, es: seq<Event>)
    requires IsRun(ss, es) && Enabled(ss[|es|], ReleaseBegin) && |ss[|es|].pool.log| < P.MAX_TASKS
    ensures NoneGated(ss[|es|]) <==>
            forall ss': seq<State>, es': seq<Event> | GoesOn(ss, es, ss', es') :: ShapeOk(ss'[|es'|].pool)
    ensures NoneGated(ss[|es|]) <==>
            forall ss': seq<State>, es': seq<Event> | GoesOn(ss, es, ss', es') :: NoneBehind(ss'[|es'|].pool)
  {
    hide ShapeOk, NoneBehind, BehindTheSentinels, Lifecycle.Enabled, Lifecycle.Step;
    if NoneGated(ss[|es|]) {
      forall ss': seq<State>, es': seq<Event> | GoesOn(ss, es, ss', es')
        ensures ShapeOk(ss'[|es'|].pool) && NoneBehind(ss'[|es'|].pool)
      {
        assert es'[|es|] == (es + [ReleaseBegin])[|es|] == ReleaseBegin && ss'[|es|] == ss[|es|];
        QuietReleaseKeepsShape(ss', es', |es|, |es'|);
        ShapeMeansNoneBehind(ss'[|es'|].pool);
      }
    } else {
      var r :| 0 <= r < |ss[|es|].reqs| && ss[|es|].reqs[r].put.Gated?;
      var ss', es' := GatedCanBeOvertaken(ss, es, r);
      InvThroughoutRun(ss', es', |es'|);
      BehindBreaksShape(ss'[|es'|], r);
    }
  }

  lemma ShapeMeansNoneBehind(p: P.Pool)
    requires ShapeOk(p)
    ensures NoneBehind(p)
  {
  }

  /** The caller's side of the drain: no put stands at the gate when releaseAll begins. */
  ghost predicate Quiet(s: State, e: Event) {
    e.ReleaseBegin? ==> NoneGated(s)
  }

  ghost predicate QuietRun(ss: seq<State>, es: seq<Event>) {
    IsRun(ss, es) && forall k {:trigger Quiet(ss[k], es[k])} | 0 <= k < |es| :: Quiet(ss[k], es[k])
  }

  lemma {:induction false} QuietStaysShut(ss: seq<State>, es: seq<Event>, k: nat)
    requires QuietRun(ss, es) && k <= |es|
    ensures !ss[k].pool.isRunning ==> NoneGated(ss[k])
  {
    if k > 0 {
      var s, e := ss[k - 1], es[k - 1];
      QuietStaysShut(ss, es, k - 1);
      assert StepAt(ss, es, k - 1) && Quiet(s, e);
      if !s.pool.isRunning {
        ClosedStaysShut(s, e);
      } else if e.ReleaseBegin? {
        Closes(s);
      } else {
        StaysOpen(s, e);
      }
    }
  }

  lemma StaysOpen(s: State, e: Event)
    requires Enabled(s, e) && s.pool.isRunning && !e.ReleaseBegin?
    ensures Step(s, e).pool.isRunning
  {
    hide MapsStep, FdsStep, FilesStep, WaitersStep, Lifecycle.RequestsStep;
  }

  /** A caller who keeps puts and releaseAll apart has orderly runs, and orderly runs are in time. */
  lemma QuietRunsAreInOrder(ss: seq<State>, es: seq<Event>)
    ensures QuietRun(ss, es) ==> OrderlyRun(ss, es)
    ensures OrderlyRun(ss, es) ==> InTimeRun(ss, es)
  {
    if QuietRun(ss, es) {
      forall k {:trigger Orderly(ss[k], es[k])} | 0 <= k < |es|
        ensures Orderly(ss[k], es[k])
      {
        QuietStaysShut(ss, es, k);
        InvThroughoutRun(ss, es, k);
        assert StepAt(ss, es, k);
        OpenMeansNoSentinel(ss[k], es[k]);
      }
    }
    if OrderlyRun(ss, es) {
      forall k {:trigger InTime(ss[k], es[k])} | 0 <= k < |es|
        ensures InTime(ss[k], es[k])
      {
        assert Orderly(ss[k], es[k]);
      }
    }
  }

  lemma OpenMeansNoSentinel(s: State, e: Event)
    requires Core(s) && Enabled(s, e) && (!s.pool.isRunning ==> NoneGated(s))
    ensures Orderly(s, e)
  {
  }

  // ---------------------------------------------------------------- termination

  /** A step of a worker. */
  predicate WorkerStep(e: Event) {
    TaskStep(e) || e.WorkerStart? || e.WorkerCheck? || e.WorkerExit? || e.WorkerBusy? || e.WorkerIdle?
  }

  /** A step of the shutdown: of a worker, or of the thread inside releaseAll. */
  predicate ShutdownStep(e: Event) {
    WorkerStep(e) || e.SendSentinel? || e.JoinWorker?
  }

  ghost function ShutdownSteps(): (State, Event) -> nat {
    (s, e) => if ShutdownStep(e) then 1 else 0
  }

  lemma ShutdownStepFalls(s: State, e: Event)
    requires Core(s) && Enabled(s, e) && !e.PutAppend? && !e.WorkerSpurious?
    ensures Shutdown.Measure(Step(s, e).pool) + ShutdownSteps()(s, e) <= Shutdown.Measure(s.pool)
  {
    ShutdownPoolPart(s, e);
    if ShutdownStep(e) {
      Shutdown.MeasureFalls(s.pool, PoolPart(s, e).value);
    }
  }

  lemma ShutdownPoolPart(s: State, e: Event)
    requires Enabled(s, e) && !e.PutAppend? && !e.WorkerSpurious?
    ensures ShutdownStep(e) ==> PoolPart(s, e).Some? && Shutdown.ShutdownStep(PoolPart(s, e).value)
    ensures ShutdownStep(e) ==> Step(s, e).pool == P.Step(s.pool, PoolPart(s, e).value)
    ensures !ShutdownStep(e) ==> Shutdown.Measure(Step(s, e).pool) == Shutdown.Measure(s.pool)
  {
  }

  lemma MeasureNonNegative(p: P.Pool)
    requires PI.LogInv(p)
    ensures 0 <= Shutdown.Measure(p)
  {
  }

  /** The pool does not work for ever: from any state, a run without new appends and spurious wake-ups contains at most
      Measure steps of the workers and of releaseAll, whatever other threads do in between. In particular a shutdown
      terminates. */
  lemma {:induction false} WorkIsBounded(ss: seq<State>, es: seq<Event>, from: nat, to: nat)
    requires IsRun(ss, es) && from <= to <= |es|
    requires forall k | from <= k < to :: !es[k].PutAppend? && !es[k].WorkerSpurious?
    ensures 0 <= Shutdown.Measure(ss[to].pool)
    ensures Count(ss, es, from, to, ShutdownSteps()) + Shutdown.Measure(ss[to].pool) <= Shutdown.Measure(ss[from].pool)
  {
    if from < to {
      WorkIsBounded(ss, es, from, to - 1);
      RunStepFalls(ss, es, to - 1);
    }
    MeasureInRun(ss, es, to);
  }

  lemma RunStepFalls(ss: seq<State>, es: seq<Event>, k: nat)
    requires IsRun(ss, es) && k < |es| && !es[k].PutAppend? && !es[k].WorkerSpurious?
    ensures Shutdown.Measure(ss[k + 1].pool) + ShutdownSteps()(ss[k], es[k]) <= Shutdown.Measure(ss[k].pool)
  {
    InvThroughoutRun(ss, es, k);
    assert StepAt(ss, es, k);
    ShutdownStepFalls(ss[k], es[k]);
  }

  lemma MeasureInRun(ss: seq<State>, es: seq<Event>, k: nat)
    requires IsRun(ss, es) && k <= |es|
    ensures 0 <= Shutdown.Measure(ss[k].pool)
  {
    InvThroughoutRun(ss, es, k);
    MeasureNonNegative(ss[k].pool);
  }

  /** Shutdown cannot get stuck: while some worker is not yet joined, some shutdown step can be taken. */
  lemma ShutdownProgress(s: State) returns (e: Event)
    requires Core(s) && !s.pool.isRunning && s.pool.joined < P.THREAD_POOL_SIZE
    ensures Enabled(s, e) && ShutdownStep(e)
  {
    if |s.pool.sentinels| < P.THREAD_POOL_SIZE {
      e := SendSentinel(P.Sleepers(s.pool.workers));
    } else if P.Enabled(s.pool, P.Join) {
      e := JoinWorker;
    } else {
      var w := Shutdown.ShutdownNeverStuck(s.pool);
      e := WorkerProgress(s, w);
    }
  }

  /** A worker that is neither asleep nor gone can always take its next step. */
  lemma WorkerProgress(s: State, w: nat) returns (e: Event)
    requires Core(s) && Shutdown.CanMove(s.pool, w)
    ensures Enabled(s, e) && WorkerStep(e)
  {
    match s.pool.workers[w].phase
    case NotStarted => e := WorkerStart(w);
    case Checking => e := WorkerCheck(w);
    case Woken => e := WorkerCheck(w);
    case Holding(i) =>
      assert s.pool.workers[w].Held() == Some(i);
      e := if !s.pool.isRunning && s.pool.log[i].task.Sentinel? then WorkerExit(w) else WorkerBusy(w);
    case Running(i, stage) =>
      WorkingPlace(s, w);
      assert StageOk(s.reqs[Job(s, w)], PlaceIn(s, Job(s, w)));
      e := TaskProgress(s, w);
  }

  /** Inside a task function every outcome of a system call leads on. */
  lemma TaskProgress(s: State, w: nat) returns (e: Event)
    requires Works(s, w) && StageOk(s.reqs[Job(s, w)], At(StageOf(s, w)))
    ensures Enabled(s, e) && WorkerStep(e)
  {
    match StageOf(s, w)
    case FirstCheck => e := FirstLook(w);
    case Mapping(_) => e := TryMap(w, None);
    case Copying(_) => e := CopyOut(w);
    case Syncing => e := Sync(w, true);
    case Publishing(_, _) => e := Publish(w, BlockedThreads(s.waiters, Job(s, w)));
    case Cleaning(_) => e := Cleanup(w);
    case Returning => e := WorkerIdle(w);
  }

  /** A pool that has not been closed never leaves a request behind: as long as some accepted request is not finished, a
      worker can take a step. With WorkIsBounded, every accepted request is finished after finitely many of them. */
  lemma UnfinishedMeansWork(s: State, r: nat) returns (e: Event)
    requires Core(s) && s.pool.isRunning && r in s.pool.slots && !PlaceIn(s, r).Finished?
    ensures Enabled(s, e) && WorkerStep(e)
  {
    var w := Shutdown.SomebodyCanMove(s.pool, s.pool.slots[r]);
    e := WorkerProgress(s, w);
  }

  /** The only state without a further shutdown step is the fully joined one, and there all counters are zero. */
  lemma StuckMeansReleased(s: State)
    requires Inv(s) && !s.pool.isRunning
    requires forall e | ShutdownStep(e) :: !Enabled(s, e)
    ensures s.pool.joined == P.THREAD_POOL_SIZE
    ensures s.pool.busy == s.pool.idle == s.pool.alive == 0
  {
    if s.pool.joined < P.THREAD_POOL_SIZE {
      var e := ShutdownProgress(s);
      assert false;
    }
    Shutdown.Drained(s.pool);
  }
}
