// What releaseAll guarantees: the queue drains, every worker leaves, and it does not take forever.

module Shutdown {
  import opened Common
  import opened PoolProtocol
  import opened PoolInvariants
  import opened PoolCounters

  ghost predicate PoolInv(p: Pool) {
    LogInv(p) && CountInv(p) && IndicesInv(p) && WakeInv(p)
  }

  lemma InitialPoolInv()
    ensures PoolInv(InitialPool())
  {
    var p := InitialPool();
    assert forall w | 0 <= w < 5 :: p.workers[w] == Worker(NotStarted, None);
    FreshPoolInv(p);
  }

  lemma FreshPoolInv(p: Pool)
    requires |p.workers| == 5 && p == Pool([], 0, p.workers, map[], [], true, 0, 0, 0, 0, 0)
    requires forall w | 0 <= w < 5 :: p.workers[w] == Worker(NotStarted, None)
    ensures PoolInv(p)
  {
    SumOfZeros(p.workers, Busy);
    SumOfZeros(p.workers, Alive);
    SumOfZeros(p.workers, Started);
  }

  lemma StepKeepsPoolInv(p: Pool, e: Event)
    requires PoolInv(p) && Enabled(p, e)
    ensures PoolInv(Step(p, e))
  {
    StepKeepsLogInv(p, e);
    StepKeepsCountInv(p, e);
    StepKeepsIndices(p, e);
    StepKeepsWakeInv(p, e);
  }

  // ---------------------------------------------------------------- drain

  /** Entry i is an accepted task that has been taken and run to the end, once. */
  ghost predicate RunOnce(p: Pool, i: nat) {
    i < |p.log| && p.log[i].task.Work? && p.log[i].taker.Some? && p.log[i].runs == 1
  }

  /** When all five workers have been joined, each has consumed one of the five sentinels and no two the same; exactly
      the tasks queued before the fifth sentinel have been run, each once; exactly what was queued behind it is left. */
  lemma Drained(p: Pool)
    requires PoolInv(p) && p.joined == THREAD_POOL_SIZE
    ensures |p.sentinels| == THREAD_POOL_SIZE && p.head == p.sentinels[4] + 1
    ensures forall w | 0 <= w < |p.workers| :: p.workers[w].phase.Joined? && p.log[p.workers[w].phase.i].task.Sentinel?
    ensures forall v, w | 0 <= v < w < |p.workers| :: p.workers[v].phase != p.workers[w].phase
    ensures forall i | 0 <= i < |p.log| && p.log[i].task.Work? :: RunOnce(p, i) <==> i < p.sentinels[4]
    ensures forall i | 0 <= i < |p.log| && p.log[i].task.Work? && !RunOnce(p, i) :: p.log[i].taker.None? && p.log[i].runs == 0
    ensures p.busy == p.idle == p.alive == 0
  {
    JoinedWorkers(p);
    JoinedCounters(p);
    TasksDrained(p);
  }

  lemma TasksDrained(p: Pool)
    requires LogInv(p) && p.joined == THREAD_POOL_SIZE
    ensures |p.sentinels| == THREAD_POOL_SIZE && p.head == p.sentinels[4] + 1
    ensures forall i | 0 <= i < |p.log| && p.log[i].task.Work? :: RunOnce(p, i) <==> i < p.sentinels[4]
    ensures forall i | 0 <= i < |p.log| && p.log[i].task.Work? && !RunOnce(p, i) :: p.log[i].taker.None? && p.log[i].runs == 0
  {
    LastSentinelTaken(p);
    JoinedWorkers(p);
    var last := p.sentinels[4];
    assert p.head == last + 1 && p.log[last].task.Sentinel?;
    forall i | 0 <= i < |p.log| && p.log[i].task.Work?
      ensures RunOnce(p, i) <==> i < last
      ensures !RunOnce(p, i) ==> p.log[i].taker.None? && p.log[i].runs == 0
    {
      TakenTaskWasRun(p, i);
    }
  }

  lemma JoinedWorkers(p: Pool)
    requires LogInv(p) && p.joined == THREAD_POOL_SIZE
    ensures forall w | 0 <= w < |p.workers| :: p.workers[w].phase.Joined? && p.log[p.workers[w].phase.i].task.Sentinel?
    ensures forall v, w | 0 <= v < w < |p.workers| :: p.workers[v].phase != p.workers[w].phase
  {
  }

  lemma JoinedCounters(p: Pool)
    requires LogInv(p) && CountInv(p) && p.joined == THREAD_POOL_SIZE
    ensures p.busy == p.idle == p.alive == 0
  {
    SumOfZeros(p.workers, Busy);
    SumOfZeros(p.workers, Alive);
  }

  /** With every worker joined at a sentinel, a taken task is in nobody's hands, so it has been run. */
  lemma TakenTaskWasRun(p: Pool, i: nat)
    requires HoldersInv(p) && forall w | 0 <= w < |p.workers| :: p.workers[w].phase.Joined?
    requires i < |p.log| && p.log[i].task.Work?
    ensures RunOnce(p, i) <==> i < p.head
    ensures !RunOnce(p, i) ==> p.log[i].taker.None? && p.log[i].runs == 0
  {
  }

  /** Five workers that hold five different sentinels hold the last one too. */
  lemma LastSentinelTaken(p: Pool)
    requires LogInv(p) && p.joined == THREAD_POOL_SIZE
    ensures |p.sentinels| == THREAD_POOL_SIZE && p.sentinels[4] < p.head
  {
    var t := seq(5, w requires 0 <= w < 5 => SentinelHeld(p, w));
    forall v, w | 0 <= v < w < 5
      ensures t[v] != t[w]
    {
      assert p.log[p.sentinels[t[v]]].taker == Some(v) && p.log[p.sentinels[t[w]]].taker == Some(w);
    }
    FiveDistinctCover(t, 4);
    var w :| 0 <= w < 5 && t[w] == 4;
    assert p.log[p.sentinels[4]].taker == Some(w);
  }

  /** Which of the sentinels an exited or joined worker consumed. */
  ghost function SentinelHeld(p: Pool, w: nat): (k: nat)
    requires LogInv(p) && w < |p.workers| && (p.workers[w].phase.Exited? || p.workers[w].phase.Joined?)
    ensures k < |p.sentinels| && p.workers[w].Held() == Some(p.sentinels[k])
  {
    assert p.workers[w].Held() == Some(p.workers[w].phase.i);
    p.log[p.workers[w].phase.i].task.nth
  }

  /** With nothing queued behind the fifth sentinel, the drain is complete: head == tail, todoCnt == 0. */
  lemma DrainedCompletely(p: Pool)
    requires PoolInv(p) && p.joined == THREAD_POOL_SIZE
    ensures p.Todo() == 0 <==> p.sentinels[4] == |p.log| - 1
    ensures (forall i | 0 <= i < |p.log| && p.log[i].task.Work? :: RunOnce(p, i)) <==> p.Todo() == 0
  {
    Drained(p);
    assert p.head == p.sentinels[4] + 1;
    if p.Todo() > 0 {
      var last := |p.log| - 1;
      assert forall k | 0 <= k < 5 :: p.sentinels[k] <= p.sentinels[4];
      assert p.log[last].task.Work?;
      assert !RunOnce(p, last);
    } else {
      assert forall i | 0 <= i < |p.log| && p.log[i].task.Work? :: i != p.sentinels[4];
    }
  }

  // ---------------------------------------------------------------- termination

  ghost function PhaseWeight(x: Worker): nat {
    match x.phase
    case NotStarted => 3
    case Checking => 2
    case Asleep => 1
    case Woken => 2
    case Holding(_) => 13
    case Running(_, stage) => 3 + StageWeight(stage)
    case Exited(_) => 1
    case Joined(_) => 0
  }

  /** Sentinels still to send, tasks still queued, and how far each worker is from its next sleep, exit or join. */
  ghost function Measure(p: Pool): int {
    18 * (THREAD_POOL_SIZE - |p.sentinels|) + 12 * p.Todo() + Sum(p.workers, PhaseWeight)
  }

  /** A step of the shutdown itself: not a new task, not a spurious wake-up. */
  predicate ShutdownStep(e: Event) {
    !(e.Submit? && e.task.Work?) && !e.Spurious? && !e.Close?
  }

  lemma MeasureFalls(p: Pool, e: Event)
    requires LogInv(p) && Enabled(p, e) && ShutdownStep(e)
    ensures 0 <= Measure(Step(p, e)) < Measure(p)
  {
    StepKeepsLogInv(p, e);
    if e.Submit? {
      SumGrows(p.workers, Step(p, e).workers, PhaseWeight);
    } else {
      WorkerStepFalls(p, e);
    }
  }

  lemma WorkerStepFalls(p: Pool, e: Event)
    requires HoldersInv(p) && Enabled(p, e) && ShutdownStep(e) && !e.Submit?
    ensures Measure(Step(p, e)) < Measure(p)
  {
    var p' := Step(p, e);
    var w := Actor(p, e).value;
    assert w == (if e.Join? then p.joined else e.w);
    SumUpdate(p.workers, w, p'.workers[w], PhaseWeight);
    assert |p'.sentinels| == |p.sentinels|;
    if e.Check? && p.Todo() > 0 {
      assert PhaseWeight(p'.workers[w]) == PhaseWeight(p.workers[w]) + 11;
    } else {
      assert p'.Todo() == p.Todo();
      assert PhaseWeight(p'.workers[w]) < PhaseWeight(p.workers[w]);
    }
  }

  predicate CanMove(p: Pool, w: nat) {
    w < |p.workers| && !p.workers[w].phase.Asleep? && !p.workers[w].phase.Exited? && !p.workers[w].phase.Joined?
  }

  lemma NobodySleepsAfterTheLastSentinel(p: Pool, w: nat)
    requires LogInv(p) && |p.sentinels| == THREAD_POOL_SIZE && p.Todo() == 0 && w < THREAD_POOL_SIZE
    ensures !p.workers[w].phase.Asleep?
  {
    assert p.sentinels[4] < |p.log|;
    EveryWorkerHoldsASentinel(p, w);
  }

  /** While shutdown is under way and not finished, there is a sentinel to send, a worker to join, or a worker that is
      neither asleep nor gone. */
  lemma ShutdownNeverStuck(p: Pool) returns (w: nat)
    requires LogInv(p) && WakeInv(p) && p.joined < THREAD_POOL_SIZE
    requires |p.sentinels| == THREAD_POOL_SIZE && !Enabled(p, Join)
    ensures CanMove(p, w)
  {
    w := p.joined;
    if p.workers[w].phase.Asleep? {
      if p.Todo() > 0 {
        w := NoLostWakeup(p, w);
      } else {
        NobodySleepsAfterTheLastSentinel(p, w);
      }
    }
  }

  /** While the pool runs and some task has not been run, some worker is neither asleep nor gone: the one that holds the
      task, or one woken for it, or one that has not looked at the queue yet. */
  lemma SomebodyCanMove(p: Pool, i: nat) returns (w: nat)
    requires LogInv(p) && WakeInv(p) && p.isRunning
    requires i < |p.log| && p.log[i].task.Work? && p.log[i].runs == 0
    ensures CanMove(p, w)
  {
    if p.log[i].taker.Some? {
      w := p.log[i].taker.value;
      assert p.workers[w].Held() == Some(i);
    } else {
      w := 0;
      if p.workers[w].phase.Asleep? {
        w := NoLostWakeup(p, w);
      } else if p.workers[w].phase.Exited? || p.workers[w].phase.Joined? {
        GoneMeansClosed(p, w);
        assert false;
      }
    }
  }

  lemma GoneMeansClosed(p: Pool, w: nat)
    requires LogInv(p) && w < |p.workers| && (p.workers[w].phase.Exited? || p.workers[w].phase.Joined?)
    ensures !p.isRunning
  {
    var k := SentinelHeld(p, w);
    assert k < |p.sentinels|;
  }
}
